/** The services the endpoint consults, reduced to what it reads from their
    replies. Each one is a total function of its arguments, so a run of the
    pipeline is a function of the request, the store and these services. A
    service that answers None stands for a call that raises on the way: the
    request itself fails (no connection, a timeout), or the endpoint cannot
    read a 200 reply it goes on to read. */
module Collaborators {
  import opened Types

  /** Reply of the profiles service for a content domain. */
  datatype PersonaResponse = PersonaResponse(status: int, systemsInstructions: Option<string>)

  /** Reply of the query service for one chunk. `text` is None when the body
      lacks that key, and Some(None) when it holds null. */
  datatype ChunkResponse = ChunkResponse(status: int, text: Option<Option<string>>)

  /** One element of `searchSimilarChunks`: the two fields the endpoint
      reads, None where the field holds null. */
  datatype SearchHit = SearchHit(chunkId: Option<int>, text: Option<string>)

  /** The variables of the similarity-search query. */
  datatype SearchQuery = SearchQuery(userId: int, queryText: string, limit: int)

  /** Reply of the search service. `hasErrors` says whether the body has an
      `errors` key; `hits` is empty when `data.searchSimilarChunks` is absent,
      null or an empty list. */
  datatype SearchResponse = SearchResponse(status: int, hasErrors: bool, hits: seq<SearchHit>)

  datatype Services = Services(
    /** None when the request raises, or its 200 body is not a JSON object. */
    persona: int -> Option<PersonaResponse>,
    /** None when the request raises, or its 200 body is not a JSON object. */
    chunk: int -> Option<ChunkResponse>,
    /** None when the request raises, its 200 body is not a JSON object, or
        that body has no `errors` key and reading `data.searchSimilarChunks`
        or its first hit raises (`data` is null, say). */
    search: SearchQuery -> Option<SearchResponse>,
    /** The model's text for a prompt; None when the call raises or returns no content. */
    generate: seq<PromptEntry> -> Option<string>,
    /** `json.loads`; None when it raises. */
    parse: string -> Option<Json>)

  /** One round trip to a collaborator, in the order a run makes them. */
  datatype Call =
    | FetchPersona(contentId: int)
    | FetchChunk(chunkId: int)
    | Search(query: SearchQuery)
    | Generate(prompt: seq<PromptEntry>)
}
