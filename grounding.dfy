/** Grounding: which content chunk the reply is based on, either the one the
    request names or the best match of a similarity search over the most
    recent messages (app.py, step 3). */
module Grounding {
  import opened Types
  import opened Collaborators
  import opened Text

  const ChunkFetchError := "Failed to retrieve chunk text"
  const NoMessageError := "No user message found to base AI response on"
  const SearchError := "Failed to perform search"
  const NoMatchError := "No similar content found for AI to respond with"
  const InternalError := "Internal server error"

  /** Python truthiness of the optional `content_chunk_id`: absent (None) and
      0 are false. */
  predicate Truthy(id: Option<int>) {
    id.Some? && id.value != 0
  }

  function Reverse<T>(s: seq<T>): (r: seq<T>)
    ensures |r| == |s|
    ensures forall i :: 0 <= i < |s| ==> r[i] == s[|s| - 1 - i]
  {
    if s == [] then [] else [s[|s| - 1]] + Reverse(s[..|s| - 1])
  }

  /** `[msg for msg in reversed(messages)][:2]`: the most recent messages,
      newest first, at most two of them. */
  function LastMessages(history: seq<Message>): (r: seq<Message>)
    ensures |r| == if |history| < 2 then |history| else 2
    ensures forall i :: 0 <= i < |r| ==> r[i] == history[|history| - 1 - i]
  {
    Reverse(history)[..if |history| < 2 then |history| else 2]
  }

  function Texts(ms: seq<Message>): (r: seq<string>)
    ensures |r| == |ms| && forall i :: 0 <= i < |ms| ==> r[i] == ms[i].text
  {
    seq(|ms|, i requires 0 <= i < |ms| => ms[i].text)
  }

  /** The search text: the texts of the last two messages, whoever sent them,
      newest first, joined with one space. */
  function QueryText(history: seq<Message>): (q: string)
    ensures |history| == 0 ==> q == ""
    ensures |history| == 1 ==> q == history[0].text
    ensures |history| >= 2 ==>
              q == history[|history| - 1].text + " " + history[|history| - 2].text
  {
    var parts := Texts(LastMessages(history));
    assert |parts| == 2 ==> Join(" ", parts[1..]) == parts[1];
    Join(" ", parts)
  }

  /** A string field as an f-string shows it: null prints as "None". */
  function Shown(text: Option<string>): string {
    if text.None? then "None" else text.value
  }

  /** The outcome of step 3: a chunk identifier and text, or the response the
      endpoint returns instead. Either way, the calls made to get there. */
  datatype GroundResult =
    | Grounded(chunkId: Option<int>, text: string, calls: seq<Call>)
    | NotGrounded(response: Response, calls: seq<Call>)

  /** Step 3 of the endpoint, with its early returns. A call that raises is
      caught by the endpoint's outer handler as an internal error. A truthy
      identifier is fetched and grounds the reply itself; otherwise an empty
      history stops before any call, and a history asks the search for one
      match to its last two texts, whose first hit grounds the reply. */
  function Ground(chunkArg: Option<int>, userId: int, history: seq<Message>, svc: Services): (g: GroundResult)
    ensures Truthy(chunkArg) ==>
              && g.calls == [FetchChunk(chunkArg.value)]
              && (g.Grounded? ==>
                    var reply := svc.chunk(chunkArg.value);
                    && reply.Some? && reply.value.status == 200 && reply.value.text.Some?
                    && g.chunkId == chunkArg && g.text == Shown(reply.value.text.value))
    ensures !Truthy(chunkArg) && |history| == 0 ==> g == NotGrounded(Response(400, ErrorBody(NoMessageError)), [])
    ensures !Truthy(chunkArg) && |history| > 0 ==>
              var query := SearchQuery(userId, QueryText(history), 1);
              && g.calls == [Search(query)]
              && (g.Grounded? ==>
                    var reply := svc.search(query);
                    && reply.Some? && reply.value.status == 200 && !reply.value.hasErrors && reply.value.hits != []
                    && g.chunkId == reply.value.hits[0].chunkId && g.text == Shown(reply.value.hits[0].text))
    ensures g.NotGrounded? ==>
              && g.response.body.ErrorBody?
              && (|| (g.response.status == 400 && g.response.body.error in {NoMessageError, NoMatchError})
                  || (g.response.status == 500 && g.response.body.error in {ChunkFetchError, SearchError, InternalError}))
  {
    if Truthy(chunkArg) then
      var id := chunkArg.value;
      var calls := [FetchChunk(id)];
      match svc.chunk(id)
      case None => NotGrounded(Response(500, ErrorBody(InternalError)), calls)
      case Some(reply) =>
        if reply.status != 200 then NotGrounded(Response(500, ErrorBody(ChunkFetchError)), calls)
        else if reply.text.None? then NotGrounded(Response(500, ErrorBody(InternalError)), calls)
        else Grounded(chunkArg, Shown(reply.text.value), calls)
    else if |history| == 0 then
      NotGrounded(Response(400, ErrorBody(NoMessageError)), [])
    else
      var query := SearchQuery(userId, QueryText(history), 1);
      var calls := [Search(query)];
      match svc.search(query)
      case None => NotGrounded(Response(500, ErrorBody(InternalError)), calls)
      case Some(reply) =>
        if reply.status != 200 || reply.hasErrors then NotGrounded(Response(500, ErrorBody(SearchError)), calls)
        else if reply.hits == [] then NotGrounded(Response(400, ErrorBody(NoMatchError)), calls)
        else Grounded(reply.hits[0].chunkId, Shown(reply.hits[0].text), calls)
  }
}
