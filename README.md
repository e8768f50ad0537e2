# AI-reply pipeline of gnosis-influencer, in Dafny

This project models the endpoint `POST /api/message/ai` (`post_message_ai`
in `app.py`). Given a conversation between a user and an AI persona, the
endpoint:

1. loads the conversation and its messages in timestamp order;
2. fetches the persona's system instructions for the conversation's content domain;
3. grounds the reply in a content chunk. It uses the chunk the request names
   when that identifier is truthy. Otherwise it runs a similarity search over
   the last two messages;
4. composes a chat prompt: system instructions, the whole history, then a task;
5. asks the model for a JSON list of tweets;
6. strips code fences, parses the reply, and appends one AI message per tweet
   in a single commit.

Each early return becomes a status and an error text.

The collaborators are the profiles service, the chunk service, the GraphQL
search, the chat model and `json.loads`. They are fields of a `Services`
value, each a total function of its arguments. A service that answers
`None` stands for a call that raises; the endpoint's outer handler turns
that into 500 "Internal server error". `Pipeline.Handle` is the
whole endpoint as a function. It returns the response, the messages
appended and the collaborator calls made, in order, so "no search is made"
and "the model is not called" can be stated. `Store.ConversationStore` holds
the conversations and the timestamp-ordered `seq<Message>`. Its method
`PostMessageAi` runs the steps imperatively. The history loop is a `while`
loop in `ComposePrompt`, followed by the task text grown by successive
assignments, as the code's `+=` does. The tweet loop is a `while` loop in
`BuildBatch`. It is proved to give `Handle`'s response and to change the
store by exactly `Handle`'s appended messages.

Modules, one per file:

- `Types`: entities, request and response, prompt entries, JSON values.
- `Collaborators`: service replies, `Services`, `Call`.
- `Text`: Python's `strip`, `replace` and `join`.
- `History`: reading a conversation's messages.
- `Grounding`: step 3.
- `PromptComposer`: steps 4 and 5.
- `Reply`: step 6.
- `Pipeline`: `Handle`, its grounded tail `Answer`, and the outcome lemmas.
- `Store`: the store class.

The model follows the code, including where it behaves unexpectedly:

- A reply that `json.loads` rejects is raised outside the inner `try`. It
  gives 500 "Internal server error", not "Invalid JSON response from GPT-4o".
- A failed model call also gives 500 "Internal server error".
- A profiles, chunk or search request that raises (no connection, a
  timeout, a 200 body that cannot be read) is not reported as a retrieval
  failure. The outer handler turns it into 500 "Internal server error".
- The persona is fetched before grounding. A persona failure therefore wins
  over the empty-history 400.
- A chunk identifier of 0 is falsy, so it takes the search path.
- The search is scoped to the conversation's user only.
- The parsed reply is iterated, not type-checked. An empty object `{}` or an
  empty string `""` iterates zero times, so the run returns 200 and appends
  nothing. A non-empty object or string fails on its first element.
- A search hit whose `chunkId` is null is used as is: the new messages
  are stored without a chunk identifier. Only a truthy `content_chunk_id`
  in the request guarantees that they carry one.
- A chunk or hit `text` that is null is not an error. The prompt then
  ends with "Content: None".
- The search text joins the last two messages whoever sent them. The reply
  task instead quotes the last message whose sender is a user.

## Model

| member | source | states |
|---|---|---|
| `Text.TrimStart` | app.py:215 | the result is the suffix of the input after its leading whitespace: that prefix is all whitespace and the result does not start with whitespace |
| `Text.TrimEnd` | app.py:215 | the result is the prefix before the trailing whitespace, which is all whitespace, and it does not end with whitespace |
| `Text.Strip` | app.py:215 | `strip()` neither starts nor ends with whitespace, and gives "" for an input that is all whitespace |
| `Text.StripSlice` | app.py:215 | `strip()` gives the slice of the input that starts right after its leading whitespace |
| `Text.StripDropsSpace` | app.py:215 | what `strip()` drops on either side of that slice is all whitespace |
| `Text.StripExact` | app.py:215 | stripping whitespace from around a text with non-space ends gives back exactly that text |
| `Text.RemoveAll` | app.py:215 | `replace(pat, '')` never lengthens the text; `RemoveAllSkips` and `RemoveFenceLeavesNone` state what it keeps and what it removes |
| `Text.RemoveAllSkips` | app.py:215 | `replace(pat, '')` leaves unchanged a prefix that does not contain the pattern's first character |
| `Text.RemoveFenceLeavesNone` | app.py:215 | after `replace("```", "")` no three backticks in a row remain, even where removal joins backticks |
| `Grounding.Ground` | app.py:117-177 | a truthy chunk id is the only call and, on success, the grounding id with the fetched text (null shown as "None"); otherwise an empty history is a 400 with no call, and a history makes exactly one search for the conversation's user, the query text and limit 1, whose first hit's id and text ground the reply; every failure is a 400 "No user message…"/"No similar content…" or a 500 with the chunk, search or internal error text |
| `Grounding.LastMessages` | app.py:129 | at most two messages, newest first: element i is the (i+1)-th most recent |
| `Grounding.QueryText` | app.py:147-151 | the query text is "" for no messages, the only text for one, and otherwise the newest text, a space, then the second newest |
| `PromptComposer.LastUserText` | app.py:182-188 | the loop's `user_query` as a recursion from the newest message; its meaning is stated by `LastUserTextSpec` |
| `PromptComposer.LastUserTextSpec` | app.py:182-188 | the quoted user query is the text of the last message whose sender is a user, and "" when there is none |
| `PromptComposer.TaskText` | app.py:196-204 | the final entry's text always ends with the JSON-format instruction, "\n\nContent: " and the chunk text; `TaskTextCases` states how it begins |
| `PromptComposer.Prompt` | app.py:190-206 | the prompt has one entry per message plus two, and only its first entry has the system role; `PromptShape` states each entry |
| `PromptComposer.ComposePrompt` | app.py:181-206 | the loop over the history and the growing task text produce exactly the prompt value `Prompt` |
| `PromptComposer.PromptShape` | app.py:191-194 | the prompt has N+2 entries: system with the instructions, the N messages in stored order with role user for a user's message and assistant otherwise and the text unchanged, then one user entry |
| `PromptComposer.TaskTextCases` | app.py:196-204 | the last entry starts with the first-turn task exactly when there are no messages, otherwise with the reply task quoting the last user text, and always ends with the JSON-format instruction, "\n\nContent: " and the chunk text, with nothing between the task and that ending |
| `Reply.StripFences` | app.py:215 | the text handed to `json.loads` never holds three backticks in a row |
| `Reply.StripFencesUnwraps` | app.py:215 | a reply written as whitespace, "```json", a backtick-free body, "```", whitespace reaches the parser as exactly the body |
| `Reply.StripFencesPlain` | app.py:215 | a reply without backticks is only stripped of surrounding whitespace |
| `Reply.TweetTexts` | app.py:219-224 | iterating the parsed value: an array yields its elements' tweets as `ArrayTweets` does; anything else is accepted only as `{}` or `""`, with no texts |
| `Reply.ArrayTweets` | app.py:219-224 | an array yields texts exactly when every element is an object with a string `tweet`, and then one text per element in order |
| `Reply.Batch` | app.py:219-226 | a reply is accepted exactly when its tweets can be read, and every message built is an AI message of the conversation tagged with the given chunk identifier, which may be none |
| `Reply.BuildBatch` | app.py:218-232 | the loop over the parsed value, stopping at the first bad element, builds exactly the batch `Batch` describes, or nothing |
| `Reply.BatchOfArray` | app.py:219-226 | an array gives messages exactly when all elements are tweet objects: one per element, in order, with sender ai, the request's conversation, the element's tweet and the given chunk identifier |
| `Reply.BatchOfNonArray` | app.py:219 | a non-array value is accepted only as `{}` or `""`, and then gives zero messages |
| `Reply.TwoTweetReply` | app.py:219-227 | the reply `[{"tweet":"a"},{"tweet":"b"}]` gives exactly two AI messages, "a" then "b" |
| `History.MessagesOf` | app.py:100 | a conversation's history is drawn from the store and holds only that conversation's messages |
| `History.MessagesOfAppend` | app.py:100 | reading after an append is the old reading followed by the reading of the appended part |
| `History.MessagesOfOwn` | app.py:100 | messages that all belong to the conversation read back whole and in order |
| `History.MessagesOfOther` | app.py:100 | messages of other conversations do not appear in a conversation's history |
| `Pipeline.Handle` | app.py:80-239 | every run ends in 200, 400, 404 or 500, each with its own error texts; only a 200 appends; whatever it appends is AI messages of the request's conversation, tagged with the request's chunk id whenever that id is truthy |
| `Pipeline.Answer` | app.py:180-235 | once grounded, exactly one model call on the composed prompt follows the earlier calls; the run ends in 200 with the appended message, or 500 "Invalid JSON response from GPT-4o" or "Internal server error" with nothing appended; appended messages are AI messages of the conversation tagged with the grounding chunk identifier |
| `Pipeline.MissingConversationId` | app.py:83-85 | no `conversation_id` gives 400 "conversation_id is required", no collaborator call and nothing appended |
| `Pipeline.UnknownConversation` | app.py:94-97 | an unknown conversation gives 404 "Conversation not found", no collaborator call and nothing appended |
| `Pipeline.PersonaFailure` | app.py:107-111 | a non-200 persona reply gives 500 "Failed to retrieve AI profile", and a persona call that raises gives 500 "Internal server error" through the outer handler (app.py:237-239), both after that one call, before any grounding, whatever the history |
| `Pipeline.AfterPersona` | app.py:113-212 | after a 200 persona reply, a grounding failure ends the run with grounding's response and no append; a grounding success is followed by exactly one model call, on the prompt built from the grounded text, and every appended message carries the grounding chunk identifier |
| `Pipeline.DirectChunk` | app.py:118-126 | a truthy chunk id is fetched second; non-200 gives 500 "Failed to retrieve chunk text"; a fetch that raises or a reply without `text` is 500 "Internal server error" through the outer handler (app.py:237-239); otherwise the next call is the model's, on a prompt whose content is the fetched text (a null one shown as "None"), and appended messages carry the supplied id |
| `Pipeline.NoMessagesNoSearch` | app.py:128-132 | a falsy chunk id (absent or 0) with no messages gives 400 "No user message found to base AI response on" and no search |
| `Pipeline.SearchPath` | app.py:128-177 | otherwise the second call is a search for the conversation's user, the query text of the last two messages and limit 1; non-200 or `errors` gives 500 "Failed to perform search"; a search that raises gives 500 "Internal server error" through the outer handler (app.py:237-239); no hits gives 400 and no model call; a hit makes the first hit's text the prompt's content for the model call that comes next, and every appended message carries the first hit's chunk id, none when that id is null |
| `Pipeline.ReplyHandling` | app.py:190-235 | once grounded, the model gets the composed prompt with instructions defaulting to ""; a failed call or unparseable reply is 500 "Internal server error"; a wrong shape is 500 "Invalid JSON response from GPT-4o"; a valid reply is 200 and appends exactly its batch |
| `Pipeline.RerunAppends` | app.py:218-228 | after a successful run the conversation's history is the old history followed by the new messages, so a rerun adds rather than replaces, and other conversations are unchanged |
| `Store.ConversationStore.Commit` | app.py:227-228 | the batch is appended after the existing messages in one step and the store stays consistent |
| `Store.ConversationStore.PostMessageAi` | app.py:80-239 | the method returns the response `Handle` gives and changes the store by exactly `Handle`'s appended messages, none on any failure |

## Left out

- HTTP plumbing is not modelled: Flask routing, `request.get_json`, `jsonify`, CORS and `app.run` (app.py:19-20, 69, 259-260). A request body is two optional integers. Non-integer JSON values for the two identifiers are not modelled.
- Secrets, the database URI, service URLs and the model name (app.py:22-44, 211) are configuration with no logic.
- The API-key check in `before_request` (app.py:242-257) is authentication plumbing outside the pipeline.
- The `X-Correlation-ID` and `X-API-KEY` headers forwarded to the services (app.py:104-106) are not modelled.
- The GraphQL query text is not modelled. `str(conversation.user_id)` is modelled as the integer user id.
- A `conversation_id` that is present but null is not modelled. The source lets it past the 400 check (app.py:83), `Conversation.query.get(None)` finds nothing, and it returns 404 "Conversation not found" (app.py:94-97). The model has no null identifier, so such a request can only be written as a missing `conversation_id`, which gives 400. A null `content_chunk_id` is falsy in the source and the same as an absent one, as modelled.
- Collaborator replies are reduced to what the endpoint reads, and the ways a call can raise are not told apart. A request that raises, and a 200 reply the endpoint cannot read (a body that is not a JSON object; a search body without `errors` whose `data` is null, or whose first hit lacks `chunkId` or `text`), are all one `None` answer, which gives 500 "Internal server error" as in the source. A chunk reply without `text` is modelled separately and gives the same 500. A `chunkId` that is neither an integer nor null, or a `text` that is neither a string nor null, is not modelled.
- A `systems_instructions` key that is present but null is not modelled. The source passes `None` to the model as the system message's content (app.py:114, 191-192). The model's instructions are a string, "" when the key is absent.
- `json.loads` is the abstract `Services.parse`, and JSON numbers are integers.
- `Reply.TweetTexts` treats a `tweet` value that is not a string as invalid. The database driver would store a number or boolean as text; that coercion is not modelled.
- A database failure while loading the conversation, or at commit time, is not modelled. The first would give 500 "Internal server error"; the second is caught by the inner handler. The commit always succeeds.
- Row identifiers and `func.now()` timestamps are not modelled. Position in the store's sequence stands for timestamp order, including within one batch.
- Logging is not modelled.
- Concurrency and transaction isolation between requests are not modelled. Each run is one atomic step on the store.
