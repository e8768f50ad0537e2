/** The endpoint `post_message_ai` as one function from the request, the
    stored conversations and messages, and the collaborators, to the
    response, the messages appended and the calls made on the way. */
module Pipeline {
  import opened Types
  import opened Collaborators
  import opened History
  import opened Grounding
  import opened PromptComposer
  import opened Reply

  const MissingIdError := "conversation_id is required"
  const NotFoundError := "Conversation not found"
  const ProfileError := "Failed to retrieve AI profile"
  const InvalidReplyError := "Invalid JSON response from GPT-4o"
  const AppendedMessage := "AI messages appended to conversation"

  /** The result of one run. `appended` is what the single commit adds to the
      store; it is empty on every failure. */
  datatype Outcome = Outcome(response: Response, appended: seq<Message>, calls: seq<Call>)

  function Stop(status: int, error: string, calls: seq<Call>): Outcome {
    Outcome(Response(status, ErrorBody(error)), [], calls)
  }

  /** The request names a stored conversation. */
  predicate Found(req: Request, conversations: map<int, Conversation>) {
    req.conversationId.Some? && req.conversationId.value in conversations
  }

  function ConversationOf(req: Request, conversations: map<int, Conversation>): Conversation
    requires Found(req, conversations)
  {
    conversations[req.conversationId.value]
  }

  /** The profiles service answered, with status 200. */
  predicate PersonaOk(req: Request, conversations: map<int, Conversation>, svc: Services)
    requires Found(req, conversations)
  {
    var p := svc.persona(ConversationOf(req, conversations).contentId);
    p.Some? && p.value.status == 200
  }

  /** The system instructions of a persona that answered: "" when its body
      lacks `systems_instructions`. */
  function InstructionsOf(req: Request, conversations: map<int, Conversation>, svc: Services): string
    requires Found(req, conversations) && PersonaOk(req, conversations, svc)
  {
    svc.persona(ConversationOf(req, conversations).contentId).value.systemsInstructions.GetOr("")
  }

  function HistoryOf(req: Request, messages: seq<Message>): seq<Message>
    requires req.conversationId.Some?
  {
    MessagesOf(messages, req.conversationId.value)
  }

  /** The whole endpoint, steps 1 to 6, with each early return. Statuses and
      error texts pair up as the endpoint returns them, and only a 200 run
      appends anything: AI messages of the request's conversation, tagged
      with the request's chunk identifier whenever that one is truthy. */
  function Handle(req: Request, conversations: map<int, Conversation>, messages: seq<Message>,
                  svc: Services): (o: Outcome)
    ensures o.response.status in {200, 400, 404, 500}
    ensures o.response.status == 200 <==> o.response.body == MessageBody(AppendedMessage)
    ensures o.response.status == 400 ==>
              o.response.body.ErrorBody? && o.response.body.error in {MissingIdError, NoMessageError, NoMatchError}
    ensures o.response.status == 404 ==> o.response.body == ErrorBody(NotFoundError)
    ensures o.response.status == 500 ==>
              o.response.body.ErrorBody?
              && o.response.body.error in {ProfileError, ChunkFetchError, SearchError, InvalidReplyError, InternalError}
    ensures o.response.status != 200 ==> o.appended == []
    ensures o.response.status == 200 ==>
              req.conversationId.Some?
              && forall m :: m in o.appended ==>
                   && m.sender == Ai && m.conversationId == req.conversationId.value
                   && (Truthy(req.contentChunkId) ==> m.contentChunkId == req.contentChunkId)
  {
    if req.conversationId.None? then Stop(400, MissingIdError, [])
    else if req.conversationId.value !in conversations then Stop(404, NotFoundError, [])
    else
      var cid := req.conversationId.value;
      var conv := conversations[cid];
      var history := MessagesOf(messages, cid);
      var personaCalls := [FetchPersona(conv.contentId)];
      match svc.persona(conv.contentId)
      case None => Stop(500, InternalError, personaCalls)
      case Some(persona) =>
        if persona.status != 200 then Stop(500, ProfileError, personaCalls)
        else
          var instructions := persona.systemsInstructions.GetOr("");
          match Ground(req.contentChunkId, conv.userId, history, svc)
          case NotGrounded(response, groundCalls) => Outcome(response, [], personaCalls + groundCalls)
          case Grounded(chunkId, chunkText, groundCalls) =>
            Answer(cid, instructions, history, chunkId, chunkText, personaCalls + groundCalls, svc)
  }

  /** Steps 4 to 6 once grounded, after the calls `before`: one model call on
      the composed prompt, then the parse and the batch. Only a 200 appends,
      and what it appends is AI messages of the conversation tagged with the
      grounding chunk identifier. */
  function Answer(cid: int, instructions: string, history: seq<Message>, chunkId: Option<int>, chunkText: string,
                  before: seq<Call>, svc: Services): (o: Outcome)
    ensures o.calls == before + [Generate(Prompt(instructions, history, chunkText))]
    ensures o.response.status in {200, 500}
    ensures o.response.status == 200 <==> o.response.body == MessageBody(AppendedMessage)
    ensures o.response.status == 500 ==>
              o.response.body.ErrorBody? && o.response.body.error in {InvalidReplyError, InternalError}
    ensures o.response.status != 200 ==> o.appended == []
    ensures forall m :: m in o.appended ==>
              m.sender == Ai && m.conversationId == cid && m.contentChunkId == chunkId
  {
    var prompt := Prompt(instructions, history, chunkText);
    var calls := before + [Generate(prompt)];
    match svc.generate(prompt)
    case None => Stop(500, InternalError, calls)
    case Some(raw) =>
      match svc.parse(StripFences(raw))
      case None => Stop(500, InternalError, calls)
      case Some(value) =>
        match Batch(value, cid, chunkId)
        case None => Stop(500, InvalidReplyError, calls)
        case Some(batch) => Outcome(Response(200, MessageBody(AppendedMessage)), batch, calls)
  }

  /** Without `conversation_id` the run is a 400 that consults nobody. */
  lemma MissingConversationId(req: Request, conversations: map<int, Conversation>, messages: seq<Message>, svc: Services)
    requires req.conversationId.None?
    ensures Handle(req, conversations, messages, svc) == Stop(400, MissingIdError, [])
  {
  }

  /** An identifier with no stored conversation is a 404 that consults nobody. */
  lemma UnknownConversation(req: Request, conversations: map<int, Conversation>, messages: seq<Message>, svc: Services)
    requires req.conversationId.Some? && req.conversationId.value !in conversations
    ensures Handle(req, conversations, messages, svc) == Stop(404, NotFoundError, [])
  {
  }

  /** The persona is fetched first; when that fails the run stops there,
      before any grounding, so this 500 wins even over an empty history. A
      non-200 answer is "Failed to retrieve AI profile"; a call that raises
      is an internal error. */
  lemma PersonaFailure(req: Request, conversations: map<int, Conversation>, messages: seq<Message>, svc: Services)
    requires Found(req, conversations)
    requires !PersonaOk(req, conversations, svc)
    ensures var contentId := ConversationOf(req, conversations).contentId;
      Handle(req, conversations, messages, svc)
      == Stop(500, if svc.persona(contentId).None? then InternalError else ProfileError, [FetchPersona(contentId)])
  {
  }

  /** Once the persona is fetched, grounding decides how the run goes on. A
      grounding failure ends the run with grounding's own response. A success
      puts the grounding calls right after the persona call, and every
      message appended is tagged with the grounded chunk. */
  lemma AfterPersona(req: Request, conversations: map<int, Conversation>, messages: seq<Message>, svc: Services)
    requires Found(req, conversations)
    requires PersonaOk(req, conversations, svc)
    ensures var o := Handle(req, conversations, messages, svc);
      var conv := ConversationOf(req, conversations);
      var g := Ground(req.contentChunkId, conv.userId, HistoryOf(req, messages), svc);
      && (g.NotGrounded? ==> o == Outcome(g.response, [], [FetchPersona(conv.contentId)] + g.calls))
      && (g.Grounded? ==>
            && o.calls == [FetchPersona(conv.contentId)] + g.calls
                          + [Generate(Prompt(InstructionsOf(req, conversations, svc), HistoryOf(req, messages), g.text))]
            && o.calls[..|g.calls| + 1] == [FetchPersona(conv.contentId)] + g.calls
            && forall m :: m in o.appended ==> m.contentChunkId == g.chunkId)
  {
    var o := Handle(req, conversations, messages, svc);
    var conv := ConversationOf(req, conversations);
    var history := HistoryOf(req, messages);
    var g := Ground(req.contentChunkId, conv.userId, history, svc);
    if g.Grounded? {
      var instructions := InstructionsOf(req, conversations, svc);
      var head := [FetchPersona(conv.contentId)] + g.calls;
      assert o == Answer(req.conversationId.value, instructions, history, g.chunkId, g.text, head, svc);
      var prompt := Prompt(instructions, history, g.text);
      assert (head + [Generate(prompt)])[..|head|] == head;
    }
  }

  /** A truthy `content_chunk_id` is fetched directly, right after the
      persona: a non-200 fetch is a 500, a fetch that raises or a reply
      without `text` an internal error, and otherwise the model is called
      next with that text (a null one shown as "None") as the prompt's
      content, and every message appended carries that identifier. */
  lemma DirectChunk(req: Request, conversations: map<int, Conversation>, messages: seq<Message>, svc: Services)
    requires Found(req, conversations)
    requires PersonaOk(req, conversations, svc)
    requires Truthy(req.contentChunkId)
    ensures var o := Handle(req, conversations, messages, svc);
      var id := req.contentChunkId.value;
      var reply := svc.chunk(id);
      var firstCalls := [FetchPersona(ConversationOf(req, conversations).contentId), FetchChunk(id)];
      && |o.calls| >= 2 && o.calls[..2] == firstCalls
      && (reply.None? ==> o == Stop(500, InternalError, firstCalls))
      && (reply.Some? && reply.value.status != 200 ==> o == Stop(500, ChunkFetchError, firstCalls))
      && (reply.Some? && reply.value.status == 200 && reply.value.text.None? ==> o == Stop(500, InternalError, firstCalls))
      && (reply.Some? && reply.value.status == 200 && reply.value.text.Some? ==>
            o.calls == firstCalls
                       + [Generate(Prompt(InstructionsOf(req, conversations, svc), HistoryOf(req, messages), Shown(reply.value.text.value)))])
      && (forall m :: m in o.appended ==> m.contentChunkId == Some(id))
  {
    var conv := ConversationOf(req, conversations);
    var id := req.contentChunkId.value;
    var g := Ground(req.contentChunkId, conv.userId, HistoryOf(req, messages), svc);
    assert g.calls == [FetchChunk(id)];
    assert g.Grounded? ==> g.chunkId == Some(id) && g.text == Shown(svc.chunk(id).value.text.value);
    AfterPersona(req, conversations, messages, svc);
  }

  /** With no usable chunk identifier (absent, or 0) and no messages, the
      run is a 400 and no search is made. */
  lemma NoMessagesNoSearch(req: Request, conversations: map<int, Conversation>, messages: seq<Message>, svc: Services)
    requires Found(req, conversations)
    requires PersonaOk(req, conversations, svc)
    requires !Truthy(req.contentChunkId)
    requires HistoryOf(req, messages) == []
    ensures var o := Handle(req, conversations, messages, svc);
      && o == Stop(400, NoMessageError, [FetchPersona(ConversationOf(req, conversations).contentId)])
      && forall c :: c in o.calls ==> !c.Search?
  {
  }

  /** With no usable chunk identifier and some messages, the search asks for
      one match to the last two texts, newest first, for the conversation's
      user. A non-200 answer or one with `errors` is a 500, a search that
      raises an internal error, and no match a 400 with no model call. A
      match makes the first hit's text the prompt's content for the model
      call that comes next, and every appended message carries that hit's
      chunk identifier, none when it is null. */
  lemma SearchPath(req: Request, conversations: map<int, Conversation>, messages: seq<Message>, svc: Services)
    requires Found(req, conversations)
    requires PersonaOk(req, conversations, svc)
    requires !Truthy(req.contentChunkId)
    requires HistoryOf(req, messages) != []
    ensures var o := Handle(req, conversations, messages, svc);
      var conv := ConversationOf(req, conversations);
      var query := SearchQuery(conv.userId, QueryText(HistoryOf(req, messages)), 1);
      var reply := svc.search(query);
      var firstCalls := [FetchPersona(conv.contentId), Search(query)];
      && |o.calls| >= 2 && o.calls[..2] == firstCalls
      && (reply.None? ==> o == Stop(500, InternalError, firstCalls))
      && (reply.Some? && (reply.value.status != 200 || reply.value.hasErrors) ==> o == Stop(500, SearchError, firstCalls))
      && (reply.Some? && reply.value.status == 200 && !reply.value.hasErrors && reply.value.hits == [] ==>
            o == Stop(400, NoMatchError, firstCalls) && forall c :: c in o.calls ==> !c.Generate?)
      && (reply.Some? && reply.value.status == 200 && !reply.value.hasErrors && reply.value.hits != [] ==>
            && o.calls == firstCalls
                          + [Generate(Prompt(InstructionsOf(req, conversations, svc), HistoryOf(req, messages), Shown(reply.value.hits[0].text)))]
            && forall m :: m in o.appended ==> m.contentChunkId == reply.value.hits[0].chunkId)
  {
    var conv := ConversationOf(req, conversations);
    var history := HistoryOf(req, messages);
    var query := SearchQuery(conv.userId, QueryText(history), 1);
    var reply := svc.search(query);
    var g := Ground(req.contentChunkId, conv.userId, history, svc);
    assert g.calls == [Search(query)];
    assert g.Grounded? ==> g.chunkId == reply.value.hits[0].chunkId && g.text == Shown(reply.value.hits[0].text);
    AfterPersona(req, conversations, messages, svc);
  }

  /** Once grounded, the model gets the composed prompt (instructions default
      to ""). A failed call or an unparseable reply is an internal error, a
      parsed reply of the wrong shape is "Invalid JSON", and a valid one is a
      200 that appends exactly the batch it describes. */
  lemma ReplyHandling(req: Request, conversations: map<int, Conversation>, messages: seq<Message>, svc: Services)
    requires Found(req, conversations)
    requires PersonaOk(req, conversations, svc)
    requires Ground(req.contentChunkId, ConversationOf(req, conversations).userId, HistoryOf(req, messages), svc).Grounded?
    ensures var o := Handle(req, conversations, messages, svc);
      var conv := ConversationOf(req, conversations);
      var history := HistoryOf(req, messages);
      var g := Ground(req.contentChunkId, conv.userId, history, svc);
      var prompt := Prompt(InstructionsOf(req, conversations, svc), history, g.text);
      var calls := [FetchPersona(conv.contentId)] + g.calls + [Generate(prompt)];
      var raw := svc.generate(prompt);
      && o.calls == calls
      && (raw.None? ==> o == Stop(500, InternalError, calls))
      && (raw.Some? && svc.parse(StripFences(raw.value)).None? ==> o == Stop(500, InternalError, calls))
      && (raw.Some? && svc.parse(StripFences(raw.value)).Some? ==>
            var b := Batch(svc.parse(StripFences(raw.value)).value, req.conversationId.value, g.chunkId);
            && (b.None? ==> o == Stop(500, InvalidReplyError, calls))
            && (b.Some? ==> o.response.status == 200 && o.appended == b.value))
  {
  }

  /** A successful run only appends: the conversation's history afterwards
      is the old history followed by the new messages, so running again adds
      more messages instead of replacing them, and no other conversation's
      history changes. */
  lemma RerunAppends(req: Request, conversations: map<int, Conversation>, messages: seq<Message>, svc: Services, other: int)
    requires Handle(req, conversations, messages, svc).response.status == 200
    requires other != req.conversationId.value
    ensures var o := Handle(req, conversations, messages, svc);
      var cid := req.conversationId.value;
      && MessagesOf(messages + o.appended, cid) == MessagesOf(messages, cid) + o.appended
      && MessagesOf(messages + o.appended, other) == MessagesOf(messages, other)
  {
    var o := Handle(req, conversations, messages, svc);
    var cid := req.conversationId.value;
    MessagesOfAppend(messages, o.appended, cid);
    MessagesOfAppend(messages, o.appended, other);
    MessagesOfOwn(o.appended, cid);
    MessagesOfOther(o.appended, other);
    assert MessagesOf(messages, other) + [] == MessagesOf(messages, other);
  }
}
