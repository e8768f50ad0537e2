/** The in-memory store the endpoint reads and appends to, and the endpoint
    itself as a method that runs its steps in order and commits once. */
module Store {
  import opened Types
  import opened Collaborators
  import opened History
  import opened Grounding
  import opened PromptComposer
  import opened Reply
  import opened Pipeline

  class ConversationStore {
    /** Conversations by identifier; created elsewhere, only read here. */
    var conversations: map<int, Conversation>
    /** Every message, in timestamp order. */
    var messages: seq<Message>

    /** Every message belongs to a stored conversation (the foreign key).
        It is preserved by `Commit` and `PostMessageAi`: a successful run
        appends only messages of the request's conversation, which is
        stored. */
    ghost predicate Valid()
      reads this
    {
      forall i :: 0 <= i < |messages| ==> messages[i].conversationId in conversations
    }

    constructor (conversations: map<int, Conversation>, messages: seq<Message>)
      requires forall i :: 0 <= i < |messages| ==> messages[i].conversationId in conversations
      ensures Valid()
      ensures this.conversations == conversations && this.messages == messages
    {
      this.conversations := conversations;
      this.messages := messages;
    }

    /** `db.session.commit()` of the rows added for one run: the whole batch
        lands after the existing messages in a single step. */
    method Commit(batch: seq<Message>)
      requires Valid()
      requires forall i :: 0 <= i < |batch| ==> batch[i].conversationId in conversations
      modifies this`messages
      ensures Valid()
      ensures messages == old(messages) + batch
    {
      messages := messages + batch;
    }

    /** The endpoint: its response is the one `Handle` gives, and the store
        gains exactly the messages `Handle` appends (nothing on a failure). */
    method PostMessageAi(req: Request, svc: Services) returns (response: Response)
      requires Valid()
      modifies this`messages
      ensures Valid()
      ensures var o := Handle(req, conversations, old(messages), svc);
              response == o.response && messages == old(messages) + o.appended
    {
      if req.conversationId.None? {
        return Response(400, ErrorBody(MissingIdError));
      }
      var cid := req.conversationId.value;
      if cid !in conversations {
        return Response(404, ErrorBody(NotFoundError));
      }
      var conv := conversations[cid];
      var history := MessagesOf(messages, cid);

      var persona := svc.persona(conv.contentId);
      if persona.None? {
        return Response(500, ErrorBody(InternalError));
      }
      if persona.value.status != 200 {
        return Response(500, ErrorBody(ProfileError));
      }
      var instructions := persona.value.systemsInstructions.GetOr("");

      var grounding := Ground(req.contentChunkId, conv.userId, history, svc);
      if grounding.NotGrounded? {
        return grounding.response;
      }

      var prompt := ComposePrompt(instructions, history, grounding.text);
      var raw := svc.generate(prompt);
      if raw.None? {
        return Response(500, ErrorBody(InternalError));
      }
      var parsed := svc.parse(StripFences(raw.value));
      if parsed.None? {
        return Response(500, ErrorBody(InternalError));
      }

      var batch := BuildBatch(parsed.value, cid, grounding.chunkId);
      if batch.None? {
        return Response(500, ErrorBody(InvalidReplyError));
      }
      Commit(batch.value);
      response := Response(200, MessageBody(AppendedMessage));
    }
  }
}
