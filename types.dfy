/** Values shared by every stage of the AI-reply endpoint: the two stored
    entities, the request and response of the endpoint, the entries of a
    model prompt and the JSON values the model's reply parses to. */
module Types {

  datatype Option<+T> = None | Some(value: T) {
    /** The value, or `default` when there is none (Python's `dict.get(key, default)`). */
    function GetOr(default: T): T {
      match this
      case Some(v) => v
      case None => default
    }
  }

  /** Who wrote a message: a closed, two-valued set. */
  datatype SenderType = User | Ai

  /** A conversation row. Its identifier is the key under which the store
      holds it; the two timestamps are not modelled. */
  datatype Conversation = Conversation(userId: int, contentId: int)

  /** A message row. The autoincrement identifier and the timestamp are not
      modelled: a message's position in the store's sequence is its
      timestamp order. */
  datatype Message = Message(
    conversationId: int,
    sender: SenderType,
    contentChunkId: Option<int>,
    text: string)

  /** The value `json.loads` returns. Objects are maps, so a repeated key
      keeps its last value, as Python's decoder does. */
  datatype Json =
    | JNull
    | JBool(b: bool)
    | JNumber(n: int)
    | JString(str: string)
    | JArray(items: seq<Json>)
    | JObject(fields: map<string, Json>)

  /** The `role` of a chat-completion message. */
  datatype Role = SystemRole | UserRole | AssistantRole

  datatype PromptEntry = PromptEntry(role: Role, content: string)

  /** The request body: both keys are optional in the payload. */
  datatype Request = Request(conversationId: Option<int>, contentChunkId: Option<int>)

  /** The JSON body of a reply: `{'error': ...}` or `{'message': ...}`. */
  datatype Body = ErrorBody(error: string) | MessageBody(message: string)

  datatype Response = Response(status: int, body: Body)
}
