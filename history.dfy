/** Reading a conversation's messages from the store (app.py, step 1): the
    store's messages are in timestamp order, and a conversation's history is
    the subsequence that belongs to it. */
module History {
  import opened Types

  /** `Message.query.filter_by(conversation_id=...).order_by(Message.timestamp).all()`. */
  function MessagesOf(messages: seq<Message>, conversationId: int): (h: seq<Message>)
    ensures |h| <= |messages|
    ensures forall m :: m in h ==> m in messages && m.conversationId == conversationId
  {
    if messages == [] then []
    else (if messages[0].conversationId == conversationId then [messages[0]] else [])
         + MessagesOf(messages[1..], conversationId)
  }

  /** Reading the store after an append is reading before it, then reading
      the appended part. */
  lemma {:induction false} MessagesOfAppend(a: seq<Message>, b: seq<Message>, conversationId: int)
    ensures MessagesOf(a + b, conversationId) == MessagesOf(a, conversationId) + MessagesOf(b, conversationId)
    decreases |a|
  {
    if a == [] {
      assert a + b == b;
    } else {
      assert (a + b)[1..] == a[1..] + b;
      MessagesOfAppend(a[1..], b, conversationId);
    }
  }

  /** Messages that all belong to the conversation are read back whole and in order. */
  lemma {:induction false} MessagesOfOwn(b: seq<Message>, conversationId: int)
    requires forall i :: 0 <= i < |b| ==> b[i].conversationId == conversationId
    ensures MessagesOf(b, conversationId) == b
    decreases |b|
  {
    if b != [] {
      MessagesOfOwn(b[1..], conversationId);
      assert b == [b[0]] + b[1..];
    }
  }

  /** Messages of other conversations are invisible to this one. */
  lemma {:induction false} MessagesOfOther(b: seq<Message>, conversationId: int)
    requires forall i :: 0 <= i < |b| ==> b[i].conversationId != conversationId
    ensures MessagesOf(b, conversationId) == []
    decreases |b|
  {
    if b != [] {
      MessagesOfOther(b[1..], conversationId);
    }
  }
}
