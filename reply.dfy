/** Turning the model's text into new messages (app.py, step 6): strip the
    code fences, parse, then make one AI message per `tweet`. */
module Reply {
  import opened Types
  import opened Text

  const JsonFence := "```json"
  const Fence := "```"

  /** `text.strip().replace("```json", "").replace("```", "")`: what reaches
      the JSON parser never holds three backticks in a row. */
  function StripFences(text: string): (r: string)
    ensures NoFence(r)
  {
    var unfenced := RemoveAll(Strip(text), JsonFence);
    RemoveFenceLeavesNone(unfenced);
    RemoveAll(unfenced, Fence)
  }

  /** Removing "```json" from a fenced block leaves the body and the closing fence. */
  lemma RemoveJsonFenceOfBlock(body: string)
    requires '`' !in body
    ensures RemoveAll(JsonFence + body + Fence, JsonFence) == body + Fence
  {
    assert JsonFence + body + Fence == JsonFence + (body + Fence);
    RemoveAllLeading(JsonFence, body + Fence);
    RemoveAllSkips(body, Fence, JsonFence);
    assert |Fence| < |JsonFence|;
  }

  /** Removing "```" from the body and the closing fence leaves the body. */
  lemma RemoveFenceOfTail(body: string)
    requires '`' !in body
    ensures RemoveAll(body + Fence, Fence) == body
  {
    RemoveAllSkips(body, Fence, Fence);
    RemoveAllLeading(Fence, []);
    assert Fence + [] == Fence && body + [] == body;
  }

  /** A reply wrapped as a fenced json block, with any whitespace around it,
      comes out as exactly the text inside the fences. */
  lemma StripFencesUnwraps(lead: string, body: string, trail: string)
    requires AllSpace(lead) && AllSpace(trail)
    requires '`' !in body
    ensures StripFences(lead + JsonFence + body + Fence + trail) == body
  {
    var x := JsonFence + body + Fence;
    assert x[0] == '`' && x[|x| - 1] == '`';
    assert lead + JsonFence + body + Fence + trail == lead + x + trail;
    StripExact(lead, x, trail);
    RemoveJsonFenceOfBlock(body);
    RemoveFenceOfTail(body);
  }

  /** A reply with no backtick at all is only stripped of surrounding whitespace. */
  lemma StripFencesPlain(text: string)
    requires '`' !in text
    ensures StripFences(text) == Strip(text)
  {
    StripKeepsOut(text, '`');
    RemoveAllFree(Strip(text), JsonFence);
    RemoveAllFree(Strip(text), Fence);
  }

  /** An element the endpoint can read a message text from: an object whose
      `tweet` key holds a string. */
  predicate IsTweetObject(j: Json) {
    j.JObject? && "tweet" in j.fields && j.fields["tweet"].JString?
  }

  function TweetOf(j: Json): string
    requires IsTweetObject(j)
  {
    j.fields["tweet"].str
  }

  /** The texts of a JSON array's elements, or None as soon as one element is
      not a tweet object. */
  function ArrayTweets(items: seq<Json>): (r: Option<seq<string>>)
    ensures r.Some? <==> forall i :: 0 <= i < |items| ==> IsTweetObject(items[i])
    ensures r.Some? ==> |r.value| == |items|
                        && forall i :: 0 <= i < |items| ==> r.value[i] == TweetOf(items[i])
  {
    if items == [] then Some([])
    else if !IsTweetObject(items[0]) then None
    else match ArrayTweets(items[1..])
      case None => None
      case Some(rest) => Some([TweetOf(items[0])] + rest)
  }

  /** The texts `for tweet in value: tweet['tweet']` reads, or None when that
      loop raises. Iterating an object yields its keys and iterating a string
      its characters, and indexing either with 'tweet' raises, so an object or
      a string is accepted only when empty, with no texts; a number, a boolean
      or null cannot be iterated. */
  function TweetTexts(j: Json): (r: Option<seq<string>>)
    ensures j.JArray? ==> r == ArrayTweets(j.items)
    ensures !j.JArray? ==> (r.Some? <==> j == JObject(map[]) || j == JString(""))
    ensures r.Some? && !j.JArray? ==> r.value == []
  {
    match j
    case JArray(items) => ArrayTweets(items)
    case JObject(fields) => if |fields| == 0 then Some([]) else None
    case JString(s) => if s == "" then Some([]) else None
    case _ => None
  }

  function AiMessage(conversationId: int, chunkId: Option<int>, text: string): Message {
    Message(conversationId, Ai, chunkId, text)
  }

  /** The messages a valid reply becomes, in order. Every one of them is an
      AI message of the conversation, tagged with the grounding chunk. */
  function Batch(j: Json, conversationId: int, chunkId: Option<int>): (r: Option<seq<Message>>)
    ensures r.Some? <==> TweetTexts(j).Some?
    ensures r.Some? ==> forall m :: m in r.value ==>
              m.sender == Ai && m.conversationId == conversationId && m.contentChunkId == chunkId
  {
    match TweetTexts(j)
    case None => None
    case Some(texts) =>
      Some(seq(|texts|, i requires 0 <= i < |texts| => AiMessage(conversationId, chunkId, texts[i])))
  }

  /** Step 6 as the endpoint runs it: one message per element, collected
      before anything is committed, with the first bad element ending the
      attempt. */
  method BuildBatch(value: Json, conversationId: int, chunkId: Option<int>) returns (batch: Option<seq<Message>>)
    ensures batch == Batch(value, conversationId, chunkId)
  {
    match value {
      case JArray(items) =>
        var pending: seq<Message> := [];
        var i := 0;
        while i < |items|
          invariant 0 <= i <= |items|
          invariant forall k :: 0 <= k < i ==> IsTweetObject(items[k])
          invariant |pending| == i
          invariant forall k :: 0 <= k < i ==> pending[k] == AiMessage(conversationId, chunkId, TweetOf(items[k]))
        {
          if !IsTweetObject(items[i]) {
            assert ArrayTweets(items).None?;
            return None;
          }
          pending := pending + [AiMessage(conversationId, chunkId, items[i].fields["tweet"].str)];
          i := i + 1;
        }
        var texts := ArrayTweets(items).value;
        assert pending == seq(|texts|, k requires 0 <= k < |texts| => AiMessage(conversationId, chunkId, texts[k]));
        batch := Some(pending);
      case JObject(fields) =>
        if |fields| == 0 {
          assert |Batch(value, conversationId, chunkId).value| == 0;
          batch := Some([]);
        } else {
          batch := None;
        }
      case JString(s) =>
        if s == "" {
          assert |Batch(value, conversationId, chunkId).value| == 0;
          batch := Some([]);
        } else {
          batch := None;
        }
      case _ =>
        batch := None;
    }
  }

  /** A JSON array is accepted exactly when every element is a tweet object,
      and then gives one AI message per element, in array order, each in the
      request's conversation and tagged with the grounding chunk identifier. */
  lemma BatchOfArray(items: seq<Json>, conversationId: int, chunkId: Option<int>)
    ensures var b := Batch(JArray(items), conversationId, chunkId);
      && (b.Some? <==> forall i :: 0 <= i < |items| ==> IsTweetObject(items[i]))
      && (b.Some? ==>
            |b.value| == |items|
            && forall i :: 0 <= i < |items| ==>
                 b.value[i] == Message(conversationId, Ai, chunkId, TweetOf(items[i])))
  {
  }

  /** Anything but an array is accepted only as `{}` or `""`, which give no
      messages. */
  lemma BatchOfNonArray(j: Json, conversationId: int, chunkId: Option<int>)
    requires !j.JArray?
    ensures var b := Batch(j, conversationId, chunkId);
      && (b.Some? <==> j == JObject(map[]) || j == JString(""))
      && (b.Some? ==> b.value == [])
  {
  }

  /** The reply `[{"tweet": "a"}, {"tweet": "b"}]` becomes exactly two AI
      messages, "a" then "b". */
  lemma TwoTweetReply(conversationId: int, chunkId: Option<int>)
    ensures Batch(JArray([JObject(map["tweet" := JString("a")]), JObject(map["tweet" := JString("b")])]),
                  conversationId, chunkId)
            == Some([AiMessage(conversationId, chunkId, "a"), AiMessage(conversationId, chunkId, "b")])
  {
    var items := [JObject(map["tweet" := JString("a")]), JObject(map["tweet" := JString("b")])];
    BatchOfArray(items, conversationId, chunkId);
    var b := Batch(JArray(items), conversationId, chunkId);
    assert IsTweetObject(items[0]) && IsTweetObject(items[1]);
    assert b.value[0] == AiMessage(conversationId, chunkId, "a");
    assert b.value[1] == AiMessage(conversationId, chunkId, "b");
    assert |b.value| == 2;
    assert b.value == [AiMessage(conversationId, chunkId, "a"), AiMessage(conversationId, chunkId, "b")];
  }
}
