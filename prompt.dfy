/** The prompt handed to the model (app.py, steps 4 and 5): the persona's
    instructions, the whole history with roles mapped, and a final user entry
    that states the task, the reply format and the grounding text. */
module PromptComposer {
  import opened Types

  // Each task text is written with its first word apart, so that the verifier
  // can read the opening characters that tell the two tasks apart.
  const FirstTurnTask := "Write " + "an informative twitter thread that explains the point you're making below."
  const ReplyTaskHead := "Reply " + "to the user's query based on the following content. \nUser query: "
  const FormatInstruction := "\nReply in json format as a list of tweets, in the form [{'tweet': 'tweet text'}, {'tweet': 'tweet text'}, ...]"
  const ContentLabel := "\n\nContent: "

  /** Message `k` is the last one a user sent. */
  predicate IsLastUser(history: seq<Message>, k: int) {
    && 0 <= k < |history|
    && history[k].sender == User
    && forall j :: k < j < |history| ==> history[j].sender != User
  }

  predicate NoUserMessage(history: seq<Message>) {
    forall k :: 0 <= k < |history| ==> history[k].sender != User
  }

  /** The text of the most recent message a user sent, or "" when no user
      message exists; messages the AI sent are skipped. */
  function LastUserText(history: seq<Message>): string {
    if history == [] then ""
    else if history[|history| - 1].sender == User then history[|history| - 1].text
    else LastUserText(history[..|history| - 1])
  }

  /** `LastUserText` is the text of the last message whose sender is a user,
      and "" when there is none. */
  lemma {:induction false} LastUserTextSpec(history: seq<Message>)
    ensures NoUserMessage(history) ==> LastUserText(history) == ""
    ensures forall k :: IsLastUser(history, k) ==> LastUserText(history) == history[k].text
    decreases |history|
  {
    if history == [] {
    } else if history[|history| - 1].sender == User {
      assert forall k :: IsLastUser(history, k) ==> k == |history| - 1;
    } else {
      var front := history[..|history| - 1];
      LastUserTextSpec(front);
      assert forall k :: IsLastUser(history, k) ==> IsLastUser(front, k);
      assert NoUserMessage(history) ==> NoUserMessage(front);
    }
  }

  /** One history message as a chat entry: role `user` for a user's message,
      `assistant` for every other sender. */
  function HistoryEntry(m: Message): PromptEntry {
    PromptEntry(if m.sender == User then UserRole else AssistantRole, m.text)
  }

  /** The content of the final user entry, which always ends with the
      format instruction and the grounding text. */
  function TaskText(history: seq<Message>, chunkText: string): (t: string)
    ensures var tail := FormatInstruction + ContentLabel + chunkText;
      |tail| <= |t| && t[|t| - |tail|..] == tail
  {
    var head := if |history| == 0 then FirstTurnTask else ReplyTaskHead + LastUserText(history);
    var tail := FormatInstruction + ContentLabel + chunkText;
    assert (head + tail)[|head|..] == tail;
    head + tail
  }

  /** The whole prompt, as a value: one entry per message between the
      system entry and the task, and no other entry with the system role. */
  function Prompt(instructions: string, history: seq<Message>, chunkText: string): (p: seq<PromptEntry>)
    ensures |p| == |history| + 2
    ensures forall i :: 0 <= i < |p| ==> (p[i].role == SystemRole <==> i == 0)
  {
    [PromptEntry(SystemRole, instructions)]
      + seq(|history|, i requires 0 <= i < |history| => HistoryEntry(history[i]))
      + [PromptEntry(UserRole, TaskText(history, chunkText))]
  }

  /** Steps 4 and 5 as the endpoint runs them: one pass over the history
      builds the context and remembers the last user text, then the task
      text is grown piece by piece. */
  method ComposePrompt(instructions: string, history: seq<Message>, chunkText: string)
    returns (prompt: seq<PromptEntry>)
    ensures prompt == Prompt(instructions, history, chunkText)
  {
    var context: seq<PromptEntry> := [];
    var userQuery := "";
    var i := 0;
    while i < |history|
      invariant 0 <= i <= |history|
      invariant |context| == i
      invariant forall k :: 0 <= k < i ==> context[k] == HistoryEntry(history[k])
      invariant userQuery == LastUserText(history[..i])
    {
      var msg := history[i];
      var role := if msg.sender == User then UserRole else AssistantRole;
      context := context + [PromptEntry(role, msg.text)];
      if msg.sender == User {
        userQuery := msg.text;
      }
      assert history[..i + 1][..i] == history[..i];
      i := i + 1;
    }
    assert history[..i] == history;
    prompt := [PromptEntry(SystemRole, instructions)] + context;
    var task;
    if |history| == 0 {
      task := FirstTurnTask;
    } else {
      task := ReplyTaskHead + userQuery;
    }
    ghost var head := task;
    task := task + FormatInstruction;
    task := task + ContentLabel + chunkText;
    assert task == head + (FormatInstruction + ContentLabel + chunkText);
    prompt := prompt + [PromptEntry(UserRole, task)];
  }

  /** The prompt has one system entry, then the history in stored order with
      roles mapped and texts unchanged, then one user entry: N + 2 entries. */
  lemma PromptShape(instructions: string, history: seq<Message>, chunkText: string)
    ensures var p := Prompt(instructions, history, chunkText);
      && |p| == |history| + 2
      && p[0] == PromptEntry(SystemRole, instructions)
      && (forall i :: 0 <= i < |history| ==>
            p[i + 1].content == history[i].text
            && (p[i + 1].role == UserRole <==> history[i].sender == User)
            && (p[i + 1].role == AssistantRole <==> history[i].sender == Ai))
      && p[|history| + 1] == PromptEntry(UserRole, TaskText(history, chunkText))
  {
    var p := Prompt(instructions, history, chunkText);
    var context := seq(|history|, i requires 0 <= i < |history| => HistoryEntry(history[i]));
    assert p == [PromptEntry(SystemRole, instructions)] + context
                + [PromptEntry(UserRole, TaskText(history, chunkText))];
    forall i | 0 <= i < |history|
      ensures p[i + 1] == HistoryEntry(history[i])
    {
      assert p[i + 1] == context[i];
    }
  }

  /** The final entry opens with the first-turn task exactly when the history
      is empty, and otherwise with the reply task quoting the last user text;
      the format instruction and the grounding text follow with nothing
      between. */
  lemma TaskTextCases(history: seq<Message>, chunkText: string)
    ensures var t := TaskText(history, chunkText);
      var tail := FormatInstruction + ContentLabel + chunkText;
      && ((|history| == 0) <==> (|FirstTurnTask| <= |t| && t[..|FirstTurnTask|] == FirstTurnTask))
      && (|history| == 0 ==> |t| == |FirstTurnTask| + |tail|)
      && (|history| > 0 ==>
            var head := ReplyTaskHead + LastUserText(history);
            |t| == |head| + |tail| && t[..|head|] == head)
      && |tail| <= |t|
  {
    var t := TaskText(history, chunkText);
    var tail := FormatInstruction + ContentLabel + chunkText;
    if |history| == 0 {
      assert t == FirstTurnTask + tail;
      assert t[..|FirstTurnTask|] == FirstTurnTask;
    } else {
      var head := ReplyTaskHead + LastUserText(history);
      assert t == head + tail;
      assert t[..|head|] == head;
      assert t[0] == head[0] == ReplyTaskHead[0] == 'R';
      assert FirstTurnTask[0] == 'W';
    }
  }
}
