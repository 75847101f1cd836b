/** The context reconciler of the request handler (server.py lines 458-477, 487-490): when a
    conversation is not held by this process but the caller sent earlier turns, the turns are
    written out as a script in front of the latest message. */
module Prompt {
  import Text

  datatype Message = Message(role: string, content: string)

  /** What one `send_message` call carries: the text and the attached file paths. */
  datatype Payload = Payload(text: string, files: seq<string>)

  const Header: string := "Here is the conversation history so far for context:\n\n"
  const SystemLine: string := "\n[System]: Please continue the conversation based on the history above.\n"
  const LatestPrefix: string := "\n[User]: "
  /** At most this many earlier turns are replayed (`all_messages[-11:-1]`). */
  const MaxHistory: int := 10

  /** Only the exact role "user" is labelled User; every other role is labelled Model. */
  function Label(role: string): string
  {
    if role == "user" then "User" else "Model"
  }

  /** One script line, `[<label>]: <content>` and a newline. */
  function Line(m: Message): string
  {
    "[" + Label(m.role) + "]: " + m.content + "\n"
  }

  /** The script lines of a run of turns, in order. */
  function Lines(ms: seq<Message>): string
  {
    if ms == [] then "" else Lines(ms[..|ms| - 1]) + Line(ms[|ms| - 1])
  }

  lemma {:induction false} LinesAppend(a: seq<Message>, b: seq<Message>)
    ensures Lines(a + b) == Lines(a) + Lines(b)
    decreases |b|
  {
    if b == [] {
      assert a + b == a;
    } else {
      var ab, front, last := a + b, b[..|b| - 1], b[|b| - 1];
      assert ab[..|ab| - 1] == a + front;
      assert ab[|ab| - 1] == last;
      assert Lines(ab) == Lines(a + front) + Line(last);
      LinesAppend(a, front);
      Assoc(Lines(a), Lines(front), Line(last));
    }
  }

  /** Each turn's line sits, in order, between the lines of the turns before and after it. */
  lemma {:induction false} LinesSplit(ms: seq<Message>, k: nat)
    requires k < |ms|
    ensures Lines(ms) == Lines(ms[..k]) + Line(ms[k]) + Lines(ms[k + 1..])
  {
    var pre, mid, post := ms[..k], [ms[k]], ms[k + 1..];
    assert ms == (pre + mid) + post;
    LinesAppend(pre + mid, post);
    LinesAppend(pre, mid);
    assert Lines(mid) == Line(ms[k]) by {
      assert mid[..0] == [];
    }
  }

  /** `all_messages[-11:-1]`: the turns before the last one, at most the ten latest of them. */
  function RecentHistory(all: seq<Message>): (r: seq<Message>)
    requires |all| >= 1
    ensures |r| == if |all| - 1 < MaxHistory then |all| - 1 else MaxHistory
    ensures r == all[|all| - 1 - |r| .. |all| - 1]
  {
    var start := if |all| > MaxHistory + 1 then |all| - (MaxHistory + 1) else 0;
    all[start .. |all| - 1]
  }

  /** History is injected when the session is neither held in memory nor restored from its
      record, and the caller sent more than the latest message. */
  predicate InjectsHistory(recovered: bool, all: seq<Message>)
  {
    !recovered && |all| > 1
  }

  /** The script the reconciler builds from the earlier turns and the latest message. */
  function ContextPrompt(all: seq<Message>): string
    requires |all| >= 1
  {
    Header + Lines(RecentHistory(all)) + SystemLine + LatestPrefix + all[|all| - 1].content
  }

  /** `final_prompt`: the script, or the latest message unchanged. */
  function FinalPrompt(recovered: bool, all: seq<Message>): string
    requires |all| >= 1
  {
    if InjectsHistory(recovered, all) then ContextPrompt(all) else all[|all| - 1].content
  }

  /** What the first send carries: with files attached, the raw latest message and the files;
      otherwise the final prompt alone. */
  function Outbound(recovered: bool, all: seq<Message>, files: seq<string>): (p: Payload)
    requires |all| >= 1
    ensures |files| > 0 ==> p == Payload(all[|all| - 1].content, files)
    ensures |files| == 0 && InjectsHistory(recovered, all) ==> p == Payload(ContextPrompt(all), [])
    ensures !InjectsHistory(recovered, all) ==> p.text == all[|all| - 1].content
    ensures |files| == 0 && !InjectsHistory(recovered, all) ==> p == Payload(all[|all| - 1].content, [])
  {
    if |files| > 0 then Payload(all[|all| - 1].content, files) else Payload(FinalPrompt(recovered, all), [])
  }

  /** `a + b` for strings is associative; stated once so that re-bracketing a prompt costs one step. */
  lemma Assoc(a: string, b: string, c: string)
    ensures (a + b) + c == a + (b + c)
  {
  }

  /** A string occurs in any text that has it in the middle. */
  lemma OccursBetween(a: string, b: string, c: string)
    ensures Text.Occurs(b, a + b + c)
  {
    assert b <= (a + b + c)[|a|..];
  }

  /** Appending one more turn appends its line. */
  lemma LinesSnoc(ms: seq<Message>, i: nat)
    requires i < |ms|
    ensures Lines(ms[..i + 1]) == Lines(ms[..i]) + Line(ms[i])
  {
    assert ms[..i + 1][..i] == ms[..i];
  }

  /** The loop of lines 469-475 that builds `context_str`. */
  method BuildContext(all: seq<Message>) returns (context: string)
    requires |all| > 1
    ensures context == ContextPrompt(all)
  {
    var recent := RecentHistory(all);
    context := Header;
    var i := 0;
    while i < |recent|
      invariant 0 <= i <= |recent|
      invariant context == Header + Lines(recent[..i])
    {
      var roleLabel := if recent[i].role == "user" then "User" else "Model";
      var line := "[" + roleLabel + "]: " + recent[i].content + "\n";
      assert line == Line(recent[i]);
      LinesSnoc(recent, i);
      Assoc(Header, Lines(recent[..i]), line);
      context := context + line;
      i := i + 1;
    }
    assert recent[..i] == recent;
    context := context + SystemLine;
    context := context + LatestPrefix + all[|all| - 1].content;
  }

  /** Every earlier turn that fits in the window, labelled by role, occurs in the prompt sent
      for a new session; a recovered session gets the latest message exactly. */
  lemma FreshSessionReplaysTurns(all: seq<Message>, j: nat)
    requires |all| > 1
    requires j < |all| - 1 && |all| - 1 - j <= MaxHistory
    ensures Text.Occurs(Line(all[j]), FinalPrompt(false, all))
    ensures FinalPrompt(true, all) == all[|all| - 1].content
  {
    var r := RecentHistory(all);
    var k := j - (|all| - 1 - |r|);
    assert r[k] == all[j];
    LinesSplit(r, k);
    var a := Lines(r[..k]);
    var b := Line(r[k]);
    var c := Lines(r[k + 1..]);
    var tail := SystemLine + LatestPrefix + all[|all| - 1].content;
    assert FinalPrompt(false, all) == Header + (a + b + c) + SystemLine + LatestPrefix + all[|all| - 1].content;
    PromptRebracket(Header, a, b, c, SystemLine, LatestPrefix, all[|all| - 1].content);
    OccursBetween(Header + a, b, c + tail);
  }

  lemma PromptRebracket(h: string, a: string, b: string, c: string, s: string, l: string, m: string)
    ensures h + (a + b + c) + s + l + m == (h + a) + b + (c + (s + l + m))
  {
  }
}
