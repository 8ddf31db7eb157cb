/**
  The conversation history kept in chat mode: turns, the retention rule
  applied after each recorded reply, and the prompt assembled from the
  history for the completions endpoint.
 */
module Conversation {

  datatype Role = User | Assistant

  /** One `{role, content}` entry of the history. */
  datatype Turn = Turn(role: Role, content: string)

  /** A history longer than this after a reply is recorded gets cut ... */
  const MaxHistory: nat := 8
  /** ... down to this many most recent turns. */
  const KeptHistory: nat := 6

  /** The opening template used while the history holds a single turn. The
      template literal keeps the line breaks and the twelve-space source
      indentation of its continuation lines. */
  const FirstPromptHead: string := "你是一个有帮助的AI助手，请用中文与用户进行自然友好的对话。\n\n            用户: "
  const FirstPromptTail: string := "\n\n            AI:"

  /** The opening line of a multi-turn prompt. */
  const DialogueHeader: string := "请继续以下对话：\n\n"
  const UserPrefix: string := "用户: "
  const AssistantPrefix: string := "AI: "
  const TurnSeparator: string := "\n\n"

  function Prefix(role: Role): (p: string) {
    match role
    case User => UserPrefix
    case Assistant => AssistantPrefix
  }

  /** One turn as a dialogue block: label, content, blank line. */
  function RenderTurn(t: Turn): (b: string) {
    Prefix(t.role) + t.content + TurnSeparator
  }

  /** The dialogue blocks of `ts`, oldest first. */
  function Transcript(ts: seq<Turn>): (d: string) {
    if ts == [] then "" else Transcript(ts[..|ts| - 1]) + RenderTurn(ts[|ts| - 1])
  }

  /** Rendering distributes over concatenation of histories. */
  lemma {:induction false} TranscriptAppend(a: seq<Turn>, b: seq<Turn>)
    ensures Transcript(a + b) == Transcript(a) + Transcript(b)
    decreases |b|
  {
    if b == [] {
      assert a + b == a;
    } else {
      var b', t := b[..|b| - 1], b[|b| - 1];
      assert (a + b)[..|a + b| - 1] == a + b';
      assert (a + b)[|a + b| - 1] == t;
      calc {
        Transcript(a + b);
        Transcript(a + b') + RenderTurn(t);
        { TranscriptAppend(a, b'); }
        (Transcript(a) + Transcript(b')) + RenderTurn(t);
        Transcript(a) + (Transcript(b') + RenderTurn(t));
        Transcript(a) + Transcript(b);
      }
    }
  }

  /** `buildChatPrompt`. A history of one turn fills the opening template
      with that turn's content, between the template's head and tail; a longer one renders every turn but the last
      as a dialogue block and the last one as a user block whatever its
      role, then cues the assistant with `AI: ` (trailing space). Either
      way the prompt opens with its template's first line and ends with the
      assistant cue: `AI:` with no trailing space for the first prompt, a
      blank line and `AI: ` for every later one. */
  function BuildChatPrompt(h: seq<Turn>): (p: string)
    requires |h| >= 1
    ensures |h| == 1 ==>
      |p| >= |FirstPromptHead| + 3 && p[..|FirstPromptHead|] == FirstPromptHead && p[|p| - 3..] == "AI:"
    ensures |h| == 1 ==>
      && |p| == |FirstPromptHead| + |h[0].content| + |FirstPromptTail|
      && p[|FirstPromptHead|..|p| - |FirstPromptTail|] == h[0].content
      && p[|p| - |FirstPromptTail|..] == FirstPromptTail
    ensures |h| >= 2 ==>
      |p| >= |DialogueHeader| + 6 && p[..|DialogueHeader|] == DialogueHeader && p[|p| - 6..] == "\n\nAI: "
  {
    if |h| <= 1 then
      FirstPromptHead + h[0].content + FirstPromptTail
    else
      DialogueHeader + Transcript(h[..|h| - 1]) + UserPrefix + h[|h| - 1].content + TurnSeparator + AssistantPrefix
  }

  lemma Regroup(a: string, b: string, c: string, d: string, e: string, f: string)
    ensures a + b + c + d + e + f == a + (b + (c + d + e)) + f
  {
  }

  lemma SplitLast(h: seq<Turn>)
    requires |h| >= 1
    ensures h[..|h| - 1] + [h[|h| - 1]] == h
  {
  }

  /** A multi-turn prompt is the transcript of the history, with the last
      turn relabelled as the user's, followed by the assistant cue; when the
      last turn is the user's, it is simply the transcript and the cue. */
  lemma PromptIsTranscript(h: seq<Turn>)
    requires |h| >= 2
    ensures BuildChatPrompt(h)
         == DialogueHeader + Transcript(h[..|h| - 1] + [Turn(User, h[|h| - 1].content)]) + AssistantPrefix
    ensures h[|h| - 1].role == User ==> BuildChatPrompt(h) == DialogueHeader + Transcript(h) + AssistantPrefix
  {
    var earlier, last := h[..|h| - 1], h[|h| - 1];
    var relabelled := earlier + [Turn(User, last.content)];
    assert relabelled[..|relabelled| - 1] == earlier;
    Regroup(DialogueHeader, Transcript(earlier), UserPrefix, last.content, TurnSeparator, AssistantPrefix);
    assert Transcript(relabelled) == Transcript(earlier) + (UserPrefix + last.content + TurnSeparator);
    if last.role == User {
      assert Turn(User, last.content) == last;
      SplitLast(h);
    }
  }

  /** A first message `Hello` fills the opening template: the assistant
      instruction, a blank line, the indented user line and the indented
      assistant cue. */
  lemma FirstPromptExample()
    ensures BuildChatPrompt([Turn(User, "Hello")])
         == "你是一个有帮助的AI助手，请用中文与用户进行自然友好的对话。\n\n            用户: " + "Hello" + "\n\n            AI:"
  {
  }

  /** A three-turn history renders its first two turns as dialogue blocks
      and ends with the user cue. */
  lemma DialogueExample()
    ensures BuildChatPrompt([Turn(User, "Hi"), Turn(Assistant, "Hello!"), Turn(User, "How are you?")])
         == DialogueHeader + ("用户: Hi\n\n" + "AI: Hello!\n\n") + "用户: " + "How are you?" + "\n\n" + "AI: "
  {
    var h := [Turn(User, "Hi"), Turn(Assistant, "Hello!"), Turn(User, "How are you?")];
    var t1, t2 := Turn(User, "Hi"), Turn(Assistant, "Hello!");
    assert h[..2] == [t1, t2];
    TranscriptOfTwo(t1, t2);
    assert Transcript([t1, t2]) == "用户: Hi\n\n" + "AI: Hello!\n\n";
  }

  /** Once the dialogue form is in use, recording the reply `a` and a new
      user message `m2` makes the next prompt the previous prompt continued
      by exactly the reply and the new user block: the prompt is a
      transcript that only grows while no turn is dropped. */
  lemma PromptExtendsWithReply(h: seq<Turn>, m: string, a: string, m2: string)
    requires |h| >= 1
    ensures BuildChatPrompt(h + [Turn(User, m)] + [Turn(Assistant, a)] + [Turn(User, m2)])
         == BuildChatPrompt(h + [Turn(User, m)]) + a + TurnSeparator + UserPrefix + m2 + TurnSeparator + AssistantPrefix
  {
    var h1 := h + [Turn(User, m)];
    var x, y := Turn(Assistant, a), Turn(User, m2);
    var h3 := h1 + [x] + [y];
    assert h3 == h1 + [x, y];
    assert h3[..|h3| - 1] == h1 + [x];
    PromptIsTranscript(h1);
    PromptIsTranscript(h3);
    TranscriptAppend(h1, [x, y]);
    TranscriptOfTwo(x, y);
    RegroupReply(DialogueHeader, Transcript(h1), AssistantPrefix, a, TurnSeparator, UserPrefix, m2);
  }

  lemma TranscriptOfTwo(x: Turn, y: Turn)
    ensures Transcript([x, y]) == RenderTurn(x) + RenderTurn(y)
  {
    assert [x, y][..1] == [x];
    assert [x][..0] == [];
    assert Transcript([x]) == RenderTurn(x);
  }

  lemma RegroupReply(d: string, t: string, cue: string, a: string, sep: string, user: string, m: string)
    ensures d + (t + ((cue + a + sep) + (user + m + sep))) + cue
         == (d + t + cue) + a + sep + user + m + sep + cue
  {
  }

  /** The retention rule `if (history.length > 8) history = history.slice(-6)`:
      the result is a suffix of the history that keeps its newest turn, at
      most eight turns long; nothing is dropped up to eight turns, and above
      eight exactly six are kept. */
  function Retain(h: seq<Turn>): (r: seq<Turn>)
    ensures |r| <= MaxHistory
    ensures |r| <= |h| && r == h[|h| - |r|..]
    ensures |h| <= MaxHistory ==> |r| == |h|
    ensures |h| > MaxHistory ==> |r| == KeptHistory
  {
    if |h| > MaxHistory then h[|h| - KeptHistory..] else h
  }

  /** Recording an assistant reply: the turn is appended and the retention
      rule applied. The result is never longer than eight turns and ends with
      the new reply; it is the whole extended history when that fits in
      eight turns, and otherwise its last six turns. */
  function RecordReply(h: seq<Turn>, reply: string): (r: seq<Turn>)
    ensures 1 <= |r| <= MaxHistory
    ensures r[|r| - 1] == Turn(Assistant, reply)
    ensures |h| + 1 <= MaxHistory ==> r == h + [Turn(Assistant, reply)]
    ensures |h| + 1 > MaxHistory ==> r == (h + [Turn(Assistant, reply)])[|h| + 1 - KeptHistory..]
  {
    var pushed := h + [Turn(Assistant, reply)];
    var r := Retain(pushed);
    assert r[|r| - 1] == pushed[|pushed| - 1];
    r
  }
}
