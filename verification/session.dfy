/**
  Whole sessions: a new instance driven by a sequence of user actions and
  request outcomes, and the properties that hold along every such run.
 */
module Session {
  import opened Wrappers
  import opened Text
  import opened Reply
  import opened Conversation
  import opened Chat

  /** A mode switch, a send attempt with the raw input and the generation
      settings read from the page, or the arrival of the pending request's
      outcome. */
  datatype Event =
    | ToggleMode
    | Submit(input: string, maxTokens: int, temperature: real)
    | Complete(outcome: Outcome)

  /** One event. An outcome can only arrive while a request is pending, so
      `Complete` on an idle state is not a possible event. */
  function Step(s: ChatState, e: Event): (r: Option<ChatState>)
    ensures r.None? <==> e.Complete? && !s.generating
    ensures e.Submit? && s.generating ==> r == Some(s)
    ensures r.Some? && !e.Submit? ==> r.value.chatMode == (s.chatMode != e.ToggleMode?)
  {
    match e
    case ToggleMode => Some(Toggle(s))
    case Submit(input, maxTokens, temperature) => Some(Begin(s, input, maxTokens, temperature).state)
    case Complete(o) => if s.generating then Some(Finish(s, o).state) else None
  }

  /** Whether `es` holds an odd number of mode switches. */
  function OddSwitches(es: seq<Event>): (odd: bool)
    decreases |es|
  {
    if es == [] then false else es[0].ToggleMode? != OddSwitches(es[1..])
  }

  /** The events in order; `None` when one of them is not possible. Only a
      mode switch changes the mode, so a possible run ends in the mode it
      started in exactly when it switched an even number of times. */
  function Run(s: ChatState, es: seq<Event>): (r: Option<ChatState>)
    ensures r.Some? ==> r.value.chatMode == (s.chatMode != OddSwitches(es))
    decreases |es|
  {
    if es == [] then Some(s)
    else
      match Step(s, es[0])
      case None => None
      case Some(t) => Run(t, es[1..])
  }

  lemma {:induction false} RunAppend(s: ChatState, a: seq<Event>, b: seq<Event>)
    ensures Run(s, a + b) == (match Run(s, a) case None => None case Some(t) => Run(t, b))
    decreases |a|
  {
    if a == [] {
      assert a + b == b;
    } else {
      assert (a + b)[0] == a[0];
      assert (a + b)[1..] == a[1..] + b;
      match Step(s, a[0])
      case None =>
      case Some(t) => RunAppend(t, a[1..], b);
    }
  }

  /** Every run keeps continuation mode free of history. */
  lemma {:induction false} RunKeepsModeInvariant(s: ChatState, es: seq<Event>)
    requires ModeInvariant(s)
    ensures Run(s, es).Some? ==> ModeInvariant(Run(s, es).value)
    decreases |es|
  {
    if es != [] {
      match Step(s, es[0])
      case None =>
      case Some(t) => RunKeepsModeInvariant(t, es[1..]);
    }
  }

  /** From a new instance, whatever happens, continuation mode has an empty
      history. */
  lemma ModeInvariantAlways(es: seq<Event>)
    ensures Run(Initial, es).Some? ==> ModeInvariant(Run(Initial, es).value)
  {
    RunKeepsModeInvariant(Initial, es);
  }

  /** A scenario: `n` attempts to send `input` with the default settings,
      each of which fails. */
  function FailedAttempts(input: string, n: nat): (es: seq<Event>)
  {
    if n == 0 then [] else FailedAttempts(input, n - 1) + [Submit(input, 150, 0.7), Complete(Failure)]
  }

  /** One failed chat send leaves its user turn in the history. */
  lemma OneFailedAttempt(s: ChatState, input: string)
    requires s.chatMode && !s.generating && Trim(input) != []
    ensures Run(s, [Submit(input, 150, 0.7), Complete(Failure)])
         == Some(s.(history := s.history + [Turn(User, Trim(input))]))
  {
    var es := [Submit(input, 150, 0.7), Complete(Failure)];
    var b := Begin(s, input, 150, 0.7).state;
    assert Step(s, es[0]) == Some(b);
    assert es[1..] == [Complete(Failure)];
    assert [Complete(Failure)][1..] == [];
    assert Run(b, [Complete(Failure)]) == Some(Finish(b, Failure).state);
  }

  /** In chat mode, every failed attempt leaves its user turn behind: the
      retention rule runs only when a reply is recorded, so nothing trims
      these turns. */
  lemma {:induction false} FailedAttemptsAccumulate(s: ChatState, input: string, n: nat)
    requires s.chatMode && !s.generating && Trim(input) != []
    ensures Run(s, FailedAttempts(input, n))
         == Some(s.(history := s.history + seq(n, _ => Turn(User, Trim(input)))))
  {
    var u := Turn(User, Trim(input));
    if n == 0 {
      assert s.history + seq(0, _ => u) == s.history;
    } else {
      var pair := [Submit(input, 150, 0.7), Complete(Failure)];
      var mid := s.(history := s.history + seq(n - 1, _ => u));
      assert FailedAttempts(input, n) == FailedAttempts(input, n - 1) + pair;
      RunAppend(s, FailedAttempts(input, n - 1), pair);
      FailedAttemptsAccumulate(s, input, n - 1);
      OneFailedAttempt(mid, input);
      RepeatOneMore(s.history, u, n);
    }
  }

  lemma RepeatOneMore(h: seq<Turn>, u: Turn, n: nat)
    requires n >= 1
    ensures h + seq(n - 1, _ => u) + [u] == h + seq(n, _ => u)
  {
  }

  /** The eight-turn bound holds only right after a reply is recorded: from
      a new instance switched to chat mode, `n` failed sends leave a history
      of `n` turns, for every `n`. */
  lemma HistoryUnboundedUnderFailures(n: nat)
    ensures Run(Initial, [ToggleMode] + FailedAttempts("?", n)).Some?
    ensures |Run(Initial, [ToggleMode] + FailedAttempts("?", n)).value.history| == n
  {
    var chat := Toggle(Initial);
    assert Trim("?") == "?" by {
      TrimKeepsTrimmed("?");
    }
    RunAppend(Initial, [ToggleMode], FailedAttempts("?", n));
    assert Run(Initial, [ToggleMode]) == Some(chat) by {
      assert [ToggleMode][1..] == [];
    }
    FailedAttemptsAccumulate(chat, "?", n);
  }

  /** A failed send in chat mode leaves the history one user turn longer;
      in continuation mode it leaves the state as it was before the send. */
  lemma FailureKeepsUserTurn(s: ChatState, input: string, maxTokens: int, temperature: real)
    requires !s.generating && Trim(input) != []
    ensures s.chatMode ==>
      Finish(Begin(s, input, maxTokens, temperature).state, Failure).state
        == s.(history := s.history + [Turn(User, Trim(input))])
    ensures !s.chatMode ==> Finish(Begin(s, input, maxTokens, temperature).state, Failure).state == s
  {
  }

  /** The mode is read when the reply arrives. A chat send followed by two
      mode switches loses its user turn, yet the reply is recorded, with the
      label stripped, as the only turn. */
  lemma ReplyAfterToggleBackIsRecordedAlone(s: ChatState, input: string, maxTokens: int, temperature: real, text: string)
    requires s.chatMode && !s.generating && Trim(input) != []
    ensures
      var b := Begin(s, input, maxTokens, temperature).state;
      Finish(Toggle(Toggle(b)), Success(text)).state
        == ChatState(false, true, [Turn(Assistant, CleanReply(text, true))])
  {
  }

  /** A continuation send whose reply arrives after a switch to chat mode
      is cleaned as a chat reply and becomes the first turn of the
      history. */
  lemma ContinuationReplyLandsInChat(s: ChatState, input: string, maxTokens: int, temperature: real, text: string)
    requires !s.chatMode && ModeInvariant(s) && !s.generating && Trim(input) != []
    ensures
      var b := Begin(s, input, maxTokens, temperature).state;
      var f := Finish(Toggle(b), Success(text));
      f.reply == Some(CleanReply(text, true)) && f.state.history == [Turn(Assistant, CleanReply(text, true))]
  {
  }

  /** A chat send that is not ignored records the user turn and asks for a
      completion of the prompt built from the history including it. */
  lemma ChatSendPrompt(s: ChatState, input: string, maxTokens: int, temperature: real)
    requires s.chatMode && !s.generating && Trim(input) != []
    ensures Begin(s, input, maxTokens, temperature).state == ChatState(true, true, s.history + [Turn(User, Trim(input))])
    ensures Begin(s, input, maxTokens, temperature).request.Some?
    ensures Begin(s, input, maxTokens, temperature).request.value.prompt
         == BuildChatPrompt(s.history + [Turn(User, Trim(input))])
  {
  }

  /** A successful chat exchange that keeps the history within eight
      turns records the user turn and the cleaned reply after it. */
  lemma ExchangeRecordsBothTurns(s: ChatState, input: string, text: string, maxTokens: int, temperature: real)
    requires s.chatMode && !s.generating && Trim(input) != []
    requires |s.history| + 2 <= MaxHistory
    ensures Finish(Begin(s, input, maxTokens, temperature).state, Success(text)).state
         == ChatState(false, true, s.history + [Turn(User, Trim(input))] + [Turn(Assistant, CleanReply(text, true))])
  {
  }

  /** Two chat exchanges in a row, with no turn dropped in between: the
      second request's prompt is the first request's prompt followed by the
      recorded reply and the new user block. */
  lemma NextPromptExtendsPrevious(s: ChatState, m1: string, text: string, m2: string, maxTokens: int, temperature: real)
    requires s.chatMode && !s.generating
    requires Trim(m1) != [] && Trim(m2) != []
    requires 1 <= |s.history| && |s.history| + 2 <= MaxHistory
    ensures
      var b1 := Begin(s, m1, maxTokens, temperature);
      var f := Finish(b1.state, Success(text));
      var b2 := Begin(f.state, m2, maxTokens, temperature);
      && b1.request.Some? && b2.request.Some?
      && b2.request.value.prompt
         == b1.request.value.prompt + CleanReply(text, true) + TurnSeparator + UserPrefix + Trim(m2)
            + TurnSeparator + AssistantPrefix
  {
    var a := CleanReply(text, true);
    var u1, u2 := Turn(User, Trim(m1)), Turn(User, Trim(m2));
    ChatSendPrompt(s, m1, maxTokens, temperature);
    ExchangeRecordsBothTurns(s, m1, text, maxTokens, temperature);
    var f := ChatState(false, true, s.history + [u1] + [Turn(Assistant, a)]);
    ChatSendPrompt(f, m2, maxTokens, temperature);
    PromptExtendsWithReply(s.history, Trim(m1), a, Trim(m2));
  }
}
