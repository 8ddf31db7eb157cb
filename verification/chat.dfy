/**
  The state of one `AIChat` instance and its three transitions. Sending a
  message suspends twice, at the request to the completions endpoint and
  at reading the response body; between the two it only checks the
  response status and touches none of the three fields. So the send splits
  into two steps: `Begin` is everything before the request, and `Finish`
  is everything after the body is read, given the outcome of both.
 */
module Chat {
  import opened Wrappers
  import opened Text
  import opened Reply
  import opened Conversation

  /** `isGenerating`, `isChatMode` and `conversationHistory`. */
  datatype ChatState = ChatState(generating: bool, chatMode: bool, history: seq<Turn>)

  /** A new instance: idle, in continuation mode, with no history. */
  const Initial: ChatState := ChatState(false, false, [])

  /** Continuation mode never carries a history. */
  predicate ModeInvariant(s: ChatState) {
    !s.chatMode ==> s.history == []
  }

  /** The body posted to the completions endpoint. */
  datatype Request = Request(prompt: string, maxTokens: int, temperature: real, stop: seq<string>)

  const ChatStops: seq<string> := ["用户:", "AI:", "\n\n", "。", "！", "？"]
  const ContinuationStops: seq<string> := ["\n\n", "。", "！", "？"]
  /** Chat mode never samples hotter than this. */
  const ChatTemperatureCap: real := 0.8

  /** What the request produced: the first choice's text, or any failure
      (network error, non-2xx status, malformed body). */
  datatype Outcome = Success(text: string) | Failure

  /** The state after `Begin` and the request it issues, if any. */
  datatype Begun = Begun(state: ChatState, request: Option<Request>)

  /** The state after `Finish` and the cleaned reply it shows, if any. */
  datatype Finished = Finished(state: ChatState, reply: Option<string>)

  /** `Math.min`. */
  function Min(a: real, b: real): (r: real)
    ensures r <= a && r <= b
    ensures r == a || r == b
  {
    if a <= b then a else b
  }

  /** `toggleMode`: flips the mode and, when it lands in continuation
      mode, drops the history. There is no check of `generating`, so it can
      run while a request is pending. */
  function Toggle(s: ChatState): (t: ChatState)
    ensures t.chatMode == !s.chatMode
    ensures t.generating == s.generating
    ensures t.chatMode ==> t.history == s.history
    ensures ModeInvariant(t)
  {
    if s.chatMode then ChatState(s.generating, false, []) else s.(chatMode := true)
  }

  /** The part of `sendMessage` before the request. The input is trimmed;
      an empty message or a pending request makes the call do nothing.
      Otherwise the state becomes generating, chat mode records the user
      turn, and the request body is built for the current mode. */
  function Begin(s: ChatState, input: string, maxTokens: int, temperature: real): (b: Begun)
    ensures b.request.None? <==> Trim(input) == [] || s.generating
    ensures b.request.None? ==> b.state == s
    ensures b.request.Some? ==> b.state.generating && b.state.chatMode == s.chatMode
    ensures b.request.Some? && s.chatMode ==> b.state.history == s.history + [Turn(User, Trim(input))]
    ensures b.request.Some? && !s.chatMode ==> b.state.history == s.history
    ensures b.request.Some? && s.chatMode ==>
      var req := b.request.value;
      && req.prompt == BuildChatPrompt(s.history + [Turn(User, Trim(input))])
      && req.maxTokens == maxTokens
      && req.temperature <= ChatTemperatureCap && req.temperature <= temperature
      && (req.temperature == temperature || req.temperature == ChatTemperatureCap)
      && req.stop == ChatStops
    ensures b.request.Some? && !s.chatMode ==>
      b.request.value == Request(Trim(input), maxTokens, temperature, ContinuationStops)
    ensures ModeInvariant(s) ==> ModeInvariant(b.state)
  {
    var message := Trim(input);
    if message == [] || s.generating then
      Begun(s, None)
    else if s.chatMode then
      var history := s.history + [Turn(User, message)];
      var req := Request(BuildChatPrompt(history), maxTokens, Min(temperature, ChatTemperatureCap), ChatStops);
      Begun(ChatState(true, true, history), Some(req))
    else
      Begun(s.(generating := true), Some(Request(message, maxTokens, temperature, ContinuationStops)))
  }

  /** The part of `sendMessage` after the request, reading the mode as it
      is when the outcome arrives. A success is cleaned for that mode; in
      chat mode it is recorded as an assistant turn and the retention rule
      applied. A failure changes no history, so a user turn recorded by
      `Begin` stays. Either way the state stops generating. */
  function Finish(s: ChatState, o: Outcome): (f: Finished)
    ensures !f.state.generating
    ensures f.state.chatMode == s.chatMode
    ensures o.Failure? ==> f.reply.None? && f.state.history == s.history
    ensures o.Success? ==> f.reply == Some(CleanReply(o.text, s.chatMode))
    ensures o.Success? && !s.chatMode ==> f.state.history == s.history
    ensures o.Success? && s.chatMode ==> f.state.history == RecordReply(s.history, f.reply.value)
    ensures ModeInvariant(s) ==> ModeInvariant(f.state)
  {
    match o
    case Failure =>
      Finished(s.(generating := false), None)
    case Success(text) =>
      var reply := CleanReply(text, s.chatMode);
      if s.chatMode then
        Finished(ChatState(false, true, RecordReply(s.history, reply)), Some(reply))
      else
        Finished(s.(generating := false), Some(reply))
  }

  /** Toggling twice returns a continuation state unchanged, and returns a
      chat state with its history forgotten. */
  lemma ToggleTwice(s: ChatState)
    requires ModeInvariant(s)
    ensures !s.chatMode ==> Toggle(Toggle(s)) == s
    ensures s.chatMode ==> Toggle(Toggle(s)) == s.(history := [])
  {
  }
}
