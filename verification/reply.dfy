/**
  Cleaning the text a completion returns before it is shown and recorded:
  always trimmed; in chat mode, one echoed role label at the very start is
  removed as the pattern `^(AI|助手|机器人):` followed by `\s` repeated, with
  the `i` flag, matches it, and the rest is trimmed again.
 */
module Reply {
  import opened Wrappers
  import opened Text

  /** Every spelling the label alternation matches, colon included. The `i`
      flag without the `u` flag folds only ASCII letters onto ASCII letters,
      so `AI` comes in four spellings; the two Chinese labels have no case.
      A full-width colon `：` is not among them. */
  const LabelSpellings: set<string> := {"AI:", "Ai:", "aI:", "ai:", "助手:", "机器人:"}

  /** The length of the label-and-colon that `t` starts with, if any. */
  function LabelLength(t: string): (r: Option<nat>)
    ensures r.Some? ==> r.value <= |t|
  {
    if |t| >= 3 && (t[0] == 'A' || t[0] == 'a') && (t[1] == 'I' || t[1] == 'i') && t[2] == ':' then Some(3)
    else if |t| >= 3 && t[0] == '助' && t[1] == '手' && t[2] == ':' then Some(3)
    else if |t| >= 4 && t[0] == '机' && t[1] == '器' && t[2] == '人' && t[3] == ':' then Some(4)
    else None
  }

  /** `LabelLength` recognises exactly the listed spellings: it finds a
      label precisely when one of them starts `t`, and then the label it
      measures is one of them. */
  lemma LabelLengthMatchesSpellings(t: string)
    ensures LabelLength(t).Some? ==> t[..LabelLength(t).value] in LabelSpellings
    ensures LabelLength(t).None? <==> forall l :: l in LabelSpellings ==> !(l <= t)
  {
    match LabelLength(t)
    case Some(n) =>
      assert t[..n] == if n == 3 then [t[0], t[1], t[2]] else [t[0], t[1], t[2], t[3]];
    case None =>
      forall l | l in LabelSpellings ensures !(l <= t) { }
  }

  /** The label removal followed by the second trim, on an already trimmed
      `t`: the result is a trimmed suffix of `t`, and all of `t` when no label
      starts it. */
  function StripLabel(t: string): (r: string)
    requires IsTrimmed(t)
    ensures IsTrimmed(r)
    ensures |r| <= |t| && r == t[|t| - |r|..]
    ensures LabelLength(t).None? ==> r == t
  {
    match LabelLength(t)
    case None => t
    case Some(n) =>
      // `\s*` is greedy, so the match also takes the whitespace after the colon
      var rest := TrimStart(t[n..]);
      assert rest == t[|t| - |rest|..];
      TrimEndOfSuffix(t, rest);
      Trim(rest)
  }

  /** The reply text after cleaning, given the mode read when it arrives:
      always trimmed, exactly the trim in continuation mode, and in chat
      mode no longer than the trim (`ChatCleanup` says what it keeps). */
  function CleanReply(text: string, chatMode: bool): (r: string)
    ensures IsTrimmed(r)
    ensures !chatMode ==> r == Trim(text)
    ensures chatMode ==> |r| <= |Trim(text)|
  {
    if chatMode then StripLabel(Trim(text)) else Trim(text)
  }

  /** Label removal on a trimmed text, for every such text: with no label
      the text is kept whole; otherwise the text is a label spelling `tag`,
      then whitespace only, then the result, and the result does not start
      with whitespace, so all the whitespace after the label is removed
      and nothing more. */
  lemma StripLabelCases(t: string) returns (tag: string, gap: string)
    requires IsTrimmed(t)
    ensures LabelLength(t).None? ==> StripLabel(t) == t
    ensures LabelLength(t).Some? ==>
      var r := StripLabel(t);
      tag in LabelSpellings && AllWhitespace(gap) && t == tag + gap + r && (r == [] || !IsWhitespace(r[0]))
  {
    LabelLengthMatchesSpellings(t);
    tag, gap := [], [];
    if LabelLength(t).Some? {
      var n := LabelLength(t).value;
      StripLabelFound(t, n);
      tag := t[..n];
      gap := SplitAfter(t, n);
    }
  }

  /** `t` is its first `n` characters, the whitespace run after them, and
      the rest without that run. */
  lemma SplitAfter(t: string, n: nat) returns (gap: string)
    requires n <= |t|
    ensures AllWhitespace(gap) && t == t[..n] + gap + TrimStart(t[n..])
  {
    gap := TrimStartSplits(t[n..]);
    AppendAssoc(t[..n], gap, TrimStart(t[n..]));
  }

  /** Once a label of length `n` is found, the result is what follows it
      without its leading whitespace. */
  lemma StripLabelFound(t: string, n: nat)
    requires IsTrimmed(t) && LabelLength(t) == Some(n)
    ensures StripLabel(t) == TrimStart(t[n..])
  {
    var rest := TrimStart(t[n..]);
    assert rest == t[|t| - |rest|..];
    TrimEndOfSuffix(t, rest);
  }

  /** Chat-mode cleanup for every reply, in terms of its trimmed text `t`:
      with no label `t` is kept whole; otherwise `t` is a label spelling
      `tag`, then whitespace only, then the cleaned reply, which does not
      start with whitespace. */
  lemma ChatCleanup(text: string) returns (tag: string, gap: string)
    ensures LabelLength(Trim(text)).None? ==> CleanReply(text, true) == Trim(text)
    ensures LabelLength(Trim(text)).Some? ==>
      var r := CleanReply(text, true);
      tag in LabelSpellings && AllWhitespace(gap) && Trim(text) == tag + gap + r && (r == [] || !IsWhitespace(r[0]))
  {
    tag, gap := StripLabelCases(Trim(text));
  }

  /** A suffix of a string without trailing whitespace trims to its own
      whitespace-free start. */
  lemma TrimEndOfSuffix(t: string, rest: string)
    requires IsTrimmed(t)
    requires |rest| <= |t| && rest == t[|t| - |rest|..]
    requires |rest| == 0 || !IsWhitespace(rest[0])
    ensures Trim(rest) == rest
  {
  }

  /** Each spelling is recognised as a label of its own length. */
  lemma LabelLengthOfSpelling(tag: string, rest: string)
    requires tag in LabelSpellings
    ensures LabelLength(tag + rest) == Some(|tag|)
  {
  }

  /** A spelling followed by whitespace only trims to the spelling. */
  lemma TrimLabelAndGap(tag: string, gap: string)
    requires tag in LabelSpellings
    requires AllWhitespace(gap)
    ensures Trim(tag + gap) == tag
  {
    assert IsTrimmed(tag);
    assert [] + tag + gap == tag + gap;
    TrimUnique([], tag, gap);
  }

  /** A spelling, whitespace and a nonempty trimmed body form a trimmed
      string. */
  lemma LabelledIsTrimmed(tag: string, gap: string, body: string)
    requires tag in LabelSpellings
    requires IsTrimmed(body) && body != []
    ensures IsTrimmed(tag + gap + body)
  {
  }

  /** A label followed by whitespace only cleans to nothing. */
  lemma StripsBareLabel(tag: string, gap: string)
    requires tag in LabelSpellings
    requires AllWhitespace(gap)
    ensures CleanReply(tag + gap, true) == []
  {
    TrimLabelAndGap(tag, gap);
    assert tag == tag + [];
    LabelLengthOfSpelling(tag, []);
    assert tag[|tag|..] == [];
  }

  /** `StripLabelFound` for a text whose remainder after the label is
      split into whitespace and a body: the body is what is left. */
  lemma StripAfterLabel(t: string, n: nat, gap: string, body: string)
    requires IsTrimmed(t)
    requires LabelLength(t) == Some(n)
    requires t[n..] == gap + body
    requires AllWhitespace(gap) && IsTrimmed(body) && body != []
    ensures StripLabel(t) == body
  {
    StripLabelFound(t, n);
    TrimStartSkips(gap, body);
  }

  /** The label, and the whitespace after it, are removed from a trimmed
      labelled string. */
  lemma StripLabelOfLabelled(tag: string, gap: string, body: string)
    requires tag in LabelSpellings
    requires AllWhitespace(gap)
    requires IsTrimmed(body) && body != []
    requires IsTrimmed(tag + gap + body)
    ensures StripLabel(tag + gap + body) == body
  {
    var text := tag + gap + body;
    assert text == tag + (gap + body);
    LabelLengthOfSpelling(tag, gap + body);
    assert text[|tag|..] == gap + body;
    StripAfterLabel(text, |tag|, gap, body);
  }

  /** A reply made of one label, any whitespace and a trimmed body is
      cleaned to exactly that body in chat mode, even when the body itself
      starts with a label: at most one label is removed. */
  lemma StripsOneLabel(tag: string, gap: string, body: string)
    requires tag in LabelSpellings
    requires AllWhitespace(gap)
    requires IsTrimmed(body)
    ensures CleanReply(tag + gap + body, true) == body
  {
    var text := tag + gap + body;
    if body == [] {
      assert text == tag + gap;
      StripsBareLabel(tag, gap);
    } else {
      LabelledIsTrimmed(tag, gap, body);
      TrimKeepsTrimmed(text);
      StripLabelOfLabelled(tag, gap, body);
    }
  }

  /** A reply whose trimmed text does not start with a label keeps all of
      it in chat mode. */
  lemma KeepsUnlabelled(text: string)
    requires forall l :: l in LabelSpellings ==> !(l <= Trim(text))
    ensures CleanReply(text, true) == Trim(text)
  {
    LabelLengthMatchesSpellings(Trim(text));
  }

  /** A full-width colon after the label is not matched, so nothing is
      removed. */
  lemma FullWidthColonKept(body: string)
    requires IsTrimmed(body)
    ensures CleanReply("AI：" + body, true) == "AI：" + body
  {
    var text := "AI：" + body;
    assert text[0] == 'A';
    if body != [] {
      assert text[|text| - 1] == body[|body| - 1];
    }
    assert IsTrimmed(text);
    TrimKeepsTrimmed(text);
    assert text[2] == '：';
    assert LabelLength(text) == None;
    assert StripLabel(text) == text;
  }

  /** The echoed-label example: `"AI: I'm fine, thanks."` cleans to
      `"I'm fine, thanks."`. */
  lemma EchoedLabelExample()
    ensures CleanReply("AI: I'm fine, thanks.", true) == "I'm fine, thanks."
  {
    assert "AI: I'm fine, thanks." == "AI:" + " " + "I'm fine, thanks.";
    StripsOneLabel("AI:", " ", "I'm fine, thanks.");
  }
}
