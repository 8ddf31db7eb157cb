/**
  Whitespace and trimming as JavaScript defines them. `String.prototype.trim`
  and the regular-expression class `\s` both use the same set: the
  ECMAScript WhiteSpace and LineTerminator code points.
 */
module Text {

  /** The ECMAScript WhiteSpace and LineTerminator code points: TAB, VT, FF,
      SPACE, NBSP, the other Unicode space separators (U+1680, U+2000 to
      U+200A, U+202F, U+205F, U+3000), the byte order mark, and LF, CR,
      LINE SEPARATOR and PARAGRAPH SEPARATOR. */
  const Whitespace: set<char> := {
    '\t', '\n', '\U{000B}', '\U{000C}', '\r', ' ', '\U{00A0}', '\U{1680}',
    '\U{2000}', '\U{2001}', '\U{2002}', '\U{2003}', '\U{2004}', '\U{2005}',
    '\U{2006}', '\U{2007}', '\U{2008}', '\U{2009}', '\U{200A}',
    '\U{2028}', '\U{2029}', '\U{202F}', '\U{205F}', '\U{3000}', '\U{FEFF}'
  }

  predicate IsWhitespace(c: char) {
    c in Whitespace
  }

  predicate AllWhitespace(s: string) {
    forall i :: 0 <= i < |s| ==> IsWhitespace(s[i])
  }

  /** Neither end of `s` is whitespace. */
  predicate IsTrimmed(s: string) {
    |s| == 0 || (!IsWhitespace(s[0]) && !IsWhitespace(s[|s| - 1]))
  }

  /** `s` with its leading whitespace removed. */
  function TrimStart(s: string): (r: string)
    ensures |r| <= |s| && r == s[|s| - |r|..]
    ensures |r| == 0 || !IsWhitespace(r[0])
    decreases |s|
  {
    if |s| > 0 && IsWhitespace(s[0]) then TrimStart(s[1..]) else s
  }

  /** JavaScript's `s.trim()`: whitespace is dropped from both ends until
      neither end is whitespace. */
  function Trim(s: string): (r: string)
    ensures IsTrimmed(r)
    ensures |r| <= |s|
    decreases |s|
  {
    if |s| > 0 && IsWhitespace(s[0]) then Trim(s[1..])
    else if |s| > 0 && IsWhitespace(s[|s| - 1]) then Trim(s[..|s| - 1])
    else s
  }

  /** `TrimStart` drops a run of whitespace and nothing else: the input is
      that run followed by the result. */
  lemma {:induction false} TrimStartSplits(s: string) returns (gap: string)
    ensures AllWhitespace(gap) && s == gap + TrimStart(s)
    decreases |s|
  {
    if |s| > 0 && IsWhitespace(s[0]) {
      var g := TrimStartSplits(s[1..]);
      gap := [s[0]] + g;
      WhitespaceAround(s[0], g);
      assert s == [s[0]] + s[1..];
      AppendAssoc([s[0]], g, TrimStart(s[1..]));
    } else {
      gap := [];
    }
  }

  lemma AppendAssoc(a: string, b: string, c: string)
    ensures a + (b + c) == a + b + c
  {
  }

  lemma WhitespaceAround(c: char, s: string)
    requires IsWhitespace(c) && AllWhitespace(s)
    ensures AllWhitespace([c] + s) && AllWhitespace(s + [c])
  {
  }

  lemma DropFront(s: string, i: nat, j: nat)
    requires |s| > 0 && IsWhitespace(s[0])
    requires i <= j <= |s| - 1 && Trim(s[1..]) == s[1..][i..j]
    requires AllWhitespace(s[1..][..i]) && AllWhitespace(s[1..][j..])
    ensures Trim(s) == s[i + 1..j + 1]
    ensures AllWhitespace(s[..i + 1]) && AllWhitespace(s[j + 1..])
  {
    TrimFront(s);
    SliceOfSuffix(s, i, j);
    WhitespaceAround(s[0], s[1..][..i]);
  }

  lemma SliceOfSuffix(s: string, i: nat, j: nat)
    requires |s| > 0 && i <= j <= |s| - 1
    ensures s[1..][i..j] == s[i + 1..j + 1]
    ensures s[..i + 1] == [s[0]] + s[1..][..i]
    ensures s[j + 1..] == s[1..][j..]
  {
  }

  lemma DropBack(s: string, i: nat, j: nat)
    requires |s| > 0 && IsWhitespace(s[|s| - 1]) && !IsWhitespace(s[0])
    requires i <= j <= |s| - 1 && Trim(s[..|s| - 1]) == s[..|s| - 1][i..j]
    requires AllWhitespace(s[..|s| - 1][..i]) && AllWhitespace(s[..|s| - 1][j..])
    ensures Trim(s) == s[i..j]
    ensures AllWhitespace(s[..i]) && AllWhitespace(s[j..])
  {
    TrimBack(s);
    SliceOfPrefix(s, i, j);
    WhitespaceAround(s[|s| - 1], s[..|s| - 1][j..]);
  }

  lemma SliceOfPrefix(s: string, i: nat, j: nat)
    requires |s| > 0 && i <= j <= |s| - 1
    ensures s[..|s| - 1][i..j] == s[i..j]
    ensures s[..|s| - 1][..i] == s[..i]
    ensures s[j..] == s[..|s| - 1][j..] + [s[|s| - 1]]
  {
  }

  /** `Trim(s)` is an infix of `s` with only whitespace around it. */
  lemma {:induction false} TrimDropsWhitespace(s: string) returns (i: nat, j: nat)
    ensures i <= j <= |s| && Trim(s) == s[i..j]
    ensures AllWhitespace(s[..i]) && AllWhitespace(s[j..])
    decreases |s|
  {
    if |s| > 0 && IsWhitespace(s[0]) {
      var i', j' := TrimDropsWhitespace(s[1..]);
      DropFront(s, i', j');
      i, j := i' + 1, j' + 1;
    } else if |s| > 0 && IsWhitespace(s[|s| - 1]) {
      i, j := TrimDropsWhitespace(s[..|s| - 1]);
      DropBack(s, i, j);
    } else {
      i, j := 0, |s|;
    }
  }

  lemma {:induction false} TrimStartSkips(a: string, rest: string)
    requires AllWhitespace(a)
    requires |rest| == 0 || !IsWhitespace(rest[0])
    ensures TrimStart(a + rest) == rest
    decreases |a|
  {
    if |a| > 0 {
      assert (a + rest)[1..] == a[1..] + rest;
      TrimStartSkips(a[1..], rest);
    } else {
      assert a + rest == rest;
    }
  }

  lemma TrimFront(s: string)
    requires |s| > 0 && IsWhitespace(s[0])
    ensures Trim(s) == Trim(s[1..])
  {
  }

  lemma TrimBack(s: string)
    requires |s| > 0 && !IsWhitespace(s[0]) && IsWhitespace(s[|s| - 1])
    ensures Trim(s) == Trim(s[..|s| - 1])
  {
  }

  /** A string with no whitespace at either end is its own trim. */
  lemma TrimKeepsTrimmed(s: string)
    requires IsTrimmed(s)
    ensures Trim(s) == s
  {
  }

  /** Trimming is characterised by its result: whenever `s` is a trimmed
      core framed by whitespace on both sides, `Trim(s)` is that core. */
  lemma {:induction false} TrimUnique(a: string, m: string, b: string)
    requires AllWhitespace(a) && AllWhitespace(b) && IsTrimmed(m)
    ensures Trim(a + m + b) == m
    decreases |a| + |b|
  {
    var s := a + m + b;
    if |a| > 0 {
      assert s[0] == a[0] && IsWhitespace(a[0]);
      TrimFront(s);
      assert s[1..] == a[1..] + m + b;
      TrimUnique(a[1..], m, b);
    } else if |b| > 0 && |m| == 0 {
      assert s == b && IsWhitespace(b[0]);
      TrimFront(s);
      assert s[1..] == a + m + b[1..];
      TrimUnique(a, m, b[1..]);
    } else if |b| > 0 {
      assert s[0] == m[0];
      assert s[|s| - 1] == b[|b| - 1] && IsWhitespace(b[|b| - 1]);
      TrimBack(s);
      assert s[..|s| - 1] == a + m + b[..|b| - 1];
      TrimUnique(a, m, b[..|b| - 1]);
    } else {
      assert s == m;
    }
  }

  /** Trimming twice is trimming once. */
  lemma TrimIdempotent(s: string)
    ensures Trim(Trim(s)) == Trim(s)
  {
  }
}
