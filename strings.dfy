/** The pieces of Python's `str` and `os.path` that the modelled code relies
    on: `strip`, `startswith`, `endswith`, `split()` with no argument, `str()`
    of an integer, and POSIX `os.path.join` of two parts. */
module Strings {
  import opened Wrappers

  /** Python's `str.isspace()` for a single character: the ASCII controls
      TAB..CR and FS..US, SPACE, NEL, NO-BREAK SPACE and the Unicode space
      separators, line and paragraph separators. */
  predicate IsSpace(c: char) {
    || c == ' '
    || ('\t' <= c <= '\r')
    || ('\U{1C}' <= c <= '\U{1F}')
    || c == '\U{85}'
    || c == '\U{A0}'
    || c == '\U{1680}'
    || ('\U{2000}' <= c <= '\U{200A}')
    || c == '\U{2028}'
    || c == '\U{2029}'
    || c == '\U{202F}'
    || c == '\U{205F}'
    || c == '\U{3000}'
  }

  predicate NoSpace(w: string) {
    forall i :: 0 <= i < |w| ==> !IsSpace(w[i])
  }

  /** Whether `strip(chars)` removes `c`: with no argument (`None`) Python
      removes whitespace, otherwise every character of the string `chars`,
      which only matters here as the set of its characters. */
  predicate Drops(chars: Option<set<char>>, c: char) {
    match chars
    case None => IsSpace(c)
    case Some(cs) => c in cs
  }

  /** `r` occurs in `s` as one contiguous run of characters. */
  ghost predicate IsInfix(r: string, s: string) {
    exists i, j :: 0 <= i <= j <= |s| && r == s[i..j]
  }

  /** An infix of an infix is an infix. */
  lemma InfixTransitive(a: string, b: string, c: string)
    requires IsInfix(a, b) && IsInfix(b, c)
    ensures IsInfix(a, c)
  {
    var i, j :| 0 <= i <= j <= |b| && a == b[i..j];
    var k, l :| 0 <= k <= l <= |c| && b == c[k..l];
    forall m | 0 <= m < j - i ensures a[m] == c[k + i..k + j][m] {
      assert a[m] == b[i + m];
    }
    assert a == c[k + i..k + j];
  }

  /** Python's `s.lstrip(chars)`: every leading character that `chars` names
      is removed, not only the first. */
  function StripLeft(s: string, chars: Option<set<char>>): (r: string)
    ensures |r| <= |s| && r == s[|s| - |r|..]
    ensures forall i :: 0 <= i < |s| - |r| ==> Drops(chars, s[i])
    ensures r != [] ==> !Drops(chars, r[0])
    decreases |s|
  {
    if s != [] && Drops(chars, s[0]) then StripLeft(s[1..], chars) else s
  }

  /** Python's `s.rstrip(chars)`. */
  function StripRight(s: string, chars: Option<set<char>>): (r: string)
    ensures |r| <= |s| && r == s[..|r|]
    ensures forall i :: |r| <= i < |s| ==> Drops(chars, s[i])
    ensures r != [] ==> !Drops(chars, r[|r| - 1])
    decreases |s|
  {
    if s != [] && Drops(chars, s[|s| - 1]) then StripRight(s[..|s| - 1], chars) else s
  }

  /** Python's `s.strip(chars)`: the leading run, then the trailing run, of
      characters that `chars` names is removed; what is left neither starts
      nor ends with one of them. */
  function Strip(s: string, chars: Option<set<char>>): (r: string)
    ensures r != [] ==> !Drops(chars, r[0]) && !Drops(chars, r[|r| - 1])
  {
    StripRight(StripLeft(s, chars), chars)
  }

  /** What `strip` leaves is a contiguous piece of its input. */
  lemma StripIsInfix(s: string, chars: Option<set<char>>)
    ensures IsInfix(Strip(s, chars), s)
  {
    var l := StripLeft(s, chars);
    var r := StripRight(l, chars);
    assert r == s[|s| - |l|..|s| - |l| + |r|];
  }

  /** `strip` leaves nothing exactly when every character is one it removes. */
  lemma StripEmpty(s: string, chars: Option<set<char>>)
    ensures Strip(s, chars) == [] <==> forall i :: 0 <= i < |s| ==> Drops(chars, s[i])
  {
    var l := StripLeft(s, chars);
    if Strip(s, chars) == [] {
      forall i | 0 <= i < |s| ensures Drops(chars, s[i]) {
        if i >= |s| - |l| {
          assert s[i] == l[i - (|s| - |l|)];
        }
      }
    }
  }

  /** A string that neither starts nor ends with a character `chars` names
      is left as it is by `strip(chars)`. */
  lemma StripUnchanged(s: string, chars: Option<set<char>>)
    requires s != [] ==> !Drops(chars, s[0]) && !Drops(chars, s[|s| - 1])
    ensures Strip(s, chars) == s
  {
  }

  /** A string that does not start with a character `chars` names is left as
      it is by `lstrip(chars)`, and likewise at the end for `rstrip`. */
  lemma StripEndsKept(s: string, chars: Option<set<char>>)
    ensures s != [] && !Drops(chars, s[0]) ==> StripLeft(s, chars) == s
    ensures s != [] && !Drops(chars, s[|s| - 1]) ==> StripRight(s, chars) == s
  {
  }

  /** Leading characters that `chars` names make no difference to `lstrip`. */
  lemma {:induction false} StripLeftSkips(w: string, t: string, chars: Option<set<char>>)
    requires forall i :: 0 <= i < |w| ==> Drops(chars, w[i])
    ensures StripLeft(w + t, chars) == StripLeft(t, chars)
    decreases |w|
  {
    if w != [] {
      var s := w + t;
      assert s[0] == w[0];
      assert Drops(chars, s[0]);
      assert s[1..] == w[1..] + t;
      StripLeftSkips(w[1..], t, chars);
    } else {
      assert w + t == t;
    }
  }

  /** Trailing characters that `chars` names make no difference to `rstrip`. */
  lemma {:induction false} StripRightSkips(t: string, w: string, chars: Option<set<char>>)
    requires forall i :: 0 <= i < |w| ==> Drops(chars, w[i])
    ensures StripRight(t + w, chars) == StripRight(t, chars)
    decreases |w|
  {
    if w != [] {
      assert (t + w)[|t + w| - 1] == w[|w| - 1] && Drops(chars, w[|w| - 1]);
      assert (t + w)[..|t + w| - 1] == t + w[..|w| - 1];
      StripRightSkips(t, w[..|w| - 1], chars);
    } else {
      assert t + w == t;
    }
  }

  /** Trailing characters that `chars` names are all that `strip` removes
      from a string whose own ends it keeps. */
  lemma StripTrailing(body: string, w: string, chars: Option<set<char>>)
    requires body != [] && !Drops(chars, body[0]) && !Drops(chars, body[|body| - 1])
    requires forall i :: 0 <= i < |w| ==> Drops(chars, w[i])
    ensures Strip(body + w, chars) == body
  {
    var line := body + w;
    assert line[0] == body[0];
    StripEndsKept(line, chars);
    StripRightSkips(body, w, chars);
    StripEndsKept(body, chars);
  }

  /** Leading and trailing characters that `chars` names are all that
      `strip` removes from a string whose own ends it keeps. */
  lemma StripAround(w1: string, body: string, w2: string, chars: Option<set<char>>)
    requires body != [] && !Drops(chars, body[0]) && !Drops(chars, body[|body| - 1])
    requires forall i :: 0 <= i < |w1| ==> Drops(chars, w1[i])
    requires forall i :: 0 <= i < |w2| ==> Drops(chars, w2[i])
    ensures Strip(w1 + body + w2, chars) == body
  {
    assert w1 + body + w2 == w1 + (body + w2);
    StripLeftSkips(w1, body + w2, chars);
    StripTrailing(body, w2, chars);
  }

  predicate StartsWith(s: string, prefix: string) {
    |prefix| <= |s| && s[..|prefix|] == prefix
  }

  predicate EndsWith(s: string, suffix: string) {
    |suffix| <= |s| && s[|s| - |suffix|..] == suffix
  }

  lemma EndsWithTransitive(s: string, t: string, u: string)
    requires EndsWith(s, t) && EndsWith(t, u)
    ensures EndsWith(s, u)
  {
    assert s[|s| - |u|..] == s[|s| - |t|..][|t| - |u|..];
  }

  /** POSIX `os.path.join(a, b)`: an absolute `b` replaces `a`; otherwise a
      separator is inserted unless `a` is empty or already ends with one. */
  function PathJoin(a: string, b: string): (r: string)
    ensures EndsWith(r, b)
    ensures !StartsWith(b, "/") ==> StartsWith(r, a) && |r| <= |a| + 1 + |b|
  {
    if StartsWith(b, "/") then b
    else if a == [] || EndsWith(a, "/") then a + b
    else a + "/" + b
  }

  function DigitChar(d: nat): (c: char)
    requires d < 10
    ensures '0' <= c <= '9'
  {
    ('0' as int + d) as char
  }

  function DigitValue(c: char): (d: nat)
    requires '0' <= c <= '9'
    ensures d < 10
  {
    c as int - '0' as int
  }

  predicate AllDigits(s: string) {
    forall i :: 0 <= i < |s| ==> '0' <= s[i] <= '9'
  }

  /** Python's `str(n)` for a natural number: its decimal digits, most
      significant first, with no leading zero. */
  function NatToDecimal(n: nat): (r: string)
    ensures |r| >= 1 && AllDigits(r)
    ensures r[0] == '0' <==> n == 0
    decreases n
  {
    if n < 10 then [DigitChar(n)] else NatToDecimal(n / 10) + [DigitChar(n % 10)]
  }

  /** Python's `str(i)` for any integer. */
  function IntToDecimal(i: int): (r: string)
    ensures i >= 0 ==> r == NatToDecimal(i)
    ensures i < 0 ==> |r| >= 2 && r[0] == '-' && r[1..] == NatToDecimal(-i)
  {
    if i < 0 then "-" + NatToDecimal(-i) else NatToDecimal(i)
  }

  /** The number a string of decimal digits denotes (`int(s)` on digits). */
  function DecimalValue(s: string): nat
    requires AllDigits(s)
    decreases |s|
  {
    if s == [] then 0 else 10 * DecimalValue(s[..|s| - 1]) + DigitValue(s[|s| - 1])
  }

  /** Reading back the decimal rendering of `n` gives `n`. */
  lemma {:induction false} DecimalRoundTrip(n: nat)
    ensures DecimalValue(NatToDecimal(n)) == n
    decreases n
  {
    var r := NatToDecimal(n);
    if n >= 10 {
      DecimalRoundTrip(n / 10);
      assert r[..|r| - 1] == NatToDecimal(n / 10);
    }
  }

  /** Distinct numbers render to distinct strings. */
  lemma DecimalInjective(a: nat, b: nat)
    requires NatToDecimal(a) == NatToDecimal(b)
    ensures a == b
  {
    DecimalRoundTrip(a);
    DecimalRoundTrip(b);
  }

  /** The longest prefix of `s` free of whitespace. */
  function Word(s: string): (w: string)
    ensures |w| <= |s| && w == s[..|w|] && NoSpace(w)
    ensures |w| == |s| || IsSpace(s[|w|])
    decreases |s|
  {
    if s == [] || IsSpace(s[0]) then [] else [s[0]] + Word(s[1..])
  }

  /** Python's `s.split()` with no argument: the maximal runs of
      non-whitespace characters, in order; whitespace only separates. */
  function Split(s: string): seq<string>
    decreases |s|
  {
    var t := StripLeft(s, None);
    if t == [] then []
    else
      var w := Word(t);
      assert w != [] by {
        assert !IsSpace(t[0]);
      }
      [w] + Split(t[|w|..])
  }

  /** The words `split()` returns are non-empty and free of whitespace. */
  lemma {:induction false} SplitWords(s: string)
    ensures forall k :: 0 <= k < |Split(s)| ==> Split(s)[k] != [] && NoSpace(Split(s)[k])
    decreases |s|
  {
    var t := StripLeft(s, None);
    if t != [] {
      var w := Word(t);
      var rest := Split(t[|w|..]);
      SplitWords(t[|w|..]);
      var ws := Split(s);
      assert ws == [w] + rest;
      forall k | 0 <= k < |ws| ensures ws[k] != [] && NoSpace(ws[k]) {
        if k == 0 {
          assert !IsSpace(t[0]);
        } else {
          assert ws[k] == rest[k - 1];
        }
      }
    }
  }

  /** Python's `" ".join(ws)`. */
  function JoinWords(ws: seq<string>): string
    decreases |ws|
  {
    if ws == [] then "" else if |ws| == 1 then ws[0] else ws[0] + " " + JoinWords(ws[1..])
  }

  lemma {:induction false} WordOfConcat(w: string, tail: string)
    requires NoSpace(w)
    requires tail != [] ==> IsSpace(tail[0])
    ensures Word(w + tail) == w
    decreases |w|
  {
    if w != [] {
      assert (w + tail)[1..] == w[1..] + tail;
      WordOfConcat(w[1..], tail);
    }
  }

  /** One step of `split()` on a string that starts with a non-space. */
  lemma SplitStep(s: string)
    requires s != [] && !IsSpace(s[0])
    ensures Split(s) == [Word(s)] + Split(s[|Word(s)|..])
  {
    assert StripLeft(s, None) == s;
  }

  /** A leading space makes no difference to `split()`. */
  lemma SplitLeadingSpace(x: string)
    ensures Split([' '] + x) == Split(x)
  {
    assert ([' '] + x)[1..] == x;
    assert StripLeft([' '] + x, None) == StripLeft(x, None);
  }

  /** Words joined by single spaces split back into the same words. */
  lemma {:induction false} SplitJoinWords(ws: seq<string>)
    requires forall k :: 0 <= k < |ws| ==> ws[k] != [] && NoSpace(ws[k])
    ensures Split(JoinWords(ws)) == ws
    decreases |ws|
  {
    if |ws| == 1 {
      var w := ws[0];
      WordOfConcat(w, []);
      assert w + [] == w;
      SplitStep(w);
      assert w[|w|..] == [];
    } else if |ws| > 1 {
      var w := ws[0];
      var rest := JoinWords(ws[1..]);
      var tail := [' '] + rest;
      var s := w + tail;
      assert JoinWords(ws) == s;
      assert s[0] == w[0];
      calc {
        Split(s);
        { SplitStep(s); }
        [Word(s)] + Split(s[|Word(s)|..]);
        { WordOfConcat(w, tail); assert s[|w|..] == tail; }
        [w] + Split(tail);
        { SplitLeadingSpace(rest); }
        [w] + Split(rest);
        { SplitJoinWords(ws[1..]); }
        [w] + ws[1..];
        ws;
      }
    }
  }

  /** A space-joined line of non-empty words starts with the first word's first
      character and ends with the last word's last character. */
  lemma {:induction false} JoinWordsEnds(ws: seq<string>)
    requires ws != []
    requires forall k :: 0 <= k < |ws| ==> ws[k] != []
    ensures JoinWords(ws) != []
    ensures JoinWords(ws)[0] == ws[0][0]
    ensures JoinWords(ws)[|JoinWords(ws)| - 1] == ws[|ws| - 1][|ws[|ws| - 1]| - 1]
    decreases |ws|
  {
    if |ws| > 1 {
      JoinWordsEnds(ws[1..]);
    }
  }
}
