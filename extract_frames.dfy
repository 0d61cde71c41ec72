/** The path-cleaning helper of the frame-extraction script
    (scripts/extract_frames.py).  The script's prompt loop and `main` are I/O
    and are not modelled. */
module ExtractFrames {
  import opened Wrappers
  import opened Strings

  /** The characters that `clean_path` is meant to peel off a path. */
  predicate IsQuoteOrSpace(c: char) {
    IsSpace(c) || c == '"' || c == '\''
  }

  /** `s` with the quote character `c` on either side. */
  function Quoted(s: string, c: char): (r: string)
    ensures |r| == |s| + 2 && r[0] == c && r[|r| - 1] == c && r[1..|r| - 1] == s
  {
    [c] + s + [c]
  }

  /** A path that neither starts nor ends with whitespace or a quote. */
  predicate IsBare(s: string) {
    s != [] ==> !IsQuoteOrSpace(s[0]) && !IsQuoteOrSpace(s[|s| - 1])
  }

  /** `clean_path(p)`, that is `p.strip().strip('"').strip("'")`: surrounding
      whitespace, then every surrounding double quote, then every surrounding
      single quote is removed.  The result never starts or ends with a single
      quote. */
  function CleanPath(p: string): (r: string)
    ensures r != [] ==> r[0] != '\'' && r[|r| - 1] != '\''
  {
    Strip(Strip(Strip(p, None), Some({'"'})), Some({'\''}))
  }

  /** The cleaned path is a contiguous piece of the input. */
  lemma CleanPathIsInfix(p: string)
    ensures IsInfix(CleanPath(p), p)
  {
    var a := Strip(p, None);
    var b := Strip(a, Some({'"'}));
    StripIsInfix(p, None);
    StripIsInfix(a, Some({'"'}));
    StripIsInfix(b, Some({'\''}));
    InfixTransitive(b, a, p);
    InfixTransitive(CleanPath(p), b, p);
  }

  /** A path that is already bare comes back unchanged. */
  lemma CleanPathUnchanged(p: string)
    requires IsBare(p)
    ensures CleanPath(p) == p
  {
    StripUnchanged(p, None);
    StripUnchanged(p, Some({'"'}));
    StripUnchanged(p, Some({'\''}));
  }

  /** Whitespace around a string that starts and ends with a double quote
      is all that the first `strip()` removes. */
  lemma StripSpaceAroundQuotes(w1: string, q: string, w2: string)
    requires forall i :: 0 <= i < |w1| ==> IsSpace(w1[i])
    requires forall i :: 0 <= i < |w2| ==> IsSpace(w2[i])
    requires q != [] && q[0] == '"' && q[|q| - 1] == '"'
    ensures Strip(w1 + q + w2, None) == q
  {
    StripAround(w1, q, w2, None);
  }

  /** `strip('"')` takes one pair of double quotes off a bare string. */
  lemma StripDoubleQuotePair(s: string)
    requires IsBare(s)
    ensures Strip(Quoted(s, '"'), Some({'"'})) == s
  {
    var dq := Some({'"'});
    var q := Quoted(s, '"');
    if s == [] {
      assert forall i :: 0 <= i < |q| ==> q[i] == '"';
      StripEmpty(q, dq);
    } else {
      StripAround(['"'], s, ['"'], dq);
    }
  }

  /** The case the doc-comment describes: a bare path in double quotes with
      whitespace around them comes back without the whitespace and quotes. */
  lemma CleanPathUnwrapsQuotes(w1: string, s: string, w2: string)
    requires forall i :: 0 <= i < |w1| ==> IsSpace(w1[i])
    requires forall i :: 0 <= i < |w2| ==> IsSpace(w2[i])
    requires IsBare(s)
    ensures CleanPath(w1 + Quoted(s, '"') + w2) == s
  {
    var q := Quoted(s, '"');
    StripSpaceAroundQuotes(w1, q, w2);
    StripDoubleQuotePair(s);
    StripUnchanged(s, Some({'\''}));
  }

  /** Whitespace alone cleans to the empty path. */
  lemma CleanPathOfSpace(p: string)
    requires forall i :: 0 <= i < |p| ==> IsSpace(p[i])
    ensures CleanPath(p) == ""
  {
    StripEmpty(p, None);
  }

  /** Exactly which paths clean to nothing: those whose whitespace-stripped,
      then double-quote-stripped, remainder consists of single quotes only. */
  lemma CleanPathEmpty(p: string)
    ensures CleanPath(p) == "" <==>
      var b := Strip(Strip(p, None), Some({'"'}));
      forall i :: 0 <= i < |b| ==> b[i] == '\''
  {
    StripEmpty(Strip(Strip(p, None), Some({'"'})), Some({'\''}));
  }

  /** A string of quote characters need not clean to nothing: `'"'` keeps its
      double quote, because the double quotes are stripped before the single
      quotes. */
  lemma CleanPathKeepsInnerQuote(p: string)
    requires p == ['\'', '"', '\'']
    ensures CleanPath(p) == ['"']
  {
    StripUnchanged(p, None);
    StripUnchanged(p, Some({'"'}));
    assert p[1..] == ['"', '\''];
    assert StripLeft(p, Some({'\''})) == p[1..];
    assert p[1..][..1] == ['"'];
    assert StripRight(p[1..], Some({'\''})) == ['"'];
  }

  /** `strip("'")` takes one pair of single quotes off a double-quoted string. */
  lemma StripSingleQuotePair(q: string)
    requires q != [] && q[0] == '"' && q[|q| - 1] == '"'
    ensures Strip(Quoted(q, '\''), Some({'\''})) == q
  {
    StripAround(['\''], q, ['\''], Some({'\''}));
  }

  /** Single quotes around a double-quoted string are all that cleaning
      removes: the double quotes are stripped first, while still covered. */
  lemma CleanPathSingleQuoted(q: string)
    requires q != [] && q[0] == '"' && q[|q| - 1] == '"'
    ensures CleanPath(Quoted(q, '\'')) == q
  {
    var p := Quoted(q, '\'');
    StripUnchanged(p, None);
    StripUnchanged(p, Some({'"'}));
    StripSingleQuotePair(q);
  }

  /** So a double-quoted bare path inside single quotes keeps its double
      quotes, and loses them only on a second pass: cleaning is not
      idempotent. */
  lemma CleanPathMixedQuotes(s: string)
    requires IsBare(s)
    ensures CleanPath(Quoted(Quoted(s, '"'), '\'')) == Quoted(s, '"')
    ensures CleanPath(Quoted(s, '"')) == s
  {
    var q := Quoted(s, '"');
    CleanPathSingleQuoted(q);
    StripUnchanged(q, None);
    StripDoubleQuotePair(s);
    StripUnchanged(s, Some({'\''}));
  }
}
