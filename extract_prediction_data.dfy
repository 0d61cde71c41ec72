/** The path-cleaning helper of the prediction-extraction script
    (scripts/extract_prediction_data.py).  It is a second copy of the one in
    the frame-extraction script; `main` is I/O and is not modelled. */
module ExtractPredictionData {
  import opened Wrappers
  import opened Strings
  import ExtractFrames

  /** `clean_path(p)`, that is `p.strip().strip('"').strip("'")`, as written
      a second time in this script.  The result never starts or ends with a
      single quote. */
  function CleanPath(p: string): (r: string)
    ensures r != [] ==> r[0] != '\'' && r[|r| - 1] != '\''
  {
    Strip(Strip(Strip(p, None), Some({'"'})), Some({'\''}))
  }

  /** The two copies agree on every input. */
  lemma CleanPathMatchesExtractFrames(p: string)
    ensures CleanPath(p) == ExtractFrames.CleanPath(p)
  {
  }

  /** The cleaned path is a contiguous piece of the input. */
  lemma CleanPathIsInfix(p: string)
    ensures IsInfix(CleanPath(p), p)
  {
    ExtractFrames.CleanPathIsInfix(p);
  }

  /** A bare path in double quotes comes back without them. */
  lemma CleanPathUnwrapsQuotes(s: string)
    requires ExtractFrames.IsBare(s)
    ensures CleanPath(ExtractFrames.Quoted(s, '"')) == s
  {
    ExtractFrames.CleanPathMixedQuotes(s);
  }
}
