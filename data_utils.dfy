/** Prediction and fixation tables (utils/data_utils.py): the class-code
    table, the `DataExtraction` class with its prediction-file lookup and
    line-by-line parsing of YOLO prediction files, and the seven-column
    projection of the exported fixation table.

    The file system and the parsers are parameters: the directory listing is
    a sequence of names, a file's lines come from `readLines`, and Python's
    `int(…)` and `float(…)` are the partial maps `parseInt` and `parseFloat`.
    A pandas frame is a `Table`: its column labels and its rows of cells. */
module DataUtils {
  import opened Wrappers
  import opened Strings

  // ---------------------------------------------------------------------
  // Class codes
  // ---------------------------------------------------------------------

  /** The label `class_ball_dict` gives class code `c`, for `1 <= c <= 51`. */
  function ClassLabel(c: int): string {
    match c
    case 1 => "ball_01_pink"
    case 2 => "ball_02_pink"
    case 3 => "ball_02_yellow"
    case 4 => "ball_03_pink"
    case 5 => "ball_03_yellow"
    case 6 => "ball_04_pink"
    case 7 => "ball_04_yellow"
    case 8 => "ball_05_pink"
    case 9 => "ball_05_yellow"
    case 10 => "ball_06_pink"
    case 11 => "ball_06_yellow"
    case 12 => "ball_07_pink"
    case 13 => "ball_07_yellow"
    case 14 => "ball_08_pink"
    case 15 => "ball_08_yellow"
    case 16 => "ball_09_pink"
    case 17 => "ball_09_yellow"
    case 18 => "ball_10_pink"
    case 19 => "ball_10_yellow"
    case 20 => "ball_11_pink"
    case 21 => "ball_11_yellow"
    case 22 => "ball_12_pink"
    case 23 => "ball_12_yellow"
    case 24 => "ball_13_pink"
    case 25 => "ball_13_yellow"
    case 26 => "ball_14_pink"
    case 27 => "ball_14_yellow"
    case 28 => "ball_15_pink"
    case 29 => "ball_15_yellow"
    case 30 => "ball_16_pink"
    case 31 => "ball_16_yellow"
    case 32 => "ball_17_pink"
    case 33 => "ball_17_yellow"
    case 34 => "ball_18_pink"
    case 35 => "ball_18_yellow"
    case 36 => "ball_19_pink"
    case 37 => "ball_19_yellow"
    case 38 => "ball_20_pink"
    case 39 => "ball_20_yellow"
    case 40 => "ball_21_pink"
    case 41 => "ball_21_yellow"
    case 42 => "ball_22_pink"
    case 43 => "ball_22_yellow"
    case 44 => "ball_23_pink"
    case 45 => "ball_23_yellow"
    case 46 => "ball_24_pink"
    case 47 => "ball_24_yellow"
    case 48 => "ball_25_pink"
    case 49 => "ball_25_yellow"
    case 50 => "ball_unknown"
    case 51 => "user_cursor"
    case _ => ""
  }

  /** `class_ball_dict`: class codes 1 to 51 and their labels. */
  const ClassBall: map<int, string> := map c | 1 <= c <= 51 :: ClassLabel(c)

  /** Reads the class code back from a label: `ball_NN_pink` is 1 for NN = 01
      and 2 * NN - 2 otherwise, `ball_NN_yellow` is 2 * NN - 1. */
  function LabelCode(s: string): int {
    if |s| < 9 then 0
    else if s[0] == 'u' then 51
    else if s[5] == 'u' then 50
    else
      var n := 10 * (s[5] as int - '0' as int) + (s[6] as int - '0' as int);
      if s[8] == 'y' then 2 * n - 1 else if n == 1 then 1 else 2 * n - 2
  }

  lemma ClassLabelDecodesLow(c: int)
    requires 1 <= c <= 17
    ensures LabelCode(ClassLabel(c)) == c
  {
  }

  lemma ClassLabelDecodesMiddle(c: int)
    requires 18 <= c <= 34
    ensures LabelCode(ClassLabel(c)) == c
  {
  }

  lemma ClassLabelDecodesHigh(c: int)
    requires 35 <= c <= 51
    ensures LabelCode(ClassLabel(c)) == c
  {
  }

  /** Every label determines its code. */
  lemma ClassLabelDecodes(c: int)
    requires 1 <= c <= 51
    ensures LabelCode(ClassLabel(c)) == c
  {
    if c <= 17 {
      ClassLabelDecodesLow(c);
    } else if c <= 34 {
      ClassLabelDecodesMiddle(c);
    } else {
      ClassLabelDecodesHigh(c);
    }
  }

  /** The table's keys are exactly the codes 1 to 51, and the last two are the
      unknown ball and the user's cursor. */
  lemma ClassBallKeys()
    ensures forall c :: c in ClassBall <==> 1 <= c <= 51
    ensures ClassBall[50] == "ball_unknown" && ClassBall[51] == "user_cursor"
  {
  }

  /** No two codes share a label. */
  lemma ClassBallDistinct()
    ensures forall a, b :: a in ClassBall && b in ClassBall && a != b ==> ClassBall[a] != ClassBall[b]
  {
    forall a, b | a in ClassBall && b in ClassBall && a != b
      ensures ClassBall[a] != ClassBall[b]
    {
      ClassLabelDecodes(a);
      ClassLabelDecodes(b);
    }
  }

  // ---------------------------------------------------------------------
  // Finding a prediction file
  // ---------------------------------------------------------------------

  /** The position of the first name that starts with `prefix`, if any. */
  function FirstWithPrefix(names: seq<string>, prefix: string): (r: Option<nat>)
    ensures r.Some? ==> r.value < |names| && StartsWith(names[r.value], prefix)
    ensures r.Some? ==> forall i :: 0 <= i < r.value ==> !StartsWith(names[i], prefix)
    ensures r.None? <==> forall i :: 0 <= i < |names| ==> !StartsWith(names[i], prefix)
    decreases |names|
  {
    if names == [] then None
    else if StartsWith(names[0], prefix) then Some(0)
    else match FirstWithPrefix(names[1..], prefix)
      case None => None
      case Some(i) => Some(i + 1)
  }

  /** The match is on a prefix only: asked for `fix1`, a listing that shows
      `fix10.txt` first yields that file, not `fix1.txt`. */
  lemma PrefixMatchTakesLongerId(names: seq<string>, id: string)
    requires names == ["fix10.txt", "fix1.txt"] && id == "fix1"
    ensures FirstWithPrefix(names, id) == Some(0)
    ensures StartsWith(names[1], id)
  {
    assert names[0][..4] == id;
    assert names[1][..4] == id;
  }

  function NotFoundMessage(fixationId: string, dir: string): string {
    "No prediction file found for fixation ID '" + fixationId + "' in " + dir
  }

  // ---------------------------------------------------------------------
  // Parsing prediction lines
  // ---------------------------------------------------------------------

  /** One detected ball: its label, its class code, the centre of its box and
      the box's area, all coordinates normalised. */
  datatype Detection = Detection(ball: string, ballId: int, center: (real, real), size: real)

  const PredictionColumns: seq<string> := ["ball", "ball_id", "center", "size"]

  /** The area of a box, `width * height`, which stands in for the ball's
      distance. */
  function Area(width: real, height: real): real {
    width * height
  }

  /** The frame `extract_frame_predictions` returns: one row per line. */
  datatype PredictionTable = PredictionTable(columns: seq<string>, rows: seq<Detection>)

  /** `float(parts[k])` to `float(parts[4])`, in that order; the first index
      past the end raises `IndexError`, the first bad token a conversion
      error. */
  function ParseFloats(parts: seq<string>, k: nat, parseFloat: string -> Option<real>): (r: Result<seq<real>>)
    requires 1 <= k <= 5 && k <= |parts|
    ensures r.Ok? <==> |parts| >= 5 && forall i :: k <= i < 5 ==> parseFloat(parts[i]).Some?
    ensures r.Ok? ==> |r.value| == 5 - k && forall i :: 0 <= i < 5 - k ==> r.value[i] == parseFloat(parts[k + i]).value
    ensures |parts| < 5 && (forall i :: k <= i < |parts| ==> parseFloat(parts[i]).Some?) ==> r == Err(IndexError)
    decreases 5 - k
  {
    if k == 5 then Ok([])
    else if k == |parts| then Err(IndexError)
    else match parseFloat(parts[k])
      case None => Err(ConversionError(parts[k]))
      case Some(v) =>
        match ParseFloats(parts, k + 1, parseFloat)
        case Err(e) => Err(e)
        case Ok(vs) => Ok([v] + vs)
  }

  /** The body of the line loop on the tokens of one line: the class code and
      four coordinates are converted in order, then the code is looked up. */
  function ParseTokens(parts: seq<string>, parseInt: string -> Option<int>, parseFloat: string -> Option<real>): (r: Result<Detection>)
    ensures r.Ok? <==>
      && |parts| >= 5
      && parseInt(parts[0]).Some?
      && (forall i :: 1 <= i < 5 ==> parseFloat(parts[i]).Some?)
      && parseInt(parts[0]).value in ClassBall
    ensures r.Ok? ==>
      var c := parseInt(parts[0]).value;
      r.value == Detection(ClassBall[c], c, (parseFloat(parts[1]).value, parseFloat(parts[2]).value),
                           Area(parseFloat(parts[3]).value, parseFloat(parts[4]).value))
    ensures (&& |parts| >= 5 && parseInt(parts[0]).Some?
             && (forall i :: 1 <= i < 5 ==> parseFloat(parts[i]).Some?)
             && parseInt(parts[0]).value !in ClassBall)
            ==> r == Err(KeyError(Code(parseInt(parts[0]).value)))
    ensures (&& |parts| < 5 && (parts != [] ==> parseInt(parts[0]).Some?)
             && (forall i :: 1 <= i < |parts| ==> parseFloat(parts[i]).Some?))
            ==> r == Err(IndexError)
  {
    if parts == [] then Err(IndexError)
    else match parseInt(parts[0])
      case None => Err(ConversionError(parts[0]))
      case Some(c) =>
        match ParseFloats(parts, 1, parseFloat)
        case Err(e) => Err(e)
        case Ok(v) =>
          if c in ClassBall then Ok(Detection(ClassBall[c], c, (v[0], v[1]), Area(v[2], v[3])))
          else Err(KeyError(Code(c)))
  }

  lemma {:induction false} ParseFloatsIgnoresExtra(parts: seq<string>, k: nat, parseFloat: string -> Option<real>)
    requires |parts| >= 5 && 1 <= k <= 5
    ensures ParseFloats(parts, k, parseFloat) == ParseFloats(parts[..5], k, parseFloat)
    decreases 5 - k
  {
    if k < 5 {
      assert parts[..5][k] == parts[k];
      ParseFloatsIgnoresExtra(parts, k + 1, parseFloat);
    }
  }

  /** Tokens after the fifth are never looked at. */
  lemma ParseTokensIgnoresExtra(parts: seq<string>, parseInt: string -> Option<int>, parseFloat: string -> Option<real>)
    requires |parts| >= 5
    ensures ParseTokens(parts, parseInt, parseFloat) == ParseTokens(parts[..5], parseInt, parseFloat)
  {
    var short := parts[..5];
    assert short != [] && short[0] == parts[0];
    ParseFloatsIgnoresExtra(parts, 1, parseFloat);
  }

  /** `line.strip().split()` and the row built from its tokens. */
  function ParseLine(line: string, parseInt: string -> Option<int>, parseFloat: string -> Option<real>): Result<Detection> {
    ParseTokens(Split(Strip(line, None)), parseInt, parseFloat)
  }

  /** `ParseLine` as the function value the line loop applies. */
  function LineParser(parseInt: string -> Option<int>, parseFloat: string -> Option<real>): string -> Result<Detection> {
    line => ParseLine(line, parseInt, parseFloat)
  }

  /** `strip()` removes the newline that ends a space-joined line of words
      and nothing else. */
  lemma StripJoinedLine(ws: seq<string>, newline: string)
    requires ws != []
    requires forall k :: 0 <= k < |ws| ==> ws[k] != [] && NoSpace(ws[k])
    requires newline == "\n"
    ensures Strip(JoinWords(ws) + newline, None) == JoinWords(ws)
  {
    var body := JoinWords(ws);
    JoinWordsEnds(ws);
    assert !IsSpace(body[0]) && !IsSpace(body[|body| - 1]);
    assert IsSpace(newline[0]);
    StripTrailing(body, newline, None);
  }

  /** A line written as its tokens separated by single spaces and ended by a
      newline parses as those tokens. */
  lemma ParseLineOfTokens(ws: seq<string>, parseInt: string -> Option<int>, parseFloat: string -> Option<real>)
    requires ws != []
    requires forall k :: 0 <= k < |ws| ==> ws[k] != [] && NoSpace(ws[k])
    ensures ParseLine(JoinWords(ws) + "\n", parseInt, parseFloat) == ParseTokens(ws, parseInt, parseFloat)
  {
    StripJoinedLine(ws, "\n");
    SplitJoinWords(ws);
  }

  /** The loop over a file's lines with line parser `parse`: one row per line,
      in order; the first line that fails ends the loop with its error. */
  function ParseAll<T>(lines: seq<string>, parse: string -> Result<T>): (r: Result<seq<T>>)
    decreases |lines|
  {
    if lines == [] then Ok([])
    else
      match ParseAll(lines[..|lines| - 1], parse)
      case Err(e) => Err(e)
      case Ok(rows) =>
        match parse(lines[|lines| - 1])
        case Err(e) => Err(e)
        case Ok(d) => Ok(rows + [d])
  }

  /** The lines parse as a whole exactly when each does, and then row `i` is
      what line `i` parses to. */
  lemma {:induction false} ParseAllOk<T>(lines: seq<string>, parse: string -> Result<T>)
    ensures ParseAll(lines, parse).Ok? <==> forall i :: 0 <= i < |lines| ==> parse(lines[i]).Ok?
    ensures ParseAll(lines, parse).Ok? ==>
      && |ParseAll(lines, parse).value| == |lines|
      && forall i :: 0 <= i < |lines| ==> ParseAll(lines, parse).value[i] == parse(lines[i]).value
    decreases |lines|
  {
    if lines != [] {
      var front := lines[..|lines| - 1];
      ParseAllOk(front, parse);
      assert forall i :: 0 <= i < |front| ==> front[i] == lines[i];
    }
  }

  /** Once a prefix of the lines has failed, the later lines change nothing. */
  lemma {:induction false} ParseAllErrSticks<T>(lines: seq<string>, k: nat, parse: string -> Result<T>)
    requires k <= |lines|
    requires ParseAll(lines[..k], parse).Err?
    ensures ParseAll(lines, parse) == ParseAll(lines[..k], parse)
    decreases |lines|
  {
    if k < |lines| {
      var front := lines[..|lines| - 1];
      assert front[..k] == lines[..k];
      ParseAllErrSticks(front, k, parse);
    } else {
      assert lines[..k] == lines;
    }
  }

  /** The error is that of the first line that fails. */
  lemma ParseAllFirstError<T>(lines: seq<string>, i: nat, parse: string -> Result<T>)
    requires i < |lines|
    requires forall j :: 0 <= j < i ==> parse(lines[j]).Ok?
    requires parse(lines[i]).Err?
    ensures ParseAll(lines, parse) == Err(parse(lines[i]).error)
  {
    var front := lines[..i];
    var upto := lines[..i + 1];
    assert forall j :: 0 <= j < i ==> front[j] == lines[j];
    ParseAllOk(front, parse);
    assert upto[..i] == front && upto[i] == lines[i];
    assert ParseAll(upto, parse) == Err(parse(lines[i]).error);
    ParseAllErrSticks(lines, i + 1, parse);
  }

  /** The line loop of `extract_frame_predictions`: each line's row is
      appended in turn, and the first line that fails ends the loop. */
  method ParseLines<T>(lines: seq<string>, parse: string -> Result<T>) returns (r: Result<seq<T>>)
    ensures r == ParseAll(lines, parse)
  {
    var rows: seq<T> := [];
    var i := 0;
    while i < |lines|
      invariant 0 <= i <= |lines|
      invariant ParseAll(lines[..i], parse) == Ok(rows)
    {
      var parsed := parse(lines[i]);
      assert lines[..i + 1][..i] == lines[..i];
      if parsed.Err? {
        ParseAllErrSticks(lines, i + 1, parse);
        return Err(parsed.error);
      }
      rows := rows + [parsed.value];
      i := i + 1;
    }
    assert lines[..i] == lines;
    r := Ok(rows);
  }

  // ---------------------------------------------------------------------
  // The fixation table
  // ---------------------------------------------------------------------

  /** A pandas frame: column labels and rows of cells. */
  datatype Table<V> = Table(columns: seq<string>, rows: seq<seq<V>>)

  /** Every row has one cell per column, as in any frame `read_csv` returns. */
  predicate Rectangular<V>(t: Table<V>) {
    forall i :: 0 <= i < |t.rows| ==> |t.rows[i]| == |t.columns|
  }

  const FixationColumns: seq<string> :=
    ["id", "start_times", "start_frame_index", "end_frame_index", "norm_pos_x", "norm_pos_y", "duration"]

  /** The position of the first column labelled `c`. */
  function IndexOf(cols: seq<string>, c: string): (k: nat)
    requires c in cols
    ensures k < |cols| && cols[k] == c
    ensures forall j :: 0 <= j < k ==> cols[j] != c
  {
    if cols[0] == c then 0 else 1 + IndexOf(cols[1..], c)
  }

  /** The selected labels that are not columns, in selection order. */
  function Missing(cols: seq<string>, sel: seq<string>): (m: seq<string>)
    ensures forall x :: x in m <==> x in sel && x !in cols
    ensures |m| <= |sel|
    decreases |sel|
  {
    if sel == [] then []
    else (if sel[0] in cols then [] else [sel[0]]) + Missing(cols, sel[1..])
  }

  /** The values of column `c`, top to bottom. */
  function Column<V>(t: Table<V>, c: string): seq<V>
    requires Rectangular(t) && c in t.columns
  {
    seq(|t.rows|, i requires 0 <= i < |t.rows| => t.rows[i][IndexOf(t.columns, c)])
  }

  /** `df[sel]`: the selected columns, in the order given, of every row. */
  function Project<V>(t: Table<V>, sel: seq<string>): (r: Table<V>)
    requires Rectangular(t)
    requires forall j :: 0 <= j < |sel| ==> sel[j] in t.columns
    ensures r.columns == sel && |r.rows| == |t.rows| && Rectangular(r)
  {
    Table(sel, seq(|t.rows|, i requires 0 <= i < |t.rows| =>
      seq(|sel|, j requires 0 <= j < |sel| => t.rows[i][IndexOf(t.columns, sel[j])])))
  }

  /** Projection keeps every selected column's values, row for row. */
  lemma ProjectKeepsColumns<V>(t: Table<V>, sel: seq<string>, c: string)
    requires Rectangular(t)
    requires forall j :: 0 <= j < |sel| ==> sel[j] in t.columns
    requires c in sel
    ensures c in t.columns && Column(Project(t, sel), c) == Column(t, c)
  {
    var p := Project(t, sel);
    var k := IndexOf(sel, c);
    assert p.columns == sel;
    forall i | 0 <= i < |t.rows|
      ensures Column(p, c)[i] == Column(t, c)[i]
    {
      assert p.rows[i][k] == t.rows[i][IndexOf(t.columns, sel[k])];
    }
  }

  /** Selecting the same columns again changes nothing. */
  lemma ProjectIdempotent<V>(t: Table<V>, sel: seq<string>)
    requires Rectangular(t)
    requires forall j :: 0 <= j < |sel| ==> sel[j] in t.columns
    ensures Project(Project(t, sel), sel) == Project(t, sel)
  {
    var p := Project(t, sel);
    var q := Project(p, sel);
    forall i | 0 <= i < |t.rows|
      ensures q.rows[i] == p.rows[i]
    {
      forall j | 0 <= j < |sel|
        ensures q.rows[i][j] == p.rows[i][j]
      {
        var k := IndexOf(sel, sel[j]);
        assert q.rows[i][j] == p.rows[i][k];
        assert p.rows[i][k] == t.rows[i][IndexOf(t.columns, sel[k])];
      }
    }
  }

  /** `df[sel]` with a list of labels: the projection, or a `KeyError`
      naming the labels that are not columns. */
  function Select<V>(df: Table<V>, sel: seq<string>): (r: Result<Table<V>>)
    requires Rectangular(df)
    ensures r.Ok? <==> forall j :: 0 <= j < |sel| ==> sel[j] in df.columns
    ensures r.Err? ==> r.error == KeyError(Names(Missing(df.columns, sel)))
    ensures r.Ok? ==> r.value == Project(df, sel)
  {
    var missing := Missing(df.columns, sel);
    if missing == [] then Ok(Project(df, sel))
    else
      assert missing[0] in missing;
      Err(KeyError(Names(missing)))
  }

  /** `extract_fixations_data`, given the frame `read_csv` builds from the
      fixation file: the seven analysis columns, or a `KeyError` naming the
      ones the file lacks. */
  function ExtractFixationsData<V>(df: Table<V>): (r: Result<Table<V>>)
    requires Rectangular(df)
    ensures r.Ok? <==> forall j :: 0 <= j < |FixationColumns| ==> FixationColumns[j] in df.columns
    ensures r.Err? ==> r.error == KeyError(Names(Missing(df.columns, FixationColumns)))
    ensures r.Ok? ==> r.value.columns == FixationColumns && |r.value.rows| == |df.rows| && Rectangular(r.value)
  {
    Select(df, FixationColumns)
  }

  /** Each of the seven columns comes through with its values in row order,
      and extracting again returns the same frame. */
  lemma ExtractFixationsDataKeeps<V>(df: Table<V>, c: string)
    requires Rectangular(df)
    requires ExtractFixationsData(df).Ok?
    requires c in FixationColumns
    ensures Rectangular(ExtractFixationsData(df).value)
    ensures c in df.columns && Column(ExtractFixationsData(df).value, c) == Column(df, c)
    ensures ExtractFixationsData(ExtractFixationsData(df).value) == ExtractFixationsData(df)
  {
    ProjectKeepsColumns(df, FixationColumns, c);
    ProjectIdempotent(df, FixationColumns);
  }

  // ---------------------------------------------------------------------
  // DataExtraction
  // ---------------------------------------------------------------------

  /** `DataExtraction`: a patient's prediction directory and fixation file. */
  class DataExtraction {
    const patientId: string
    const patientDir: string
    const predictionsDir: string
    const fixationData: string

    constructor (patientId: string, patientDir: string)
      ensures this.patientId == patientId && this.patientDir == patientDir
      ensures predictionsDir == PathJoin(patientDir, "predictions")
      ensures fixationData == PathJoin(patientDir, patientId + "_fixations.csv")
    {
      this.patientId := patientId;
      this.patientDir := patientDir;
      predictionsDir := PathJoin(patientDir, "predictions");
      fixationData := PathJoin(patientDir, patientId + "_fixations.csv");
    }

    /** `_find_file` over the listing of the prediction directory: the first
        name in listing order that starts with the fixation id. */
    method FindFile(listing: seq<string>, fixationId: string) returns (r: Result<string>)
      ensures FirstWithPrefix(listing, fixationId).Some? ==>
        r == Ok(PathJoin(predictionsDir, listing[FirstWithPrefix(listing, fixationId).value]))
      ensures FirstWithPrefix(listing, fixationId).None? ==>
        r == Err(FileNotFoundError(NotFoundMessage(fixationId, predictionsDir)))
    {
      var predPath: Option<string> := None;
      var i := 0;
      while i < |listing|
        invariant 0 <= i <= |listing|
        invariant forall j :: 0 <= j < i ==> !StartsWith(listing[j], fixationId)
        invariant predPath.None?
      {
        if StartsWith(listing[i], fixationId) {
          predPath := Some(PathJoin(predictionsDir, listing[i]));
          break;
        }
        i := i + 1;
      }
      if predPath.None? {
        return Err(FileNotFoundError(NotFoundMessage(fixationId, predictionsDir)));
      }
      r := Ok(predPath.value);
    }

    /** `extract_frame_predictions`: the prediction file is found as by
        `FindFile`; its lines are then parsed one by one, each adding one row,
        and the first line that fails ends the call with no frame. */
    method ExtractFramePredictions(fixationId: string, listing: seq<string>, readLines: string -> seq<string>,
                                   parseInt: string -> Option<int>, parseFloat: string -> Option<real>)
      returns (r: Result<PredictionTable>)
      ensures FirstWithPrefix(listing, fixationId).None? ==>
        r == Err(FileNotFoundError(NotFoundMessage(fixationId, predictionsDir)))
      ensures FirstWithPrefix(listing, fixationId).Some? ==>
        var path := PathJoin(predictionsDir, listing[FirstWithPrefix(listing, fixationId).value]);
        r == match ParseAll(readLines(path), LineParser(parseInt, parseFloat))
             case Err(e) => Err(e)
             case Ok(rows) => Ok(PredictionTable(PredictionColumns, rows))
    {
      var found := FindFile(listing, fixationId);
      if found.Err? {
        return Err(found.error);
      }
      var rows := ParseLines(readLines(found.value), LineParser(parseInt, parseFloat));
      if rows.Err? {
        return Err(rows.error);
      }
      r := Ok(PredictionTable(PredictionColumns, rows.value));
    }
  }
}
