/** Frame selection and extraction (utils/video_utils.py): the
    `FixationFrameExtractor` class, its representative-frame policy, the
    loading of fixation ranges and the extraction loop that writes one image
    and one metadata row per readable fixation.

    OpenCV is not modelled: whether the video opens is the parameter `opens`,
    and whether a frame can be decoded is the oracle `readable`; images are
    recorded by their paths, the metadata CSV by the rows handed to the CSV
    writer. */
module VideoUtils {
  import opened Wrappers
  import opened Strings

  // ---------------------------------------------------------------------
  // Representative frames
  // ---------------------------------------------------------------------

  /** `select_frames(start_frame, end_frame)`.  With `n` the number of frames
      in the range, a range of at most 3 frames is sampled once, at its upper
      midpoint; one of 4 to 9 frames at its start, lower midpoint and end; a
      longer one also at its quarter points.  Python's `//` by a positive
      constant rounds down, as `/` does here, for every sign of the operand. */
  function SelectFrames(start: int, end: int): (r: seq<int>)
    ensures |r| == if end - start + 1 <= 3 then 1 else if end - start + 1 <= 9 then 3 else 5
    ensures end - start + 1 <= 3 ==> r == [(start + end + 1) / 2]
    ensures end - start + 1 > 3 ==> r[0] == start && r[|r| - 1] == end && r[|r| / 2] == (start + end) / 2
    ensures end - start + 1 > 9 ==>
      r[1] == start + (end - start + 1) / 4 && r[3] == start + 3 * (end - start + 1) / 4
  {
    var n := end - start + 1;
    if n <= 3 then [start + n / 2]
    else if n <= 9 then [start, (start + end) / 2, end]
    else [start, start + n / 4, (start + end) / 2, start + (3 * n) / 4, end]
  }

  /** On a well-formed range the selected frames lie in the range and are
      strictly increasing, so no frame is chosen twice. */
  lemma SelectFramesOrdered(start: int, end: int)
    requires start <= end
    ensures forall i :: 0 <= i < |SelectFrames(start, end)| ==> start <= SelectFrames(start, end)[i] <= end
    ensures forall i, j :: 0 <= i < j < |SelectFrames(start, end)| ==>
      SelectFrames(start, end)[i] < SelectFrames(start, end)[j]
  {
    var r := SelectFrames(start, end);
    var n := end - start + 1;
    if n > 9 {
      assert start < start + n / 4 < (start + end) / 2 < start + 3 * n / 4 < end;
    } else if n > 3 {
      assert start < (start + end) / 2 < end;
    }
  }

  /** The policy depends only on the range's length: moving the range moves
      every selected frame by the same amount. */
  lemma SelectFramesShift(start: int, end: int, d: int)
    ensures |SelectFrames(start + d, end + d)| == |SelectFrames(start, end)|
    ensures forall i :: 0 <= i < |SelectFrames(start, end)| ==>
      SelectFrames(start + d, end + d)[i] == SelectFrames(start, end)[i] + d
  {
  }

  /** The frames the code gives for a one-frame, a nine-frame and a
      twenty-frame range. */
  lemma SelectFramesExamples()
    ensures SelectFrames(10, 10) == [10]
    ensures SelectFrames(0, 8) == [0, 4, 8]
    ensures SelectFrames(0, 19) == [0, 5, 9, 15, 19]
  {
    assert 3 * 20 / 4 == 15 && 20 / 4 == 5 && 19 / 2 == 9;
    assert 8 / 2 == 4 && 21 / 2 == 10;
  }

  /** The extraction loop reads the lower midpoint `(start + end) // 2`, which
      is among the selected frames exactly when the range has more than three
      frames or an odd number of them. */
  lemma MidpointAmongSelected(start: int, end: int)
    requires start <= end
    ensures (start + end) / 2 in SelectFrames(start, end) <==>
      end - start + 1 > 3 || (end - start + 1) % 2 == 1
  {
    var n := end - start + 1;
    if n <= 3 {
      assert SelectFrames(start, end) == [(start + end + 1) / 2];
    } else if n <= 9 {
      assert SelectFrames(start, end)[1] == (start + end) / 2;
    } else {
      assert SelectFrames(start, end)[2] == (start + end) / 2;
    }
  }

  /** For a two-frame range the selector picks the end frame and the
      extraction loop the start frame. */
  lemma TwoFrameRangeDisagrees(start: int)
    ensures SelectFrames(start, start + 1) == [start + 1]
    ensures (start + (start + 1)) / 2 == start
  {
  }

  // ---------------------------------------------------------------------
  // Fixation ranges
  // ---------------------------------------------------------------------

  /** One CSV row (column name to parsed value) or one JSON object. */
  type Record = map<string, int>

  const StartKey: string := "start"
  const EndKey: string := "end"
  const StartColumn: string := "start_frame_index"
  const EndColumn: string := "end_frame_index"
  const VideoOpenError: string := "Error opening video file: "
  const UnsupportedFormat: string := "Unsupported fixation file format. Must be .csv or .json"

  predicate HasKeys(r: Record, a: string, b: string) {
    a in r && b in r
  }

  /** The `KeyError` that reading `r[a]`, then `r[b]`, raises. */
  function MissingKey(r: Record, a: string, b: string): Error
    requires !HasKeys(r, a, b)
  {
    KeyError(Name(if a !in r then a else b))
  }

  /** The position of the first record lacking key `a` or `b`, or the
      number of records when none does. */
  function FirstLacking(rows: seq<Record>, a: string, b: string): (k: nat)
    ensures k <= |rows|
    ensures forall i :: 0 <= i < k ==> HasKeys(rows[i], a, b)
    ensures k < |rows| ==> !HasKeys(rows[k], a, b)
    decreases |rows|
  {
    if rows == [] || !HasKeys(rows[0], a, b) then 0 else 1 + FirstLacking(rows[1..], a, b)
  }

  /** `FirstLacking` is characterised by its contract: the first position
      whose record lacks a key, if any. */
  lemma FirstLackingIs(rows: seq<Record>, a: string, b: string, k: nat)
    requires k <= |rows|
    requires forall i :: 0 <= i < k ==> HasKeys(rows[i], a, b)
    requires k < |rows| ==> !HasKeys(rows[k], a, b)
    ensures FirstLacking(rows, a, b) == k
  {
  }

  /** The `{"start": …, "end": …}` record made from one CSV row. */
  function RangeOf(row: Record): Record
    requires HasKeys(row, StartColumn, EndColumn)
  {
    map[StartKey := row[StartColumn], EndKey := row[EndColumn]]
  }

  /** The ranges of a sequence of CSV rows, one per row, in file order. */
  function CsvRanges(rows: seq<Record>): (fs: seq<Record>)
    requires forall i :: 0 <= i < |rows| ==> HasKeys(rows[i], StartColumn, EndColumn)
    ensures |fs| == |rows|
    ensures forall i :: 0 <= i < |rows| ==> fs[i] == RangeOf(rows[i])
    decreases |rows|
  {
    if rows == [] then [] else CsvRanges(rows[..|rows| - 1]) + [RangeOf(rows[|rows| - 1])]
  }

  /** What `load_fixation_data` raises (or not) and what `fixation_data`
      holds afterwards. */
  datatype LoadEffect = LoadEffect(outcome: Outcome, data: seq<Record>)

  /** `load_fixation_data`, given the file's rows as the CSV reader would
      deliver them and its list as the JSON reader would.  A `.csv` path
      resets the list and appends one range per row until a row lacks a
      column; a `.json` path replaces the list; any other path raises and
      leaves the list as it was. */
  function LoadFixations(path: string, current: seq<Record>, csvRows: seq<Record>, jsonItems: seq<Record>): (e: LoadEffect)
    ensures EndsWith(path, ".csv") ==>
      && |e.data| <= |csvRows|
      && (forall i :: 0 <= i < |e.data| ==> HasKeys(csvRows[i], StartColumn, EndColumn) && e.data[i] == RangeOf(csvRows[i]))
      && (e.outcome.Pass? <==> forall i :: 0 <= i < |csvRows| ==> HasKeys(csvRows[i], StartColumn, EndColumn))
      && (e.outcome.Pass? ==> |e.data| == |csvRows|)
      && (e.outcome.Fail? ==>
            && |e.data| < |csvRows|
            && !HasKeys(csvRows[|e.data|], StartColumn, EndColumn)
            && e.outcome.error == MissingKey(csvRows[|e.data|], StartColumn, EndColumn))
    ensures !EndsWith(path, ".csv") && EndsWith(path, ".json") ==> e == LoadEffect(Pass, jsonItems)
    ensures !EndsWith(path, ".csv") && !EndsWith(path, ".json") ==>
      e == LoadEffect(Fail(ValueError(UnsupportedFormat)), current)
  {
    if EndsWith(path, ".csv") then
      var k := FirstLacking(csvRows, StartColumn, EndColumn);
      LoadEffect(if k == |csvRows| then Pass else Fail(MissingKey(csvRows[k], StartColumn, EndColumn)),
                 CsvRanges(csvRows[..k]))
    else if EndsWith(path, ".json") then LoadEffect(Pass, jsonItems)
    else LoadEffect(Fail(ValueError(UnsupportedFormat)), current)
  }

  /** The file name given to fixation `idx`'s image, `f"fix{idx}.png"`. */
  function FrameFileName(idx: nat): string {
    "fix" + NatToDecimal(idx) + ".png"
  }

  /** Different fixations get different image names, so no image overwrites
      another. */
  lemma FrameFileNameInjective(a: nat, b: nat)
    requires FrameFileName(a) == FrameFileName(b)
    ensures a == b
  {
    var da, db := NatToDecimal(a), NatToDecimal(b);
    assert |da| == |db|;
    assert da == FrameFileName(a)[3..3 + |da|];
    assert db == FrameFileName(b)[3..3 + |db|];
    DecimalInjective(a, b);
  }

  // ---------------------------------------------------------------------
  // Extraction
  // ---------------------------------------------------------------------

  /** An OpenCV capture: the path it was opened on, whether it opened, and
      whether it has been released. */
  datatype Capture = Capture(source: string, isOpen: bool, released: bool)

  /** Frames can be decoded only from a capture that opened and is not
      released. */
  predicate CanRead(c: Capture) {
    c.isOpen && !c.released
  }

  /** One row of frames_metadata.csv. */
  datatype MetadataRow = MetadataRow(fixationId: nat, frameIdx: int, savedFilename: string)

  const MetadataHeader: seq<string> := ["fixation_id", "frame_idx", "saved_filename"]

  /** The frame the extraction loop reads for a fixation. */
  function Midpoint(f: Record): int
    requires HasKeys(f, StartKey, EndKey)
  {
    (f[StartKey] + f[EndKey]) / 2
  }

  /** The metadata rows for a list of fixations whose index in the list is
      their id: one row per fixation whose midpoint frame is read, in list
      order; a failed read only skips that fixation. */
  function MetadataRows(fs: seq<Record>, deviceOk: bool, readable: int -> bool): (rows: seq<MetadataRow>)
    requires forall i :: 0 <= i < |fs| ==> HasKeys(fs[i], StartKey, EndKey)
    ensures |rows| <= |fs|
    decreases |fs|
  {
    if fs == [] then []
    else
      var k := |fs| - 1;
      var mid := Midpoint(fs[k]);
      MetadataRows(fs[..k], deviceOk, readable)
        + if deviceOk && readable(mid) then [MetadataRow(k, mid, FrameFileName(k))] else []
  }

  /** A row stands for a successfully read fixation of `fs`: its number, its
      midpoint frame and its image name. */
  ghost predicate RowFits(fs: seq<Record>, row: MetadataRow, deviceOk: bool, readable: int -> bool)
    requires forall i :: 0 <= i < |fs| ==> HasKeys(fs[i], StartKey, EndKey)
  {
    && row.fixationId < |fs|
    && row.frameIdx == Midpoint(fs[row.fixationId])
    && row.savedFilename == FrameFileName(row.fixationId)
    && deviceOk && readable(row.frameIdx)
  }

  /** Every row stands for a read fixation of `fs`, in increasing fixation
      order. */
  ghost predicate RowsSound(fs: seq<Record>, rows: seq<MetadataRow>, deviceOk: bool, readable: int -> bool)
    requires forall i :: 0 <= i < |fs| ==> HasKeys(fs[i], StartKey, EndKey)
  {
    && (forall j :: 0 <= j < |rows| ==> RowFits(fs, rows[j], deviceOk, readable))
    && (forall j, l :: 0 <= j < l < |rows| ==> rows[j].fixationId < rows[l].fixationId)
  }

  lemma {:induction false} MetadataRowsSound(fs: seq<Record>, deviceOk: bool, readable: int -> bool)
    requires forall i :: 0 <= i < |fs| ==> HasKeys(fs[i], StartKey, EndKey)
    ensures RowsSound(fs, MetadataRows(fs, deviceOk, readable), deviceOk, readable)
    decreases |fs|
  {
    if fs != [] {
      var k := |fs| - 1;
      var front := MetadataRows(fs[..k], deviceOk, readable);
      var rows := MetadataRows(fs, deviceOk, readable);
      MetadataRowsSound(fs[..k], deviceOk, readable);
      assert RowsSound(fs[..k], front, deviceOk, readable);
      assert rows[..|front|] == front;
      forall j | 0 <= j < |rows|
        ensures RowFits(fs, rows[j], deviceOk, readable)
        ensures j < |front| ==> rows[j].fixationId < k
        ensures j == |front| ==> rows[j].fixationId == k
      {
        if j < |front| {
          assert rows[j] == front[j];
          assert RowFits(fs[..k], front[j], deviceOk, readable);
          assert fs[..k][front[j].fixationId] == fs[front[j].fixationId];
        } else {
          assert rows[j] == MetadataRow(k, Midpoint(fs[k]), FrameFileName(k));
        }
      }
      forall j, l | 0 <= j < l < |rows| ensures rows[j].fixationId < rows[l].fixationId {
        assert rows[j] == front[j];
        if l < |front| {
          assert rows[l] == front[l];
        }
      }
    }
  }

  /** Every fixation whose midpoint frame can be read has its row. */
  lemma {:induction false} MetadataRowsComplete(fs: seq<Record>, deviceOk: bool, readable: int -> bool, k: nat)
    requires forall i :: 0 <= i < |fs| ==> HasKeys(fs[i], StartKey, EndKey)
    requires k < |fs|
    ensures (exists j :: 0 <= j < |MetadataRows(fs, deviceOk, readable)| &&
                         MetadataRows(fs, deviceOk, readable)[j].fixationId == k)
            <==> deviceOk && readable(Midpoint(fs[k]))
    decreases |fs|
  {
    var rows := MetadataRows(fs, deviceOk, readable);
    var n := |fs| - 1;
    var front := MetadataRows(fs[..n], deviceOk, readable);
    MetadataRowsSound(fs[..n], deviceOk, readable);
    if k < n {
      MetadataRowsComplete(fs[..n], deviceOk, readable, k);
      assert fs[..n][k] == fs[k];
      if deviceOk && readable(Midpoint(fs[k])) {
        var j :| 0 <= j < |front| && front[j].fixationId == k;
        assert rows[j] == front[j];
      }
    } else if deviceOk && readable(Midpoint(fs[k])) {
      assert rows[|rows| - 1].fixationId == k;
    }
  }

  /** When every read succeeds there is a row for every fixation. */
  lemma {:induction false} MetadataRowsAllRead(fs: seq<Record>, readable: int -> bool)
    requires forall i :: 0 <= i < |fs| ==> HasKeys(fs[i], StartKey, EndKey)
    requires forall f :: readable(f)
    ensures |MetadataRows(fs, true, readable)| == |fs|
    ensures forall j :: 0 <= j < |fs| ==> MetadataRows(fs, true, readable)[j].fixationId == j
    decreases |fs|
  {
    if fs != [] {
      MetadataRowsAllRead(fs[..|fs| - 1], readable);
    }
  }

  /** No two metadata rows name the same image. */
  lemma MetadataFilenamesDistinct(fs: seq<Record>, deviceOk: bool, readable: int -> bool)
    requires forall i :: 0 <= i < |fs| ==> HasKeys(fs[i], StartKey, EndKey)
    ensures forall j, l :: 0 <= j < l < |MetadataRows(fs, deviceOk, readable)| ==>
      MetadataRows(fs, deviceOk, readable)[j].savedFilename != MetadataRows(fs, deviceOk, readable)[l].savedFilename
  {
    var rows := MetadataRows(fs, deviceOk, readable);
    MetadataRowsSound(fs, deviceOk, readable);
    forall j, l | 0 <= j < l < |rows| ensures rows[j].savedFilename != rows[l].savedFilename {
      if rows[j].savedFilename == rows[l].savedFilename {
        FrameFileNameInjective(rows[j].fixationId, rows[l].fixationId);
      }
    }
  }

  /** The cells the CSV writer receives for one row: `[idx, frame_idx, filename]`. */
  function RenderRow(row: MetadataRow): seq<string> {
    [NatToDecimal(row.fixationId), IntToDecimal(row.frameIdx), row.savedFilename]
  }

  function RenderRows(rows: seq<MetadataRow>): (lines: seq<seq<string>>)
    ensures |lines| == |rows|
    decreases |rows|
  {
    if rows == [] then [] else RenderRows(rows[..|rows| - 1]) + [RenderRow(rows[|rows| - 1])]
  }

  /** Line `j` after the header renders row `j`. */
  lemma {:induction false} RenderRowsAt(rows: seq<MetadataRow>, j: nat)
    requires j < |rows|
    ensures RenderRows(rows)[j] == RenderRow(rows[j])
    decreases |rows|
  {
    if j < |rows| - 1 {
      RenderRowsAt(rows[..|rows| - 1], j);
    }
  }

  /** The paths the images of the given rows are written to. */
  function SavedPaths(dir: string, rows: seq<MetadataRow>): (paths: seq<string>)
    ensures |paths| == |rows|
    decreases |rows|
  {
    if rows == [] then [] else SavedPaths(dir, rows[..|rows| - 1]) + [PathJoin(dir, rows[|rows| - 1].savedFilename)]
  }

  /** Image `j` is written to the row's file name inside `dir`. */
  lemma {:induction false} SavedPathsAt(dir: string, rows: seq<MetadataRow>, j: nat)
    requires j < |rows|
    ensures SavedPaths(dir, rows)[j] == PathJoin(dir, rows[j].savedFilename)
    decreases |rows|
  {
    if j < |rows| - 1 {
      SavedPathsAt(dir, rows[..|rows| - 1], j);
    }
  }

  /** What the extraction loop leaves behind: its outcome, the rows given to
      the CSV writer (header first) and the image paths written. */
  datatype Extraction = Extraction(outcome: Outcome, metadata: seq<seq<string>>, saved: seq<string>)

  /** The extraction loop over `fs`: it stops with a `KeyError` at the first
      fixation lacking `"start"` or `"end"`, keeping what it wrote so far. */
  function Extract(fs: seq<Record>, deviceOk: bool, readable: int -> bool, dir: string): (e: Extraction)
    ensures 1 <= |e.metadata| <= |fs| + 1 && e.metadata[0] == MetadataHeader
    ensures e.outcome.Pass? <==> forall i :: 0 <= i < |fs| ==> HasKeys(fs[i], StartKey, EndKey)
  {
    var k := FirstLacking(fs, StartKey, EndKey);
    var rows := MetadataRows(fs[..k], deviceOk, readable);
    Extraction(if k == |fs| then Pass else Fail(MissingKey(fs[k], StartKey, EndKey)),
               [MetadataHeader] + RenderRows(rows),
               SavedPaths(dir, rows))
  }

  /** One more fixation adds at most its own row, at the end. */
  lemma MetadataRowsSnoc(fs: seq<Record>, i: nat, deviceOk: bool, readable: int -> bool)
    requires i < |fs|
    requires forall j :: 0 <= j <= i ==> HasKeys(fs[j], StartKey, EndKey)
    ensures MetadataRows(fs[..i + 1], deviceOk, readable) ==
      MetadataRows(fs[..i], deviceOk, readable)
        + if deviceOk && readable(Midpoint(fs[i])) then [MetadataRow(i, Midpoint(fs[i]), FrameFileName(i))] else []
  {
    assert fs[..i + 1][..i] == fs[..i];
    assert fs[..i + 1][i] == fs[i];
  }

  /** One more row adds its own line at the end. */
  lemma RenderRowsSnoc(rows: seq<MetadataRow>, row: MetadataRow)
    ensures RenderRows(rows + [row]) == RenderRows(rows) + [RenderRow(row)]
  {
    assert (rows + [row])[..|rows|] == rows;
  }

  /** One more row adds its own image path at the end. */
  lemma SavedPathsSnoc(dir: string, rows: seq<MetadataRow>, row: MetadataRow)
    ensures SavedPaths(dir, rows + [row]) == SavedPaths(dir, rows) + [PathJoin(dir, row.savedFilename)]
  {
    assert (rows + [row])[..|rows|] == rows;
  }

  /** `Extract` stops at the first record that lacks a key, if any. */
  lemma ExtractStopsAt(fs: seq<Record>, k: nat, deviceOk: bool, readable: int -> bool, dir: string)
    requires k <= |fs|
    requires forall j :: 0 <= j < k ==> HasKeys(fs[j], StartKey, EndKey)
    requires k < |fs| ==> !HasKeys(fs[k], StartKey, EndKey)
    ensures Extract(fs, deviceOk, readable, dir) ==
      Extraction(if k == |fs| then Pass else Fail(MissingKey(fs[k], StartKey, EndKey)),
                 [MetadataHeader] + RenderRows(MetadataRows(fs[..k], deviceOk, readable)),
                 SavedPaths(dir, MetadataRows(fs[..k], deviceOk, readable)))
  {
    FirstLackingIs(fs, StartKey, EndKey, k);
  }

  /** The body of the extraction loop for fixation `idx`, which has both keys:
      its midpoint frame is read and, when the read succeeds, its image path
      and metadata row are appended. */
  method WriteFixation(fs: seq<Record>, idx: nat, deviceOk: bool, readable: int -> bool, dir: string,
                       lines: seq<seq<string>>, saved: seq<string>, ghost rows: seq<MetadataRow>)
    returns (lines': seq<seq<string>>, saved': seq<string>, ghost rows': seq<MetadataRow>)
    requires idx < |fs|
    requires forall j :: 0 <= j <= idx ==> HasKeys(fs[j], StartKey, EndKey)
    requires rows == MetadataRows(fs[..idx], deviceOk, readable)
    requires lines == RenderRows(rows) && saved == SavedPaths(dir, rows)
    ensures rows' == MetadataRows(fs[..idx + 1], deviceOk, readable)
    ensures lines' == RenderRows(rows') && saved' == SavedPaths(dir, rows')
  {
    var middle := Midpoint(fs[idx]);
    MetadataRowsSnoc(fs, idx, deviceOk, readable);
    lines', saved', rows' := lines, saved, rows;
    if deviceOk && readable(middle) {
      var filename := FrameFileName(idx);
      var row := MetadataRow(idx, middle, filename);
      RenderRowsSnoc(rows, row);
      SavedPathsSnoc(dir, rows, row);
      lines' := lines + [RenderRow(row)];
      saved' := saved + [PathJoin(dir, filename)];
      rows' := rows + [row];
    }
  }

  /** The loop of `extract_and_save_frames` over the fixation list: for each
      fixation, in order and numbered from 0, the midpoint frame is read; a
      successful read writes the image and a metadata row, a failed one only
      a warning. */
  method WriteFrames(fs: seq<Record>, deviceOk: bool, readable: int -> bool, dir: string) returns (e: Extraction)
    ensures e == Extract(fs, deviceOk, readable, dir)
  {
    // The header is written before the loop; `lines` holds the rows after it.
    var lines: seq<seq<string>> := [];
    var saved: seq<string> := [];
    ghost var rows: seq<MetadataRow> := [];
    var idx := 0;
    while idx < |fs|
      invariant 0 <= idx <= |fs|
      invariant forall j :: 0 <= j < idx ==> HasKeys(fs[j], StartKey, EndKey)
      invariant rows == MetadataRows(fs[..idx], deviceOk, readable)
      invariant lines == RenderRows(rows) && saved == SavedPaths(dir, rows)
    {
      var fixation := fs[idx];
      if StartKey !in fixation || EndKey !in fixation {
        ExtractStopsAt(fs, idx, deviceOk, readable, dir);
        return Extraction(Fail(MissingKey(fixation, StartKey, EndKey)), [MetadataHeader] + lines, saved);
      }
      lines, saved, rows := WriteFixation(fs, idx, deviceOk, readable, dir, lines, saved, rows);
      idx := idx + 1;
    }
    ExtractStopsAt(fs, idx, deviceOk, readable, dir);
    e := Extraction(Pass, [MetadataHeader] + lines, saved);
  }

  /** A constructed extractor's fixation file always ends in `.csv`, so its
      loader always takes the CSV branch. */
  lemma DefaultFixationPathIsCsv(patientId: string, patientDir: string)
    ensures EndsWith(PathJoin(patientDir, patientId + "_fixations.csv"), ".csv")
  {
    var name := patientId + "_fixations.csv";
    assert EndsWith(name, ".csv") by {
      assert name[|name| - 4..] == ".csv";
    }
    EndsWithTransitive(PathJoin(patientDir, name), name, ".csv");
  }

  /** `FixationFrameExtractor`: the paths fixed by the constructor, the
      fixation list and the capture, both of which are set lazily. */
  class FixationFrameExtractor {
    const patientId: string
    const patientDir: string
    const videoPath: string
    const fixationPath: string
    const outputDir: string
    var fixationData: seq<Record>
    var videoCapture: Option<Capture>

    constructor (patientId: string, patientDir: string)
      ensures this.patientId == patientId && this.patientDir == patientDir
      ensures videoPath == PathJoin(patientDir, "world.mp4")
      ensures fixationPath == PathJoin(patientDir, patientId + "_fixations.csv")
      ensures EndsWith(fixationPath, ".csv")
      ensures outputDir == patientDir
      ensures fixationData == [] && videoCapture == None
    {
      this.patientId := patientId;
      this.patientDir := patientDir;
      videoPath := PathJoin(patientDir, "world.mp4");
      fixationPath := PathJoin(patientDir, patientId + "_fixations.csv");
      outputDir := patientDir;
      fixationData := [];
      videoCapture := None;
      DefaultFixationPathIsCsv(patientId, patientDir);
    }

    /** The directory the images and the metadata file go to. */
    function FramesDir(): string {
      PathJoin(outputDir, "extracted_frames")
    }

    /** `load_video`: a new capture on the video path is stored whether or not
        it opened; a capture that did not open raises `ValueError`. */
    method LoadVideo(opens: bool) returns (r: Outcome)
      modifies this`videoCapture
      ensures videoCapture == Some(Capture(videoPath, opens, false))
      ensures r == if opens then Pass else Fail(ValueError(VideoOpenError + videoPath))
    {
      videoCapture := Some(Capture(videoPath, opens, false));
      if !opens {
        return Fail(ValueError(VideoOpenError + videoPath));
      }
      r := Pass;
    }

    /** `load_fixation_data`, given what the CSV and the JSON reader would
        deliver for the fixation file. */
    method LoadFixationData(csvRows: seq<Record>, jsonItems: seq<Record>) returns (r: Outcome)
      modifies this`fixationData
      ensures LoadEffect(r, fixationData) == LoadFixations(fixationPath, old(fixationData), csvRows, jsonItems)
    {
      if EndsWith(fixationPath, ".csv") {
        fixationData := [];
        var i := 0;
        while i < |csvRows|
          invariant 0 <= i <= |csvRows|
          invariant forall j :: 0 <= j < i ==> HasKeys(csvRows[j], StartColumn, EndColumn)
          invariant fixationData == CsvRanges(csvRows[..i])
        {
          var row := csvRows[i];
          if StartColumn !in row || EndColumn !in row {
            assert FirstLacking(csvRows, StartColumn, EndColumn) == i;
            return Fail(MissingKey(row, StartColumn, EndColumn));
          }
          assert csvRows[..i + 1][..i] == csvRows[..i];
          fixationData := fixationData + [map[StartKey := row[StartColumn], EndKey := row[EndColumn]]];
          i := i + 1;
        }
        assert csvRows[..i] == csvRows;
        r := Pass;
      } else if EndsWith(fixationPath, ".json") {
        fixationData := jsonItems;
        r := Pass;
      } else {
        r := Fail(ValueError(UnsupportedFormat));
      }
    }

    /** `extract_and_save_frames`.  The video is loaded only when there is no
        capture yet and the fixations only when the list is empty; either
        load failing ends the call before the metadata file is opened
        (`metadata` is `None`).  Otherwise the call is the extraction loop
        over the fixation list. */
    method ExtractAndSaveFrames(opens: bool, csvRows: seq<Record>, jsonItems: seq<Record>, readable: int -> bool)
      returns (r: Outcome, metadata: Option<seq<seq<string>>>, saved: seq<string>)
      modifies this`videoCapture, this`fixationData
      ensures videoCapture == if old(videoCapture).None? then Some(Capture(videoPath, opens, false)) else old(videoCapture)
      ensures old(videoCapture).None? && !opens ==>
        r == Fail(ValueError(VideoOpenError + videoPath)) && metadata == None && saved == [] &&
        fixationData == old(fixationData)
      ensures !(old(videoCapture).None? && !opens) ==>
        fixationData == if old(fixationData) == [] then LoadFixations(fixationPath, [], csvRows, jsonItems).data
                        else old(fixationData)
      ensures !(old(videoCapture).None? && !opens) && old(fixationData) == [] &&
              LoadFixations(fixationPath, [], csvRows, jsonItems).outcome.Fail? ==>
        r == LoadFixations(fixationPath, [], csvRows, jsonItems).outcome && metadata == None && saved == []
      ensures metadata.None? <==>
        (old(videoCapture).None? && !opens) ||
        (old(fixationData) == [] && LoadFixations(fixationPath, [], csvRows, jsonItems).outcome.Fail?)
      ensures metadata.Some? ==>
        Extraction(r, metadata.value, saved) == Extract(fixationData, CanRead(videoCapture.value), readable, FramesDir())
    {
      if videoCapture.None? {
        var loaded := LoadVideo(opens);
        if loaded.Fail? {
          return loaded, None, [];
        }
      }
      if fixationData == [] {
        var loaded := LoadFixationData(csvRows, jsonItems);
        if loaded.Fail? {
          return loaded, None, [];
        }
      }
      var e := WriteFrames(fixationData, CanRead(videoCapture.value), readable, FramesDir());
      r, metadata, saved := e.outcome, Some(e.metadata), e.saved;
    }

    /** `release`: a capture, if there is one, is released; with none this
        does nothing.  Releasing again changes nothing further. */
    method Release()
      modifies this`videoCapture
      ensures videoCapture == if old(videoCapture).Some? then Some(old(videoCapture).value.(released := true)) else None
    {
      if videoCapture.Some? {
        videoCapture := Some(videoCapture.value.(released := true));
      }
    }
  }
}
