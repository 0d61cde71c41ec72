# Fixation frames and prediction tables, modelled in Dafny

This project models the data-preparation core of a gaze-tracking pipeline.
Fixations exported by Pupil Labs are turned into still frames of the
scene video, and the per-frame YOLO detections are read back into tables.

The model covers four source files:

- `utils/video_utils.py` (module `VideoUtils`). It covers the
  `FixationFrameExtractor` class: its paths, the lazy loading of the
  capture and the fixation list, the representative-frame policy
  `select_frames`, the extraction loop that writes one image and one
  metadata row per fixation whose midpoint frame can be read, and `release`.
- `utils/data_utils.py` (module `DataUtils`). It covers the class-code table
  `class_ball_dict` and the `DataExtraction` class. That class finds a
  fixation's prediction file by prefix, parses the file line by line into a
  table of detections, and projects the exported fixation table onto its
  seven analysis columns.
- `scripts/extract_frames.py` and `scripts/extract_prediction_data.py`
  (modules `ExtractFrames` and `ExtractPredictionData`). Each holds a copy of
  `clean_path`; the model proves the two copies equal.
- Shared pieces: module `Strings` models the Python string and path
  operations the code relies on, and module `Wrappers` holds the `Option`
  and `Result` types and the exceptions the code raises.

Python exceptions are values: a method or function returns `Err(e)` or
`Fail(e)` where the source raises `e`.

Everything outside the program becomes a parameter:

- `opens` says whether OpenCV opens the video.
- `readable(frame)` says whether OpenCV can decode a frame.
- `csvRows` and `jsonItems` are what the CSV and JSON readers deliver.
- `listing` is the contents of the predictions directory.
- `readLines(path)` gives a file's lines.
- `parseInt` and `parseFloat` stand for Python's `int(…)` and `float(…)`.

Images are recorded by the paths they are written to. The metadata CSV is
recorded as the rows handed to `csv.writer`.

Where the code's behaviour is surprising, the model follows the code, and a
lemma states the behaviour:

- `select_frames` places a 20-frame range's quarter points at 5 and 15, so
  `SelectFrames(0, 19) == [0, 5, 9, 15, 19]`.
- A range of three frames or fewer is sampled at its upper midpoint. The
  extraction loop reads the lower midpoint `(start + end) // 2`, so for a
  two-frame range the two disagree (`TwoFrameRangeDisagrees`,
  `MidpointAmongSelected`).
- `clean_path` strips double quotes before single quotes, so it is not
  idempotent: `'"a"'` cleans to `"a"` (`CleanPathMixedQuotes`).
- A string made only of quotes does not always clean to nothing: `'"'`
  keeps its double quote (`CleanPathKeepsInnerQuote`). `CleanPathEmpty`
  states exactly which inputs clean to the empty string.
- The prediction file is matched by prefix only, so `fix1` can pick
  `fix10.txt` (`PrefixMatchTakesLongerId`).
- A capture that failed to open stays stored, so a later call to
  `extract_and_save_frames` does not reload it, and every read fails.

## Model

| member | source | states |
|---|---|---|
| VideoUtils.SelectFrames | utils/video_utils.py:44-59 | a range of at most 3 frames gives one frame, at its upper midpoint; 4 to 9 frames give start, lower midpoint and end; longer ranges add the quarter points `start + n//4` and `start + 3n//4` |
| VideoUtils.SelectFramesOrdered | utils/video_utils.py:44-59 | for `start <= end` every selected frame lies in the range and the frames strictly increase, so none is chosen twice |
| VideoUtils.SelectFramesShift | utils/video_utils.py:46-59 | the policy depends only on the range's length: shifting the range by `d` shifts every selected frame by `d` |
| VideoUtils.SelectFramesExamples | utils/video_utils.py:44-59 | the frames chosen for 1-, 9- and 20-frame ranges, including `[0, 5, 9, 15, 19]` for `0..19` |
| VideoUtils.MidpointAmongSelected | utils/video_utils.py:44-88 | the frame the extraction loop reads is among the selected frames exactly when the range has more than 3 frames or an odd number of them |
| VideoUtils.TwoFrameRangeDisagrees | utils/video_utils.py:48-49 | for a two-frame range the selector picks the end frame and the extraction loop reads the start frame |
| VideoUtils.FirstLacking | utils/video_utils.py:34-37 | the position of the first row lacking a key: every earlier row has both keys, and that row lacks one |
| VideoUtils.FirstLackingIs | utils/video_utils.py:34-37 | any position meeting that description is the first lacking row |
| VideoUtils.CsvRanges | utils/video_utils.py:34-37 | one `{"start", "end"}` record per CSV row, in file order, holding that row's two frame indices |
| VideoUtils.LoadFixations | utils/video_utils.py:28-42 | a `.csv` path gives the initial run of rows that have both columns, and succeeds exactly when every row has them; otherwise it raises the `KeyError` for the first row lacking a column. A `.json` path replaces the list. Any other path raises `ValueError` with the source's message and keeps the list |
| VideoUtils.FrameFileNameInjective | utils/video_utils.py:95 | distinct fixation numbers give distinct `fix{idx}.png` names |
| VideoUtils.MetadataRows | utils/video_utils.py:83-101 | there are never more metadata rows than fixations |
| VideoUtils.MetadataRowsSound | utils/video_utils.py:83-99 | every row is a fixation of the list whose midpoint frame was read: its number, its midpoint frame and `fix{idx}.png`; rows come in increasing fixation order |
| VideoUtils.MetadataRowsComplete | utils/video_utils.py:90-101 | fixation `k` has a row exactly when the capture is usable and its midpoint frame can be read; a failed read only skips that fixation |
| VideoUtils.MetadataRowsAllRead | utils/video_utils.py:83-99 | when every read succeeds there is one row per fixation, row `j` for fixation `j` |
| VideoUtils.MetadataFilenamesDistinct | utils/video_utils.py:95-99 | no two metadata rows name the same image, so no image overwrites another |
| VideoUtils.RenderRows | utils/video_utils.py:99 | one CSV line per metadata row |
| VideoUtils.RenderRowsAt | utils/video_utils.py:99 | line `j` is `[idx, frame_idx, filename]` of row `j`, with the numbers written in decimal |
| VideoUtils.SavedPaths | utils/video_utils.py:95-97 | one image path per metadata row |
| VideoUtils.SavedPathsAt | utils/video_utils.py:95-97 | image `j` is written to row `j`'s file name inside the frames directory |
| VideoUtils.Extract | utils/video_utils.py:78-101 | the metadata starts with the header; the loop ends without error exactly when every fixation has `"start"` and `"end"` |
| VideoUtils.ExtractStopsAt | utils/video_utils.py:83-87 | the loop stops at the first fixation lacking a key, with the `KeyError` for that key, and keeps the rows and images written before it |
| VideoUtils.WriteFixation | utils/video_utils.py:84-101 | one pass of the loop body over a fixation that has both keys extends the rows, lines and images to those of the list up to and including it |
| VideoUtils.WriteFrames | utils/video_utils.py:78-101 | the loop leaves exactly the outcome, metadata lines and images that `Extract` describes |
| VideoUtils.DefaultFixationPathIsCsv | utils/video_utils.py:17 | the fixation path the constructor sets always ends in `.csv` |
| VideoUtils.FixationFrameExtractor.constructor | utils/video_utils.py:8-20 | the video path is `<dir>/world.mp4`, the fixation path `<dir>/<id>_fixations.csv`, the output directory is the patient directory, and there is no fixation list and no capture yet |
| VideoUtils.FixationFrameExtractor.LoadVideo | utils/video_utils.py:22-26 | a new capture on the video path is stored whether or not it opened; a capture that did not open raises `ValueError` naming the path |
| VideoUtils.FixationFrameExtractor.LoadFixationData | utils/video_utils.py:28-42 | the outcome and the new fixation list are those `LoadFixations` gives for the old list |
| VideoUtils.FixationFrameExtractor.ExtractAndSaveFrames | utils/video_utils.py:61-103 | the video is loaded only when no capture exists, and the fixations only when the list is empty. A load that fails ends the call before the metadata file is written. Otherwise the result is `Extract` over the fixation list, with reads possible only on an open, unreleased capture |
| VideoUtils.FixationFrameExtractor.Release | utils/video_utils.py:105-108 | a stored capture is marked released; with no capture nothing changes |
| DataUtils.ClassLabelDecodesLow | utils/data_utils.py:6-9 | codes 1 to 17 are recovered from their labels |
| DataUtils.ClassLabelDecodesMiddle | utils/data_utils.py:9-12 | codes 18 to 34 are recovered from their labels |
| DataUtils.ClassLabelDecodesHigh | utils/data_utils.py:12-15 | codes 35 to 51 are recovered from their labels |
| DataUtils.ClassLabelDecodes | utils/data_utils.py:5-15 | every code 1 to 51 is recovered from its label |
| DataUtils.ClassBallKeys | utils/data_utils.py:5-15 | the table's keys are exactly 1 to 51; 50 is `ball_unknown` and 51 `user_cursor` |
| DataUtils.ClassBallDistinct | utils/data_utils.py:5-15 | no two class codes share a label |
| DataUtils.FirstWithPrefix | utils/data_utils.py:34-38 | the first name in listing order that starts with the id; no earlier name does; none is found exactly when no name starts with the id |
| DataUtils.PrefixMatchTakesLongerId | utils/data_utils.py:35-38 | asked for `fix1`, a listing showing `fix10.txt` before `fix1.txt` yields `fix10.txt` |
| DataUtils.ParseFloats | utils/data_utils.py:66-69 | the four coordinates convert exactly when the tokens exist and each converts, giving their values in order; a short line of convertible tokens raises `IndexError` |
| DataUtils.ParseTokens | utils/data_utils.py:64-77 | a line gives a row exactly when it has five tokens, the class code and the coordinates convert, and the code is in the table. The row holds the code's label, the code, the centre `(x, y)` and the area `width * height`. An unknown code raises `KeyError` for that code; a short line raises `IndexError` |
| DataUtils.ParseFloatsIgnoresExtra | utils/data_utils.py:66-69 | tokens after the fifth do not affect the coordinates |
| DataUtils.ParseTokensIgnoresExtra | utils/data_utils.py:64-69 | tokens after the fifth do not affect the row |
| DataUtils.StripJoinedLine | utils/data_utils.py:64 | `strip()` removes a line's trailing newline and nothing else when the line is words joined by single spaces |
| DataUtils.ParseLineOfTokens | utils/data_utils.py:64-69 | a line written as its tokens separated by spaces and ended by a newline parses as those tokens |
| DataUtils.ParseAllOk | utils/data_utils.py:62-79 | the lines parse as a whole exactly when each one does, and row `i` is line `i`'s row |
| DataUtils.ParseAllErrSticks | utils/data_utils.py:62-79 | once a prefix of the lines fails, later lines change nothing |
| DataUtils.ParseAllFirstError | utils/data_utils.py:62-79 | the error raised is that of the first failing line |
| DataUtils.ParseLines | utils/data_utils.py:62-79 | the line loop, run over the lines in order, gives what `ParseAll` describes |
| DataUtils.IndexOf | utils/data_utils.py:101 | the position of the first column with a given label |
| DataUtils.Missing | utils/data_utils.py:101 | exactly the selected labels that are not columns |
| DataUtils.Project | utils/data_utils.py:101 | the projection has the selected labels as its columns, the same number of rows, and one cell per column in each row |
| DataUtils.ProjectKeepsColumns | utils/data_utils.py:101 | each selected column keeps its values, row by row |
| DataUtils.ProjectIdempotent | utils/data_utils.py:101 | selecting the same columns again changes nothing |
| DataUtils.Select | utils/data_utils.py:101 | `df[sel]` succeeds exactly when every label is a column, giving the projection; otherwise it raises `KeyError` naming the missing labels |
| DataUtils.ExtractFixationsData | utils/data_utils.py:83-102 | the frame has exactly the seven analysis columns, in the source's order, and every row of the input; a file lacking one of them raises `KeyError` naming those missing |
| DataUtils.ExtractFixationsDataKeeps | utils/data_utils.py:98-102 | each of the seven columns keeps its values in row order, and extracting again returns the same frame |
| DataUtils.DataExtraction.constructor | utils/data_utils.py:18-26 | the predictions directory is `<dir>/predictions` and the fixation file `<dir>/<id>_fixations.csv` |
| DataUtils.DataExtraction.FindFile | utils/data_utils.py:28-43 | the path of the first listed file starting with the id, or `FileNotFoundError` with the source's message when there is none |
| DataUtils.DataExtraction.ExtractFramePredictions | utils/data_utils.py:45-81 | a missing file raises `FileNotFoundError`; otherwise the result is the four-column table of the file's rows, line by line, or the first failing line's error |
| ExtractFrames.CleanPath | scripts/extract_frames.py:4-6 | the cleaned path never starts or ends with a single quote |
| ExtractFrames.CleanPathIsInfix | scripts/extract_frames.py:4-6 | the cleaned path is a contiguous piece of the input |
| ExtractFrames.CleanPathUnchanged | scripts/extract_frames.py:4-6 | a path with no surrounding whitespace or quotes comes back unchanged |
| ExtractFrames.StripSpaceAroundQuotes | scripts/extract_frames.py:6 | `strip()` removes only the whitespace around a double-quoted string |
| ExtractFrames.StripDoubleQuotePair | scripts/extract_frames.py:6 | `strip('"')` removes exactly one pair of double quotes from around a bare path |
| ExtractFrames.CleanPathUnwrapsQuotes | scripts/extract_frames.py:4-6 | a bare path in double quotes, with whitespace around them, cleans to the bare path |
| ExtractFrames.CleanPathOfSpace | scripts/extract_frames.py:4-6 | whitespace alone cleans to the empty path |
| ExtractFrames.CleanPathEmpty | scripts/extract_frames.py:4-6 | a path cleans to nothing exactly when what is left after the first two strips is single quotes only |
| ExtractFrames.CleanPathKeepsInnerQuote | scripts/extract_frames.py:4-6 | `'"'` cleans to `"`, because double quotes are stripped before single quotes |
| ExtractFrames.StripSingleQuotePair | scripts/extract_frames.py:6 | `strip("'")` removes exactly one pair of single quotes from around a double-quoted string |
| ExtractFrames.CleanPathSingleQuoted | scripts/extract_frames.py:4-6 | a double-quoted string inside single quotes cleans to the double-quoted string |
| ExtractFrames.CleanPathMixedQuotes | scripts/extract_frames.py:4-6 | cleaning is not idempotent: `'"p"'` cleans to `"p"`, which cleans to `p` |
| ExtractPredictionData.CleanPath | scripts/extract_prediction_data.py:3-5 | the cleaned path never starts or ends with a single quote |
| ExtractPredictionData.CleanPathMatchesExtractFrames | scripts/extract_prediction_data.py:3-5 | this copy of `clean_path` agrees with the frame-extraction script's on every input |
| ExtractPredictionData.CleanPathIsInfix | scripts/extract_prediction_data.py:3-5 | the cleaned path is a contiguous piece of the input |
| ExtractPredictionData.CleanPathUnwrapsQuotes | scripts/extract_prediction_data.py:3-5 | a bare path in double quotes cleans to the bare path |
| Strings.StripLeft | scripts/extract_frames.py:6 | `lstrip` removes a prefix made only of stripped characters, and what is left does not start with one |
| Strings.StripRight | scripts/extract_frames.py:6 | `rstrip` removes a suffix made only of stripped characters, and what is left does not end with one |
| Strings.Strip | utils/data_utils.py:64 | the result neither starts nor ends with a stripped character |
| Strings.StripIsInfix | utils/data_utils.py:64 | what `strip` leaves is a contiguous piece of its input |
| Strings.StripEmpty | scripts/extract_frames.py:6 | `strip` gives the empty string exactly when every character is stripped |
| Strings.StripUnchanged | scripts/extract_frames.py:6 | a string whose ends are not stripped is returned unchanged |
| Strings.StripLeftSkips | scripts/extract_frames.py:6 | leading stripped characters make no difference to `lstrip` |
| Strings.StripRightSkips | scripts/extract_frames.py:6 | trailing stripped characters make no difference to `rstrip` |
| Strings.PathJoin | utils/video_utils.py:16 | `os.path.join(a, b)` ends with `b`, and starts with `a` unless `b` is absolute |
| Strings.NatToDecimal | utils/video_utils.py:95 | `str(n)` is a non-empty string of digits, with a leading zero only for 0 |
| Strings.IntToDecimal | utils/video_utils.py:99 | `str(i)` is `str` of the magnitude, with a minus sign for a negative `i` |
| Strings.DecimalRoundTrip | utils/video_utils.py:95 | reading back `str(n)` gives `n` |
| Strings.DecimalInjective | utils/video_utils.py:95 | distinct numbers have distinct decimal strings |
| Strings.Word | utils/data_utils.py:64 | the longest whitespace-free prefix |
| Strings.SplitWords | utils/data_utils.py:64 | the words `split()` returns are non-empty and contain no whitespace |
| Strings.SplitJoinWords | utils/data_utils.py:64 | non-empty, whitespace-free words joined by single spaces split back into the same words |

## Left out

- OpenCV is not modelled: opening the video, seeking and decoding frames, and writing images. Whether the video opens is a parameter. Whether a frame decodes is the oracle `readable`. An image is recorded by its path, and its pixels are not modelled.
- `cv2.imwrite` reporting failure is not modelled. The source ignores its result, so a row is written either way.
- Files and directories are not modelled: `os.makedirs`, `os.listdir`, opening files, and `csv.writer`'s quoting. A directory listing is a sequence of names. A file's lines are given by `readLines`. The metadata file is the sequence of rows handed to the writer.
- `print` messages (the read-failure warning and the final summary) are left out because they are output only.
- The scripts' prompting helpers (`get_valid_directory`, `main`) are left out because they are interactive I/O.
- VideoUtils.FixationFrameExtractor.LoadFixationData: the CSV reader's rows arrive as records of integers. The `ValueError` that `int(…)` raises on a non-numeric cell is not modelled.
- VideoUtils.FixationFrameExtractor.LoadFixationData: the JSON file's contents arrive as a list of integer-valued records. Other JSON values that `json.load` could return are not modelled.
- VideoUtils.FixationFrameExtractor.ExtractAndSaveFrames: the test `if not self.video_capture` is modelled as "no capture stored". A stored capture object is always truthy.
- The inner loop of the extraction over the one-element list `[middle_frame]` is modelled as a single read of that frame.
- Python's `int(…)` and `float(…)` on prediction tokens are the parameters `parseInt` and `parseFloat`. Floating-point arithmetic is modelled with real numbers, so the area `width * height` is exact.
- DataUtils.DataExtraction.ExtractFramePredictions: the table is modelled as a sequence of rows. Pandas' column dtypes and index are not modelled. Rebuilding the frame with `pd.concat` at each line only appends a row.
- DataUtils.ExtractFixationsData: the table that `pd.read_csv` builds is a parameter. A missing or malformed file is not modelled.
- DataUtils.ExtractFixationsData: the text of pandas' `KeyError` message is not modelled. The error carries the list of missing labels instead.
- Strings.IsSpace: `str.isspace` is modelled on a fixed list of whitespace characters taken from the Unicode tables. The model does not follow a Python version's Unicode database.
- The event log, clock synchronisation and scoring of the wider system do not appear in these files and are not part of this model.
