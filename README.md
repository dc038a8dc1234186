# GENESYS30 graph generator — Dafny model

The graph generator turns spectrophotometer export files (comma-separated
wavelength/absorbance readings) into one scatter-chart image per file. For
each `.csv` file in a directory it drops the seven-row instrument preamble,
finds the row of peak absorbance, and saves a chart under
`<dir>/images/<title>.png`.

This project models the data-selection logic of `graph_generator.py`:

- `CsvReader` (`csv_reader.dfy`): `read_csv_values` after tokenising. This is
  the slice `data[7:]` over rows of text fields.
- `PeakFinder` (`peak_finder.dfy`): `get_max_absorption_and_wavelength`.
  `GetMaxAbsorptionAndWavelength` is the loop itself. Its two variables mirror
  `max_value` and `max_value_row`, and `None` stands for the `float('-inf')`
  sentinel. The method is proved equal to the specification function `Peak`.
  `Peak` is built on `Scan`, the state of the loop after a prefix of the rows.
  Lemmas tie `Scan` and `Peak` to declarative predicates:
  - `IsPeakIndex`: the row is maximal, and it is the earliest on ties.
  - `FirstUnparsable`: the first qualifying row whose field will not parse.
  - `NoQualifyingRow`: no row has two fields.
  The number parser (`float`) is a parameter `parse: string -> Option<real>`.
  A `None` from it is the `ValueError` that ends the call. It becomes
  `Failure(ParseError(text))`, and `text` is the offending field.
- `FileSelection` (`file_selection.dfy`): the pure expressions of `main`. These
  are the list of `.csv` candidates built from a given directory listing, the
  reported file count, and the image path for a title.
- `Wrappers` (`wrappers.dfy`): `Option` and `Result`.

## Model

| member | source | states |
|---|---|---|
| CsvReader.ReadCsvValues | graph_generator.py:22-26 | no rows when the file has at most 7 rows; otherwise exactly N − 7 rows, row i being input row 7 + i (original order) |
| CsvReader.PreambleAndBody | graph_generator.py:26 | the first 7 rows followed by the result give back the whole input; a file shorter than 7 rows yields nothing |
| PeakFinder.Scan | graph_generator.py:30-37 | a row held as the running maximum is an element of the input and has at least 2 fields |
| PeakFinder.GetMaxAbsorptionAndWavelength | graph_generator.py:29-39 | the single-pass loop (strict `>`, short rows skipped, return on the first parse failure) computes exactly `Peak(data, parse)` |
| PeakFinder.ScanFailureSticks | graph_generator.py:34 | once a prefix has failed to parse, the whole call fails with that same error |
| PeakFinder.ScanFails | graph_generator.py:32-34 | the scan fails exactly when some row with ≥ 2 fields has an unparsable field 1, and the error carries the text of the first such row |
| PeakFinder.ScanFindsNothing | graph_generator.py:31-33 | the scan ends with no row exactly when no row has at least 2 fields |
| PeakFinder.ScanFindsPeak | graph_generator.py:32-37 | a row found by the scan sits at an index whose value is ≥ every qualifying row's value and > every earlier qualifying row's value (earliest on ties) |
| PeakFinder.PeakIndexUnique | graph_generator.py:35 | because the comparison is strict, at most one index is the earliest maximum |
| PeakFinder.PeakCorrect | graph_generator.py:29-39 | the finder fails iff a qualifying field 1 does not parse (first failing text reported); returns None iff no row has ≥ 2 fields; otherwise returns a row at a peak index, and the row at the peak index is what it returns |
| PeakFinder.QualifyingRows | graph_generator.py:33 | a row is in the result exactly when it is in the input and has at least 2 fields, and the result is no longer than the input |
| PeakFinder.QualifyingRowsAppend | graph_generator.py:33 | the filter keeps order and multiplicity: filtering `a + b` gives the filtered `a` followed by the filtered `b` |
| PeakFinder.QualifyingRowsSingle | graph_generator.py:33 | one row is kept if it has at least 2 fields and dropped otherwise |
| PeakFinder.ShortRowsIgnored | graph_generator.py:33 | removing every row with fewer than 2 fields leaves the scan state and the finder's result unchanged |
| PeakFinder.SpectrumExample | graph_generator.py:29-39 | on rows (400, 0.1), (450, 0.9), (500, 0.3) the finder returns the row (450, 0.9) |
| FileSelection.CandidateFiles | graph_generator.py:44 | every listed name ending in ".csv" gives `dir + "/" + name` in the list, every list entry is such a path, and the list is no longer than the listing |
| FileSelection.CandidateFilesAppend | graph_generator.py:44 | listing order is kept: the candidates of `a + b` are those of `a` followed by those of `b` |
| FileSelection.CandidateFilesSingle | graph_generator.py:44 | one entry contributes `dir + "/" + name` if its name ends in ".csv" and nothing otherwise |
| FileSelection.CsvCountMatches | graph_generator.py:44-50 | the length of the candidate list equals the number of listing positions whose name ends in ".csv" |
| FileSelection.NumFiles | graph_generator.py:50 | the reported count equals the number of ".csv" entries in the listing (zero when there are none) |
| FileSelection.ImagePath | graph_generator.py:76 | the chart is saved as `<dir>/images/<title>` followed by ".png" |
| FileSelection.ImagePathRoundTrip | graph_generator.py:76 | the title can be read back from the saved path; any path of `dir` that reads back as a title is that title's image path |
| FileSelection.DistinctTitlesDistinctImages | graph_generator.py:76 | two different titles give two different path strings |

## Left out

- Console I/O (`input`, `print`, lines 42, 52, 58-59) is not modelled. The directory path and titles are parameters.
- Filesystem calls (`open`, `os.listdir`, `os.path.exists`, `os.mkdir`, lines 23, 44, 47-48) are I/O. The directory listing is a given `seq<string>`. Only the name of the output directory is modelled, as `ImagesDir`. Whether `mkdir` is idempotent is not.
- CSV tokenising by `csv.reader` (lines 24-25) is library code. The model starts from rows that are already split into fields.
- Floating-point behaviour of `float()` and `float('-inf')` is not modelled. This covers NaN comparisons, a field reading "-inf" never being chosen, and rounding. The parse is an abstract partial function into `real`, and the sentinel is `None`.
- Plotting (lines 69-77) uses a foreign rendering library. That includes the chart title at line 75, whose text depends on how Python prints floats.
- The second parse of every row for plotting (lines 61-62) is only plot input. So is its failure on rows shorter than 2 fields.
- The driver's crash when a file has no qualifying row (`max_absorption[1]` on `None`, line 58) lives in console output. The model stops at the finder's `None` result.
- File identity on the host is not modelled. Paths are compared as strings, so a case-insensitive volume ("Trial 1" and "trial 1"), a ".." component or a separator inside a title can make two different path strings name the same file, and the later chart then overwrites the earlier.
- The commented-out linear regression (lines 64-66, 71) is dead code.
