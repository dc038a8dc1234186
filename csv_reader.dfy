/** The tabular reader: an export file, once tokenised into rows of text
    fields, loses its instrument-metadata preamble of seven rows. */
module CsvReader {

  /** One tokenised line of the export file: its comma-separated fields. */
  type Row = seq<string>

  /** Number of preamble rows the reader drops. */
  const HeaderRows: nat := 7

  /** The rows after the preamble, as `data[7:]` gives them: empty when the
      file has no more than seven rows, otherwise the last |data| - 7 rows
      in file order. */
  function ReadCsvValues(data: seq<Row>): (r: seq<Row>)
    ensures |data| <= HeaderRows ==> r == []
    ensures |data| > HeaderRows ==> |r| == |data| - HeaderRows
    ensures forall i :: 0 <= i < |r| ==> r[i] == data[HeaderRows + i]
  {
    if |data| <= HeaderRows then [] else data[HeaderRows..]
  }

  /** The preamble followed by what the reader returns is the whole file:
      nothing is dropped beyond the first seven rows and nothing is reordered. */
  lemma PreambleAndBody(data: seq<Row>)
    ensures |data| >= HeaderRows ==> data[..HeaderRows] + ReadCsvValues(data) == data
    ensures |data| < HeaderRows ==> ReadCsvValues(data) == []
  {
  }
}
