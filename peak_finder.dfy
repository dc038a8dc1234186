/** The peak finder: one pass over the measurement rows that keeps the row
    whose second field (the absorbance) parses to the largest number. The
    number parser is a parameter: a partial map from text to a real, so the
    model speaks of an ordered numeric type and not of IEEE floats. */
module PeakFinder {
  import opened Wrappers
  import opened CsvReader

  /** The parser refused a field; it carries the offending text, as the
      parser's error message does. */
  datatype ParseError = ParseError(text: string)

  /** The running maximum of the scan and the row that owns it. */
  datatype Best = Best(absorbance: real, row: Row)

  /** A row takes part in the search only when it has at least two fields. */
  predicate Qualifies(row: Row)
  {
    |row| >= 2
  }

  /** The absorbance field of a qualifying row, parsed. */
  function Absorbance(row: Row, parse: string -> Option<real>): Option<real>
    requires Qualifies(row)
  {
    parse(row[1])
  }

  /** The state of the scan after the rows of `data`, first to last: the
      first parse failure, or the best row so far (None before any
      qualifying row). A value replaces the running maximum only when it is
      strictly greater. */
  function Scan(data: seq<Row>, parse: string -> Option<real>): (r: Result<Option<Best>, ParseError>)
    ensures r.Success? && r.value.Some? ==> r.value.value.row in data && Qualifies(r.value.value.row)
    decreases |data|
  {
    if data == [] then Success(None)
    else
      var n := |data| - 1;
      var row := data[n];
      match Scan(data[..n], parse)
      case Failure(e) => Failure(e)
      case Success(best) =>
        if !Qualifies(row) then Success(best)
        else match parse(row[1])
          case None => Failure(ParseError(row[1]))
          case Some(v) =>
            if best.None? || v > best.value.absorbance then Success(Some(Best(v, row)))
            else Success(best)
  }

  /** What the finder returns: the row of the running maximum, no row at
      all, or the parse failure. */
  function Peak(data: seq<Row>, parse: string -> Option<real>): Result<Option<Row>, ParseError>
  {
    match Scan(data, parse)
    case Failure(e) => Failure(e)
    case Success(None) => Success(None)
    case Success(Some(b)) => Success(Some(b.row))
  }

  /** The linear pass itself. `maxValue == None` stands for the initial
      sentinel of minus infinity, `maxValueRow == None` for "no row yet". */
  method GetMaxAbsorptionAndWavelength(data: seq<Row>, parse: string -> Option<real>)
    returns (r: Result<Option<Row>, ParseError>)
    ensures r == Peak(data, parse)
  {
    var maxValue: Option<real> := None;
    var maxValueRow: Option<Row> := None;
    for i := 0 to |data|
      invariant maxValue.None? <==> maxValueRow.None?
      invariant Scan(data[..i], parse) ==
        Success(if maxValue.None? then None else Some(Best(maxValue.value, maxValueRow.value)))
    {
      var row := data[i];
      assert data[..i + 1][..i] == data[..i];
      if |row| >= 2 {
        var column2Data := parse(row[1]);
        if column2Data.None? {
          ScanFailureSticks(data, parse, i + 1);
          return Failure(ParseError(row[1]));
        }
        if maxValue.None? || column2Data.value > maxValue.value {
          maxValue := column2Data;
          maxValueRow := Some(row);
        }
      }
    }
    assert data[..|data|] == data;
    r := Success(maxValueRow);
  }

  /** Once the scan of a prefix has failed, the scan of the whole input
      fails with the same error: a parse failure ends the call. */
  lemma {:induction false} ScanFailureSticks(data: seq<Row>, parse: string -> Option<real>, k: nat)
    requires k <= |data|
    requires Scan(data[..k], parse).Failure?
    ensures Scan(data, parse) == Scan(data[..k], parse)
    decreases |data| - k
  {
    if k == |data| {
      assert data[..k] == data;
    } else {
      var next := data[..k + 1];
      assert next[..k] == data[..k];
      assert Scan(next, parse) == Scan(data[..k], parse);
      assert data[..k + 1][..k + 1] == next;
      ScanFailureSticks(data, parse, k + 1);
    }
  }

  /** Every qualifying row's absorbance parses. */
  ghost predicate AllParse(data: seq<Row>, parse: string -> Option<real>)
  {
    forall j :: 0 <= j < |data| && Qualifies(data[j]) ==> Absorbance(data[j], parse).Some?
  }

  /** Row `k` is the first qualifying row whose absorbance does not parse. */
  ghost predicate FirstUnparsable(data: seq<Row>, parse: string -> Option<real>, k: int)
  {
    0 <= k < |data| && Qualifies(data[k]) && Absorbance(data[k], parse).None? &&
    AllParse(data[..k], parse)
  }

  /** No row has two fields. */
  ghost predicate NoQualifyingRow(data: seq<Row>)
  {
    forall j :: 0 <= j < |data| ==> !Qualifies(data[j])
  }

  /** Row `k` is the peak: it qualifies, its absorbance is at least that of
      every qualifying row, and strictly above that of every qualifying row
      before it (the earliest of equal maxima). */
  ghost predicate IsPeakIndex(data: seq<Row>, parse: string -> Option<real>, k: int)
  {
    0 <= k < |data| && Qualifies(data[k]) && Absorbance(data[k], parse).Some? &&
    (forall j :: 0 <= j < |data| && Qualifies(data[j]) ==>
      Absorbance(data[j], parse).Some? && Absorbance(data[j], parse).value <= Absorbance(data[k], parse).value) &&
    (forall j :: 0 <= j < k && Qualifies(data[j]) ==>
      Absorbance(data[j], parse).value < Absorbance(data[k], parse).value)
  }

  /** The scan fails exactly when some qualifying row does not parse, and
      then with the text of the first such row. */
  lemma {:induction false} ScanFails(data: seq<Row>, parse: string -> Option<real>)
    ensures Scan(data, parse).Failure? <==> !AllParse(data, parse)
    ensures Scan(data, parse).Failure? ==>
      exists k :: FirstUnparsable(data, parse, k) && Scan(data, parse).error == ParseError(data[k][1])
    decreases |data|
  {
    if data != [] {
      var n := |data| - 1;
      var d, x := data[..n], data[n];
      ScanFails(d, parse);
      assert forall j :: 0 <= j < n ==> data[j] == d[j];
      if Scan(d, parse).Failure? {
        var k :| FirstUnparsable(d, parse, k) && Scan(d, parse).error == ParseError(d[k][1]);
        assert data[..k] == d[..k];
        assert FirstUnparsable(data, parse, k);
      } else if Qualifies(x) && Absorbance(x, parse).None? {
        assert data[..n] == d;
        assert FirstUnparsable(data, parse, n);
      }
    }
  }

  /** The scan ends with no row exactly when no row has two fields. */
  lemma {:induction false} ScanFindsNothing(data: seq<Row>, parse: string -> Option<real>)
    ensures Scan(data, parse) == Success(None) <==> NoQualifyingRow(data)
    decreases |data|
  {
    if data != [] {
      var n := |data| - 1;
      var d, x := data[..n], data[n];
      ScanFindsNothing(d, parse);
      assert forall j :: 0 <= j < n ==> data[j] == d[j];
      if Scan(d, parse).Failure? {
        ScanFails(d, parse);
        var k :| FirstUnparsable(d, parse, k);
        assert Qualifies(data[k]);
      }
    }
  }

  /** A row found by the scan sits at the peak index of the input. */
  lemma {:induction false} ScanFindsPeak(data: seq<Row>, parse: string -> Option<real>)
    ensures Scan(data, parse).Success? && Scan(data, parse).value.Some? ==>
      var b := Scan(data, parse).value.value;
      exists k :: IsPeakIndex(data, parse, k) && data[k] == b.row && Absorbance(data[k], parse) == Some(b.absorbance)
    decreases |data|
  {
    if data != [] && Scan(data, parse).Success? {
      var n := |data| - 1;
      var d, x := data[..n], data[n];
      ScanFindsPeak(d, parse);
      assert forall j :: 0 <= j < n ==> data[j] == d[j];
      var best := Scan(d, parse).value;
      if best.Some? {
        var k0 :| IsPeakIndex(d, parse, k0) && d[k0] == best.value.row && Absorbance(d[k0], parse) == Some(best.value.absorbance);
        if Qualifies(x) && Absorbance(x, parse).value > best.value.absorbance {
          assert IsPeakIndex(data, parse, n);
        } else {
          assert IsPeakIndex(data, parse, k0);
        }
      } else if Qualifies(x) {
        ScanFindsNothing(d, parse);
        assert IsPeakIndex(data, parse, n);
      }
    }
  }

  /** There is at most one peak index. */
  lemma PeakIndexUnique(data: seq<Row>, parse: string -> Option<real>, k1: int, k2: int)
    requires IsPeakIndex(data, parse, k1) && IsPeakIndex(data, parse, k2)
    ensures k1 == k2
  {
  }

  /** What the finder promises: it fails exactly when a qualifying row's
      absorbance does not parse (with the text of the first such row); it
      returns no row exactly when no row has two fields; otherwise it returns
      the row at the peak index, the earliest row of greatest absorbance. */
  lemma PeakCorrect(data: seq<Row>, parse: string -> Option<real>)
    ensures Peak(data, parse).Failure? <==> !AllParse(data, parse)
    ensures Peak(data, parse).Failure? ==>
      exists k :: FirstUnparsable(data, parse, k) && Peak(data, parse).error == ParseError(data[k][1])
    ensures Peak(data, parse) == Success(None) <==> NoQualifyingRow(data)
    ensures Peak(data, parse).Success? && Peak(data, parse).value.Some? ==>
      exists k :: IsPeakIndex(data, parse, k) && data[k] == Peak(data, parse).value.value
    ensures forall k :: IsPeakIndex(data, parse, k) ==> Peak(data, parse) == Success(Some(data[k]))
  {
    ScanFails(data, parse);
    ScanFindsNothing(data, parse);
    ScanFindsPeak(data, parse);
    forall k | IsPeakIndex(data, parse, k)
      ensures Peak(data, parse) == Success(Some(data[k]))
    {
      assert Qualifies(data[k]);
      var b := Scan(data, parse).value.value;
      var k' :| IsPeakIndex(data, parse, k') && data[k'] == b.row && Absorbance(data[k'], parse) == Some(b.absorbance);
      PeakIndexUnique(data, parse, k, k');
    }
  }

  /** The rows of `data` that have at least two fields, in order. */
  function QualifyingRows(data: seq<Row>): (r: seq<Row>)
    ensures |r| <= |data|
    ensures forall row :: row in r <==> row in data && Qualifies(row)
    decreases |data|
  {
    if data == [] then []
    else
      var n := |data| - 1;
      assert data == data[..n] + [data[n]];
      QualifyingRows(data[..n]) + (if Qualifies(data[n]) then [data[n]] else [])
  }

  /** The filter keeps order and multiplicity: filtering two stretches of
      rows laid end to end gives the filtered first stretch followed by the
      filtered second. */
  lemma {:induction false} QualifyingRowsAppend(a: seq<Row>, b: seq<Row>)
    ensures QualifyingRows(a + b) == QualifyingRows(a) + QualifyingRows(b)
    decreases |b|
  {
    if b != [] {
      var n := |b| - 1;
      QualifyingRowsAppend(a, b[..n]);
      assert (a + b)[..|a + b| - 1] == a + b[..n];
    } else {
      assert a + b == a;
    }
  }

  /** A single row is kept when, and only when, it has two fields. */
  lemma QualifyingRowsSingle(row: Row)
    ensures QualifyingRows([row]) == if Qualifies(row) then [row] else []
  {
  }

  /** Rows with fewer than two fields never affect the scan: dropping them
      all leaves the state, hence the finder's answer, unchanged. */
  lemma {:induction false} ShortRowsIgnored(data: seq<Row>, parse: string -> Option<real>)
    ensures Scan(QualifyingRows(data), parse) == Scan(data, parse)
    ensures Peak(QualifyingRows(data), parse) == Peak(data, parse)
    decreases |data|
  {
    if data != [] {
      var n := |data| - 1;
      var d, x := data[..n], data[n];
      ShortRowsIgnored(d, parse);
      assert data[..n] == d;
      if Qualifies(x) {
        var q := QualifyingRows(d) + [x];
        assert QualifyingRows(data) == q;
        assert q[..|q| - 1] == QualifyingRows(d);
      } else {
        assert QualifyingRows(data) == QualifyingRows(d);
      }
    }
  }

  /** The recorded spectrum 400/0.1, 450/0.9, 500/0.3 peaks at 450 nm. */
  lemma SpectrumExample(parse: string -> Option<real>)
    requires parse("0.1") == Some(0.1) && parse("0.9") == Some(0.9) && parse("0.3") == Some(0.3)
    ensures Peak([["400", "0.1"], ["450", "0.9"], ["500", "0.3"]], parse) == Success(Some(["450", "0.9"]))
  {
    var data: seq<Row> := [["400", "0.1"], ["450", "0.9"], ["500", "0.3"]];
    assert data[..1][..0] == [];
    assert Scan(data[..1], parse) == Success(Some(Best(0.1, data[0])));
    assert data[..2][..1] == data[..1];
    assert Scan(data[..2], parse) == Success(Some(Best(0.9, data[1])));
    assert data[..3][..2] == data[..2];
    assert data[..3] == data;
  }
}
