/** The pure string and list work of the batch driver: which directory
    entries are data files, how many there are, and where each chart image
    is saved. The directory listing is given as a sequence of entry names. */
module FileSelection {
  import opened Wrappers

  /** Extension of the spectrophotometer export files (case-sensitive). */
  const CsvSuffix: string := ".csv"

  /** Extension appended to every saved chart. */
  const PngSuffix: string := ".png"

  /** Separator placed between a directory and the name inside it. */
  const Separator: string := "/"

  /** Name of the output subdirectory. */
  const ImagesName: string := "images"

  /** `s` ends with `suffix`, compared character by character. */
  predicate EndsWith(s: string, suffix: string)
  {
    |suffix| <= |s| && s[|s| - |suffix|..] == suffix
  }

  /** A listing entry the driver treats as a data file. */
  predicate IsCsv(name: string)
  {
    EndsWith(name, CsvSuffix)
  }

  /** The path of entry `name` inside directory `dir`. */
  function InDir(dir: string, name: string): string
  {
    dir + Separator + name
  }

  /** The candidate files: `dir/name` for every listed name that ends in
      ".csv", in listing order. */
  function CandidateFiles(dir: string, names: seq<string>): (r: seq<string>)
    ensures |r| <= |names|
    ensures forall name :: name in names && IsCsv(name) ==> InDir(dir, name) in r
    ensures forall p :: p in r ==> exists name :: name in names && IsCsv(name) && p == InDir(dir, name)
    decreases |names|
  {
    if names == [] then []
    else
      var n := |names| - 1;
      assert names == names[..n] + [names[n]];
      CandidateFiles(dir, names[..n]) + (if IsCsv(names[n]) then [InDir(dir, names[n])] else [])
  }

  /** Listing order is kept: the candidates of two listings laid end to end
      are the candidates of the first followed by those of the second. */
  lemma {:induction false} CandidateFilesAppend(dir: string, a: seq<string>, b: seq<string>)
    ensures CandidateFiles(dir, a + b) == CandidateFiles(dir, a) + CandidateFiles(dir, b)
    decreases |b|
  {
    if b != [] {
      var n := |b| - 1;
      CandidateFilesAppend(dir, a, b[..n]);
      assert (a + b)[..|a + b| - 1] == a + b[..n];
    } else {
      assert a + b == a;
    }
  }

  /** A single entry contributes its path when, and only when, it is a
      ".csv" name. */
  lemma CandidateFilesSingle(dir: string, name: string)
    ensures CandidateFiles(dir, [name]) == if IsCsv(name) then [InDir(dir, name)] else []
  {
  }

  /** Positions of the ".csv" names in the listing. */
  ghost function CsvPositions(names: seq<string>): set<int>
  {
    set i | 0 <= i < |names| && IsCsv(names[i])
  }

  /** The file count reported to the operator: the length of the candidate
      list, which is the number of listing entries whose name ends in ".csv". */
  function NumFiles(dir: string, names: seq<string>): (count: nat)
    ensures count == |CsvPositions(names)|
  {
    CsvCountMatches(dir, names);
    |CandidateFiles(dir, names)|
  }

  lemma {:induction false} CsvCountMatches(dir: string, names: seq<string>)
    ensures |CandidateFiles(dir, names)| == |CsvPositions(names)|
    decreases |names|
  {
    if names != [] {
      var n := |names| - 1;
      var d := names[..n];
      CsvCountMatches(dir, d);
      CsvPositionsStep(names);
      assert n !in CsvPositions(d);
    }
  }

  /** Extending the listing by one entry adds its position exactly when it
      is a ".csv" name. */
  lemma CsvPositionsStep(names: seq<string>)
    requires names != []
    ensures CsvPositions(names) ==
      CsvPositions(names[..|names| - 1]) + (if IsCsv(names[|names| - 1]) then {|names| - 1} else {})
  {
  }

  /** The output subdirectory of `dir`. */
  function ImagesDir(dir: string): string
  {
    InDir(dir, ImagesName)
  }

  /** Where the chart titled `title` is saved: inside the output
      subdirectory, named by the title verbatim plus ".png". */
  function ImagePath(dir: string, title: string): (p: string)
    ensures p == InDir(ImagesDir(dir), title) + PngSuffix
    ensures EndsWith(p, PngSuffix)
  {
    dir + "/images/" + title + ".png"
  }

  /** The title an image path was saved under, or None when the path is not
      a chart path of `dir`. */
  function TitleOf(dir: string, p: string): Option<string>
  {
    var prefix := ImagesDir(dir) + Separator;
    if |prefix| + |PngSuffix| <= |p| && p[..|prefix|] == prefix && EndsWith(p, PngSuffix)
    then Some(p[|prefix|..|p| - |PngSuffix|])
    else None
  }

  /** Saving under a title and reading the title back from the path agree,
      in both directions. */
  lemma ImagePathRoundTrip(dir: string, title: string, p: string)
    ensures TitleOf(dir, ImagePath(dir, title)) == Some(title)
    ensures TitleOf(dir, p) == Some(title) ==> ImagePath(dir, title) == p
  {
  }

  /** Two different titles give two different path strings. */
  lemma DistinctTitlesDistinctImages(dir: string, t1: string, t2: string)
    requires t1 != t2
    ensures ImagePath(dir, t1) != ImagePath(dir, t2)
  {
    ImagePathRoundTrip(dir, t1, "");
    ImagePathRoundTrip(dir, t2, "");
  }
}
