/**
 * server/util/request.py: the checks the web layer applies to incoming requests, without
 * Flask: required parameters, the `.csv` upload test and the `q` filter.
 */
module Request {
  import opened Wrappers
  import opened Text
  import opened Common

  const MISSING_PREFIX := "Missing required value for "

  /**
   * `validate_params_exist`: checks the names in order and raises `ValueError` naming the
   * first one the form lacks; `None` means every name is present.
   */
  method ValidateParamsExist(form: map<string, string>, params: seq<string>) returns (error: Option<Error>)
    ensures error.None? <==> forall i :: 0 <= i < |params| ==> params[i] in form
    ensures error.Some? ==>
      exists i :: 0 <= i < |params| && params[i] !in form
        && (forall j :: 0 <= j < i ==> params[j] in form)
        && error.value == ValueError(MISSING_PREFIX + params[i])
  {
    var i := 0;
    while i < |params|
      invariant 0 <= i <= |params|
      invariant forall j :: 0 <= j < i ==> params[j] in form
    {
      if params[i] !in form {
        return Some(ValueError(MISSING_PREFIX + params[i]));
      }
      i := i + 1;
    }
    error := None;
  }

  /** The index of the last `c` in `s`, or -1 (`str.rfind`). */
  function RFind(s: string, c: char): (i: int)
    ensures -1 <= i < |s|
    ensures i >= 0 ==> s[i] == c
    ensures forall j :: i < j < |s| ==> s[j] != c
  {
    if |s| == 0 then -1
    else if s[|s| - 1] == c then |s| - 1
    else RFind(s[..|s| - 1], c)
  }

  /**
   * `os.path.splitext` (POSIX): the extension runs from the last `.` of the final path
   * component, unless everything before that dot in the component is dots.
   */
  function SplitExt(p: string): (r: (string, string))
    ensures r.0 + r.1 == p
    ensures r.1 != [] ==> r.1[0] == '.' && '/' !in r.1 && '.' !in r.1[1..]
  {
    var sepIndex := RFind(p, '/');
    var dotIndex := RFind(p, '.');
    if dotIndex > sepIndex && exists k :: sepIndex + 1 <= k < dotIndex && p[k] != '.' then
      assert p[..dotIndex] + p[dotIndex..] == p;
      (p[..dotIndex], p[dotIndex..])
    else
      (p, [])
  }

  /** `is_csv`: the lower-cased extension is `.csv`. */
  predicate IsCsv(filename: string)
    ensures IsCsv(filename) ==> |SplitExt(filename).1| == 4 && |filename| >= 5
  {
    Lower(SplitExt(filename).1) == ".csv"
  }

  /** The text `.csv` in any letter case. */
  predicate CsvSuffix(s: string) {
    |s| == 4 && s[0] == '.' && LowerChar(s[1]) == 'c' && LowerChar(s[2]) == 's' && LowerChar(s[3]) == 'v'
  }

  lemma LowerIsCsv(s: string)
    ensures Lower(s) == ".csv" <==> CsvSuffix(s)
  {
    if CsvSuffix(s) {
      assert Lower(s) == [LowerChar(s[0]), LowerChar(s[1]), LowerChar(s[2]), LowerChar(s[3])];
    }
  }

  /** What a CSV name looks like: it ends in `.csv`, and the text of its final path component before that dot is not all dots. */
  predicate CsvShaped(filename: string) {
    && |filename| >= 4 && CsvSuffix(filename[|filename| - 4..])
    && exists k :: RFind(filename, '/') < k < |filename| - 4 && filename[k] != '.'
  }

  lemma {:induction false} IsCsvShaped(filename: string)
    requires IsCsv(filename)
    ensures CsvShaped(filename)
  {
    var ext := SplitExt(filename).1;
    LowerIsCsv(ext);
    assert ext == filename[RFind(filename, '.')..];
  }

  lemma {:induction false} ShapedIsCsv(filename: string)
    requires CsvShaped(filename)
    ensures IsCsv(filename)
  {
    var n := |filename|;
    var tail := filename[n - 4..];
    assert tail[1] != '.' && tail[2] != '.' && tail[3] != '.';
    assert forall j :: n - 4 < j < n ==> filename[j] == tail[j - (n - 4)];
    assert RFind(filename, '.') == n - 4;
    LowerIsCsv(tail);
  }

  /** A name is CSV exactly when it has the shape above: case does not matter, leading dots are no stem. */
  lemma IsCsvIff(filename: string)
    ensures IsCsv(filename) <==> CsvShaped(filename)
  {
    if IsCsv(filename) {
      IsCsvShaped(filename);
    }
    if CsvShaped(filename) {
      ShapedIsCsv(filename);
    }
  }

  /** A name without a dot has no extension, so it is not CSV. */
  lemma NoDotIsNotCsv(filename: string)
    requires '.' !in filename
    ensures !IsCsv(filename)
  {
    assert RFind(filename, '.') == -1;
    assert Lower([]) == [];
  }

  /** `splitext` skips leading dots, so `.csv` alone has no extension and is not CSV. */
  lemma DotfileIsNotCsv()
    ensures !IsCsv(".csv")
  {
    var p := ".csv";
    assert p[0] == '.' && p[1] != '.' && p[2] != '.' && p[3] != '.';
    assert RFind(p, '/') == -1;
    assert RFind(p, '.') == 0;
    assert SplitExt(p).1 == [];
    assert Lower([]) == [];
  }

  /** Nor does `..csv`: everything before its last dot is dots. */
  lemma DotsOnlyStemIsNotCsv()
    ensures !IsCsv("..csv")
  {
    var p := "..csv";
    assert p[0] == '.' && p[1] == '.' && p[2] != '.' && p[3] != '.' && p[4] != '.';
    assert RFind(p, '/') == -1;
    assert RFind(p, '.') == 1;
    assert SplitExt(p).1 == [];
    assert Lower([]) == [];
  }

  /** The test is case-insensitive, and a stem may end in dots. */
  lemma CsvExamples()
    ensures IsCsv("DATA.CSV") && IsCsv("a..csv")
  {
    assert RFind("DATA.CSV", '/') == -1 && RFind("a..csv", '/') == -1;
    assert CsvShaped("DATA.CSV") by {
      assert "DATA.CSV"[4..] == ".CSV";
      assert "DATA.CSV"[0] != '.';
    }
    assert CsvShaped("a..csv") by {
      assert "a..csv"[2..] == ".csv";
      assert "a..csv"[0] != '.';
    }
    IsCsvIff("DATA.CSV");
    IsCsvIff("a..csv");
  }

  /** The `q` filter of `filters_from_args`: the argument, unless it is absent or `undefined`. */
  function QueryArg(args: map<string, string>): (q: Option<string>)
    ensures q.None? <==> "q" !in args || args["q"] == "undefined"
    ensures q.Some? ==> q.value == args["q"] && q.value != "undefined"
  {
    if "q" in args && args["q"] != "undefined" then Some(args["q"]) else None
  }
}
