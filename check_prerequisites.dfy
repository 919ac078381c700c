/** A model of the environment prerequisite checker (check_prerequisits.py).

    The checker runs six checks in a fixed order -- the interpreter version,
    then numpy, scipy, netcdf4-python, matplotlib and basemap -- each of which
    yields a two-element list [errors, warnings], and adds them up element-wise
    starting from [0, 0].  The interpreter version and whether each import
    succeeds are inputs of the model (an Environment); printing is not modelled,
    except for the choice of the version message and the padded progress line.
 */
module CheckPrerequisites {

  // ---------------------------------------------------------------------------
  // element_sum
  // ---------------------------------------------------------------------------

  /** The outcome of element_sum: the summed list, or the AssertionError its
      length guard raises. */
  datatype Result<T> = Ok(value: T) | AssertionError

  /** element_sum(a, b): element-wise sum of two lists of the same length. */
  function ElementSum(a: seq<int>, b: seq<int>): (r: Result<seq<int>>)
    ensures r.Ok? <==> |a| == |b|
    ensures r.Ok? ==> |r.value| == |a|
    ensures r.Ok? ==> forall i :: 0 <= i < |a| ==> r.value[i] == a[i] + b[i]
  {
    if |a| != |b| then AssertionError
    else Ok(seq(|a|, i requires 0 <= i < |a| => a[i] + b[i]))
  }

  /** The example in element_sum's documentation. */
  lemma ElementSumExample()
    ensures ElementSum([0, 1, 2], [2, 3, 4]) == Ok([2, 4, 6])
  {
    var r := ElementSum([0, 1, 2], [2, 3, 4]).value;
    assert r == [2, 4, 6] by {
      assert |r| == 3 && r[0] == 2 && r[1] == 4 && r[2] == 6;
    }
  }

  /** [0, 0] is a left identity of element_sum on pairs, which is why the
      running total may start there. */
  lemma ElementSumZeroIdentity(a: seq<int>)
    requires |a| == 2
    ensures ElementSum([0, 0], a) == Ok(a)
  {
    assert ElementSum([0, 0], a).value == a;
  }

  /** element_sum is commutative, including on the error case. */
  lemma ElementSumCommutes(a: seq<int>, b: seq<int>)
    ensures ElementSum(a, b) == ElementSum(b, a)
  {
    if |a| == |b| {
      assert ElementSum(a, b).value == ElementSum(b, a).value;
    }
  }

  /** element_sum is associative on lists of one length. */
  lemma ElementSumAssociates(a: seq<int>, b: seq<int>, c: seq<int>)
    requires |a| == |b| == |c|
    ensures ElementSum(ElementSum(a, b).value, c) == ElementSum(a, ElementSum(b, c).value)
  {
    assert ElementSum(ElementSum(a, b).value, c).value == ElementSum(a, ElementSum(b, c).value).value;
  }

  // ---------------------------------------------------------------------------
  // Check results
  // ---------------------------------------------------------------------------

  /** What every check returns: [errors, warnings], both non-negative, and at
      most one unit in total (one error, or one warning, or neither). */
  predicate IsCheckResult(r: seq<int>)
  {
    |r| == 2 && r[0] >= 0 && r[1] >= 0 && r[0] + r[1] <= 1
  }

  // ---------------------------------------------------------------------------
  // check_version
  // ---------------------------------------------------------------------------

  /** Which branch of check_version is taken; each branch prints its own
      message and returns its own counts. */
  datatype VersionVerdict = NewerMajor | AncientMajor | MinorDiffers | Supported
  {
    /** The list the branch returns. */
    function Counts(): seq<int>
    {
      match this
      case NewerMajor => [0, 1]
      case AncientMajor => [1, 0]
      case MinorDiffers => [0, 1]
      case Supported => [0, 0]
    }

    /** The line the branch prints. */
    function Message(): string
    {
      match this
      case NewerMajor =>
        "We will be using 2.7.x, so be aware that some things might be different"
      case AncientMajor =>
        "Where did you find such an old python version? We are using 2.7.x, and you really should upgrade"
      case MinorDiffers =>
        "We will be using 2.7.x, so there might be a few minor differences"
      case Supported =>
        "We will be using 2.7.x, so you are fine here"
    }
  }

  /** The branch check_version takes for an interpreter major.minor. Only
      majors 3 and 1 are special; every other major goes on to the minor test. */
  function ClassifyVersion(major: int, minor: int): VersionVerdict
  {
    if major == 3 then NewerMajor
    else if major == 1 then AncientMajor
    else if minor != 7 then MinorDiffers
    else Supported
  }

  /** check_version: the decision table from (major, minor) to [errors, warnings]. */
  function CheckVersion(major: int, minor: int): (r: seq<int>)
    ensures IsCheckResult(r)
    ensures r == [1, 0] <==> major == 1
    ensures r == [0, 1] <==> major == 3 || (major != 1 && minor != 7)
    ensures r == [0, 0] <==> major != 1 && major != 3 && minor == 7
  {
    ClassifyVersion(major, minor).Counts()
  }

  /** The version message says "you are fine here" exactly when the check
      reports neither an error nor a warning. */
  lemma VersionMessageAgrees(major: int, minor: int)
    ensures ClassifyVersion(major, minor).Message() == "We will be using 2.7.x, so you are fine here"
            <==> CheckVersion(major, minor) == [0, 0]
  {
  }

  // ---------------------------------------------------------------------------
  // Label padding (str.ljust)
  // ---------------------------------------------------------------------------

  /** Width of the label column. */
  const PadLength: nat := 32

  /** n spaces. */
  function Spaces(n: nat): (s: string)
    ensures |s| == n
    ensures forall i :: 0 <= i < n ==> s[i] == ' '
  {
    if n == 0 then "" else Spaces(n - 1) + " "
  }

  /** s.ljust(width): s, padded on the right with spaces up to width
      characters; s itself when it is already that long. */
  function LJust(s: string, width: int): (r: string)
    ensures |r| == if |s| < width then width else |s|
    ensures r[..|s|] == s
    ensures forall i :: |s| <= i < |r| ==> r[i] == ' '
  {
    if |s| >= width then s else s + Spaces(width - |s|)
  }

  // ---------------------------------------------------------------------------
  // check_numpy, check_scipy, check_netcdf4, check_matplotlib, check_basemap
  // ---------------------------------------------------------------------------

  /** The libraries probed, one per check_* function. */
  datatype Capability = Numpy | Scipy | Netcdf4 | Matplotlib | Basemap
  {
    /** The label printed before the outcome. */
    function Label(): string
    {
      match this
      case Numpy => "Checking for numpy..."
      case Scipy => "Checking for scipy..."
      case Netcdf4 => "Checking for netcdf4-python..."
      case Matplotlib => "Checking for matplotlib..."
      case Basemap => "Checking for basemap..."
    }

    /** A missing required library is an error; netcdf4-python is optional,
        so its absence is only a warning. */
    predicate Required()
    {
      !Netcdf4?
    }
  }

  /** The result of a capability check, given whether its import succeeded. */
  function CheckCapability(c: Capability, imported: bool): (r: seq<int>)
    ensures IsCheckResult(r)
    ensures imported ==> r == [0, 0]
    ensures !imported && c.Required() ==> r == [1, 0]
    ensures !imported && !c.Required() ==> r == [0, 1]
  {
    match c
    case Numpy | Scipy | Matplotlib | Basemap => if imported then [0, 0] else [1, 0]
    case Netcdf4 => if imported then [0, 0] else [0, 1]
  }

  /** The word printed after the label. */
  function StatusWord(imported: bool): string
  {
    if imported then "success" else "fail"
  }

  /** The progress line of a capability check: the label padded to the column
      width, then the outcome on the same line. Every label is shorter than the
      column, so the outcome always starts in column 32. */
  function ProgressLine(c: Capability, imported: bool): (line: string)
    ensures |line| == PadLength + |StatusWord(imported)|
    ensures line[..|c.Label()|] == c.Label()
    ensures forall i :: |c.Label()| <= i < PadLength ==> line[i] == ' '
    ensures line[PadLength..] == StatusWord(imported)
  {
    LJust(c.Label(), PadLength) + StatusWord(imported)
  }

  // ---------------------------------------------------------------------------
  // The __main__ aggregation
  // ---------------------------------------------------------------------------

  /** What the checker observes: the interpreter's major and minor version and
      the set of libraries whose import succeeds. */
  datatype Environment = Environment(major: int, minor: int, installed: set<Capability>)

  /** The six check results, in the order the checks run. */
  function CheckResults(env: Environment): (rs: seq<seq<int>>)
    ensures |rs| == 6
    ensures forall i :: 0 <= i < |rs| ==> IsCheckResult(rs[i])
  {
    [ CheckVersion(env.major, env.minor),
      CheckCapability(Numpy, Numpy in env.installed),
      CheckCapability(Scipy, Scipy in env.installed),
      CheckCapability(Netcdf4, Netcdf4 in env.installed),
      CheckCapability(Matplotlib, Matplotlib in env.installed),
      CheckCapability(Basemap, Basemap in env.installed) ]
  }

  /** Left fold of element_sum over rs, starting from acc. */
  function Fold(acc: seq<int>, rs: seq<seq<int>>): Result<seq<int>>
    decreases rs
  {
    if rs == [] then Ok(acc)
    else match ElementSum(acc, rs[0])
      case AssertionError => AssertionError
      case Ok(s) => Fold(s, rs[1..])
  }

  /** The sum of column k of rs. */
  function Column(rs: seq<seq<int>>, k: nat): int
    requires forall i :: 0 <= i < |rs| ==> k < |rs[i]|
  {
    if rs == [] then 0 else rs[0][k] + Column(rs[1..], k)
  }

  /** The fold never raises exactly when every list has the accumulator's length. */
  lemma {:induction false} FoldSucceeds(acc: seq<int>, rs: seq<seq<int>>)
    ensures Fold(acc, rs).Ok? <==> forall i :: 0 <= i < |rs| ==> |rs[i]| == |acc|
    decreases rs
  {
    if rs != [] {
      if |rs[0]| == |acc| {
        var s := ElementSum(acc, rs[0]).value;
        FoldSucceeds(s, rs[1..]);
        assert forall i :: 1 <= i < |rs| ==> rs[i] == rs[1..][i - 1];
      }
    }
  }

  /** On pairs, the left fold from acc is acc plus the column-wise sums. */
  lemma {:induction false} FoldIsColumnSum(acc: seq<int>, rs: seq<seq<int>>)
    requires |acc| == 2
    requires forall i :: 0 <= i < |rs| ==> |rs[i]| == 2
    ensures Fold(acc, rs) == Ok([acc[0] + Column(rs, 0), acc[1] + Column(rs, 1)])
    decreases rs
  {
    if rs != [] {
      var s := ElementSum(acc, rs[0]).value;
      assert Fold(acc, rs) == Fold(s, rs[1..]);
      FoldIsColumnSum(s, rs[1..]);
      assert Column(rs, 0) == rs[0][0] + Column(rs[1..], 0);
      assert Column(rs, 1) == rs[0][1] + Column(rs[1..], 1);
    } else {
      assert acc == [acc[0], acc[1]];
    }
  }

  /** Column sums distribute over concatenation. */
  lemma {:induction false} ColumnConcat(a: seq<seq<int>>, b: seq<seq<int>>, k: nat)
    requires forall i :: 0 <= i < |a| ==> k < |a[i]|
    requires forall i :: 0 <= i < |b| ==> k < |b[i]|
    ensures forall i :: 0 <= i < |a + b| ==> k < |(a + b)[i]|
    ensures Column(a + b, k) == Column(a, k) + Column(b, k)
    decreases a
  {
    if a == [] {
      assert a + b == b;
    } else {
      assert (a + b)[1..] == a[1..] + b;
      ColumnConcat(a[1..], b, k);
    }
  }

  /** Removing the element at j removes one occurrence from the multiset. */
  lemma MultisetRemove(ts: seq<seq<int>>, j: nat)
    requires j < |ts|
    ensures multiset(ts[..j] + ts[j + 1..]) == multiset(ts) - multiset{ts[j]}
  {
    assert ts == ts[..j] + [ts[j]] + ts[j + 1..];
  }

  /** Taking out the list at j takes its entry out of the column sum. */
  lemma ColumnRemove(ts: seq<seq<int>>, j: nat, k: nat, rest: seq<seq<int>>)
    requires j < |ts| && rest == ts[..j] + ts[j + 1..]
    requires forall i :: 0 <= i < |ts| ==> k < |ts[i]|
    ensures forall i :: 0 <= i < |rest| ==> k < |rest[i]|
    ensures Column(ts, k) == ts[j][k] + Column(rest, k)
  {
    var pre, tail := ts[..j], ts[j + 1..];
    assert forall i :: 0 <= i < |pre| ==> pre[i] == ts[i];
    assert forall i :: 0 <= i < |tail| ==> tail[i] == ts[j + 1 + i];
    ColumnConcat(pre, [ts[j]] + tail, k);
    ColumnConcat(pre, tail, k);
    assert ts == pre + ([ts[j]] + tail);
    assert ([ts[j]] + tail)[1..] == tail;
  }

  /** Column sums do not depend on the order of the lists. */
  lemma {:induction false} ColumnPermutation(rs: seq<seq<int>>, ts: seq<seq<int>>, k: nat)
    requires multiset(rs) == multiset(ts)
    requires forall i :: 0 <= i < |rs| ==> k < |rs[i]|
    requires forall i :: 0 <= i < |ts| ==> k < |ts[i]|
    ensures Column(rs, k) == Column(ts, k)
    decreases |rs|
  {
    if rs == [] {
      assert |ts| == |multiset(ts)| == 0;
    } else {
      assert rs == [rs[0]] + rs[1..];
      assert rs[0] in multiset(ts);
      var j :| 0 <= j < |ts| && ts[j] == rs[0];
      var rest := ts[..j] + ts[j + 1..];
      ColumnRemove(ts, j, k, rest);
      assert multiset(rs[1..]) == multiset(rs) - multiset{rs[0]};
      MultisetRemove(ts, j);
      ColumnPermutation(rs[1..], rest, k);
    }
  }

  /** Folding element_sum over the check results in any other order gives the
      same total: the reduction is commutative and associative. */
  lemma FoldOrderIrrelevant(rs: seq<seq<int>>, ts: seq<seq<int>>)
    requires multiset(rs) == multiset(ts)
    requires forall i :: 0 <= i < |rs| ==> |rs[i]| == 2
    ensures Fold([0, 0], rs) == Fold([0, 0], ts)
  {
    forall i | 0 <= i < |ts| ensures |ts[i]| == 2 {
      assert ts[i] in multiset(rs);
    }
    FoldIsColumnSum([0, 0], rs);
    FoldIsColumnSum([0, 0], ts);
    ColumnPermutation(rs, ts, 0);
    ColumnPermutation(rs, ts, 1);
  }

  /** One step of the fold over the suffix rs[k..]. */
  lemma FoldStep(acc: seq<int>, rs: seq<seq<int>>, k: nat)
    requires k < |rs| && |rs[k]| == |acc|
    ensures Fold(acc, rs[k..]) == Fold(ElementSum(acc, rs[k]).value, rs[k + 1..])
  {
  }

  /** Column k of six lists, written out. */
  lemma ColumnOfSix(rs: seq<seq<int>>, k: nat)
    requires |rs| == 6 && forall i :: 0 <= i < 6 ==> k < |rs[i]|
    ensures Column(rs, k) == rs[0][k] + rs[1][k] + rs[2][k] + rs[3][k] + rs[4][k] + rs[5][k]
  {
    var t1 := rs[1..];
    var t2 := t1[1..];
    var t3 := t2[1..];
    var t4 := t3[1..];
    var t5 := t4[1..];
    var t6 := t5[1..];
    assert t6 == [];
    assert Column(t5, k) == rs[5][k];
    assert Column(t4, k) == rs[4][k] + rs[5][k];
    assert Column(t3, k) == rs[3][k] + rs[4][k] + rs[5][k];
    assert Column(t2, k) == rs[2][k] + rs[3][k] + rs[4][k] + rs[5][k];
    assert Column(t1, k) == rs[1][k] + rs[2][k] + rs[3][k] + rs[4][k] + rs[5][k];
  }

  /** Total errors of a run: the first column of the six results. */
  function TotalErrors(env: Environment): int
  {
    Column(CheckResults(env), 0)
  }

  /** Total warnings of a run: the second column of the six results. */
  function TotalWarnings(env: Environment): int
  {
    Column(CheckResults(env), 1)
  }

  /** The __main__ block: start from [0, 0] and add each check's result in
      order with element_sum.  The result is the left fold of element_sum over
      the six results, which never raises, and equals their column sums. */
  method RunChecks(env: Environment) returns (result: seq<int>)
    ensures Fold([0, 0], CheckResults(env)) == Ok(result)
    ensures result == [TotalErrors(env), TotalWarnings(env)]
  {
    ghost var rs := CheckResults(env);
    result := [0, 0];
    assert Fold([0, 0], rs) == Fold(result, rs[0..]) by { assert rs[0..] == rs; }
    FoldStep(result, rs, 0);
    result := ElementSum(result, CheckVersion(env.major, env.minor)).value;
    assert Fold([0, 0], rs) == Fold(result, rs[1..]);
    FoldStep(result, rs, 1);
    result := ElementSum(result, CheckCapability(Numpy, Numpy in env.installed)).value;
    assert Fold([0, 0], rs) == Fold(result, rs[2..]);
    FoldStep(result, rs, 2);
    result := ElementSum(result, CheckCapability(Scipy, Scipy in env.installed)).value;
    assert Fold([0, 0], rs) == Fold(result, rs[3..]);
    FoldStep(result, rs, 3);
    result := ElementSum(result, CheckCapability(Netcdf4, Netcdf4 in env.installed)).value;
    assert Fold([0, 0], rs) == Fold(result, rs[4..]);
    FoldStep(result, rs, 4);
    result := ElementSum(result, CheckCapability(Matplotlib, Matplotlib in env.installed)).value;
    assert Fold([0, 0], rs) == Fold(result, rs[5..]);
    FoldStep(result, rs, 5);
    result := ElementSum(result, CheckCapability(Basemap, Basemap in env.installed)).value;
    assert Fold([0, 0], rs) == Fold(result, rs[6..]);
    assert rs[6..] == [];
    FoldIsColumnSum([0, 0], rs);
  }

  /** 1 when the library's import fails, 0 when it succeeds. */
  function Missing(env: Environment, c: Capability): nat
  {
    if c in env.installed then 0 else 1
  }

  /** The totals in closed form: errors come from an ancient major and from
      each missing required library; warnings from the version check and from
      a missing netcdf4-python. */
  lemma ReportClosedForm(env: Environment)
    ensures TotalErrors(env) == (if env.major == 1 then 1 else 0)
              + Missing(env, Numpy) + Missing(env, Scipy)
              + Missing(env, Matplotlib) + Missing(env, Basemap)
    ensures TotalWarnings(env) == (if env.major == 3 || (env.major != 1 && env.minor != 7) then 1 else 0)
              + Missing(env, Netcdf4)
  {
    ColumnOfSix(CheckResults(env), 0);
    ColumnOfSix(CheckResults(env), 1);
  }

  /** Bounds on the final report. */
  lemma ReportBounds(env: Environment)
    ensures 0 <= TotalErrors(env) <= 5
    ensures 0 <= TotalWarnings(env) <= 2
    ensures TotalErrors(env) + TotalWarnings(env) <= 6
  {
    ReportClosedForm(env);
  }

  /** The report is clean exactly when the version is an expected x.7 and
      every library imports. */
  lemma CleanReport(env: Environment)
    ensures TotalErrors(env) == 0 && TotalWarnings(env) == 0
            <==> env.major != 1 && env.major != 3 && env.minor == 7
                 && env.installed == {Numpy, Scipy, Netcdf4, Matplotlib, Basemap}
  {
    ReportClosedForm(env);
    var all := {Numpy, Scipy, Netcdf4, Matplotlib, Basemap};
    forall c: Capability ensures c in all {
      match c
      case Numpy =>
      case Scipy =>
      case Netcdf4 =>
      case Matplotlib =>
      case Basemap =>
    }
    if Numpy in env.installed && Scipy in env.installed && Netcdf4 in env.installed
       && Matplotlib in env.installed && Basemap in env.installed {
      assert env.installed == all;
    }
  }

  /** With version 2.7 and no library importable: 4 errors and 1 warning. */
  lemma NothingInstalled()
    ensures TotalErrors(Environment(2, 7, {})) == 4
    ensures TotalWarnings(Environment(2, 7, {})) == 1
  {
  }

  /** With version 2.7 and only numpy missing: 1 error and no warning. */
  lemma OnlyNumpyMissing()
    ensures TotalErrors(Environment(2, 7, {Scipy, Netcdf4, Matplotlib, Basemap})) == 1
    ensures TotalWarnings(Environment(2, 7, {Scipy, Netcdf4, Matplotlib, Basemap})) == 0
  {
  }

  /** With version 2.7 and only netcdf4-python missing: no error and 1 warning. */
  lemma OnlyNetcdf4Missing()
    ensures TotalErrors(Environment(2, 7, {Numpy, Scipy, Matplotlib, Basemap})) == 0
    ensures TotalWarnings(Environment(2, 7, {Numpy, Scipy, Matplotlib, Basemap})) == 1
  {
  }
}
