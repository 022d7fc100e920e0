/**
 * The bookkeeping of src/dc_analysis.c around the linear solves: the DC
 * operating-point report (`dc_operating_point`) and the DC sweep (`dc_sweep`):
 * finding the swept source in the element list, naming one output file per
 * probed node, zeroing the solution vector, stamping the right-hand side for
 * each step value, and recording what each file receives.
 *
 * Doubles are modelled as `real`, so `val += increment` is exact here. The
 * helpers this file calls but does not define are parameters: `g2Index`
 * (`g2_elem_indx`), `nodeId` (`ht_get_id`) and `solve`
 * (`solve_mna_system`, which maps a right-hand side and the previous solution
 * to the new solution).
 */
module DcAnalysis {
  import opened Text

  /** One node of the first element list (`list1_t`): its name and its two terminals. */
  datatype Element = Element(name: string, probe1: string, probe2: string)

  /** One `.DC` analysis after parsing: swept source, start, end, increment and probed nodes. */
  datatype Analysis = Analysis(source: string, start: real, stop: real, increment: real, nodes: seq<string>)

  /** A hash-table entry: node name and its id (0 is ground). */
  datatype Entry = Entry(key: string, id: int)

  /** One line of the operating-point file. */
  datatype Row = Row(node: string, value: real)

  /** One line of a sweep file: the swept value and the node's solution value. */
  datatype SweepRow = SweepRow(step: real, value: real)

  /** An output file of the sweep: its name and its data lines (after the header). */
  datatype OutFile = OutFile(name: string, rows: seq<SweepRow>)

  /** One sweep step: the value, the right-hand side handed to the solver, the solution it gave. */
  datatype StepRecord = StepRecord(val: real, rhs: seq<real>, sol: seq<real>)

  // ---------------------------------------------------------------------
  // dc_operating_point
  // ---------------------------------------------------------------------

  /** The entries of the table, bucket after bucket, each chain in order. */
  function Flatten(table: seq<seq<Entry>>): (r: seq<Entry>)
    decreases |table|
  {
    if table == [] then [] else Flatten(table[..|table| - 1]) + table[|table| - 1]
  }

  /** Every non-ground id indexes the solution vector. */
  predicate IdsInRange(es: seq<Entry>, n: int)
  {
    forall e :: e in es && e.id != 0 ==> 1 <= e.id <= n
  }

  /** The rows written for `es`: ground skipped, every other id reported at `x[id - 1]`. */
  function Report(es: seq<Entry>, x: seq<real>): (r: seq<Row>)
    requires IdsInRange(es, |x|)
    decreases |es|
  {
    if es == [] then []
    else
      var last := es[|es| - 1];
      Report(es[..|es| - 1], x) + (if last.id == 0 then [] else [Row(last.key, x[last.id - 1])])
  }

  /** Appending one entry appends its row, or nothing for ground. */
  lemma ReportSnoc(es: seq<Entry>, e: Entry, x: seq<real>)
    requires IdsInRange(es + [e], |x|)
    ensures IdsInRange(es, |x|)
    ensures e.id != 0 ==> 1 <= e.id <= |x|
    ensures Report(es + [e], x) == Report(es, x) + (if e.id == 0 then [] else [Row(e.key, x[e.id - 1])])
  {
    assert (es + [e])[..|es|] == es;
    assert (es + [e])[|es|] == e;
  }

  lemma IdsInRangePrefix(es: seq<Entry>, m: nat, n: int)
    requires IdsInRange(es, n) && m <= |es|
    ensures IdsInRange(es[..m], n)
  {
    assert forall e :: e in es[..m] ==> e in es;
  }

  /** Walks every bucket's chain with a cursor and reports each non-ground node. */
  method DcOperatingPoint(table: seq<seq<Entry>>, solX: array<real>) returns (rows: seq<Row>)
    requires IdsInRange(Flatten(table), solX.Length)
    ensures rows == Report(Flatten(table), solX[..])
  {
    rows := [];
    var i := 0;
    while i < |table|
      invariant 0 <= i <= |table|
      invariant IdsInRange(Flatten(table[..i]), solX.Length)
      invariant rows == Report(Flatten(table[..i]), solX[..])
    {
      assert table[..i + 1][..i] == table[..i];
      assert Flatten(table[..i + 1]) == Flatten(table[..i]) + table[i];
      FlattenPrefixInRangeNext(table, i, solX.Length);
      rows := ReportChain(Flatten(table[..i]), table[i], solX, rows);
      i := i + 1;
    }
    assert table[..i] == table;
  }

  /** The cursor walk along one chain: its non-ground nodes are appended to the rows so far. */
  method ReportChain(ghost done: seq<Entry>, chain: seq<Entry>, solX: array<real>, rows: seq<Row>) returns (out: seq<Row>)
    requires IdsInRange(done + chain, solX.Length)
    requires IdsInRange(done, solX.Length) && rows == Report(done, solX[..])
    ensures out == Report(done + chain, solX[..])
  {
    ghost var x := solX[..];
    out := rows;
    var j := 0;
    ghost var walked := done;
    assert done + chain[..0] == done;
    while j < |chain|
      invariant 0 <= j <= |chain|
      invariant walked == done + chain[..j]
      invariant IdsInRange(walked, |x|)
      invariant out == Report(walked, x)
    {
      var e := chain[j];
      ReportWalkNext(walked, done, chain, j, x);
      if e.id != 0 {
        out := out + [Row(e.key, solX[e.id - 1])];
      }
      walked := walked + [e];
      j := j + 1;
    }
    assert chain[..j] == chain;
  }

  /** Walking one more entry of a chain adds that entry's row, if any, to the report. */
  lemma ReportWalkNext(walked: seq<Entry>, done: seq<Entry>, chain: seq<Entry>, j: nat, x: seq<real>)
    requires j < |chain| && walked == done + chain[..j]
    requires IdsInRange(done + chain, |x|)
    ensures walked + [chain[j]] == done + chain[..j + 1]
    ensures IdsInRange(walked, |x|) && IdsInRange(walked + [chain[j]], |x|)
    ensures chain[j].id != 0 ==> 1 <= chain[j].id <= |x|
    ensures Report(walked + [chain[j]], x)
      == Report(walked, x) + (if chain[j].id == 0 then [] else [Row(chain[j].key, x[chain[j].id - 1])])
  {
    assert chain[..j + 1] == chain[..j] + [chain[j]];
    ChainPrefixInRange(done, chain, j + 1, |x|);
    ReportSnoc(walked, chain[j], x);
  }



  lemma ChainPrefixInRange(done: seq<Entry>, chain: seq<Entry>, m: nat, n: int)
    requires m <= |chain| && IdsInRange(done + chain, n)
    ensures IdsInRange(done + chain[..m], n)
  {
    assert done + chain[..m] == (done + chain)[..|done| + m];
    IdsInRangePrefix(done + chain, |done| + m, n);
  }

  lemma {:induction false} FlattenPrefix(table: seq<seq<Entry>>, i: nat)
    requires i <= |table|
    ensures |Flatten(table[..i])| <= |Flatten(table)|
    ensures Flatten(table[..i]) == Flatten(table)[..|Flatten(table[..i])|]
    decreases |table| - i
  {
    if i < |table| {
      FlattenPrefix(table, i + 1);
      assert table[..i + 1][..i] == table[..i];
    } else {
      assert table[..i] == table;
    }
  }

  lemma FlattenPrefixInRangeNext(table: seq<seq<Entry>>, i: nat, n: int)
    requires i < |table|
    requires IdsInRange(Flatten(table), n)
    ensures IdsInRange(Flatten(table[..i + 1]), n)
  {
    FlattenPrefix(table, i + 1);
    IdsInRangePrefix(Flatten(table), |Flatten(table[..i + 1])|, n);
  }

  /** Each report row comes from a non-ground entry and shows `x[id - 1]`. */
  lemma {:induction false} ReportSound(es: seq<Entry>, x: seq<real>, i: nat)
    requires IdsInRange(es, |x|)
    requires i < |Report(es, x)|
    ensures exists k :: 0 <= k < |es| && es[k].id != 0 && Report(es, x)[i] == Row(es[k].key, x[es[k].id - 1])
    decreases |es|
  {
    var init := es[..|es| - 1];
    assert IdsInRange(init, |x|);
    if i < |Report(init, x)| {
      ReportSound(init, x, i);
      var k :| 0 <= k < |init| && init[k].id != 0 && Report(init, x)[i] == Row(init[k].key, x[init[k].id - 1]);
      assert es[k] == init[k];
    } else {
      assert es[|es| - 1].id != 0;
    }
  }

  /** Every non-ground entry is reported with `x[id - 1]`. */
  lemma {:induction false} ReportComplete(es: seq<Entry>, x: seq<real>, k: nat)
    requires IdsInRange(es, |x|)
    requires k < |es| && es[k].id != 0
    ensures Row(es[k].key, x[es[k].id - 1]) in Report(es, x)
    decreases |es|
  {
    var init := es[..|es| - 1];
    assert IdsInRange(init, |x|);
    if k < |es| - 1 {
      ReportComplete(init, x, k);
      assert es[k] == init[k];
    }
  }

  /** Ground entries add no row: there are exactly as many rows as non-ground entries. */
  lemma {:induction false} ReportLength(es: seq<Entry>, x: seq<real>)
    requires IdsInRange(es, |x|)
    ensures |Report(es, x)| == |NonGround(es)|
    decreases |es|
  {
    if es != [] {
      var init := es[..|es| - 1];
      IdsInRangePrefix(es, |es| - 1, |x|);
      ReportLength(init, x);
      NonGroundSnoc(es);
    }
  }

  /** The positions of the non-ground entries. */
  function NonGround(es: seq<Entry>): (r: set<int>)
  {
    set k | 0 <= k < |es| && es[k].id != 0
  }

  lemma NonGroundSnoc(es: seq<Entry>)
    requires es != []
    ensures |NonGround(es)| == |NonGround(es[..|es| - 1])| + (if es[|es| - 1].id == 0 then 0 else 1)
  {
    var init := es[..|es| - 1];
    var before := NonGround(init);
    if es[|es| - 1].id == 0 {
      assert NonGround(es) == before;
    } else {
      assert NonGround(es) == before + {|es| - 1};
      assert |es| - 1 !in before;
    }
  }

  // ---------------------------------------------------------------------
  // dc_sweep: finding the source, naming the files
  // ---------------------------------------------------------------------

  /** The inner loop of `dc_sweep`: the position of the first element named `source`. */
  method FindSource(head: seq<Element>, source: string) returns (found: Option<nat>)
    ensures found.Some? ==> found.value < |head| && head[found.value].name == source
    ensures found.Some? ==> forall k :: 0 <= k < found.value ==> head[k].name != source
    ensures found.None? <==> forall k :: 0 <= k < |head| ==> head[k].name != source
  {
    var i := 0;
    while i < |head|
      invariant 0 <= i <= |head|
      invariant forall k :: 0 <= k < i ==> head[k].name != source
    {
      if head[i].name == source {
        return Some(i);
      }
      i := i + 1;
    }
    return None;
  }

  /** `"dc_analysis_" + source + "_" + node + ".txt"`. */
  function FileName(source: string, node: string): (r: string)
  {
    "dc_analysis_" + source + "_" + node + ".txt"
  }

  /**
   * When neither the source nor the node name holds `_`, the name splits on
   * `_` into `dc`, `analysis`, the source, and the node name with `.txt`.
   */
  lemma FileNameFields(source: string, node: string)
    requires Free(source, '_') && Free(node, '_')
    ensures Split(FileName(source, node), '_') == ["dc", "analysis", source, node + ".txt"]
  {
    FileNameJoin(source, node);
    FileNamePiecesFree(source, node);
    SplitJoin(["dc", "analysis", source, node + ".txt"], '_');
  }

  lemma FileNameJoin(source: string, node: string)
    ensures Join(["dc", "analysis", source, node + ".txt"], '_') == FileName(source, node)
  {
    var parts := ["dc", "analysis", source, node + ".txt"];
    assert Join(parts[3..], '_') == node + ".txt";
    assert Join(parts[2..], '_') == source + "_" + node + ".txt";
    assert Join(parts[1..], '_') == "analysis_" + source + "_" + node + ".txt";
  }

  lemma FileNamePiecesFree(source: string, node: string)
    requires Free(source, '_') && Free(node, '_')
    ensures forall i :: 0 <= i < 4 ==> Free(["dc", "analysis", source, node + ".txt"][i], '_')
  {
    assert Free("dc", '_') && Free("analysis", '_');
    FreeAppend(node, ".txt", '_');
  }

  // ---------------------------------------------------------------------
  // dc_sweep: steps and right-hand-side stamping
  // ---------------------------------------------------------------------

  /** C's `(int)` conversion of a double: truncation toward zero. */
  function TruncToInt(q: real): (r: int)
  {
    if q >= 0.0 then q.Floor else -((-q).Floor)
  }

  /**
   * How many times the step loop runs: `n_steps + 1` for
   * `n_steps = (int)((end - start) / increment)`, none when that is negative.
   * A zero increment makes the quotient infinite or NaN; its conversion gives
   * INT_MIN on the x86 targets this code is built for, so the loop does not run.
   */
  function Iterations(a: Analysis): (r: nat)
  {
    if a.increment == 0.0 then 0
    else
      var n := TruncToInt((a.stop - a.start) / a.increment);
      if n < 0 then 0 else n + 1
  }

  /** The value swept at step `k`. */
  function StepValue(a: Analysis, k: nat): (r: real)
  {
    a.start + (k as real) * a.increment
  }

  /** `val += increment` moves to the next step's value. */
  lemma StepValueNext(a: Analysis, k: nat)
    ensures StepValue(a, k + 1) == StepValue(a, k) + a.increment
  {
    assert ((k + 1) as real) * a.increment == (k as real) * a.increment + a.increment;
  }

  /**
   * For an upward sweep the values stay within [start, end], and the next
   * value after the last one would pass end.
   */
  lemma SweepCoversRange(a: Analysis)
    requires a.increment > 0.0 && a.start <= a.stop
    ensures Iterations(a) >= 1
    ensures forall k :: 0 <= k < Iterations(a) ==> a.start <= StepValue(a, k) <= a.stop
    ensures StepValue(a, Iterations(a)) > a.stop
  {
    var d := a.stop - a.start;
    FloorBounds(d, a.increment);
    var n := (d / a.increment).Floor;
    assert TruncToInt(d / a.increment) == n;
    assert Iterations(a) == n + 1;
    assert StepValue(a, n + 1) == a.start + ((n + 1) as real) * a.increment;
    forall k | 0 <= k < Iterations(a)
      ensures a.start <= StepValue(a, k) <= a.stop
    {
      StepWithin(a, n, k);
    }
  }

  /** `n = floor(d / c)` steps of `c` stay within `d`, one more passes it. */
  lemma FloorBounds(d: real, c: real)
    requires d >= 0.0 && c > 0.0
    ensures d / c >= 0.0
    ensures ((d / c).Floor as real) * c <= d
    ensures d < (((d / c).Floor + 1) as real) * c
  {
    var q := d / c;
    var n := q.Floor;
    assert q * c == d;
    if q < 0.0 {
      MulStrict(q, 0.0, c);
    }
    assert (n as real) <= q < (n as real) + 1.0;
    assert (n + 1) as real == (n as real) + 1.0;
    MulMonotone(n as real, q, c);
    MulStrict(q, (n + 1) as real, c);
    assert d < ((n + 1) as real) * c;
  }

  lemma StepWithin(a: Analysis, n: int, k: nat)
    requires a.increment > 0.0 && 0 <= k <= n
    requires (n as real) * a.increment <= a.stop - a.start
    ensures a.start <= StepValue(a, k) <= a.stop
  {
    MulMonotone(k as real, n as real, a.increment);
    MulMonotone(0.0, k as real, a.increment);
  }

  lemma MulMonotone(x: real, y: real, c: real)
    requires x <= y && c > 0.0
    ensures x * c <= y * c
  {
  }

  lemma MulStrict(x: real, y: real, c: real)
    requires x < y && c > 0.0
    ensures x * c < y * c
  {
  }

  datatype SourceKind = VoltageSource | CurrentSource | OtherSource

  /** Classified by `volt_source[0]`; an empty name reads the terminator. */
  function KindOfSource(name: string): (r: SourceKind)
  {
    if name == [] then OtherSource
    else if name[0] == 'V' || name[0] == 'v' then VoltageSource
    else if name[0] == 'I' || name[0] == 'i' then CurrentSource
    else OtherSource
  }

  /** The indices the stamp writes exist: the C code writes them unchecked. */
  predicate StampInRange(n: int, kind: SourceKind, voltIndex: int, probe1: int, probe2: int)
  {
    match kind
    case VoltageSource => 0 <= voltIndex < n
    case CurrentSource =>
      if probe1 == 0 then 1 <= probe2 <= n
      else if probe2 == 0 then 1 <= probe1 <= n
      else 1 <= probe1 <= n && 1 <= probe2 <= n
    case OtherSource => true
  }

  /** The right-hand side after one step's stamp. */
  function StampedRhs(b: seq<real>, kind: SourceKind, val: real, voltIndex: int, probe1: int, probe2: int): (r: seq<real>)
    requires StampInRange(|b|, kind, voltIndex, probe1, probe2)
  {
    match kind
    case VoltageSource => b[voltIndex := val]
    case CurrentSource =>
      if probe1 == 0 then b[probe2 - 1 := val]
      else if probe2 == 0 then b[probe1 - 1 := -val]
      else b[probe1 - 1 := -val][probe2 - 1 := val]
    case OtherSource => b
  }

  /** What the stamp writes, case by case; every entry it does not name keeps its value. */
  lemma StampEffect(b: seq<real>, kind: SourceKind, val: real, voltIndex: int, probe1: int, probe2: int)
    requires StampInRange(|b|, kind, voltIndex, probe1, probe2)
    ensures |StampedRhs(b, kind, val, voltIndex, probe1, probe2)| == |b|
    ensures kind == VoltageSource ==>
      var r := StampedRhs(b, kind, val, voltIndex, probe1, probe2);
      r[voltIndex] == val && forall k :: 0 <= k < |b| && k != voltIndex ==> r[k] == b[k]
    ensures kind == CurrentSource && probe1 == 0 ==>
      var r := StampedRhs(b, kind, val, voltIndex, probe1, probe2);
      r[probe2 - 1] == val && forall k :: 0 <= k < |b| && k != probe2 - 1 ==> r[k] == b[k]
    ensures kind == CurrentSource && probe1 != 0 && probe2 == 0 ==>
      var r := StampedRhs(b, kind, val, voltIndex, probe1, probe2);
      r[probe1 - 1] == -val && forall k :: 0 <= k < |b| && k != probe1 - 1 ==> r[k] == b[k]
    ensures kind == CurrentSource && probe1 != 0 && probe2 != 0 ==>
      var r := StampedRhs(b, kind, val, voltIndex, probe1, probe2);
      && r[probe2 - 1] == val
      && (probe1 != probe2 ==> r[probe1 - 1] == -val)
      && forall k :: 0 <= k < |b| && k != probe1 - 1 && k != probe2 - 1 ==> r[k] == b[k]
    ensures kind == OtherSource ==> StampedRhs(b, kind, val, voltIndex, probe1, probe2) == b
  {
  }



  method Stamp(b: array<real>, kind: SourceKind, val: real, voltIndex: int, probe1: int, probe2: int)
    requires StampInRange(b.Length, kind, voltIndex, probe1, probe2)
    modifies b
    ensures b[..] == StampedRhs(old(b[..]), kind, val, voltIndex, probe1, probe2)
  {
    if kind == VoltageSource {
      b[voltIndex] := val;
    } else if kind == CurrentSource {
      if probe1 == 0 {
        b[probe2 - 1] := val;
      } else if probe2 == 0 {
        b[probe1 - 1] := -val;
      } else {
        b[probe1 - 1] := -val;
        b[probe2 - 1] := val;
      }
    }
  }

  /** `x` with its first `size` entries set to zero. */
  function Zeroed(x: seq<real>, size: nat): (r: seq<real>)
    requires size <= |x|
    ensures |r| == |x|
    ensures forall k :: 0 <= k < size ==> r[k] == 0.0
    ensures forall k :: size <= k < |x| ==> r[k] == x[k]
  {
    seq(size, _ => 0.0) + x[size..]
  }

  /** `zero_out_vec(sol_x, size)`. */
  method ZeroOut(x: array<real>, size: nat)
    requires size <= x.Length
    modifies x
    ensures x[..] == Zeroed(old(x[..]), size)
  {
    var i := 0;
    while i < size
      invariant 0 <= i <= size
      invariant forall k :: 0 <= k < i ==> x[k] == 0.0
      invariant forall k :: i <= k < x.Length ==> x[k] == old(x[k])
    {
      x[i] := 0.0;
      i := i + 1;
    }
  }

  /** The solver keeps the length of the solution vector. */
  ghost predicate SolverKeepsLength(solve: (seq<real>, seq<real>) -> seq<real>)
  {
    forall r, x :: |solve(r, x)| == |x|
  }

  /**
   * The first `count` steps of a sweep that starts from right-hand side `b0`
   * and solution `x0`: each step stamps the previous right-hand side with its
   * value and hands it, with the previous solution, to the solver.
   */
  ghost function Steps(a: Analysis, b0: seq<real>, x0: seq<real>, voltIndex: int, probe1: int, probe2: int,
                       solve: (seq<real>, seq<real>) -> seq<real>, count: nat): (r: seq<StepRecord>)
    requires count > 0 ==> StampInRange(|b0|, KindOfSource(a.source), voltIndex, probe1, probe2)
    requires SolverKeepsLength(solve)
    ensures |r| == count
    ensures forall k :: 0 <= k < count ==> |r[k].rhs| == |b0| && |r[k].sol| == |x0|
    decreases count
  {
    if count == 0 then []
    else
      var prev := Steps(a, b0, x0, voltIndex, probe1, probe2, solve, count - 1);
      var rhs := StampedRhs(if count == 1 then b0 else prev[count - 2].rhs,
                            KindOfSource(a.source), StepValue(a, count - 1), voltIndex, probe1, probe2);
      prev + [StepRecord(StepValue(a, count - 1), rhs, solve(rhs, if count == 1 then x0 else prev[count - 2].sol))]
  }

  /**
   * Step `k` sweeps `start + k * increment`, stamps it onto the right-hand
   * side left by step `k - 1` (the initial one for step 0), and solves from
   * the solution of step `k - 1` (the zeroed vector for step 0); a longer
   * sweep begins with the same steps.
   */
  lemma {:induction false} StepsMeaning(a: Analysis, b0: seq<real>, x0: seq<real>, voltIndex: int, probe1: int, probe2: int,
                                        solve: (seq<real>, seq<real>) -> seq<real>, count: nat, k: nat)
    requires StampInRange(|b0|, KindOfSource(a.source), voltIndex, probe1, probe2)
    requires SolverKeepsLength(solve)
    requires k < count
    ensures var r := Steps(a, b0, x0, voltIndex, probe1, probe2, solve, count);
      && r[k].val == StepValue(a, k)
      && r[k].rhs == StampedRhs(if k == 0 then b0 else r[k - 1].rhs, KindOfSource(a.source), r[k].val, voltIndex, probe1, probe2)
      && r[k].sol == solve(r[k].rhs, if k == 0 then x0 else r[k - 1].sol)
      && r[..k + 1] == Steps(a, b0, x0, voltIndex, probe1, probe2, solve, k + 1)
    decreases count
  {
    if k < count - 1 {
      StepsMeaning(a, b0, x0, voltIndex, probe1, probe2, solve, count - 1, k);
      var prev := Steps(a, b0, x0, voltIndex, probe1, probe2, solve, count - 1);
      var r := Steps(a, b0, x0, voltIndex, probe1, probe2, solve, count);
      assert r[..count - 1] == prev;
      assert r[..k + 1] == prev[..k + 1];
    } else {
      var r := Steps(a, b0, x0, voltIndex, probe1, probe2, solve, count);
      assert r[..k + 1] == r;
    }
  }

  /** The rows of one node's file: each step's value and that node's solution entry. */
  function Column(trace: seq<StepRecord>, offset: int): (r: seq<SweepRow>)
    requires |trace| > 0 ==> 0 <= offset
    requires forall k :: 0 <= k < |trace| ==> offset < |trace[k].sol|
  {
    seq(|trace|, k requires 0 <= k < |trace| => SweepRow(trace[k].val, trace[k].sol[offset]))
  }

  /** The empty output files, one per probed node, in node order. */
  method OpenFiles(source: string, nodes: seq<string>) returns (files: seq<OutFile>)
    ensures |files| == |nodes|
    ensures forall j :: 0 <= j < |files| ==> files[j].name == FileName(source, nodes[j]) && files[j].rows == []
  {
    files := [];
    var j := 0;
    while j < |nodes|
      invariant 0 <= j <= |nodes|
      invariant |files| == j
      invariant forall m :: 0 <= m < j ==> files[m] == OutFile(FileName(source, nodes[m]), [])
    {
      files := files + [OutFile(FileName(source, nodes[j]), [])];
      j := j + 1;
    }
  }

  /** The output loop of one step: every file gets one more row, nothing else changes. */
  method WriteStep(files: seq<OutFile>, val: real, sol: seq<real>, offsets: seq<int>) returns (out: seq<OutFile>)
    requires |offsets| == |files|
    requires forall j :: 0 <= j < |offsets| ==> 0 <= offsets[j] < |sol|
    ensures |out| == |files|
    ensures forall j :: 0 <= j < |out| ==> out[j].name == files[j].name
    ensures forall j :: 0 <= j < |out| ==> out[j].rows == files[j].rows + [SweepRow(val, sol[offsets[j]])]
  {
    out := files;
    var m := 0;
    while m < |out|
      invariant 0 <= m <= |out| && |out| == |files|
      invariant forall q :: 0 <= q < |out| ==> out[q].name == files[q].name
      invariant forall q :: 0 <= q < m ==> out[q].rows == files[q].rows + [SweepRow(val, sol[offsets[q]])]
      invariant forall q :: m <= q < |out| ==> out[q] == files[q]
    {
      out := out[m := OutFile(out[m].name, out[m].rows + [SweepRow(val, sol[offsets[m]])])];
      m := m + 1;
    }
  }

  /** One step of the sweep before its output: stamp the value, then solve into `solX`. */
  method StampAndSolve(b: array<real>, solX: array<real>, kind: SourceKind, val: real,
                       voltIndex: int, probe1: int, probe2: int,
                       solve: (seq<real>, seq<real>) -> seq<real>) returns (sol: seq<real>)
    requires b != solX
    requires StampInRange(b.Length, kind, voltIndex, probe1, probe2)
    requires SolverKeepsLength(solve)
    modifies b, solX
    ensures b[..] == StampedRhs(old(b[..]), kind, val, voltIndex, probe1, probe2)
    ensures sol == solve(b[..], old(solX[..]))
    ensures solX[..] == sol
  {
    Stamp(b, kind, val, voltIndex, probe1, probe2);
    sol := solve(b[..], solX[..]);
    forall k | 0 <= k < solX.Length {
      solX[k] := sol[k];
    }
  }

  /** Each file is named for its node and holds that node's column of the steps so far. */
  predicate FilesHold(files: seq<OutFile>, source: string, nodes: seq<string>, trace: seq<StepRecord>, offsets: seq<int>)
  {
    && |files| == |nodes| == |offsets|
    && (|trace| > 0 ==> forall j :: 0 <= j < |offsets| ==> 0 <= offsets[j])
    && (forall j, k :: 0 <= j < |offsets| && 0 <= k < |trace| ==> offsets[j] < |trace[k].sol|)
    && (forall j :: 0 <= j < |files| ==> files[j] == OutFile(FileName(source, nodes[j]), Column(trace, offsets[j])))
  }

  lemma FilesHoldNext(files: seq<OutFile>, out: seq<OutFile>, source: string, nodes: seq<string>,
                      trace: seq<StepRecord>, r: StepRecord, offsets: seq<int>)
    requires FilesHold(files, source, nodes, trace, offsets)
    requires forall j :: 0 <= j < |offsets| ==> 0 <= offsets[j] < |r.sol|
    requires |out| == |files|
    requires forall j :: 0 <= j < |out| ==> out[j].name == files[j].name
    requires forall j :: 0 <= j < |out| ==> out[j].rows == files[j].rows + [SweepRow(r.val, r.sol[offsets[j]])]
    ensures FilesHold(out, source, nodes, trace + [r], offsets)
  {
    var t := trace + [r];
    forall j | 0 <= j < |out|
      ensures out[j] == OutFile(FileName(source, nodes[j]), Column(t, offsets[j]))
    {
      assert out[j].rows == Column(t, offsets[j]);
    }
  }

  /** One more step extends the trace by the record of that step. */
  lemma StepsNext(a: Analysis, b0: seq<real>, x0: seq<real>, voltIndex: int, probe1: int, probe2: int,
                  solve: (seq<real>, seq<real>) -> seq<real>, step: nat, rhs: seq<real>, sol: seq<real>)
    requires StampInRange(|b0|, KindOfSource(a.source), voltIndex, probe1, probe2)
    requires SolverKeepsLength(solve)
    requires var prev := Steps(a, b0, x0, voltIndex, probe1, probe2, solve, step);
      && rhs == StampedRhs(if step == 0 then b0 else prev[step - 1].rhs, KindOfSource(a.source),
                           StepValue(a, step), voltIndex, probe1, probe2)
      && sol == solve(rhs, if step == 0 then x0 else prev[step - 1].sol)
    ensures Steps(a, b0, x0, voltIndex, probe1, probe2, solve, step + 1)
      == Steps(a, b0, x0, voltIndex, probe1, probe2, solve, step) + [StepRecord(StepValue(a, step), rhs, sol)]
  {
  }

  /** The right-hand side the next step starts from: the last one stamped, or `b0` before the first step. */
  function LastRhs(b0: seq<real>, trace: seq<StepRecord>): (r: seq<real>)
  {
    if trace == [] then b0 else trace[|trace| - 1].rhs
  }

  /** The solution the next step starts from: the last one computed, or `x0` before the first step. */
  function LastSol(x0: seq<real>, trace: seq<StepRecord>): (r: seq<real>)
  {
    if trace == [] then x0 else trace[|trace| - 1].sol
  }

  /** One pass of the step loop: stamp and solve, then write one row to every file. */
  method SweepStep(a: Analysis, b: array<real>, solX: array<real>, voltIndex: int, probe1: int, probe2: int,
                   offsets: seq<int>, solve: (seq<real>, seq<real>) -> seq<real>,
                   ghost b0: seq<real>, ghost x0: seq<real>, step: nat, val: real,
                   files: seq<OutFile>, ghost trace: seq<StepRecord>)
    returns (out: seq<OutFile>, ghost next: seq<StepRecord>)
    requires b != solX && |b0| == b.Length && |x0| == solX.Length
    requires StampInRange(b.Length, KindOfSource(a.source), voltIndex, probe1, probe2)
    requires forall j :: 0 <= j < |offsets| ==> 0 <= offsets[j] < solX.Length
    requires SolverKeepsLength(solve)
    requires val == StepValue(a, step)
    requires trace == Steps(a, b0, x0, voltIndex, probe1, probe2, solve, step)
    requires b[..] == LastRhs(b0, trace) && solX[..] == LastSol(x0, trace)
    requires FilesHold(files, a.source, a.nodes, trace, offsets)
    modifies b, solX
    ensures next == Steps(a, b0, x0, voltIndex, probe1, probe2, solve, step + 1)
    ensures b[..] == LastRhs(b0, next) && solX[..] == LastSol(x0, next)
    ensures FilesHold(out, a.source, a.nodes, next, offsets)
  {
    var sol := StampAndSolve(b, solX, KindOfSource(a.source), val, voltIndex, probe1, probe2, solve);
    StepsNext(a, b0, x0, voltIndex, probe1, probe2, solve, step, b[..], sol);
    ghost var r := StepRecord(val, b[..], sol);
    out := WriteStep(files, val, sol, offsets);
    FilesHoldNext(files, out, a.source, a.nodes, trace, r, offsets);
    next := trace + [r];
  }

  /**
   * The indices the step loop uses are valid: the stamp targets in `b` (of
   * length `n`) and the offsets read from `sol_x` (of length `m`). Only the
   * loop uses them, so a sweep that runs no step constrains nothing.
   */
  predicate StepIndicesValid(a: Analysis, n: int, m: int, voltIndex: int, probe1: int, probe2: int, offsets: seq<int>)
  {
    Iterations(a) > 0 ==>
      && StampInRange(n, KindOfSource(a.source), voltIndex, probe1, probe2)
      && (forall j :: 0 <= j < |offsets| ==> 0 <= offsets[j] < m)
  }

  /** The step loop of `dc_sweep`, from the zeroed solution vector. */
  method RunSteps(a: Analysis, b: array<real>, solX: array<real>, voltIndex: int, probe1: int, probe2: int,
                  offsets: seq<int>, solve: (seq<real>, seq<real>) -> seq<real>, files0: seq<OutFile>)
    returns (files: seq<OutFile>, ghost trace: seq<StepRecord>)
    requires b != solX
    requires StepIndicesValid(a, b.Length, solX.Length, voltIndex, probe1, probe2, offsets)
    requires SolverKeepsLength(solve)
    requires FilesHold(files0, a.source, a.nodes, [], offsets)
    modifies b, solX
    ensures trace == Steps(a, old(b[..]), old(solX[..]), voltIndex, probe1, probe2, solve, Iterations(a))
    ensures b[..] == LastRhs(old(b[..]), trace) && solX[..] == LastSol(old(solX[..]), trace)
    ensures FilesHold(files, a.source, a.nodes, trace, offsets)
  {
    files := files0;
    var val := a.start;
    var nSteps := Iterations(a);
    ghost var b0 := b[..];
    ghost var x0 := solX[..];
    trace := [];
    var step := 0;
    while step < nSteps
      invariant 0 <= step <= nSteps
      invariant val == StepValue(a, step)
      invariant trace == Steps(a, b0, x0, voltIndex, probe1, probe2, solve, step)
      invariant b[..] == LastRhs(b0, trace) && solX[..] == LastSol(x0, trace)
      invariant FilesHold(files, a.source, a.nodes, trace, offsets)
    {
      files, trace := SweepStep(a, b, solX, voltIndex, probe1, probe2, offsets, solve,
                                b0, x0, step, val, files, trace);
      StepValueNext(a, step);
      val := val + a.increment;
      step := step + 1;
    }
  }

  /**
   * One analysis whose source element was found: open one file per node,
   * zero the solution, then for every step stamp the right-hand side, solve,
   * and write one row per node. `offsets[j]` is `ht_get_id(nodes[j]) - 1`.
   */
  method SweepOne(a: Analysis, b: array<real>, solX: array<real>, size: nat,
                  voltIndex: int, probe1: int, probe2: int, offsets: seq<int>,
                  solve: (seq<real>, seq<real>) -> seq<real>)
    returns (files: seq<OutFile>, ghost trace: seq<StepRecord>)
    requires b != solX
    requires size <= solX.Length
    requires StepIndicesValid(a, b.Length, solX.Length, voltIndex, probe1, probe2, offsets)
    requires |offsets| == |a.nodes|
    requires SolverKeepsLength(solve)
    modifies b, solX
    ensures trace == Steps(a, old(b[..]), Zeroed(old(solX[..]), size), voltIndex, probe1, probe2, solve, Iterations(a))
    ensures b[..] == LastRhs(old(b[..]), trace) && solX[..] == LastSol(Zeroed(old(solX[..]), size), trace)
    ensures |files| == |a.nodes|
    ensures forall j :: 0 <= j < |files| ==>
      files[j] == OutFile(FileName(a.source, a.nodes[j]), Column(trace, offsets[j]))
  {
    var empty := OpenFiles(a.source, a.nodes);
    ZeroOut(solX, size);
    files, trace := RunSteps(a, b, solX, voltIndex, probe1, probe2, offsets, solve, empty);
  }

  /** A finished sweep: the index of the element swept and the files written. */
  datatype SweepRun = SweepRun(element: nat, files: seq<OutFile>)

  /** Whether some element of the list is named `source`. */
  predicate HasElement(head: seq<Element>, source: string)
  {
    exists k :: 0 <= k < |head| && head[k].name == source
  }

  /** A file of analysis `a`: one row per step, the swept value in its first column. */
  predicate RowsFollowSweep(f: OutFile, a: Analysis)
  {
    |f.rows| == Iterations(a) && forall k :: 0 <= k < |f.rows| ==> f.rows[k].step == StepValue(a, k)
  }

  /** `r` sweeps the first element named like the source of `a`, one file per node. */
  predicate RunFits(head: seq<Element>, a: Analysis, r: SweepRun)
  {
    && r.element < |head| && head[r.element].name == a.source
    && (forall k :: 0 <= k < r.element ==> head[k].name != a.source)
    && |r.files| == |a.nodes|
    && (forall j :: 0 <= j < |r.files| ==> r.files[j].name == FileName(a.source, a.nodes[j]))
    && (forall j :: 0 <= j < |r.files| ==> RowsFollowSweep(r.files[j], a))
  }

  /** Element `k` is the first one named `source`, the one `dc_sweep` stops at. */
  predicate FirstNamed(head: seq<Element>, source: string, k: int)
  {
    && 0 <= k < |head| && head[k].name == source
    && forall k' :: 0 <= k' < k ==> head[k'].name != source
  }

  /** Every probed node of `a` is a non-ground node with an entry of `sol_x` (of length `m`). */
  predicate NodesInRange(a: Analysis, m: int, nodeId: string -> int)
  {
    forall j :: 0 <= j < |a.nodes| ==> 0 <= nodeId(a.nodes[j]) - 1 < m
  }

  /**
   * The indices a sweep of `a` touches are valid. Only the first element
   * named like the source is swept, so only its probes and the nodes of `a`
   * are constrained, only when there is such an element, and only when the
   * sweep runs a step (the stamp and the `sol_x` reads are in the step loop).
   */
  predicate AnalysisIndicesValid(head: seq<Element>, a: Analysis, n: int, m: int,
                                 g2Index: string -> int, nodeId: string -> int)
  {
    Iterations(a) > 0 ==> forall k :: 0 <= k < |head| && FirstNamed(head, a.source, k) ==>
      && StampInRange(n, KindOfSource(a.source), g2Index(a.source), nodeId(head[k].probe1), nodeId(head[k].probe2))
      && NodesInRange(a, m, nodeId)
  }

  /** An analysis whose source names no element constrains nothing, whatever nodes it probes. */
  lemma AbsentSourceUnconstrained(head: seq<Element>, a: Analysis, n: int, m: int,
                                  g2Index: string -> int, nodeId: string -> int)
    requires !HasElement(head, a.source)
    ensures AnalysisIndicesValid(head, a, n, m, g2Index, nodeId)
  {
  }

  /**
   * A sweep that runs no step indexes nothing: from 5 down to 0 by a positive
   * increment, probing ground, is a valid analysis.
   */
  lemma EmptySweepUnconstrained()
    ensures Iterations(Analysis("V1", 5.0, 0.0, 1.0, ["0"])) == 0
    ensures AnalysisIndicesValid([Element("V1", "1", "0")], Analysis("V1", 5.0, 0.0, 1.0, ["0"]), 3, 3,
                                 _ => 0, s => if s == "1" then 1 else 0)
  {
    assert TruncToInt((0.0 - 5.0) / 1.0) == -5;
  }

  /**
   * Only the first element named like the source matters: a second `I1`
   * whose probes are out of range does not make the analysis invalid.
   */
  lemma LaterNamesakeUnconstrained()
    ensures AnalysisIndicesValid([Element("I1", "1", "0"), Element("I1", "9", "9")],
                                 Analysis("I1", 0.0, 1.0, 1.0, ["1"]), 3, 3, _ => 0,
                                 s => if s == "1" then 1 else if s == "0" then 0 else 9)
  {
    var head := [Element("I1", "1", "0"), Element("I1", "9", "9")];
    assert !FirstNamed(head, "I1", 1) by {
      assert head[0].name == "I1";
    }
  }

  /** The element indices a sweep may touch are valid for every analysis. */
  predicate SweepIndicesValid(head: seq<Element>, analyses: seq<Analysis>, n: int, m: int,
                              g2Index: string -> int, nodeId: string -> int)
  {
    forall i :: 0 <= i < |analyses| ==> AnalysisIndicesValid(head, analyses[i], n, m, g2Index, nodeId)
  }

  /**
   * What one analysis does to the right-hand side `b` and the solution `x`
   * (becoming `b'` and `x'`) and which run it reports. Without an element
   * named like the source nothing happens. Otherwise the first such element
   * is swept from `b` and the zeroed `x`; file `j` holds the column of node
   * `j` over that sweep, and `b'` and `x'` are the vectors of its last step
   * (the stamped source value and the solution are not restored).
   */
  ghost predicate AnalysisStep(head: seq<Element>, a: Analysis, run: Option<SweepRun>,
                               b: seq<real>, x: seq<real>, b': seq<real>, x': seq<real>, size: nat,
                               g2Index: string -> int, nodeId: string -> int,
                               solve: (seq<real>, seq<real>) -> seq<real>)
  {
    && size <= |x|
    && AnalysisIndicesValid(head, a, |b|, |x|, g2Index, nodeId)
    && SolverKeepsLength(solve)
    && (run.Some? <==> HasElement(head, a.source))
    && (run.None? ==> b' == b && x' == x)
    && (run.Some? ==> RunFits(head, a, run.value) && SweptFrom(head, a, run.value, b, x, b', x', size, g2Index, nodeId, solve))
  }

  /** The files and final vectors of run `r`, swept from `b` and the zeroed `x`. */
  ghost predicate SweptFrom(head: seq<Element>, a: Analysis, r: SweepRun,
                            b: seq<real>, x: seq<real>, b': seq<real>, x': seq<real>, size: nat,
                            g2Index: string -> int, nodeId: string -> int,
                            solve: (seq<real>, seq<real>) -> seq<real>)
    requires size <= |x|
    requires AnalysisIndicesValid(head, a, |b|, |x|, g2Index, nodeId)
    requires SolverKeepsLength(solve)
    requires RunFits(head, a, r)
  {
    var e := r.element;
    var x0 := Zeroed(x, size);
    var tr := Steps(a, b, x0, g2Index(a.source), nodeId(head[e].probe1), nodeId(head[e].probe2), solve, Iterations(a));
    && (forall j :: 0 <= j < |r.files| ==> r.files[j].rows == Column(tr, nodeId(a.nodes[j]) - 1))
    && b' == LastRhs(b, tr)
    && x' == LastSol(x0, tr)
  }

  /** Every column of a sweep trace starts each row with that step's value. */
  lemma ColumnsFollowSweep(a: Analysis, b0: seq<real>, x0: seq<real>, voltIndex: int, probe1: int, probe2: int,
                           solve: (seq<real>, seq<real>) -> seq<real>, files: seq<OutFile>, offsets: seq<int>)
    requires StepIndicesValid(a, |b0|, |x0|, voltIndex, probe1, probe2, offsets)
    requires SolverKeepsLength(solve)
    requires |files| == |offsets|
    requires forall j :: 0 <= j < |files| ==>
      files[j].rows == Column(Steps(a, b0, x0, voltIndex, probe1, probe2, solve, Iterations(a)), offsets[j])
    ensures forall j :: 0 <= j < |files| ==> RowsFollowSweep(files[j], a)
  {
    forall j | 0 <= j < |files|
      ensures RowsFollowSweep(files[j], a)
    {
      forall k | 0 <= k < |files[j].rows|
        ensures files[j].rows[k].step == StepValue(a, k)
      {
        StepsMeaning(a, b0, x0, voltIndex, probe1, probe2, solve, Iterations(a), k);
      }
    }
  }

  /** A sweep of the first element named like the source, one column per node, fits the analysis. */
  lemma FoundRunFits(head: seq<Element>, a: Analysis, e: nat, files: seq<OutFile>, tr: seq<StepRecord>,
                     b: seq<real>, x0: seq<real>, offsets: seq<int>,
                     g2Index: string -> int, nodeId: string -> int, solve: (seq<real>, seq<real>) -> seq<real>)
    requires e < |head| && head[e].name == a.source
    requires forall k :: 0 <= k < e ==> head[k].name != a.source
    requires StepIndicesValid(a, |b|, |x0|, g2Index(a.source), nodeId(head[e].probe1), nodeId(head[e].probe2), offsets)
    requires SolverKeepsLength(solve)
    requires |files| == |offsets| == |a.nodes|
    requires tr == Steps(a, b, x0, g2Index(a.source), nodeId(head[e].probe1), nodeId(head[e].probe2), solve, Iterations(a))
    requires forall j :: 0 <= j < |files| ==> files[j] == OutFile(FileName(a.source, a.nodes[j]), Column(tr, offsets[j]))
    ensures RunFits(head, a, SweepRun(e, files))
  {
    ColumnsFollowSweep(a, b, x0, g2Index(a.source), nodeId(head[e].probe1), nodeId(head[e].probe2),
                       solve, files, offsets);
  }

  /** A sweep of the first element named like the source is the analysis step `AnalysisStep` describes. */
  lemma FoundStep(head: seq<Element>, a: Analysis, e: nat, files: seq<OutFile>, tr: seq<StepRecord>, offsets: seq<int>,
                  b: seq<real>, x: seq<real>, b': seq<real>, x': seq<real>, size: nat,
                  g2Index: string -> int, nodeId: string -> int, solve: (seq<real>, seq<real>) -> seq<real>)
    requires size <= |x|
    requires AnalysisIndicesValid(head, a, |b|, |x|, g2Index, nodeId)
    requires SolverKeepsLength(solve)
    requires e < |head| && head[e].name == a.source
    requires forall k :: 0 <= k < e ==> head[k].name != a.source
    requires |files| == |offsets| == |a.nodes|
    requires forall j :: 0 <= j < |offsets| ==> offsets[j] == nodeId(a.nodes[j]) - 1
    requires tr == Steps(a, b, Zeroed(x, size), g2Index(a.source), nodeId(head[e].probe1), nodeId(head[e].probe2),
                         solve, Iterations(a))
    requires forall j :: 0 <= j < |files| ==> files[j] == OutFile(FileName(a.source, a.nodes[j]), Column(tr, offsets[j]))
    requires b' == LastRhs(b, tr) && x' == LastSol(Zeroed(x, size), tr)
    ensures RunFits(head, a, SweepRun(e, files))
    ensures AnalysisStep(head, a, Some(SweepRun(e, files)), b, x, b', x', size, g2Index, nodeId, solve)
  {
    FoundRunFits(head, a, e, files, tr, b, Zeroed(x, size), offsets, g2Index, nodeId, solve);
    assert HasElement(head, a.source);
    FoundSwept(head, a, SweepRun(e, files), tr, offsets, b, x, b', x', size, g2Index, nodeId, solve);
  }

  /** The files and vectors of a sweep are the ones `SweptFrom` names. */
  lemma FoundSwept(head: seq<Element>, a: Analysis, r: SweepRun, tr: seq<StepRecord>, offsets: seq<int>,
                   b: seq<real>, x: seq<real>, b': seq<real>, x': seq<real>, size: nat,
                   g2Index: string -> int, nodeId: string -> int, solve: (seq<real>, seq<real>) -> seq<real>)
    requires size <= |x|
    requires AnalysisIndicesValid(head, a, |b|, |x|, g2Index, nodeId)
    requires SolverKeepsLength(solve)
    requires RunFits(head, a, r)
    requires |offsets| == |r.files|
    requires forall j :: 0 <= j < |offsets| ==> offsets[j] == nodeId(a.nodes[j]) - 1
    requires tr == Steps(a, b, Zeroed(x, size), g2Index(a.source), nodeId(head[r.element].probe1),
                         nodeId(head[r.element].probe2), solve, Iterations(a))
    requires forall j :: 0 <= j < |r.files| ==> r.files[j].rows == Column(tr, offsets[j])
    requires b' == LastRhs(b, tr) && x' == LastSol(Zeroed(x, size), tr)
    ensures SweptFrom(head, a, r, b, x, b', x', size, g2Index, nodeId, solve)
  {
    forall j | 0 <= j < |r.files|
      ensures r.files[j].rows == Column(tr, nodeId(a.nodes[j]) - 1)
    {
      assert offsets[j] == nodeId(a.nodes[j]) - 1;
    }
  }

  /**
   * One iteration of `dc_sweep`'s outer loop: look the source up and, when an
   * element has its name, sweep the first such element.
   */
  method SweepAnalysis(head: seq<Element>, a: Analysis, b: array<real>, solX: array<real>, size: nat,
                       g2Index: string -> int, nodeId: string -> int, solve: (seq<real>, seq<real>) -> seq<real>)
    returns (run: Option<SweepRun>)
    requires b != solX
    requires size <= solX.Length
    requires AnalysisIndicesValid(head, a, b.Length, solX.Length, g2Index, nodeId)
    requires SolverKeepsLength(solve)
    modifies b, solX
    ensures run.Some? <==> HasElement(head, a.source)
    ensures run.Some? ==> RunFits(head, a, run.value)
    ensures AnalysisStep(head, a, run, old(b[..]), old(solX[..]), b[..], solX[..], size, g2Index, nodeId, solve)
  {
    var found := FindSource(head, a.source);
    match found {
      case None =>
        run := None;
      case Some(e) =>
        var offsets := seq(|a.nodes|, j requires 0 <= j < |a.nodes| => nodeId(a.nodes[j]) - 1);
        ghost var b0 := b[..];
        ghost var x0 := solX[..];
        var files;
        ghost var trace;
        files, trace := SweepOne(a, b, solX, size, g2Index(a.source),
                                 nodeId(head[e].probe1), nodeId(head[e].probe2), offsets, solve);
        FoundStep(head, a, e, files, trace, offsets, b0, x0, b[..], solX[..], size, g2Index, nodeId, solve);
        run := Some(SweepRun(e, files));
    }
  }

  /**
   * `starts` and `sols` chain the analyses: analysis `i` turns `starts[i]`,
   * `sols[i]` into `starts[i + 1]`, `sols[i + 1]` and reports `runs[i]`.
   */
  ghost predicate SweepChain(head: seq<Element>, analyses: seq<Analysis>, runs: seq<Option<SweepRun>>,
                             starts: seq<seq<real>>, sols: seq<seq<real>>, size: nat,
                             g2Index: string -> int, nodeId: string -> int,
                             solve: (seq<real>, seq<real>) -> seq<real>)
  {
    && |runs| <= |analyses|
    && |starts| == |sols| == |runs| + 1
    && forall i :: 0 <= i < |runs| ==>
         AnalysisStep(head, analyses[i], runs[i], starts[i], sols[i], starts[i + 1], sols[i + 1], size, g2Index, nodeId, solve)
  }

  /** A chain extends by one more analysis step. */
  lemma SweepChainNext(head: seq<Element>, analyses: seq<Analysis>, runs: seq<Option<SweepRun>>,
                       starts: seq<seq<real>>, sols: seq<seq<real>>, run: Option<SweepRun>,
                       b': seq<real>, x': seq<real>, size: nat,
                       g2Index: string -> int, nodeId: string -> int, solve: (seq<real>, seq<real>) -> seq<real>)
    requires SweepChain(head, analyses, runs, starts, sols, size, g2Index, nodeId, solve)
    requires |runs| < |analyses|
    requires AnalysisStep(head, analyses[|runs|], run, starts[|runs|], sols[|runs|], b', x', size, g2Index, nodeId, solve)
    ensures SweepChain(head, analyses, runs + [run], starts + [b'], sols + [x'], size, g2Index, nodeId, solve)
  {
    var runs', starts', sols' := runs + [run], starts + [b'], sols + [x'];
    forall i | 0 <= i < |runs'|
      ensures AnalysisStep(head, analyses[i], runs'[i], starts'[i], sols'[i], starts'[i + 1], sols'[i + 1],
                           size, g2Index, nodeId, solve)
    {
      if i < |runs| {
        assert runs'[i] == runs[i] && starts'[i] == starts[i] && sols'[i] == sols[i];
        assert starts'[i + 1] == starts[i + 1] && sols'[i + 1] == sols[i + 1];
      }
    }
  }

  /** Along a chain, a run exists exactly when the source names an element, and then fits. */
  lemma SweepChainRuns(head: seq<Element>, analyses: seq<Analysis>, runs: seq<Option<SweepRun>>,
                       starts: seq<seq<real>>, sols: seq<seq<real>>, size: nat,
                       g2Index: string -> int, nodeId: string -> int, solve: (seq<real>, seq<real>) -> seq<real>)
    requires SweepChain(head, analyses, runs, starts, sols, size, g2Index, nodeId, solve)
    ensures forall i :: 0 <= i < |runs| ==> (runs[i].Some? <==> HasElement(head, analyses[i].source))
    ensures forall i :: 0 <= i < |runs| && runs[i].Some? ==> RunFits(head, analyses[i], runs[i].value)
  {
    forall i | 0 <= i < |runs|
      ensures runs[i].Some? <==> HasElement(head, analyses[i].source)
      ensures runs[i].Some? ==> RunFits(head, analyses[i], runs[i].value)
    {
      assert AnalysisStep(head, analyses[i], runs[i], starts[i], sols[i], starts[i + 1], sols[i + 1],
                          size, g2Index, nodeId, solve);
    }
  }

  /**
   * `dc_sweep` over the `dc_counter` analyses: an analysis whose source names
   * no element produces nothing; otherwise the first element with that name
   * is swept, one file per probed node, `Iterations` rows per file. Each
   * analysis starts from the right-hand side and solution the previous one
   * left (`starts[i]`, `sols[i]`): nothing restores them in between.
   */
  method DcSweep(head: seq<Element>, analyses: seq<Analysis>, b: array<real>, solX: array<real>, size: nat,
                 g2Index: string -> int, nodeId: string -> int, solve: (seq<real>, seq<real>) -> seq<real>)
    returns (runs: seq<Option<SweepRun>>, ghost starts: seq<seq<real>>, ghost sols: seq<seq<real>>)
    requires b != solX
    requires size <= solX.Length
    requires SweepIndicesValid(head, analyses, b.Length, solX.Length, g2Index, nodeId)
    requires SolverKeepsLength(solve)
    modifies b, solX
    ensures |runs| == |analyses|
    ensures forall i :: 0 <= i < |runs| ==> (runs[i].Some? <==> HasElement(head, analyses[i].source))
    ensures forall i :: 0 <= i < |runs| && runs[i].Some? ==> RunFits(head, analyses[i], runs[i].value)
    ensures |starts| == |sols| == |analyses| + 1
    ensures starts[0] == old(b[..]) && sols[0] == old(solX[..])
    ensures starts[|analyses|] == b[..] && sols[|analyses|] == solX[..]
    ensures SweepChain(head, analyses, runs, starts, sols, size, g2Index, nodeId, solve)
  {
    runs := [];
    starts := [b[..]];
    sols := [solX[..]];
    var i := 0;
    while i < |analyses|
      invariant 0 <= i <= |analyses|
      invariant |runs| == i
      invariant SweepChain(head, analyses, runs, starts, sols, size, g2Index, nodeId, solve)
      invariant starts[0] == old(b[..]) && sols[0] == old(solX[..])
      invariant starts[i] == b[..] && sols[i] == solX[..]
    {
      var run := SweepAnalysis(head, analyses[i], b, solX, size, g2Index, nodeId, solve);
      SweepChainNext(head, analyses, runs, starts, sols, run, b[..], solX[..], size, g2Index, nodeId, solve);
      runs := runs + [run];
      starts := starts + [b[..]];
      sols := sols + [solX[..]];
      i := i + 1;
    }
    SweepChainRuns(head, analyses, runs, starts, sols, size, g2Index, nodeId, solve);
  }
}
