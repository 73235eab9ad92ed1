/**
 * The sweeps of the individual scripts, as instances of the shared harness,
 * and what follows for each of them.
 */
module Harnesses {
  import opened Gates
  import opened Sweep
  import RandomFiles

  /** `func(n + 1, d + 1)` over `range(depth)`, nothing caught (the cirq, qiskit, pyquil and projectq random circuits, qiskit/qiskit_t_nn.py, qcgpu/qcgpu_t_nn.py). */
  const FuncSweep := Harness(false, EveryDepth, Propagate, NoSim, true)

  /** `func(n + 1, d + 1)` over `[4, 9, 14, 19]`, nothing caught (qiskit_sycamore.py and the approximations). */
  const FuncCurated := Harness(false, Curated, Propagate, NoSim, true)

  /** `func(n + 1)` with no depth loop (the QFT scripts that build their circuit per call). */
  const FuncQft := Harness(false, NoDepth, Propagate, NoSim, true)

  /** cirq_sycamore.py: as FuncSweep, except that `--single` sets `low = qubits`. */
  const CirqSycamoreAsWritten := Harness(true, EveryDepth, Propagate, NoSim, true)

  /** qiskit_qrack_t_nn_d.py: one QasmSimulator for the sweep, re-created after a -999 row. */
  const SharedSentinel := Harness(false, EveryDepth, WriteSentinel(true), Shared, true)

  /** pyqrack_random_circuit.py: one simulator per width, deleted at the width's end, nothing caught. */
  const PerWidthSweep := Harness(false, EveryDepth, Propagate, PerWidth, true)

  /** pyqrack_random_circuit_extended.py, pyqrack_single_qubits.py, pyqrack_random_ccx.py. */
  const PerWidthCurated := Harness(false, Curated, Propagate, PerWidth, true)

  /** pyqrack_dense.py, pyqrack_dense_nearest_neighbor.py: per-width simulator, -999 and re-creation on failure. */
  const PerWidthSentinel := Harness(false, EveryDepth, WriteSentinel(true), PerWidth, true)

  /** pyqrack/pyqrack_sycamore.py: only the depth `depth - 1`, per-width simulator, -999 and re-creation. */
  const LastDepthSentinel := Harness(false, LastDepth, WriteSentinel(true), PerWidth, true)

  /** pyqrack_nearest_neighbor.py: `range(20)` whatever `--depth` says. */
  const NearestNeighborAsWritten := Harness(false, Twenty, Propagate, PerWidth, true)

  /** pyqrack_nearest_neighbor.py with the depth loop over `range(depth)`, the same list at the default depth of 20. */
  const NearestNeighbor := Harness(false, EveryDepth, Propagate, PerWidth, true)

  /** pyqrack_sycamore.py: bench returns 'failure' when its measurement raises; a new simulator per width, the old one only rebound. */
  const ReportsFailureKept := Harness(false, EveryDepth, ReportsFailure, PerWidthKept, true)

  /** pyqrack/pyqrack_t_nn.py: `bench(n, d + 1)` on n qubits, recorded as n + 1, nothing caught. */
  const TnnAsWritten := Harness(false, LastDepth, Propagate, NoSim, false)

  /** pyqrack/pyqrack_euler_nn.py: `bench(n, d + 1)` on n qubits, recorded as n + 1, a -999 row on failure. */
  const EulerNnAsWritten := Harness(false, LastDepth, WriteSentinel(false), NoSim, false)

  /** pyqrack/pyqrack_qft_single_qubit.py: `bench(sim, n)` takes n steps, recorded as n + 1. */
  const QftSingleQubitAsWritten := Harness(false, NoDepth, WriteSentinel(true), PerWidth, false)

  /** pyqrack/pyqrack_test_qft_cosmology.py: the same sweep, `bench(sim, n)` recorded as n + 1, -999 and re-creation. */
  const CosmologyAsWritten := Harness(false, NoDepth, WriteSentinel(true), PerWidth, false)

  /** A harness with `low = qubits - 1` under `--single` whose bench runs the width it records. */
  function Corrected(h: Harness): (c: Harness)
    ensures !c.singleLowIsQubits && c.runsRecordedWidth
    ensures c.plan == h.plan && c.onFailure == h.onFailure && c.sim == h.sim
  {
    h.(singleLowIsQubits := false, runsRecordedWidth := true)
  }

  // ---------------------------------------------------------------------
  // Width off-by-one

  /**
   * In pyqrack/pyqrack_t_nn.py, pyqrack/pyqrack_euler_nn.py,
   * pyqrack/pyqrack_qft_single_qubit.py and pyqrack/pyqrack_test_qft_cosmology.py
   * every row a trial writes records a width one more than the circuit its
   * bench call ran.
   */
  lemma NarrowRuns(h: Harness, fails: (int, int, nat) -> Stage, n: int, d: int, i: nat)
    requires h in {TnnAsWritten, EulerNnAsWritten, QftSingleQubitAsWritten, CosmologyAsWritten}
    ensures var t := Trial(h, fails, n, d, i);
      !t.aborted ==>
        |Rows(t.events)| == 1
        && Rows(t.events)[0].width == t.events[0].width + 1
        && Rows(t.events)[0].depth == t.events[0].depth
  {
    TrialRecordsRun(h, fails, n, d, i);
  }

  /** With the recorded width passed to bench, each row records the circuit that ran. */
  lemma CorrectedRecordsRun(h: Harness, fails: (int, int, nat) -> Stage, n: int, d: int, i: nat)
    ensures var t := Trial(Corrected(h), fails, n, d, i);
      !t.aborted ==>
        |Rows(t.events)| == 1
        && Rows(t.events)[0].width == t.events[0].width
        && Rows(t.events)[0].depth == t.events[0].depth
  {
    TrialRecordsRun(Corrected(h), fails, n, d, i);
  }

  // ---------------------------------------------------------------------
  // `--single` in cirq_sycamore.py

  /** With `--single`, `range(qubits, qubits)` is empty: the sweep runs nothing and writes no row. */
  lemma CirqSycamoreSingleWritesNothing(o: Options, fails: (int, int, nat) -> Stage)
    requires o.single
    ensures Widths(CirqSycamoreAsWritten, o) == []
    ensures SweepLog(CirqSycamoreAsWritten, o, fails) == Log([], false)
  {
    var h := CirqSycamoreAsWritten;
    assert Low(h, o) == o.qubits;
    assert Widths(h, o) == Stride(o.qubits, 1, 0);
    assert Start(h) + [] == [];
  }

  /**
   * With `low = qubits - 1`, `--single` sweeps the one width `qubits - 1`:
   * a sweep no failure ends writes `samples` rows per depth, all recording
   * `num_qubits = qubits`.
   */
  lemma SingleSweepsOneWidth(h: Harness, o: Options, fails: (int, int, nat) -> Stage)
    requires o.single && !h.singleLowIsQubits && Survives(h, o, fails)
    ensures Widths(h, o) == [o.qubits - 1]
    ensures |Rows(SweepLog(h, o, fails).events)| == |Depths(h.plan, o.depth)| * o.samples
    ensures forall r | r in Rows(SweepLog(h, o, fails).events) :: r.width == o.qubits
  {
    WidthsRange(h, o);
    SweepRows(h, o, fails);
    RowsInGrid(h, o, fails);
    SingleGridKeys(h, o);
  }

  /** With `low = qubits - 1`, every cell of the `--single` grid records `num_qubits = qubits`. */
  lemma SingleGridKeys(h: Harness, o: Options)
    requires o.single && !h.singleLowIsQubits
    ensures forall k | k in GridKeys(h, o) :: k.0 == o.qubits
  {
    forall k | k in GridKeys(h, o) ensures k.0 == o.qubits {
      var n, d :| Low(h, o) <= n < o.qubits && d in Depths(h.plan, o.depth) && k == CellKey(h.plan, n, d);
    }
  }

  // ---------------------------------------------------------------------
  // The progress counter of pyqrack_nearest_neighbor.py

  /** `range(20)` under `--depth` below 20 prints a progress of 1 or more at the last cell. */
  lemma NearestNeighborOverruns(o: Options)
    requires 0 < o.depth < 20 && Low(NearestNeighborAsWritten, o) < o.qubits
    ensures var p := Progress(NearestNeighborAsWritten, o, o.qubits - 1, 19);
      p.Some? && p.value.0 >= p.value.1
  {
    TwentyOverruns(NearestNeighborAsWritten, o);
  }

  /** Over `range(depth)` every cell's progress lies in [0, 1) and grows along the sweep. */
  lemma NearestNeighborProgress(o: Options, n: int, d: int, n': int, d': int)
    requires n in Widths(NearestNeighbor, o) && d in Depths(EveryDepth, o.depth)
    requires n' in Widths(NearestNeighbor, o) && d' in Depths(EveryDepth, o.depth)
    requires n < n' || (n == n' && d < d')
    ensures var p := Progress(NearestNeighbor, o, n, d);
      p.Some? && 0 <= p.value.0 < p.value.1
      && p.value.0 < Progress(NearestNeighbor, o, n', d').value.0
  {
    ProgressBelowOne(NearestNeighbor, o, n, d);
    ProgressIncreases(NearestNeighbor, o, n, d, n', d');
  }

  // ---------------------------------------------------------------------
  // Scripts whose sweep is stated directly

  /**
   * qiskit_qrack_t_nn_d.py: whatever fails, the sweep completes with
   * `samples` rows for each `n + 1` and `d + 1`, `low <= n < qubits` and
   * `0 <= d < depth`, in width-then-depth order, and its one shared
   * simulator is live from start to end.
   */
  lemma SharedSentinelSweep(o: Options, fails: (int, int, nat) -> Stage)
    ensures var l := SweepLog(SharedSentinel, o, fails);
      !l.aborted
      && Tally(Rows(l.events), GridKeys(SharedSentinel, o), o.samples)
      && Ordered(Rows(l.events))
      && Alive(0, l.events) == Some(1)
    ensures forall k :: k in GridKeys(SharedSentinel, o) <==>
      exists n, d | Low(SharedSentinel, o) <= n < o.qubits && 0 <= d < o.depth :: k == CellKey(EveryDepth, n, d)
  {
    var h := SharedSentinel;
    HandlerSurvives(h, o, fails);
    ProgressAbortsExactly(h, o);
    SweepRows(h, o, fails);
    SweepAlive(h, o, fails);
    DepthsRange(h.plan, o.depth);
  }

  /**
   * pyqrack_dense.py: whatever fails, the sweep completes and every
   * per-width simulator has been deleted at its end.
   */
  lemma PerWidthSentinelSweep(o: Options, fails: (int, int, nat) -> Stage)
    ensures var l := SweepLog(PerWidthSentinel, o, fails);
      !l.aborted
      && Tally(Rows(l.events), GridKeys(PerWidthSentinel, o), o.samples)
      && Alive(0, l.events) == Some(0)
  {
    var h := PerWidthSentinel;
    HandlerSurvives(h, o, fails);
    ProgressAbortsExactly(h, o);
    SweepRows(h, o, fails);
    SweepAlive(h, o, fails);
  }

  /**
   * The keys of a sweep's grid are the widths `n + 1` for `low <= n < qubits`,
   * each with every depth column the plan records.
   */
  lemma KeysOf(h: Harness, o: Options, recorded: set<Option<int>>)
    requires forall r :: r in recorded <==> exists d | d in Depths(h.plan, o.depth) :: r == Recorded(h.plan, d)
    ensures forall k :: k in GridKeys(h, o) <==> Low(h, o) < k.0 <= o.qubits && k.1 in recorded
  {
    forall k ensures k in GridKeys(h, o) <==> Low(h, o) < k.0 <= o.qubits && k.1 in recorded {
      if Low(h, o) < k.0 <= o.qubits && k.1 in recorded {
        var d :| d in Depths(h.plan, o.depth) && k.1 == Recorded(h.plan, d);
        assert k == CellKey(h.plan, k.0 - 1, d);
      }
    }
  }

  /** The recorded depth columns of `range(depth)`: 1 to depth. */
  lemma EveryDepthColumns(depth: int)
    ensures forall r :: r in DepthColumns(depth) <==> exists d | d in Depths(EveryDepth, depth) :: r == Recorded(EveryDepth, d)
  {
    DepthsRange(EveryDepth, depth);
    forall r | r in DepthColumns(depth)
      ensures exists d | d in Depths(EveryDepth, depth) :: r == Recorded(EveryDepth, d)
    {
      assert r == Recorded(EveryDepth, r.value - 1);
    }
  }

  /** `Some(1)` to `Some(depth)`. */
  function DepthColumns(depth: int): (cs: set<Option<int>>)
    ensures forall r :: r in cs <==> r.Some? && 0 < r.value <= depth
  {
    set d | 0 < d <= depth :: Some(d)
  }

  /**
   * cirq_random_circuit.py, qiskit_random_circuit.py, pyquil_random_circuit.py,
   * projectq_random_circuit.py, qiskit/qiskit_t_nn.py and qcgpu/qcgpu_t_nn.py:
   * when no call raises, the sweep writes `samples` rows for each
   * `num_qubits` in low + 1 .. qubits and each depth 1 .. depth, in
   * width-then-depth order.
   */
  lemma FuncSweepRows(o: Options, fails: (int, int, nat) -> Stage)
    requires NeverFails(fails)
    ensures var l := SweepLog(FuncSweep, o, fails);
      !l.aborted && Tally(Rows(l.events), GridKeys(FuncSweep, o), o.samples) && Ordered(Rows(l.events))
    ensures forall k :: k in GridKeys(FuncSweep, o) <==> Low(FuncSweep, o) < k.0 <= o.qubits && k.1.Some? && 0 < k.1.value <= o.depth
  {
    QuietSurvives(FuncSweep, o, fails);
    ProgressAbortsExactly(FuncSweep, o);
    SweepRows(FuncSweep, o, fails);
    EveryDepthColumns(o.depth);
    KeysOf(FuncSweep, o, DepthColumns(o.depth));
  }

  /**
   * qiskit_sycamore.py and the approximations: when no call raises, the
   * sweep writes `samples` rows for each `num_qubits` and each of the depths
   * 5, 10, 15 and 20, whatever `--depth` says, except that under
   * `--depth 0` its first progress line raises and it writes no row.
   */
  lemma FuncCuratedRows(o: Options, fails: (int, int, nat) -> Stage)
    requires NeverFails(fails)
    ensures var l := SweepLog(FuncCurated, o, fails);
      (l.aborted <==> o.depth == 0 && Widths(FuncCurated, o) != [])
      && (l.aborted ==> Rows(l.events) == [])
      && (!l.aborted ==> Tally(Rows(l.events), GridKeys(FuncCurated, o), o.samples) && Ordered(Rows(l.events)))
    ensures forall k :: k in GridKeys(FuncCurated, o) <==>
      Low(FuncCurated, o) < k.0 <= o.qubits && k.1 in {Some(5), Some(10), Some(15), Some(20)}
  {
    QuietSurvives(FuncCurated, o, fails);
    SweepOutcome(FuncCurated, o, fails);
    ProgressAbortsExactly(FuncCurated, o);
    DepthsRange(Curated, o.depth);
    var ds := Depths(Curated, o.depth);
    assert Recorded(Curated, ds[0]) == Some(5) && Recorded(Curated, ds[1]) == Some(10);
    assert Recorded(Curated, ds[2]) == Some(15) && Recorded(Curated, ds[3]) == Some(20);
    KeysOf(FuncCurated, o, {Some(5), Some(10), Some(15), Some(20)});
  }

  /**
   * cirq_qft.py and pyquil_qft.py: when no call raises, the sweep writes
   * `samples` rows for each `num_qubits`, with no depth column.
   */
  lemma FuncQftRows(o: Options, fails: (int, int, nat) -> Stage)
    requires NeverFails(fails)
    ensures var l := SweepLog(FuncQft, o, fails);
      !l.aborted && Tally(Rows(l.events), GridKeys(FuncQft, o), o.samples) && Ordered(Rows(l.events))
    ensures forall k :: k in GridKeys(FuncQft, o) <==> Low(FuncQft, o) < k.0 <= o.qubits && k.1 == None
  {
    QuietSurvives(FuncQft, o, fails);
    ProgressAbortsExactly(FuncQft, o);
    SweepRows(FuncQft, o, fails);
    assert Depths(FuncQft.plan, o.depth) == [0];
    assert Recorded(FuncQft.plan, Depths(FuncQft.plan, o.depth)[0]) == None;
    KeysOf(FuncQft, o, {None});
  }

  /**
   * pyqrack_random_circuit.py: when no call raises, the sweep writes the
   * rows of `range(depth)` for every width and deletes each width's
   * simulator before the next is created.
   */
  lemma PerWidthSweepRows(o: Options, fails: (int, int, nat) -> Stage)
    requires NeverFails(fails)
    ensures var l := SweepLog(PerWidthSweep, o, fails);
      !l.aborted && Tally(Rows(l.events), GridKeys(PerWidthSweep, o), o.samples) && Ordered(Rows(l.events))
      && Alive(0, l.events) == Some(0)
    ensures forall k :: k in GridKeys(PerWidthSweep, o) <==> Low(PerWidthSweep, o) < k.0 <= o.qubits && k.1.Some? && 0 < k.1.value <= o.depth
  {
    QuietSurvives(PerWidthSweep, o, fails);
    ProgressAbortsExactly(PerWidthSweep, o);
    SweepRows(PerWidthSweep, o, fails);
    SweepAlive(PerWidthSweep, o, fails);
    EveryDepthColumns(o.depth);
    KeysOf(PerWidthSweep, o, DepthColumns(o.depth));
  }

  /**
   * pyqrack/pyqrack_sycamore.py: whatever bench does, the sweep completes;
   * it writes `samples` rows per width, all at the one depth `depth`, and
   * deletes every per-width simulator. Under `--depth 0` the first progress
   * line raises instead, leaving the first width's simulator live and no row.
   */
  lemma LastDepthSentinelSweep(o: Options, fails: (int, int, nat) -> Stage)
    ensures var l := SweepLog(LastDepthSentinel, o, fails);
      (l.aborted <==> o.depth == 0 && Widths(LastDepthSentinel, o) != [])
      && (l.aborted ==> Rows(l.events) == [] && Alive(0, l.events) == Some(1))
      && (!l.aborted ==> Tally(Rows(l.events), GridKeys(LastDepthSentinel, o), o.samples) && Alive(0, l.events) == Some(0))
    ensures forall k :: k in GridKeys(LastDepthSentinel, o) <==> Low(LastDepthSentinel, o) < k.0 <= o.qubits && k.1 == Some(o.depth)
  {
    HandlerSurvives(LastDepthSentinel, o, fails);
    SweepOutcome(LastDepthSentinel, o, fails);
    ProgressAbortsExactly(LastDepthSentinel, o);
    SweepAlive(LastDepthSentinel, o, fails);
    DepthsRange(LastDepth, o.depth);
    assert Recorded(LastDepth, Depths(LastDepth, o.depth)[0]) == Some(o.depth);
    KeysOf(LastDepthSentinel, o, {Some(o.depth)});
  }

  /**
   * pyqrack_sycamore.py: when nothing raises before bench's final
   * measurement, the sweep completes with `samples` rows per cell, a
   * failed measurement giving the row 'failure'.
   */
  lemma ReportsFailureSweep(o: Options, fails: (int, int, nat) -> Stage)
    requires GatesNeverRaise(fails)
    ensures var l := SweepLog(ReportsFailureKept, o, fails);
      !l.aborted && Tally(Rows(l.events), GridKeys(ReportsFailureKept, o), o.samples) && Ordered(Rows(l.events))
  {
    HandlerSurvives(ReportsFailureKept, o, fails);
    ProgressAbortsExactly(ReportsFailureKept, o);
    SweepRows(ReportsFailureKept, o, fails);
  }

  /**
   * pyqrack_sycamore.py: bench's try covers only the measurement, and
   * benchmark() has none, so when the gates raise (in `iswap`, say) the
   * sweep ends at its first trial with no row written.
   */
  lemma ReportsFailureGatesStop(o: Options, fails: (int, int, nat) -> Stage)
    requires forall n: int, d: int, i: nat :: fails(n, d, i) == RaisesInGates
    requires o.samples > 0 && Widths(ReportsFailureKept, o) != [] && o.depth > 0
    ensures SweepLog(ReportsFailureKept, o, fails).aborted
    ensures SweepLog(ReportsFailureKept, o, fails).events == [NewSim, Run(Low(ReportsFailureKept, o) + 1, Some(1))]
    ensures Rows(SweepLog(ReportsFailureKept, o, fails).events) == []
  {
    var h := ReportsFailureKept;
    assert forall n: int, d: int, i: nat :: Escapes(h, fails, n, d, i);
    DepthsRange(EveryDepth, o.depth);
    StrideAt(0, 1, o.depth, 0);
    ProgressAbortsExactly(h, o);
    AbortsAtFirstTrial(h, o, fails);
  }

  /**
   * pyqrack/pyqrack_t_nn.py: nothing is caught, so when no call raises the
   * sweep writes `samples` rows per width, all at the one depth `depth`;
   * under `--depth 0` the first progress line raises and it writes none.
   */
  lemma TnnRows(o: Options, fails: (int, int, nat) -> Stage)
    requires NeverFails(fails)
    ensures var l := SweepLog(TnnAsWritten, o, fails);
      (l.aborted <==> o.depth == 0 && Widths(TnnAsWritten, o) != [])
      && (l.aborted ==> Rows(l.events) == [])
      && (!l.aborted ==> Tally(Rows(l.events), GridKeys(TnnAsWritten, o), o.samples) && Ordered(Rows(l.events)))
    ensures forall k :: k in GridKeys(TnnAsWritten, o) <==> Low(TnnAsWritten, o) < k.0 <= o.qubits && k.1 == Some(o.depth)
  {
    QuietSurvives(TnnAsWritten, o, fails);
    SweepOutcome(TnnAsWritten, o, fails);
    ProgressAbortsExactly(TnnAsWritten, o);
    DepthsRange(LastDepth, o.depth);
    assert Recorded(LastDepth, Depths(LastDepth, o.depth)[0]) == Some(o.depth);
    KeysOf(TnnAsWritten, o, {Some(o.depth)});
  }

  /**
   * pyqrack/pyqrack_euler_nn.py: whatever bench does, the sweep completes
   * with `samples` rows per width at the one depth `depth`, a failed call
   * giving the row -999; under `--depth 0` the first progress line raises
   * and it writes none.
   */
  lemma EulerNnSweep(o: Options, fails: (int, int, nat) -> Stage)
    ensures var l := SweepLog(EulerNnAsWritten, o, fails);
      (l.aborted <==> o.depth == 0 && Widths(EulerNnAsWritten, o) != [])
      && (l.aborted ==> Rows(l.events) == [])
      && (!l.aborted ==> Tally(Rows(l.events), GridKeys(EulerNnAsWritten, o), o.samples) && Ordered(Rows(l.events)))
    ensures forall k :: k in GridKeys(EulerNnAsWritten, o) <==> Low(EulerNnAsWritten, o) < k.0 <= o.qubits && k.1 == Some(o.depth)
  {
    HandlerSurvives(EulerNnAsWritten, o, fails);
    SweepOutcome(EulerNnAsWritten, o, fails);
    ProgressAbortsExactly(EulerNnAsWritten, o);
    DepthsRange(LastDepth, o.depth);
    assert Recorded(LastDepth, Depths(LastDepth, o.depth)[0]) == Some(o.depth);
    KeysOf(EulerNnAsWritten, o, {Some(o.depth)});
  }

  /**
   * pyqrack/pyqrack_qft_single_qubit.py: whatever fails, the sweep completes
   * with `samples` rows per width and no depth column, and every per-width
   * simulator, re-created after a failure, is deleted at its width's end.
   */
  lemma QftSingleQubitSweep(o: Options, fails: (int, int, nat) -> Stage)
    ensures var l := SweepLog(QftSingleQubitAsWritten, o, fails);
      !l.aborted && Tally(Rows(l.events), GridKeys(QftSingleQubitAsWritten, o), o.samples)
      && Ordered(Rows(l.events)) && Alive(0, l.events) == Some(0)
    ensures forall k :: k in GridKeys(QftSingleQubitAsWritten, o) <==> Low(QftSingleQubitAsWritten, o) < k.0 <= o.qubits && k.1 == None
  {
    HandlerSurvives(QftSingleQubitAsWritten, o, fails);
    ProgressAbortsExactly(QftSingleQubitAsWritten, o);
    SweepRows(QftSingleQubitAsWritten, o, fails);
    SweepAlive(QftSingleQubitAsWritten, o, fails);
    assert Depths(QftSingleQubitAsWritten.plan, o.depth) == [0];
    assert Recorded(QftSingleQubitAsWritten.plan, Depths(QftSingleQubitAsWritten.plan, o.depth)[0]) == None;
    KeysOf(QftSingleQubitAsWritten, o, {None});
  }

  /** pyqrack/pyqrack_test_qft_cosmology.py: the same sweep as the single-qubit QFT's. */
  lemma CosmologySweep(o: Options, fails: (int, int, nat) -> Stage)
    ensures var l := SweepLog(CosmologyAsWritten, o, fails);
      !l.aborted && Tally(Rows(l.events), GridKeys(CosmologyAsWritten, o), o.samples)
      && Ordered(Rows(l.events)) && Alive(0, l.events) == Some(0)
    ensures forall k :: k in GridKeys(CosmologyAsWritten, o) <==> Low(CosmologyAsWritten, o) < k.0 <= o.qubits && k.1 == None
  {
    HandlerSurvives(CosmologyAsWritten, o, fails);
    ProgressAbortsExactly(CosmologyAsWritten, o);
    SweepRows(CosmologyAsWritten, o, fails);
    SweepAlive(CosmologyAsWritten, o, fails);
    assert Depths(CosmologyAsWritten.plan, o.depth) == [0];
    assert Recorded(CosmologyAsWritten.plan, Depths(CosmologyAsWritten.plan, o.depth)[0]) == None;
    KeysOf(CosmologyAsWritten, o, {None});
  }

  /**
   * pyqrack_random_ccx.py's bench as written, as the sweep's failure oracle:
   * trial i at width n and depth d calls `bench(sim, d + 1)` on a simulator
   * of n + 1 qubits with the draws `srcs(n, d, i)`, and raises, before its
   * final measurement, when that call raises.
   */
  function RandomCcxFails(srcs: (int, int, nat) -> Source): (int, int, nat) -> Stage
  {
    (n: int, d: int, i: nat) =>
      if RandomFiles.CcxBenchAsWritten(srcs(n, d, i), n + 1, d + 1).Raised? then RaisesInGates else Completes
  }

  /**
   * pyqrack_random_ccx.py: bench as written raises on every call and nothing
   * catches it, so the sweep ends at its first trial with no row written,
   * whatever the draws; under `--depth 0` the first progress line raises
   * even before that trial.
   */
  lemma RandomCcxStopsAtOnce(o: Options, srcs: (int, int, nat) -> Source)
    requires o.samples > 0 && Widths(PerWidthCurated, o) != []
    ensures SweepLog(PerWidthCurated, o, RandomCcxFails(srcs)).aborted
    ensures SweepLog(PerWidthCurated, o, RandomCcxFails(srcs)).events
         == if o.depth == 0 then [NewSim] else [NewSim, Run(Low(PerWidthCurated, o) + 1, Some(5))]
    ensures Rows(SweepLog(PerWidthCurated, o, RandomCcxFails(srcs)).events) == []
  {
    var h := PerWidthCurated;
    var fails := RandomCcxFails(srcs);
    forall n: int, d: int, i: nat ensures Escapes(h, fails, n, d, i) {
      assert RandomFiles.CcxBenchAsWritten(srcs(n, d, i), n + 1, d + 1).Raised?;
    }
    StrideAt(4, 5, 4, 0);
    ProgressAbortsExactly(h, o);
    AbortsAtFirstTrial(h, o, fails);
  }
}
