/**
 * The benchmark sweep that every Python script ends with: for each width n
 * in `range(low, qubits)`, for each depth d of the script's depth list, run
 * `samples` trials and append one CSV row per trial recording `n + 1` and
 * `d + 1`. Scripts differ in the depth list, in what a failing trial does
 * (nothing catches it, a `-999` row, a `'failure'` time), in the life of the
 * simulator object, and in the width of the circuit they actually run.
 *
 * A sweep is described by its event log: simulator creation and deletion,
 * trial runs and row writes. Whether a trial fails, and where in bench, is an
 * oracle, since it depends on the simulator.
 */
module Sweep {
  import opened Gates

  /** The time column: a measured time, the `-999` sentinel, or the string `'failure'`. */
  datatype Time = Elapsed | Sentinel | FailureWord

  /** One CSV row: num_qubits, the depth column (absent in the QFT scripts), time. */
  datatype Row = Row(width: int, depth: Option<int>, time: Time)

  datatype Event =
    | NewSim                                 // a simulator object is created
    | DelSim                                 // `del sim`
    | Run(width: int, depth: Option<int>)    // one call of bench on a circuit of this width
    | Write(row: Row)                        // write_csv

  /** The depth loop: `range(depth)`, `[4, 9, 14, 19]`, `[depth - 1]`, `range(20)`, or none. */
  datatype DepthPlan = EveryDepth | Curated | LastDepth | Twenty | NoDepth

  /** What an exception in a trial does. */
  datatype OnFailure =
    | Propagate                        // no handler: the sweep ends
    | WriteSentinel(recreate: bool)    // a -999 row, re-creating the simulator when it has one
    | ReportsFailure                   // bench catches a failure of its final measurement and returns 'failure'

  /**
   * How one call of bench ends: it returns, or it raises while applying the
   * gates, or it raises in the final measurement (the only call that
   * pyqrack_sycamore.py's bench wraps in a try).
   */
  datatype Stage = Completes | RaisesInGates | RaisesInMeasure

  /** No simulator object, one for the whole sweep, one per width deleted at the width's end, or one per width only rebound. */
  datatype SimLife = NoSim | Shared | PerWidth | PerWidthKept

  datatype Harness = Harness(
    singleLowIsQubits: bool,   // `low = qubits` under --single instead of `qubits - 1`
    plan: DepthPlan,
    onFailure: OnFailure,
    sim: SimLife,
    runsRecordedWidth: bool)   // bench runs n + 1 qubits, the width that is recorded

  /** The command-line options. */
  datatype Options = Options(samples: nat, qubits: int, depth: int, single: bool)

  /** The events so far, and whether an uncaught failure has ended the sweep. */
  datatype Log = Log(events: seq<Event>, aborted: bool)

  // ---------------------------------------------------------------------
  // The loops' ranges

  function Low(h: Harness, o: Options): int
  {
    if o.single then (if h.singleLowIsQubits then o.qubits else o.qubits - 1) else 3
  }

  /** `count` integers from `first` on, `step` apart. */
  function Stride(first: int, step: int, count: nat): (s: seq<int>)
    ensures |s| == count
    decreases count
  {
    if count == 0 then [] else [first] + Stride(first + step, step, count - 1)
  }

  /** `range(low, qubits)`. */
  function Widths(h: Harness, o: Options): seq<int>
  {
    var low := Low(h, o);
    Stride(low, 1, if o.qubits > low then o.qubits - low else 0)
  }

  /** The depth list, 0-based as in the loops. */
  function Depths(plan: DepthPlan, depth: int): seq<int>
  {
    match plan
    case EveryDepth => Stride(0, 1, if depth > 0 then depth else 0)
    case Curated => Stride(4, 5, 4)
    case LastDepth => Stride(depth - 1, 1, 1)
    case Twenty => Stride(0, 1, 20)
    case NoDepth => Stride(0, 1, 1)
  }

  /** The depth column written for loop depth d. */
  function Recorded(plan: DepthPlan, d: int): Option<int>
  {
    if plan.NoDepth? then None else Some(d + 1)
  }

  /** The width of the circuit bench builds for loop width n. */
  function CircuitWidth(h: Harness, n: int): int
  {
    if h.runsRecordedWidth then n + 1 else n
  }

  // ---------------------------------------------------------------------
  // The sweep as a function of the options and the failure oracle

  /** Appends m to l, unless l already ended the sweep. */
  function Then(l: Log, m: Log): Log
  {
    if l.aborted then l else Log(l.events + m.events, m.aborted)
  }

  /** Trial i of cell (n, d) raises somewhere in bench. */
  predicate Fails(fails: (int, int, nat) -> Stage, n: int, d: int, i: nat)
  {
    fails(n, d, i) != Completes
  }

  /**
   * Trial i's exception leaves bench and is not caught around it: the
   * harness has no handler, or bench's own handler covers only the final
   * measurement and the failure came while applying the gates.
   */
  predicate Escapes(h: Harness, fails: (int, int, nat) -> Stage, n: int, d: int, i: nat)
  {
    match h.onFailure
    case Propagate => Fails(fails, n, d, i)
    case ReportsFailure => fails(n, d, i) == RaisesInGates
    case WriteSentinel(_) => false
  }

  /** Trial i at width n and depth d: run bench, then write its row or handle its failure. */
  function Trial(h: Harness, fails: (int, int, nat) -> Stage, n: int, d: int, i: nat): Log
  {
    var rd := Recorded(h.plan, d);
    var run := Run(CircuitWidth(h, n), rd);
    if !Fails(fails, n, d, i) then Log([run, Write(Row(n + 1, rd, Elapsed))], false)
    else match h.onFailure
      case Propagate => Log([run], true)
      case ReportsFailure =>
        if fails(n, d, i) == RaisesInMeasure then Log([run, Write(Row(n + 1, rd, FailureWord))], false)
        else Log([run], true)
      case WriteSentinel(recreate) =>
        if recreate then Log([run, DelSim, Write(Row(n + 1, rd, Sentinel)), NewSim], false)
        else Log([run, Write(Row(n + 1, rd, Sentinel))], false)
  }

  /** The first k trials of one (n, d) cell. */
  function Samples(h: Harness, fails: (int, int, nat) -> Stage, n: int, d: int, k: nat): Log
  {
    if k == 0 then Log([], false)
    else
      var i := k - 1;
      Then(Samples(h, fails, n, d, i), Trial(h, fails, n, d, i))
  }

  /** The first j depths of the list ds at width n. */
  function DepthsLog(h: Harness, fails: (int, int, nat) -> Stage, n: int, ds: seq<int>, samples: nat, j: nat): Log
    requires j <= |ds|
  {
    if j == 0 then Log([], false)
    else
      var p := j - 1;
      Then(DepthsLog(h, fails, n, ds, samples, p), Samples(h, fails, n, ds[p], samples))
  }

  function Start(h: Harness): seq<Event>
  {
    if h.sim.Shared? then [NewSim] else []
  }

  function Open(h: Harness): seq<Event>
  {
    if h.sim.PerWidth? || h.sim.PerWidthKept? then [NewSim] else []
  }

  function Close(h: Harness): seq<Event>
  {
    if h.sim.PerWidth? then [DelSim] else []
  }

  /**
   * The depth loop of width n. When `zero`, the progress line at the top of
   * its first depth divides by zero, and the ZeroDivisionError ends the
   * sweep before any trial.
   */
  function WidthBody(h: Harness, fails: (int, int, nat) -> Stage, n: int, ds: seq<int>, samples: nat, zero: bool): Log
  {
    if zero && ds != [] then Log([], true) else DepthsLog(h, fails, n, ds, samples, |ds|)
  }

  /** One width: create its simulator, run its depth loop, delete the simulator. */
  function WidthLog(h: Harness, fails: (int, int, nat) -> Stage, n: int, ds: seq<int>, samples: nat, zero: bool): Log
  {
    Then(Then(Log(Open(h), false), WidthBody(h, fails, n, ds, samples, zero)), Log(Close(h), false))
  }

  /** The first i widths of ws. */
  function WidthsLog(h: Harness, fails: (int, int, nat) -> Stage, ws: seq<int>, ds: seq<int>, samples: nat, i: nat, zero: bool): Log
    requires i <= |ws|
  {
    if i == 0 then Log([], false)
    else
      var p := i - 1;
      Then(WidthsLog(h, fails, ws, ds, samples, p, zero), WidthLog(h, fails, ws[p], ds, samples, zero))
  }

  /** The whole sweep. */
  function SweepLog(h: Harness, o: Options, fails: (int, int, nat) -> Stage): Log
  {
    var ws := Widths(h, o);
    Then(Log(Start(h), false), WidthsLog(h, fails, ws, Depths(h.plan, o.depth), o.samples, |ws|, ProgressRaises(h, o)))
  }

  /** The rows a log writes, in order. */
  function Rows(s: seq<Event>): (rows: seq<Row>)
    ensures |rows| <= |s|
  {
    if s == [] then []
    else (if s[0].Write? then [s[0].row] else []) + Rows(s[1..])
  }

  lemma {:induction false} RowsAppend(a: seq<Event>, b: seq<Event>)
    ensures Rows(a + b) == Rows(a) + Rows(b)
  {
    if a == [] {
      assert a + b == b;
    } else {
      assert (a + b)[0] == a[0];
      assert (a + b)[1..] == a[1..] + b;
      RowsAppend(a[1..], b);
    }
  }

  // ---------------------------------------------------------------------
  // The CSV file

  datatype Line = Header(fields: seq<string>) | Data(row: Row)

  /** The lines write_csv appends for these rows. */
  function DataLines(rows: seq<Row>): (ls: seq<Line>)
    ensures |ls| == |rows|
    ensures forall i | 0 <= i < |ls| :: ls[i] == Data(rows[i])
  {
    if rows == [] then [] else [Data(rows[0])] + DataLines(rows[1..])
  }

  /** The lines a log appends to the file: one per Write, in order. */
  function Written(s: seq<Event>): seq<Line>
  {
    if s == [] then []
    else (if s[0].Write? then [Data(s[0].row)] else []) + Written(s[1..])
  }

  lemma {:induction false} WrittenAppend(a: seq<Event>, b: seq<Event>)
    ensures Written(a + b) == Written(a) + Written(b)
  {
    if a == [] {
      assert a + b == b;
    } else {
      assert (a + b)[0] == a[0];
      assert (a + b)[1..] == a[1..] + b;
      WrittenAppend(a[1..], b);
    }
  }

  /** The file receives exactly the log's rows. */
  lemma {:induction false} WrittenRows(s: seq<Event>)
    ensures Written(s) == DataLines(Rows(s))
  {
    if s != [] {
      WrittenRows(s[1..]);
      var head := if s[0].Write? then [s[0].row] else [];
      assert Rows(s) == head + Rows(s[1..]);
      if s[0].Write? {
        assert (head + Rows(s[1..]))[1..] == Rows(s[1..]);
      } else {
        assert head + Rows(s[1..]) == Rows(s[1..]);
      }
    }
  }

  /** The file's lines once create_csv has opened it; None is a file that does not exist yet. */
  function Opened(file: Option<seq<Line>>, fields: seq<string>): seq<Line>
  {
    match file
    case None => [Header(fields)]
    case Some(previous) => previous
  }

  /** The writer returned by create_csv, over a file opened in append mode. */
  class CsvWriter {
    var lines: seq<Line>

    /** create_csv: opening in append mode keeps an existing file; a new file gets the header first. */
    constructor (file: Option<seq<Line>>, fields: seq<string>)
      ensures lines == Opened(file, fields)
    {
      match file
      case None =>
        lines := [Header(fields)];
      case Some(previous) =>
        lines := previous;
    }

    /** write_csv. */
    method WriteRow(r: Row)
      modifies this
      ensures lines == old(lines) + [Data(r)]
    {
      lines := lines + [Data(r)];
    }
  }

  // ---------------------------------------------------------------------
  // The loops

  /** One trial, writing its row as it goes. */
  method RunTrial(h: Harness, fails: (int, int, nat) -> Stage, n: int, d: int, i: nat, writer: CsvWriter)
    returns (t: Log)
    modifies writer
    ensures t == Trial(h, fails, n, d, i)
    ensures writer.lines == old(writer.lines) + Written(t.events)
  {
    var rd := Recorded(h.plan, d);
    var run := Run(CircuitWidth(h, n), rd);
    if fails(n, d, i) == Completes {
      var row := Row(n + 1, rd, Elapsed);
      writer.WriteRow(row);
      t := Log([run, Write(row)], false);
      WrittenOnce(run, row, []);
      assert [run, Write(row)] + [] == [run, Write(row)];
    } else if h.onFailure.Propagate? || (h.onFailure.ReportsFailure? && fails(n, d, i) == RaisesInGates) {
      t := Log([run], true);
      assert Written([run]) == [];
    } else if h.onFailure.ReportsFailure? {
      var row := Row(n + 1, rd, FailureWord);
      writer.WriteRow(row);
      t := Log([run, Write(row)], false);
      WrittenOnce(run, row, []);
      assert [run, Write(row)] + [] == [run, Write(row)];
    } else {
      var row := Row(n + 1, rd, Sentinel);
      writer.WriteRow(row);
      if h.onFailure.recreate {
        t := Log([run, DelSim, Write(row), NewSim], false);
        WrittenOnce(DelSim, row, [NewSim]);
        assert t.events == [run] + ([DelSim, Write(row)] + [NewSim]);
        WrittenAppend([run], [DelSim, Write(row)] + [NewSim]);
        assert Written([run]) == [];
      } else {
        t := Log([run, Write(row)], false);
        WrittenOnce(run, row, []);
        assert [run, Write(row)] + [] == [run, Write(row)];
      }
    }
  }

  lemma WrittenOnce(e: Event, row: Row, rest: seq<Event>)
    requires !e.Write? && (forall k | 0 <= k < |rest| :: !rest[k].Write?) && |rest| <= 1
    ensures Written([e, Write(row)] + rest) == [Data(row)]
  {
    var s := [e, Write(row)] + rest;
    assert s[1..] == [Write(row)] + rest;
    assert s[1..][1..] == rest;
    if rest != [] {
      assert rest[1..] == [];
    }
    assert Written(rest) == [];
    assert Written(s[1..]) == [Data(row)] + Written(rest);
  }

  /** `for i in range(samples)`, until a failure escapes. */
  method RunSamples(h: Harness, fails: (int, int, nat) -> Stage, n: int, d: int, samples: nat, writer: CsvWriter)
    returns (l: Log)
    modifies writer
    ensures l == Samples(h, fails, n, d, samples)
    ensures writer.lines == old(writer.lines) + Written(l.events)
  {
    l := Log([], false);
    var i := 0;
    while i < samples
      invariant i <= samples && l == Samples(h, fails, n, d, i)
      invariant writer.lines == old(writer.lines) + Written(l.events)
    {
      if !l.aborted {
        var t := RunTrial(h, fails, n, d, i, writer);
        WrittenAppend(l.events, t.events);
        SamplesStep(h, fails, n, d, i);
        l := Log(l.events + t.events, t.aborted);
      }
      i := i + 1;
    }
  }

  lemma SamplesStep(h: Harness, fails: (int, int, nat) -> Stage, n: int, d: int, i: nat)
    ensures var l := Samples(h, fails, n, d, i); var t := Trial(h, fails, n, d, i);
      Samples(h, fails, n, d, i + 1) == if l.aborted then l else Log(l.events + t.events, t.aborted)
  {
  }

  /** The depth loop of width n, between the creation and deletion of its simulator. */
  method SweepWidth(h: Harness, fails: (int, int, nat) -> Stage, n: int, ds: seq<int>, samples: nat, zero: bool,
                    writer: CsvWriter)
    returns (l: Log)
    modifies writer
    ensures l == WidthLog(h, fails, n, ds, samples, zero)
    ensures writer.lines == old(writer.lines) + Written(l.events)
  {
    var body := Log([], false);
    var j := 0;
    while j < |ds|
      invariant j <= |ds|
      invariant body == if zero && j > 0 then Log([], true) else DepthsLog(h, fails, n, ds, samples, j)
      invariant writer.lines == old(writer.lines) + Written(body.events)
    {
      if !body.aborted {
        if zero {
          // The progress line's ZeroDivisionError.
          body := Log([], true);
        } else {
          body := DepthStep(h, fails, n, ds[j], samples, body, writer, old(writer.lines));
        }
      }
      j := j + 1;
    }
    l := WidthClose(h, fails, n, ds, samples, zero, body);
  }

  /** Runs the samples of depth d after the log so far. */
  method DepthStep(h: Harness, fails: (int, int, nat) -> Stage, n: int, d: int, samples: nat,
                   body: Log, writer: CsvWriter, ghost start: seq<Line>)
    returns (b: Log)
    requires !body.aborted && writer.lines == start + Written(body.events)
    modifies writer
    ensures b == Then(body, Samples(h, fails, n, d, samples))
    ensures writer.lines == start + Written(b.events)
  {
    var s := RunSamples(h, fails, n, d, samples, writer);
    WrittenAppend(body.events, s.events);
    b := Log(body.events + s.events, s.aborted);
  }

  /** The width's log from its depth loop: the simulator's creation before it, its deletion after it. */
  method WidthClose(h: Harness, fails: (int, int, nat) -> Stage, n: int, ds: seq<int>, samples: nat, zero: bool, body: Log)
    returns (l: Log)
    requires body == WidthBody(h, fails, n, ds, samples, zero)
    ensures l == WidthLog(h, fails, n, ds, samples, zero)
    ensures Written(l.events) == Written(Open(h)) + Written(body.events) + (if body.aborted then [] else Written(Close(h)))
    ensures Written(Open(h)) == [] && Written(Close(h)) == []
  {
    WrittenAppend(Open(h), body.events);
    if body.aborted {
      l := Log(Open(h) + body.events, true);
    } else {
      WrittenAppend(Open(h) + body.events, Close(h));
      l := Log(Open(h) + body.events + Close(h), false);
    }
  }

  /** Runs width n after the log so far. */
  method WidthStep(h: Harness, fails: (int, int, nat) -> Stage, n: int, ds: seq<int>, samples: nat, zero: bool,
                   body: Log, writer: CsvWriter, ghost start: seq<Line>)
    returns (b: Log)
    requires !body.aborted && writer.lines == start + Written(body.events)
    modifies writer
    ensures b == Then(body, WidthLog(h, fails, n, ds, samples, zero))
    ensures writer.lines == start + Written(b.events)
  {
    var w := SweepWidth(h, fails, n, ds, samples, zero, writer);
    WrittenAppend(body.events, w.events);
    b := Log(body.events + w.events, w.aborted);
  }

  /**
   * benchmark: create the CSV writer, then sweep the widths. The log is the
   * sweep's specification and the file gains exactly the rows of the log.
   */
  method Benchmark(h: Harness, o: Options, fails: (int, int, nat) -> Stage,
                   file: Option<seq<Line>>, fields: seq<string>)
    returns (log: Log, writer: CsvWriter)
    ensures fresh(writer)
    ensures log == SweepLog(h, o, fails)
    ensures writer.lines == Opened(file, fields) + Written(log.events)
  {
    writer := new CsvWriter(file, fields);
    var ws := Widths(h, o);
    var ds := Depths(h.plan, o.depth);
    var zero := ProgressDenominator(h, o) == 0;
    var body := SweepWidths(h, fails, ws, ds, o.samples, zero, writer);
    log := SweepClose(h, o, fails, ws, ds, body);
  }

  /** `for n in range(low, high)`, until a failure escapes. */
  method SweepWidths(h: Harness, fails: (int, int, nat) -> Stage, ws: seq<int>, ds: seq<int>, samples: nat, zero: bool,
                     writer: CsvWriter)
    returns (body: Log)
    modifies writer
    ensures body == WidthsLog(h, fails, ws, ds, samples, |ws|, zero)
    ensures writer.lines == old(writer.lines) + Written(body.events)
  {
    body := Log([], false);
    var a := 0;
    while a < |ws|
      invariant a <= |ws| && body == WidthsLog(h, fails, ws, ds, samples, a, zero)
      invariant writer.lines == old(writer.lines) + Written(body.events)
    {
      if !body.aborted {
        body := WidthStep(h, fails, ws[a], ds, samples, zero, body, writer, old(writer.lines));
      }
      a := a + 1;
    }
  }

  /** The sweep's log from its width loop: the shared simulator, if any, is created first. */
  method SweepClose(h: Harness, o: Options, fails: (int, int, nat) -> Stage, ws: seq<int>, ds: seq<int>, body: Log)
    returns (log: Log)
    requires ws == Widths(h, o) && ds == Depths(h.plan, o.depth)
    requires body == WidthsLog(h, fails, ws, ds, o.samples, |ws|, ProgressRaises(h, o))
    ensures log == SweepLog(h, o, fails)
    ensures Written(log.events) == Written(body.events)
  {
    log := Log(Start(h) + body.events, body.aborted);
    WrittenAppend(Start(h), body.events);
    assert Written(Start(h)) == [];
  }

  // ---------------------------------------------------------------------
  // The loops' ranges, stated

  lemma {:induction false} StrideAt(first: int, step: int, count: nat, a: nat)
    requires a < count
    ensures Stride(first, step, count)[a] == first + step * a
    decreases a
  {
    if a > 0 {
      StrideAt(first + step, step, count - 1, a - 1);
    }
  }

  predicate Increasing(s: seq<int>)
  {
    forall a, b | 0 <= a < b < |s| :: s[a] < s[b]
  }

  lemma StrideIncreasing(first: int, step: int, count: nat)
    requires step > 0
    ensures Increasing(Stride(first, step, count))
  {
    var s := Stride(first, step, count);
    forall a, b | 0 <= a < b < |s| ensures s[a] < s[b] {
      StrideAt(first, step, count, a);
      StrideAt(first, step, count, b);
    }
  }

  /**
   * The widths are `low, low + 1, ..., qubits - 1`: n is swept exactly when
   * `low <= n < qubits`, and under --single that is the one width `qubits - 1`.
   */
  lemma WidthsRange(h: Harness, o: Options)
    ensures Increasing(Widths(h, o))
    ensures forall n :: n in Widths(h, o) <==> Low(h, o) <= n < o.qubits
    ensures o.single && !h.singleLowIsQubits ==> Widths(h, o) == [o.qubits - 1]
  {
    var low := Low(h, o);
    var count := if o.qubits > low then o.qubits - low else 0;
    var ws := Widths(h, o);
    StrideIncreasing(low, 1, count);
    forall n ensures n in ws <==> low <= n < o.qubits {
      if low <= n < o.qubits {
        StrideAt(low, 1, count, n - low);
      }
      if n in ws {
        var a :| 0 <= a < |ws| && ws[a] == n;
        StrideAt(low, 1, count, a);
      }
    }
    if o.single && !h.singleLowIsQubits {
      StrideAt(low, 1, count, 0);
    }
  }

  /** A depth list the rows can be told apart by: increasing, and with no depth column only one entry. */
  predicate DepthListOk(plan: DepthPlan, ds: seq<int>)
  {
    Increasing(ds) && (plan.NoDepth? ==> |ds| <= 1)
  }

  /** Every depth plan gives such a list; `range(depth)` is exactly `0 <= d < depth`. */
  lemma DepthsRange(plan: DepthPlan, depth: int)
    ensures DepthListOk(plan, Depths(plan, depth))
    ensures plan.EveryDepth? ==> forall d :: d in Depths(plan, depth) <==> 0 <= d < depth
    ensures plan.Curated? ==> Depths(plan, depth) == [4, 9, 14, 19]
    ensures plan.LastDepth? ==> Depths(plan, depth) == [depth - 1]
  {
    var ds := Depths(plan, depth);
    match plan
    case EveryDepth =>
      var count := if depth > 0 then depth else 0;
      StrideIncreasing(0, 1, count);
      forall d ensures d in ds <==> 0 <= d < depth {
        if 0 <= d < depth {
          StrideAt(0, 1, count, d);
        }
        if d in ds {
          var a :| 0 <= a < |ds| && ds[a] == d;
          StrideAt(0, 1, count, a);
        }
      }
    case Curated =>
      StrideIncreasing(4, 5, 4);
      StrideAt(4, 5, 4, 0);
      StrideAt(4, 5, 4, 1);
      StrideAt(4, 5, 4, 2);
      StrideAt(4, 5, 4, 3);
    case LastDepth =>
      StrideIncreasing(depth - 1, 1, 1);
      StrideAt(depth - 1, 1, 1, 0);
    case Twenty =>
      StrideIncreasing(0, 1, 20);
    case NoDepth =>
      StrideIncreasing(0, 1, 1);
  }

  // ---------------------------------------------------------------------
  // Which rows a sweep writes, and in which order

  /** A row's key: its width and depth columns. */
  function KeyOf(r: Row): (int, Option<int>)
  {
    (r.width, r.depth)
  }

  /** The number of rows with key k. */
  function Count(rows: seq<Row>, k: (int, Option<int>)): nat
  {
    if rows == [] then 0
    else (if KeyOf(rows[0]) == k then 1 else 0) + Count(rows[1..], k)
  }

  lemma {:induction false} CountAppend(a: seq<Row>, b: seq<Row>, k: (int, Option<int>))
    ensures Count(a + b, k) == Count(a, k) + Count(b, k)
  {
    if a == [] {
      assert a + b == b;
    } else {
      assert (a + b)[0] == a[0];
      assert (a + b)[1..] == a[1..] + b;
      CountAppend(a[1..], b, k);
    }
  }

  /** Each key of ks appears `times` times in rows, and no other key appears. */
  ghost predicate Tally(rows: seq<Row>, ks: set<(int, Option<int>)>, times: nat)
  {
    forall k :: Count(rows, k) == if k in ks then times else 0
  }

  lemma {:induction false} TallyUniform(rows: seq<Row>, k0: (int, Option<int>))
    requires forall p | 0 <= p < |rows| :: KeyOf(rows[p]) == k0
    ensures Tally(rows, {k0}, |rows|)
  {
    if rows != [] {
      TallyUniform(rows[1..], k0);
    }
  }

  lemma TallyAppend(a: seq<Row>, b: seq<Row>, ka: set<(int, Option<int>)>, kb: set<(int, Option<int>)>, times: nat)
    requires Tally(a, ka, times) && Tally(b, kb, times) && ka !! kb
    ensures Tally(a + b, ka + kb, times)
  {
    forall k ensures Count(a + b, k) == if k in ka + kb then times else 0 {
      CountAppend(a, b, k);
    }
  }

  function DepthKey(rd: Option<int>): int
  {
    match rd
    case None => 0
    case Some(v) => v
  }

  /** Width first, then depth. */
  predicate KeyLe(x: Row, y: Row)
  {
    x.width < y.width || (x.width == y.width && DepthKey(x.depth) <= DepthKey(y.depth))
  }

  predicate Ordered(rows: seq<Row>)
  {
    forall p, q | 0 <= p < q < |rows| :: KeyLe(rows[p], rows[q])
  }

  lemma OrderedAppend(a: seq<Row>, b: seq<Row>)
    requires Ordered(a) && Ordered(b)
    requires forall p, q | 0 <= p < |a| && 0 <= q < |b| :: KeyLe(a[p], b[q])
    ensures Ordered(a + b)
  {
    var c := a + b;
    forall p, q | 0 <= p < q < |c| ensures KeyLe(c[p], c[q]) {
      if q < |a| {
        assert c[p] == a[p] && c[q] == a[q];
      } else if p >= |a| {
        assert c[p] == b[p - |a|] && c[q] == b[q - |a|];
      } else {
        assert c[p] == a[p] && c[q] == b[q - |a|];
      }
    }
  }

  lemma RowsOnce(e: Event, row: Row, rest: seq<Event>)
    requires !e.Write? && (forall k | 0 <= k < |rest| :: !rest[k].Write?) && |rest| <= 1
    ensures Rows([e, Write(row)] + rest) == [row]
  {
    var s := [e, Write(row)] + rest;
    assert s[1..] == [Write(row)] + rest;
    assert s[1..][1..] == rest;
    if rest != [] {
      assert rest[1..] == [];
    }
    assert Rows(rest) == [];
    assert Rows(s[1..]) == [row] + Rows(rest);
  }

  /**
   * A trial ends the sweep exactly when its failure escapes every handler,
   * and then it writes nothing. Otherwise it writes one row for its width
   * and depth, whose time is the sentinel of the handler that caught the
   * failure when there was one.
   */
  lemma TrialRows(h: Harness, fails: (int, int, nat) -> Stage, n: int, d: int, i: nat)
    ensures var t := Trial(h, fails, n, d, i);
      (t.aborted <==> Escapes(h, fails, n, d, i))
      && (t.aborted ==> Rows(t.events) == [])
      && (!t.aborted ==>
            (|Rows(t.events)| == 1
             && Rows(t.events)[0].width == n + 1 && Rows(t.events)[0].depth == Recorded(h.plan, d)
             && Rows(t.events)[0].time == (if !Fails(fails, n, d, i) then Elapsed
                                           else if h.onFailure.ReportsFailure? then FailureWord
                                           else Sentinel)))
  {
    var rd := Recorded(h.plan, d);
    var run := Run(CircuitWidth(h, n), rd);
    var t := Trial(h, fails, n, d, i);
    if !Fails(fails, n, d, i) {
      RowsOnce(run, Row(n + 1, rd, Elapsed), []);
      assert [run, Write(Row(n + 1, rd, Elapsed))] + [] == t.events;
    } else {
      match h.onFailure
      case Propagate =>
        assert Rows([run]) == [];
      case ReportsFailure =>
        if fails(n, d, i) == RaisesInMeasure {
          RowsOnce(run, Row(n + 1, rd, FailureWord), []);
          assert [run, Write(Row(n + 1, rd, FailureWord))] + [] == t.events;
        } else {
          assert Rows([run]) == [];
        }
      case WriteSentinel(recreate) =>
        var row := Row(n + 1, rd, Sentinel);
        if recreate {
          RowsOnce(DelSim, row, [NewSim]);
          assert t.events == [run] + ([DelSim, Write(row)] + [NewSim]);
          RowsAppend([run], [DelSim, Write(row)] + [NewSim]);
          assert Rows([run]) == [];
        } else {
          RowsOnce(run, row, []);
          assert [run, Write(row)] + [] == t.events;
        }
    }
  }

  /** No trial of the cell ends the sweep. */
  predicate CellSurvives(h: Harness, fails: (int, int, nat) -> Stage, n: int, d: int, k: nat)
  {
    forall i | 0 <= i < k :: !Escapes(h, fails, n, d, i)
  }

  lemma {:induction false} SamplesRows(h: Harness, fails: (int, int, nat) -> Stage, n: int, d: int, k: nat)
    requires CellSurvives(h, fails, n, d, k)
    ensures var l := Samples(h, fails, n, d, k);
      !l.aborted && |Rows(l.events)| == k
      && forall p | 0 <= p < k :: Rows(l.events)[p].width == n + 1 && Rows(l.events)[p].depth == Recorded(h.plan, d)
  {
    if k > 0 {
      var i := k - 1;
      SamplesRows(h, fails, n, d, i);
      TrialRows(h, fails, n, d, i);
      RowsAppend(Samples(h, fails, n, d, i).events, Trial(h, fails, n, d, i).events);
    }
  }

  predicate WidthSurvives(h: Harness, fails: (int, int, nat) -> Stage, n: int, ds: seq<int>, samples: nat)
  {
    forall d | d in ds :: CellSurvives(h, fails, n, d, samples)
  }

  /** The keys of the first j depths of ds at width n. */
  function DepthKeys(plan: DepthPlan, n: int, ds: seq<int>, j: nat): set<(int, Option<int>)>
    requires j <= |ds|
  {
    set a | 0 <= a < j :: (n + 1, Recorded(plan, ds[a]))
  }

  /** Rows of one width, ordered by depth up to `bound`, followed by rows at one later depth. */
  lemma OrderedBlock(a: seq<Row>, b: seq<Row>, w: int, bound: int, rd: Option<int>)
    requires Ordered(a) && bound <= DepthKey(rd)
    requires forall p | 0 <= p < |a| :: a[p].width == w && DepthKey(a[p].depth) <= bound
    requires forall p | 0 <= p < |b| :: b[p].width == w && b[p].depth == rd
    ensures Ordered(a + b)
    ensures forall p | 0 <= p < |a + b| :: (a + b)[p].width == w && DepthKey((a + b)[p].depth) <= DepthKey(rd)
  {
    assert Ordered(b);
    OrderedAppend(a, b);
  }

  /** The depth loop of width n writes `samples` rows per depth, all of width n + 1. */
  lemma {:induction false} DepthsShape(h: Harness, fails: (int, int, nat) -> Stage, n: int, ds: seq<int>, samples: nat, j: nat)
    requires j <= |ds| && WidthSurvives(h, fails, n, ds, samples)
    ensures var rows := Rows(DepthsLog(h, fails, n, ds, samples, j).events);
      !DepthsLog(h, fails, n, ds, samples, j).aborted
      && |rows| == j * samples
      && (forall p | 0 <= p < |rows| :: rows[p].width == n + 1)
  {
    if j > 0 {
      var p := j - 1;
      DepthsShape(h, fails, n, ds, samples, p);
      var d := ds[p];
      assert d in ds;
      SamplesRows(h, fails, n, d, samples);
      RowsAppend(DepthsLog(h, fails, n, ds, samples, p).events, Samples(h, fails, n, d, samples).events);
      MulStep(p, samples);
    }
  }

  /** The depth loop of width n writes its rows in the order of the depth list. */
  lemma {:induction false} DepthsOrder(h: Harness, fails: (int, int, nat) -> Stage, n: int, ds: seq<int>, samples: nat, j: nat)
    requires 0 < j <= |ds| && DepthListOk(h.plan, ds) && WidthSurvives(h, fails, n, ds, samples)
    ensures var rows := Rows(DepthsLog(h, fails, n, ds, samples, j).events);
      Ordered(rows)
      && (forall p | 0 <= p < |rows| :: rows[p].width == n + 1 && DepthKey(rows[p].depth) <= DepthKey(Recorded(h.plan, ds[j - 1])))
  {
    var p := j - 1;
    var d := ds[p];
    assert d in ds;
    SamplesRows(h, fails, n, d, samples);
    var before := DepthsLog(h, fails, n, ds, samples, p).events;
    var cell := Samples(h, fails, n, d, samples).events;
    DepthsShape(h, fails, n, ds, samples, p);
    RowsAppend(before, cell);
    var bound := DepthKey(Recorded(h.plan, d));
    if p > 0 {
      DepthsOrder(h, fails, n, ds, samples, p);
      assert ds[p - 1] < d;
      bound := DepthKey(Recorded(h.plan, ds[p - 1]));
    } else {
      assert Rows(before) == [];
    }
    OrderedBlock(Rows(before), Rows(cell), n + 1, bound, Recorded(h.plan, d));
  }

  /** The depth loop of width n writes `samples` rows for each depth of ds, and no other row. */
  lemma {:induction false} DepthsTally(h: Harness, fails: (int, int, nat) -> Stage, n: int, ds: seq<int>, samples: nat, j: nat)
    requires j <= |ds| && DepthListOk(h.plan, ds) && WidthSurvives(h, fails, n, ds, samples)
    ensures !DepthsLog(h, fails, n, ds, samples, j).aborted
    ensures Tally(Rows(DepthsLog(h, fails, n, ds, samples, j).events), DepthKeys(h.plan, n, ds, j), samples)
  {
    if j == 0 {
      forall k ensures Count([], k) == 0 {
      }
    } else {
      var p := j - 1;
      DepthsTally(h, fails, n, ds, samples, p);
      var d := ds[p];
      assert d in ds;
      SamplesRows(h, fails, n, d, samples);
      var before := DepthsLog(h, fails, n, ds, samples, p).events;
      var cell := Samples(h, fails, n, d, samples).events;
      RowsAppend(before, cell);
      var key := CellKey(h.plan, n, d);
      TallyUniform(Rows(cell), key);
      DepthKeysStep(h.plan, n, ds, j);
      TallyAppend(Rows(before), Rows(cell), DepthKeys(h.plan, n, ds, p), {key}, samples);
    }
  }

  /** One more depth of an increasing list adds one key, new to the earlier ones. */
  lemma DepthKeysStep(plan: DepthPlan, n: int, ds: seq<int>, j: nat)
    requires 0 < j <= |ds| && DepthListOk(plan, ds)
    ensures DepthKeys(plan, n, ds, j - 1) !! {CellKey(plan, n, ds[j - 1])}
    ensures DepthKeys(plan, n, ds, j) == DepthKeys(plan, n, ds, j - 1) + {CellKey(plan, n, ds[j - 1])}
  {
    var p := j - 1;
    var d := ds[p];
    forall a | 0 <= a < p ensures (n + 1, Recorded(plan, ds[a])) != CellKey(plan, n, d) {
      assert ds[a] < d;
    }
  }

  /** Creating and deleting a width's simulator writes nothing: a width writes its depth loop's rows. */
  lemma WidthRows(h: Harness, fails: (int, int, nat) -> Stage, n: int, ds: seq<int>, samples: nat)
    requires WidthSurvives(h, fails, n, ds, samples)
    ensures !WidthLog(h, fails, n, ds, samples, false).aborted
    ensures Rows(WidthLog(h, fails, n, ds, samples, false).events) == Rows(DepthsLog(h, fails, n, ds, samples, |ds|).events)
  {
    var body := DepthsLog(h, fails, n, ds, samples, |ds|);
    DepthsShape(h, fails, n, ds, samples, |ds|);
    RowsAppend(Open(h), body.events);
    RowsAppend(Open(h) + body.events, Close(h));
    assert Rows(Open(h)) == [] && Rows(Close(h)) == [];
  }

  /** No trial at any width of ws and depth of ds ends the sweep. */
  predicate SweepSurvives(h: Harness, fails: (int, int, nat) -> Stage, ws: seq<int>, ds: seq<int>, samples: nat)
  {
    forall n | n in ws :: WidthSurvives(h, fails, n, ds, samples)
  }

  /** One more width appends that width's depth-loop rows. */
  lemma WidthsStep(h: Harness, fails: (int, int, nat) -> Stage, ws: seq<int>, ds: seq<int>, samples: nat, i: nat)
    requires 0 < i <= |ws| && SweepSurvives(h, fails, ws, ds, samples)
    requires !WidthsLog(h, fails, ws, ds, samples, i - 1, false).aborted
    ensures !WidthsLog(h, fails, ws, ds, samples, i, false).aborted
    ensures Rows(WidthsLog(h, fails, ws, ds, samples, i, false).events)
         == Rows(WidthsLog(h, fails, ws, ds, samples, i - 1, false).events) + Rows(DepthsLog(h, fails, ws[i - 1], ds, samples, |ds|).events)
  {
    var p := i - 1;
    var n := ws[p];
    assert n in ws;
    WidthRows(h, fails, n, ds, samples);
    RowsAppend(WidthsLog(h, fails, ws, ds, samples, p, false).events, WidthLog(h, fails, n, ds, samples, false).events);
  }

  /** The first i widths write `|ds| * samples` rows each. */
  lemma {:induction false} WidthsShape(h: Harness, fails: (int, int, nat) -> Stage, ws: seq<int>, ds: seq<int>, samples: nat, i: nat)
    requires i <= |ws| && SweepSurvives(h, fails, ws, ds, samples)
    ensures !WidthsLog(h, fails, ws, ds, samples, i, false).aborted
    ensures |Rows(WidthsLog(h, fails, ws, ds, samples, i, false).events)| == i * (|ds| * samples)
  {
    if i > 0 {
      var p := i - 1;
      WidthsShape(h, fails, ws, ds, samples, p);
      WidthsStep(h, fails, ws, ds, samples, i);
      var n := ws[p];
      assert n in ws;
      DepthsShape(h, fails, n, ds, samples, |ds|);
      MulStep(p, |ds| * samples);
    }
  }

  lemma MulStep(p: nat, m: nat)
    ensures p * m + m == (p + 1) * m
  {
  }

  /** Rows ordered up to width w, followed by ordered rows all of width w' > w. */
  lemma OrderedWidths(a: seq<Row>, b: seq<Row>, w: int, w': int)
    requires Ordered(a) && Ordered(b) && w < w'
    requires forall p | 0 <= p < |a| :: a[p].width <= w
    requires forall p | 0 <= p < |b| :: b[p].width == w'
    ensures Ordered(a + b)
    ensures forall p | 0 <= p < |a + b| :: (a + b)[p].width <= w'
  {
    OrderedAppend(a, b);
  }

  /** The width loop writes its rows ordered by width, then by depth. */
  lemma {:induction false} WidthsOrder(h: Harness, fails: (int, int, nat) -> Stage, ws: seq<int>, ds: seq<int>, samples: nat, i: nat)
    requires 0 < i <= |ws| && Increasing(ws) && DepthListOk(h.plan, ds) && SweepSurvives(h, fails, ws, ds, samples)
    ensures var rows := Rows(WidthsLog(h, fails, ws, ds, samples, i, false).events);
      Ordered(rows) && forall p | 0 <= p < |rows| :: rows[p].width <= ws[i - 1] + 1
  {
    var p := i - 1;
    var n := ws[p];
    assert n in ws;
    WidthRows(h, fails, n, ds, samples);
    var before := WidthsLog(h, fails, ws, ds, samples, p, false).events;
    var block := WidthLog(h, fails, n, ds, samples, false).events;
    RowsAppend(before, block);
    if |ds| == 0 {
      assert Rows(block) == [];
    } else {
      DepthsOrder(h, fails, n, ds, samples, |ds|);
    }
    var w := n;
    if p > 0 {
      WidthsOrder(h, fails, ws, ds, samples, p);
      w := ws[p - 1] + 1;
      assert ws[p - 1] < n;
    } else {
      assert Rows(before) == [];
    }
    OrderedWidths(Rows(before), Rows(block), w, n + 1);
  }

  /** The keys of the first i widths of ws across the depths of ds. */
  function WidthKeys(plan: DepthPlan, ws: seq<int>, ds: seq<int>, i: nat): set<(int, Option<int>)>
    requires i <= |ws|
  {
    set a, b | 0 <= a < i && 0 <= b < |ds| :: (ws[a] + 1, Recorded(plan, ds[b]))
  }

  /** The first i widths write `samples` rows for each width and depth, and no other row. */
  lemma {:induction false} WidthsTally(h: Harness, fails: (int, int, nat) -> Stage, ws: seq<int>, ds: seq<int>, samples: nat, i: nat)
    requires i <= |ws| && Increasing(ws) && DepthListOk(h.plan, ds) && SweepSurvives(h, fails, ws, ds, samples)
    ensures Tally(Rows(WidthsLog(h, fails, ws, ds, samples, i, false).events), WidthKeys(h.plan, ws, ds, i), samples)
  {
    if i == 0 {
      forall k ensures Count([], k) == 0 {
      }
    } else {
      var p := i - 1;
      WidthsTally(h, fails, ws, ds, samples, p);
      WidthsShape(h, fails, ws, ds, samples, p);
      WidthsStep(h, fails, ws, ds, samples, i);
      var n := ws[p];
      assert n in ws;
      DepthsTally(h, fails, n, ds, samples, |ds|);
      var old_keys := WidthKeys(h.plan, ws, ds, p);
      var new_keys := DepthKeys(h.plan, n, ds, |ds|);
      KeysStep(h.plan, ws, ds, i);
      TallyAppend(Rows(WidthsLog(h, fails, ws, ds, samples, p, false).events), Rows(DepthsLog(h, fails, n, ds, samples, |ds|).events),
                  old_keys, new_keys, samples);
    }
  }

  lemma KeysStep(plan: DepthPlan, ws: seq<int>, ds: seq<int>, i: nat)
    requires 0 < i <= |ws| && Increasing(ws)
    ensures WidthKeys(plan, ws, ds, i - 1) !! DepthKeys(plan, ws[i - 1], ds, |ds|)
    ensures WidthKeys(plan, ws, ds, i) == WidthKeys(plan, ws, ds, i - 1) + DepthKeys(plan, ws[i - 1], ds, |ds|)
  {
    var p := i - 1;
    var n := ws[p];
    forall k | k in WidthKeys(plan, ws, ds, p) ensures k !in DepthKeys(plan, n, ds, |ds|) {
      var a, b :| 0 <= a < p && 0 <= b < |ds| && k == (ws[a] + 1, Recorded(plan, ds[b]));
      assert ws[a] < n;
    }
  }

  /** The key of the rows of circuit width n at depth d. */
  function CellKey(plan: DepthPlan, n: int, d: int): (int, Option<int>)
  {
    (n + 1, Recorded(plan, d))
  }

  /** The keys of the whole grid: width column `n + 1` for each swept n, and each recorded depth. */
  function GridKeys(h: Harness, o: Options): set<(int, Option<int>)>
  {
    set n, d | Low(h, o) <= n < o.qubits && d in Depths(h.plan, o.depth) :: CellKey(h.plan, n, d)
  }

  /** No trial of the grid raises out of the sweep. */
  predicate TrialsSurvive(h: Harness, o: Options, fails: (int, int, nat) -> Stage)
  {
    forall n, d | n in Widths(h, o) && d in Depths(h.plan, o.depth) :: CellSurvives(h, fails, n, d, o.samples)
  }

  /** Neither a progress line nor a trial of the grid raises out of the sweep. */
  predicate Survives(h: Harness, o: Options, fails: (int, int, nat) -> Stage)
  {
    !ProgressAborts(h, o) && TrialsSurvive(h, o, fails)
  }

  /** No call of bench raises before its final measurement. */
  ghost predicate GatesNeverRaise(fails: (int, int, nat) -> Stage)
  {
    forall n: int, d: int, i: nat :: fails(n, d, i) != RaisesInGates
  }

  /** No call of bench raises. */
  ghost predicate NeverFails(fails: (int, int, nat) -> Stage)
  {
    forall n: int, d: int, i: nat :: fails(n, d, i) == Completes
  }

  /**
   * Whatever the handlers, no trial of a sweep in which no call of bench
   * raises ends it; the sweep survives unless its progress line raises.
   */
  lemma QuietSurvives(h: Harness, o: Options, fails: (int, int, nat) -> Stage)
    requires NeverFails(fails)
    ensures TrialsSurvive(h, o, fails)
    ensures Survives(h, o, fails) <==> !ProgressAborts(h, o)
  {
  }

  /**
   * No trial of a harness whose try surrounds bench ends the sweep, whatever
   * fails; nor one of a harness whose bench catches only the measurement,
   * when nothing raises before it. The progress line is outside both.
   */
  lemma HandlerSurvives(h: Harness, o: Options, fails: (int, int, nat) -> Stage)
    requires h.onFailure.WriteSentinel? || (h.onFailure.ReportsFailure? && GatesNeverRaise(fails))
    ensures TrialsSurvive(h, o, fails)
    ensures Survives(h, o, fails) <==> !ProgressAborts(h, o)
  {
  }

  /** Creating the shared simulator writes nothing: the sweep writes its width loop's rows. */
  lemma SweepBody(h: Harness, o: Options, fails: (int, int, nat) -> Stage)
    ensures var body := WidthsLog(h, fails, Widths(h, o), Depths(h.plan, o.depth), o.samples, |Widths(h, o)|, ProgressRaises(h, o));
      SweepLog(h, o, fails).aborted == body.aborted
      && Rows(SweepLog(h, o, fails).events) == Rows(body.events)
  {
    var body := WidthsLog(h, fails, Widths(h, o), Depths(h.plan, o.depth), o.samples, |Widths(h, o)|, ProgressRaises(h, o));
    RowsAppend(Start(h), body.events);
    assert Rows(Start(h)) == [];
  }

  /** A flag that no width with a depth loop sees leaves the width loop as without it. */
  lemma {:induction false} WidthsQuiet(h: Harness, fails: (int, int, nat) -> Stage, ws: seq<int>, ds: seq<int>, samples: nat, i: nat, zero: bool)
    requires i <= |ws| && (zero ==> ds == [] || ws == [])
    ensures WidthsLog(h, fails, ws, ds, samples, i, zero) == WidthsLog(h, fails, ws, ds, samples, i, false)
  {
    if i > 0 {
      WidthsQuiet(h, fails, ws, ds, samples, i - 1, zero);
    }
  }

  /**
   * The rows of a sweep that no failure ends: `samples` rows for each
   * width and depth of the grid, ordered by width and then depth, and no
   * other row.
   */
  lemma SweepRows(h: Harness, o: Options, fails: (int, int, nat) -> Stage)
    requires Survives(h, o, fails)
    ensures !SweepLog(h, o, fails).aborted
    ensures Tally(Rows(SweepLog(h, o, fails).events), GridKeys(h, o), o.samples)
    ensures Ordered(Rows(SweepLog(h, o, fails).events))
    ensures |Rows(SweepLog(h, o, fails).events)| == |Widths(h, o)| * (|Depths(h.plan, o.depth)| * o.samples)
  {
    var ws := Widths(h, o);
    var ds := Depths(h.plan, o.depth);
    WidthsRange(h, o);
    DepthsRange(h.plan, o.depth);
    assert SweepSurvives(h, fails, ws, ds, o.samples);
    SweepBody(h, o, fails);
    WidthsQuiet(h, fails, ws, ds, o.samples, |ws|, ProgressRaises(h, o));
    WidthsShape(h, fails, ws, ds, o.samples, |ws|);
    WidthsTally(h, fails, ws, ds, o.samples, |ws|);
    if |ws| > 0 {
      WidthsOrder(h, fails, ws, ds, o.samples, |ws|);
    } else {
      assert Rows(WidthsLog(h, fails, ws, ds, o.samples, |ws|, false).events) == [];
    }
    GridKeysOf(h, o);
  }

  lemma GridKeysOf(h: Harness, o: Options)
    ensures GridKeys(h, o) == WidthKeys(h.plan, Widths(h, o), Depths(h.plan, o.depth), |Widths(h, o)|)
  {
    WidthsRange(h, o);
    KeysOfRange(h.plan, Widths(h, o), Depths(h.plan, o.depth), Low(h, o), o.qubits);
  }

  /** The cells of a width list that is exactly the range [low, high), keyed as the rows record them. */
  lemma KeysOfRange(plan: DepthPlan, ws: seq<int>, ds: seq<int>, low: int, high: int)
    requires forall n :: n in ws <==> low <= n < high
    ensures (set n, d | low <= n < high && d in ds :: CellKey(plan, n, d)) == WidthKeys(plan, ws, ds, |ws|)
  {
    var grid := set n, d | low <= n < high && d in ds :: CellKey(plan, n, d);
    forall k | k in grid ensures k in WidthKeys(plan, ws, ds, |ws|) {
      var n, d :| low <= n < high && d in ds && k == CellKey(plan, n, d);
      assert n in ws;
      var a :| 0 <= a < |ws| && ws[a] == n;
      var b :| 0 <= b < |ds| && ds[b] == d;
    }
    forall k | k in WidthKeys(plan, ws, ds, |ws|) ensures k in grid {
      var a, b :| 0 <= a < |ws| && 0 <= b < |ds| && k == (ws[a] + 1, Recorded(plan, ds[b]));
      assert ws[a] in ws && ds[b] in ds;
      assert k == CellKey(plan, ws[a], ds[b]);
    }
  }

  // ---------------------------------------------------------------------
  // What the rows say about the runs

  /**
   * Every trial starts with its bench call, and a row it writes records
   * the width of that call's circuit exactly when the harness runs the
   * recorded width; otherwise the circuit is one qubit narrower.
   */
  lemma TrialRecordsRun(h: Harness, fails: (int, int, nat) -> Stage, n: int, d: int, i: nat)
    ensures var t := Trial(h, fails, n, d, i);
      t.events[0].Run? && t.events[0].depth == Recorded(h.plan, d)
      && (!t.aborted ==>
            |Rows(t.events)| == 1
            && (h.runsRecordedWidth <==> Rows(t.events)[0].width == t.events[0].width)
            && Rows(t.events)[0].width == t.events[0].width + (if h.runsRecordedWidth then 0 else 1)
            && Rows(t.events)[0].depth == t.events[0].depth)
  {
    TrialRows(h, fails, n, d, i);
  }

  // ---------------------------------------------------------------------
  // The simulator's life

  /** The number of live simulators after one event, or None when the event misuses it. */
  function SimStep(live: nat, e: Event): Option<nat>
  {
    match e
    case NewSim => if live == 0 then Some(1) else None
    case DelSim => if live == 1 then Some(0) else None
    case Run(_, _) => if live == 1 then Some(1) else None
    case Write(_) => Some(live)
  }

  /**
   * The number of live simulators after the events, starting from `live`;
   * None when a simulator is created over a live one, deleted when there is
   * none, or a trial runs without exactly one.
   */
  function Alive(live: nat, s: seq<Event>): Option<nat>
    decreases |s|
  {
    if s == [] then Some(live)
    else match SimStep(live, s[0])
      case None => None
      case Some(next) => Alive(next, s[1..])
  }

  function AliveAfter(r: Option<nat>, s: seq<Event>): Option<nat>
  {
    match r
    case None => None
    case Some(live) => Alive(live, s)
  }

  lemma {:induction false} AliveAppend(live: nat, a: seq<Event>, b: seq<Event>)
    ensures Alive(live, a + b) == AliveAfter(Alive(live, a), b)
    decreases |a|
  {
    if a == [] {
      assert a + b == b;
    } else {
      assert (a + b)[0] == a[0];
      assert (a + b)[1..] == a[1..] + b;
      match SimStep(live, a[0])
      case None =>
      case Some(next) => AliveAppend(next, a[1..], b);
    }
  }

  /** The harness owns the simulator object: one shared, or one per width that it deletes. */
  predicate Owned(h: Harness)
  {
    h.sim.Shared? || h.sim.PerWidth?
  }

  /** Simulators live between widths: the shared one, or none. */
  function Idle(h: Harness): nat
  {
    if h.sim.Shared? then 1 else 0
  }

  /** A trial runs on the one live simulator and leaves one live, also when it re-creates it. */
  lemma TrialAlive(h: Harness, fails: (int, int, nat) -> Stage, n: int, d: int, i: nat)
    ensures Alive(1, Trial(h, fails, n, d, i).events) == Some(1)
  {
    var t := Trial(h, fails, n, d, i);
    var s := t.events;
    assert s[0].Run?;
    if |s| == 1 {
      assert s[1..] == [];
    } else if |s| == 2 {
      assert s[1].Write? && s[1..][0].Write? && s[1..][1..] == [];
      assert Alive(1, s[1..][1..]) == Some(1);
      assert Alive(1, s[1..]) == Some(1);
    } else {
      assert s[1] == DelSim && s[2].Write? && s[3] == NewSim && |s| == 4;
      var s1 := s[1..];
      var s2 := s1[1..];
      var s3 := s2[1..];
      assert s1[0] == DelSim && s2[0].Write? && s3 == [NewSim] && s3[1..] == [];
      assert Alive(0, s3) == Some(1);
      assert Alive(0, s2) == Some(1);
      assert Alive(1, s1) == Some(1);
    }
  }

  /** Opening a width leaves one simulator live, and closing it returns to the idle count. */
  lemma OpenCloseAlive(h: Harness)
    requires Owned(h)
    ensures Alive(Idle(h), Open(h)) == Some(1)
    ensures Alive(1, Close(h)) == Some(Idle(h))
  {
    if h.sim.PerWidth? {
      assert Open(h)[1..] == [] && Close(h)[1..] == [];
    }
  }

  /**
   * Two parts that each end with `live` simulators, or with `stuck` when a
   * failure stops them, do so one after the other.
   */
  lemma ThenAlive(live: nat, stuck: nat, l: Log, m: Log)
    requires Alive(live, l.events) == Some(if l.aborted then stuck else live)
    requires Alive(live, m.events) == Some(if m.aborted then stuck else live)
    ensures Alive(live, Then(l, m).events) == Some(if Then(l, m).aborted then stuck else live)
  {
    if !l.aborted {
      AliveAppend(live, l.events, m.events);
    }
  }

  lemma {:induction false} SamplesAlive(h: Harness, fails: (int, int, nat) -> Stage, n: int, d: int, k: nat)
    ensures Alive(1, Samples(h, fails, n, d, k).events) == Some(1)
  {
    if k > 0 {
      var i := k - 1;
      SamplesAlive(h, fails, n, d, i);
      TrialAlive(h, fails, n, d, i);
      ThenAlive(1, 1, Samples(h, fails, n, d, i), Trial(h, fails, n, d, i));
    }
  }

  lemma {:induction false} DepthsAlive(h: Harness, fails: (int, int, nat) -> Stage, n: int, ds: seq<int>, samples: nat, j: nat)
    requires j <= |ds|
    ensures Alive(1, DepthsLog(h, fails, n, ds, samples, j).events) == Some(1)
  {
    if j > 0 {
      var p := j - 1;
      DepthsAlive(h, fails, n, ds, samples, p);
      SamplesAlive(h, fails, n, ds[p], samples);
      ThenAlive(1, 1, DepthsLog(h, fails, n, ds, samples, p), Samples(h, fails, n, ds[p], samples));
    }
  }

  /** A width starts and ends with the idle simulators, unless a failure ends the sweep inside it. */
  lemma WidthAlive(h: Harness, fails: (int, int, nat) -> Stage, n: int, ds: seq<int>, samples: nat, zero: bool)
    requires Owned(h)
    ensures var w := WidthLog(h, fails, n, ds, samples, zero);
      Alive(Idle(h), w.events) == Some(if w.aborted then 1 else Idle(h))
  {
    var body := WidthBody(h, fails, n, ds, samples, zero);
    DepthsAlive(h, fails, n, ds, samples, |ds|);
    OpenCloseAlive(h);
    AliveAppend(Idle(h), Open(h), body.events);
    if !body.aborted {
      AliveAppend(Idle(h), Open(h) + body.events, Close(h));
    }
  }

  lemma {:induction false} WidthsAlive(h: Harness, fails: (int, int, nat) -> Stage, ws: seq<int>, ds: seq<int>, samples: nat, i: nat, zero: bool)
    requires i <= |ws| && Owned(h)
    ensures var l := WidthsLog(h, fails, ws, ds, samples, i, zero);
      Alive(Idle(h), l.events) == Some(if l.aborted then 1 else Idle(h))
  {
    if i > 0 {
      var p := i - 1;
      WidthsAlive(h, fails, ws, ds, samples, p, zero);
      WidthAlive(h, fails, ws[p], ds, samples, zero);
      ThenAlive(Idle(h), 1, WidthsLog(h, fails, ws, ds, samples, p, zero), WidthLog(h, fails, ws[p], ds, samples, zero));
    }
  }

  /**
   * Over the whole sweep no simulator is created over a live one or deleted
   * twice, and every trial runs on exactly one live simulator. At the end
   * the per-width scripts have deleted theirs and the shared one is still
   * live; a failure that ends the sweep leaves the current one live.
   */
  lemma SweepAlive(h: Harness, o: Options, fails: (int, int, nat) -> Stage)
    requires Owned(h)
    ensures var l := SweepLog(h, o, fails);
      Alive(0, l.events) == Some(if l.aborted then 1 else Idle(h))
  {
    var ws := Widths(h, o);
    var body := WidthsLog(h, fails, ws, Depths(h.plan, o.depth), o.samples, |ws|, ProgressRaises(h, o));
    WidthsAlive(h, fails, ws, Depths(h.plan, o.depth), o.samples, |ws|, ProgressRaises(h, o));
    AliveAppend(0, Start(h), body.events);
    if h.sim.Shared? {
      assert Start(h)[1..] == [];
    }
  }

  /**
   * Only a failure no handler catches ends the sweep early: the progress
   * line's division by zero, a harness without a handler, or bench's
   * measurement-only handler with a failure among the gates.
   */
  lemma AbortNeedsEscape(h: Harness, o: Options, fails: (int, int, nat) -> Stage)
    ensures SweepLog(h, o, fails).aborted ==>
      ProgressAborts(h, o) || h.onFailure.Propagate? || (h.onFailure.ReportsFailure? && !GatesNeverRaise(fails))
  {
    if !ProgressAborts(h, o) && (h.onFailure.WriteSentinel? || (h.onFailure.ReportsFailure? && GatesNeverRaise(fails))) {
      HandlerSurvives(h, o, fails);
      SweepRows(h, o, fails);
    }
  }

  /**
   * A sweep none of whose trials raises out of it ends early exactly when
   * its progress line raises, and then it has written no row; otherwise it
   * writes `samples` rows for each cell of the grid, in order.
   */
  lemma SweepOutcome(h: Harness, o: Options, fails: (int, int, nat) -> Stage)
    requires TrialsSurvive(h, o, fails)
    ensures var l := SweepLog(h, o, fails);
      (l.aborted <==> ProgressAborts(h, o))
      && (l.aborted ==> Rows(l.events) == [])
      && (!l.aborted ==> Tally(Rows(l.events), GridKeys(h, o), o.samples) && Ordered(Rows(l.events)))
  {
    if ProgressAborts(h, o) {
      ProgressAbortWritesNothing(h, o, fails);
    } else {
      SweepRows(h, o, fails);
    }
  }

  // ---------------------------------------------------------------------
  // The progress counter

  /** The denominator of the progress line: `(high - low) * depth`, or `high - low` without a depth loop. */
  function ProgressDenominator(h: Harness, o: Options): int
  {
    var span := o.qubits - Low(h, o);
    if h.plan.NoDepth? then span else span * o.depth
  }

  /** The progress line divides by zero: Python raises ZeroDivisionError, and nothing catches it. */
  predicate ProgressRaises(h: Harness, o: Options)
  {
    ProgressDenominator(h, o) == 0
  }

  /**
   * The progress fraction printed before the cell (n, d), as numerator and
   * denominator: `((n - low) * depth + d) / ((high - low) * depth)`, or
   * `(n - low) / (high - low)` without a depth loop; None when the
   * denominator is 0 and the division raises.
   */
  function Progress(h: Harness, o: Options, n: int, d: int): Option<(int, int)>
  {
    var low := Low(h, o);
    if ProgressRaises(h, o) then None
    else if h.plan.NoDepth? then Some((n - low, ProgressDenominator(h, o)))
    else Some(((n - low) * o.depth + d, ProgressDenominator(h, o)))
  }

  /** The sweep reaches a progress line, at its first width and depth, and that line raises. */
  predicate ProgressAborts(h: Harness, o: Options)
  {
    Widths(h, o) != [] && Depths(h.plan, o.depth) != [] && ProgressRaises(h, o)
  }

  /**
   * The progress line raises exactly under `--depth 0`, once there is a
   * width to sweep, and only for the depth lists not drawn from
   * `range(depth)`: the curated four, `[depth - 1]` and `range(20)`.
   */
  lemma ProgressAbortsExactly(h: Harness, o: Options)
    ensures ProgressAborts(h, o) <==>
      Widths(h, o) != [] && o.depth == 0 && (h.plan.Curated? || h.plan.LastDepth? || h.plan.Twenty?)
  {
    var ws := Widths(h, o);
    WidthsRange(h, o);
    if ws != [] {
      assert ws[0] in ws;
      var span := o.qubits - Low(h, o);
      assert span > 0;
      if o.depth != 0 {
        assert span * o.depth != 0;
      }
    }
  }

  /**
   * When the progress line raises, the sweep stops before its first trial:
   * it has created the simulators and written no row.
   */
  lemma ProgressAbortWritesNothing(h: Harness, o: Options, fails: (int, int, nat) -> Stage)
    requires ProgressAborts(h, o)
    ensures SweepLog(h, o, fails).aborted
    ensures SweepLog(h, o, fails).events == Start(h) + Open(h)
    ensures Rows(SweepLog(h, o, fails).events) == []
  {
    var ws := Widths(h, o);
    WidthsRaise(h, fails, ws, Depths(h.plan, o.depth), o.samples, |ws|);
    var s := Start(h) + Open(h);
    assert forall k | 0 <= k < |s| :: !s[k].Write?;
    NoRows(s);
  }

  /**
   * Under `--depth 0`, a sweep over the curated four depths, `[depth - 1]`
   * or `range(20)` with a width to sweep stops at its first progress line,
   * whatever bench does, having written no row.
   */
  lemma DepthZeroWritesNothing(h: Harness, o: Options, fails: (int, int, nat) -> Stage)
    requires o.depth == 0 && (h.plan.Curated? || h.plan.LastDepth? || h.plan.Twenty?) && Widths(h, o) != []
    ensures SweepLog(h, o, fails).aborted
    ensures SweepLog(h, o, fails).events == Start(h) + Open(h)
    ensures Rows(SweepLog(h, o, fails).events) == []
  {
    ProgressAbortsExactly(h, o);
    ProgressAbortWritesNothing(h, o, fails);
  }

  lemma {:induction false} WidthsRaise(h: Harness, fails: (int, int, nat) -> Stage, ws: seq<int>, ds: seq<int>, samples: nat, i: nat)
    requires 0 < i <= |ws| && ds != []
    ensures WidthsLog(h, fails, ws, ds, samples, i, true) == Log(Open(h), true)
  {
    var p := i - 1;
    if p > 0 {
      WidthsRaise(h, fails, ws, ds, samples, p);
    } else {
      assert WidthLog(h, fails, ws[0], ds, samples, true) == Log(Open(h) + [], true);
      assert [] + Open(h) + [] == Open(h);
    }
  }

  /** Depth lists whose entries all lie below `--depth`. */
  predicate DepthsBelow(plan: DepthPlan, depth: int)
  {
    match plan
    case EveryDepth => true
    case LastDepth => depth >= 1
    case Curated => depth >= 20
    case Twenty => depth >= 20
    case NoDepth => true
  }

  lemma DepthsBelowDepth(plan: DepthPlan, depth: int)
    requires DepthsBelow(plan, depth) && !plan.NoDepth?
    ensures forall d | d in Depths(plan, depth) :: 0 <= d < depth
  {
    var ds := Depths(plan, depth);
    var step := if plan.Curated? then 5 else 1;
    var first := if plan.Curated? then 4 else if plan.LastDepth? then depth - 1 else 0;
    forall d | d in ds ensures 0 <= d < depth {
      var a :| 0 <= a < |ds| && ds[a] == d;
      StrideAt(first, step, |ds|, a);
    }
  }

  lemma {:induction false} MulMono(a: nat, b: nat, c: nat)
    requires a <= b
    ensures a * c <= b * c
    decreases b - a
  {
    if a < b {
      var b0 := b - 1;
      MulMono(a, b0, c);
      MulStep(b0, c);
    }
  }

  /** (n - low) * depth + d < (n' - low) * depth + d' for cells in sweep order. */
  lemma CellsOrdered(k: nat, k': nat, depth: nat, d: nat, d': nat)
    requires k <= k' && d < depth && d' < depth
    requires k < k' || d < d'
    ensures k * depth + d < k' * depth + d'
  {
    if k < k' {
      MulStep(k, depth);
      MulMono(k + 1, k', depth);
    }
  }

  lemma FractionBelowOne(k: nat, span: nat, depth: nat, d: nat)
    requires k < span && d < depth
    ensures 0 <= k * depth + d < span * depth
  {
    MulMono(0, k, depth);
    CellsOrdered(k, span, depth, d, 0);
  }

  /** The progress of a swept cell lies in [0, 1), when the depth list stays below `--depth`. */
  lemma ProgressBelowOne(h: Harness, o: Options, n: int, d: int)
    requires n in Widths(h, o) && d in Depths(h.plan, o.depth) && DepthsBelow(h.plan, o.depth)
    ensures Progress(h, o, n, d).Some?
    ensures 0 <= Progress(h, o, n, d).value.0 < Progress(h, o, n, d).value.1
  {
    WidthsRange(h, o);
    var low := Low(h, o);
    var span := o.qubits - low;
    if !h.plan.NoDepth? {
      DepthsBelowDepth(h.plan, o.depth);
      var k := n - low;
      FractionBelowOne(k, span, o.depth, d);
      assert Progress(h, o, n, d) == Some((k * o.depth + d, span * o.depth));
    }
  }

  /** The progress grows along the sweep: a later width, or a later depth at the same width. */
  lemma ProgressIncreases(h: Harness, o: Options, n: int, d: int, n': int, d': int)
    requires n in Widths(h, o) && n' in Widths(h, o) && DepthsBelow(h.plan, o.depth)
    requires d in Depths(h.plan, o.depth) && d' in Depths(h.plan, o.depth)
    requires n < n' || (n == n' && d < d' && !h.plan.NoDepth?)
    ensures Progress(h, o, n, d).Some? && Progress(h, o, n', d').Some?
    ensures Progress(h, o, n, d).value.0 < Progress(h, o, n', d').value.0
  {
    ProgressBelowOne(h, o, n, d);
    ProgressBelowOne(h, o, n', d');
    WidthsRange(h, o);
    if !h.plan.NoDepth? {
      DepthsBelowDepth(h.plan, o.depth);
      CellsOrdered(n - Low(h, o), n' - Low(h, o), o.depth, d, d');
    }
  }

  /**
   * A `range(20)` depth loop under a smaller `--depth` overruns the
   * counter: the last cell of the last width prints a progress of at least 1.
   */
  lemma TwentyOverruns(h: Harness, o: Options)
    requires h.plan.Twenty? && 0 < o.depth < 20 && Low(h, o) < o.qubits
    ensures o.qubits - 1 in Widths(h, o) && 19 in Depths(h.plan, o.depth)
    ensures Progress(h, o, o.qubits - 1, 19).Some?
    ensures Progress(h, o, o.qubits - 1, 19).value.0 >= Progress(h, o, o.qubits - 1, 19).value.1
  {
    WidthsRange(h, o);
    LastOfTwenty(o.depth);
    LastCellOverruns(h, o);
  }

  lemma LastCellOverruns(h: Harness, o: Options)
    requires !h.plan.NoDepth? && 0 < o.depth < 20 && Low(h, o) < o.qubits
    ensures Progress(h, o, o.qubits - 1, 19).Some?
    ensures Progress(h, o, o.qubits - 1, 19).value.0 >= Progress(h, o, o.qubits - 1, 19).value.1
  {
    var low := Low(h, o);
    Overrun(o.qubits - 1, low, o.qubits, o.depth, 19);
  }

  lemma LastOfTwenty(depth: int)
    ensures 19 in Depths(Twenty, depth)
  {
    StrideAt(0, 1, 20, 19);
  }

  lemma Overrun(n: int, low: int, high: int, depth: int, d: int)
    requires n == high - 1 && low < high && 0 < depth <= d
    ensures 0 < (high - low) * depth <= (n - low) * depth + d
  {
    var k := n - low;
    MulStep(k, depth);
    assert high - low == k + 1;
    MulMono(1, k + 1, depth);
  }

  // ---------------------------------------------------------------------
  // The CSV file across runs

  /** The file after a run that appends these rows to it. */
  function Appended(file: Option<seq<Line>>, fields: seq<string>, rows: seq<Row>): seq<Line>
  {
    Opened(file, fields) + DataLines(rows)
  }

  /** The file after successive runs, each appending one batch of rows; None before the first run. */
  function FileAfter(fields: seq<string>, batches: seq<seq<Row>>): Option<seq<Line>>
  {
    if batches == [] then None
    else
      var p := |batches| - 1;
      Some(Appended(FileAfter(fields, batches[..p]), fields, batches[p]))
  }

  /** All batches, in order. */
  function Flatten(batches: seq<seq<Row>>): seq<Row>
  {
    if batches == [] then []
    else
      var p := |batches| - 1;
      Flatten(batches[..p]) + batches[p]
  }

  lemma {:induction false} DataLinesAppend(a: seq<Row>, b: seq<Row>)
    ensures DataLines(a + b) == DataLines(a) + DataLines(b)
  {
    var l := DataLines(a + b);
    var r := DataLines(a) + DataLines(b);
    assert |l| == |r|;
    forall i | 0 <= i < |l| ensures l[i] == r[i] {
      if i < |a| {
        assert (a + b)[i] == a[i];
      } else {
        assert (a + b)[i] == b[i - |a|];
      }
    }
  }

  /** One more run appends its rows to the file the earlier runs left. */
  lemma FileAfterStep(fields: seq<string>, batches: seq<seq<Row>>, x: seq<Line>)
    requires |batches| > 1
    requires FileAfter(fields, batches[..|batches| - 1]) == Some([Header(fields)] + x)
    ensures var p := |batches| - 1;
      FileAfter(fields, batches) == Some(([Header(fields)] + x) + DataLines(batches[p]))
      && Flatten(batches) == Flatten(batches[..p]) + batches[p]
  {
  }

  /** However many runs append to the file, it holds the header followed by every run's rows in order. */
  lemma {:induction false} FileAfterRuns(fields: seq<string>, batches: seq<seq<Row>>)
    requires batches != []
    ensures FileAfter(fields, batches) == Some([Header(fields)] + DataLines(Flatten(batches)))
  {
    var p := |batches| - 1;
    var before := batches[..p];
    if before == [] {
      assert Flatten(batches) == [] + batches[p];
      assert [] + batches[p] == batches[p];
      assert FileAfter(fields, batches) == Some([Header(fields)] + DataLines(batches[p]));
    } else {
      FileAfterRuns(fields, before);
      var x := DataLines(Flatten(before));
      var y := DataLines(batches[p]);
      FileAfterStep(fields, batches, x);
      DataLinesAppend(Flatten(before), batches[p]);
      AccumulateStep([Header(fields)], x, y, x + y, [Header(fields)] + (x + y));
    }
  }

  /** So the header is the file's first line and no other line is a header. */
  lemma HeaderOnce(fields: seq<string>, batches: seq<seq<Row>>)
    requires batches != []
    ensures var lines := FileAfter(fields, batches).value;
      forall i | 0 <= i < |lines| :: lines[i].Header? <==> i == 0
  {
    FileAfterRuns(fields, batches);
    var data := DataLines(Flatten(batches));
    var lines := [Header(fields)] + data;
    forall i | 0 <= i < |lines| ensures lines[i].Header? <==> i == 0 {
      if i > 0 {
        assert lines[i] == data[i - 1];
      }
    }
  }

  // ---------------------------------------------------------------------
  // Consequences

  lemma {:induction false} CountOfMember(rows: seq<Row>, p: nat)
    requires p < |rows|
    ensures Count(rows, KeyOf(rows[p])) >= 1
  {
    if p > 0 {
      var q := p - 1;
      assert rows[1..][q] == rows[p];
      CountOfMember(rows[1..], q);
    }
  }

  /** A sweep that no failure ends writes no row outside the grid. */
  lemma RowsInGrid(h: Harness, o: Options, fails: (int, int, nat) -> Stage)
    requires Survives(h, o, fails)
    ensures forall r | r in Rows(SweepLog(h, o, fails).events) :: KeyOf(r) in GridKeys(h, o)
  {
    SweepRows(h, o, fails);
    var rows := Rows(SweepLog(h, o, fails).events);
    forall r | r in rows ensures KeyOf(r) in GridKeys(h, o) {
      var p :| 0 <= p < |rows| && rows[p] == r;
      CountOfMember(rows, p);
    }
  }

  /** Every call of bench raises an exception that nothing catches. */
  ghost predicate AlwaysEscapes(h: Harness, fails: (int, int, nat) -> Stage)
  {
    forall n: int, d: int, i: nat :: Escapes(h, fails, n, d, i)
  }

  lemma {:induction false} SamplesAbort(h: Harness, fails: (int, int, nat) -> Stage, n: int, d: int, k: nat)
    requires AlwaysEscapes(h, fails) && k > 0
    ensures Samples(h, fails, n, d, k) == Log([Run(CircuitWidth(h, n), Recorded(h.plan, d))], true)
  {
    var i := k - 1;
    if i > 0 {
      SamplesAbort(h, fails, n, d, i);
    } else {
      assert Escapes(h, fails, n, d, 0);
      assert [] + [Run(CircuitWidth(h, n), Recorded(h.plan, d))] == [Run(CircuitWidth(h, n), Recorded(h.plan, d))];
    }
  }

  lemma {:induction false} DepthsAbort(h: Harness, fails: (int, int, nat) -> Stage, n: int, ds: seq<int>, samples: nat, j: nat)
    requires AlwaysEscapes(h, fails) && samples > 0 && 0 < j <= |ds|
    ensures DepthsLog(h, fails, n, ds, samples, j) == Log([Run(CircuitWidth(h, n), Recorded(h.plan, ds[0]))], true)
  {
    var p := j - 1;
    if p > 0 {
      DepthsAbort(h, fails, n, ds, samples, p);
    } else {
      SamplesAbort(h, fails, n, ds[0], samples);
      assert [] + [Run(CircuitWidth(h, n), Recorded(h.plan, ds[0]))] == [Run(CircuitWidth(h, n), Recorded(h.plan, ds[0]))];
    }
  }

  lemma {:induction false} WidthsAbort(h: Harness, fails: (int, int, nat) -> Stage, ws: seq<int>, ds: seq<int>, samples: nat, i: nat)
    requires AlwaysEscapes(h, fails) && samples > 0 && 0 < i <= |ws| && ds != []
    ensures WidthsLog(h, fails, ws, ds, samples, i, false) == Log(Open(h) + [Run(CircuitWidth(h, ws[0]), Recorded(h.plan, ds[0]))], true)
  {
    var p := i - 1;
    if p > 0 {
      WidthsAbort(h, fails, ws, ds, samples, p);
    } else {
      DepthsAbort(h, fails, ws[0], ds, samples, |ds|);
      var e := Open(h) + [Run(CircuitWidth(h, ws[0]), Recorded(h.plan, ds[0]))];
      assert WidthLog(h, fails, ws[0], ds, samples, false) == Log(e, true);
      assert [] + e == e;
    }
  }

  /**
   * When every call of bench raises and nothing catches it, the sweep stops at its
   * first trial: it creates the simulator, runs once, and writes no row. When
   * the progress line raises first, it stops before that run.
   */
  lemma AbortsAtFirstTrial(h: Harness, o: Options, fails: (int, int, nat) -> Stage)
    requires AlwaysEscapes(h, fails) && o.samples > 0
    requires Widths(h, o) != [] && Depths(h.plan, o.depth) != []
    ensures SweepLog(h, o, fails).aborted
    ensures SweepLog(h, o, fails).events
         == Start(h) + Open(h)
            + (if ProgressRaises(h, o) then [] else [Run(CircuitWidth(h, Low(h, o)), Recorded(h.plan, Depths(h.plan, o.depth)[0]))])
    ensures Rows(SweepLog(h, o, fails).events) == []
  {
    if ProgressRaises(h, o) {
      ProgressAbortWritesNothing(h, o, fails);
      assert Start(h) + Open(h) + [] == Start(h) + Open(h);
      return;
    }
    var ws := Widths(h, o);
    var ds := Depths(h.plan, o.depth);
    WidthsAbort(h, fails, ws, ds, o.samples, |ws|);
    var run := Run(CircuitWidth(h, Low(h, o)), Recorded(h.plan, ds[0]));
    assert ws[0] == Low(h, o);
    assert Start(h) + (Open(h) + [run]) == Start(h) + Open(h) + [run];
    var s := Start(h) + Open(h) + [run];
    assert forall k | 0 <= k < |s| :: !s[k].Write?;
    NoRows(s);
  }

  lemma {:induction false} NoRows(s: seq<Event>)
    requires forall k | 0 <= k < |s| :: !s[k].Write?
    ensures Rows(s) == []
  {
    if s != [] {
      NoRows(s[1..]);
    }
  }
}
