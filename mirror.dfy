/**
 * pyqrack_random_circuit_validation.py: a random permutation state is
 * prepared, a random circuit is applied and recorded, the record is
 * replayed in reverse, and the measured state is compared with the
 * permutation. Undoing a circuit means applying the adjoint of each gate in
 * reverse order; the written replay applies the gates themselves.
 */
module Mirror {
  import opened Gates
  import opened Singles
  import opened Pools
  import opened Basis
  import opened RandomCircuits
  import opened RandomFiles

  // ---------------------------------------------------------------------
  // Adjoints of instructions

  /** The two-qubit gates the scripts use that are their own inverse. */
  const SelfInversePairs: set<Gate> := {Swap, CNOT, CY, CZ, AntiCNOT, AntiCY, AntiCZ}

  /** The three-qubit gates the scripts use that are their own inverse. */
  const SelfInverseTriples: set<Gate> := {CCNOT, CCY, CCZ, AntiCCNOT, AntiCCY, AntiCCZ}

  /** The instruction that undoes i, on the same qubits, when the model knows one. */
  function InstrAdjoint(i: Instr): (a: Option<Instr>)
    ensures a.Some? ==> Operands(a.value) == Operands(i)
    ensures a.Some? ==> (a.value.One? <==> i.One?) && (a.value.Two? <==> i.Two?) && (a.value.Three? <==> i.Three?)
  {
    match i
    case One(g, q) => if Adjoint(g).Some? then Some(One(Adjoint(g).value, q)) else None
    case Two(g, _, _) => if g in SelfInversePairs then Some(i) else None
    case Three(g, _, _, _) => if g in SelfInverseTriples then Some(i) else None
    case _ => None
  }

  /** Undoing the undoing gives the instruction back. */
  lemma AdjointInvolution(i: Instr)
    requires InstrAdjoint(i).Some?
    ensures InstrAdjoint(InstrAdjoint(i).value) == Some(i)
  {
    if i.One? {
      match i.g
      case H =>
      case X =>
      case Y =>
      case Z =>
      case S =>
      case Sdg =>
      case T =>
      case Tdg =>
      case _ =>
    }
  }

  predicate Invertible(c: seq<Instr>)
  {
    forall i | i in c :: InstrAdjoint(i).Some?
  }

  // ---------------------------------------------------------------------
  // The mirror image of a recorded circuit

  /** The adjoints of the recorded instructions, last one first. */
  function Mirrored(c: seq<Instr>): (m: seq<Instr>)
    requires Invertible(c)
    ensures |m| == |c|
    ensures forall k | 0 <= k < |c| :: Some(m[k]) == InstrAdjoint(c[|c| - 1 - k])
  {
    if c == [] then [] else [InstrAdjoint(c[|c| - 1]).value] + Mirrored(c[..|c| - 1])
  }

  /**
   * A circuit followed by its mirror image meets each gate with its adjoint:
   * the k-th instruction from the end undoes the k-th from the start.
   */
  lemma MirrorCancels(c: seq<Instr>)
    requires Invertible(c)
    ensures var w := c + Mirrored(c);
      |w| == 2 * |c| && forall k | 0 <= k < |c| :: Some(w[|w| - 1 - k]) == InstrAdjoint(w[k])
  {
    var m := Mirrored(c);
    var w := c + m;
    forall k | 0 <= k < |c| ensures Some(w[|w| - 1 - k]) == InstrAdjoint(w[k]) {
      assert w[|w| - 1 - k] == m[|c| - 1 - k];
    }
  }

  /** The mirror image is itself invertible, and mirroring it again gives the circuit back. */
  lemma MirrorInvolution(c: seq<Instr>)
    requires Invertible(c)
    ensures Invertible(Mirrored(c)) && Mirrored(Mirrored(c)) == c
  {
    var m := Mirrored(c);
    forall i | i in m ensures InstrAdjoint(i).Some? {
      var k :| 0 <= k < |m| && m[k] == i;
      AdjointInvolution(c[|c| - 1 - k]);
    }
    var mm := Mirrored(m);
    forall k | 0 <= k < |c| ensures mm[k] == c[k] {
      AdjointInvolution(c[k]);
    }
  }

  /**
   * The replay loop: the record reversed in place, then each entry undone
   * in the new order.
   */
  method Replay(gateList: seq<Instr>) returns (m: seq<Instr>)
    requires Invertible(gateList)
    ensures m == Mirrored(gateList)
  {
    var reversed := Reverse(gateList);
    m := [];
    var k := 0;
    while k < |reversed|
      invariant k <= |reversed| && |m| == k
      invariant forall j | 0 <= j < k :: Some(m[j]) == InstrAdjoint(reversed[j])
    {
      assert reversed[k] in gateList;
      m := m + [InstrAdjoint(reversed[k]).value];
      k := k + 1;
    }
    var target := Mirrored(gateList);
    forall j | 0 <= j < |m| ensures m[j] == target[j] {
    }
  }

  // ---------------------------------------------------------------------
  // The replay as written

  /** `gate_list.reverse()`, then each recorded gate applied again as it is. */
  function ReplayAsWritten(c: seq<Instr>): seq<Instr>
  {
    Reverse(c)
  }

  /**
   * The written replay undoes the record exactly when every recorded gate
   * is its own inverse; a single T is already replayed as T, not T-dagger.
   */
  lemma ReplayAsWrittenExact(c: seq<Instr>)
    requires Invertible(c)
    ensures ReplayAsWritten(c) == Mirrored(c) <==> forall i | i in c :: InstrAdjoint(i) == Some(i)
    ensures ReplayAsWritten([One(T, 0)]) != Mirrored([One(T, 0)])
  {
    var r, m := ReplayAsWritten(c), Mirrored(c);
    if r == m {
      forall i | i in c ensures InstrAdjoint(i) == Some(i) {
        var k :| 0 <= k < |c| && c[k] == i;
        assert r[|c| - 1 - k] == i;
      }
    }
    if forall i | i in c :: InstrAdjoint(i) == Some(i) {
      forall k | 0 <= k < |c| ensures r[k] == m[k] {
        assert c[|c| - 1 - k] in c;
      }
    }
    assert Mirrored([One(T, 0)])[0] == One(Tdg, 0);
  }

  // ---------------------------------------------------------------------
  // The validation circuit

  /**
   * One call of the replay loop as written (lines 97-103). A recorded
   * single-qubit gate is a method bound to `sim` and is called with its
   * qubit. A recorded two- or three-qubit helper (`cx`, `ccx`, ...) takes
   * the simulator first; called with its qubits alone it raises `TypeError`
   * (None).
   */
  function ReplayCallAsWritten(i: Instr): Option<Instr>
  {
    if i.One? then Some(i) else None
  }

  /** The replay loop as written, over the reversed record; None when some call raises. */
  function ReplayCallsAsWritten(c: seq<Instr>): Option<seq<Instr>>
  {
    if c == [] then Some([])
    else match ReplayCallAsWritten(c[0])
      case None => None
      case Some(i) =>
        match ReplayCallsAsWritten(c[1..])
        case None => None
        case Some(rest) => Some([i] + rest)
  }

  /**
   * The calls as written complete exactly when the record holds one-qubit
   * gates only, and then apply the record as it stands.
   */
  lemma {:induction false} ReplayCallsAsWrittenRaises(c: seq<Instr>)
    ensures ReplayCallsAsWritten(c).Some? <==> SingleQubitOnly(c)
    ensures ReplayCallsAsWritten(c).Some? ==> ReplayCallsAsWritten(c).value == c
  {
    if c != [] {
      ReplayCallsAsWrittenRaises(c[1..]);
      assert c == [c[0]] + c[1..];
      if !c[0].One? {
        assert !SingleQubitOnly(c);
      }
      if SingleQubitOnly(c) {
        assert forall i | i in c[1..] :: i in c;
      }
    }
  }

  /** The corrected script: its grouping loop starts from the list of all qubits. */
  const ValidationVariant := RandomVariant(Some(Pick(EightSingles, [])),
    Grouped(DenseRule, PythonChoice, QubitList), NoMeasure, false)

  function ValidationPerm(src: Source, n: nat): (perm: nat)
    ensures perm < Pow2(n)
  {
    RandPerm(n, src.rand(TrialDraw(0)))
  }

  lemma ValidationValid()
    ensures ValidRandomVariant(ValidationVariant) && ValidationLike(ValidationVariant)
  {
    VariantsValid();
    assert ValidationVariant == PyqrackExtendedVariant.(final := NoMeasure, resetFirst := false);
  }

  /**
   * The pool as written, `[range(num_qubits)]`: the grouping loop never
   * runs, so the recorded layers are the single-qubit passes alone and the
   * mirror test never meets a two- or three-qubit gate.
   */
  lemma ValidationAsWrittenSingleQubitOnly(src: Source, n: nat, depth: nat)
    ensures ValidRandomVariant(AsWritten(ValidationVariant))
    ensures Layers(AsWritten(ValidationVariant), src, n, depth, depth)
         == Layers(ValidationVariant.(groups := NoGroups), src, n, depth, depth)
    ensures SingleQubitOnly(Layers(AsWritten(ValidationVariant), src, n, depth, depth))
  {
    ValidationValid();
    WrappedRangeNeverGroups(AsWritten(ValidationVariant), src, n, depth, depth);
    WrappedRangeSingleQubitOnly(AsWritten(ValidationVariant), src, n, depth, depth);
  }

  /** On two or more qubits, every layer of the fixed pool couples some qubits. */
  lemma ValidationLayerCouples(src: Source, n: nat, d: nat)
    requires n >= 2
    ensures ValidRandomVariant(ValidationVariant)
    ensures var g := GroupPart(ValidationVariant, src, n, d); g != [] && !g[0].One?
  {
    ValidationValid();
    var g := GroupPart(ValidationVariant, src, n, d);
    GroupPartSound(ValidationVariant, src, n, d);
    GroupPartGates(ValidationVariant, src, n, d);
    assert g[0] in g;
  }

  /** A record holding a gate on more than one qubit makes the replay as written raise. */
  lemma CoupledReplayRaises(b: seq<Instr>, done: seq<Instr>, layer: seq<Instr>, singles: seq<Instr>, g: seq<Instr>)
    requires b == done + layer && layer == singles + g && g != [] && !g[0].One?
    ensures ReplayCallsAsWritten(Reverse(b)).None?
  {
    var r := Reverse(b);
    var k := |done| + |singles|;
    assert b[k] == g[0];
    assert r[|b| - 1 - k] == g[0];
    ReplayCallsAsWrittenRaises(r);
  }

  /** The layers of a run are the ones before the last, then the last layer's single-qubit and grouped parts. */
  lemma LastLayerSplit(v: RandomVariant, src: Source, n: nat, depth: nat, d: nat)
    requires ValidRandomVariant(v) && depth == d + 1
    ensures Layers(v, src, n, depth, depth)
         == Layers(v, src, n, depth, d) + (SinglesPart(v, src, n, depth, d) + GroupPart(v, src, n, d))
  {
    LayersStep(v, src, n, depth, depth);
  }

  /** A run whose last layer couples some qubits makes the replay as written raise. */
  lemma LastLayerReplayRaises(v: RandomVariant, src: Source, n: nat, depth: nat, d: nat)
    requires ValidRandomVariant(v) && depth == d + 1
    requires GroupPart(v, src, n, d) != [] && !GroupPart(v, src, n, d)[0].One?
    ensures ReplayCallsAsWritten(Reverse(Layers(v, src, n, depth, depth))).None?
  {
    var singles, g := SinglesPart(v, src, n, depth, d), GroupPart(v, src, n, d);
    LastLayerSplit(v, src, n, depth, d);
    CoupledReplayRaises(Layers(v, src, n, depth, depth), Layers(v, src, n, depth, d), singles + g, singles, g);
  }

  /**
   * With the pool fixed, a run on two or more qubits records a two- or
   * three-qubit gate in its last layer, so the replay as written raises.
   */
  lemma ValidationReplayAsWrittenRaises(src: Source, n: nat, depth: nat)
    requires n >= 2 && depth >= 1
    ensures ReplayCallsAsWritten(Reverse(Layers(ValidationVariant, src, n, depth, depth))).None?
  {
    var d := depth - 1;
    ValidationLayerCouples(src, n, d);
    LastLayerReplayRaises(ValidationVariant, src, n, depth, d);
  }

  /** The eight single-qubit gates of the extended and validation scripts all have adjoints. */
  lemma EightInvertible(i: Instr)
    requires i.One? && [i.g] in EightSingles
    ensures InstrAdjoint(i).Some?
  {
  }

  /** The pair and triple gates of the dense rule are all their own inverse. */
  lemma DenseInvertible(i: Instr)
    requires GateOf(i, DenseRule)
    ensures InstrAdjoint(i) == Some(i)
  {
  }

  lemma InvertibleBoth(a: seq<Instr>, b: seq<Instr>)
    requires Invertible(a) && Invertible(b)
    ensures Invertible(a + b)
  {
  }

  /** The gate choices of the validation script: eight single-qubit gates, the dense rule. */
  predicate ValidationLike(v: RandomVariant)
  {
    ValidRandomVariant(v) && v.singles == Some(Pick(EightSingles, [])) &&
    v.groups.Grouped? && v.groups.rule == DenseRule
  }

  /** Every gate of a validation layer has a known adjoint. */
  lemma LayerInvertible(v: RandomVariant, src: Source, n: nat, depth: nat, d: nat)
    requires ValidationLike(v)
    ensures Invertible(LayerOf(v, src, n, depth, d))
  {
    var singles := SinglesPart(v, src, n, depth, d);
    var groups := GroupPart(v, src, n, d);
    OneGatePerQubit(Pick(EightSingles, []), src, n, depth, d, [], n);
    forall i | i in singles ensures InstrAdjoint(i).Some? {
      var q :| 0 <= q < |singles| && singles[q] == i;
      EightInvertible(i);
    }
    GroupPartGates(v, src, n, d);
    forall i | i in groups ensures InstrAdjoint(i).Some? {
      DenseInvertible(i);
    }
    InvertibleBoth(singles, groups);
  }

  /** Layers made of invertible layers are invertible. */
  lemma {:induction false} LayersOfInvertible(v: RandomVariant, src: Source, n: nat, depth: nat, k: nat)
    requires ValidRandomVariant(v)
    requires forall d: nat :: Invertible(LayerOf(v, src, n, depth, d))
    ensures Invertible(Layers(v, src, n, depth, k))
  {
    if k > 0 {
      var j := k - 1;
      var done, layer := Layers(v, src, n, depth, j), LayerOf(v, src, n, depth, j);
      LayersStep(v, src, n, depth, k);
      assert Layers(v, src, n, depth, k) == done + layer;
      LayersOfInvertible(v, src, n, depth, j);
      InvertibleBoth(done, layer);
    }
  }

  lemma LayersInvertible(v: RandomVariant, src: Source, n: nat, depth: nat, k: nat)
    requires ValidationLike(v)
    ensures Invertible(Layers(v, src, n, depth, k))
  {
    forall d: nat ensures Invertible(LayerOf(v, src, n, depth, d)) {
      LayerInvertible(v, src, n, depth, d);
    }
    LayersOfInvertible(v, src, n, depth, k);
  }

  /** Reset, preparation of `rand_perm`, the recorded layers, their replay, one measurement. */
  function ValidationCircuit(src: Source, n: nat, depth: nat): seq<Instr>
  {
    ValidationValid();
    var body := Layers(ValidationVariant, src, n, depth, depth);
    LayersInvertible(ValidationVariant, src, n, depth, depth);
    [ResetAll] + Prep(n, ValidationPerm(src, n)) + body + Mirrored(body) + [MeasureAll(n)]
  }

  /** The mirror image of gates on distinct register qubits is such gates too. */
  lemma MirroredGates(c: seq<Instr>, n: nat)
    requires Invertible(c) && AllGates(c, n)
    ensures AllGates(Mirrored(c), n)
  {
    var m := Mirrored(c);
    forall i | i in m ensures IsGate(i, n) {
      var k :| 0 <= k < |m| && m[k] == i;
      assert IsGate(c[|c| - 1 - k], n);
    }
  }

  /**
   * The validation circuit is well formed, measures only at the end, and
   * between the preparation and the measurement each gate meets its adjoint.
   * The preparation takes the all-zero register to the basis state whose
   * packed bits are `rand_perm`.
   */
  lemma ValidationShape(src: Source, n: nat, depth: nat)
    ensures var c := ValidationCircuit(src, n, depth);
      AllWellFormed(c, n) && c[0] == ResetAll && NoMeasurement(c[..|c| - 1]) && c[|c| - 1] == MeasureAll(n)
    ensures var body := Layers(ValidationVariant, src, n, depth, depth);
      Invertible(body) &&
      var w := body + Mirrored(body);
      forall k | 0 <= k < |body| :: Some(w[|w| - 1 - k]) == InstrAdjoint(w[k])
    ensures Pack(Flip(Zeros(n), Prep(n, ValidationPerm(src, n)))) == ValidationPerm(src, n)
  {
    ValidationValid();
    var body := Layers(ValidationVariant, src, n, depth, depth);
    var prep := Prep(n, ValidationPerm(src, n));
    LayersInvertible(ValidationVariant, src, n, depth, depth);
    LayersGatesOnly(ValidationVariant, src, n, depth, depth);
    MirroredGates(body, n);
    PrepGates(n, ValidationPerm(src, n));
    GatesBoth(prep, body, n);
    GatesBoth(prep + body, Mirrored(body), n);
    ResetGatesMeasure(prep + body + Mirrored(body), n);
    MirrorCancels(body);
    PrepReachesPerm(n, ValidationPerm(src, n));
  }

  method ValidationBench(src: Source, n: nat, depth: nat) returns (circ: seq<Instr>)
    ensures circ == ValidationCircuit(src, n, depth)
    ensures AllWellFormed(circ, n) && circ[0] == ResetAll
    ensures NoMeasurement(circ[..|circ| - 1]) && circ[|circ| - 1] == MeasureAll(n)
  {
    ValidationValid();
    var prep := PrepareBasis(n, ValidationPerm(src, n));
    var gateList := Generate(ValidationVariant, src, n, depth);
    CircuitIsLayers(ValidationVariant, src, n, depth);
    LayersInvertible(ValidationVariant, src, n, depth, depth);
    var replay := Replay(gateList);
    circ := [ResetAll] + prep + gateList + replay + [MeasureAll(n)];
    ValidationShape(src, n, depth);
  }

  // ---------------------------------------------------------------------
  // The final comparison

  datatype Verdict = Passed | MirroringFailed

  /** As written, `Exception("Mirroring failed!")` is built and dropped: every run passes. */
  function CheckAsWritten(measured: nat, perm: nat): Verdict
  {
    Passed
  }

  /** A measurement other than the prepared state passes the written check. */
  lemma CheckAsWrittenAcceptsMismatch()
    ensures CheckAsWritten(1, 0) == Passed
  {
  }

  /** The intended check: a run fails exactly when the measured state is not `rand_perm`. */
  function Check(measured: nat, perm: nat): (v: Verdict)
    ensures v == Passed <==> measured == perm
  {
    if measured == perm then Passed else MirroringFailed
  }
}
