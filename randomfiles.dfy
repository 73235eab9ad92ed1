/**
 * The random-circuit scripts, one `RandomVariant` and one generator method
 * per script, and the facts particular to each: which gates its layers may
 * hold, how many qubits its grouping loop leaves idle, and the circuit's
 * length where the script has no grouping loop.
 */
module RandomFiles {
  import opened Gates
  import opened Singles
  import opened Pools
  import opened Basis
  import opened RandomCircuits

  // ---------------------------------------------------------------------
  // Gate lists shared by several scripts

  const FiveSingles: seq<seq<Gate>> := [[H], [X], [Y], [Z], [T]]
  const EightSingles: seq<seq<Gate>> := [[H], [X], [Y], [Z], [T], [S], [Tdg], [Sdg]]

  const SwapCnotCz: seq<Gate> := [Swap, CNOT, CZ]

  /** `swap, cx, cz, cy, acx, acz, acy`. */
  const SevenPairs: seq<Gate> := [Swap, CNOT, CZ, CY, AntiCNOT, AntiCZ, AntiCY]

  /** `ccx, ccy, ccz, accx, accy, accz`. */
  const SixTriples: seq<Gate> := [CCNOT, CCY, CCZ, AntiCCNOT, AntiCCY, AntiCCZ]

  /** The Python rule with `multi_bit_gates = swap, cx, cz, toffoli`: Toffoli redrawn while no third qubit remains. */
  const ToffoliRule := FromLists(SwapCnotCz, [CCNOT])

  /** The Python rule with two-qubit gates only. */
  const PairRule := FromLists(SwapCnotCz, [])

  const DenseRule := FromLists(SevenPairs, SixTriples)

  // ---------------------------------------------------------------------
  // The variants

  const QrackRandomVariant := RandomVariant(Some(Buckets([[H], [X], [Y], [T]])),
    Grouped(MaxGates, QrackRand, QubitList), MeasureAllQubits, false)

  const QrackNestedVariant := RandomVariant(Some(CliffordPhase),
    Grouped(Nested, QrackRand, QubitList), MeasureAllQubits, false)

  const PyqrackDenseVariant := RandomVariant(Some(Pick(BasisSwitches, [Rz])),
    Grouped(DenseRule, PythonChoice, QubitList), MeasureAllQubits, true)

  const PyqrackRandomVariant := RandomVariant(Some(Pick(FiveSingles, [])),
    Grouped(ToffoliRule, PythonChoice, QubitList), MeasureAllQubits, true)

  const PyqrackExtendedVariant := RandomVariant(Some(Pick(EightSingles, [])),
    Grouped(DenseRule, PythonChoice, QubitList), MeasureAllQubits, true)

  const QiskitRandomVariant := RandomVariant(Some(Pick(FiveSingles, [])),
    Grouped(ToffoliRule, PythonChoice, QubitList), MeasureEachQubit, false)

  const CirqRandomVariant := RandomVariant(Some(Pick(FiveSingles, [])),
    Grouped(PairRule, PythonChoice, QubitList), MeasureEachQubit, false)

  const PyquilRandomVariant := RandomVariant(Some(Pick(FiveSingles, [])),
    Grouped(PairRule, PythonChoice, QubitList), NoMeasure, false)

  const ProjectqRandomVariant := RandomVariant(Some(Pick(FiveSingles, [])),
    Grouped(ToffoliRule, PythonChoice, QubitList), MeasureEachQubit, false)

  const QiskitSingleQubitsVariant := RandomVariant(Some(Pick(FiveSingles, [])), NoGroups, MeasureEachQubit, false)

  const PyqrackSingleQubitsVariant := RandomVariant(Some(Pick(FiveSingles, [])), NoGroups, MeasureAllQubits, true)

  /** The Python scripts whose grouping loop starts from `[range(n)]` (pyQuil: `[reg]`). */
  const WrappedRangeScripts: seq<RandomVariant> :=
    [PyqrackRandomVariant, PyqrackExtendedVariant, QiskitRandomVariant, CirqRandomVariant,
     PyquilRandomVariant, ProjectqRandomVariant]

  /** The same script with the pool it starts from as written. */
  function AsWritten(v: RandomVariant): RandomVariant
  {
    if v.groups.Grouped? then v.(groups := v.groups.(start := WrappedRange)) else v
  }

  lemma VariantsValid()
    ensures ValidRandomVariant(QrackRandomVariant) && ValidRandomVariant(QrackNestedVariant)
    ensures ValidRandomVariant(PyqrackDenseVariant) && ValidRandomVariant(PyqrackRandomVariant)
    ensures ValidRandomVariant(PyqrackExtendedVariant) && ValidRandomVariant(QiskitRandomVariant)
    ensures ValidRandomVariant(CirqRandomVariant) && ValidRandomVariant(PyquilRandomVariant)
    ensures ValidRandomVariant(ProjectqRandomVariant)
    ensures ValidRandomVariant(QiskitSingleQubitsVariant) && ValidRandomVariant(PyqrackSingleQubitsVariant)
    ensures forall i | 0 <= i < |WrappedRangeScripts| ::
      ValidRandomVariant(WrappedRangeScripts[i]) && ValidRandomVariant(AsWritten(WrappedRangeScripts[i]))
  {
  }

  // ---------------------------------------------------------------------
  // The pool as written and as intended

  /**
   * As written, the loop of each `[range(n)]` script sees a one-element list
   * and never runs: its circuits are the ones it would give with no grouping
   * loop at all, and hold no gate on two or three qubits.
   */
  lemma WrappedRangeScriptsNeverGroup(src: Source, n: nat, depth: nat)
    ensures forall i | 0 <= i < |WrappedRangeScripts| ::
      var v := WrappedRangeScripts[i];
      Layers(AsWritten(v), src, n, depth, depth) == Layers(v.(groups := NoGroups), src, n, depth, depth) &&
      SingleQubitOnly(Layers(AsWritten(v), src, n, depth, depth))
  {
    VariantsValid();
    forall i | 0 <= i < |WrappedRangeScripts|
      ensures var v := WrappedRangeScripts[i];
        Layers(AsWritten(v), src, n, depth, depth) == Layers(v.(groups := NoGroups), src, n, depth, depth) &&
        SingleQubitOnly(Layers(AsWritten(v), src, n, depth, depth))
    {
      WrappedRangeNeverGroups(AsWritten(WrappedRangeScripts[i]), src, n, depth, depth);
      WrappedRangeSingleQubitOnly(AsWritten(WrappedRangeScripts[i]), src, n, depth, depth);
    }
  }

  /**
   * Started from the list of all qubits, the loop of each of those scripts
   * couples every qubit but at most one in each layer, no qubit twice.
   */
  lemma QubitListScriptsCouple(src: Source, n: nat, d: nat)
    ensures forall i | 0 <= i < |WrappedRangeScripts| ::
      var ops := AllOperands(GroupPart(WrappedRangeScripts[i], src, n, d));
      Distinct(ops) && |ops| + 1 >= n
  {
    VariantsValid();
    forall i | 0 <= i < |WrappedRangeScripts|
      ensures var ops := AllOperands(GroupPart(WrappedRangeScripts[i], src, n, d));
        Distinct(ops) && |ops| + 1 >= n
    {
      GroupPartSound(WrappedRangeScripts[i], src, n, d);
    }
  }

  // ---------------------------------------------------------------------
  // pyqrack_random_circuit.py: the Qiskit copy of each two- or three-qubit gate

  /** A gate function of the script: a module-level pyqrack helper, or a method of the Qiskit circuit. */
  datatype GateFn = Helper(g: Gate) | QisMethod(g: Gate)

  /** `multi_bit_gates = swap, cx, cz, toffoli`. */
  const MultiBitHelpers: seq<GateFn> := [Helper(Swap), Helper(CNOT), Helper(CZ), Helper(CCNOT)]

  /** `qis_multi_bit_gates = qis.swap, qis.cx, qis.cz, qis.ccx`. */
  const QisMultiBitMethods: seq<GateFn> := [QisMethod(Swap), QisMethod(CNOT), QisMethod(CZ), QisMethod(CCNOT)]

  /**
   * The Qiskit copy of a drawn gate as written: the helper is looked up in
   * the Qiskit tuple itself. None is the `ValueError` of `tuple.index`.
   */
  function QisMultiGateAsWritten(gate: GateFn): Option<GateFn>
  {
    match IndexOf(QisMultiBitMethods, gate)
    case None => None
    case Some(k) => Some(QisMultiBitMethods[k])
  }

  /**
   * The lookup as the single-qubit gates do it: the helper's position in
   * its own tuple picks the Qiskit method.
   */
  function QisMultiGate(gate: GateFn): Option<GateFn>
  {
    match IndexOf(MultiBitHelpers, gate)
    case None => None
    case Some(k) => Some(QisMultiBitMethods[k])
  }

  /** As written, every gate the loop can draw makes the lookup raise. */
  lemma QisMultiGateAsWrittenRaises(k: nat)
    requires k < |MultiBitHelpers|
    ensures QisMultiGateAsWritten(MultiBitHelpers[k]).None?
  {
    assert forall m | 0 <= m < |QisMultiBitMethods| :: QisMultiBitMethods[m].QisMethod?;
  }

  /** Looked up by position, every drawn helper finds the Qiskit method of the same gate. */
  lemma QisMultiGateMirrors(k: nat)
    requires k < |MultiBitHelpers|
    ensures QisMultiGate(MultiBitHelpers[k]) == Some(QisMethod(MultiBitHelpers[k].g))
  {
    var r := IndexOf(MultiBitHelpers, MultiBitHelpers[k]);
    assert r.Some? && MultiBitHelpers[r.value] == MultiBitHelpers[k];
    assert forall a, b | 0 <= a < b < |MultiBitHelpers| :: MultiBitHelpers[a] != MultiBitHelpers[b];
  }

  // ---------------------------------------------------------------------
  // projectq/projectq_random_circuit.py: the Toffoli test

  /**
   * The names `rand_circuit` can read: its parameters, the locals it
   * assigns, and the module's imports and top-level definitions.
   */
  const ProjectqNames: set<string> :=
    {"num_qubits", "depth", "q", "single_bit_gates", "multi_bit_gates", "i", "j", "gate", "bit_set", "b1", "b2", "b3",
     "click", "time", "random", "csv", "os", "math", "MainEngine", "ops", "Simulator", "LocalOptimizer",
     "rand_circuit", "sim_backend", "bench", "create_csv", "write_csv", "benchmark"}

  /**
   * The test whether the drawn gate is the Toffoli, reading the Toffoli
   * through the name `owner`. None is the `NameError` when no such name
   * exists.
   */
  function ToffoliTest(owner: string, gate: Gate): Option<bool>
  {
    if owner in ProjectqNames then Some(gate == CCNOT) else None
  }

  /**
   * As written, lines 34 and 36 read `circ`, which the script never binds:
   * the test at line 36, reached by every round, raises whatever the gate.
   */
  lemma ProjectqToffoliTestAsWrittenRaises(gate: Gate)
    ensures ToffoliTest("circ", gate).None?
  {
  }

  /** Read through `ops`, the module the gates come from, the test tells the Toffoli from the pairs. */
  lemma ProjectqToffoliTest(gate: Gate)
    ensures ToffoliTest("ops", gate) == Some(gate == CCNOT)
    ensures forall k | 0 <= k < |SwapCnotCz| :: ToffoliTest("ops", SwapCnotCz[k]) == Some(false)
  {
  }

  // ---------------------------------------------------------------------
  // The Toffoli helper of the dense scripts

  /** `ccx(circ, q1, q2, q3)` as written: `mcx([q1, q2], q2)`, with q2 as control and target. */
  function DenseCcxAsWritten(b1: nat, b2: nat, b3: nat): Instr
  {
    Three(CCNOT, b1, b2, b2)
  }

  /**
   * The written helper never acts on its third qubit and repeats the second,
   * so no call is a well-formed gate, whatever the operands.
   */
  lemma DenseCcxAsWrittenMalformed(b1: nat, b2: nat, b3: nat, n: nat)
    ensures !WellFormed(DenseCcxAsWritten(b1, b2, b3), n)
    ensures b3 != b1 && b3 != b2 ==> b3 !in Operands(DenseCcxAsWritten(b1, b2, b3))
  {
    var ops := Operands(DenseCcxAsWritten(b1, b2, b3));
    assert ops[1] == ops[2];
  }

  /** The dense scripts' three-qubit gates act on three distinct qubits. */
  lemma DenseTriplesDistinct(src: Source, n: nat, d: nat)
    ensures forall i | i in GroupPart(PyqrackDenseVariant, src, n, d) :: GateOf(i, DenseRule) && IsGate(i, n)
    ensures forall i | i in GroupPart(PyqrackExtendedVariant, src, n, d) :: GateOf(i, DenseRule) && IsGate(i, n)
  {
    VariantsValid();
    GroupPartGates(PyqrackDenseVariant, src, n, d);
    GroupPartGates(PyqrackExtendedVariant, src, n, d);
    GroupPartSound(PyqrackDenseVariant, src, n, d);
    GroupPartSound(PyqrackExtendedVariant, src, n, d);
    GatesOnlyMembers(GroupPart(PyqrackDenseVariant, src, n, d), n);
    GatesOnlyMembers(GroupPart(PyqrackExtendedVariant, src, n, d), n);
  }

  // ---------------------------------------------------------------------
  // Script-specific facts

  /** The Cirq and pyQuil scripts apply only SWAP, CNOT and CZ between qubits. */
  lemma PairScriptsApplyPairsOnly(src: Source, n: nat, d: nat)
    ensures forall i | i in GroupPart(CirqRandomVariant, src, n, d) :: i.Two? && i.g in SwapCnotCz
    ensures forall i | i in GroupPart(PyquilRandomVariant, src, n, d) :: i.Two? && i.g in SwapCnotCz
  {
    VariantsValid();
    GroupPartGates(CirqRandomVariant, src, n, d);
    GroupPartGates(PyquilRandomVariant, src, n, d);
  }

  /**
   * qrack_random_circuit.cpp: Swap, CZ and CNOT on pairs, the Toffoli on a
   * triple; every round applies a gate, so at most one qubit stays idle.
   */
  lemma QrackRandomLayer(src: Source, n: nat, d: nat)
    ensures forall i | i in GroupPart(QrackRandomVariant, src, n, d) :: GateOf(i, MaxGates)
    ensures |AllOperands(GroupPart(QrackRandomVariant, src, n, d))| + 1 >= n
  {
    VariantsValid();
    GroupPartGates(QrackRandomVariant, src, n, d);
    GroupPartSound(QrackRandomVariant, src, n, d);
  }

  /** Without a grouping loop, a run of `depth` layers has n gates per layer, then its ending. */
  lemma SingleQubitsLength(src: Source, n: nat, depth: nat)
    ensures |Circuit(QiskitSingleQubitsVariant, src, n, depth)| == depth * n + n
    ensures |Circuit(PyqrackSingleQubitsVariant, src, n, depth)| == depth * n + 2
  {
    VariantsValid();
    SingleGateLayers(QiskitSingleQubitsVariant, src, n, depth, depth);
    SingleGateLayers(PyqrackSingleQubitsVariant, src, n, depth, depth);
  }

  // ---------------------------------------------------------------------
  // One generator per script

  method QrackRandomCircuit(src: Source, n: nat, depth: nat) returns (circ: seq<Instr>)
    ensures circ == Circuit(QrackRandomVariant, src, n, depth)
    ensures AllWellFormed(circ, n) && |circ| >= 1
    ensures NoMeasurement(circ[..|circ| - 1]) && circ[|circ| - 1] == MeasureAll(n)
  {
    VariantsValid();
    circ := Generate(QrackRandomVariant, src, n, depth);
    CircuitShape(QrackRandomVariant, src, n, depth);
    EndsWith(circ, QrackRandomVariant.final, n);
  }

  method QrackNestedRandomCircuit(src: Source, n: nat, depth: nat) returns (circ: seq<Instr>)
    ensures circ == Circuit(QrackNestedVariant, src, n, depth)
    ensures AllWellFormed(circ, n) && |circ| >= 1
    ensures NoMeasurement(circ[..|circ| - 1]) && circ[|circ| - 1] == MeasureAll(n)
  {
    VariantsValid();
    circ := Generate(QrackNestedVariant, src, n, depth);
    CircuitShape(QrackNestedVariant, src, n, depth);
    EndsWith(circ, QrackNestedVariant.final, n);
  }

  method PyqrackDense(src: Source, n: nat, depth: nat) returns (circ: seq<Instr>)
    ensures circ == Circuit(PyqrackDenseVariant, src, n, depth)
    ensures AllWellFormed(circ, n) && |circ| >= 1 && circ[0] == ResetAll
    ensures NoMeasurement(circ[..|circ| - 1]) && circ[|circ| - 1] == MeasureAll(n)
  {
    VariantsValid();
    circ := Generate(PyqrackDenseVariant, src, n, depth);
    CircuitShape(PyqrackDenseVariant, src, n, depth);
    EndsWith(circ, PyqrackDenseVariant.final, n);
  }

  method PyqrackRandomCircuit(src: Source, n: nat, depth: nat) returns (circ: seq<Instr>)
    ensures circ == Circuit(PyqrackRandomVariant, src, n, depth)
    ensures AllWellFormed(circ, n) && |circ| >= 1 && circ[0] == ResetAll
    ensures NoMeasurement(circ[..|circ| - 1]) && circ[|circ| - 1] == MeasureAll(n)
  {
    VariantsValid();
    circ := Generate(PyqrackRandomVariant, src, n, depth);
    CircuitShape(PyqrackRandomVariant, src, n, depth);
    EndsWith(circ, PyqrackRandomVariant.final, n);
  }

  method PyqrackRandomCircuitExtended(src: Source, n: nat, depth: nat) returns (circ: seq<Instr>)
    ensures circ == Circuit(PyqrackExtendedVariant, src, n, depth)
    ensures AllWellFormed(circ, n) && |circ| >= 1 && circ[0] == ResetAll
    ensures NoMeasurement(circ[..|circ| - 1]) && circ[|circ| - 1] == MeasureAll(n)
  {
    VariantsValid();
    circ := Generate(PyqrackExtendedVariant, src, n, depth);
    CircuitShape(PyqrackExtendedVariant, src, n, depth);
    EndsWith(circ, PyqrackExtendedVariant.final, n);
  }

  method QiskitRandomCircuit(src: Source, n: nat, depth: nat) returns (circ: seq<Instr>)
    ensures circ == Circuit(QiskitRandomVariant, src, n, depth)
    ensures AllWellFormed(circ, n) && |circ| >= n
    ensures NoMeasurement(circ[..|circ| - n])
    ensures forall j | 0 <= j < n :: circ[|circ| - n + j] == Measure(j, j)
  {
    VariantsValid();
    circ := Generate(QiskitRandomVariant, src, n, depth);
    CircuitShape(QiskitRandomVariant, src, n, depth);
    EndsWith(circ, QiskitRandomVariant.final, n);
  }

  method CirqRandomCircuit(src: Source, n: nat, depth: nat) returns (circ: seq<Instr>)
    ensures circ == Circuit(CirqRandomVariant, src, n, depth)
    ensures AllWellFormed(circ, n) && |circ| >= n
    ensures NoMeasurement(circ[..|circ| - n])
    ensures forall j | 0 <= j < n :: circ[|circ| - n + j] == Measure(j, j)
  {
    VariantsValid();
    circ := Generate(CirqRandomVariant, src, n, depth);
    CircuitShape(CirqRandomVariant, src, n, depth);
    EndsWith(circ, CirqRandomVariant.final, n);
  }

  method PyquilRandomCircuit(src: Source, n: nat, depth: nat) returns (circ: seq<Instr>)
    ensures circ == Circuit(PyquilRandomVariant, src, n, depth)
    ensures AllWellFormed(circ, n) && NoMeasurement(circ)
  {
    VariantsValid();
    circ := Generate(PyquilRandomVariant, src, n, depth);
    CircuitShape(PyquilRandomVariant, src, n, depth);
    EndsWith(circ, NoMeasure, n);
  }

  method ProjectqRandomCircuit(src: Source, n: nat, depth: nat) returns (circ: seq<Instr>)
    ensures circ == Circuit(ProjectqRandomVariant, src, n, depth)
    ensures AllWellFormed(circ, n) && |circ| >= n
    ensures NoMeasurement(circ[..|circ| - n])
    ensures forall j | 0 <= j < n :: circ[|circ| - n + j] == Measure(j, j)
  {
    VariantsValid();
    circ := Generate(ProjectqRandomVariant, src, n, depth);
    CircuitShape(ProjectqRandomVariant, src, n, depth);
    EndsWith(circ, ProjectqRandomVariant.final, n);
  }

  method QiskitSingleQubits(src: Source, n: nat, depth: nat) returns (circ: seq<Instr>)
    ensures circ == Circuit(QiskitSingleQubitsVariant, src, n, depth)
    ensures AllWellFormed(circ, n) && |circ| == depth * n + n
    ensures NoMeasurement(circ[..depth * n])
    ensures forall j | 0 <= j < n :: circ[depth * n + j] == Measure(j, j)
  {
    assert ValidRandomVariant(QiskitSingleQubitsVariant);
    circ := Generate(QiskitSingleQubitsVariant, src, n, depth);
    QiskitSingleQubitsShape(src, n, depth);
  }

  /** The circuit qiskit_single_qubits.py builds: depth·n one-qubit gates, then one measurement per qubit. */
  lemma QiskitSingleQubitsShape(src: Source, n: nat, depth: nat)
    ensures var circ := Circuit(QiskitSingleQubitsVariant, src, n, depth);
      AllWellFormed(circ, n) && |circ| == depth * n + n
      && NoMeasurement(circ[..depth * n])
      && forall j | 0 <= j < n :: circ[depth * n + j] == Measure(j, j)
  {
    assert ValidRandomVariant(QiskitSingleQubitsVariant);
    var circ := Circuit(QiskitSingleQubitsVariant, src, n, depth);
    var post := FinalPart(MeasureEachQubit, n);
    CircuitShape(QiskitSingleQubitsVariant, src, n, depth);
    SingleQubitsLength(src, n, depth);
    assert |post| == n;
    EndsWith(circ, MeasureEachQubit, n);
    var k := depth * n;
    assert |circ| - |post| == k;
  }

  method PyqrackSingleQubits(src: Source, n: nat, depth: nat) returns (circ: seq<Instr>)
    ensures circ == Circuit(PyqrackSingleQubitsVariant, src, n, depth)
    ensures AllWellFormed(circ, n) && |circ| == depth * n + 2 && circ[0] == ResetAll
    ensures NoMeasurement(circ[..depth * n + 1]) && circ[depth * n + 1] == MeasureAll(n)
  {
    assert ValidRandomVariant(PyqrackSingleQubitsVariant);
    circ := Generate(PyqrackSingleQubitsVariant, src, n, depth);
    CircuitShape(PyqrackSingleQubitsVariant, src, n, depth);
    EndsWith(circ, PyqrackSingleQubitsVariant.final, n);
    SingleQubitsLength(src, n, depth);
  }

  // ---------------------------------------------------------------------
  // pyqrack_random_ccx.py

  /** Toffolis on triples drawn while more than two qubits remain; the ending is added below. */
  const RandomCcxVariant := RandomVariant(None, Grouped(Triples, PythonChoice, QubitList), NoMeasure, false)

  /** The basis state the script prepares, from its one `random.random()` draw. */
  function CcxPerm(src: Source, n: nat): nat
  {
    RandPerm(n, src.rand(TrialDraw(0)))
  }

  /** Reset, the X gates that prepare `rand_perm`, the Toffoli layers, a measurement of all qubits. */
  function CcxCircuit(src: Source, n: nat, depth: nat): seq<Instr>
  {
    [ResetAll] + Prep(n, CcxPerm(src, n)) + Layers(RandomCcxVariant, src, n, depth, depth) + [MeasureAll(n)]
  }

  /** The X gates of a preparation are gates on register qubits. */
  lemma PrepGates(n: nat, perm: nat)
    ensures AllGates(Prep(n, perm), n)
  {
    forall i | i in Prep(n, perm) ensures IsGate(i, n) {
      assert Operands(i) == [i.q];
    }
  }

  /**
   * A reset, gates on distinct register qubits, and one measurement of all
   * qubits: well formed, and nothing is measured before the end.
   */
  lemma ResetGatesMeasure(body: seq<Instr>, n: nat)
    requires AllGates(body, n)
    ensures var c := [ResetAll] + body + [MeasureAll(n)];
      AllWellFormed(c, n) && c[0] == ResetAll && NoMeasurement(c[..|c| - 1]) && c[|c| - 1] == MeasureAll(n)
  {
    GatesOnlyMembers(body, n);
    Assembled([ResetAll], body, MeasureAllQubits, n);
    var c := [ResetAll] + body + [MeasureAll(n)];
    EndsWith(c, MeasureAllQubits, n);
  }

  /** The script's circuit: reset, preparation and Toffoli layers, then one measurement. */
  lemma CcxShape(src: Source, n: nat, depth: nat)
    ensures var c := CcxCircuit(src, n, depth);
      AllWellFormed(c, n) && |c| >= 2 && c[0] == ResetAll && NoMeasurement(c[..|c| - 1]) && c[|c| - 1] == MeasureAll(n)
  {
    VariantsValid();
    var prep := Prep(n, CcxPerm(src, n));
    var layers := Layers(RandomCcxVariant, src, n, depth, depth);
    PrepGates(n, CcxPerm(src, n));
    LayersGatesOnly(RandomCcxVariant, src, n, depth, depth);
    GatesBoth(prep, layers, n);
    ResetGatesMeasure(prep + layers, n);
    assert CcxCircuit(src, n, depth) == [ResetAll] + (prep + layers) + [MeasureAll(n)];
  }

  method RandomCcx(src: Source, n: nat, depth: nat) returns (circ: seq<Instr>)
    ensures circ == CcxCircuit(src, n, depth)
    ensures AllWellFormed(circ, n) && |circ| >= 2 && circ[0] == ResetAll
    ensures NoMeasurement(circ[..|circ| - 1]) && circ[|circ| - 1] == MeasureAll(n)
  {
    VariantsValid();
    var prep := PrepareBasis(n, CcxPerm(src, n));
    var layers := Generate(RandomCcxVariant, src, n, depth);
    CircuitIsLayers(RandomCcxVariant, src, n, depth);
    circ := [ResetAll] + prep + layers + [MeasureAll(n)];
    CcxShape(src, n, depth);
  }

  /**
   * Each layer of the script applies Toffolis only, on three distinct
   * qubits each, no qubit twice, and leaves at most two qubits idle.
   */
  lemma RandomCcxLayer(src: Source, n: nat, d: nat)
    ensures forall i | i in GroupPart(RandomCcxVariant, src, n, d) :: i.Three? && i.g == CCNOT && IsGate(i, n)
    ensures var ops := AllOperands(GroupPart(RandomCcxVariant, src, n, d)); Distinct(ops) && |ops| + 2 >= n
  {
    VariantsValid();
    GroupPartGates(RandomCcxVariant, src, n, d);
    GroupPartSound(RandomCcxVariant, src, n, d);
    GatesOnlyMembers(GroupPart(RandomCcxVariant, src, n, d), n);
  }

  /** How a call of bench ends: it returns, or it raises after applying `ops`. */
  datatype BenchRun = Returned(ops: seq<Instr>) | Raised(ops: seq<Instr>)

  /**
   * bench as written: `reset_all`, then the loop at line 27 reads `qubits`.
   * Line 43 assigns `qubits`, so it is a local of bench, unbound at line 27:
   * the read raises `UnboundLocalError` before any gate, whatever the width,
   * depth and draws. (With that read fixed, the first round of the Toffoli
   * loop raises in its place whenever there are three qubits or more, see
   * CcxRoundAsWrittenRaises.)
   */
  function CcxBenchAsWritten(src: Source, n: int, depth: int): BenchRun
  {
    Raised([ResetAll])
  }

  /**
   * One round as written: b1 and b2 are drawn and removed, b3 is drawn, and
   * then b2 is removed a second time; None is the `ValueError` of that
   * `list.remove`.
   */
  function CcxRoundAsWritten(src: Source, d: nat, k: nat, pool: seq<nat>): (r: Option<RoundResult>)
    requires |pool| > 2
  {
    var b1 := Choice(pool, src.pick(GroupDraw(d, k, 0)));
    match ListRemove(pool, b1)
    case None => None
    case Some(p1) =>
      var b2 := Choice(p1, src.pick(GroupDraw(d, k, 1)));
      match ListRemove(p1, b2)
      case None => None
      case Some(p2) =>
        var b3 := Choice(p2, src.pick(GroupDraw(d, k, 3)));
        match ListRemove(p2, b2)
        case None => None
        case Some(p3) => Some(RoundResult([Three(CCNOT, b1, b2, b3)], [b1, b2, b3], p3))
  }

  /** On a pool without repeats the second removal of b2 always fails: no round as written completes. */
  lemma CcxRoundAsWrittenRaises(src: Source, d: nat, k: nat, pool: seq<nat>)
    requires |pool| > 2 && Distinct(pool)
    ensures CcxRoundAsWritten(src, d, k, pool).None?
  {
    var i1 := src.pick(GroupDraw(d, k, 0)) % |pool|;
    var b1 := pool[i1];
    ListRemoveAt(pool, i1);
    RemoveAtMembers(pool, i1);
    var p1 := RemoveAt(pool, i1);
    var i2 := src.pick(GroupDraw(d, k, 1)) % |p1|;
    var b2 := p1[i2];
    ListRemoveAt(p1, i2);
    RemoveAtMembers(p1, i2);
    assert b2 !in RemoveAt(p1, i2);
  }
}
