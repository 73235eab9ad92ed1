/**
 * The grid-circuit scripts, one `Variant` and one generator method per
 * script. Each method runs the shared generator and states what the script
 * promises about its circuit: the gates act on distinct qubits of the
 * register, nothing is measured before the last layer, and the final
 * measurement (or reset) is the one the script performs.
 */
module GridFiles {
  import opened Gates
  import opened Grid
  import opened Tiling
  import opened Singles
  import opened GridCircuits

  // ---------------------------------------------------------------------
  // Gate lists shared by several scripts

  const SqrtXYConjT: seq<seq<Gate>> := [[SqrtX], [SqrtY], [SqrtXConjT]]
  const SqrtXYH: seq<seq<Gate>> := [[SqrtX], [SqrtY], [SqrtH]]
  const SqrtXYW: seq<seq<Gate>> := [[SqrtX], [SqrtY], [SqrtW]]
  const SqrtXYHadamard: seq<seq<Gate>> := [[SqrtX], [SqrtY], [H]]

  /** The same switches where the S-dagger is a `u1` rotation. */
  const BasisSwitchesU1: seq<seq<Gate>> := [[S], [H], [U1, H], [U1], [H], [H, S]]

  /** A SWAP written as three CNOTs, the middle one reversed. */
  const SwapAsCnots: seq<Micro> := [Pair(CNOT, false), Pair(CNOT, true), Pair(CNOT, false)]

  /** An anti-controlled gate as X on the control, the controlled gate, X on the control. */
  function AntiControlled(g: Gate): seq<Micro>
  {
    [OnFirst(X), Pair(g, false), OnFirst(X)]
  }

  /** An anti-controlled gate whose helper forgets the second X. */
  function AntiControlledOpen(g: Gate): seq<Micro>
  {
    [OnFirst(X), Pair(g, false)]
  }

  function Single(g: Gate): seq<Micro> { [Pair(g, false)] }

  // ---------------------------------------------------------------------
  // The variants

  const QrackSycamoreVariant := Variant(SycamoreOrder, SimpleExact(1), false,
    [EraseThree(SqrtXYConjT)], Always([Pair(ISwap, false), Pair(CPhase, false)]), MeasureAllQubits, false)

  const QrackSycamoreParityVariant := Variant(ParityOrder, ParityExact, true,
    [Buckets(SqrtXYH)], Always([Pair(ISwap, false), Pair(CPhase, false)]), MeasureAllQubits, false)

  const UniversalNearestNeighborVariant := Variant(SycamoreOrder, SimpleExact(1), false,
    [InverseFour], CnotOrCz, MeasureAllQubits, false)

  const CirqSycamoreParityVariant := Variant(ParityOrder, ParityTrueDivision, false,
    [Pick(SqrtXYH, [])], Always([Pair(CPhase, false), Pair(ISwap, false)]), MeasureEachQubit, false)

  const CirqSycamoreVariant := Variant(SycamoreOrder, SimpleTrueDivision, false,
    [ChooseOther(SqrtXYW)], Always([Pair(CPhase, false), Pair(ISwap, false)]), MeasureEachQubit, false)

  const QiskitSycamoreVariant := Variant(SycamoreOrder, SimpleExact(1), false,
    [ChooseOther(SqrtXYW)], Always([Pair(CPhase, false), Pair(ISwap, false)]), MeasureEachQubit, false)

  const PyquilSycamoreVariant := Variant(SycamoreOrder, SimpleExact(1), false,
    [ChooseOther(SqrtXYHadamard)], Always([Pair(CPhase, false), Pair(Swap, false)]), NoMeasure, false)

  const QcgpuSycamoreVariant := Variant(SycamoreOrder, SimpleTrueDivision, false,
    [Pick(SqrtXYW, []), ChooseOther(SqrtXYW)], Always([Pair(CPhase, false)] + SwapAsCnots), MeasureAllQubits, false)

  const PyqrackSycamoreTwoPassVariant := Variant(SycamoreOrder, SimpleTrueDivision, false,
    [Pick(SqrtXYW, []), ChooseOther(SqrtXYW)], Always([Pair(CPhase, false), Pair(ISwap, false)]), MeasureAllQubits, true)

  const PyqrackSycamoreVariant := Variant(SycamoreOrder, SimpleExact(1), false,
    [ChooseOther(SqrtXYW)], Always([Pair(ISwap, false), Pair(CPhase, false)]), MeasureAllQubits, true)

  const PyqrackNearestNeighborVariant := Variant(SycamoreOrder, SimpleExact(1), false,
    [Pick([[X], [Y], [Z], [H], [S], [T]], [])],
    PickOne([Single(Swap), Single(CNOT), Single(CY), Single(CZ)]), MeasureAllQubits, true)

  const PyqrackDenseNearestNeighborVariant := Variant(SycamoreOrder, SimpleExact(1), false,
    [Pick(BasisSwitches, [Rz])],
    PickOne([[], Single(Swap), Single(CNOT), Single(CZ), Single(CY), Single(AntiCNOT), Single(AntiCZ), Single(AntiCY)]),
    MeasureAllQubits, true)

  const QiskitQrackTnnVariant := Variant(SycamoreOrder, SimpleExact(1), false,
    [BasisPhaseT(BasisSwitches)],
    PickOne([[], Single(Swap), Single(CNOT), Single(CZ), Single(CY),
             AntiControlledOpen(CNOT), AntiControlledOpen(CZ), AntiControlledOpen(CY)]),
    MeasureEachQubit, false)

  const QiskitTnnVariant := Variant(SycamoreOrder, SimpleExact(1), false,
    [Pick(BasisSwitches, [Phase])],
    PickOne([Single(Swap), [], Single(CNOT), Single(CZ), Single(CY),
             AntiControlled(CNOT), AntiControlled(CZ), AntiControlled(CY)]),
    MeasureEachQubit, false)

  const QcgpuTnnVariant := Variant(SycamoreOrder, SimpleExact(1), false,
    [Pick(BasisSwitchesU1, [U1])],
    PickOne([SwapAsCnots, [], Single(CNOT), Single(CZ), Single(CU3),
             AntiControlled(CNOT), AntiControlled(CZ), AntiControlled(CU3)]),
    MeasureAllQubits, false)

  const PyqrackTnnVariant := Variant(SycamoreOrder, SimpleExact(0), false,
    [Pick(BasisSwitches, [Rz])],
    PickOne([Single(Swap), [], Single(CNOT), Single(CZ), Single(CY),
             AntiControlledOpen(CNOT), AntiControlledOpen(CZ), AntiControlledOpen(CY)]),
    MeasureEachQubit, false)

  const PyqrackEulerNnVariant := Variant(SycamoreOrder, SimpleExact(1), false,
    [Fixed([Rz, H, Rz, S, Rz, Sdg, H])],
    PickOne([Single(Swap), Single(CNOT), Single(CZ), Single(CY),
             AntiControlled(CNOT), AntiControlled(CZ), AntiControlled(CY)]),
    MeasureEachQubit, false)

  // ---------------------------------------------------------------------
  // Circuit shape

  /** The Sycamore-style variants satisfy the generator's requirements. */
  lemma SycamoreVariantsValid()
    ensures ValidVariant(QrackSycamoreVariant) && ValidVariant(QrackSycamoreParityVariant)
    ensures ValidVariant(UniversalNearestNeighborVariant)
    ensures ValidVariant(CirqSycamoreParityVariant) && ValidVariant(CirqSycamoreVariant)
    ensures ValidVariant(QiskitSycamoreVariant) && ValidVariant(PyquilSycamoreVariant)
    ensures ValidVariant(QcgpuSycamoreVariant)
    ensures ValidVariant(PyqrackSycamoreTwoPassVariant) && ValidVariant(PyqrackSycamoreVariant)
  {
    PatternsWellFormed();
  }

  /** The nearest-neighbour variants satisfy the generator's requirements. */
  lemma NearestNeighborVariantsValid()
    ensures ValidVariant(PyqrackNearestNeighborVariant) && ValidVariant(PyqrackDenseNearestNeighborVariant)
    ensures ValidVariant(QiskitQrackTnnVariant) && ValidVariant(QiskitTnnVariant)
    ensures ValidVariant(QcgpuTnnVariant) && ValidVariant(PyqrackTnnVariant) && ValidVariant(PyqrackEulerNnVariant)
  {
    PatternsWellFormed();
  }

  /**
   * The no-repeat scripts remember their last pass, and its options are
   * distinct gates, so `ConsecutiveLayersDiffer` applies to each of them.
   */
  lemma NoRepeatVariants()
    ensures var vs := [QrackSycamoreVariant, CirqSycamoreVariant, QiskitSycamoreVariant, PyquilSycamoreVariant,
                       QcgpuSycamoreVariant, PyqrackSycamoreTwoPassVariant, PyqrackSycamoreVariant];
      forall i | 0 <= i < |vs| ::
        |vs[i].passes| >= 1 && (RecPass(vs[i]).ChooseOther? || RecPass(vs[i]).EraseThree?) && Distinct(RecPass(vs[i]).options)
  {
  }

  // ---------------------------------------------------------------------
  // Layer-to-layer properties of the remembering passes

  /**
   * In consecutive layers of one circuit, a no-repeat pass with distinct
   * options gives each qubit a different gate.
   */
  lemma ConsecutiveLayersDiffer(v: Variant, src: Source, n: nat, depth: nat, d: nat, j: nat)
    requires ValidVariant(v) && (RecPass(v).ChooseOther? || RecPass(v).EraseThree?)
    requires Distinct(RecPass(v).options) && j < n
    ensures RecGates(v, src, n, depth, d + 1, j, RecordsBefore(v, src, n, depth, d + 1)) !=
            RecGates(v, src, n, depth, d, j, RecordsBefore(v, src, n, depth, d))
  {
    NoRepeat(v, src, n, depth, d, j, RecordsBefore(v, src, n, depth, d));
  }

  /** In consecutive layers of one circuit, the inverse-recording pass never undoes a qubit's gate. */
  lemma ConsecutiveLayersNeverUndo(v: Variant, src: Source, n: nat, depth: nat, d: nat, j: nat)
    requires ValidVariant(v) && RecPass(v).InverseFour? && j < n
    ensures var g, g' := RecGates(v, src, n, depth, d, j, RecordsBefore(v, src, n, depth, d)),
                         RecGates(v, src, n, depth, d + 1, j, RecordsBefore(v, src, n, depth, d + 1));
      |g| == 1 && |g'| == 1 && Some(g'[0]) != Adjoint(g[0])
  {
    NeverUndoes(v, src, n, depth, d, j, RecordsBefore(v, src, n, depth, d));
  }

  // ---------------------------------------------------------------------
  // Script-specific facts

  /**
   * The even-row script scans rows 0, 2, 4, ...; under patterns 0 and 1 the
   * partner row is one above, so row 0 never yields a pair.
   */
  lemma EvenScanSkipsRowZero(n: nat, gate: nat, c: Coupler)
    requires n >= 1 && gate < 2
    requires c in Couplers(TilingOf(PyqrackTnnVariant.kind, n), gate)
    ensures c.row >= 2 && c.row % 2 == 0
  {
    var t := TilingOf(PyqrackTnnVariant.kind, n);
    CouplersSound(t, gate);
    assert IsCoupler(t, gate, c);
  }

  /** A layer of the approximate pyQuil script: one gate per qubit, then a phase and a SWAP per pair. */
  lemma PyquilLayerLength(src: Source, n: nat, depth: nat, d: nat, records: seq<nat>)
    requires n >= 1
    ensures |LayerOf(PyquilSycamoreVariant, src, n, depth, d, records)| ==
      n + 2 * |Couplers(TilingOf(SimpleExact(1), n), SycamoreOrder[d % 8])|
  {
    SycamoreVariantsValid();
    LayerLength(PyquilSycamoreVariant, src, n, depth, d, records);
  }

  // ---------------------------------------------------------------------
  // One generator per script

  method QrackSycamore(src: Source, n: nat, depth: nat) returns (circ: seq<Instr>)
    requires n >= 1
    ensures circ == Circuit(QrackSycamoreVariant, src, n, depth)
    ensures AllWellFormed(circ, n) && |circ| >= 1
    ensures NoMeasurement(circ[..|circ| - 1]) && circ[|circ| - 1] == MeasureAll(n)
  {
    SycamoreVariantsValid();
    circ := Generate(QrackSycamoreVariant, src, n, depth);
    CircuitShape(QrackSycamoreVariant, src, n, depth);
    EndsWith(circ, QrackSycamoreVariant.final, n);
  }

  method QrackSycamoreParity(src: Source, n: nat, depth: nat) returns (circ: seq<Instr>)
    requires n >= 1
    ensures circ == Circuit(QrackSycamoreParityVariant, src, n, depth)
    ensures AllWellFormed(circ, n) && |circ| >= 1
    ensures NoMeasurement(circ[..|circ| - 1]) && circ[|circ| - 1] == MeasureAll(n)
  {
    SycamoreVariantsValid();
    circ := Generate(QrackSycamoreParityVariant, src, n, depth);
    CircuitShape(QrackSycamoreParityVariant, src, n, depth);
    EndsWith(circ, QrackSycamoreParityVariant.final, n);
  }

  method UniversalNearestNeighbor(src: Source, n: nat, depth: nat) returns (circ: seq<Instr>)
    requires n >= 1
    ensures circ == Circuit(UniversalNearestNeighborVariant, src, n, depth)
    ensures AllWellFormed(circ, n) && |circ| >= 1
    ensures NoMeasurement(circ[..|circ| - 1]) && circ[|circ| - 1] == MeasureAll(n)
  {
    SycamoreVariantsValid();
    circ := Generate(UniversalNearestNeighborVariant, src, n, depth);
    CircuitShape(UniversalNearestNeighborVariant, src, n, depth);
    EndsWith(circ, UniversalNearestNeighborVariant.final, n);
  }

  method CirqSycamoreParity(src: Source, n: nat, depth: nat) returns (circ: seq<Instr>)
    requires n >= 1
    ensures circ == Circuit(CirqSycamoreParityVariant, src, n, depth)
    ensures AllWellFormed(circ, n) && |circ| >= n
    ensures NoMeasurement(circ[..|circ| - n])
    ensures forall j | 0 <= j < n :: circ[|circ| - n + j] == Measure(j, j)
  {
    SycamoreVariantsValid();
    circ := Generate(CirqSycamoreParityVariant, src, n, depth);
    CircuitShape(CirqSycamoreParityVariant, src, n, depth);
    EndsWith(circ, CirqSycamoreParityVariant.final, n);
  }

  method CirqSycamore(src: Source, n: nat, depth: nat) returns (circ: seq<Instr>)
    requires n >= 1
    ensures circ == Circuit(CirqSycamoreVariant, src, n, depth)
    ensures AllWellFormed(circ, n) && |circ| >= n
    ensures NoMeasurement(circ[..|circ| - n])
    ensures forall j | 0 <= j < n :: circ[|circ| - n + j] == Measure(j, j)
  {
    SycamoreVariantsValid();
    circ := Generate(CirqSycamoreVariant, src, n, depth);
    CircuitShape(CirqSycamoreVariant, src, n, depth);
    EndsWith(circ, CirqSycamoreVariant.final, n);
  }

  method QiskitSycamore(src: Source, n: nat, depth: nat) returns (circ: seq<Instr>)
    requires n >= 1
    ensures circ == Circuit(QiskitSycamoreVariant, src, n, depth)
    ensures AllWellFormed(circ, n) && |circ| >= n
    ensures NoMeasurement(circ[..|circ| - n])
    ensures forall j | 0 <= j < n :: circ[|circ| - n + j] == Measure(j, j)
  {
    SycamoreVariantsValid();
    circ := Generate(QiskitSycamoreVariant, src, n, depth);
    CircuitShape(QiskitSycamoreVariant, src, n, depth);
    EndsWith(circ, QiskitSycamoreVariant.final, n);
  }

  method PyquilSycamore(src: Source, n: nat, depth: nat) returns (circ: seq<Instr>)
    requires n >= 1
    ensures circ == Circuit(PyquilSycamoreVariant, src, n, depth)
    ensures AllWellFormed(circ, n) && NoMeasurement(circ)
  {
    SycamoreVariantsValid();
    circ := Generate(PyquilSycamoreVariant, src, n, depth);
    CircuitShape(PyquilSycamoreVariant, src, n, depth);
    EndsWith(circ, NoMeasure, n);
  }

  method QcgpuSycamore(src: Source, n: nat, depth: nat) returns (circ: seq<Instr>)
    requires n >= 1
    ensures circ == Circuit(QcgpuSycamoreVariant, src, n, depth)
    ensures AllWellFormed(circ, n) && |circ| >= 1
    ensures NoMeasurement(circ[..|circ| - 1]) && circ[|circ| - 1] == MeasureAll(n)
  {
    SycamoreVariantsValid();
    circ := Generate(QcgpuSycamoreVariant, src, n, depth);
    CircuitShape(QcgpuSycamoreVariant, src, n, depth);
    EndsWith(circ, QcgpuSycamoreVariant.final, n);
  }

  method PyqrackSycamoreTwoPass(src: Source, n: nat, depth: nat) returns (circ: seq<Instr>)
    requires n >= 1
    ensures circ == Circuit(PyqrackSycamoreTwoPassVariant, src, n, depth)
    ensures AllWellFormed(circ, n) && |circ| >= 1
    ensures NoMeasurement(circ[..|circ| - 1]) && circ[|circ| - 1] == MeasureAll(n)
    ensures circ[0] == ResetAll
  {
    SycamoreVariantsValid();
    circ := Generate(PyqrackSycamoreTwoPassVariant, src, n, depth);
    CircuitShape(PyqrackSycamoreTwoPassVariant, src, n, depth);
    EndsWith(circ, PyqrackSycamoreTwoPassVariant.final, n);
  }

  method PyqrackSycamore(src: Source, n: nat, depth: nat) returns (circ: seq<Instr>)
    requires n >= 1
    ensures circ == Circuit(PyqrackSycamoreVariant, src, n, depth)
    ensures AllWellFormed(circ, n) && |circ| >= 1
    ensures NoMeasurement(circ[..|circ| - 1]) && circ[|circ| - 1] == MeasureAll(n)
    ensures circ[0] == ResetAll
  {
    SycamoreVariantsValid();
    circ := Generate(PyqrackSycamoreVariant, src, n, depth);
    CircuitShape(PyqrackSycamoreVariant, src, n, depth);
    EndsWith(circ, PyqrackSycamoreVariant.final, n);
  }

  method PyqrackNearestNeighbor(src: Source, n: nat, depth: nat) returns (circ: seq<Instr>)
    requires n >= 1
    ensures circ == Circuit(PyqrackNearestNeighborVariant, src, n, depth)
    ensures AllWellFormed(circ, n) && |circ| >= 1
    ensures NoMeasurement(circ[..|circ| - 1]) && circ[|circ| - 1] == MeasureAll(n)
    ensures circ[0] == ResetAll
  {
    NearestNeighborVariantsValid();
    circ := Generate(PyqrackNearestNeighborVariant, src, n, depth);
    CircuitShape(PyqrackNearestNeighborVariant, src, n, depth);
    EndsWith(circ, PyqrackNearestNeighborVariant.final, n);
  }

  method PyqrackDenseNearestNeighbor(src: Source, n: nat, depth: nat) returns (circ: seq<Instr>)
    requires n >= 1
    ensures circ == Circuit(PyqrackDenseNearestNeighborVariant, src, n, depth)
    ensures AllWellFormed(circ, n) && |circ| >= 1
    ensures NoMeasurement(circ[..|circ| - 1]) && circ[|circ| - 1] == MeasureAll(n)
    ensures circ[0] == ResetAll
  {
    NearestNeighborVariantsValid();
    circ := Generate(PyqrackDenseNearestNeighborVariant, src, n, depth);
    CircuitShape(PyqrackDenseNearestNeighborVariant, src, n, depth);
    EndsWith(circ, PyqrackDenseNearestNeighborVariant.final, n);
  }

  method QiskitQrackTnn(src: Source, n: nat, depth: nat) returns (circ: seq<Instr>)
    requires n >= 1
    ensures circ == Circuit(QiskitQrackTnnVariant, src, n, depth)
    ensures AllWellFormed(circ, n) && |circ| >= n
    ensures NoMeasurement(circ[..|circ| - n])
    ensures forall j | 0 <= j < n :: circ[|circ| - n + j] == Measure(j, j)
  {
    NearestNeighborVariantsValid();
    circ := Generate(QiskitQrackTnnVariant, src, n, depth);
    CircuitShape(QiskitQrackTnnVariant, src, n, depth);
    EndsWith(circ, QiskitQrackTnnVariant.final, n);
  }

  method QiskitTnn(src: Source, n: nat, depth: nat) returns (circ: seq<Instr>)
    requires n >= 1
    ensures circ == Circuit(QiskitTnnVariant, src, n, depth)
    ensures AllWellFormed(circ, n) && |circ| >= n
    ensures NoMeasurement(circ[..|circ| - n])
    ensures forall j | 0 <= j < n :: circ[|circ| - n + j] == Measure(j, j)
  {
    NearestNeighborVariantsValid();
    circ := Generate(QiskitTnnVariant, src, n, depth);
    CircuitShape(QiskitTnnVariant, src, n, depth);
    EndsWith(circ, QiskitTnnVariant.final, n);
  }

  method QcgpuTnn(src: Source, n: nat, depth: nat) returns (circ: seq<Instr>)
    requires n >= 1
    ensures circ == Circuit(QcgpuTnnVariant, src, n, depth)
    ensures AllWellFormed(circ, n) && |circ| >= 1
    ensures NoMeasurement(circ[..|circ| - 1]) && circ[|circ| - 1] == MeasureAll(n)
  {
    NearestNeighborVariantsValid();
    circ := Generate(QcgpuTnnVariant, src, n, depth);
    CircuitShape(QcgpuTnnVariant, src, n, depth);
    EndsWith(circ, QcgpuTnnVariant.final, n);
  }

  method PyqrackTnn(src: Source, n: nat, depth: nat) returns (circ: seq<Instr>)
    requires n >= 1
    ensures circ == Circuit(PyqrackTnnVariant, src, n, depth)
    ensures AllWellFormed(circ, n) && |circ| >= n
    ensures NoMeasurement(circ[..|circ| - n])
    ensures forall j | 0 <= j < n :: circ[|circ| - n + j] == Measure(j, j)
  {
    NearestNeighborVariantsValid();
    circ := Generate(PyqrackTnnVariant, src, n, depth);
    CircuitShape(PyqrackTnnVariant, src, n, depth);
    EndsWith(circ, PyqrackTnnVariant.final, n);
  }

  method PyqrackEulerNn(src: Source, n: nat, depth: nat) returns (circ: seq<Instr>)
    requires n >= 1
    ensures circ == Circuit(PyqrackEulerNnVariant, src, n, depth)
    ensures AllWellFormed(circ, n) && |circ| >= n
    ensures NoMeasurement(circ[..|circ| - n])
    ensures forall j | 0 <= j < n :: circ[|circ| - n + j] == Measure(j, j)
  {
    NearestNeighborVariantsValid();
    circ := Generate(PyqrackEulerNnVariant, src, n, depth);
    CircuitShape(PyqrackEulerNnVariant, src, n, depth);
    EndsWith(circ, PyqrackEulerNnVariant.final, n);
  }
}
