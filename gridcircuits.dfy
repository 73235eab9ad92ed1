/**
 * The layered nearest-neighbour generator that the Sycamore-style and the
 * nearest-neighbour benchmark scripts share.
 *
 * Every script factors the width into a grid, then for each layer gives every
 * qubit its single-qubit gates, takes the next value of the 8-entry pattern
 * list (popping it at the front and pushing it at the back), scans the grid
 * for the coupled pairs of that pattern value and gives each pair its
 * two-qubit gates. Some scripts reset the register first and some measure it
 * at the end. A `Variant` holds what differs from script to script.
 */
module GridCircuits {
  import opened Gates
  import opened Grid
  import opened Tiling
  import opened Singles

  /** How the width is factored into a grid and which rows are scanned. */
  datatype GridKind =
    | SimpleExact(first: nat)   // near-square factor pair, rows first, first+2, ... scanned
    | SimpleTrueDivision        // the small side stays at the floor square root (true-division test)
    | ParityExact               // near-square factor pair, rows from the row-start table
    | ParityTrueDivision

  /** One gate of a pair's gate sequence, on the pair (b1, b2), on (b2, b1), or on b1 alone. */
  datatype Micro = Pair(g: Gate, flipped: bool) | OnFirst(g: Gate)

  /** The gates a coupled pair receives. */
  datatype PairRule =
    | Always(micros: seq<Micro>)          // the same sequence for every pair
    | PickOne(options: seq<seq<Micro>>)   // `random.choice` among sequences (an empty one is the identity)
    | CnotOrCz                            // a CNOT in random orientation or a CZ, on `Rand()` draws

  datatype Variant = Variant(
    pattern: seq<nat>,
    kind: GridKind,
    transposed: bool,     // pair indices are remapped column-major before use
    passes: seq<Pass>,
    pairs: PairRule,
    final: Final,
    resetFirst: bool)

  predicate ValidVariant(v: Variant)
  {
    IsPattern(v.pattern) && |v.passes| >= 1 &&
    (forall i | 0 <= i < |v.passes| :: ValidPass(v.passes[i])) &&
    (forall i | 0 <= i < |v.passes| - 1 :: !Remembers(v.passes[i])) &&
    (v.pairs.PickOne? ==> |v.pairs.options| >= 1) &&
    (v.transposed ==> v.kind.ParityExact?)
  }

  /** The pass whose records carry over to the next layer: the last one. */
  function RecPass(v: Variant): Pass
    requires |v.passes| >= 1
  {
    v.passes[|v.passes| - 1]
  }

  // ---------------------------------------------------------------------
  // Grid

  /** The grid a width is scanned as. */
  function TilingOf(kind: GridKind, n: nat): (t: Tiling)
    requires n >= 1
    ensures t.cols >= 1
  {
    match kind
    case SimpleExact(first) => Tiling(SimpleRows(first), NearSquare(n).1, NearSquare(n).0)
    case ParityExact => Tiling(ParityRows, NearSquare(n).1, NearSquare(n).0)
    case SimpleTrueDivision => Tiling(SimpleRows(1), TrueDivisionFactor(n).1, TrueDivisionFactor(n).0)
    case ParityTrueDivision => Tiling(ParityRows, TrueDivisionFactor(n).1, TrueDivisionFactor(n).0)
  }

  /**
   * The grid never holds more cells than there are qubits, and holds exactly
   * n when the factorisation is exact; the Sycamore-style scripts number rows
   * from 1, the parity scripts tile by row parity.
   */
  lemma TilingOfFits(kind: GridKind, n: nat)
    requires n >= 1
    ensures var t := TilingOf(kind, n);
      t.rows * t.cols <= n &&
      ((kind.SimpleExact? || kind.ParityExact?) ==> t.rows * t.cols == n) &&
      t.rule == (match kind
                 case SimpleExact(first) => SimpleRows(first)
                 case SimpleTrueDivision => SimpleRows(1)
                 case _ => ParityRows)
  {
    NearSquareCorrect(n);
  }

  /** The factorisation step of the generators. */
  method GridOf(kind: GridKind, n: nat) returns (t: Tiling)
    requires n >= 1
    ensures t == TilingOf(kind, n)
  {
    match kind {
      case SimpleExact(first) =>
        var small, large := Factor(n);
        t := Tiling(SimpleRows(first), large, small);
      case ParityExact =>
        var small, large := Factor(n);
        t := Tiling(ParityRows, large, small);
      case SimpleTrueDivision =>
        var small := FloorSqrt(n);
        t := Tiling(SimpleRows(1), n / small, small);
      case ParityTrueDivision =>
        var small := FloorSqrt(n);
        t := Tiling(ParityRows, n / small, small);
    }
  }

  // ---------------------------------------------------------------------
  // Pairs

  /** The qubit a grid index stands for. */
  function QubitOf(v: Variant, t: Tiling, b: nat): nat
    requires t.cols > 0
  {
    if v.transposed then Transpose(b, t.rows, t.cols) else b
  }

  function MicroInstr(m: Micro, a: nat, b: nat): Instr
  {
    match m
    case Pair(g, flipped) => if flipped then Two(g, b, a) else Two(g, a, b)
    case OnFirst(g) => One(g, a)
  }

  function MicroInstrs(ms: seq<Micro>, a: nat, b: nat): (c: seq<Instr>)
    ensures |c| == |ms|
    ensures forall k | 0 <= k < |ms| :: c[k] == MicroInstr(ms[k], a, b)
  {
    seq(|ms|, k requires 0 <= k < |ms| => MicroInstr(ms[k], a, b))
  }

  /**
   * The gates of one coupled pair on the qubits a and b. Whatever the rule,
   * they act on a and b only, so a pair of distinct qubits below n gives only
   * well-formed instructions.
   */
  function PairInstrs(rule: PairRule, src: Source, d: nat, c: Coupler, a: nat, b: nat): (r: seq<Instr>)
    requires rule.PickOne? ==> |rule.options| >= 1
    ensures forall i | i in r :: (i.One? && i.q == a) || (i.Two? && ((i.a == a && i.b == b) || (i.a == b && i.b == a)))
  {
    match rule
    case Always(ms) => MicroInstrs(ms, a, b)
    case PickOne(options) => MicroInstrs(Choice(options, src.pick(PairDraw(d, c.row, c.col))), a, b)
    case CnotOrCz =>
      if src.rand(PairDraw(d, c.row, c.col)) < 0.5 then
        if src.rand(OrderDraw(d, c.row, c.col)) < 0.5 then [Two(CNOT, b, a)] else [Two(CNOT, a, b)]
      else [Two(CZ, a, b)]
  }

  /** The gates of the pairs cs, in scan order. */
  function PairsPart(v: Variant, t: Tiling, src: Source, d: nat, cs: seq<Coupler>): seq<Instr>
    requires t.cols > 0 && (v.pairs.PickOne? ==> |v.pairs.options| >= 1)
  {
    if cs == [] then []
    else
      var c := cs[|cs| - 1];
      PairsPart(v, t, src, d, cs[..|cs| - 1]) + PairInstrs(v.pairs, src, d, c, QubitOf(v, t, c.b1), QubitOf(v, t, c.b2))
  }

  method RunPairs(v: Variant, t: Tiling, src: Source, d: nat, cs: seq<Coupler>) returns (instrs: seq<Instr>)
    requires t.cols > 0 && (v.pairs.PickOne? ==> |v.pairs.options| >= 1)
    ensures instrs == PairsPart(v, t, src, d, cs)
  {
    instrs := [];
    var k := 0;
    while k < |cs|
      invariant k <= |cs|
      invariant instrs == PairsPart(v, t, src, d, cs[..k])
    {
      var c := cs[k];
      var b1, b2 := c.b1, c.b2;
      if v.transposed {
        b1 := Transpose(b1, t.rows, t.cols);
        b2 := Transpose(b2, t.rows, t.cols);
      }
      instrs := instrs + PairInstrs(v.pairs, src, d, c, b1, b2);
      k := k + 1;
      assert cs[..k][..k - 1] == cs[..k - 1];
    }
    assert cs[..k] == cs;
  }

  // ---------------------------------------------------------------------
  // Layers

  /** Passes 0 .. pi-1 of layer d. */
  function SinglesOf(v: Variant, src: Source, n: nat, depth: nat, d: nat, records: seq<nat>, pi: nat): seq<Instr>
    requires ValidVariant(v) && pi <= |v.passes|
  {
    if pi == 0 then []
    else SinglesOf(v, src, n, depth, d, records, pi - 1) + PassPrefix(v.passes[pi - 1], src, n, depth, d, pi - 1, records, n)
  }

  /** The records left by layer d, given those of layer d-1. */
  function LayerRecords(v: Variant, src: Source, n: nat, depth: nat, d: nat, records: seq<nat>): (r: seq<nat>)
    requires ValidVariant(v)
    ensures |r| == n
  {
    PassRecords(RecPass(v), src, n, depth, d, |v.passes| - 1, records)
  }

  /** The records the first k layers leave: none before the first layer, one per qubit after. */
  function RecordsBefore(v: Variant, src: Source, n: nat, depth: nat, k: nat): (r: seq<nat>)
    requires ValidVariant(v)
    ensures |r| == (if k == 0 then 0 else n)
  {
    if k == 0 then [] else LayerRecords(v, src, n, depth, k - 1, RecordsBefore(v, src, n, depth, k - 1))
  }

  /** The pattern value of layer d: the front of the list after d rotations. */
  function PatternOf(v: Variant, d: nat): (g: nat)
    requires ValidVariant(v)
    ensures g < 4
  {
    v.pattern[d % 8]
  }

  /** Layer d: the single-qubit passes, then the gates of the coupled pairs. */
  function LayerOf(v: Variant, src: Source, n: nat, depth: nat, d: nat, records: seq<nat>): seq<Instr>
    requires ValidVariant(v) && n >= 1
  {
    var t := TilingOf(v.kind, n);
    SinglesOf(v, src, n, depth, d, records, |v.passes|) + PairsPart(v, t, src, d, Couplers(t, PatternOf(v, d)))
  }

  /** The first k layers. */
  function Layers(v: Variant, src: Source, n: nat, depth: nat, k: nat): seq<Instr>
    requires ValidVariant(v) && n >= 1
  {
    if k == 0 then []
    else Layers(v, src, n, depth, k - 1) + LayerOf(v, src, n, depth, k - 1, RecordsBefore(v, src, n, depth, k - 1))
  }

  function Prefix(v: Variant): seq<Instr>
  {
    if v.resetFirst then [ResetAll] else []
  }

  /** The whole circuit of a width-n, depth-`depth` run. */
  function Circuit(v: Variant, src: Source, n: nat, depth: nat): seq<Instr>
    requires ValidVariant(v) && n >= 1
  {
    Prefix(v) + Layers(v, src, n, depth, depth) + FinalPart(v.final, n)
  }

  // ---------------------------------------------------------------------
  // The generator

  /** The single-qubit passes of layer d. */
  method RunSingles(v: Variant, src: Source, n: nat, depth: nat, d: nat, records: seq<nat>)
    returns (instrs: seq<Instr>, next: seq<nat>)
    requires ValidVariant(v)
    ensures instrs == SinglesOf(v, src, n, depth, d, records, |v.passes|)
    ensures next == LayerRecords(v, src, n, depth, d, records)
  {
    instrs := [];
    next := records;
    var pi := 0;
    while pi < |v.passes|
      invariant pi <= |v.passes|
      invariant instrs == SinglesOf(v, src, n, depth, d, records, pi)
      invariant pi > 0 ==> next == PassRecords(v.passes[pi - 1], src, n, depth, d, pi - 1, records)
    {
      var part, rec := RunPass(v.passes[pi], src, n, depth, d, pi, records);
      instrs := instrs + part;
      next := rec;
      pi := pi + 1;
    }
    assert RecPass(v) == v.passes[pi - 1];
  }

  // ---------------------------------------------------------------------
  // Properties

  lemma {:induction false} PairsPartGatesOnly(v: Variant, t: Tiling, src: Source, d: nat, cs: seq<Coupler>, n: nat)
    requires t.cols > 0 && (v.pairs.PickOne? ==> |v.pairs.options| >= 1)
    requires t.rows * t.cols <= n
    requires forall c | c in cs :: c.b1 < t.rows * t.cols && c.b2 < t.rows * t.cols && c.b1 != c.b2
    ensures GatesOnly(PairsPart(v, t, src, d, cs), n)
  {
    if cs != [] {
      var c := cs[|cs| - 1];
      var init := cs[..|cs| - 1];
      assert forall e | e in init :: e in cs;
      PairsPartGatesOnly(v, t, src, d, init, n);
      var a, b := QubitOf(v, t, c.b1), QubitOf(v, t, c.b2);
      if v.transposed {
        TransposeInjective(c.b1, c.b2, t.rows, t.cols);
        TransposeInjective(c.b2, c.b1, t.rows, t.cols);
      }
      assert a != b && a < n && b < n;
      var last := PairInstrs(v.pairs, src, d, c, a, b);
      GatesOnlyMembers(last, n);
      GatesOnlyAppend(PairsPart(v, t, src, d, init), last, n);
    }
  }

  lemma {:induction false} SinglesGatesOnly(v: Variant, src: Source, n: nat, depth: nat, d: nat, records: seq<nat>, pi: nat)
    requires ValidVariant(v) && pi <= |v.passes|
    ensures GatesOnly(SinglesOf(v, src, n, depth, d, records, pi), n)
  {
    if pi > 0 {
      SinglesGatesOnly(v, src, n, depth, d, records, pi - 1);
      var part := PassPrefix(v.passes[pi - 1], src, n, depth, d, pi - 1, records, n);
      PassGatesOnly(v.passes[pi - 1], src, n, depth, d, pi - 1, records);
      GatesOnlyAppend(SinglesOf(v, src, n, depth, d, records, pi - 1), part, n);
    }
  }

  /** One layer is made of gates on distinct qubits of the register, whatever the records. */
  lemma LayerGatesOnly(v: Variant, src: Source, n: nat, depth: nat, d: nat, records: seq<nat>)
    requires ValidVariant(v) && n >= 1
    ensures GatesOnly(LayerOf(v, src, n, depth, d, records), n)
  {
    var t := TilingOf(v.kind, n);
    var cs := Couplers(t, PatternOf(v, d));
    TilingOfFits(v.kind, n);
    SinglesGatesOnly(v, src, n, depth, d, records, |v.passes|);
    CouplersInRange(t, PatternOf(v, d));
    PairsPartGatesOnly(v, t, src, d, cs, n);
    GatesOnlyAppend(SinglesOf(v, src, n, depth, d, records, |v.passes|), PairsPart(v, t, src, d, cs), n);
  }

  /** Every layer is made of gates on distinct qubits of the register. */
  lemma {:induction false} LayersGatesOnly(v: Variant, src: Source, n: nat, depth: nat, k: nat)
    requires ValidVariant(v) && n >= 1
    ensures GatesOnly(Layers(v, src, n, depth, k), n)
  {
    if k > 0 {
      LayersGatesOnly(v, src, n, depth, k - 1);
      LayerGatesOnly(v, src, n, depth, k - 1, RecordsBefore(v, src, n, depth, k - 1));
      LayersStepGatesOnly(v, src, n, depth, k);
    }
  }

  lemma LayersStepGatesOnly(v: Variant, src: Source, n: nat, depth: nat, k: nat)
    requires ValidVariant(v) && n >= 1 && k > 0
    requires GatesOnly(Layers(v, src, n, depth, k - 1), n)
    requires GatesOnly(LayerOf(v, src, n, depth, k - 1, RecordsBefore(v, src, n, depth, k - 1)), n)
    ensures GatesOnly(Layers(v, src, n, depth, k), n)
  {
    GatesOnlyAppend(Layers(v, src, n, depth, k - 1), LayerOf(v, src, n, depth, k - 1, RecordsBefore(v, src, n, depth, k - 1)), n);
  }

  /**
   * The shape of every generated circuit: an optional reset, then layers of
   * gates whose operands are distinct qubits below n, then the final
   * measurement (one per qubit into the matching bit, or all at once, or none).
   */
  lemma CircuitShape(v: Variant, src: Source, n: nat, depth: nat)
    requires ValidVariant(v) && n >= 1
    ensures GatesOnly(Layers(v, src, n, depth, depth), n)
    ensures var c, post := Circuit(v, src, n, depth), FinalPart(v.final, n);
      AllWellFormed(c, n) && |c| >= |post| && NoMeasurement(c[..|c| - |post|]) &&
      c[|c| - |post|..] == post && (v.resetFirst ==> c[0] == ResetAll)
  {
    LayersGatesOnly(v, src, n, depth, depth);
    Assembled(Prefix(v), Layers(v, src, n, depth, depth), v.final, n);
  }

  /** The gates the remembering pass gives qubit j in layer d, given the records of the layer before. */
  function RecGates(v: Variant, src: Source, n: nat, depth: nat, d: nat, j: nat, records: seq<nat>): seq<Gate>
    requires ValidVariant(v)
  {
    PassStep(RecPass(v), src, n, depth, d, |v.passes| - 1, j, Prev(RecPass(v), records, j)).gates
  }

  /**
   * Whatever records layer d starts from, a qubit's gate in the remembering
   * pass of layer d+1 differs from its gate in the same pass of layer d.
   * Layer d+1 starts from the records layer d leaves, so this holds for every
   * pair of consecutive layers of the circuit.
   */
  lemma NoRepeat(v: Variant, src: Source, n: nat, depth: nat, d: nat, j: nat, records: seq<nat>)
    requires ValidVariant(v) && (RecPass(v).ChooseOther? || RecPass(v).EraseThree?)
    requires Distinct(RecPass(v).options) && j < n
    ensures var next := LayerRecords(v, src, n, depth, d, records);
      RecGates(v, src, n, depth, d + 1, j, next) != RecGates(v, src, n, depth, d, j, records)
  {
    var p, pi := RecPass(v), |v.passes| - 1;
    var before := Prev(p, records, j);
    StepNoRepeat(p, src, n, depth, d, pi, j, before);
    var s1 := PassStep(p, src, n, depth, d, pi, j, before);
    assert Prev(p, LayerRecords(v, src, n, depth, d, records), j) == Some(s1.record);
  }

  /** The inverse-recording pass, run twice with the records of the first run in between. */
  lemma PassNeverUndoes(p: Pass, src: Source, n: nat, depth: nat, d: nat, pi: nat, j: nat, records: seq<nat>)
    requires p.InverseFour? && j < n
    ensures var g := PassStep(p, src, n, depth, d, pi, j, Prev(p, records, j)).gates;
      var g' := PassStep(p, src, n, depth, d + 1, pi, j, Prev(p, PassRecords(p, src, n, depth, d, pi, records), j)).gates;
      |g| == 1 && |g'| == 1 && Some(g'[0]) != Adjoint(g[0])
  {
    var before := Prev(p, records, j);
    StepNeverUndoes(p, src, n, depth, d, pi, j, before);
    var s1 := PassStep(p, src, n, depth, d, pi, j, before);
    assert Prev(p, PassRecords(p, src, n, depth, d, pi, records), j) == Some(s1.record);
  }

  /**
   * Whatever records layer d starts from, the inverse-recording pass of
   * layer d+1 never gives a qubit the gate that undoes its gate of layer d.
   */
  lemma NeverUndoes(v: Variant, src: Source, n: nat, depth: nat, d: nat, j: nat, records: seq<nat>)
    requires ValidVariant(v) && RecPass(v).InverseFour? && j < n
    ensures var next := LayerRecords(v, src, n, depth, d, records);
      var g, g' := RecGates(v, src, n, depth, d, j, records), RecGates(v, src, n, depth, d + 1, j, next);
      |g| == 1 && |g'| == 1 && Some(g'[0]) != Adjoint(g[0])
  {
    var p, pi := RecPass(v), |v.passes| - 1;
    var next := LayerRecords(v, src, n, depth, d, records);
    assert next == PassRecords(p, src, n, depth, d, pi, records);
    PassNeverUndoes(p, src, n, depth, d, pi, j, records);
  }

  lemma {:induction false} PairsPartLength(v: Variant, t: Tiling, src: Source, d: nat, cs: seq<Coupler>)
    requires t.cols > 0 && v.pairs.Always?
    ensures |PairsPart(v, t, src, d, cs)| == |v.pairs.micros| * |cs|
  {
    if cs != [] {
      PairsPartLength(v, t, src, d, cs[..|cs| - 1]);
      Distrib(|cs| - 1, |v.pairs.micros|);
      assert |v.pairs.micros| * (|cs| - 1) + |v.pairs.micros| == |v.pairs.micros| * |cs|;
    }
  }

  /** One layer of a one-pass, fixed-pair variant: n single gates, then |micros| per coupled pair. */
  lemma LayerLength(v: Variant, src: Source, n: nat, depth: nat, d: nat, records: seq<nat>)
    requires ValidVariant(v) && n >= 1 && |v.passes| == 1 && v.passes[0].ChooseOther? && v.pairs.Always?
    requires forall i | 0 <= i < |v.passes[0].options| :: |v.passes[0].options[i]| == 1
    ensures |LayerOf(v, src, n, depth, d, records)| ==
      n + |v.pairs.micros| * |Couplers(TilingOf(v.kind, n), PatternOf(v, d))|
  {
    var t := TilingOf(v.kind, n);
    var cs := Couplers(t, PatternOf(v, d));
    var singles := PassPrefix(v.passes[0], src, n, depth, d, 0, records, n);
    var pairs := PairsPart(v, t, src, d, cs);
    PassPrefixLength(v.passes[0], src, n, depth, d, 0, records, n, 1);
    PairsPartLength(v, t, src, d, cs);
    assert SinglesOf(v, src, n, depth, d, records, 1) == singles;
    assert LayerOf(v, src, n, depth, d, records) == singles + pairs;
  }

  /** Layer d on the grid t under the pattern value `gate`. */
  method RunLayer(v: Variant, t: Tiling, src: Source, n: nat, depth: nat, d: nat, last: seq<nat>, gate: nat)
    returns (layer: seq<Instr>, next: seq<nat>)
    requires ValidVariant(v) && n >= 1
    requires t == TilingOf(v.kind, n) && gate == PatternOf(v, d)
    ensures layer == LayerOf(v, src, n, depth, d, last)
    ensures next == LayerRecords(v, src, n, depth, d, last)
  {
    var singles;
    singles, next := RunSingles(v, src, n, depth, d, last);
    var pairs := ScanCouplers(t, gate);
    var twoQubit := RunPairs(v, t, src, d, pairs);
    layer := singles + twoQubit;
  }

  /** Appending layer d to the first d layers gives the first d + 1. */
  method AppendLayer(v: Variant, t: Tiling, src: Source, n: nat, depth: nat, d: nat, last: seq<nat>, gate: nat, circ: seq<Instr>)
    returns (circ': seq<Instr>, next: seq<nat>)
    requires ValidVariant(v) && n >= 1
    requires t == TilingOf(v.kind, n) && gate == PatternOf(v, d)
    requires last == RecordsBefore(v, src, n, depth, d)
    requires circ == Prefix(v) + Layers(v, src, n, depth, d)
    ensures next == RecordsBefore(v, src, n, depth, d + 1)
    ensures circ' == Prefix(v) + Layers(v, src, n, depth, d + 1)
  {
    var layer;
    layer, next := RunLayer(v, t, src, n, depth, d, last, gate);
    circ' := circ + layer;
    Associative(Prefix(v), Layers(v, src, n, depth, d), layer);
  }

  lemma Associative(a: seq<Instr>, b: seq<Instr>, c: seq<Instr>)
    ensures (a + b) + c == a + (b + c)
  {
  }

  /**
   * The generator: factor the width, then per layer run the single-qubit
   * passes, rotate the pattern list, scan for the coupled pairs and give each
   * its gates; measure at the end.
   */
  method Generate(v: Variant, src: Source, n: nat, depth: nat) returns (circ: seq<Instr>)
    requires ValidVariant(v) && n >= 1
    ensures circ == Circuit(v, src, n, depth)
  {
    var t := GridOf(v.kind, n);
    var gateSequence := v.pattern;
    var last: seq<nat> := [];
    circ := Prefix(v);
    var d := 0;
    while d < depth
      invariant d <= depth
      invariant gateSequence == RotateBy(v.pattern, d)
      invariant last == RecordsBefore(v, src, n, depth, d)
      invariant circ == Prefix(v) + Layers(v, src, n, depth, d)
    {
      RotateByHead(v.pattern, d);
      var gate := gateSequence[0];
      gateSequence := gateSequence[1..] + [gate];
      circ, last := AppendLayer(v, t, src, n, depth, d, last, gate, circ);
      d := d + 1;
    }
    circ := circ + FinalPart(v.final, n);
  }
}
