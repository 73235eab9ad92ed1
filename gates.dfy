/**
 * Gate kinds, circuit instructions and the random sources that the benchmark
 * generators draw from.
 *
 * Every script builds a circuit as an ordered list of gate applications on
 * qubit indices. The model keeps that list: an `Instr` names the gate kind and
 * its qubit operands. Rotation angles and explicit matrices are floating point
 * in the scripts; here they are opaque tags inside the gate kind.
 */
module Gates {

  datatype Option<T> = None | Some(value: T)

  /** Gate kinds used by the scripts; angles and matrices are tags. */
  datatype Gate =
    // one-qubit gates with a fixed matrix
    | H | X | Y | Z | S | Sdg | T | Tdg
    // square roots used by the Sycamore approximations
    | SqrtX | SqrtY | SqrtW | SqrtH | SqrtXConjT
    // one-qubit gates whose angle is an opaque tag
    | Rz | Phase | U1 | U
    // two-qubit gates
    | Swap | ISwap | CNOT | CY | CZ | CU3 | AntiCNOT | AntiCY | AntiCZ
    | CPhase  // controlled phase by an opaque angle (the "1/6 of CZ" coupler)
    // three-qubit gates
    | CCNOT | CCY | CCZ | AntiCCNOT | AntiCCY | AntiCCZ
    // Fourier-transform phases, with the exponent kept because it is computed
    | CPhasePi(coeff: int, k: nat)   // controlled phase by coeff * pi / 2^k
    | CZPowPi(k: nat)                // CZ power with exponent pi / 2^k
    | PhaseHalfPow(k: nat)           // phase gate by 1 / 2^k radians
    | DiagPhase(entry: PhaseEntry)   // the matrix diag(1, entry)

  /** Second diagonal entry of a phase-correction matrix. */
  datatype PhaseEntry =
    | MinusOne                  // -1
    | RootOfMinusOne(k: nat)    // (-1)^(1 / 2^k), a 2^(k+1)-th root of unity
    | EighthRoot                // exp(i pi / 4)

  /** One element of a circuit. */
  datatype Instr =
    | One(g: Gate, q: nat)                        // one-qubit gate on q
    | Two(g: Gate, a: nat, b: nat)                // control (or first operand) a, target b
    | Three(g: Gate, a: nat, b: nat, c: nat)      // controls a, b and target c
    | IfBit(g: Gate, q: nat, bit: nat)            // one-qubit gate applied if classical bit `bit` is 1
    | Measure(q: nat, bit: nat)                   // measure qubit q into classical bit `bit`
    | MeasureAll(width: nat)                      // measure qubits 0 .. width-1 at once
    | Reset(q: nat)
    | ResetAll

  /** The qubit operands of an instruction. */
  function Operands(i: Instr): seq<nat>
  {
    match i
    case One(_, q) => [q]
    case Two(_, a, b) => [a, b]
    case Three(_, a, b, c) => [a, b, c]
    case IfBit(_, q, _) => [q]
    case Measure(q, _) => [q]
    case MeasureAll(_) => []
    case Reset(q) => [q]
    case ResetAll => []
  }

  /** All operands lie in [0, n) and no operand is repeated. */
  predicate WellFormed(i: Instr, n: nat)
  {
    var ops := Operands(i);
    (forall k | 0 <= k < |ops| :: ops[k] < n) &&
    (forall k, l | 0 <= k < l < |ops| :: ops[k] != ops[l]) &&
    (i.MeasureAll? ==> i.width == n)
  }

  predicate AllWellFormed(c: seq<Instr>, n: nat)
  {
    forall i | i in c :: WellFormed(i, n)
  }

  /** No instruction measures anything. */
  predicate NoMeasurement(c: seq<Instr>)
  {
    forall i | i in c :: !i.Measure? && !i.MeasureAll?
  }

  predicate IsOneQubit(i: Instr) { i.One? }

  /** Number of measurement instructions of any kind. */
  function CountMeasures(c: seq<Instr>): nat
  {
    if c == [] then 0 else CountMeasures(c[..|c| - 1]) + (if c[|c| - 1].Measure? || c[|c| - 1].MeasureAll? then 1 else 0)
  }

  /** One measurement per qubit, qubit j into classical bit j, in index order. */
  function MeasureEach(n: nat): (c: seq<Instr>)
    ensures |c| == n
    ensures forall j | 0 <= j < n :: c[j] == Measure(j, j)
  {
    if n == 0 then [] else MeasureEach(n - 1) + [Measure(n - 1, n - 1)]
  }

  /** A value of Qrack's `Rand()`, a real in [0, 1]. */
  type Prob = r: real | 0.0 <= r <= 1.0 witness 0.0

  /**
   * The position of a random draw in the generator's loop nest. Indexing
   * draws by position instead of by their order in one stream reaches the
   * same set of circuits.
   */
  datatype Draw =
    | GateDraw(layer: nat, pass: nat, qubit: nat)     // a single-qubit gate choice
    | FlagDraw(layer: nat, qubit: nat, slot: nat)     // a further per-qubit draw
    | PairDraw(layer: nat, row: int, col: int)        // the gate for a coupled pair
    | OrderDraw(layer: nat, row: int, col: int)       // the operand order of a coupled pair
    | GroupDraw(layer: nat, round: nat, slot: nat)    // draws of the grouping loop
    | TrialDraw(step: nat)                            // draws outside the layers

  /** Python's `random.choice` (an index taken modulo the option count) and Qrack's `Rand()`. */
  datatype Source = Source(pick: Draw -> nat, rand: Draw -> Prob)

  /** `random.choice(options)`: some element, chosen by the draw. */
  function Choice<E>(options: seq<E>, k: nat): (e: E)
    requires |options| > 0
    ensures e in options
  {
    options[k % |options|]
  }

  /** `options.index(x)`: the first position holding x; None is the `ValueError` when there is none. */
  function IndexOf<E(==)>(options: seq<E>, x: E): (r: Option<nat>)
    ensures r.None? <==> x !in options
    ensures r.Some? ==> r.value < |options| && options[r.value] == x && x !in options[..r.value]
  {
    if options == [] then None
    else if options[0] == x then Some(0)
    else match IndexOf(options[1..], x)
      case None => None
      case Some(k) =>
        assert options[..k + 1] == [options[0]] + options[1..][..k];
        Some(k + 1)
  }

  /** `random.getrandbits(1) > 0`. */
  predicate Bit(src: Source, at: Draw) { src.pick(at) % 2 == 1 }

  /**
   * Splitting what is left of a sequence keeps the whole: the step of a loop
   * that accumulates its output, stated over plain sequences so that the
   * caller's own terms are not unfolded.
   */
  lemma AccumulateStep<T>(done: seq<T>, part: seq<T>, tail: seq<T>, rest: seq<T>, total: seq<T>)
    requires done + rest == total && part + tail == rest
    ensures (done + part) + tail == total
  {
  }

  // ---------------------------------------------------------------------
  // Circuit shape

  /** A gate (no reset, no measurement) on distinct qubits below n. */
  predicate IsGate(i: Instr, n: nat)
  {
    (i.One? || i.Two? || i.Three?) && WellFormed(i, n)
  }

  /** Gates only, stated one instruction at a time from the back. */
  predicate GatesOnly(c: seq<Instr>, n: nat)
  {
    c == [] || (GatesOnly(c[..|c| - 1], n) && IsGate(c[|c| - 1], n))
  }

  /** The recursive form says the same as the one over members. */
  lemma {:induction false} GatesOnlyMembers(c: seq<Instr>, n: nat)
    ensures GatesOnly(c, n) <==> forall i | i in c :: IsGate(i, n)
  {
    if c != [] {
      var init := c[..|c| - 1];
      GatesOnlyMembers(init, n);
      assert c == init + [c[|c| - 1]];
    }
  }

  lemma {:induction false} GatesOnlyAppend(a: seq<Instr>, b: seq<Instr>, n: nat)
    requires GatesOnly(a, n) && GatesOnly(b, n)
    ensures GatesOnly(a + b, n)
  {
    if b == [] {
      assert a + b == a;
    } else {
      var init := b[..|b| - 1];
      GatesOnlyAppend(a, init, n);
      assert (a + b)[..|a + b| - 1] == a + init;
      assert (a + b)[|a + b| - 1] == b[|b| - 1];
    }
  }

  /** Every instruction is a gate on distinct qubits below n. */
  predicate AllGates(c: seq<Instr>, n: nat)
  {
    forall i | i in c :: IsGate(i, n)
  }

  lemma GatesBoth(a: seq<Instr>, b: seq<Instr>, n: nat)
    requires AllGates(a, n) && AllGates(b, n)
    ensures AllGates(a + b, n)
  {
  }

  /** The elements of s, last one first. */
  function Reverse<E>(s: seq<E>): (r: seq<E>)
    ensures |r| == |s| && forall k | 0 <= k < |s| :: r[k] == s[|s| - 1 - k]
  {
    if s == [] then [] else [s[|s| - 1]] + Reverse(s[..|s| - 1])
  }

  /** How a circuit ends: no measurement, one per qubit into the matching bit, or all at once. */
  datatype Final = NoMeasure | MeasureEachQubit | MeasureAllQubits

  function FinalPart(f: Final, n: nat): seq<Instr>
  {
    match f
    case NoMeasure => []
    case MeasureEachQubit => MeasureEach(n)
    case MeasureAllQubits => [MeasureAll(n)]
  }

  lemma FinalWellFormed(f: Final, n: nat)
    ensures AllWellFormed(FinalPart(f, n), n)
  {
    var c := FinalPart(f, n);
    if f.MeasureEachQubit? {
      forall i | i in c ensures WellFormed(i, n) {
        var j :| 0 <= j < n && c[j] == i;
      }
    }
  }

  /**
   * An optional reset, then gates, then the final measurement part: every
   * instruction is well formed, nothing is measured before the final part,
   * and the reset, when there is one, comes first.
   */
  lemma Assembled(pre: seq<Instr>, body: seq<Instr>, f: Final, n: nat)
    requires pre == [] || pre == [ResetAll]
    requires GatesOnly(body, n)
    ensures var post := FinalPart(f, n); var c := pre + body + post;
      AllWellFormed(c, n) && |c| >= |post| && NoMeasurement(c[..|c| - |post|]) &&
      c[|c| - |post|..] == post && (pre != [] ==> c[0] == ResetAll)
  {
    GatesOnlyMembers(body, n);
    FinalWellFormed(f, n);
    var post := FinalPart(f, n);
    var c := pre + body + post;
    assert c[..|c| - |post|] == pre + body;
  }

  /** What the last instructions are, for each way of ending. */
  lemma EndsWith(c: seq<Instr>, f: Final, n: nat)
    requires |c| >= |FinalPart(f, n)| && c[|c| - |FinalPart(f, n)|..] == FinalPart(f, n)
    ensures f == NoMeasure ==> c[..|c| - |FinalPart(f, n)|] == c
    ensures f == MeasureAllQubits ==> |c| >= 1 && c[|c| - 1] == MeasureAll(n)
    ensures f == MeasureEachQubit ==> |c| >= n && forall j | 0 <= j < n :: c[|c| - n + j] == Measure(j, j)
  {
    if f == MeasureAllQubits {
      assert c[|c| - 1] == c[|c| - 1..][0];
    }
    if f == MeasureEachQubit {
      forall j | 0 <= j < n
        ensures c[|c| - n + j] == Measure(j, j)
      {
        assert c[|c| - n + j] == c[|c| - n..][j];
      }
    }
  }
}
