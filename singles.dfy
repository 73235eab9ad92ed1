/**
 * Single-qubit gate selection in the grid benchmarks.
 *
 * Each layer gives every qubit one or two single-qubit passes. A pass picks a
 * gate (or a short gate sequence) per qubit, either freely, by thresholds on a
 * uniform real, or so that it differs from what the previous layer chose for
 * the same qubit. The passes that remember the previous layer keep one
 * "record" per qubit.
 */
module Singles {
  import opened Gates

  // ---------------------------------------------------------------------
  // Choices among k options

  /**
   * The ordered choice set {0, .., k-1}, as the C++ `std::set<int>` holds
   * it: exactly the indices below k, in increasing order, so without
   * repetition.
   */
  function Choices(k: nat): (s: seq<nat>)
    ensures |s| == k
    ensures forall x: nat :: x in s <==> x < k
    ensures forall i, j | 0 <= i < j < k :: s[i] < s[j]
  {
    if k == 0 then []
    else
      var p := Choices(k - 1);
      assert forall i | 0 <= i < k - 1 :: p[i] in p;
      p + [k - 1]
  }

  /**
   * The choice set with `last` erased: the choices below `last` keep their
   * positions and the ones above move down by one (`WithoutIsErase`).
   */
  function Without(k: nat, last: nat): (s: seq<nat>)
    requires last < k
    ensures |s| == k - 1
    ensures forall i | 0 <= i < k - 1 :: s[i] < k && s[i] != last
    ensures forall i, j | 0 <= i < j < k - 1 :: s[i] < s[j]
  {
    seq(k - 1, i requires 0 <= i < k - 1 => if i < last then i else i + 1)
  }

  /** `Without` is the ordered choice set with the element `last` cut out. */
  lemma WithoutIsErase(k: nat, last: nat)
    requires last < k
    ensures Without(k, last) == Choices(k)[..last] + Choices(k)[last + 1..]
  {
    ChoicesAt(k);
  }

  /** Holding exactly 0 .. k-1 in increasing order, the choice set has choice i at position i. */
  lemma {:induction false} ChoicesAt(k: nat)
    ensures forall i | 0 <= i < k :: Choices(k)[i] == i
  {
    if k > 0 {
      ChoicesAt(k - 1);
    }
  }

  /** Nothing but `last` is erased: the set holds every other choice. */
  lemma WithoutMembers(k: nat, last: nat, x: nat)
    requires last < k
    ensures x in Without(k, last) <==> x < k && x != last
  {
    var s := Without(k, last);
    if x < k && x != last {
      var i := if x < last then x else x - 1;
      assert s[i] == x;
    }
  }

  /**
   * Resampling `random.choice` until it differs from the previous choice,
   * described by its outcome: some choice other than `prev`, selected by the
   * draw `r`.
   */
  function PickOther(k: nat, prev: nat, r: nat): (c: nat)
    requires 2 <= k && prev < k
    ensures c < k && c != prev
  {
    Without(k, prev)[r % (k - 1)]
  }

  lemma ModOfSmall(x: nat, m: nat)
    requires x < m
    ensures x % m == x
  {
  }

  /** Every choice other than `prev` is the outcome of some draw. */
  lemma PickOtherReachesAll(k: nat, prev: nat, c: nat)
    requires 2 <= k && prev < k && c < k && c != prev
    ensures exists r: nat :: PickOther(k, prev, r) == c
  {
    var r: nat := if c < prev then c else c - 1;
    ModOfSmall(r, k - 1);
    assert PickOther(k, prev, r) == c;
  }

  /**
   * The `if (r < 1/k) .. else if (r < 2/k) .. else` chain over `Rand()`:
   * bucket i holds the r with i/k <= r < (i+1)/k, and the last bucket also
   * holds r == 1.
   */
  function Bucket(r: real, k: nat): (i: nat)
    requires 1 <= k && 0.0 <= r
    ensures i < k
    ensures i as real / k as real <= r
    ensures i < k - 1 ==> r < (i + 1) as real / k as real
  {
    BucketFrom(r, k, 0)
  }

  function BucketFrom(r: real, k: nat, i: nat): (b: nat)
    requires i < k && i as real / k as real <= r
    ensures i <= b < k
    ensures b as real / k as real <= r
    ensures b < k - 1 ==> r < (b + 1) as real / k as real
    decreases k - i
  {
    if i == k - 1 || r < (i + 1) as real / k as real then i else BucketFrom(r, k, i + 1)
  }

  // ---------------------------------------------------------------------
  // Three gates with the previous one erased (qrack/qrack_sycamore.cpp)

  /**
   * The erase-and-advance choice as written: the draw is truncated to 0 or 1,
   * then doubled again before the advance, so the iterator moves 0 or 2 steps
   * through a two-element set. Two steps reach `end()`, whose dereference is
   * undefined; that outcome is `None`.
   */
  function EraseThreeAsWritten(last: nat, r: Prob): (c: Option<nat>)
    requires last < 3
    ensures c.None? <==> r >= 0.5
    ensures c.Some? ==> c.value == Without(3, last)[0]
  {
    var remaining := Without(3, last);
    var t := (r * 2.0).Floor;
    var t' := if t > 1 then t - 1 else t;
    var offset := t' * 2;
    if offset < |remaining| then Some(remaining[offset]) else None
  }

  /** The intended choice: the draw, truncated to 0 or 1, indexes the two gates left. */
  function EraseThree(last: nat, r: Prob): (c: nat)
    requires last < 3
    ensures c < 3 && c != last
    ensures c == Without(3, last)[if r < 0.5 then 0 else 1]
  {
    var remaining := Without(3, last);
    var t := (r * 2.0).Floor;
    var t' := if t > 1 then t - 1 else t;
    remaining[t']
  }

  /** Both remaining gates are reachable by the corrected choice. */
  lemma EraseThreeReachesAll(last: nat, c: nat)
    requires last < 3 && c < 3 && c != last
    ensures exists r: Prob :: EraseThree(last, r) == c
  {
    var s := Without(3, last);
    if s[0] == c {
      assert EraseThree(last, 0.0) == c;
    } else {
      assert s[1] == c;
      assert EraseThree(last, 0.75) == c;
    }
  }

  /** The written choice never selects the second remaining gate. */
  lemma EraseThreeAsWrittenMissesSecond(last: nat)
    requires last < 3
    ensures forall r: Prob :: EraseThreeAsWritten(last, r) != Some(Without(3, last)[1])
  {
  }

  // ---------------------------------------------------------------------
  // Four gates with the inverse recorded (qrack_universal_nearest_neighbor.cpp)

  /** The gates by choice index: H, X, T and T's adjoint. */
  const FourGates: seq<Gate> := [H, X, T, Tdg]

  /** The gates the choice branches apply as written: choice 3 applies T. */
  const FourGatesAsWritten: seq<Gate> := [H, X, T, T]

  /** The record kept for each choice: the index of the gate that undoes it. */
  const InverseRecord: seq<nat> := [0, 1, 3, 2]

  /** The adjoint of a Clifford+T gate, when the model knows it. */
  function Adjoint(g: Gate): Option<Gate>
  {
    match g
    case H => Some(H)
    case X => Some(X)
    case Y => Some(Y)
    case Z => Some(Z)
    case S => Some(Sdg)
    case Sdg => Some(S)
    case T => Some(Tdg)
    case Tdg => Some(T)
    case _ => None
  }

  /** The record of a choice names the gate that undoes the chosen gate. */
  lemma InverseRecordIsAdjoint(c: nat)
    requires c < 4
    ensures InverseRecord[c] < 4
    ensures Adjoint(FourGates[c]) == Some(FourGates[InverseRecord[c]])
  {
  }

  /**
   * A later layer's choice: erase the recorded index, then index the three
   * left by the truncated `3 * r`. For r == 1 the value read from `rbegin()`
   * is overwritten by the iterator still at `begin()`: the smallest choice left.
   */
  function InverseFourChoice(last: nat, r: Prob): (c: nat)
    requires last < 4
    ensures c < 4 && c != last
    ensures r == 1.0 ==> c == (if last == 0 then 1 else 0)
  {
    var remaining := Without(4, last);
    if r == 1.0 then remaining[0]
    else
      var t := (r * 3.0).Floor;
      assert 0 <= t < 3;
      remaining[t]
  }

  /**
   * With the corrected gate table, the gate chosen after a record is never
   * the gate that would undo the previous one.
   */
  lemma InverseFourNeverUndoes(prev: nat, r: Prob)
    requires prev < 4
    ensures var c := InverseFourChoice(InverseRecord[prev], r);
      Some(FourGates[c]) != Adjoint(FourGates[prev])
  {
    InverseRecordIsAdjoint(prev);
  }

  /**
   * As written, IT in one layer (choice 3, record 2) can be followed by
   * choice 3 in the next, whose branch applies T: the gate that undoes it.
   */
  lemma InverseFourAsWrittenUndoes()
    ensures InverseFourChoice(InverseRecord[3], 0.75) == 3
    ensures Adjoint(FourGates[3]) == Some(FourGatesAsWritten[3])
  {
    var t := (0.75 * 3.0).Floor;
    assert t == 2;
  }

  // ---------------------------------------------------------------------
  // Passes

  /** The six basis switches x_to_y, x_to_z, y_to_z, y_to_x, z_to_x, z_to_y. */
  const BasisSwitches: seq<seq<Gate>> := [[S], [H], [Sdg, H], [Sdg], [H], [H, S]]

  /** How one pass picks a qubit's single-qubit gates. */
  datatype Pass =
    | Pick(options: seq<seq<Gate>>, suffix: seq<Gate>)  // `random.choice`, then a fixed suffix (an opaque-angle rotation)
    | Buckets(options: seq<seq<Gate>>)                  // `Rand()` thresholds at i / k
    | ChooseOther(options: seq<seq<Gate>>)              // `random.choice`, redrawn while equal to the previous layer's
    | EraseThree(options: seq<seq<Gate>>)               // thresholds in layer 0, then the erase-and-advance choice
    | InverseFour                                       // thresholds in layer 0, then the inverse-recording choice
    | BasisPhaseT(options: seq<seq<Gate>>)              // a basis switch, then random Z, S/S-dagger and rare T/T-dagger
    | Fixed(gates: seq<Gate>)                           // the same sequence for every qubit
    | CliffordPhase                                     // `Rand()` thresholds over four Clifford parts, then a phase

  predicate ValidPass(p: Pass)
  {
    match p
    case Pick(o, _) => |o| >= 1
    case Buckets(o) => |o| >= 1
    case ChooseOther(o) => |o| >= 2
    case EraseThree(o) => |o| == 3
    case InverseFour => true
    case BasisPhaseT(o) => |o| >= 1
    case Fixed(_) => true
    case CliffordPhase => true
  }

  /** The passes whose choice depends on the previous layer's. */
  predicate Remembers(p: Pass)
  {
    p.ChooseOther? || p.EraseThree? || p.InverseFour?
  }

  /** The number of distinct records a remembering pass keeps. */
  function RecordBound(p: Pass): nat
  {
    match p
    case ChooseOther(o) => |o|
    case EraseThree(_) => 3
    case InverseFour => 4
    case _ => 1
  }

  /**
   * The previous layer's record of qubit j, if there was a previous layer.
   * Records are always below the pass's bound (see `PassStep`), so the bound
   * test only keeps the definition total.
   */
  function Prev(p: Pass, records: seq<nat>, j: nat): (r: Option<nat>)
    ensures r.Some? ==> r.value < RecordBound(p)
  {
    if j < |records| && records[j] < RecordBound(p) then Some(records[j]) else None
  }

  /** What one pass gives one qubit: its gates and the record it leaves. */
  datatype Step = Step(gates: seq<Gate>, record: nat)

  /**
   * The random phase part of the T-count-limited pass: Z on a random bit, S or
   * its adjoint on another, and T or its adjoint when a uniform draw on
   * [0, (n + 2) * depth) falls below 1.
   */
  function PhaseFlags(src: Source, n: nat, depth: nat, d: nat, j: nat): (g: seq<Gate>)
    ensures |g| <= 3
    ensures forall k | 0 <= k < |g| :: g[k] in {Z, S, Sdg, T, Tdg}
    ensures (T in g || Tdg in g) ==> src.rand(FlagDraw(d, j, 3)) * ((n + 2) * depth) as real < 1.0
  {
    (if Bit(src, FlagDraw(d, j, 0)) then [Z] else []) +
    (if Bit(src, FlagDraw(d, j, 1)) then (if Bit(src, FlagDraw(d, j, 2)) then [S] else [Sdg]) else []) +
    (if src.rand(FlagDraw(d, j, 3)) * ((n + 2) * depth) as real < 1.0
     then (if Bit(src, FlagDraw(d, j, 4)) then [T] else [Tdg]) else [])
  }

  /**
   * The Clifford part of the two-draw pass: H below 1/4, S or its adjoint
   * below 1/2, H then S or S-dagger then H below 3/4, and nothing above.
   */
  function CliffordPart(r: Prob, flip: Prob): (g: seq<Gate>)
    ensures |g| <= 2 && forall k | 0 <= k < |g| :: g[k] in {H, S, Sdg}
    ensures g == [] <==> 4.0 * r >= 3.0
  {
    if 4.0 * r < 1.0 then [H]
    else if 4.0 * r < 2.0 then (if 2.0 * flip < 1.0 then [S] else [Sdg])
    else if 4.0 * r < 3.0 then (if 2.0 * flip < 1.0 then [H, S] else [Sdg, H])
    else []
  }

  /** The choice of a `random.choice` pass that avoids the previous choice after the first layer. */
  function OtherChoice(k: nat, draw: nat, prev: Option<nat>): (c: nat)
    requires 2 <= k && (prev.Some? ==> prev.value < k)
    ensures c < k && (prev.Some? ==> c != prev.value)
  {
    if prev.None? then draw % k else PickOther(k, prev.value, draw)
  }

  /** The choice of the erase-and-advance pass: thresholds in the first layer. */
  function ThreeChoice(r: Prob, prev: Option<nat>): (c: nat)
    requires prev.Some? ==> prev.value < 3
    ensures c < 3 && (prev.Some? ==> c != prev.value)
  {
    if prev.None? then Bucket(r, 3) else EraseThree(prev.value, r)
  }

  /** The choice of the inverse-recording pass: thresholds in the first layer. */
  function FourChoice(r: Prob, prev: Option<nat>): (c: nat)
    requires prev.Some? ==> prev.value < 4
    ensures c < 4 && (prev.Some? ==> c != prev.value)
  {
    if prev.None? then Bucket(r, 4) else InverseFourChoice(prev.value, r)
  }

  /**
   * Pass `pi` of layer d on qubit j, given the qubit's record from the
   * previous layer. A remembering pass leaves a record below its bound.
   */
  function PassStep(p: Pass, src: Source, n: nat, depth: nat, d: nat, pi: nat, j: nat, prev: Option<nat>): (s: Step)
    requires ValidPass(p)
    requires prev.Some? ==> prev.value < RecordBound(p)
    ensures Remembers(p) ==> s.record < RecordBound(p)
  {
    var at := GateDraw(d, pi, j);
    match p
    case Pick(o, suffix) => Step(Choice(o, src.pick(at)) + suffix, 0)
    case Buckets(o) => Step(o[Bucket(src.rand(at), |o|)], 0)
    case ChooseOther(o) =>
      var c := OtherChoice(|o|, src.pick(at), prev);
      Step(o[c], c)
    case EraseThree(o) =>
      var c := ThreeChoice(src.rand(at), prev);
      Step(o[c], c)
    case InverseFour =>
      var c := FourChoice(src.rand(at), prev);
      Step([FourGates[c]], InverseRecord[c])
    case BasisPhaseT(o) => Step(Choice(o, src.pick(at)) + PhaseFlags(src, n, depth, d, j), 0)
    case Fixed(g) => Step(g, 0)
    case CliffordPhase => Step(CliffordPart(src.rand(at), src.rand(FlagDraw(d, j, 0))) + [Phase], 0)
  }

  /**
   * The no-repeat passes apply the gates of the choice they record, and
   * after the first layer that choice differs from the recorded one.
   */
  lemma StepAvoidsRecord(p: Pass, src: Source, n: nat, depth: nat, d: nat, pi: nat, j: nat, prev: Option<nat>)
    requires ValidPass(p) && (p.ChooseOther? || p.EraseThree?)
    requires prev.Some? ==> prev.value < RecordBound(p)
    ensures var s := PassStep(p, src, n, depth, d, pi, j, prev);
      s.gates == p.options[s.record] && (prev.Some? ==> s.record != prev.value)
  {
  }

  /**
   * The inverse-recording pass applies one of the four gates and records
   * the index of its inverse; after the first layer it never applies the
   * gate whose index was recorded.
   */
  lemma StepAvoidsInverse(p: Pass, src: Source, n: nat, depth: nat, d: nat, pi: nat, j: nat, prev: Option<nat>)
    requires p.InverseFour? && (prev.Some? ==> prev.value < 4)
    ensures var s := PassStep(p, src, n, depth, d, pi, j, prev);
      var c := FourChoice(src.rand(GateDraw(d, pi, j)), prev);
      s == Step([FourGates[c]], InverseRecord[c]) &&
      (prev.Some? ==> FourGates[c] != FourGates[prev.value])
  {
  }

  predicate Distinct<E(==)>(s: seq<E>)
  {
    forall i, k | 0 <= i < k < |s| :: s[i] != s[k]
  }

  /**
   * Two layers in a row of a no-repeat pass with distinct options: the
   * second layer's gates differ from the first's.
   */
  lemma StepNoRepeat(p: Pass, src: Source, n: nat, depth: nat, d: nat, pi: nat, j: nat, before: Option<nat>)
    requires ValidPass(p) && (p.ChooseOther? || p.EraseThree?) && Distinct(p.options)
    requires before.Some? ==> before.value < RecordBound(p)
    ensures var s1 := PassStep(p, src, n, depth, d, pi, j, before);
      var s2 := PassStep(p, src, n, depth, d + 1, pi, j, Some(s1.record));
      s1.record < RecordBound(p) && s2.gates != s1.gates
  {
    var s1 := PassStep(p, src, n, depth, d, pi, j, before);
    StepAvoidsRecord(p, src, n, depth, d, pi, j, before);
    StepAvoidsRecord(p, src, n, depth, d + 1, pi, j, Some(s1.record));
  }

  /**
   * Two layers in a row of the inverse-recording pass: the second layer's
   * gate is never the adjoint of the first's.
   */
  lemma StepNeverUndoes(p: Pass, src: Source, n: nat, depth: nat, d: nat, pi: nat, j: nat, before: Option<nat>)
    requires p.InverseFour? && (before.Some? ==> before.value < 4)
    ensures var s1 := PassStep(p, src, n, depth, d, pi, j, before);
      var s2 := PassStep(p, src, n, depth, d + 1, pi, j, Some(s1.record));
      s1.record < 4 && |s1.gates| == 1 && |s2.gates| == 1 && Some(s2.gates[0]) != Adjoint(s1.gates[0])
  {
    StepAvoidsInverse(p, src, n, depth, d, pi, j, before);
    var c := FourChoice(src.rand(GateDraw(d, pi, j)), before);
    InverseRecordIsAdjoint(c);
    StepAvoidsInverse(p, src, n, depth, d + 1, pi, j, Some(InverseRecord[c]));
  }

  /** The gates on qubit q, in order. */
  function OnQubit(gates: seq<Gate>, q: nat): (c: seq<Instr>)
    ensures |c| == |gates|
    ensures forall k | 0 <= k < |c| :: c[k] == One(gates[k], q)
  {
    seq(|gates|, k requires 0 <= k < |gates| => One(gates[k], q))
  }

  /** The instructions of one pass on qubits 0 .. j-1, qubit by qubit. */
  function PassPrefix(p: Pass, src: Source, n: nat, depth: nat, d: nat, pi: nat, records: seq<nat>, j: nat): seq<Instr>
    requires ValidPass(p)
  {
    if j == 0 then []
    else PassPrefix(p, src, n, depth, d, pi, records, j - 1) +
         OnQubit(PassStep(p, src, n, depth, d, pi, j - 1, Prev(p, records, j - 1)).gates, j - 1)
  }

  /** The records one pass leaves for the next layer, one per qubit. */
  function PassRecords(p: Pass, src: Source, n: nat, depth: nat, d: nat, pi: nat, records: seq<nat>): (r: seq<nat>)
    requires ValidPass(p)
    ensures |r| == n
  {
    seq(n, j requires 0 <= j < n => PassStep(p, src, n, depth, d, pi, j, Prev(p, records, j)).record)
  }

  /** Every instruction of a pass is a single-qubit gate on a qubit below j. */
  lemma {:induction false} PassPrefixOnQubits(p: Pass, src: Source, n: nat, depth: nat, d: nat, pi: nat, records: seq<nat>, j: nat)
    requires ValidPass(p)
    ensures forall i | i in PassPrefix(p, src, n, depth, d, pi, records, j) :: i.One? && i.q < j
  {
    if j > 0 {
      PassPrefixOnQubits(p, src, n, depth, d, pi, records, j - 1);
    }
  }

  /** A pass whose choices are all w gates long gives j * w instructions for j qubits. */
  lemma {:induction false} PassPrefixLength(p: Pass, src: Source, n: nat, depth: nat, d: nat, pi: nat, records: seq<nat>, j: nat, w: nat)
    requires ValidPass(p) && (p.ChooseOther? || p.Pick?)
    requires forall k | 0 <= k < |p.options| :: |p.options[k]| + (if p.Pick? then |p.suffix| else 0) == w
    ensures |PassPrefix(p, src, n, depth, d, pi, records, j)| == j * w
  {
    if j > 0 {
      PassPrefixLength(p, src, n, depth, d, pi, records, j - 1, w);
      var s := PassStep(p, src, n, depth, d, pi, j - 1, Prev(p, records, j - 1));
      assert |s.gates| == w;
      assert (j - 1) * w + w == j * w;
    }
  }

  /**
   * A pass choosing one gate per qubit, with nothing appended: the
   * instruction at position q is one of the options, applied to qubit q.
   */
  lemma {:induction false} OneGatePerQubit(p: Pass, src: Source, n: nat, depth: nat, d: nat, records: seq<nat>, j: nat)
    requires p.Pick? && |p.options| >= 1 && p.suffix == []
    requires forall k | 0 <= k < |p.options| :: |p.options[k]| == 1
    ensures var c := PassPrefix(p, src, n, depth, d, 0, records, j);
      |c| == j && forall q | 0 <= q < j :: c[q].One? && c[q].q == q && [c[q].g] in p.options
  {
    if j > 0 {
      OneGatePerQubit(p, src, n, depth, d, records, j - 1);
      var s := PassStep(p, src, n, depth, d, 0, j - 1, Prev(p, records, j - 1));
      var choice := Choice(p.options, src.pick(GateDraw(d, 0, j - 1)));
      assert s.gates == choice + [] == choice;
      assert s.gates == [s.gates[0]];
    }
  }

  /** A pass is made of gates on qubits of the register. */
  lemma PassGatesOnly(p: Pass, src: Source, n: nat, depth: nat, d: nat, pi: nat, records: seq<nat>)
    requires ValidPass(p)
    ensures GatesOnly(PassPrefix(p, src, n, depth, d, pi, records, n), n)
  {
    PassPrefixOnQubits(p, src, n, depth, d, pi, records, n);
    GatesOnlyMembers(PassPrefix(p, src, n, depth, d, pi, records, n), n);
  }

  /** The records of qubits 0 .. j-1 agree with the ones the pass leaves. */
  predicate RecordsUpTo(p: Pass, src: Source, n: nat, depth: nat, d: nat, pi: nat, records: seq<nat>, next: seq<nat>, j: nat)
    requires ValidPass(p)
  {
    |next| == j && forall k | 0 <= k < j :: next[k] == PassStep(p, src, n, depth, d, pi, k, Prev(p, records, k)).record
  }

  /** Qubit j's turn in a pass: its gates go to the circuit, its record to the new list. */
  method PassQubit(p: Pass, src: Source, n: nat, depth: nat, d: nat, pi: nat, records: seq<nat>, j: nat,
                   instrs: seq<Instr>, next: seq<nat>)
    returns (instrs': seq<Instr>, next': seq<nat>)
    requires ValidPass(p)
    requires instrs == PassPrefix(p, src, n, depth, d, pi, records, j)
    requires RecordsUpTo(p, src, n, depth, d, pi, records, next, j)
    ensures instrs' == PassPrefix(p, src, n, depth, d, pi, records, j + 1)
    ensures RecordsUpTo(p, src, n, depth, d, pi, records, next', j + 1)
  {
    var step := PassStep(p, src, n, depth, d, pi, j, Prev(p, records, j));
    instrs' := instrs + OnQubit(step.gates, j);
    next' := next + [step.record];
  }

  /**
   * One pass over qubits 0 .. n-1: each qubit's gates are appended to the
   * circuit and its record to the new record list, which replaces the old one
   * after the pass.
   */
  method RunPass(p: Pass, src: Source, n: nat, depth: nat, d: nat, pi: nat, records: seq<nat>)
    returns (instrs: seq<Instr>, next: seq<nat>)
    requires ValidPass(p)
    ensures instrs == PassPrefix(p, src, n, depth, d, pi, records, n)
    ensures next == PassRecords(p, src, n, depth, d, pi, records)
  {
    instrs := [];
    next := [];
    var j := 0;
    while j < n
      invariant j <= n
      invariant instrs == PassPrefix(p, src, n, depth, d, pi, records, j)
      invariant RecordsUpTo(p, src, n, depth, d, pi, records, next, j)
    {
      instrs, next := PassQubit(p, src, n, depth, d, pi, records, j, instrs, next);
      j := j + 1;
    }
  }
}
