/**
 * The quantum Fourier transform generators: the recursive Quil program of
 * pyquil_qft.py, the nested loops of cirq_qft.py, the one-qubit
 * classically-controlled circuit of qiskit_qft_single_qubit.py, and the
 * measure-and-correct loop that the pyqrack, cosmology and qcgpu scripts run
 * against a one-qubit simulator.
 */
module Qft {
  import opened Gates
  import opened Singles
  import opened Pools
  import opened Basis

  // ---------------------------------------------------------------------
  // Counting instructions

  /** How many instructions of c satisfy p. */
  function Count(c: seq<Instr>, p: Instr -> bool): nat
  {
    if c == [] then 0 else Count(c[..|c| - 1], p) + (if p(c[|c| - 1]) then 1 else 0)
  }

  lemma {:induction false} CountAppend(a: seq<Instr>, b: seq<Instr>, p: Instr -> bool)
    ensures Count(a + b, p) == Count(a, p) + Count(b, p)
  {
    if b != [] {
      var init := b[..|b| - 1];
      CountAppend(a, init, p);
      assert (a + b)[..|a + b| - 1] == a + init;
      assert (a + b)[|a + b| - 1] == b[|b| - 1];
    } else {
      assert a + b == a;
    }
  }

  /** Counting a predicate that every instruction satisfies gives the length; one that none satisfies, 0. */
  lemma {:induction false} CountUniform(c: seq<Instr>, p: Instr -> bool)
    ensures (forall i | i in c :: p(i)) ==> Count(c, p) == |c|
    ensures (forall i | i in c :: !p(i)) ==> Count(c, p) == 0
  {
    if c != [] {
      var init := c[..|c| - 1];
      assert forall i | i in init :: i in c;
      CountUniform(init, p);
    }
  }

  predicate IsH(i: Instr) { i.One? && i.g == H }
  predicate IsPhasePair(i: Instr) { i.Two? }
  predicate IsMeasure(i: Instr) { i.Measure? }
  predicate IsConditioned(i: Instr) { i.IfBit? }

  /** 0 + 1 + ... + m. */
  function Tri(m: nat): nat
  {
    if m == 0 then 0 else Tri(m - 1) + m
  }

  lemma {:induction false} TriFormula(m: nat)
    ensures 2 * Tri(m) == m * (m + 1)
  {
    if m > 0 {
      TriFormula(m - 1);
      assert (m - 1) * m + 2 * m == m * (m + 1);
    }
  }

  lemma {:induction false} TriMono(a: nat, b: nat)
    requires a <= b
    ensures Tri(a) <= Tri(b)
  {
    if a < b {
      TriMono(a, b - 1);
    }
  }

  // ---------------------------------------------------------------------
  // The textbook transform

  /** How a script writes the controlled phase by pi / 2^k. */
  datatype PhaseStyle =
    | QuilCPhase(coeff: int)  // `CPHASE(coeff * pi / 2**k, control, target)`
    | CirqCZPow               // `CZPowGate(exponent = pi / 2**k)`

  function PhaseOf(style: PhaseStyle, k: nat): Gate
  {
    match style
    case QuilCPhase(coeff) => CPhasePi(coeff, k)
    case CirqCZPow => CZPowPi(k)
  }

  /** The phases between labels[j] and each earlier label k, k ascending, each by pi / 2^(j - k). */
  function PhaseRow(style: PhaseStyle, labels: seq<nat>, j: nat): seq<Instr>
    requires j < |labels|
  {
    seq(j, k requires 0 <= k < j => Two(PhaseOf(style, j - k), labels[j], labels[k]))
  }

  /**
   * The transform on the listed qubits: for each qubit in list order, its
   * phases with all earlier qubits and then a Hadamard on it.
   */
  function Fourier(style: PhaseStyle, labels: seq<nat>): seq<Instr>
  {
    if labels == [] then []
    else
      var j := |labels| - 1;
      Fourier(style, labels[..j]) + PhaseRow(style, labels, j) + [One(H, labels[j])]
  }

  lemma {:induction false} FourierLength(style: PhaseStyle, labels: seq<nat>)
    ensures |Fourier(style, labels)| == Tri(|labels|)
  {
    if labels != [] {
      FourierLength(style, labels[..|labels| - 1]);
    }
  }

  /**
   * The layout of the transform: the block of label j starts at Tri(j); it
   * holds the phases with labels 0 .. j-1 in that order, then the Hadamard.
   */
  lemma {:induction false} FourierAt(style: PhaseStyle, labels: seq<nat>, j: nat, k: nat)
    requires k <= j < |labels|
    ensures |Fourier(style, labels)| == Tri(|labels|) && Tri(j) + k < Tri(|labels|)
    ensures Fourier(style, labels)[Tri(j) + k] ==
      if k < j then Two(PhaseOf(style, j - k), labels[j], labels[k]) else One(H, labels[j])
  {
    FourierLength(style, labels);
    var last := |labels| - 1;
    var init := labels[..last];
    FourierLength(style, init);
    TriMono(j + 1, |labels|);
    var f0 := Fourier(style, init);
    var row := PhaseRow(style, labels, last);
    var f := f0 + row + [One(H, labels[last])];
    assert Fourier(style, labels) == f;
    var i := Tri(j) + k;
    if j < last {
      FourierAt(style, init, j, k);
      TriMono(j + 1, last);
      assert init[j] == labels[j] && init[k] == labels[k];
      assert f[i] == f0[i];
    } else if k < j {
      assert f[i] == row[k];
    } else {
      assert i == |f| - 1;
    }
  }

  /** The transform on n labels has n Hadamards and n(n-1)/2 controlled phases, and nothing else. */
  lemma {:induction false} FourierCounts(style: PhaseStyle, labels: seq<nat>)
    ensures var f, n := Fourier(style, labels), |labels|;
      Count(f, IsH) == n && 2 * Count(f, IsPhasePair) == n * (n - 1) && |f| == n + Count(f, IsPhasePair)
  {
    var n := |labels|;
    if n > 0 {
      var j := n - 1;
      var init := labels[..j];
      var f0 := Fourier(style, init);
      var row := PhaseRow(style, labels, j);
      var hj := [One(H, labels[j])];
      assert Fourier(style, labels) == f0 + row + hj;
      FourierCounts(style, init);
      BlockCounts(f0, row, hj);
      PairsStep(j);
    }
  }

  lemma PairsStep(j: nat)
    ensures j * (j - 1) + 2 * j == (j + 1) * j
  {
  }

  /** Counting over one more block of phases and its Hadamard. */
  lemma BlockCounts(f0: seq<Instr>, row: seq<Instr>, hj: seq<Instr>)
    requires forall i | i in row :: i.Two?
    requires |hj| == 1 && hj[0].One? && hj[0].g == H
    ensures Count(f0 + row + hj, IsH) == Count(f0, IsH) + 1
    ensures Count(f0 + row + hj, IsPhasePair) == Count(f0, IsPhasePair) + |row|
  {
    CountAppend(f0, row, IsH);
    CountAppend(f0 + row, hj, IsH);
    CountAppend(f0, row, IsPhasePair);
    CountAppend(f0 + row, hj, IsPhasePair);
    CountUniform(row, IsH);
    CountUniform(row, IsPhasePair);
    CountUniform(hj, IsH);
    CountUniform(hj, IsPhasePair);
  }

  /** On distinct labels below n, the transform is made of gates on distinct qubits below n. */
  lemma {:induction false} FourierGates(style: PhaseStyle, labels: seq<nat>, n: nat)
    requires Distinct(labels) && forall l | l in labels :: l < n
    ensures AllGates(Fourier(style, labels), n)
  {
    if labels != [] {
      var j := |labels| - 1;
      var init := labels[..j];
      assert forall l | l in init :: l in labels;
      FourierGates(style, init, n);
      var row := PhaseRow(style, labels, j);
      forall i | i in row ensures IsGate(i, n) {
        var k :| 0 <= k < j && row[k] == i;
        assert labels[k] in labels && labels[j] in labels;
      }
      assert labels[j] in labels;
      GatesBoth(Fourier(style, init), row, n);
      GatesBoth(Fourier(style, init) + row, [One(H, labels[j])], n);
    }
  }

  // ---------------------------------------------------------------------
  // cirq_qft.py

  /** The inner loop of `qft`: `cirq.CZ(reg[j], reg[k]) ** (1 / 2^(j - k))` for k = 0 .. j - 1, appended in order. */
  method AppendPhases(circ: seq<Instr>, labels: seq<nat>, j: nat) returns (next: seq<Instr>)
    requires j < |labels|
    ensures next == circ + PhaseRow(CirqCZPow, labels, j)
  {
    ghost var row := PhaseRow(CirqCZPow, labels, j);
    next := circ;
    var k := 0;
    while k < j
      invariant k <= j && next == circ + row[..k]
    {
      assert row[k] == Two(PhaseOf(CirqCZPow, j - k), labels[j], labels[k]);
      assert row[..k + 1] == row[..k] + [row[k]];
      next := next + [Two(CZPowPi(j - k), labels[j], labels[k])];
      k := k + 1;
    }
    assert row[..j] == row;
  }

  /** `qft(num_qubits, reg)` on `LineQubit.range(num_qubits)`: the nested loops, then a measurement per qubit. */
  method CirqQft(n: nat) returns (circ: seq<Instr>)
    ensures circ == Fourier(CirqCZPow, Range(n)) + MeasureEach(n)
    ensures var f := Fourier(CirqCZPow, Range(n));
      |f| == Tri(n) && Count(f, IsH) == n && 2 * Count(f, IsPhasePair) == n * (n - 1) &&
      AllGates(f, n)
  {
    var reg := Range(n);
    circ := [];
    var j := 0;
    while j < n
      invariant j <= n && circ == Fourier(CirqCZPow, reg[..j])
    {
      circ := AppendPhases(circ, reg[..j + 1], j);
      assert reg[..j + 1][..j] == reg[..j];
      circ := circ + [One(H, reg[j])];
      j := j + 1;
    }
    assert reg[..n] == reg;
    var f := circ;
    j := 0;
    while j < n
      invariant j <= n && circ == f + MeasureEach(j)
    {
      circ := circ + [Measure(j, j)];
      j := j + 1;
    }
    FourierLength(CirqCZPow, reg);
    FourierCounts(CirqCZPow, reg);
    RangeMembers(n);
    FourierGates(CirqCZPow, reg, n);
  }

  // ---------------------------------------------------------------------
  // pyquil_qft.py

  /** `cR` before reversal: the phase of qubits[0] with qs[idx] by coeff * pi / 2^(idx + 1). */
  function PhaseList(q: nat, qs: seq<nat>, coeff: int): seq<Instr>
  {
    seq(|qs|, idx requires 0 <= idx < |qs| => Two(CPhasePi(coeff, idx + 1), q, qs[idx]))
  }

  /** The `cR` loop: `enumerate(range(n - 1, 0, -1))`, whose angle exponent `n - i` is idx + 1. */
  method ControlledPhases(q: nat, qs: seq<nat>, coeff: int) returns (cR: seq<Instr>)
    ensures cR == PhaseList(q, qs, coeff)
  {
    var n := 1 + |qs|;
    cR := [];
    var idx := 0;
    while idx < n - 1
      invariant idx <= n - 1 && cR == PhaseList(q, qs[..idx], coeff)
    {
      var i := n - 1 - idx;
      cR := cR + [Two(CPhasePi(coeff, n - i), q, qs[idx])];
      idx := idx + 1;
    }
    assert qs[..n - 1] == qs;
  }

  /**
   * `_core_qft(qubits, coeff)`: the transform of the tail, then the phases
   * of the head with the tail in reverse order, then a Hadamard on the head.
   * `qubits[0]` fails on an empty list.
   */
  function CoreQft(qubits: seq<nat>, coeff: int): seq<Instr>
    requires |qubits| >= 1
    decreases |qubits|
  {
    var q, qs := qubits[0], qubits[1..];
    if |qubits| == 1 then [One(H, q)]
    else CoreQft(qs, coeff) + Reverse(PhaseList(q, qs, coeff)) + [One(H, q)]
  }

  /**
   * The recursive program is the loop-form transform on the qubits taken
   * last to first: the head is transformed last, after its phases with every
   * other qubit.
   */
  lemma {:induction false} CoreQftIsFourier(qubits: seq<nat>, coeff: int)
    requires |qubits| >= 1
    ensures CoreQft(qubits, coeff) == Fourier(QuilCPhase(coeff), Reverse(qubits))
  {
    var style := QuilCPhase(coeff);
    var r := Reverse(qubits);
    var last := |qubits| - 1;
    if |qubits| == 1 {
      assert r[..0] == [];
      assert PhaseRow(style, r, 0) == [];
    } else {
      var qs := qubits[1..];
      CoreQftIsFourier(qs, coeff);
      assert r[..last] == Reverse(qs);
      HeadPhases(qubits, r, coeff);
      var row := PhaseRow(style, r, last);
      var rev := Reverse(PhaseList(qubits[0], qs, coeff));
      assert row == rev;
      assert r[last] == qubits[0];
    }
  }

  /** Row `last` of the loop-form transform on the reversed qubits holds the head's phases, last one first. */
  lemma HeadPhases(qubits: seq<nat>, r: seq<nat>, coeff: int)
    requires |qubits| >= 2 && |r| == |qubits|
    requires forall k | 0 <= k < |r| :: r[k] == qubits[|r| - 1 - k]
    ensures var last := |qubits| - 1;
      forall k | 0 <= k < last ::
        PhaseRow(QuilCPhase(coeff), r, last)[k] == PhaseList(qubits[0], qubits[1..], coeff)[last - 1 - k]
  {
    var style := QuilCPhase(coeff);
    var last := |qubits| - 1;
    var qs := qubits[1..];
    forall k | 0 <= k < last
      ensures PhaseRow(style, r, last)[k] == PhaseList(qubits[0], qs, coeff)[last - 1 - k]
    {
      var i := last - 1 - k;
      RowAt(style, r, last, k);
      assert r[k] == qubits[last - k] && r[last] == qubits[0];
      assert qs[i] == qubits[last - k];
    }
  }

  lemma RowAt(style: PhaseStyle, labels: seq<nat>, j: nat, k: nat)
    requires k < j < |labels|
    ensures PhaseRow(style, labels, j)[k] == Two(PhaseOf(style, j - k), labels[j], labels[k])
  {
  }

  /**
   * What `_core_qft` promises: a single qubit gives one Hadamard; k qubits
   * give k Hadamards and k(k-1)/2 controlled phases; the phase between the
   * head and qubits[idx + 1] is by coeff * pi / 2^(idx + 1); and the
   * Hadamard on the head comes last.
   */
  lemma CoreQftShape(qubits: seq<nat>, coeff: int)
    requires |qubits| >= 1
    ensures |qubits| == 1 ==> CoreQft(qubits, coeff) == [One(H, qubits[0])]
    ensures var c, k := CoreQft(qubits, coeff), |qubits|;
      Count(c, IsH) == k && 2 * Count(c, IsPhasePair) == k * (k - 1) &&
      |c| == k + Count(c, IsPhasePair) && c[|c| - 1] == One(H, qubits[0])
    ensures forall idx | 1 <= idx < |qubits| ::
      Two(CPhasePi(coeff, idx), qubits[0], qubits[idx]) in CoreQft(qubits, coeff)
  {
    CoreQftCounts(qubits, coeff);
    CoreQftPhases(qubits, coeff);
  }

  lemma CoreQftCounts(qubits: seq<nat>, coeff: int)
    requires |qubits| >= 1
    ensures var c, k := CoreQft(qubits, coeff), |qubits|;
      Count(c, IsH) == k && 2 * Count(c, IsPhasePair) == k * (k - 1) &&
      |c| == k + Count(c, IsPhasePair) && c[|c| - 1] == One(H, qubits[0])
  {
    var style := QuilCPhase(coeff);
    var r := Reverse(qubits);
    var last := |qubits| - 1;
    CoreQftIsFourier(qubits, coeff);
    FourierCounts(style, r);
    FourierAt(style, r, last, last);
    assert Tri(last) + last == Tri(|qubits|) - 1;
  }

  lemma CoreQftPhases(qubits: seq<nat>, coeff: int)
    requires |qubits| >= 1
    ensures forall idx | 1 <= idx < |qubits| ::
      Two(CPhasePi(coeff, idx), qubits[0], qubits[idx]) in CoreQft(qubits, coeff)
  {
    var style := QuilCPhase(coeff);
    var r := Reverse(qubits);
    var last := |qubits| - 1;
    CoreQftIsFourier(qubits, coeff);
    forall idx | 1 <= idx < |qubits|
      ensures Two(CPhasePi(coeff, idx), qubits[0], qubits[idx]) in CoreQft(qubits, coeff)
    {
      var k := last - idx;
      FourierAt(style, r, last, k);
    }
  }

  // ---------------------------------------------------------------------
  // qiskit_qft_single_qubit.py

  /** The phases of step i: one per earlier classical bit j, by 1 / 2^(1 + i - j), applied if bit j is 1. */
  function Conditioned(i: nat): seq<Instr>
  {
    seq(i, j requires 0 <= j < i => IfBit(PhaseHalfPow(1 + i - j), 0, j))
  }

  /** Step i on qubit 0: a random U, the conditioned phases, H, measurement into bit i, reset. */
  function SemiStep(i: nat): seq<Instr>
  {
    [One(U, 0)] + Conditioned(i) + [One(H, 0), Measure(0, i), Reset(0)]
  }

  function SemiClassical(m: nat): seq<Instr>
  {
    if m == 0 then [] else SemiClassical(m - 1) + SemiStep(m - 1)
  }

  /** The classical bits written by the measurements of c, in order. */
  function MeasuredBits(c: seq<Instr>): seq<nat>
  {
    if c == [] then []
    else MeasuredBits(c[..|c| - 1]) + (if c[|c| - 1].Measure? then [c[|c| - 1].bit] else [])
  }

  lemma {:induction false} MeasuredBitsAppend(a: seq<Instr>, b: seq<Instr>)
    ensures MeasuredBits(a + b) == MeasuredBits(a) + MeasuredBits(b)
  {
    if b != [] {
      var init := b[..|b| - 1];
      MeasuredBitsAppend(a, init);
      assert (a + b)[..|a + b| - 1] == a + init;
      assert (a + b)[|a + b| - 1] == b[|b| - 1];
    } else {
      assert a + b == a;
    }
  }

  lemma MeasuredBitsOne(x: Instr)
    ensures MeasuredBits([x]) == if x.Measure? then [x.bit] else []
  {
    assert [x][..0] == [];
  }

  lemma StepMeasures(i: nat)
    ensures MeasuredBits(SemiStep(i)) == [i]
    ensures Count(SemiStep(i), IsConditioned) == i
  {
    var s := SemiStep(i);
    var cond := Conditioned(i);
    MeasuredBitsAppend([One(U, 0)] + cond, [One(H, 0), Measure(0, i), Reset(0)]);
    MeasuredBitsAppend([One(U, 0)], cond);
    NoMeasuredBits(cond);
    assert MeasuredBits([One(H, 0), Measure(0, i), Reset(0)]) == [i] by {
      assert [One(H, 0), Measure(0, i), Reset(0)] == [One(H, 0)] + [Measure(0, i)] + [Reset(0)];
      MeasuredBitsAppend([One(H, 0)] + [Measure(0, i)], [Reset(0)]);
      MeasuredBitsAppend([One(H, 0)], [Measure(0, i)]);
      MeasuredBitsOne(One(H, 0));
      MeasuredBitsOne(Measure(0, i));
      MeasuredBitsOne(Reset(0));
    }
    CountAppend([One(U, 0)] + cond, [One(H, 0), Measure(0, i), Reset(0)], IsConditioned);
    CountAppend([One(U, 0)], cond, IsConditioned);
    CountUniform(cond, IsConditioned);
    CountUniform([One(U, 0)], IsConditioned);
    CountUniform([One(H, 0), Measure(0, i), Reset(0)], IsConditioned);
  }

  lemma {:induction false} NoMeasuredBits(c: seq<Instr>)
    requires forall i | i in c :: !i.Measure?
    ensures MeasuredBits(c) == []
  {
    if c != [] {
      var init := c[..|c| - 1];
      assert forall i | i in init :: i in c;
      NoMeasuredBits(init);
    }
  }

  /**
   * The one-qubit circuit: every classical bit 0 .. n-1 is written once, in
   * order; step i has i conditioned phases, n(n-1)/2 in all; and all
   * instructions act on qubit 0 only.
   */
  lemma {:induction false} SemiClassicalShape(n: nat)
    ensures var c := SemiClassical(n);
      MeasuredBits(c) == Range(n) && 2 * Count(c, IsConditioned) == n * (n - 1) && AllWellFormed(c, 1)
  {
    if n > 0 {
      var j := n - 1;
      SemiClassicalShape(j);
      StepMeasures(j);
      MeasuredBitsAppend(SemiClassical(j), SemiStep(j));
      CountAppend(SemiClassical(j), SemiStep(j), IsConditioned);
      PairsStep(j);
      StepWellFormed(j);
      assert forall i | i in SemiClassical(n) :: i in SemiClassical(j) || i in SemiStep(j);
    }
  }

  lemma StepWellFormed(i: nat)
    ensures AllWellFormed(SemiStep(i), 1)
  {
    var s := SemiStep(i);
    forall x | x in s ensures WellFormed(x, 1) {
    }
  }

  /** Each conditioned phase reads a classical bit that an earlier measurement wrote. */
  lemma {:induction false} SemiClassicalReadsWritten(n: nat, p: nat)
    requires p < |SemiClassical(n)| && SemiClassical(n)[p].IfBit?
    ensures var c := SemiClassical(n); c[p].bit < n && Measure(0, c[p].bit) in c[..p]
  {
    var j := n - 1;
    var c, prev := SemiClassical(n), SemiClassical(j);
    if p < |prev| {
      SemiClassicalReadsWritten(j, p);
      assert c[..p] == prev[..p];
    } else {
      var s := SemiStep(j);
      var b := c[p].bit;
      assert s[p - |prev|] == c[p];
      assert b < j;
      SemiClassicalStepAt(b);
      SemiClassicalPrefix(b + 1, j);
      var w := |SemiClassical(b + 1)|;
      assert c[..p][w - 2] == c[w - 2];
    }
  }

  lemma SemiClassicalStepAt(b: nat)
    ensures var c := SemiClassical(b + 1); |c| >= 2 && c[|c| - 2] == Measure(0, b)
  {
  }

  /** SemiClassical(a) is the start of SemiClassical(b) when a <= b. */
  lemma {:induction false} SemiClassicalPrefix(a: nat, b: nat)
    requires a <= b
    ensures |SemiClassical(a)| <= |SemiClassical(b)| && SemiClassical(b)[..|SemiClassical(a)|] == SemiClassical(a)
  {
    if a < b {
      var j := b - 1;
      SemiClassicalPrefix(a, j);
      var pa, pj := SemiClassical(a), SemiClassical(j);
      assert SemiClassical(b)[..|pj|] == pj;
      assert SemiClassical(b)[..|pa|] == pj[..|pa|];
    }
  }

  /** `qft(num_qubits, circ)` on `QuantumCircuit(1, num_qubits)`. */
  method QiskitQftSingleQubit(n: nat) returns (circ: seq<Instr>)
    ensures circ == SemiClassical(n)
    ensures MeasuredBits(circ) == Range(n) && 2 * Count(circ, IsConditioned) == n * (n - 1)
    ensures AllWellFormed(circ, 1)
  {
    circ := [];
    var i := 0;
    while i < n
      invariant i <= n && circ == SemiClassical(i)
    {
      circ := circ + [One(U, 0)];
      ghost var before := circ;
      var j := 0;
      while j < i
        invariant j <= i && circ == before + Conditioned(i)[..j]
      {
        assert Conditioned(i)[..j + 1] == Conditioned(i)[..j] + [IfBit(PhaseHalfPow(1 + i - j), 0, j)];
        circ := circ + [IfBit(PhaseHalfPow(1 + i - j), 0, j)];
        j := j + 1;
      }
      assert Conditioned(i)[..i] == Conditioned(i);
      circ := circ + [One(H, 0)];
      circ := circ + [Measure(0, i)];
      circ := circ + [Reset(0)];
      i := i + 1;
    }
    SemiClassicalShape(n);
  }

  // ---------------------------------------------------------------------
  // The measure-and-correct loop on a one-qubit simulator

  /** `phase_root_n` as written in the pyqrack scripts: `-1**x` is `-(1**x)`, which is -1 for every n. */
  function PhaseRootAsWritten(n: nat): PhaseEntry
  {
    MinusOne
  }

  /** The intended `phase_root_n`: diag(1, (-1)^(1 / 2^(n-1))). */
  function PhaseRoot(n: nat): (e: PhaseEntry)
    requires n >= 1
    ensures e.RootOfMinusOne? && e.k == n - 1
  {
    RootOfMinusOne(n - 1)
  }

  /** The written matrix is the same for every n, and for n = 2 it is -1 where (-1)^(1/2) is meant. */
  lemma PhaseRootAsWrittenConstant(a: nat, b: nat)
    ensures PhaseRootAsWritten(a) == PhaseRootAsWritten(b)
    ensures PhaseRootAsWritten(2) != PhaseRoot(2)
  {
  }

  /** The intended corrections are different matrices for different root indices. */
  lemma PhaseRootDistinct(a: nat, b: nat)
    requires a >= 1 && b >= 1
    ensures PhaseRoot(a) == PhaseRoot(b) <==> a == b
  {
  }

  /** Which simulator script runs the loop. */
  datatype Backend =
    | Pyqrack           // pyqrack_qft_single_qubit.py and pyqrack_test_qft_cosmology.py, with the intended root
    | PyqrackAsWritten  // the same scripts as written, with `-1**x`
    | Qcgpu             // qcgpu_qft_single_qubit.py, whose `phase_root_n` ignores n

  function RootEntry(backend: Backend, n: nat): PhaseEntry
    requires n >= 1
  {
    match backend
    case Pyqrack => PhaseRoot(n)
    case PyqrackAsWritten => PhaseRootAsWritten(n)
    case Qcgpu => EighthRoot
  }

  /** The corrections of step i for the earlier results j < count, in order. */
  function Corrections(backend: Backend, m: seq<bool>, i: nat, count: nat): seq<Instr>
    requires count <= i <= |m|
  {
    if count == 0 then []
    else
      var j := count - 1;
      Corrections(backend, m, i, j) + (if m[j] then [One(DiagPhase(RootEntry(backend, (i - j) + 1)), 0)] else [])
  }

  /** Step i: random U, the corrections, H, measurement i, and an X when it gave 1. */
  function CorrectStep(backend: Backend, m: seq<bool>, i: nat): seq<Instr>
    requires i < |m|
  {
    [One(U, 0)] + Corrections(backend, m, i, i) + [One(H, 0), Measure(0, i)] + (if m[i] then [One(X, 0)] else [])
  }

  /**
   * What bench does before its loop: the pyqrack scripts call `reset_all`,
   * while the qcgpu script builds a fresh `qcgpu.State(1)` and applies nothing.
   */
  function Opening(backend: Backend): seq<Instr>
  {
    if backend.Qcgpu? then [] else [ResetAll]
  }

  /** The opening, then steps 0 .. k-1 with the measured results m. */
  function CorrectRun(backend: Backend, m: seq<bool>, k: nat): seq<Instr>
    requires k <= |m|
  {
    if k == 0 then Opening(backend) else CorrectRun(backend, m, k - 1) + CorrectStep(backend, m, k - 1)
  }

  function Ones(m: seq<bool>): nat
  {
    if m == [] then 0 else Ones(m[..|m| - 1]) + (if m[|m| - 1] then 1 else 0)
  }

  /**
   * Step i applies one correction per earlier result that was 1, each on
   * qubit 0; in the pyqrack scripts the root index (i - j) + 1 is at least 2.
   */
  lemma {:induction false} CorrectionsShape(backend: Backend, m: seq<bool>, i: nat, count: nat)
    requires count <= i <= |m|
    ensures var cs := Corrections(backend, m, i, count);
      |cs| == Ones(m[..count]) &&
      forall x | x in cs :: x.One? && x.q == 0 && x.g.DiagPhase? &&
        (backend == Pyqrack ==> x.g.entry.RootOfMinusOne? && 1 <= x.g.entry.k <= i)
  {
    if count > 0 {
      var j := count - 1;
      CorrectionsShape(backend, m, i, j);
      assert m[..count][..j] == m[..j];
    }
  }

  /**
   * As written, every correction of a pyqrack step is the same diag(1, -1),
   * in the places where the intended loop applies roots (-1)^(1/2^k) with
   * k >= 1, none of which is -1.
   */
  lemma {:induction false} CorrectionsAsWritten(m: seq<bool>, i: nat, count: nat)
    requires count <= i <= |m|
    ensures var w, c := Corrections(PyqrackAsWritten, m, i, count), Corrections(Pyqrack, m, i, count);
      |w| == |c| &&
      forall p | 0 <= p < |w| ::
        w[p] == One(DiagPhase(MinusOne), 0) &&
        c[p].One? && c[p].q == 0 && c[p].g.DiagPhase? && c[p].g.entry.RootOfMinusOne? && c[p].g.entry.k >= 1
  {
    if count > 0 {
      var j := count - 1;
      CorrectionsAsWritten(m, i, j);
    }
  }

  /** Results recorded after step i do not change the operations of steps up to i. */
  lemma {:induction false} CorrectionsExtend(backend: Backend, m: seq<bool>, t: seq<bool>, i: nat, count: nat)
    requires count <= i <= |m|
    ensures Corrections(backend, m + t, i, count) == Corrections(backend, m, i, count)
  {
    if count > 0 {
      CorrectionsExtend(backend, m, t, i, count - 1);
    }
  }

  lemma {:induction false} CorrectRunExtend(backend: Backend, m: seq<bool>, t: seq<bool>, k: nat)
    requires k <= |m|
    ensures CorrectRun(backend, m + t, k) == CorrectRun(backend, m, k)
  {
    if k > 0 {
      var j := k - 1;
      CorrectRunExtend(backend, m, t, j);
      CorrectionsExtend(backend, m, t, j, j);
    }
  }

  /** One more step, once its result b is known. */
  lemma CorrectRunSnoc(backend: Backend, m: seq<bool>, b: bool)
    ensures var k := |m|;
      CorrectRun(backend, m + [b], k + 1) ==
      CorrectRun(backend, m, k) + [One(U, 0)] + Corrections(backend, m, k, k) + [One(H, 0), Measure(0, k)] + (if b then [One(X, 0)] else [])
  {
    var k := |m|;
    CorrectRunExtend(backend, m, [b], k);
    CorrectionsExtend(backend, m, [b], k, k);
  }

  /** The inner loop: `phase_root_n(sim, (m_count - j) + 1, 0)` for each earlier result that was 1. */
  method ApplyCorrections(backend: Backend, m: seq<bool>) returns (cs: seq<Instr>)
    ensures cs == Corrections(backend, m, |m|, |m|)
  {
    var mCount := |m|;
    cs := [];
    var j := 0;
    while j < mCount
      invariant j <= mCount && cs == Corrections(backend, m, mCount, j)
    {
      if m[j] {
        cs := cs + [One(DiagPhase(RootEntry(backend, (mCount - j) + 1)), 0)];
      }
      j := j + 1;
    }
  }

  /**
   * The loop of `bench(sim, num_qubits)`; the simulator's measurement results
   * are the parameter `outcome`. It returns `m_results` and the operations
   * applied to the simulator.
   */
  method MeasureAndCorrect(backend: Backend, numQubits: nat, outcome: nat -> bool) returns (m: seq<bool>, ops: seq<Instr>)
    ensures |m| == numQubits && forall i | 0 <= i < numQubits :: m[i] == outcome(i)
    ensures ops == CorrectRun(backend, m, numQubits)
  {
    ops := Opening(backend);
    m := [];
    var step := 0;
    while step < numQubits
      invariant step <= numQubits && |m| == step
      invariant forall i | 0 <= i < step :: m[i] == outcome(i)
      invariant ops == CorrectRun(backend, m, step)
    {
      var cs := ApplyCorrections(backend, m);
      var result := outcome(step);
      ops := ops + [One(U, 0)] + cs + [One(H, 0), Measure(0, step)];
      if result {
        ops := ops + [One(X, 0)];
      }
      CorrectRunSnoc(backend, m, result);
      m := m + [result];
      step := step + 1;
    }
  }

  /** The instructions of one step are gates and a measurement on qubit 0; the only measurement is of result i. */
  lemma StepLayout(backend: Backend, m: seq<bool>, i: nat)
    requires i < |m|
    ensures var s, cs := CorrectStep(backend, m, i), Corrections(backend, m, i, i);
      s[0] == One(U, 0) && s[|cs| + 2] == Measure(0, i) &&
      (forall p | 0 <= p < |s| && p != |cs| + 2 :: !s[p].Measure?) &&
      (|cs| + 3 < |s| <==> m[i]) && (m[i] ==> s[|cs| + 3] == One(X, 0))
  {
    CorrectionsShape(backend, m, i, i);
    var cs := Corrections(backend, m, i, i);
    var s := CorrectStep(backend, m, i);
    forall p | 0 <= p < |s| && p != |cs| + 2 ensures !s[p].Measure? {
      if 1 <= p <= |cs| {
        assert s[p] == cs[p - 1];
        assert cs[p - 1] in cs;
      }
    }
  }

  /**
   * Every measurement records result `bit`, and the instruction right after
   * it is an X exactly when that result was 1: a qubit measured as 1 is
   * flipped back to 0 before the next step.
   */
  lemma {:induction false} ResetAfterOne(backend: Backend, m: seq<bool>, k: nat, p: nat)
    requires k <= |m| && p < |CorrectRun(backend, m, k)| && CorrectRun(backend, m, k)[p].Measure?
    ensures var c := CorrectRun(backend, m, k);
      c[p].bit < k && ((p + 1 < |c| && c[p + 1] == One(X, 0)) <==> m[c[p].bit])
  {
    var j := k - 1;
    var prev, s := CorrectRun(backend, m, j), CorrectStep(backend, m, j);
    var c := CorrectRun(backend, m, k);
    assert c == prev + s;
    StepLayout(backend, m, j);
    if p < |prev| {
      ResetAfterOne(backend, m, j, p);
      if p + 1 == |prev| {
        assert c[p + 1] == s[0];
      }
    } else {
      assert c[p] == s[p - |prev|];
    }
  }

  /**
   * pyqrack_test_qft_cosmology.py: the measure-and-correct loop, then the
   * results packed with `mi |= 1 << i`. Bit i of the recorded measurement is
   * the i-th result. `asWritten` picks the script's `-1**x` corrections
   * over the intended roots.
   */
  method CosmologyBench(asWritten: bool, numQubits: nat, outcome: nat -> bool) returns (m: seq<bool>, ops: seq<Instr>, mi: nat)
    ensures |m| == numQubits
    ensures ops == CorrectRun(if asWritten then PyqrackAsWritten else Pyqrack, m, numQubits)
    ensures mi < Pow2(numQubits)
    ensures forall i | 0 <= i < numQubits :: BitSet(mi, i) <==> outcome(i)
  {
    var backend := if asWritten then PyqrackAsWritten else Pyqrack;
    m, ops := MeasureAndCorrect(backend, numQubits, outcome);
    mi := PackResults(m);
    forall i | 0 <= i < numQubits ensures BitSet(mi, i) <==> outcome(i) {
      BitsAt(mi, numQubits, i);
    }
  }
}
