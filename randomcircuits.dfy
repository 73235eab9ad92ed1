/**
 * The random universal circuits. Each layer gives every qubit its
 * single-qubit gates, then draws operands for multi-qubit gates from a pool
 * of the layer's unused qubits, two or three per round, until at most one
 * (or, for the Toffoli-only rule, two) remain.
 */
module RandomCircuits {
  import opened Gates
  import opened Singles
  import opened Pools

  // ---------------------------------------------------------------------
  // One round of the grouping loop

  /** How a round turns its draws into a gate. */
  datatype GroupRule =
    | MaxGates                                     // Swap, CZ, CNOT or (while a qubit remains) CCNOT by `maxGates * Rand()`
    | Nested                                       // a two- or three-qubit branch, then nested `Rand()` thresholds, identity included
    | FromLists(two: seq<Gate>, three: seq<Gate>)  // `random.choice(two + three)`, a two-qubit gate redrawn when no third qubit remains
    | Triples                                      // a Toffoli on three drawn qubits while more than two remain

  predicate ValidRule(rule: GroupRule)
  {
    rule.FromLists? ==> |rule.two| >= 1
  }

  /** The rules without an identity branch: every round applies one gate. */
  predicate AlwaysApplies(rule: GroupRule)
  {
    !rule.Nested?
  }

  /** The grouping loop runs while more than this many qubits remain. */
  function Stop(rule: GroupRule): nat
  {
    if rule.Triples? then 2 else 1
  }

  /** What a round applies, the qubits it took from the pool, and the pool it leaves. */
  datatype RoundResult = RoundResult(instrs: seq<Instr>, taken: seq<nat>, rest: seq<nat>)

  /** `2 * Rand() < 1` picks the first gate, anything else the second. */
  function Coin(src: Source, at: Draw, heads: Gate, tails: Gate): Gate
  {
    if 2.0 * src.rand(at) < 1.0 then heads else tails
  }

  function PairRound(g: Gate, b1: nat, b2: nat, rest: seq<nat>): (r: RoundResult)
    ensures |r.taken| == 2 && r.rest == rest
  {
    RoundResult([Two(g, b1, b2)], [b1, b2], rest)
  }

  /** A third qubit is drawn from the rest; the gate, if any, acts on all three. */
  function TripleRound(g: Option<Gate>, picker: Picker, src: Source, d: nat, k: nat, b1: nat, b2: nat, rest: seq<nat>): (r: RoundResult)
    requires |rest| >= 1
    ensures |r.taken| == 3 && |r.rest| == |rest| - 1
  {
    var i3 := Position(picker, src, GroupDraw(d, k, 3), |rest|);
    var b3 := rest[i3];
    RoundResult(if g.Some? then [Three(g.value, b1, b2, b3)] else [], [b1, b2, b3], RemoveAt(rest, i3))
  }

  /** qrack_random_circuit.cpp: `maxGates * Rand()` over Swap, CZ, CNOT and, while a qubit remains, CCNOT. */
  function MaxGatesFinish(picker: Picker, src: Source, d: nat, k: nat, b1: nat, b2: nat, rest: seq<nat>): (r: RoundResult)
    ensures |r.taken| + |r.rest| == |rest| + 2 && |r.taken| >= 2
  {
    var r := src.rand(GroupDraw(d, k, 2));
    var g := if |rest| > 0 then 4.0 * r else 3.0 * r;
    if g < 1.0 then PairRound(Swap, b1, b2, rest)
    else if g < 2.0 then PairRound(CZ, b1, b2, rest)
    else if |rest| == 0 || g < 3.0 then PairRound(CNOT, b1, b2, rest)
    else TripleRound(Some(CCNOT), picker, src, d, k, b1, b2, rest)
  }

  /** The three-qubit gate of the nested rule's else branch, or none for its identity part. */
  function NestedTriple(src: Source, d: nat, k: nat): Option<Gate>
  {
    var g := 4.0 * src.rand(GroupDraw(d, k, 4));
    var flip := GroupDraw(d, k, 5);
    if g < 1.0 then Some(Coin(src, flip, CCNOT, AntiCCNOT))
    else if g < 2.0 then Some(Coin(src, flip, CCY, AntiCCY))
    else if g < 3.0 then Some(Coin(src, flip, CCZ, AntiCCZ))
    else None
  }

  /**
   * qrack/qrack_random_circuit.cpp: a two-qubit branch (always taken when
   * no qubit remains) or a three-qubit branch, each with an identity part.
   */
  function NestedFinishOf(picker: Picker, src: Source, d: nat, k: nat, b1: nat, b2: nat, rest: seq<nat>): (r: RoundResult)
    ensures |r.taken| + |r.rest| == |rest| + 2 && |r.taken| >= 2
  {
    var g := 4.0 * src.rand(GroupDraw(d, k, 4));
    var flip := GroupDraw(d, k, 5);
    if 2.0 * src.rand(GroupDraw(d, k, 2)) < 1.0 || |rest| == 0 then
      if g < 1.0 then
        if 4.0 * src.rand(GroupDraw(d, k, 6)) < 3.0 then PairRound(Coin(src, flip, CNOT, AntiCNOT), b1, b2, rest)
        else PairRound(Swap, b1, b2, rest)
      else if g < 2.0 then PairRound(Coin(src, flip, CY, AntiCY), b1, b2, rest)
      else if g < 3.0 then PairRound(Coin(src, flip, CZ, AntiCZ), b1, b2, rest)
      else RoundResult([], [b1, b2], rest)
    else
      TripleRound(NestedTriple(src, d, k), picker, src, d, k, b1, b2, rest)
  }

  /**
   * The Python scripts: `random.choice(two + three)`; a three-qubit choice
   * with no qubit left is replaced by `random.choice(two)`.
   */
  function ListsFinish(two: seq<Gate>, three: seq<Gate>, picker: Picker, src: Source, d: nat, k: nat, b1: nat, b2: nat, rest: seq<nat>): (r: RoundResult)
    requires |two| >= 1
    ensures |r.taken| + |r.rest| == |rest| + 2 && |r.taken| >= 2
  {
    var idx := src.pick(GroupDraw(d, k, 2)) % (|two| + |three|);
    if idx < |two| then PairRound(two[idx], b1, b2, rest)
    else if |rest| == 0 then PairRound(Choice(two, src.pick(GroupDraw(d, k, 5))), b1, b2, rest)
    else TripleRound(Some(three[idx - |two|]), picker, src, d, k, b1, b2, rest)
  }

  /** The round after b1 and b2 were drawn and `rest` remains. */
  function Finish(rule: GroupRule, picker: Picker, src: Source, d: nat, k: nat, b1: nat, b2: nat, rest: seq<nat>): (r: RoundResult)
    requires ValidRule(rule) && (rule.Triples? ==> |rest| >= 1)
    ensures |r.taken| + |r.rest| == |rest| + 2 && |r.taken| >= 2
  {
    match rule
    case MaxGates => MaxGatesFinish(picker, src, d, k, b1, b2, rest)
    case Nested => NestedFinishOf(picker, src, d, k, b1, b2, rest)
    case FromLists(two, three) => ListsFinish(two, three, picker, src, d, k, b1, b2, rest)
    case Triples => TripleRound(Some(CCNOT), picker, src, d, k, b1, b2, rest)
  }

  /** Round k of layer d: draw b1, then b2, then finish by the rule. */
  function Round(rule: GroupRule, picker: Picker, src: Source, d: nat, k: nat, pool: seq<nat>): (r: RoundResult)
    requires ValidRule(rule) && |pool| > Stop(rule)
    ensures |r.taken| + |r.rest| == |pool| && |r.taken| >= 2
  {
    var i1 := Position(picker, src, GroupDraw(d, k, 0), |pool|);
    var p1 := RemoveAt(pool, i1);
    var i2 := Position(picker, src, GroupDraw(d, k, 1), |p1|);
    Finish(rule, picker, src, d, k, pool[i1], p1[i2], RemoveAt(p1, i2))
  }

  /**
   * A round drew its operands from the pool without repeats and left the
   * rest: the taken and remaining qubits split the pool, and the gate, when
   * there is one, is a two- or three-qubit gate on exactly the taken qubits.
   */
  predicate Drawn(r: RoundResult, pool: seq<nat>)
  {
    Distinct(r.taken) && Distinct(r.rest) &&
    (forall x | x in r.taken :: x in pool) &&
    (forall x | x in r.rest :: x in pool && x !in r.taken) &&
    (forall x | x in pool :: x in r.taken || x in r.rest) &&
    |r.instrs| <= 1 &&
    (forall i | i in r.instrs :: (i.Two? || i.Three?) && Operands(i) == r.taken)
  }

  lemma TripleRoundSound(g: Option<Gate>, picker: Picker, src: Source, d: nat, k: nat, b1: nat, b2: nat, rest: seq<nat>, pool: seq<nat>)
    requires |rest| >= 1 && Distinct(rest) && b1 != b2 && b1 !in rest && b2 !in rest
    requires forall x :: x in pool <==> x == b1 || x == b2 || x in rest
    ensures var r := TripleRound(g, picker, src, d, k, b1, b2, rest);
      Drawn(r, pool) && (g.Some? ==> |r.instrs| == 1)
  {
    var i3 := Position(picker, src, GroupDraw(d, k, 3), |rest|);
    RemoveAtMembers(rest, i3);
  }

  lemma PairRoundSound(g: Gate, b1: nat, b2: nat, rest: seq<nat>, pool: seq<nat>)
    requires Distinct(rest) && b1 != b2 && b1 !in rest && b2 !in rest
    requires forall x :: x in pool <==> x == b1 || x == b2 || x in rest
    ensures Drawn(PairRound(g, b1, b2, rest), pool) && Drawn(RoundResult([], [b1, b2], rest), pool)
  {
  }

  lemma MaxGatesSound(picker: Picker, src: Source, d: nat, k: nat, b1: nat, b2: nat, rest: seq<nat>, pool: seq<nat>)
    requires Distinct(rest) && b1 != b2 && b1 !in rest && b2 !in rest
    requires forall x :: x in pool <==> x == b1 || x == b2 || x in rest
    ensures var r := MaxGatesFinish(picker, src, d, k, b1, b2, rest); Drawn(r, pool) && |r.instrs| == 1
  {
    PairRoundSound(Swap, b1, b2, rest, pool);
    PairRoundSound(CZ, b1, b2, rest, pool);
    PairRoundSound(CNOT, b1, b2, rest, pool);
    if |rest| >= 1 {
      TripleRoundSound(Some(CCNOT), picker, src, d, k, b1, b2, rest, pool);
    }
  }

  lemma NestedSound(picker: Picker, src: Source, d: nat, k: nat, b1: nat, b2: nat, rest: seq<nat>, pool: seq<nat>)
    requires Distinct(rest) && b1 != b2 && b1 !in rest && b2 !in rest
    requires forall x :: x in pool <==> x == b1 || x == b2 || x in rest
    ensures Drawn(NestedFinishOf(picker, src, d, k, b1, b2, rest), pool)
  {
    var flip := GroupDraw(d, k, 5);
    PairRoundSound(Coin(src, flip, CNOT, AntiCNOT), b1, b2, rest, pool);
    PairRoundSound(Swap, b1, b2, rest, pool);
    PairRoundSound(Coin(src, flip, CY, AntiCY), b1, b2, rest, pool);
    PairRoundSound(Coin(src, flip, CZ, AntiCZ), b1, b2, rest, pool);
    if |rest| >= 1 {
      TripleRoundSound(NestedTriple(src, d, k), picker, src, d, k, b1, b2, rest, pool);
    }
  }

  lemma ListsSound(two: seq<Gate>, three: seq<Gate>, picker: Picker, src: Source, d: nat, k: nat, b1: nat, b2: nat, rest: seq<nat>, pool: seq<nat>)
    requires |two| >= 1
    requires Distinct(rest) && b1 != b2 && b1 !in rest && b2 !in rest
    requires forall x :: x in pool <==> x == b1 || x == b2 || x in rest
    ensures var r := ListsFinish(two, three, picker, src, d, k, b1, b2, rest); Drawn(r, pool) && |r.instrs| == 1
  {
    var idx := src.pick(GroupDraw(d, k, 2)) % (|two| + |three|);
    if idx < |two| {
      PairRoundSound(two[idx], b1, b2, rest, pool);
    } else if |rest| == 0 {
      PairRoundSound(Choice(two, src.pick(GroupDraw(d, k, 5))), b1, b2, rest, pool);
    } else {
      TripleRoundSound(Some(three[idx - |two|]), picker, src, d, k, b1, b2, rest, pool);
    }
  }

  /** Every rule's round draws its operands soundly; the rules without identity always apply a gate. */
  lemma FinishSound(rule: GroupRule, picker: Picker, src: Source, d: nat, k: nat, b1: nat, b2: nat, rest: seq<nat>, pool: seq<nat>)
    requires ValidRule(rule) && (rule.Triples? ==> |rest| >= 1)
    requires Distinct(rest) && b1 != b2 && b1 !in rest && b2 !in rest
    requires forall x :: x in pool <==> x == b1 || x == b2 || x in rest
    ensures var r := Finish(rule, picker, src, d, k, b1, b2, rest);
      Drawn(r, pool) && (AlwaysApplies(rule) ==> |r.instrs| == 1)
  {
    match rule
    case MaxGates => MaxGatesSound(picker, src, d, k, b1, b2, rest, pool);
    case Nested => NestedSound(picker, src, d, k, b1, b2, rest, pool);
    case FromLists(two, three) => ListsSound(two, three, picker, src, d, k, b1, b2, rest, pool);
    case Triples => TripleRoundSound(Some(CCNOT), picker, src, d, k, b1, b2, rest, pool);
  }

  /**
   * A round on a pool without repeats: b1, b2 (and b3) are distinct members
   * of the pool, the rest is the pool without them, a three-qubit gate is
   * drawn only while a third qubit remains, and the gate acts on exactly
   * the qubits taken.
   */
  lemma RoundSound(rule: GroupRule, picker: Picker, src: Source, d: nat, k: nat, pool: seq<nat>)
    requires ValidRule(rule) && |pool| > Stop(rule) && Distinct(pool)
    ensures var r := Round(rule, picker, src, d, k, pool);
      Drawn(r, pool) && (AlwaysApplies(rule) ==> |r.instrs| == 1) &&
      (|r.taken| == 3 ==> |pool| >= 3)
  {
    var i1 := Position(picker, src, GroupDraw(d, k, 0), |pool|);
    var p1 := RemoveAt(pool, i1);
    RemoveAtMembers(pool, i1);
    var i2 := Position(picker, src, GroupDraw(d, k, 1), |p1|);
    var p2 := RemoveAt(p1, i2);
    RemoveAtMembers(p1, i2);
    FinishSound(rule, picker, src, d, k, pool[i1], p1[i2], p2, pool);
  }

  // ---------------------------------------------------------------------
  // The grouping loop

  /** The gates of all rounds, and the qubits left when the loop stops. */
  datatype GroupsResult = GroupsResult(instrs: seq<Instr>, left: seq<nat>)

  /** Rounds k, k+1, ... of layer d, starting from `pool`. */
  function Groups(rule: GroupRule, picker: Picker, src: Source, d: nat, k: nat, pool: seq<nat>): (g: GroupsResult)
    requires ValidRule(rule)
    decreases |pool|
  {
    if |pool| <= Stop(rule) then GroupsResult([], pool)
    else
      var r := Round(rule, picker, src, d, k, pool);
      var g := Groups(rule, picker, src, d, k + 1, r.rest);
      GroupsResult(r.instrs + g.instrs, g.left)
  }

  /** The operands of a list of instructions, in order. */
  function AllOperands(c: seq<Instr>): (ops: seq<nat>)
  {
    if c == [] then [] else Operands(c[0]) + AllOperands(c[1..])
  }

  lemma {:induction false} AllOperandsAppend(a: seq<Instr>, b: seq<Instr>)
    ensures AllOperands(a + b) == AllOperands(a) + AllOperands(b)
  {
    if a != [] {
      assert (a + b)[0] == a[0];
      assert (a + b)[1..] == a[1..] + b;
      AllOperandsAppend(a[1..], b);
    } else {
      assert a + b == b;
    }
  }

  lemma DistinctConcat(a: seq<nat>, b: seq<nat>)
    requires Distinct(a) && Distinct(b) && forall x | x in a :: x !in b
    ensures Distinct(a + b)
  {
    var c := a + b;
    forall i, j | 0 <= i < j < |c| ensures c[i] != c[j] {
      if i < |a| && j >= |a| {
        assert c[i] in a && c[j] == b[j - |a|];
      }
    }
  }

  /** A two- or three-qubit gate on distinct qubits of the pool. */
  predicate GateIn(i: Instr, pool: seq<nat>)
  {
    (i.Two? || i.Three?) && Distinct(Operands(i)) && forall x | x in Operands(i) :: x in pool
  }

  /** The operands of one round's instructions. */
  lemma RoundOperands(r: RoundResult, pool: seq<nat>)
    requires Drawn(r, pool)
    ensures Distinct(AllOperands(r.instrs))
    ensures forall x | x in AllOperands(r.instrs) :: x in r.taken
    ensures |r.instrs| == 1 ==> AllOperands(r.instrs) == r.taken
    ensures forall i | i in r.instrs :: GateIn(i, pool)
  {
    if |r.instrs| == 1 {
      assert r.instrs[0] in r.instrs;
      assert AllOperands(r.instrs) == Operands(r.instrs[0]) + AllOperands([]);
    }
  }

  /**
   * The grouping loop on a pool without repeats: no qubit is an operand of
   * two gates, every operand comes from the pool, the qubits left are the
   * ones no gate used and there are at most `Stop(rule)` of them; with a
   * rule that always applies a gate, every qubit of the pool is either an
   * operand or left over.
   */
  lemma {:induction false} GroupsSound(rule: GroupRule, picker: Picker, src: Source, d: nat, k: nat, pool: seq<nat>)
    requires ValidRule(rule) && Distinct(pool)
    ensures var g := Groups(rule, picker, src, d, k, pool); var ops := AllOperands(g.instrs);
      Distinct(ops) && Distinct(g.left) && |g.left| <= Stop(rule) &&
      (forall x | x in ops :: x in pool) &&
      (forall x | x in g.left :: x in pool && x !in ops) &&
      (forall i | i in g.instrs :: GateIn(i, pool)) &&
      (AlwaysApplies(rule) ==> |ops| + |g.left| == |pool|)
    decreases |pool|
  {
    if |pool| > Stop(rule) {
      var r := Round(rule, picker, src, d, k, pool);
      RoundSound(rule, picker, src, d, k, pool);
      GroupsSound(rule, picker, src, d, k + 1, r.rest);
      var g := Groups(rule, picker, src, d, k + 1, r.rest);
      RoundOperands(r, pool);
      AllOperandsAppend(r.instrs, g.instrs);
      DistinctConcat(AllOperands(r.instrs), AllOperands(g.instrs));
      assert forall i | i in r.instrs + g.instrs :: i in r.instrs || i in g.instrs;
    }
  }

  // ---------------------------------------------------------------------
  // Which gates a rule applies

  /** The two-qubit gates a rule can apply. */
  function PairGates(rule: GroupRule): set<Gate>
  {
    match rule
    case MaxGates => {Swap, CZ, CNOT}
    case Nested => {CNOT, AntiCNOT, Swap, CY, AntiCY, CZ, AntiCZ}
    case FromLists(two, _) => set g | g in two
    case Triples => {}
  }

  /** The three-qubit gates a rule can apply. */
  function TripleGates(rule: GroupRule): set<Gate>
  {
    match rule
    case MaxGates => {CCNOT}
    case Nested => {CCNOT, AntiCCNOT, CCY, AntiCCY, CCZ, AntiCCZ}
    case FromLists(_, three) => set g | g in three
    case Triples => {CCNOT}
  }

  /** A two-qubit gate from the rule's pair gates or a three-qubit gate from its triple gates. */
  predicate GateOf(i: Instr, rule: GroupRule)
  {
    (i.Two? && i.g in PairGates(rule)) || (i.Three? && i.g in TripleGates(rule))
  }

  lemma NestedGates(picker: Picker, src: Source, d: nat, k: nat, b1: nat, b2: nat, rest: seq<nat>)
    ensures forall i | i in NestedFinishOf(picker, src, d, k, b1, b2, rest).instrs :: GateOf(i, Nested)
  {
    if |rest| >= 1 {
      var t := NestedTriple(src, d, k);
      assert t.Some? ==> t.value in TripleGates(Nested);
    }
  }

  lemma ListsGates(two: seq<Gate>, three: seq<Gate>, picker: Picker, src: Source, d: nat, k: nat, b1: nat, b2: nat, rest: seq<nat>)
    requires |two| >= 1
    ensures forall i | i in ListsFinish(two, three, picker, src, d, k, b1, b2, rest).instrs :: GateOf(i, FromLists(two, three))
  {
    var idx := src.pick(GroupDraw(d, k, 2)) % (|two| + |three|);
    if idx >= |two| && |rest| > 0 {
      assert three[idx - |two|] in three;
    }
  }

  /** Every gate a round applies is one of its rule's gates, with the matching arity. */
  lemma FinishGates(rule: GroupRule, picker: Picker, src: Source, d: nat, k: nat, b1: nat, b2: nat, rest: seq<nat>)
    requires ValidRule(rule) && (rule.Triples? ==> |rest| >= 1)
    ensures forall i | i in Finish(rule, picker, src, d, k, b1, b2, rest).instrs :: GateOf(i, rule)
  {
    match rule
    case MaxGates =>
    case Nested => NestedGates(picker, src, d, k, b1, b2, rest);
    case FromLists(two, three) => ListsGates(two, three, picker, src, d, k, b1, b2, rest);
    case Triples =>
  }

  /** The grouping loop applies only its rule's gates. */
  lemma {:induction false} GroupsGates(rule: GroupRule, picker: Picker, src: Source, d: nat, k: nat, pool: seq<nat>)
    requires ValidRule(rule)
    ensures forall i | i in Groups(rule, picker, src, d, k, pool).instrs :: GateOf(i, rule)
    decreases |pool|
  {
    if |pool| > Stop(rule) {
      var r := Round(rule, picker, src, d, k, pool);
      var i1 := Position(picker, src, GroupDraw(d, k, 0), |pool|);
      var p1 := RemoveAt(pool, i1);
      var i2 := Position(picker, src, GroupDraw(d, k, 1), |p1|);
      FinishGates(rule, picker, src, d, k, pool[i1], p1[i2], RemoveAt(p1, i2));
      GroupsGates(rule, picker, src, d, k + 1, r.rest);
      var g := Groups(rule, picker, src, d, k + 1, r.rest);
      assert forall i | i in r.instrs + g.instrs :: i in r.instrs || i in g.instrs;
    }
  }

  // ---------------------------------------------------------------------
  // Layers and circuits

  /**
   * The list the grouping loop starts from: `[i for i in range(n)]`, or
   * `[range(n)]`, a list whose only element is the whole range.
   */
  datatype PoolStart = QubitList | WrappedRange

  /** The length the loop test `len(bit_set) > 1` sees first. */
  function StartLength(start: PoolStart, n: nat): nat
  {
    match start
    case QubitList => n
    case WrappedRange => 1
  }

  datatype GroupStage = NoGroups | Grouped(rule: GroupRule, picker: Picker, start: PoolStart)

  /** One random-circuit script: its single-qubit pass, grouping loop, ending and reset. */
  datatype RandomVariant = RandomVariant(singles: Option<Pass>, groups: GroupStage, final: Final, resetFirst: bool)

  predicate ValidRandomVariant(v: RandomVariant)
  {
    (v.singles.Some? ==> ValidPass(v.singles.value)) &&
    (v.groups.Grouped? ==> ValidRule(v.groups.rule))
  }

  /** The single-qubit gates of layer d, qubit by qubit. */
  function SinglesPart(v: RandomVariant, src: Source, n: nat, depth: nat, d: nat): seq<Instr>
    requires ValidRandomVariant(v)
  {
    match v.singles
    case None => []
    case Some(p) => PassPrefix(p, src, n, depth, d, 0, [], n)
  }

  /** The multi-qubit gates of layer d. */
  function GroupPart(v: RandomVariant, src: Source, n: nat, d: nat): seq<Instr>
    requires ValidRandomVariant(v)
  {
    match v.groups
    case NoGroups => []
    case Grouped(rule, picker, start) =>
      if StartLength(start, n) > Stop(rule) then Groups(rule, picker, src, d, 0, Range(n)).instrs else []
  }

  function LayerOf(v: RandomVariant, src: Source, n: nat, depth: nat, d: nat): seq<Instr>
    requires ValidRandomVariant(v)
  {
    SinglesPart(v, src, n, depth, d) + GroupPart(v, src, n, d)
  }

  /** Layers 0 .. k-1. */
  function Layers(v: RandomVariant, src: Source, n: nat, depth: nat, k: nat): seq<Instr>
    requires ValidRandomVariant(v)
  {
    if k == 0 then [] else Layers(v, src, n, depth, k - 1) + LayerOf(v, src, n, depth, k - 1)
  }

  function Prefix(v: RandomVariant): seq<Instr>
  {
    if v.resetFirst then [ResetAll] else []
  }

  function Circuit(v: RandomVariant, src: Source, n: nat, depth: nat): seq<Instr>
    requires ValidRandomVariant(v)
  {
    Prefix(v) + Layers(v, src, n, depth, depth) + FinalPart(v.final, n)
  }

  // ---------------------------------------------------------------------
  // The generator

  /** One pass of the grouping loop on the pool object. */
  method RunRound(pool: UnusedBits, rule: GroupRule, picker: Picker, src: Source, d: nat, k: nat) returns (instrs: seq<Instr>)
    requires pool.Valid() && ValidRule(rule) && |pool.bits| > Stop(rule)
    modifies pool
    ensures pool.Valid()
    ensures var r := Round(rule, picker, src, d, k, old(pool.bits));
      instrs == r.instrs && pool.bits == r.rest
  {
    var b1 := pool.Pick(picker, src, GroupDraw(d, k, 0));
    var b2 := pool.Pick(picker, src, GroupDraw(d, k, 1));
    match rule {
      case MaxGates =>
        var maxGates := if |pool.bits| > 0 then 4.0 else 3.0;
        var gateRand := maxGates * src.rand(GroupDraw(d, k, 2));
        if gateRand < 1.0 {
          instrs := [Two(Swap, b1, b2)];
        } else if gateRand < 2.0 {
          instrs := [Two(CZ, b1, b2)];
        } else if |pool.bits| == 0 || gateRand < 3.0 {
          instrs := [Two(CNOT, b1, b2)];
        } else {
          var b3 := pool.Pick(picker, src, GroupDraw(d, k, 3));
          instrs := [Three(CCNOT, b1, b2, b3)];
        }
      case Nested =>
        instrs := NestedFinish(pool, picker, src, d, k, b1, b2);
      case FromLists(two, three) =>
        var idx := src.pick(GroupDraw(d, k, 2)) % (|two| + |three|);
        if idx < |two| {
          instrs := [Two(two[idx], b1, b2)];
        } else if |pool.bits| == 0 {
          instrs := [Two(Choice(two, src.pick(GroupDraw(d, k, 5))), b1, b2)];
        } else {
          var b3 := pool.Pick(picker, src, GroupDraw(d, k, 3));
          instrs := [Three(three[idx - |two|], b1, b2, b3)];
        }
      case Triples =>
        var b3 := pool.Pick(picker, src, GroupDraw(d, k, 3));
        instrs := [Three(CCNOT, b1, b2, b3)];
    }
  }

  /** The nested branches of qrack/qrack_random_circuit.cpp after b1 and b2 were drawn. */
  method NestedFinish(pool: UnusedBits, picker: Picker, src: Source, d: nat, k: nat, b1: nat, b2: nat) returns (instrs: seq<Instr>)
    requires pool.Valid()
    modifies pool
    ensures pool.Valid()
    ensures var r := Finish(Nested, picker, src, d, k, b1, b2, old(pool.bits));
      instrs == r.instrs && pool.bits == r.rest
  {
    var gateRand := 4.0 * src.rand(GroupDraw(d, k, 4));
    var flip := GroupDraw(d, k, 5);
    if 2.0 * src.rand(GroupDraw(d, k, 2)) < 1.0 || |pool.bits| == 0 {
      if gateRand < 1.0 {
        if 4.0 * src.rand(GroupDraw(d, k, 6)) < 3.0 {
          instrs := [Two(Coin(src, flip, CNOT, AntiCNOT), b1, b2)];
        } else {
          instrs := [Two(Swap, b1, b2)];
        }
      } else if gateRand < 2.0 {
        instrs := [Two(Coin(src, flip, CY, AntiCY), b1, b2)];
      } else if gateRand < 3.0 {
        instrs := [Two(Coin(src, flip, CZ, AntiCZ), b1, b2)];
      } else {
        instrs := [];
      }
    } else {
      var b3 := pool.Pick(picker, src, GroupDraw(d, k, 3));
      if gateRand < 1.0 {
        instrs := [Three(Coin(src, flip, CCNOT, AntiCCNOT), b1, b2, b3)];
      } else if gateRand < 2.0 {
        instrs := [Three(Coin(src, flip, CCY, AntiCCY), b1, b2, b3)];
      } else if gateRand < 3.0 {
        instrs := [Three(Coin(src, flip, CCZ, AntiCCZ), b1, b2, b3)];
      } else {
        instrs := [];
      }
    }
  }

  /** One pass of the loop, stated against the remaining rounds. */
  method GroupsStepRun(pool: UnusedBits, rule: GroupRule, picker: Picker, src: Source, d: nat, k: nat) returns (part: seq<Instr>)
    requires pool.Valid() && ValidRule(rule) && |pool.bits| > Stop(rule)
    modifies pool
    ensures pool.Valid() && |pool.bits| < |old(pool.bits)|
    ensures part + Groups(rule, picker, src, d, k + 1, pool.bits).instrs == Groups(rule, picker, src, d, k, old(pool.bits)).instrs
  {
    part := RunRound(pool, rule, picker, src, d, k);
    RoundSound(rule, picker, src, d, k, old(pool.bits));
  }

  /** The grouping loop of layer d on a fresh pool of the n qubits. */
  method RunGroups(rule: GroupRule, picker: Picker, src: Source, d: nat, n: nat) returns (instrs: seq<Instr>)
    requires ValidRule(rule)
    ensures instrs == Groups(rule, picker, src, d, 0, Range(n)).instrs
  {
    var pool := new UnusedBits(n);
    instrs := [];
    var k := 0;
    ghost var total := Groups(rule, picker, src, d, 0, Range(n)).instrs;
    while |pool.bits| > Stop(rule)
      invariant pool.Valid()
      invariant instrs + Groups(rule, picker, src, d, k, pool.bits).instrs == total
      decreases |pool.bits|
    {
      ghost var rest := Groups(rule, picker, src, d, k, pool.bits).instrs;
      var part := GroupsStepRun(pool, rule, picker, src, d, k);
      AccumulateStep(instrs, part, Groups(rule, picker, src, d, k + 1, pool.bits).instrs, rest, total);
      instrs := instrs + part;
      k := k + 1;
    }
  }

  method RunLayer(v: RandomVariant, src: Source, n: nat, depth: nat, d: nat) returns (layer: seq<Instr>)
    requires ValidRandomVariant(v)
    ensures layer == LayerOf(v, src, n, depth, d)
  {
    layer := [];
    if v.singles.Some? {
      var part, _ := RunPass(v.singles.value, src, n, depth, d, 0, []);
      layer := part;
    }
    match v.groups {
      case NoGroups =>
      case Grouped(rule, picker, start) =>
        if StartLength(start, n) > Stop(rule) {
          var groups := RunGroups(rule, picker, src, d, n);
          layer := layer + groups;
        }
    }
  }

  /** Layer d appended to the circuit built so far. */
  method AppendLayer(v: RandomVariant, src: Source, n: nat, depth: nat, d: nat, circ: seq<Instr>) returns (next: seq<Instr>)
    requires ValidRandomVariant(v)
    requires circ == Prefix(v) + Layers(v, src, n, depth, d)
    ensures next == Prefix(v) + Layers(v, src, n, depth, d + 1)
  {
    var layer := RunLayer(v, src, n, depth, d);
    next := circ + layer;
  }

  /** The whole circuit of a width-n, depth-`depth` run. */
  method Generate(v: RandomVariant, src: Source, n: nat, depth: nat) returns (circ: seq<Instr>)
    requires ValidRandomVariant(v)
    ensures circ == Circuit(v, src, n, depth)
  {
    circ := Prefix(v);
    var d := 0;
    while d < depth
      invariant d <= depth
      invariant circ == Prefix(v) + Layers(v, src, n, depth, d)
    {
      circ := AppendLayer(v, src, n, depth, d, circ);
      d := d + 1;
    }
    circ := circ + FinalPart(v.final, n);
  }

  // ---------------------------------------------------------------------
  // Properties

  /**
   * Within one layer no qubit is an operand of two multi-qubit gates, and
   * every such gate acts on distinct qubits of the register; when the loop
   * starts from the list of all qubits and the rule always applies a gate,
   * at most `Stop(rule)` qubits stay idle.
   */
  lemma GroupPartSound(v: RandomVariant, src: Source, n: nat, d: nat)
    requires ValidRandomVariant(v)
    ensures var c := GroupPart(v, src, n, d);
      Distinct(AllOperands(c)) && GatesOnly(c, n)
    ensures v.groups.Grouped? && v.groups.start == QubitList && AlwaysApplies(v.groups.rule) ==>
      |AllOperands(GroupPart(v, src, n, d))| + Stop(v.groups.rule) >= n
  {
    match v.groups
    case NoGroups =>
    case Grouped(rule, picker, start) =>
      if StartLength(start, n) > Stop(rule) {
        RegisterGroups(rule, picker, src, d, n);
      }
  }

  /** The grouping loop on the whole register. */
  lemma RegisterGroups(rule: GroupRule, picker: Picker, src: Source, d: nat, n: nat)
    requires ValidRule(rule)
    ensures var c := Groups(rule, picker, src, d, 0, Range(n)).instrs;
      Distinct(AllOperands(c)) && GatesOnly(c, n) &&
      (AlwaysApplies(rule) ==> |AllOperands(c)| + Stop(rule) >= n)
  {
    RangeMembers(n);
    GroupsSound(rule, picker, src, d, 0, Range(n));
    var g := Groups(rule, picker, src, d, 0, Range(n));
    GatesInRegister(g.instrs, Range(n), n);
  }

  /** Gates on distinct qubits of a pool of register qubits are well formed. */
  lemma GatesInRegister(c: seq<Instr>, pool: seq<nat>, n: nat)
    requires forall i | i in c :: GateIn(i, pool)
    requires forall x: nat :: x in pool <==> x < n
    ensures GatesOnly(c, n)
  {
    forall i | i in c ensures IsGate(i, n) {
      var ops := Operands(i);
      assert GateIn(i, pool);
      assert forall k | 0 <= k < |ops| :: ops[k] in ops;
    }
    GatesOnlyMembers(c, n);
  }

  /** The multi-qubit gates of a layer are the rule's gates. */
  lemma GroupPartGates(v: RandomVariant, src: Source, n: nat, d: nat)
    requires ValidRandomVariant(v) && v.groups.Grouped?
    ensures forall i | i in GroupPart(v, src, n, d) :: GateOf(i, v.groups.rule)
  {
    GroupsGates(v.groups.rule, v.groups.picker, src, d, 0, Range(n));
  }

  lemma LayerGatesOnly(v: RandomVariant, src: Source, n: nat, depth: nat, d: nat)
    requires ValidRandomVariant(v)
    ensures AllGates(LayerOf(v, src, n, depth, d), n)
  {
    var singles, groups := SinglesPart(v, src, n, depth, d), GroupPart(v, src, n, d);
    if v.singles.Some? {
      PassGatesOnly(v.singles.value, src, n, depth, d, 0, []);
    }
    GroupPartSound(v, src, n, d);
    GatesOnlyMembers(singles, n);
    GatesOnlyMembers(groups, n);
    assert LayerOf(v, src, n, depth, d) == singles + groups;
  }

  lemma LayersStep(v: RandomVariant, src: Source, n: nat, depth: nat, k: nat)
    requires ValidRandomVariant(v) && k > 0
    ensures Layers(v, src, n, depth, k) == Layers(v, src, n, depth, k - 1) + LayerOf(v, src, n, depth, k - 1)
  {
  }

  lemma {:induction false} LayersGatesOnly(v: RandomVariant, src: Source, n: nat, depth: nat, k: nat)
    requires ValidRandomVariant(v)
    ensures AllGates(Layers(v, src, n, depth, k), n)
  {
    if k > 0 {
      var j := k - 1;
      LayersGatesOnly(v, src, n, depth, j);
      LayerGatesOnly(v, src, n, depth, j);
      LayersStep(v, src, n, depth, k);
      GatesBoth(Layers(v, src, n, depth, j), LayerOf(v, src, n, depth, j), n);
    }
  }

  /**
   * The shape of every random circuit: an optional reset, then layers of
   * gates on distinct qubits below n, then the final measurement part.
   */
  lemma CircuitShape(v: RandomVariant, src: Source, n: nat, depth: nat)
    requires ValidRandomVariant(v)
    ensures var c, post := Circuit(v, src, n, depth), FinalPart(v.final, n);
      AllWellFormed(c, n) && |c| >= |post| && NoMeasurement(c[..|c| - |post|]) &&
      c[|c| - |post|..] == post && (v.resetFirst ==> c[0] == ResetAll)
  {
    LayersGatesOnly(v, src, n, depth, depth);
    GatesOnlyMembers(Layers(v, src, n, depth, depth), n);
    Assembled(Prefix(v), Layers(v, src, n, depth, depth), v.final, n);
  }

  /** Without a reset and an ending, the circuit is its layers. */
  lemma CircuitIsLayers(v: RandomVariant, src: Source, n: nat, depth: nat)
    requires ValidRandomVariant(v) && !v.resetFirst && v.final == NoMeasure
    ensures Circuit(v, src, n, depth) == Layers(v, src, n, depth, depth)
  {
    var l := Layers(v, src, n, depth, depth);
    assert [] + l + [] == l;
  }

  /**
   * A loop that starts from `[range(n)]` never runs: the script's circuit
   * is the one it would give with the grouping loop deleted.
   */
  lemma {:induction false} WrappedRangeNeverGroups(v: RandomVariant, src: Source, n: nat, depth: nat, k: nat)
    requires ValidRandomVariant(v) && v.groups.Grouped? && v.groups.start == WrappedRange
    ensures Layers(v, src, n, depth, k) == Layers(v.(groups := NoGroups), src, n, depth, k)
  {
    if k > 0 {
      WrappedRangeNeverGroups(v, src, n, depth, k - 1);
      assert LayerOf(v, src, n, depth, k - 1) == LayerOf(v.(groups := NoGroups), src, n, depth, k - 1);
    }
  }

  /** Every instruction is a one-qubit gate. */
  predicate SingleQubitOnly(c: seq<Instr>)
  {
    forall i | i in c :: i.One?
  }

  lemma SingleQubitOnlyBoth(a: seq<Instr>, b: seq<Instr>)
    requires SingleQubitOnly(a) && SingleQubitOnly(b)
    ensures SingleQubitOnly(a + b)
  {
  }

  /** Without a grouping loop the layers hold no gate on two or three qubits. */
  lemma {:induction false} UngroupedSingleQubitOnly(v: RandomVariant, src: Source, n: nat, depth: nat, k: nat)
    requires ValidRandomVariant(v) && v.groups == NoGroups
    ensures SingleQubitOnly(Layers(v, src, n, depth, k))
  {
    if k > 0 {
      var j := k - 1;
      UngroupedSingleQubitOnly(v, src, n, depth, j);
      if v.singles.Some? {
        PassPrefixOnQubits(v.singles.value, src, n, depth, j, 0, [], n);
      }
      assert LayerOf(v, src, n, depth, j) == SinglesPart(v, src, n, depth, j);
      LayersStep(v, src, n, depth, k);
      SingleQubitOnlyBoth(Layers(v, src, n, depth, j), LayerOf(v, src, n, depth, j));
    }
  }

  /**
   * Started from `[range(n)]`, the layers of a script hold no gate on two or
   * three qubits, whatever its grouping rule.
   */
  lemma WrappedRangeSingleQubitOnly(v: RandomVariant, src: Source, n: nat, depth: nat, k: nat)
    requires ValidRandomVariant(v) && v.groups.Grouped? && v.groups.start == WrappedRange
    ensures SingleQubitOnly(Layers(v, src, n, depth, k))
  {
    WrappedRangeNeverGroups(v, src, n, depth, k);
    UngroupedSingleQubitOnly(v.(groups := NoGroups), src, n, depth, k);
  }

  /**
   * Without a grouping loop, and with a pass that gives every qubit one gate,
   * each layer has n instructions: depth layers have depth * n.
   */
  lemma {:induction false} SingleGateLayers(v: RandomVariant, src: Source, n: nat, depth: nat, k: nat)
    requires ValidRandomVariant(v) && v.groups == NoGroups && v.singles.Some?
    requires var p := v.singles.value; p.Pick? && p.suffix == [] && forall j | 0 <= j < |p.options| :: |p.options[j]| == 1
    ensures |Layers(v, src, n, depth, k)| == k * n
  {
    if k > 0 {
      SingleGateLayers(v, src, n, depth, k - 1);
      SingleGateLayer(v, src, n, depth, k - 1);
      LayersStep(v, src, n, depth, k);
      assert (k - 1) * n + n == k * n;
    }
  }

  lemma SingleGateLayer(v: RandomVariant, src: Source, n: nat, depth: nat, d: nat)
    requires ValidRandomVariant(v) && v.groups == NoGroups && v.singles.Some?
    requires var p := v.singles.value; p.Pick? && p.suffix == [] && forall j | 0 <= j < |p.options| :: |p.options[j]| == 1
    ensures |LayerOf(v, src, n, depth, d)| == n
  {
    OneGatePerQubit(v.singles.value, src, n, depth, d, [], n);
  }
}
