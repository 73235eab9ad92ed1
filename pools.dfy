/**
 * The pools of unused qubits that the random-circuit generators draw
 * operands from, and the two ways of drawing one: Qrack's `pickRandomBit`,
 * which indexes a `std::set` by a scaled `Rand()` and erases the element
 * found, and Python's `random.choice` followed by `list.remove`.
 */
module Pools {
  import opened Gates
  import opened Singles

  /** The qubits 0 .. n-1 in increasing order. */
  function Range(n: nat): (r: seq<nat>)
    ensures |r| == n
    ensures forall i | 0 <= i < n :: r[i] == i
  {
    if n == 0 then [] else Range(n - 1) + [n - 1]
  }

  /** The register's qubits, each once: the pool every layer starts from. */
  lemma RangeMembers(n: nat)
    ensures Distinct(Range(n))
    ensures forall x: nat :: x in Range(n) <==> x < n
  {
    var r := Range(n);
    forall x: nat | x < n ensures x in r {
      assert r[x] == x;
    }
  }

  /** The sequence without its element at position i. */
  function RemoveAt(s: seq<nat>, i: nat): (r: seq<nat>)
    requires i < |s|
    ensures |r| == |s| - 1
  {
    s[..i] + s[i + 1..]
  }

  /** Erasing one element of a duplicate-free pool removes exactly that element. */
  lemma RemoveAtMembers(s: seq<nat>, i: nat)
    requires Distinct(s) && i < |s|
    ensures Distinct(RemoveAt(s, i))
    ensures forall x: nat :: x in RemoveAt(s, i) <==> x in s && x != s[i]
  {
    var r := RemoveAt(s, i);
    assert forall k | 0 <= k < |r| :: r[k] == if k < i then s[k] else s[k + 1];
    forall x: nat | x in s && x != s[i] ensures x in r {
      var k :| 0 <= k < |s| && s[k] == x;
      if k < i { assert r[k] == x; } else { assert r[k - 1] == x; }
    }
  }

  /**
   * Python's `list.remove(x)`: the list without the first occurrence of x,
   * or None where Python raises `ValueError` because x is absent.
   */
  function ListRemove(s: seq<nat>, x: nat): (r: Option<seq<nat>>)
    ensures r.None? <==> x !in s
    ensures r.Some? ==> |r.value| == |s| - 1
  {
    if s == [] then None
    else if s[0] == x then Some(s[1..])
    else
      match ListRemove(s[1..], x)
      case None => None
      case Some(t) => Some([s[0]] + t)
  }

  lemma RemoveAtCons(s: seq<nat>, i: nat)
    requires 0 < i < |s|
    ensures RemoveAt(s, i) == [s[0]] + RemoveAt(s[1..], i - 1)
  {
    assert s[..i] == [s[0]] + s[1..][..i - 1];
  }

  /** In a duplicate-free list, removing the value found at i erases position i. */
  lemma {:induction false} ListRemoveAt(s: seq<nat>, i: nat)
    requires Distinct(s) && i < |s|
    ensures ListRemove(s, s[i]) == Some(RemoveAt(s, i))
  {
    if i > 0 {
      var t := s[1..];
      assert Distinct(t);
      assert t[i - 1] == s[i] && s[0] != s[i];
      ListRemoveAt(t, i - 1);
      RemoveAtCons(s, i);
    } else {
      assert RemoveAt(s, 0) == s[1..];
    }
  }

  /** How a generator turns a draw into a position in the pool. */
  datatype Picker =
    | QrackRand      // `size * Rand()` truncated, then clamped to size - 1
    | PythonChoice   // `random.choice`: an index modulo the size

  /**
   * `pickRandomBit`'s position: `size * Rand()` truncated toward zero, and
   * set to size - 1 when it reaches size. Below `Rand() == 1` it is the
   * bucket of width 1/size that holds the draw.
   */
  function ClampedPosition(size: nat, r: Prob): (pos: nat)
    requires size > 0
    ensures pos < size
    ensures r < 1.0 ==> pos as real <= size as real * r < pos as real + 1.0
    ensures r == 1.0 ==> pos == size - 1
  {
    var f := (size as real * r).Floor;
    if f >= size then size - 1 else f
  }

  /** The clamp changes the truncated position only when `Rand()` returns exactly 1. */
  lemma ClampOnlyAtOne(size: nat, r: Prob)
    requires size > 0
    ensures (size as real * r).Floor >= size <==> r == 1.0
  {
    if r < 1.0 {
      assert size as real * r < size as real;
    }
  }

  /** The position a draw selects in a pool of the given size. */
  function Position(picker: Picker, src: Source, at: Draw, size: nat): (pos: nat)
    requires size > 0
    ensures pos < size
  {
    match picker
    case QrackRand => ClampedPosition(size, src.rand(at))
    case PythonChoice => src.pick(at) % size
  }

  /**
   * The pool of one layer: `std::set<bitLenInt> unusedBits` in the C++
   * generators, `bit_set` in the Python ones. Its elements never repeat.
   */
  class UnusedBits {
    var bits: seq<nat>

    predicate Valid()
      reads this
    {
      Distinct(bits)
    }

    /** The pool filled with the qubits 0 .. n-1 in increasing order. */
    constructor (n: nat)
      ensures Valid() && bits == Range(n)
    {
      var s: seq<nat> := [];
      var i := 0;
      while i < n
        invariant i <= n && s == Range(i)
      {
        s := s + [i];
        i := i + 1;
      }
      bits := s;
      RangeMembers(n);
    }

    /**
     * Draws one qubit: the element at the drawn position, which is removed
     * from the pool. The C++ generators erase it by position, the Python
     * ones remove it by value; in a pool without repeats both remove
     * exactly the element returned.
     */
    method Pick(picker: Picker, src: Source, at: Draw) returns (b: nat)
      requires Valid() && |bits| > 0
      modifies this
      ensures Valid()
      ensures var pos := Position(picker, src, at, |old(bits)|);
        b == old(bits)[pos] && bits == RemoveAt(old(bits), pos)
    {
      var pos := Position(picker, src, at, |bits|);
      b := bits[pos];
      if picker == QrackRand {
        // `std::advance` to the position, then `erase` at the iterator
        bits := bits[..pos] + bits[pos + 1..];
      } else {
        // `list.remove(b)`, which finds b at the drawn position
        ListRemoveAt(bits, pos);
        bits := ListRemove(bits, b).value;
      }
      RemoveAtMembers(old(bits), pos);
    }
  }
}
