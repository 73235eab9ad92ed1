/**
 * Computational-basis states as integers: the random permutation state that
 * the validation and Toffoli scripts prepare with X gates, and the packing
 * of a list of measured bits into one integer, bit i for qubit i.
 */
module Basis {
  import opened Gates
  import opened Pools

  /** 2^k, the value of `1 << k`. */
  function Pow2(k: nat): (p: nat)
    ensures p >= 1
  {
    if k == 0 then 1 else 2 * Pow2(k - 1)
  }

  /** `x >> k` on a non-negative integer: k halvings, each rounding down. */
  function Shr(x: nat, k: nat): nat
  {
    if k == 0 then x else Shr(x / 2, k - 1)
  }

  /** `(x >> q) & 1 > 0`: bit q of x is set. */
  predicate BitSet(x: nat, q: nat)
  {
    Shr(x, q) % 2 == 1
  }

  /**
   * `rand_perm`: `floor((1 << n) * random.random())`, lowered by one when it
   * reaches `1 << n`. It is a basis state of the n-qubit register.
   */
  function RandPerm(n: nat, r: Prob): (perm: nat)
    ensures perm < Pow2(n)
  {
    ClampedPosition(Pow2(n), r)
  }

  /** The bits of x, qubit 0 first. */
  function Bits(x: nat, n: nat): (b: seq<bool>)
    ensures |b| == n
  {
    if n == 0 then [] else [x % 2 == 1] + Bits(x / 2, n - 1)
  }

  lemma {:induction false} BitsAt(x: nat, n: nat, q: nat)
    requires q < n
    ensures Bits(x, n)[q] == BitSet(x, q)
  {
    if q > 0 {
      BitsAt(x / 2, n - 1, q - 1);
    }
  }

  /** The integer whose bit i is set exactly when m[i] holds. */
  function Pack(m: seq<bool>): nat
  {
    if m == [] then 0 else (if m[0] then 1 else 0) + 2 * Pack(m[1..])
  }

  lemma {:induction false} PackBound(m: seq<bool>)
    ensures Pack(m) < Pow2(|m|)
  {
    if m != [] {
      PackBound(m[1..]);
    }
  }

  /** Reading the n bits of a value below 2^n and packing them gives the value back. */
  lemma {:induction false} PackBits(x: nat, n: nat)
    requires x < Pow2(n)
    ensures Pack(Bits(x, n)) == x
  {
    if n > 0 {
      PackBits(x / 2, n - 1);
      assert Bits(x, n)[1..] == Bits(x / 2, n - 1);
    }
  }

  /** Packing bits and reading them back gives the same bits. */
  lemma {:induction false} BitsPack(m: seq<bool>)
    ensures Bits(Pack(m), |m|) == m
  {
    if m != [] {
      BitsPack(m[1..]);
      assert Pack(m) / 2 == Pack(m[1..]);
      assert [m[0]] + m[1..] == m;
    }
  }

  /** Packing one more bit adds `1 << i` when it is set. */
  lemma {:induction false} PackSnoc(m: seq<bool>, b: bool)
    ensures Pack(m + [b]) == Pack(m) + (if b then Pow2(|m|) else 0)
  {
    if m != [] {
      assert (m + [b])[1..] == m[1..] + [b];
      PackSnoc(m[1..], b);
    }
  }

  /**
   * The measurement loop of pyqrack_test_qft_cosmology.py: `mi |= 1 << i`
   * for each set result. Bit i is still clear when it is set, so the or is
   * an addition.
   */
  method PackResults(m: seq<bool>) returns (mi: nat)
    ensures mi == Pack(m)
    ensures mi < Pow2(|m|) && Bits(mi, |m|) == m
  {
    mi := 0;
    var i := 0;
    while i < |m|
      invariant i <= |m| && mi == Pack(m[..i])
    {
      PackSnoc(m[..i], m[i]);
      assert m[..i + 1] == m[..i] + [m[i]];
      if m[i] {
        mi := mi + Pow2(i);
      }
      i := i + 1;
    }
    assert m[..|m|] == m;
    PackBound(m);
    BitsPack(m);
  }

  // ---------------------------------------------------------------------
  // Preparing a basis state

  /** X on every qubit below k whose bit in `perm` is set, in increasing order. */
  function Prep(k: nat, perm: nat): (c: seq<Instr>)
    ensures forall i | i in c :: i.One? && i.g == X && i.q < k && BitSet(perm, i.q)
  {
    if k == 0 then [] else Prep(k - 1, perm) + (if BitSet(perm, k - 1) then [One(X, k - 1)] else [])
  }

  /** The preparation loop: `sim.x(qubit)` for each qubit whose bit is set. */
  method PrepareBasis(n: nat, perm: nat) returns (c: seq<Instr>)
    ensures c == Prep(n, perm)
  {
    c := [];
    var q := 0;
    while q < n
      invariant q <= n && c == Prep(q, perm)
    {
      if BitSet(perm, q) {
        c := c + [One(X, q)];
      }
      q := q + 1;
    }
  }

  /** The action of a circuit of X gates on a basis state: each X negates its qubit's bit. */
  function Flip(state: seq<bool>, c: seq<Instr>): (s: seq<bool>)
    requires forall i | i in c :: i.One? && i.g == X
    ensures |s| == |state|
  {
    if c == [] then state
    else
      var s := Flip(state, c[..|c| - 1]);
      var q := c[|c| - 1].q;
      if q < |s| then s[q := !s[q]] else s
  }

  function Zeros(n: nat): (s: seq<bool>)
    ensures |s| == n && forall q | 0 <= q < n :: !s[q]
  {
    seq(n, q => false)
  }

  /** One more X negates its qubit's bit and nothing else. */
  lemma FlipSnoc(state: seq<bool>, p: seq<Instr>, q: nat)
    requires forall i | i in p :: i.One? && i.g == X
    requires q < |state|
    ensures var s := Flip(state, p); Flip(state, p + [One(X, q)]) == s[q := !s[q]]
  {
    var c := p + [One(X, q)];
    assert c[..|c| - 1] == p;
  }

  /** The (j+1)-th preparation step flips qubit j exactly when perm's bit j is set. */
  lemma PrepStep(n: nat, perm: nat, j: nat)
    requires j < n
    ensures var before := Flip(Zeros(n), Prep(j, perm));
      Flip(Zeros(n), Prep(j + 1, perm)) == if BitSet(perm, j) then before[j := !before[j]] else before
  {
    var pj := Prep(j, perm);
    if BitSet(perm, j) {
      assert Prep(j + 1, perm) == pj + [One(X, j)];
      FlipSnoc(Zeros(n), pj, j);
    } else {
      assert Prep(j + 1, perm) == pj;
    }
  }

  /** After the first k preparation gates, qubits below k hold perm's bits and the others 0. */
  lemma {:induction false} PrepFlips(n: nat, perm: nat, k: nat)
    requires k <= n
    ensures var s := Flip(Zeros(n), Prep(k, perm));
      forall q | 0 <= q < n :: s[q] == (q < k && BitSet(perm, q))
  {
    if k > 0 {
      var j := k - 1;
      PrepFlips(n, perm, j);
      PrepStep(n, perm, j);
      var before := Flip(Zeros(n), Prep(j, perm));
      var after := Flip(Zeros(n), Prep(k, perm));
      forall q | 0 <= q < n ensures after[q] == (q < k && BitSet(perm, q)) {
        assert before[q] == (q < j && BitSet(perm, q));
      }
    }
  }

  /**
   * The preparation of `rand_perm` from the all-zero state leaves the
   * register in the basis state whose packed bits are `rand_perm`.
   */
  lemma PrepReachesPerm(n: nat, perm: nat)
    requires perm < Pow2(n)
    ensures Flip(Zeros(n), Prep(n, perm)) == Bits(perm, n)
    ensures Pack(Flip(Zeros(n), Prep(n, perm))) == perm
  {
    PrepFlips(n, perm, n);
    var s := Flip(Zeros(n), Prep(n, perm));
    forall q | 0 <= q < n ensures s[q] == Bits(perm, n)[q] {
      BitsAt(perm, n, q);
    }
    PackBits(perm, n);
  }
}
