/**
 * The validation step of pyqrack_random_circuit.py: the sampled register
 * values are turned into hexadecimal keys, counted, and compared with a
 * reference histogram by `dict_diff`, the L1 distance over the union of the
 * keys with a missing key read as the default value; a distance above 1200
 * raises.
 */
module Distance {

  import opened Gates

  // ---------------------------------------------------------------------
  // Digits: `bin`, `hex` and `int(s, base)` on non-negative integers

  const DigitChars: string := "0123456789abcdef"

  /** The digit of value v, v < 16. */
  function DigitChar(v: nat): char
    requires v < 16
  {
    DigitChars[v]
  }

  /** The value of a digit character in `base`, None when it is not one. */
  function DigitValue(c: char, base: nat): Option<nat>
  {
    var v := if '0' <= c <= '9' then (c - '0') as int
             else if 'a' <= c <= 'f' then (c - 'a') as int + 10
             else base;
    if 0 <= v < base then Some(v) else None
  }

  lemma DigitRoundTrip(v: nat, base: nat)
    requires v < base <= 16
    ensures DigitValue(DigitChar(v), base) == Some(v)
  {
  }

  /** The digits of x in `base`, most significant first, without leading zeros ("0" for 0). */
  function Digits(x: nat, base: nat): (s: string)
    requires 2 <= base <= 16
    ensures |s| >= 1
    decreases x
  {
    if x < base then [DigitChar(x)] else Digits(x / base, base) + [DigitChar(x % base)]
  }

  /** `int(s, base)` on plain digit strings; None where Python raises ValueError. */
  function ParseDigits(s: string, base: nat): Option<nat>
    decreases |s|
  {
    if s == [] then None
    else
      var last := DigitValue(s[|s| - 1], base);
      if last.None? then None
      else if |s| == 1 then last
      else
        var init := s[..|s| - 1];
        match ParseDigits(init, base)
        case None => None
        case Some(high) => Some(high * base + last.value)
  }

  /** Parsing the digits of x gives x back. */
  lemma {:induction false} ParseDigitsRoundTrip(x: nat, base: nat)
    requires 2 <= base <= 16
    ensures ParseDigits(Digits(x, base), base) == Some(x)
    decreases x
  {
    var s := Digits(x, base);
    if x < base {
      DigitRoundTrip(x, base);
    } else {
      var q := x / base;
      var r := x % base;
      DivMod(x, base, q, r);
      DigitRoundTrip(r, base);
      ParseDigitsRoundTrip(q, base);
      assert s == Digits(q, base) + [DigitChar(r)];
      assert s[..|s| - 1] == Digits(q, base);
      assert s[|s| - 1] == DigitChar(r);
      assert ParseDigits(s, base) == Some(q * base + r);
    }
  }

  lemma DivMod(x: nat, base: nat, q: nat, r: nat)
    requires 2 <= base <= x && q == x / base && r == x % base
    ensures q * base + r == x && r < base && q < x
  {
  }

  /** `bin(x)`. */
  function Bin(x: nat): string
  {
    "0b" + Digits(x, 2)
  }

  /** `hex(x)`. */
  function Hex(x: nat): string
  {
    "0x" + Digits(x, 16)
  }

  /** Two values with the same `hex` are equal. */
  lemma HexInjective(a: nat, b: nat)
    ensures Hex(a) == Hex(b) <==> a == b
  {
    if Hex(a) == Hex(b) {
      assert Hex(a)[2..] == Digits(a, 16);
      assert Hex(b)[2..] == Digits(b, 16);
      ParseDigitsRoundTrip(a, 16);
      ParseDigitsRoundTrip(b, 16);
    }
  }

  /** The key of one sample: `hex(int(bin(sample)[2:], 2))`; None where `int` would raise. */
  function SampleKey(sample: nat): Option<string>
  {
    match ParseDigits(Bin(sample)[2..], 2)
    case None => None
    case Some(v) => Some(Hex(v))
  }

  /** The detour through `bin` and `int` never raises and gives `hex(sample)`. */
  lemma SampleKeyIsHex(sample: nat)
    ensures SampleKey(sample) == Some(Hex(sample))
  {
    assert Bin(sample)[2..] == Digits(sample, 2);
    ParseDigitsRoundTrip(sample, 2);
  }

  // ---------------------------------------------------------------------
  // The histogram

  /** The loop that builds qrack_result_list: one key per sample, in order. */
  method SampleKeys(samples: seq<nat>) returns (keys: seq<string>)
    ensures |keys| == |samples|
    ensures forall i | 0 <= i < |samples| :: keys[i] == Hex(samples[i])
  {
    keys := [];
    var i := 0;
    while i < |samples|
      invariant i <= |samples| && |keys| == i
      invariant forall j | 0 <= j < i :: keys[j] == Hex(samples[j])
    {
      SampleKeyIsHex(samples[i]);
      var key := ParseDigits(Bin(samples[i])[2..], 2);
      keys := keys + [Hex(key.value)];
      i := i + 1;
    }
  }

  /** `dict(Counter(keys))`: each key that occurs, with its number of occurrences. */
  method Tally(keys: seq<string>) returns (counts: map<string, int>)
    ensures counts.Keys == set k | k in keys
    ensures forall k | k in counts :: counts[k] == multiset(keys)[k]
  {
    counts := map[];
    var i := 0;
    while i < |keys|
      invariant i <= |keys|
      invariant counts.Keys == set k | k in keys[..i]
      invariant forall k | k in counts :: counts[k] == multiset(keys[..i])[k]
    {
      var k := keys[i];
      assert keys[..i + 1] == keys[..i] + [k];
      if k in counts {
        counts := counts[k := counts[k] + 1];
      } else {
        counts := counts[k := 1];
      }
      i := i + 1;
    }
    assert keys[..i] == keys;
  }

  /** The histogram counts each sampled value under its hexadecimal key. */
  lemma HistogramCounts(samples: seq<nat>, keys: seq<string>, v: nat)
    requires |keys| == |samples|
    requires forall i | 0 <= i < |samples| :: keys[i] == Hex(samples[i])
    ensures multiset(keys)[Hex(v)] == multiset(samples)[v]
    decreases |samples|
  {
    if samples != [] {
      var p := |samples| - 1;
      HistogramCounts(samples[..p], keys[..p], v);
      assert samples == samples[..p] + [samples[p]];
      assert keys == keys[..p] + [keys[p]];
      HexInjective(samples[p], v);
    }
  }

  // ---------------------------------------------------------------------
  // dict_diff

  /** `d.get(key, default_value)`. */
  function Get<K>(d: map<K, int>, key: K, dv: int): int
  {
    if key in d then d[key] else dv
  }

  function Abs(x: int): nat
  {
    if x < 0 then -x else x
  }

  /** The difference at one key. */
  function Gap<K>(d1: map<K, int>, d2: map<K, int>, dv: int, key: K): nat
  {
    Abs(Get(d1, key, dv) - Get(d2, key, dv))
  }

  /** The sum of the gaps over the keys ks, in any order. */
  ghost function L1<K>(d1: map<K, int>, d2: map<K, int>, dv: int, ks: set<K>): int
    decreases ks
  {
    if ks == {} then 0
    else
      var k :| k in ks;
      Gap(d1, d2, dv, k) + L1(d1, d2, dv, ks - {k})
  }

  /** The sum does not depend on which key is taken first. */
  lemma {:induction false} L1Remove<K>(d1: map<K, int>, d2: map<K, int>, dv: int, ks: set<K>, key: K)
    requires key in ks
    ensures L1(d1, d2, dv, ks) == Gap(d1, d2, dv, key) + L1(d1, d2, dv, ks - {key})
    decreases ks
  {
    var k :| k in ks && L1(d1, d2, dv, ks) == Gap(d1, d2, dv, k) + L1(d1, d2, dv, ks - {k});
    if k != key {
      L1Remove(d1, d2, dv, ks - {k}, key);
      L1Remove(d1, d2, dv, ks - {key}, k);
      assert ks - {k} - {key} == ks - {key} - {k};
    }
  }

  /** The keys dict_diff ranges over: `set(dict1.keys()) | set(dict2.keys())`. */
  function KeyUnion<K>(d1: map<K, int>, d2: map<K, int>): set<K>
  {
    d1.Keys + d2.Keys
  }

  /** dict_diff: the L1 distance over the union of the keys. */
  method DictDiff<K>(d1: map<K, int>, d2: map<K, int>, dv: int) returns (delta: int)
    ensures delta == L1(d1, d2, dv, KeyUnion(d1, d2))
  {
    delta := 0;
    var rest := KeyUnion(d1, d2);
    while rest != {}
      invariant delta + L1(d1, d2, dv, rest) == L1(d1, d2, dv, KeyUnion(d1, d2))
      decreases rest
    {
      var key :| key in rest;
      L1Remove(d1, d2, dv, rest, key);
      var val1 := if key in d1 then d1[key] else dv;
      var val2 := if key in d2 then d2[key] else dv;
      delta := delta + Abs(val1 - val2);
      rest := rest - {key};
    }
  }

  /** The distance is never negative, and it is 0 exactly when the dicts agree at every key of ks. */
  lemma {:induction false} L1Zero<K>(d1: map<K, int>, d2: map<K, int>, dv: int, ks: set<K>)
    ensures L1(d1, d2, dv, ks) >= 0
    ensures L1(d1, d2, dv, ks) == 0 <==> forall k | k in ks :: Get(d1, k, dv) == Get(d2, k, dv)
    decreases ks
  {
    if ks != {} {
      var k :| k in ks;
      L1Remove(d1, d2, dv, ks, k);
      L1Zero(d1, d2, dv, ks - {k});
    }
  }

  /** The distance is symmetric. */
  lemma {:induction false} L1Symmetric<K>(d1: map<K, int>, d2: map<K, int>, dv: int, ks: set<K>)
    ensures L1(d1, d2, dv, ks) == L1(d2, d1, dv, ks)
    decreases ks
  {
    if ks != {} {
      var k :| k in ks;
      L1Remove(d1, d2, dv, ks, k);
      L1Remove(d2, d1, dv, ks, k);
      L1Symmetric(d1, d2, dv, ks - {k});
    }
  }

  /** dict_diff is symmetric, and 0 for two equal dicts. */
  lemma DictDiffProperties<K>(d1: map<K, int>, d2: map<K, int>, dv: int)
    ensures L1(d1, d2, dv, KeyUnion(d1, d2)) == L1(d2, d1, dv, KeyUnion(d2, d1))
    ensures L1(d1, d1, dv, KeyUnion(d1, d1)) == 0
  {
    L1Symmetric(d1, d2, dv, KeyUnion(d1, d2));
    assert KeyUnion(d1, d2) == KeyUnion(d2, d1);
    L1Zero(d1, d1, dv, KeyUnion(d1, d1));
  }

  /**
   * With the default value 0, dict_diff is 0 exactly when the dicts give
   * every key the same count, a missing key counting as 0.
   */
  lemma DictDiffZero<K>(d1: map<K, int>, d2: map<K, int>)
    ensures L1(d1, d2, 0, KeyUnion(d1, d2)) == 0 <==> forall k :: Get(d1, k, 0) == Get(d2, k, 0)
  {
    L1Zero(d1, d2, 0, KeyUnion(d1, d2));
  }

  // ---------------------------------------------------------------------
  // The tolerance check

  datatype Outcome = Passed | NotWithinTolerance(l1diff: int)

  /** `if 1200 < l1diff: raise Exception(...)`. */
  function Tolerance(l1diff: int): (r: Outcome)
    ensures r.NotWithinTolerance? <==> l1diff > 1200
    ensures r.NotWithinTolerance? ==> r.l1diff == l1diff
  {
    if 1200 < l1diff then NotWithinTolerance(l1diff) else Passed
  }

  /** The comparison at the end of bench: the Qrack histogram against the reference counts. */
  method Validate(samples: seq<nat>, reference: map<string, int>) returns (r: Outcome)
    ensures r.NotWithinTolerance? <==> exists counts: map<string, int> ::
      counts.Keys == (set v | v in samples :: Hex(v))
      && (forall v | v in samples :: counts[Hex(v)] == multiset(samples)[v])
      && L1(counts, reference, 0, KeyUnion(counts, reference)) > 1200
  {
    var keys := SampleKeys(samples);
    var counts := Tally(keys);
    SameHistogram(samples, keys, counts);
    var l1diff := DictDiff(counts, reference, 0);
    r := Tolerance(l1diff);
    if !r.NotWithinTolerance? {
      forall other: map<string, int> |
        other.Keys == (set v | v in samples :: Hex(v))
        && (forall v | v in samples :: other[Hex(v)] == multiset(samples)[v])
        ensures L1(other, reference, 0, KeyUnion(other, reference)) <= 1200
      {
        Unique(samples, counts, other);
      }
    }
  }

  lemma SameHistogram(samples: seq<nat>, keys: seq<string>, counts: map<string, int>)
    requires |keys| == |samples|
    requires forall i | 0 <= i < |samples| :: keys[i] == Hex(samples[i])
    requires counts.Keys == set k | k in keys
    requires forall k | k in counts :: counts[k] == multiset(keys)[k]
    ensures counts.Keys == (set v | v in samples :: Hex(v))
    ensures forall v | v in samples :: counts[Hex(v)] == multiset(samples)[v]
  {
    forall k | k in counts ensures k in (set v | v in samples :: Hex(v)) {
      var i :| 0 <= i < |keys| && keys[i] == k;
      assert samples[i] in samples;
    }
    forall v | v in samples ensures Hex(v) in counts && counts[Hex(v)] == multiset(samples)[v] {
      var i :| 0 <= i < |samples| && samples[i] == v;
      assert keys[i] == Hex(v);
      HistogramCounts(samples, keys, v);
    }
  }

  /** The histogram of the samples is determined by them. */
  lemma Unique(samples: seq<nat>, a: map<string, int>, b: map<string, int>)
    requires a.Keys == (set v | v in samples :: Hex(v)) && b.Keys == a.Keys
    requires forall v | v in samples :: a[Hex(v)] == multiset(samples)[v]
    requires forall v | v in samples :: b[Hex(v)] == multiset(samples)[v]
    ensures a == b
  {
    forall k | k in a ensures a[k] == b[k] {
      var v :| v in samples && Hex(v) == k;
    }
  }
}
