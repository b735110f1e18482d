/** `numMipLevels(...sizes)` (src/utils/numMipLevels.ts): the number of
    levels of a full mip chain for a texture whose largest dimension is the
    largest of `sizes`, computed as `(1 + Math.log2(max)) | 0`. Sizes are
    texture dimensions, so naturals. */
module MipLevels {

  function Pow2(k: nat): (r: nat)
    ensures r >= 1
  {
    if k == 0 then 1 else 2 * Pow2(k - 1)
  }

  lemma Pow2Monotone(i: nat, j: nat)
    requires i <= j
    ensures Pow2(i) <= Pow2(j)
  {
    if i < j {
      Pow2Monotone(i, j - 1);
    }
  }

  /** `Math.log2(n) | 0` for `n >= 1`: the exponent of the largest power of
      two not above `n`. */
  function FloorLog2(n: nat): (k: nat)
    requires n >= 1
    ensures Pow2(k) <= n < Pow2(k + 1)
  {
    if n == 1 then 0 else 1 + FloorLog2(n / 2)
  }

  /** `FloorLog2` is the only exponent that brackets `n`. */
  lemma {:induction false} FloorLog2Unique(n: nat, k: nat)
    requires Pow2(k) <= n < Pow2(k + 1)
    ensures FloorLog2(n) == k
  {
    var j := FloorLog2(n);
    if j < k {
      Pow2Monotone(j + 1, k);
    } else if k < j {
      Pow2Monotone(k + 1, j);
    }
  }

  lemma FloorLog2Monotone(m: nat, n: nat)
    requires 1 <= m <= n
    ensures FloorLog2(m) <= FloorLog2(n)
  {
    var i, j := FloorLog2(m), FloorLog2(n);
    if j < i {
      Pow2Monotone(j + 1, i);
    }
  }

  /** The number of binary digits of `m` (0 for 0): a reference definition
      independent of logarithms. */
  function BitLength(m: nat): nat {
    if m == 0 then 0 else 1 + BitLength(m / 2)
  }

  /** `Math.max(...sizes)` over a non-empty list. */
  function Max(sizes: seq<nat>): (m: nat)
    requires |sizes| >= 1
    ensures m in sizes
    ensures forall s :: s in sizes ==> s <= m
  {
    if |sizes| == 1 then sizes[0]
    else
      var rest := Max(sizes[1..]);
      assert forall s :: s in sizes ==> s == sizes[0] || s in sizes[1..];
      if sizes[0] >= rest then sizes[0] else rest
  }

  /** `numMipLevels(...sizes)`. With no argument `Math.max()` is `-Infinity`
      and with a largest size of 0 `Math.log2(0)` is `-Infinity`; either way
      `| 0` turns the non-finite sum into 0. Otherwise the result is one more
      than the floor of the logarithm of the largest size. */
  function NumMipLevels(sizes: seq<nat>): (n: nat)
    ensures |sizes| == 0 ==> n == 0
    ensures |sizes| >= 1 && Max(sizes) == 0 ==> n == 0
    ensures |sizes| >= 1 && Max(sizes) >= 1 ==> n >= 1 && Pow2(n - 1) <= Max(sizes) < Pow2(n)
  {
    if |sizes| == 0 then 0
    else
      var m := Max(sizes);
      if m == 0 then 0 else 1 + FloorLog2(m)
  }

  /** The result is the bit length of the largest size. */
  lemma {:induction false} MipLevelsAreBitLength(sizes: seq<nat>)
    requires |sizes| >= 1
    ensures NumMipLevels(sizes) == BitLength(Max(sizes))
  {
    BitLengthBrackets(Max(sizes));
  }

  lemma {:induction false} BitLengthBrackets(m: nat)
    ensures m == 0 ==> BitLength(m) == 0
    ensures m >= 1 ==> BitLength(m) == 1 + FloorLog2(m)
  {
    if m >= 2 {
      BitLengthBrackets(m / 2);
      var k := FloorLog2(m / 2);
      assert Pow2(k + 1) <= m < Pow2(k + 2);
      FloorLog2Unique(m, k + 1);
    }
  }

  /** A largest size of exactly `2^k` gives `k + 1` levels. */
  lemma PowerOfTwoLevels(sizes: seq<nat>, k: nat)
    requires |sizes| >= 1 && Max(sizes) == Pow2(k)
    ensures NumMipLevels(sizes) == k + 1
  {
    FloorLog2Unique(Pow2(k), k);
  }

  /** Only the largest size matters, so the order of the arguments does not. */
  lemma PermutationInvariant(a: seq<nat>, b: seq<nat>)
    requires multiset(a) == multiset(b)
    ensures NumMipLevels(a) == NumMipLevels(b)
  {
    if |a| >= 1 {
      assert |b| == |multiset(b)| == |multiset(a)| == |a|;
      var ma, mb := Max(a), Max(b);
      assert ma in multiset(b) && mb in multiset(a);
      assert ma in b && mb in a;
      assert ma <= mb && mb <= ma;
    } else {
      assert |b| == |multiset(b)| == 0;
    }
  }

  /** Adding a size not above the current largest changes nothing. */
  lemma SmallerSizeChangesNothing(sizes: seq<nat>, s: nat)
    requires |sizes| >= 1 && s <= Max(sizes)
    ensures NumMipLevels(sizes + [s]) == NumMipLevels(sizes)
  {
    var t := sizes + [s];
    var m := Max(sizes);
    assert m in t && forall x :: x in t ==> x in sizes || x == s;
    assert Max(t) == m;
  }

  /** A larger largest size never gives fewer levels. */
  lemma MonotoneInMax(a: seq<nat>, b: seq<nat>)
    requires |a| >= 1 && |b| >= 1 && Max(a) <= Max(b)
    ensures NumMipLevels(a) <= NumMipLevels(b)
  {
    if Max(a) >= 1 {
      FloorLog2Monotone(Max(a), Max(b));
    }
  }
}
