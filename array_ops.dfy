/** The two JavaScript array operations the scene graph relies on:
    `Array.prototype.indexOf` (identity search, first occurrence, -1 when absent)
    and `splice(i, 1)` (delete one element in place, keeping the order of the rest). */
module ArrayOps {

  /** First index of `x` in `s`, or -1 when `x` does not occur. */
  function IndexOf<T(==)>(s: seq<T>, x: T): (r: int)
    ensures -1 <= r < |s|
    ensures r == -1 <==> x !in s
    ensures r >= 0 ==> s[r] == x && x !in s[..r]
  {
    if |s| == 0 then -1
    else if s[0] == x then 0
    else
      var k := IndexOf(s[1..], x);
      if k == -1 then -1
      else
        assert s[..k + 1] == [s[0]] + s[1..][..k];
        k + 1
  }

  /** `splice(i, 1)`: the sequence without its element at index `i`. */
  function SpliceOut<T>(s: seq<T>, i: nat): (r: seq<T>)
    requires i < |s|
    ensures |r| == |s| - 1
    ensures forall j :: 0 <= j < i ==> r[j] == s[j]
    ensures forall j :: i <= j < |r| ==> r[j] == s[j + 1]
    ensures multiset(r) == multiset(s) - multiset{s[i]}
  {
    assert s == s[..i] + [s[i]] + s[i + 1..];
    s[..i] + s[i + 1..]
  }

  /** What `remove` leaves in a children list: the first occurrence of `x`
      spliced out, or the list itself when `x` is not in it. */
  function Without<T(==)>(s: seq<T>, x: T): (r: seq<T>)
    ensures x !in s ==> r == s
    ensures x in s ==> |r| == |s| - 1 && multiset(r) == multiset(s) - multiset{x}
    ensures forall y :: y in r ==> y in s
  {
    var i := IndexOf(s, x);
    if i == -1 then s
    else
      var r := SpliceOut(s, i);
      assert forall y :: y in r ==> y in multiset(s);
      r
  }

  /** No element occurs twice. */
  predicate NoDuplicates<T(==)>(s: seq<T>) {
    forall i, j :: 0 <= i < j < |s| ==> s[i] != s[j]
  }

  /** Splicing out the (only) occurrence of `x` keeps a duplicate-free list
      duplicate-free and leaves no `x` behind. */
  lemma WithoutKeepsNoDuplicates<T>(s: seq<T>, x: T)
    requires NoDuplicates(s)
    ensures NoDuplicates(Without(s, x))
    ensures x !in Without(s, x)
  {
    var i := IndexOf(s, x);
    if i != -1 {
      var r := Without(s, x);
      assert r == SpliceOut(s, i);
      forall a, b | 0 <= a < b < |r| ensures r[a] != r[b] {
        var a' := if a < i then a else a + 1;
        var b' := if b < i then b else b + 1;
        assert r[a] == s[a'] && r[b] == s[b'] && a' < b';
      }
      forall k | 0 <= k < |r| ensures r[k] != x {
        var k' := if k < i then k else k + 1;
        assert r[k] == s[k'] && k' != i;
      }
    }
  }

  /** Appending an element that is not yet present keeps a list duplicate-free. */
  lemma AppendKeepsNoDuplicates<T>(s: seq<T>, x: T)
    requires NoDuplicates(s) && x !in s
    ensures NoDuplicates(s + [x])
  {
    var r := s + [x];
    forall a, b | 0 <= a < b < |r| ensures r[a] != r[b] {
      if b == |s| {
        assert r[a] == s[a] && r[b] == x;
      } else {
        assert r[a] == s[a] && r[b] == s[b];
      }
    }
  }
}
