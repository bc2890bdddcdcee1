/** The JavaScript array operations the services rely on: `findIndex`,
    `indexOf`, `splice(i, 1)`, and the "push unless included" idiom. */
module Lists {

  /** `Array.prototype.findIndex`: the first position whose element
      satisfies `p`, or -1. */
  function FindIndex<T>(s: seq<T>, p: T -> bool): (r: int)
    ensures -1 <= r < |s|
    ensures r == -1 <==> forall j :: 0 <= j < |s| ==> !p(s[j])
    ensures r >= 0 ==> p(s[r]) && forall j :: 0 <= j < r ==> !p(s[j])
  {
    if |s| == 0 then -1
    else if p(s[0]) then 0
    else
      var k := FindIndex(s[1..], p);
      if k == -1 then -1 else k + 1
  }

  /** `Array.prototype.indexOf` with strict equality. */
  function IndexOf<T(==)>(s: seq<T>, x: T): (r: int)
    ensures -1 <= r < |s|
    ensures r == -1 <==> x !in s
    ensures r >= 0 ==> s[r] == x && x !in s[..r]
  {
    FindIndex(s, y => y == x)
  }

  /** `splice(i, 1)`: the element at `i` goes, the rest keep their order. */
  function RemoveAt<T>(s: seq<T>, i: nat): (r: seq<T>)
    requires i < |s|
    ensures |r| == |s| - 1
    ensures forall j :: 0 <= j < i ==> r[j] == s[j]
    ensures forall j :: i <= j < |r| ==> r[j] == s[j + 1]
  {
    s[..i] + s[i + 1..]
  }

  predicate NoDuplicates<T(==)>(s: seq<T>)
  {
    forall i, j :: 0 <= i < j < |s| ==> s[i] != s[j]
  }

  /** No two elements share a key: a primary key or a unique column. */
  predicate UniqueBy<T, K(==)>(s: seq<T>, key: T -> K)
  {
    forall i, j :: 0 <= i < j < |s| ==> key(s[i]) != key(s[j])
  }

  /** Splicing one element out keeps the keys unique and leaves no element
      with the removed element's key. */
  lemma RemoveAtKeepsUniqueBy<T, K>(s: seq<T>, i: nat, key: T -> K)
    requires i < |s| && UniqueBy(s, key)
    ensures UniqueBy(RemoveAt(s, i), key)
    ensures forall j :: 0 <= j < |RemoveAt(s, i)| ==> key(RemoveAt(s, i)[j]) != key(s[i])
  {
    var r := RemoveAt(s, i);
    forall a, b | 0 <= a < b < |r| ensures key(r[a]) != key(r[b]) {
      var a' := if a < i then a else a + 1;
      var b' := if b < i then b else b + 1;
      assert r[a] == s[a'] && r[b] == s[b'];
    }
    forall j | 0 <= j < |r| ensures key(r[j]) != key(s[i]) {
      var j' := if j < i then j else j + 1;
      assert r[j] == s[j'];
    }
  }

  /** `if (list.includes(x)) return; list.push(x);` */
  function PushAbsent<T(==)>(s: seq<T>, x: T): (r: seq<T>)
    ensures x in r
    ensures x in s ==> r == s
    ensures x !in s ==> |r| == |s| + 1 && r[..|s|] == s && r[|s|] == x
  {
    if x in s then s else s + [x]
  }

  /** `const idx = list.indexOf(x); list.splice(idx, 1);` for a member: the
      first occurrence of `x` goes and everything else keeps its order. */
  function RemoveFirst<T(==)>(s: seq<T>, x: T): (r: seq<T>)
    requires x in s
    ensures |r| == |s| - 1
    ensures forall j :: 0 <= j < |r| ==> r[j] == s[if j < IndexOf(s, x) then j else j + 1]
  {
    RemoveAt(s, IndexOf(s, x))
  }

  /** Pushing twice is pushing once. */
  lemma PushAbsentIdempotent<T>(s: seq<T>, x: T)
    ensures PushAbsent(PushAbsent(s, x), x) == PushAbsent(s, x)
  {
  }

  /** Pushing keeps a duplicate-free list duplicate-free. */
  lemma PushAbsentNoDuplicates<T>(s: seq<T>, x: T)
    requires NoDuplicates(s)
    ensures NoDuplicates(PushAbsent(s, x))
  {
  }

  /** Removing from a duplicate-free list takes out exactly `x`: every other
      element stays, `x` is gone, the list stays duplicate-free and shrinks
      by one. */
  lemma RemoveFirstExactly<T>(s: seq<T>, x: T)
    requires NoDuplicates(s) && x in s
    ensures NoDuplicates(RemoveFirst(s, x))
    ensures x !in RemoveFirst(s, x)
    ensures forall y :: y != x ==> (y in RemoveFirst(s, x) <==> y in s)
    ensures |RemoveFirst(s, x)| == |s| - 1
  {
    var i := IndexOf(s, x);
    var r := RemoveFirst(s, x);
    forall a, b | 0 <= a < b < |r| ensures r[a] != r[b] {
      var a' := if a < i then a else a + 1;
      var b' := if b < i then b else b + 1;
      assert r[a] == s[a'] && r[b] == s[b'] && a' < b';
    }
    forall j | 0 <= j < |r| ensures r[j] != x {
      var j' := if j < i then j else j + 1;
      assert r[j] == s[j'] && j' != i;
    }
    forall y | y != x && y in s ensures y in r {
      var k :| 0 <= k < |s| && s[k] == y;
      assert k != i;
      if k < i { assert r[k] == y; } else { assert r[k - 1] == y; }
    }
  }

  /** Adding an absent element and then removing it restores the list. */
  lemma PushThenRemove<T>(s: seq<T>, x: T)
    requires x !in s
    ensures x in PushAbsent(s, x)
    ensures RemoveFirst(PushAbsent(s, x), x) == s
  {
    var t := s + [x];
    assert t[|s|] == x;
    var i := IndexOf(t, x);
    assert t[..i] == s[..i];
    assert i == |s|;
    assert t[..|s|] == s;
  }
}
