/**
 * `Array.prototype.sort` with a comparator, which ECMA-262 (2019 edition
 * onward) requires to be stable. Every comparator of the application
 * orders by a key: `(a, b) => b.k - a.k` puts larger keys first, and the
 * explore page breaks ties on a second key. A key is therefore a pair
 * compared lexicographically, larger first; an ascending sort uses the
 * negated key.
 */
module Sorting {

  type Key = (int, int)

  /** Key a sorts strictly before key b. */
  predicate Above(a: Key, b: Key) {
    a.0 > b.0 || (a.0 == b.0 && a.1 > b.1)
  }

  /** No element is strictly above an element that precedes it. */
  predicate Ranked<T>(s: seq<T>, key: T -> Key) {
    forall i, j :: 0 <= i < j < |s| ==> !Above(key(s[j]), key(s[i]))
  }

  /** Inserts x before the first element it is strictly above, so after every element with an equal key. */
  function Insert<T>(s: seq<T>, x: T, key: T -> Key): (r: seq<T>)
    ensures |r| == |s| + 1
  {
    if s == [] then [x]
    else if Above(key(x), key(s[0])) then
      [x] + s
    else
      [s[0]] + Insert(s[1..], x, key)
  }

  /** Insertion adds x and loses nothing. */
  lemma {:induction false} InsertMultiset<T>(s: seq<T>, x: T, key: T -> Key)
    ensures multiset(Insert(s, x, key)) == multiset(s) + multiset{x}
  {
    if s != [] && !Above(key(x), key(s[0])) {
      InsertMultiset(s[1..], x, key);
      assert s == [s[0]] + s[1..];
    }
  }

  /** An element that no later element is strictly above can head a ranked sequence. */
  lemma RankedCons<T>(h: T, t: seq<T>, key: T -> Key)
    requires Ranked(t, key)
    requires forall k :: 0 <= k < |t| ==> !Above(key(t[k]), key(h))
    ensures Ranked([h] + t, key)
  {
    var r := [h] + t;
    forall i, j | 0 <= i < j < |r| ensures !Above(key(r[j]), key(r[i])) {
      assert r[j] == t[j - 1];
      if i > 0 {
        assert r[i] == t[i - 1];
      }
    }
  }

  /** Inserting an element not above h into a sequence with no element above h leaves no element above h. */
  lemma NoneAboveAfterInsert<T>(s: seq<T>, x: T, key: T -> Key, h: T)
    requires forall k :: 0 <= k < |s| ==> !Above(key(s[k]), key(h))
    requires !Above(key(x), key(h))
    ensures forall k :: 0 <= k < |Insert(s, x, key)| ==> !Above(key(Insert(s, x, key)[k]), key(h))
  {
    var t := Insert(s, x, key);
    InsertMultiset(s, x, key);
    forall j | 0 <= j < |t| ensures !Above(key(t[j]), key(h)) {
      assert t[j] in multiset(s) + multiset{x};
      if t[j] != x {
        assert t[j] in s;
        var k :| 0 <= k < |s| && s[k] == t[j];
      }
    }
  }

  /** Inserting into a ranked sequence keeps it ranked. */
  lemma {:induction false} InsertRanked<T>(s: seq<T>, x: T, key: T -> Key)
    requires Ranked(s, key)
    ensures Ranked(Insert(s, x, key), key)
  {
    if s == [] {
    } else if Above(key(x), key(s[0])) {
      forall k | 0 <= k < |s| ensures !Above(key(s[k]), key(x)) {
        assert k > 0 ==> !Above(key(s[k]), key(s[0]));
      }
      RankedCons(x, s, key);
    } else {
      var t := s[1..];
      InsertRanked(t, x, key);
      forall k | 0 <= k < |t| ensures !Above(key(t[k]), key(s[0])) {
        assert t[k] == s[k + 1];
      }
      NoneAboveAfterInsert(t, x, key, s[0]);
      RankedCons(s[0], Insert(t, x, key), key);
    }
  }

  /** The stable sort: elements are inserted one by one in their original order. */
  function SortBy<T>(s: seq<T>, key: T -> Key): (r: seq<T>)
    ensures |r| == |s|
    ensures multiset(r) == multiset(s)
    ensures Ranked(r, key)
  {
    if s == [] then []
    else
      assert s == s[..|s| - 1] + [s[|s| - 1]];
      var sorted := SortBy(s[..|s| - 1], key);
      InsertRanked(sorted, s[|s| - 1], key);
      InsertMultiset(sorted, s[|s| - 1], key);
      Insert(sorted, s[|s| - 1], key)
  }

  /** In a ranked sequence the primary key never rises, and the secondary key never rises while the primary key is equal. */
  lemma RankedDescends<T>(s: seq<T>, key: T -> Key)
    requires Ranked(s, key)
    ensures forall i, j :: 0 <= i < j < |s| ==> key(s[i]).0 >= key(s[j]).0
    ensures forall i, j :: 0 <= i < j < |s| && key(s[i]).0 == key(s[j]).0 ==> key(s[i]).1 >= key(s[j]).1
  {
    forall i, j | 0 <= i < j < |s| ensures key(s[i]).0 >= key(s[j]).0 {
      assert !Above(key(s[j]), key(s[i]));
    }
  }

  /** In a ranked sequence, an element not above s[j - 1] is above none of s[..j]. */
  lemma NotAboveAnyBefore<T>(s: seq<T>, x: T, key: T -> Key, j: nat)
    requires Ranked(s, key) && 0 < j <= |s|
    requires !Above(key(x), key(s[j - 1]))
    ensures forall k :: 0 <= k < j ==> !Above(key(x), key(s[k]))
  {
    forall k | 0 <= k < j ensures !Above(key(x), key(s[k])) {
      assert k < j - 1 ==> !Above(key(s[j - 1]), key(s[k]));
    }
  }

  /** Where the in-place sort puts x: after the prefix it is not above, before the rest. */
  lemma {:induction false} InsertAt<T>(s: seq<T>, x: T, key: T -> Key, j: nat)
    requires j <= |s|
    requires forall k :: 0 <= k < j ==> !Above(key(x), key(s[k]))
    requires forall k :: j <= k < |s| ==> Above(key(x), key(s[k]))
    ensures Insert(s, x, key) == s[..j] + [x] + s[j..]
  {
    if s == [] {
    } else if j == 0 {
      assert Above(key(x), key(s[0]));
    } else {
      var t := s[1..];
      assert !Above(key(x), key(s[0]));
      InsertAt(t, x, key, j - 1);
      calc {
        Insert(s, x, key);
        [s[0]] + (t[..j - 1] + [x] + t[j - 1..]);
        ([s[0]] + t[..j - 1]) + [x] + t[j - 1..];
        { assert s[..j] == [s[0]] + t[..j - 1]; assert s[j..] == t[j - 1..]; }
        s[..j] + [x] + s[j..];
      }
    }
  }

  /** One step of the in-place sort: moves a[i] left into the ranked prefix a[..i]. */
  method InsertInPlace<T>(a: array<T>, i: nat, key: T -> Key)
    requires i < a.Length && Ranked(a[..i], key)
    modifies a
    ensures a[..i + 1] == Insert(old(a[..i]), old(a[i]), key)
    ensures forall k :: i < k < a.Length ==> a[k] == old(a[k])
  {
    ghost var sorted := a[..i];
    var x := a[i];
    var j := i;
    while j > 0 && Above(key(x), key(a[j - 1]))
      invariant 0 <= j <= i
      invariant forall k :: 0 <= k < j ==> a[k] == sorted[k]
      invariant forall k :: j < k <= i ==> a[k] == sorted[k - 1]
      invariant forall k :: i < k < a.Length ==> a[k] == old(a[k])
      invariant forall k :: j <= k < i ==> Above(key(x), key(sorted[k]))
    {
      a[j] := a[j - 1];
      j := j - 1;
    }
    a[j] := x;
    if j > 0 {
      NotAboveAnyBefore(sorted, x, key, j);
    }
    InsertAt(sorted, x, key, j);
    Shifted(a[..i + 1], sorted, x, j);
  }

  /** The array after the shifting loop: the prefix, x, then the shifted rest. */
  lemma Shifted<T>(b: seq<T>, sorted: seq<T>, x: T, j: nat)
    requires |b| == |sorted| + 1 && j <= |sorted|
    requires forall k :: 0 <= k < j ==> b[k] == sorted[k]
    requires b[j] == x
    requires forall k :: j < k < |b| ==> b[k] == sorted[k - 1]
    ensures b == sorted[..j] + [x] + sorted[j..]
  {
    var c := sorted[..j] + [x] + sorted[j..];
    forall k | 0 <= k < |b| ensures b[k] == c[k] {
      if k < j {
        assert c[k] == sorted[k];
      } else if k > j {
        assert c[k] == sorted[k - 1];
      }
    }
  }

  /** `a.sort(cmp)` in place: the array ends as the stable sort of its old contents. */
  method SortInPlace<T>(a: array<T>, key: T -> Key)
    modifies a
    ensures a[..] == SortBy(old(a[..]), key)
  {
    ghost var orig := a[..];
    var i := 0;
    while i < a.Length
      invariant 0 <= i <= a.Length
      invariant a[..i] == SortBy(orig[..i], key)
      invariant forall k :: i <= k < a.Length ==> a[k] == orig[k]
    {
      ghost var prefix := orig[..i + 1];
      assert prefix[..i] == orig[..i];
      InsertInPlace(a, i, key);
      assert a[..i + 1] == SortBy(prefix, key);
      i := i + 1;
    }
    assert a[..] == a[..a.Length];
    assert orig == orig[..a.Length];
  }

  /** `[...s].sort(cmp)`: a fresh array holding s, sorted in place. */
  method SortedCopy<T>(s: seq<T>, key: T -> Key) returns (r: seq<T>)
    ensures r == SortBy(s, key)
  {
    var a := new T[|s|](k requires 0 <= k < |s| => s[k]);
    assert a[..] == s;
    SortInPlace(a, key);
    r := a[..];
  }
}
