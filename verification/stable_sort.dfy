/**
 * `Array.prototype.sort` with a comparator of the form `(a, b) => key(b) - key(a)`: a stable sort
 * into non-increasing key order (the language guarantees stability since ECMAScript 2019).
 * `SortDesc` is the specification (a stable insertion sort on values); `SortInPlace` is the
 * in-place version on an array, proved to compute it.
 */
module StableSort {
  import opened Seqs

  predicate SortedDesc<T>(s: seq<T>, key: T -> real) {
    forall i, j :: 0 <= i < j < |s| ==> key(s[i]) >= key(s[j])
  }

  /** Where `x` goes in `t`: in front of the first element with a smaller key. */
  function InsertPos<T>(t: seq<T>, x: T, key: T -> real): (k: nat)
    ensures k <= |t|
    ensures forall i :: 0 <= i < k ==> key(t[i]) >= key(x)
    ensures k < |t| ==> key(t[k]) < key(x)
    decreases |t|
  {
    if t == [] || key(t[0]) < key(x) then 0 else 1 + InsertPos(t[1..], x, key)
  }

  function Insert<T>(t: seq<T>, x: T, key: T -> real): seq<T> {
    var k := InsertPos(t, x, key);
    t[..k] + [x] + t[k..]
  }

  /** The stable descending sort: each element is inserted after every earlier one with a key at least its own. */
  function SortDesc<T>(s: seq<T>, key: T -> real): seq<T>
    decreases |s|
  {
    if s == [] then [] else Insert(SortDesc(s[..|s| - 1], key), s[|s| - 1], key)
  }

  /** The elements of `s` whose key is exactly `v`, in order. */
  function WithKey<T>(s: seq<T>, v: real, key: T -> real): seq<T>
    decreases |s|
  {
    if s == [] then [] else (if key(s[0]) == v then [s[0]] else []) + WithKey(s[1..], v, key)
  }

  lemma {:induction false} WithKeyAppend<T>(a: seq<T>, b: seq<T>, v: real, key: T -> real)
    ensures WithKey(a + b, v, key) == WithKey(a, v, key) + WithKey(b, v, key)
    decreases |a|
  {
    if a == [] {
      assert a + b == b;
    } else {
      var ab := a + b;
      assert ab[0] == a[0];
      assert ab[1..] == a[1..] + b;
      WithKeyAppend(a[1..], b, v, key);
      calc {
        WithKey(ab, v, key);
        (if key(a[0]) == v then [a[0]] else []) + WithKey(a[1..] + b, v, key);
        (if key(a[0]) == v then [a[0]] else []) + (WithKey(a[1..], v, key) + WithKey(b, v, key));
      }
    }
  }

  lemma {:induction false} WithKeyNone<T>(s: seq<T>, v: real, key: T -> real)
    requires forall i :: 0 <= i < |s| ==> key(s[i]) != v
    ensures WithKey(s, v, key) == []
    decreases |s|
  {
    if s != [] {
      WithKeyNone(s[1..], v, key);
    }
  }

  lemma {:induction false} InsertSorted<T>(t: seq<T>, x: T, key: T -> real)
    requires SortedDesc(t, key)
    ensures SortedDesc(Insert(t, x, key), key)
  {
    var k := InsertPos(t, x, key);
    var r := t[..k] + [x] + t[k..];
    assert r == Insert(t, x, key);
    assert |r| == |t| + 1;
    assert forall i :: 0 <= i < k ==> r[i] == t[i];
    assert r[k] == x;
    assert forall i :: k < i < |r| ==> r[i] == t[i - 1];
    forall i, j | 0 <= i < j < |r| ensures key(r[i]) >= key(r[j]) {
      if i == k {
        assert key(r[j]) == key(t[j - 1]);
        assert key(t[j - 1]) <= key(t[k]) < key(x);
      } else if j == k {
        assert key(t[i]) >= key(x);
      } else {
        var a := if i < k then i else i - 1;
        var b := if j < k then j else j - 1;
        assert r[i] == t[a] && r[j] == t[b] && a < b;
      }
    }
  }

  lemma {:induction false} InsertMultiset<T>(t: seq<T>, x: T, key: T -> real)
    ensures multiset(Insert(t, x, key)) == multiset(t) + multiset{x}
    ensures |Insert(t, x, key)| == |t| + 1
  {
    var k := InsertPos(t, x, key);
    assert t == t[..k] + t[k..];
    assert Insert(t, x, key) == t[..k] + [x] + t[k..];
  }

  lemma WithKeySingle<T>(x: T, v: real, key: T -> real)
    ensures WithKey([x], v, key) == if key(x) == v then [x] else []
  {
    assert [x][1..] == [];
  }

  /** Inserting into a sorted sequence adds `x` at the end of the run of its own key. */
  lemma {:induction false} InsertWithKey<T>(t: seq<T>, x: T, key: T -> real, v: real)
    requires SortedDesc(t, key)
    ensures WithKey(Insert(t, x, key), v, key) == WithKey(t, v, key) + (if key(x) == v then [x] else [])
  {
    InsertSplitsWithKey(t, x, key, v);
    WithKeySingle(x, v, key);
    if key(x) == v {
      PastInsertPos(t, x, key);
    }
  }

  lemma InsertSplitsWithKey<T>(t: seq<T>, x: T, key: T -> real, v: real)
    ensures WithKey(Insert(t, x, key), v, key)
         == WithKey(t[..InsertPos(t, x, key)], v, key) + WithKey([x], v, key) + WithKey(t[InsertPos(t, x, key)..], v, key)
    ensures WithKey(t, v, key) == WithKey(t[..InsertPos(t, x, key)], v, key) + WithKey(t[InsertPos(t, x, key)..], v, key)
  {
    var k := InsertPos(t, x, key);
    var pre, post := t[..k], t[k..];
    assert t == pre + post;
    assert Insert(t, x, key) == (pre + [x]) + post;
    WithKeyAppend(pre, post, v, key);
    WithKeyAppend(pre + [x], post, v, key);
    WithKeyAppend(pre, [x], v, key);
  }

  /** No element after the insertion point has the key of the inserted element. */
  lemma PastInsertPos<T>(t: seq<T>, x: T, key: T -> real)
    requires SortedDesc(t, key)
    ensures WithKey(t[InsertPos(t, x, key)..], key(x), key) == []
  {
    var k := InsertPos(t, x, key);
    var post := t[k..];
    forall i | 0 <= i < |post| ensures key(post[i]) != key(x) {
      assert post[i] == t[k + i];
      assert key(t[k + i]) <= key(t[k]);
    }
    WithKeyNone(post, key(x), key);
  }

  /** The sort is a permutation, its output is non-increasing, and elements with equal keys keep their order. */
  lemma {:induction false} SortDescCorrect<T>(s: seq<T>, key: T -> real)
    ensures |SortDesc(s, key)| == |s|
    ensures SortedDesc(SortDesc(s, key), key)
    ensures multiset(SortDesc(s, key)) == multiset(s)
    ensures forall v :: WithKey(SortDesc(s, key), v, key) == WithKey(s, v, key)
    decreases |s|
  {
    if s != [] {
      var init, x := s[..|s| - 1], s[|s| - 1];
      assert s == init + [x];
      SortDescCorrect(init, key);
      var t := SortDesc(init, key);
      InsertSorted(t, x, key);
      InsertMultiset(t, x, key);
      forall v ensures WithKey(SortDesc(s, key), v, key) == WithKey(s, v, key) {
        SortStepWithKey(init, x, key, v);
      }
    }
  }

  /** One insertion step keeps the elements of each key in input order. */
  lemma SortStepWithKey<T>(init: seq<T>, x: T, key: T -> real, v: real)
    requires SortedDesc(SortDesc(init, key), key)
    requires WithKey(SortDesc(init, key), v, key) == WithKey(init, v, key)
    ensures WithKey(SortDesc(init + [x], key), v, key) == WithKey(init + [x], v, key)
  {
    var s := init + [x];
    assert s[..|s| - 1] == init && s[|s| - 1] == x;
    InsertWithKey(SortDesc(init, key), x, key, v);
    WithKeyAppend(init, [x], v, key);
    WithKeySingle(x, v, key);
  }

  /** Every element of the input is in the output and vice versa. */
  lemma {:induction false} SortDescMembers<T>(s: seq<T>, key: T -> real)
    ensures forall y :: y in SortDesc(s, key) <==> y in s
  {
    SortDescCorrect(s, key);
    assert forall y :: y in SortDesc(s, key) <==> y in multiset(SortDesc(s, key));
  }

  /** The first element of the output carries the largest key. */
  lemma {:induction false} SortDescHeadIsMax<T>(s: seq<T>, key: T -> real)
    requires s != []
    ensures SortDesc(s, key) != []
    ensures forall i :: 0 <= i < |s| ==> key(SortDesc(s, key)[0]) >= key(s[i])
  {
    SortDescCorrect(s, key);
    var r := SortDesc(s, key);
    forall i | 0 <= i < |s| ensures key(r[0]) >= key(s[i]) {
      assert s[i] in multiset(r);
      var j :| 0 <= j < |r| && r[j] == s[i];
      assert j == 0 || key(r[0]) >= key(r[j]);
    }
  }

  /** An identity that is unique in the input stays unique in the output. */
  lemma {:induction false} SortDescDistinct<T, K>(s: seq<T>, key: T -> real, id: T -> K)
    requires forall i, j :: 0 <= i < j < |s| ==> id(s[i]) != id(s[j])
    ensures forall i, j :: 0 <= i < j < |SortDesc(s, key)| ==> id(SortDesc(s, key)[i]) != id(SortDesc(s, key)[j])
    decreases |s|
  {
    if s != [] {
      var init, x := s[..|s| - 1], s[|s| - 1];
      SortDescDistinct(init, key, id);
      var t := SortDesc(init, key);
      SortDescCorrect(init, key);
      forall m | 0 <= m < |t| ensures id(t[m]) != id(x) {
        assert t[m] in multiset(t);
        assert t[m] in multiset(init);
        var q :| 0 <= q < |init| && init[q] == t[m];
        assert init[q] == s[q];
      }
      InsertDistinct(t, x, key, id);
    }
  }

  /** Inserting an element whose identity is new keeps identities unique. */
  lemma InsertDistinct<T, K>(t: seq<T>, x: T, key: T -> real, id: T -> K)
    requires forall i, j :: 0 <= i < j < |t| ==> id(t[i]) != id(t[j])
    requires forall m :: 0 <= m < |t| ==> id(t[m]) != id(x)
    ensures forall i, j :: 0 <= i < j < |Insert(t, x, key)| ==> id(Insert(t, x, key)[i]) != id(Insert(t, x, key)[j])
  {
    var k := InsertPos(t, x, key);
    var r := Insert(t, x, key);
    assert r == t[..k] + [x] + t[k..];
    forall i, j | 0 <= i < j < |r| ensures id(r[i]) != id(r[j]) {
      var a := if i < k then i else if i == k then -1 else i - 1;
      var b := if j < k then j else if j == k then -1 else j - 1;
      if a >= 0 { assert r[i] == t[a]; } else { assert r[i] == x; }
      if b >= 0 { assert r[j] == t[b]; } else { assert r[j] == x; }
    }
  }

  /** The first `n` of the sorted sequence: at most `n` of them, in order, all from the input. */
  lemma TopOfSort<T>(s: seq<T>, key: T -> real, n: nat)
    ensures |Take(SortDesc(s, key), n)| <= n
    ensures SortedDesc(Take(SortDesc(s, key), n), key)
    ensures forall i :: 0 <= i < |Take(SortDesc(s, key), n)| ==> Take(SortDesc(s, key), n)[i] in s
  {
    SortDescCorrect(s, key);
    SortDescMembers(s, key);
    var r := SortDesc(s, key);
    forall i | 0 <= i < |Take(r, n)| ensures Take(r, n)[i] in s {
      assert Take(r, n)[i] == r[i];
    }
  }

  /**
   * Insertion sort of `a` in place, into non-increasing key order, keeping equal keys in their
   * original order.
   */
  method SortInPlace<T>(a: array<T>, key: T -> real)
    modifies a
    ensures a[..] == SortDesc(old(a[..]), key)
  {
    ghost var orig := a[..];
    var i := 0;
    while i < a.Length
      invariant 0 <= i <= a.Length
      invariant a[..i] == SortDesc(orig[..i], key)
      invariant a[i..] == orig[i..]
    {
      SortDescCorrect(orig[..i], key);
      InsertLast(a, i, key);
      assert orig[..i + 1][..i] == orig[..i];
      assert orig[..i + 1][i] == orig[i];
      i := i + 1;
    }
    assert a[..] == a[..a.Length] && orig == orig[..a.Length];
  }

  /** One step of the insertion sort: `a[i]` moves left into the sorted prefix `a[..i]`. */
  method InsertLast<T>(a: array<T>, i: nat, key: T -> real)
    requires i < a.Length
    requires SortedDesc(a[..i], key)
    modifies a
    ensures a[..i + 1] == Insert(old(a[..i]), old(a[i]), key)
    ensures a[i + 1..] == old(a[i + 1..])
  {
    ghost var t := a[..i];
    var x := a[i];
    var j := i;
    while j > 0 && key(a[j - 1]) < key(x)
      invariant 0 <= j <= i
      invariant forall m :: 0 <= m < j ==> a[m] == t[m]
      invariant forall m :: j < m <= i ==> a[m] == t[m - 1]
      invariant forall m :: j <= m < i ==> key(t[m]) < key(x)
      invariant forall m :: i < m < a.Length ==> a[m] == old(a[m])
    {
      a[j] := a[j - 1];
      j := j - 1;
    }
    a[j] := x;
    PlacedIsInsert(a, t, x, key, j);
  }

  /** An array whose first `|t| + 1` cells hold `t` with `x` placed at its insertion point holds `Insert(t, x, key)` there. */
  lemma {:induction false} PlacedIsInsert<T>(a: array<T>, t: seq<T>, x: T, key: T -> real, j: nat)
    requires SortedDesc(t, key)
    requires j <= |t| < a.Length
    requires forall m :: 0 <= m < j ==> a[m] == t[m]
    requires a[j] == x
    requires forall m :: j < m <= |t| ==> a[m] == t[m - 1]
    requires j > 0 ==> key(t[j - 1]) >= key(x)
    requires forall m :: j <= m < |t| ==> key(t[m]) < key(x)
    ensures a[..|t| + 1] == Insert(t, x, key)
  {
    InsertPosAt(t, x, key, j);
    var r := t[..j] + [x] + t[j..];
    forall m | 0 <= m < |t| + 1 ensures a[m] == r[m] {
      if m < j {
        assert r[m] == t[m];
      } else if m > j {
        assert r[m] == t[m - 1];
      }
    }
  }


  /** In a sorted sequence, a slot with larger-or-equal keys before it and smaller keys after it is the insertion point. */
  lemma {:induction false} InsertPosAt<T>(t: seq<T>, x: T, key: T -> real, j: nat)
    requires SortedDesc(t, key)
    requires j <= |t|
    requires j > 0 ==> key(t[j - 1]) >= key(x)
    requires forall m :: j <= m < |t| ==> key(t[m]) < key(x)
    ensures InsertPos(t, x, key) == j
    decreases |t|
  {
    if j > 0 {
      assert key(t[0]) >= key(t[j - 1]) || j - 1 == 0;
      InsertPosAt(t[1..], x, key, j - 1);
    }
  }
}
