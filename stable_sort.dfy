/** Python's `list.sort(key=...)`: a stable sort, ascending by a real key.
    `sort(key=k, reverse=True)` is also stable, so it is the same sort by the
    key `-k`. `Sorted` is the insertion sort as a function; `SortInPlace` runs
    it on an array. */
module StableSort {

  /** Where a scan from the end of `s` stops for `x`: just after the last
      element whose key is at most key(x). */
  function Pos<T>(s: seq<T>, x: T, key: T -> real): (p: nat)
    ensures p <= |s|
    ensures forall j :: p <= j < |s| ==> key(s[j]) > key(x)
    ensures p > 0 ==> key(s[p - 1]) <= key(x)
    decreases |s|
  {
    if s == [] || key(s[|s| - 1]) <= key(x) then |s|
    else
      var p := Pos(s[..|s| - 1], x, key);
      assert forall j :: p <= j < |s| - 1 ==> s[..|s| - 1][j] == s[j];
      p
  }

  /** `x` placed after every element whose key is at most its own. */
  function Insert<T>(s: seq<T>, x: T, key: T -> real): seq<T> {
    var p := Pos(s, x, key);
    s[..p] + [x] + s[p..]
  }

  /** The result of the stable sort. */
  function Sorted<T>(s: seq<T>, key: T -> real): seq<T>
    decreases |s|
  {
    if s == [] then [] else Insert(Sorted(s[..|s| - 1], key), s[|s| - 1], key)
  }

  predicate Ascending<T>(s: seq<T>, key: T -> real) {
    forall i, j :: 0 <= i < j < |s| ==> key(s[i]) <= key(s[j])
  }

  /** The elements of `s` whose key is v, in their order in `s`. */
  function WithKey<T>(s: seq<T>, key: T -> real, v: real): seq<T>
    decreases |s|
  {
    if s == [] then []
    else WithKey(s[..|s| - 1], key, v) + (if key(s[|s| - 1]) == v then [s[|s| - 1]] else [])
  }

  lemma {:induction false} WithKeyConcat<T>(s: seq<T>, t: seq<T>, key: T -> real, v: real)
    ensures WithKey(s + t, key, v) == WithKey(s, key, v) + WithKey(t, key, v)
    decreases |t|
  {
    if t == [] {
      assert s + t == s;
    } else {
      var n := |t| - 1;
      assert (s + t)[..|s + t| - 1] == s + t[..n];
      WithKeyConcat(s, t[..n], key, v);
    }
  }

  lemma {:induction false} WithKeyNone<T>(s: seq<T>, key: T -> real, v: real)
    requires forall j :: 0 <= j < |s| ==> key(s[j]) != v
    ensures WithKey(s, key, v) == []
    decreases |s|
  {
    if s != [] {
      WithKeyNone(s[..|s| - 1], key, v);
    }
  }

  lemma InsertAt<T>(t: seq<T>, x: T, key: T -> real, i: nat)
    requires i <= |t|
    ensures |Insert(t, x, key)| == |t| + 1
    ensures var p := Pos(t, x, key);
      Insert(t, x, key)[i] == if i < p then t[i] else if i == p then x else t[i - 1]
  {
  }

  lemma InsertAscending<T>(t: seq<T>, x: T, key: T -> real)
    requires Ascending(t, key)
    ensures Ascending(Insert(t, x, key), key)
  {
    var p := Pos(t, x, key);
    var r := Insert(t, x, key);
    forall i, j | 0 <= i < j < |r| ensures key(r[i]) <= key(r[j]) {
      InsertAt(t, x, key, i);
      InsertAt(t, x, key, j);
      if i < p {
        assert key(t[i]) <= key(t[p - 1]) <= key(x);
      }
    }
  }

  lemma InsertMultiset<T>(t: seq<T>, x: T, key: T -> real)
    ensures multiset(Insert(t, x, key)) == multiset(t) + multiset{x}
  {
    var p := Pos(t, x, key);
    assert t == t[..p] + t[p..];
  }

  /** Inserting x adds it after every element of equal key. */
  lemma WithKeyInsert<T>(t: seq<T>, x: T, key: T -> real, v: real)
    ensures WithKey(Insert(t, x, key), key, v) == WithKey(t, key, v) + (if key(x) == v then [x] else [])
  {
    var p := Pos(t, x, key);
    assert t == t[..p] + t[p..];
    WithKeySplice(t[..p], t[p..], x, key, v);
  }

  /** x placed before elements of larger keys only comes last among its key. */
  lemma WithKeySplice<T>(front: seq<T>, back: seq<T>, x: T, key: T -> real, v: real)
    requires forall j :: 0 <= j < |back| ==> key(back[j]) > key(x)
    ensures WithKey(front + [x] + back, key, v) == WithKey(front + back, key, v) + (if key(x) == v then [x] else [])
  {
    var mid := if key(x) == v then [x] else [];
    var f, b := WithKey(front, key, v), WithKey(back, key, v);
    WithKeyConcat(front + [x], back, key, v);
    WithKeyConcat(front, [x], key, v);
    WithKeyConcat(front, back, key, v);
    assert [x][..0] == [];
    assert WithKey([x], key, v) == mid;
    if key(x) == v {
      WithKeyNone(back, key, v);
      assert f + mid + b == (f + b) + mid;
    } else {
      assert f + mid + b == (f + b) + mid;
    }
  }

  /** The output is in ascending key order. */
  lemma {:induction false} SortedAscending<T>(s: seq<T>, key: T -> real)
    ensures Ascending(Sorted(s, key), key)
    decreases |s|
  {
    if s != [] {
      SortedAscending(s[..|s| - 1], key);
      InsertAscending(Sorted(s[..|s| - 1], key), s[|s| - 1], key);
    }
  }

  /** The output is a permutation of the input. */
  lemma {:induction false} SortedPermutation<T>(s: seq<T>, key: T -> real)
    ensures multiset(Sorted(s, key)) == multiset(s)
    decreases |s|
  {
    if s != [] {
      var n := |s| - 1;
      SortedPermutation(s[..n], key);
      InsertMultiset(Sorted(s[..n], key), s[n], key);
      assert s == s[..n] + [s[n]];
    }
  }

  /** The sort is stable: elements with equal keys keep their input order. */
  lemma {:induction false} SortedStable<T>(s: seq<T>, key: T -> real, v: real)
    ensures WithKey(Sorted(s, key), key, v) == WithKey(s, key, v)
    decreases |s|
  {
    if s != [] {
      var n := |s| - 1;
      SortedStable(s[..n], key, v);
      WithKeyInsert(Sorted(s[..n], key), s[n], key, v);
    }
  }

  /** Pos is the point where the scan stops: every key after it is larger
      than key(x), and the key before it is not. */
  lemma {:induction false} PosAt<T>(s: seq<T>, x: T, key: T -> real, j: nat)
    requires j <= |s|
    requires forall k :: j <= k < |s| ==> key(s[k]) > key(x)
    requires j == 0 || key(s[j - 1]) <= key(x)
    ensures Pos(s, x, key) == j
    decreases |s|
  {
    if j < |s| {
      var init := s[..|s| - 1];
      assert forall k :: j <= k < |init| ==> init[k] == s[k];
      assert j > 0 ==> init[j - 1] == s[j - 1];
      PosAt(init, x, key, j);
    }
  }

  /** The shifting loop: every element of a[..i] with a key above key(x) moves
      one place right, leaving a gap at the insertion point j. */
  method ShiftRight<T>(a: array<T>, i: nat, x: T, key: T -> real) returns (j: nat)
    requires i < a.Length
    modifies a
    ensures j == Pos(old(a[..i]), x, key)
    ensures forall k :: 0 <= k < j ==> a[k] == old(a[k])
    ensures forall k :: j < k <= i ==> a[k] == old(a[k - 1])
    ensures forall k :: i < k < a.Length ==> a[k] == old(a[k])
  {
    ghost var t := a[..i];
    j := i;
    while j > 0 && key(a[j - 1]) > key(x)
      invariant 0 <= j <= i
      invariant forall k :: 0 <= k < j ==> a[k] == t[k]
      invariant forall k :: j < k <= i ==> a[k] == t[k - 1]
      invariant forall k :: i < k < a.Length ==> a[k] == old(a[k])
      invariant forall k :: j <= k < i ==> key(t[k]) > key(x)
    {
      assert a[j - 1] == t[j - 1];
      ghost var before := a[..];
      a[j] := a[j - 1];
      forall k | j - 1 < k <= i ensures a[k] == t[k - 1] {
        if k > j {
          assert a[k] == before[k];
        }
      }
      j := j - 1;
    }
    assert j > 0 ==> a[j - 1] == t[j - 1];
    PosAt(t, x, key, j);
  }

  /** One pass of the outer loop: a[i] moves left past every larger key. */
  method InsertLast<T>(a: array<T>, i: nat, key: T -> real)
    requires i < a.Length
    modifies a
    ensures a[..i + 1] == Insert(old(a[..i]), old(a[i]), key)
    ensures a[i + 1..] == old(a[i + 1..])
  {
    var x := a[i];
    ghost var t := a[..i];
    var j := ShiftRight(a, i, x, key);
    a[j] := x;
    ghost var r := Insert(t, x, key);
    forall k | 0 <= k <= i ensures a[k] == r[k] {
      InsertAt(t, x, key, k);
    }
  }

  /** Sorting one more element inserts it into the sorted prefix. */
  lemma SortedStep<T>(s: seq<T>, i: nat, key: T -> real)
    requires i < |s|
    ensures Sorted(s[..i + 1], key) == Insert(Sorted(s[..i], key), s[i], key)
  {
    assert s[..i + 1][..i] == s[..i];
  }

  /** The insertion sort on an array, shifting larger elements right. */
  method SortInPlace<T>(a: array<T>, key: T -> real)
    modifies a
    ensures a[..] == Sorted(old(a[..]), key)
  {
    ghost var input := a[..];
    for i := 0 to a.Length
      invariant a[..i] == Sorted(input[..i], key)
      invariant a[i..] == input[i..]
    {
      assert a[i] == input[i];
      ghost var rest := a[i + 1..];
      assert rest == input[i + 1..];
      InsertLast(a, i, key);
      SortedStep(input, i, key);
    }
    assert a[..] == a[..a.Length];
    assert input == input[..a.Length];
  }
}
