/** Sorted tables: what qsort and bsearch promise, and what follows for distinct keys. */
module Sorting {

  /** Keys strictly increase. */
  ghost predicate Strict<T>(s: seq<T>, key: T -> int) {
    forall i, j :: 0 <= i < j < |s| ==> key(s[i]) < key(s[j])
  }

  ghost predicate Weak<T>(s: seq<T>, key: T -> int) {
    forall i, j :: 0 <= i < j < |s| ==> key(s[i]) <= key(s[j])
  }

  /** Position of the first element whose key is not below k. */
  function Place<T>(s: seq<T>, key: T -> int, k: int): (p: nat)
    ensures p <= |s|
    ensures forall i :: 0 <= i < p ==> key(s[i]) < k
    ensures p < |s| ==> key(s[p]) >= k
  {
    if s == [] || key(s[0]) >= k then 0 else 1 + Place(s[1..], key, k)
  }

  function Insert<T>(s: seq<T>, key: T -> int, x: T): (r: seq<T>) {
    var p := Place(s, key, key(x));
    s[..p] + [x] + s[p..]
  }

  lemma {:induction false} InsertWeak<T>(s: seq<T>, key: T -> int, x: T)
    requires Weak(s, key)
    ensures Weak(Insert(s, key, x), key)
    ensures multiset(Insert(s, key, x)) == multiset(s) + multiset{x}
  {
    var p := Place(s, key, key(x));
    assert s == s[..p] + s[p..];
  }

  lemma {:induction false} InsertStrict<T>(s: seq<T>, key: T -> int, x: T)
    requires Strict(s, key)
    requires forall i :: 0 <= i < |s| ==> key(s[i]) != key(x)
    ensures Strict(Insert(s, key, x), key)
  {
  }

  lemma {:induction false} TailMultiset<T>(s: seq<T>)
    requires s != []
    ensures multiset(s[1..]) == multiset(s) - multiset{s[0]}
  {
    assert s == [s[0]] + s[1..];
  }

  lemma {:induction false} SameFirst<T>(a: seq<T>, b: seq<T>, key: T -> int)
    requires a != [] && b != []
    requires Weak(a, key) && Strict(b, key) && multiset(a) == multiset(b)
    ensures a[0] == b[0]
  {
    assert a[0] in multiset(a) && b[0] in multiset(b);
    var i :| 0 <= i < |a| && a[i] == b[0];
    var j :| 0 <= j < |b| && b[j] == a[0];
    assert key(a[0]) <= key(a[i]);
  }

  /** A sorted arrangement of distinct keys is unique. */
  lemma {:induction false} SortedUnique<T>(a: seq<T>, b: seq<T>, key: T -> int)
    requires Weak(a, key) && Strict(b, key) && multiset(a) == multiset(b)
    ensures a == b
  {
    assert |a| == |multiset(a)| == |multiset(b)| == |b|;
    if a != [] {
      SameFirst(a, b, key);
      TailMultiset(a);
      TailMultiset(b);
      SortedUnique(a[1..], b[1..], key);
      forall i | 0 <= i < |a| ensures a[i] == b[i] {
        if i > 0 {
          assert a[i] == a[1..][i - 1];
        }
      }
    }
  }

  /** Sorting a sorted table with one new entry at its end inserts the entry. */
  lemma {:induction false} SortLast<T>(s: seq<T>, x: T, r: seq<T>, key: T -> int)
    requires Strict(s, key)
    requires forall i :: 0 <= i < |s| ==> key(s[i]) != key(x)
    requires Weak(r, key) && multiset(r) == multiset(s + [x])
    ensures r == Insert(s, key, x)
  {
    InsertStrict(s, key, x);
    InsertWeak(s, key, x);
    SortedUnique(r, Insert(s, key, x), key);
  }

  /** Stands for the C library's qsort; callers rely on its contract alone. */
  method Qsort<T>(s: seq<T>, key: T -> int) returns (r: seq<T>)
    ensures Weak(r, key) && multiset(r) == multiset(s)
  {
    r := [];
    for i := 0 to |s|
      invariant Weak(r, key) && multiset(r) == multiset(s[..i])
    {
      assert s[..i + 1] == s[..i] + [s[i]];
      hide Insert;
      InsertWeak(r, key, s[i]);
      r := Insert(r, key, s[i]);
    }
    assert s[..|s|] == s;
  }

  /** Binary search for a key. */
  method Bsearch<T>(s: seq<T>, key: T -> int, k: int) returns (i: int)
    requires Strict(s, key)
    ensures -1 <= i < |s|
    ensures i >= 0 ==> key(s[i]) == k
    ensures i == -1 ==> forall j :: 0 <= j < |s| ==> key(s[j]) != k
  {
    var low, high := 0, |s|;
    while low < high
      invariant 0 <= low <= high <= |s|
      invariant forall j :: 0 <= j < |s| && !(low <= j < high) ==> key(s[j]) != k
    {
      var mid := (low + high) / 2;
      if key(s[mid]) < k {
        low := mid + 1;
      } else if key(s[mid]) > k {
        high := mid;
      } else {
        return mid;
      }
    }
    return -1;
  }
}
