/** The library sort, as a function: stable insertion by an order. What matters
    of it is that distinct elements have one sorted arrangement. */
module Sorting {

  type Order<!T> = (T, T) -> bool

  function InsertBy<T>(x: T, s: seq<T>, le: Order<T>): seq<T> {
    if s == [] then [x]
    else if le(x, s[0]) then [x] + s
    else [s[0]] + InsertBy(x, s[1..], le)
  }

  function SortBy<T>(s: seq<T>, le: Order<T>): seq<T> {
    if s == [] then [] else InsertBy(s[0], SortBy(s[1..], le), le)
  }

  ghost predicate TotalOrder<T(!new)>(le: Order<T>) {
    && (forall x, y :: le(x, y) || le(y, x))
    && (forall x, y, z :: le(x, y) && le(y, z) ==> le(x, z))
  }

  predicate SortedBy<T>(s: seq<T>, le: Order<T>) {
    forall i, j :: 0 <= i < j < |s| ==> le(s[i], s[j])
  }

  /** No two different elements tie. */
  ghost predicate Untied<T(!new)>(s: seq<T>, le: Order<T>) {
    forall x, y :: x in s && y in s && le(x, y) && le(y, x) ==> x == y
  }

  lemma {:induction false} InsertSorts<T(!new)>(x: T, s: seq<T>, le: Order<T>)
    requires TotalOrder(le) && SortedBy(s, le)
    ensures SortedBy(InsertBy(x, s, le), le) && multiset(InsertBy(x, s, le)) == multiset{x} + multiset(s)
  {
    if s != [] {
      assert s == [s[0]] + s[1..];
      if !le(x, s[0]) {
        InsertSorts(x, s[1..], le);
        var t := InsertBy(x, s[1..], le);
        forall k | 0 <= k < |t|
          ensures le(s[0], t[k])
        {
          assert t[k] in multiset(t);
          assert t[k] == x || t[k] in s[1..];
        }
      }
    }
  }

  lemma {:induction false} SortSorts<T(!new)>(s: seq<T>, le: Order<T>)
    requires TotalOrder(le)
    ensures SortedBy(SortBy(s, le), le) && multiset(SortBy(s, le)) == multiset(s)
  {
    if s != [] {
      SortSorts(s[1..], le);
      InsertSorts(s[0], SortBy(s[1..], le), le);
      assert s == [s[0]] + s[1..];
    }
  }

  lemma CancelOne<T>(m: multiset<T>, n: multiset<T>, x: T)
    requires m + multiset{x} == n + multiset{x}
    ensures m == n
  {
    assert m == m + multiset{x} - multiset{x};
    assert n == n + multiset{x} - multiset{x};
  }

  lemma Middle<T>(l: seq<T>, x: T, r: seq<T>)
    ensures multiset(l + [x] + r) == multiset(l + r) + multiset{x}
  {}

  lemma HeadAside<T>(s: seq<T>)
    requires s != []
    ensures multiset(s) == multiset(s[1..]) + multiset{s[0]}
  {
    Middle([], s[0], s[1..]);
    assert s == [] + [s[0]] + s[1..] && [] + s[1..] == s[1..];
  }

  lemma SameElements<T>(a: seq<T>, b: seq<T>)
    requires multiset(a) == multiset(b)
    ensures |a| == |b| && forall x :: x in a <==> x in b
  {
    assert |multiset(a)| == |a| && |multiset(b)| == |b|;
    forall x ensures x in a <==> x in b {
      assert x in multiset(a) <==> x in multiset(b);
    }
  }

  /** Untied elements have one sorted arrangement. */
  lemma {:induction false} SortedIsUnique<T(!new)>(a: seq<T>, b: seq<T>, le: Order<T>)
    requires TotalOrder(le) && SortedBy(a, le) && SortedBy(b, le) && multiset(a) == multiset(b) && Untied(a, le)
    ensures a == b
  {
    SameElements(a, b);
    if a != [] {
      SameFirst(a, b, le);
      HeadAside(a);
      HeadAside(b);
      CancelOne(multiset(a[1..]), multiset(b[1..]), a[0]);
      assert a == [a[0]] + a[1..] && b == [b[0]] + b[1..];
      assert Untied(a[1..], le) by { assert forall x :: x in a[1..] ==> x in a; }
      SortedIsUnique(a[1..], b[1..], le);
    }
  }

  lemma SameFirst<T(!new)>(a: seq<T>, b: seq<T>, le: Order<T>)
    requires TotalOrder(le) && SortedBy(a, le) && SortedBy(b, le) && multiset(a) == multiset(b) && Untied(a, le)
    requires a != [] && b != []
    ensures a[0] == b[0]
  {
    SameElements(a, b);
    assert a[0] in b && b[0] in a;
    var i :| 0 <= i < |b| && b[i] == a[0];
    var j :| 0 <= j < |a| && a[j] == b[0];
    assert le(a[0], b[0]) && le(b[0], a[0]);
  }

  /** Shuffling untied elements does not change how they sort. */
  lemma ShuffleSorts<T(!new)>(a: seq<T>, b: seq<T>, le: Order<T>)
    requires TotalOrder(le) && multiset(a) == multiset(b) && Untied(a, le)
    ensures SortBy(a, le) == SortBy(b, le)
  {
    SortSorts(a, le);
    SortSorts(b, le);
    SameElements(a, SortBy(a, le));
    SortedIsUnique(SortBy(a, le), SortBy(b, le), le);
  }
}
