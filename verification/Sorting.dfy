/** Stable insertion sort, standing for the sort package, with what callers need of it. */
module Sorting {
  ghost predicate TotalPreorder<T(!new)>(le: (T, T) -> bool) {
    && (forall a, b :: le(a, b) || le(b, a))
    && (forall a, b, c :: le(a, b) && le(b, c) ==> le(a, c))
  }

  ghost predicate Sorted<T>(s: seq<T>, le: (T, T) -> bool) {
    forall i, j :: 0 <= i < j < |s| ==> le(s[i], s[j])
  }

  function Filter<T>(s: seq<T>, p: T -> bool): (r: seq<T>) {
    if s == [] then [] else (if p(s[0]) then [s[0]] else []) + Filter(s[1..], p)
  }

  /** Inserts x before the first element that is not below it. */
  function Insert<T>(x: T, s: seq<T>, le: (T, T) -> bool): (r: seq<T>)
    ensures multiset(r) == multiset(s) + multiset{x}
    ensures |r| == |s| + 1
  {
    if s == [] || le(x, s[0]) then [x] + s
    else
      assert s == [s[0]] + s[1..];
      [s[0]] + Insert(x, s[1..], le)
  }

  function Sort<T>(s: seq<T>, le: (T, T) -> bool): (r: seq<T>)
    ensures multiset(r) == multiset(s)
    ensures |r| == |s|
  {
    if s == [] then []
    else
      assert s == [s[0]] + s[1..];
      Insert(s[0], Sort(s[1..], le), le)
  }

  lemma {:induction false} InsertSorted<T(!new)>(x: T, s: seq<T>, le: (T, T) -> bool)
    requires TotalPreorder(le) && Sorted(s, le)
    ensures Sorted(Insert(x, s, le), le)
  {
    if s != [] && !le(x, s[0]) {
      InsertSorted(x, s[1..], le);
      var rest := Insert(x, s[1..], le);
      assert s == [s[0]] + s[1..];
      forall j | 0 <= j < |rest| ensures le(s[0], rest[j]) {
        assert rest[j] in multiset(rest);
        assert rest[j] == x || rest[j] in s[1..];
      }
    }
  }

  lemma {:induction false} SortSorted<T(!new)>(s: seq<T>, le: (T, T) -> bool)
    requires TotalPreorder(le)
    ensures Sorted(Sort(s, le), le)
  {
    if s != [] {
      SortSorted(s[1..], le);
      InsertSorted(s[0], Sort(s[1..], le), le);
    }
  }

  /** same holds of the elements the order cannot tell apart from c. */
  ghost predicate TiedWith<T(!new)>(same: T -> bool, le: (T, T) -> bool, c: T) {
    forall y :: same(y) <==> le(y, c) && le(c, y)
  }

  /** Among elements the order cannot tell apart, inserting keeps x first. */
  lemma {:induction false} InsertStable<T(!new)>(x: T, s: seq<T>, le: (T, T) -> bool, c: T, same: T -> bool)
    requires TotalPreorder(le) && TiedWith(same, le, c)
    ensures Filter(Insert(x, s, le), same) == (if same(x) then [x] else []) + Filter(s, same)
  {
    if s == [] || le(x, s[0]) {
      assert ([x] + s)[1..] == s;
    } else {
      InsertStable(x, s[1..], le, c, same);
      var r := Insert(x, s, le);
      assert r[0] == s[0] && r[1..] == Insert(x, s[1..], le);
      assert !(same(x) && same(s[0]));
    }
  }

  /** Sorting keeps tied elements in the order they came in. */
  lemma {:induction false} SortStable<T(!new)>(s: seq<T>, le: (T, T) -> bool, c: T, same: T -> bool)
    requires TotalPreorder(le) && TiedWith(same, le, c)
    ensures Filter(Sort(s, le), same) == Filter(s, same)
  {
    if s != [] {
      SortStable(s[1..], le, c, same);
      InsertStable(s[0], Sort(s[1..], le), le, c, same);
    }
  }

  function Map<A, B>(s: seq<A>, f: A -> B): (r: seq<B>)
    ensures |r| == |s| && forall i :: 0 <= i < |s| ==> r[i] == f(s[i])
  {
    if s == [] then [] else [f(s[0])] + Map(s[1..], f)
  }

  /** f carries one order over to the other. */
  ghost predicate Carries<A(!new), B>(f: A -> B, le: (A, A) -> bool, leB: (B, B) -> bool) {
    forall a, b :: le(a, b) == leB(f(a), f(b))
  }

  lemma {:induction false} InsertMap<A(!new), B>(x: A, s: seq<A>, f: A -> B, le: (A, A) -> bool, leB: (B, B) -> bool)
    requires Carries(f, le, leB)
    ensures Map(Insert(x, s, le), f) == Insert(f(x), Map(s, f), leB)
  {
    if s == [] || le(x, s[0]) {
      assert ([x] + s)[1..] == s;
    } else {
      InsertMap(x, s[1..], f, le, leB);
      var r := Insert(x, s, le);
      assert r[0] == s[0] && r[1..] == Insert(x, s[1..], le);
    }
  }

  /** Sorting records and sorting what they are compared by is the same. */
  lemma {:induction false} SortMap<A(!new), B>(s: seq<A>, f: A -> B, le: (A, A) -> bool, leB: (B, B) -> bool)
    requires Carries(f, le, leB)
    ensures Map(Sort(s, le), f) == Sort(Map(s, f), leB)
  {
    if s != [] {
      SortMap(s[1..], f, le, leB);
      InsertMap(s[0], Sort(s[1..], le), f, le, leB);
    }
  }

  lemma HeadLeast<T(!new)>(s: seq<T>, x: T, le: (T, T) -> bool)
    requires le(x, x) && Sorted(s, le) && x in s
    ensures le(s[0], x)
  {
    var i :| 0 <= i < |s| && s[i] == x;
  }

  /** No two different elements of s are tied. */
  ghost predicate NoTies<T>(s: seq<T>, le: (T, T) -> bool) {
    forall x, y :: x in s && y in s && le(x, y) && le(y, x) ==> x == y
  }

  lemma SameTail<T>(a: seq<T>, b: seq<T>)
    requires |a| == |b| > 0 && a[0] == b[0] && multiset(a) == multiset(b)
    ensures multiset(a[1..]) == multiset(b[1..])
  {
    assert a == [a[0]] + a[1..] && b == [b[0]] + b[1..];
    assert multiset(a[1..]) == multiset(a) - multiset{a[0]};
    assert multiset(b[1..]) == multiset(b) - multiset{b[0]};
  }

  /** A sequence sorted by a reflexive order without ties is determined by its elements. */
  lemma {:induction false} SortedUnique<T(!new)>(a: seq<T>, b: seq<T>, le: (T, T) -> bool)
    requires forall x :: x in a ==> le(x, x)
    requires Sorted(a, le) && Sorted(b, le) && NoTies(a, le)
    requires multiset(a) == multiset(b)
    ensures a == b
  {
    assert |a| == |multiset(a)| == |multiset(b)| == |b|;
    if a != [] {
      assert a[0] in multiset(b) && b[0] in multiset(a);
      HeadLeast(a, b[0], le);
      HeadLeast(b, a[0], le);
      SameTail(a, b);
      assert NoTies(a[1..], le) by {
        assert forall x :: x in a[1..] ==> x in a;
      }
      SortedUnique(a[1..], b[1..], le);
      assert a == [a[0]] + a[1..] == [b[0]] + b[1..] == b;
    }
  }

  ghost predicate NoRepeats<T>(s: seq<T>) {
    forall i, j :: 0 <= i < j < |s| ==> s[i] != s[j]
  }

  lemma {:induction false} NoRepeatsOnce<T>(s: seq<T>, x: T)
    requires NoRepeats(s)
    ensures multiset(s)[x] <= 1
  {
    if s != [] {
      var n := |s| - 1;
      assert s == s[..n] + [s[n]];
      NoRepeatsOnce(s[..n], x);
      assert x == s[n] ==> x !in s[..n];
    }
  }

  lemma PermutedNoRepeats<T>(s: seq<T>, r: seq<T>)
    requires NoRepeats(s) && multiset(r) == multiset(s)
    ensures NoRepeats(r) && forall x :: x in r <==> x in s
  {
    forall i, j | 0 <= i < j < |r| ensures r[i] != r[j] {
      assert r == r[..i] + [r[i]] + r[i + 1..j] + [r[j]] + r[j + 1..];
      NoRepeatsOnce(s, r[i]);
    }
    forall x ensures x in r <==> x in s {
      assert x in r <==> x in multiset(r);
    }
  }

  ghost predicate Rising<T>(s: seq<T>, lt: (T, T) -> bool) {
    forall i, j :: 0 <= i < j < |s| ==> lt(s[i], s[j])
  }

  ghost predicate Asymmetric<T(!new)>(lt: (T, T) -> bool) {
    forall a, b :: lt(a, b) ==> !lt(b, a)
  }

  lemma RisingTail<T(!new)>(s: seq<T>, lt: (T, T) -> bool, x: T)
    requires Rising(s, lt) && Asymmetric(lt) && s != []
    ensures x in s[1..] <==> x in s && x != s[0]
    ensures x in s ==> x == s[0] || lt(s[0], x)
  {
    assert s == [s[0]] + s[1..];
  }

  lemma HeadIn<T>(s: seq<T>)
    ensures s != [] ==> s[0] in s
  {
  }

  /** A strictly rising sequence is determined by the set of its elements. */
  lemma {:induction false} RisingUnique<T(!new)>(a: seq<T>, b: seq<T>, lt: (T, T) -> bool)
    requires Asymmetric(lt) && Rising(a, lt) && Rising(b, lt)
    requires forall x :: x in a <==> x in b
    ensures a == b
  {
    if a == [] || b == [] {
      HeadIn(a);
      HeadIn(b);
    } else {
      assert a[0] in b && b[0] in a;
      RisingTail(a, lt, b[0]);
      RisingTail(b, lt, a[0]);
      forall x ensures x in a[1..] <==> x in b[1..] {
        RisingTail(a, lt, x);
        RisingTail(b, lt, x);
      }
      RisingUnique(a[1..], b[1..], lt);
      assert a == [a[0]] + a[1..] && b == [b[0]] + b[1..];
    }
  }
}
