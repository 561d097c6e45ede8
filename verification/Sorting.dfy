/** Insertion into sorted order, for the places where the source calls its library sort. */
module Sorting {
  import opened Basics

  ghost predicate TotalPreorder<T(!new)>(le: (T, T) -> bool) {
    && (forall a, b :: le(a, b) || le(b, a))
    && (forall a, b, c :: le(a, b) && le(b, c) ==> le(a, c))
  }

  ghost predicate Sorted<T>(le: (T, T) -> bool, s: seq<T>) {
    forall i, j :: 0 <= i < j < |s| ==> le(s[i], s[j])
  }

  function Insert<T>(le: (T, T) -> bool, x: T, s: seq<T>): seq<T> {
    if s == [] || le(x, s[0]) then [x] + s else [s[0]] + Insert(le, x, s[1..])
  }

  function SortBy<T>(le: (T, T) -> bool, s: seq<T>): seq<T> {
    if s == [] then [] else Insert(le, s[0], SortBy(le, s[1..]))
  }

  lemma ConsSorted<T(!new)>(le: (T, T) -> bool, x: T, tail: seq<T>)
    requires Sorted(le, tail) && forall y :: y in tail ==> le(x, y)
    ensures Sorted(le, [x] + tail)
  {
  }

  lemma HeadLeast<T(!new)>(le: (T, T) -> bool, x: T, s: seq<T>)
    requires TotalPreorder(le) && Sorted(le, s) && s != [] && le(x, s[0])
    ensures forall y :: y in s ==> le(x, y)
  {
    forall y | y in s ensures le(x, y) {
      var i :| 0 <= i < |s| && s[i] == y;
      assert i > 0 ==> le(s[0], s[i]);
    }
  }

  lemma {:induction false} InsertContents<T>(le: (T, T) -> bool, x: T, s: seq<T>)
    ensures multiset(Insert(le, x, s)) == multiset(s) + multiset{x}
  {
    if s != [] && !le(x, s[0]) {
      InsertContents(le, x, s[1..]);
      assert s == [s[0]] + s[1..];
    }
  }

  lemma {:induction false} InsertKeepsOrder<T(!new)>(le: (T, T) -> bool, x: T, s: seq<T>)
    requires TotalPreorder(le) && Sorted(le, s)
    ensures Sorted(le, Insert(le, x, s))
  {
    if s == [] {
    } else if le(x, s[0]) {
      HeadLeast(le, x, s);
      ConsSorted(le, x, s);
    } else {
      var rest := s[1..];
      assert Sorted(le, rest);
      InsertKeepsOrder(le, x, rest);
      InsertContents(le, x, rest);
      forall y | y in Insert(le, x, rest) ensures le(s[0], y) {
        assert y in multiset(Insert(le, x, rest));
        if y != x {
          assert y in rest;
          var i :| 0 <= i < |rest| && rest[i] == y;
          assert le(s[0], s[i + 1]);
        }
      }
      ConsSorted(le, s[0], Insert(le, x, rest));
    }
  }

  /** The sorted sequence is ordered and a permutation of its input. */
  lemma {:induction false} SortByCorrect<T(!new)>(le: (T, T) -> bool, s: seq<T>)
    requires TotalPreorder(le)
    ensures Sorted(le, SortBy(le, s)) && multiset(SortBy(le, s)) == multiset(s)
  {
    if s != [] {
      SortByCorrect(le, s[1..]);
      InsertKeepsOrder(le, s[0], SortBy(le, s[1..]));
      InsertContents(le, s[0], SortBy(le, s[1..]));
      assert s == [s[0]] + s[1..];
    }
  }

  lemma SortByElements<T(!new)>(le: (T, T) -> bool, s: seq<T>)
    requires TotalPreorder(le)
    ensures Sorted(le, SortBy(le, s)) && |SortBy(le, s)| == |s|
    ensures forall x :: x in SortBy(le, s) <==> x in s
  {
    SortByCorrect(le, s);
    assert |multiset(s)| == |s| && |multiset(SortBy(le, s))| == |SortBy(le, s)|;
    forall x ensures x in SortBy(le, s) <==> x in s {
      assert x in multiset(SortBy(le, s)) <==> x in multiset(s);
    }
  }

  lemma {:induction false} MultiplicityOfDistinct<T>(s: seq<T>, x: T)
    requires NoDuplicates(s)
    ensures multiset(s)[x] <= 1
  {
    if s != [] {
      var front, last := s[..|s| - 1], s[|s| - 1];
      assert s == front + [last];
      MultiplicityOfDistinct(front, x);
      if x == last { assert x !in front; }
    }
  }

  lemma RepeatedMultiplicity<T>(s: seq<T>, i: nat, j: nat)
    requires i < j < |s|
    ensures s[i] == s[j] ==> multiset(s)[s[i]] >= 2
  {
    assert s[i] in s[..j];
    assert s == s[..j] + [s[j]] + s[j + 1..];
  }

  lemma SortByDistinct<T(!new)>(le: (T, T) -> bool, s: seq<T>)
    requires TotalPreorder(le) && NoDuplicates(s)
    ensures NoDuplicates(SortBy(le, s))
  {
    SortByCorrect(le, s);
    var t := SortBy(le, s);
    forall i, j | 0 <= i < j < |t| ensures t[i] != t[j] {
      MultiplicityOfDistinct(s, t[i]);
      RepeatedMultiplicity(t, i, j);
    }
  }
}
