/** Shared wrappers and the sequence facts that several modules need. */
module Basics {

  datatype Option<+T> = None | Some(value: T)

  datatype Result<+T, +E> = Ok(value: T) | Err(error: E)

  /** What a caller sees of one object write: it landed and said so, it failed
      without landing, or it landed although an error came back. */
  datatype WriteOutcome = Acked | Lost | Ambiguous {
    predicate Landed() { Acked? || Ambiguous? }
  }

  function At<K, V>(m: map<K, V>, k: K): Option<V> {
    if k in m then Some(m[k]) else None
  }

  ghost predicate NoDuplicates<T>(s: seq<T>) {
    forall i, j :: 0 <= i < j < |s| ==> s[i] != s[j]
  }

  function Elements<T>(s: seq<T>): set<T> {
    set x | x in s
  }

  predicate Ascending(s: seq<int>) {
    forall i, j :: 0 <= i < j < |s| ==> s[i] < s[j]
  }

  lemma EmptyElements<T>(s: seq<T>)
    ensures s == [] <==> Elements(s) == {}
  {
    if s != [] { assert s[0] in Elements(s); }
  }

  /** A strictly ascending sequence is determined by its elements. */
  lemma {:induction false} AscendingUnique(a: seq<int>, b: seq<int>)
    requires Ascending(a) && Ascending(b)
    requires Elements(a) == Elements(b)
    ensures a == b
  {
    EmptyElements(a);
    EmptyElements(b);
    if a != [] {
      assert a[0] in Elements(b);
      assert b[0] in Elements(a);
      assert a[0] == b[0];
      assert Elements(a[1..]) == Elements(a) - {a[0]};
      assert Elements(b[1..]) == Elements(b) - {b[0]};
      AscendingUnique(a[1..], b[1..]);
      assert a == [a[0]] + a[1..] && b == [b[0]] + b[1..];
    }
  }

  /** Sequences without duplicates are no longer than any set that contains them. */
  lemma {:induction false} NoDuplicatesBound<T>(s: seq<T>, bound: set<T>)
    requires NoDuplicates(s) && Elements(s) <= bound
    ensures |s| <= |bound|
    ensures |s| == |bound| ==> Elements(s) == bound
    decreases |s|
  {
    if s == [] {
    } else {
      var last := s[|s| - 1];
      var front := s[..|s| - 1];
      assert last in Elements(s);
      assert Elements(s) == Elements(front) + {last};
      assert last !in Elements(front);
      NoDuplicatesBound(front, bound - {last});
      assert |bound - {last}| == |bound| - 1;
    }
  }

  lemma TakeSnoc<T>(s: seq<T>, i: nat)
    requires i < |s|
    ensures s[..i + 1] == s[..i] + [s[i]]
  {
  }
}
