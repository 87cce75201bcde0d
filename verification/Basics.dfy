/** Small shared vocabulary: options, maxima and the sorted listing of a finite set. */
module Basics {

  datatype Option<+T> = None | Some(value: T)

  function Max(a: int, b: int): int {
    if a < b then b else a
  }

  predicate StartsWith(s: string, p: string) {
    p <= s
  }

  predicate Distinct<T(==)>(s: seq<T>) {
    forall i, j :: 0 <= i < j < |s| ==> s[i] != s[j]
  }

  predicate StrictlyIncreasing(s: seq<nat>) {
    forall i, j :: 0 <= i < j < |s| ==> s[i] < s[j]
  }

  function ToSet<T(==)>(s: seq<T>): set<T> {
    set x | x in s
  }

  lemma LeastExists(s: set<nat>)
    requires s != {}
    ensures exists m :: m in s && forall x | x in s :: m <= x
  {
    var m := Least(s);
    assert m in s && forall x | x in s :: m <= x;
  }

  lemma {:induction false} Least(s: set<nat>) returns (m: nat)
    requires s != {}
    ensures m in s && forall x | x in s :: m <= x
  {
    m :| m in s;
    var rest := s - {m};
    assert forall x | x in s :: x == m || x in rest;
    if rest != {} {
      var b := Least(rest);
      m := if m < b then m else b;
    }
  }

  /** The elements of a set in increasing order (`sortedStrings`). */
  function SortedSeq(s: set<nat>): (r: seq<nat>)
    ensures StrictlyIncreasing(r)
    ensures forall x :: x in r <==> x in s
  {
    if s == {} then [] else
    LeastExists(s);
    var m :| m in s && forall x | x in s :: m <= x;
    var rest := SortedSeq(s - {m});
    LeastInFront(s, m, rest);
    [m] + rest
  }

  lemma LeastInFront(s: set<nat>, m: nat, rest: seq<nat>)
    requires m in s && forall x | x in s :: m <= x
    requires StrictlyIncreasing(rest) && forall x :: x in rest <==> x in s - {m}
    ensures StrictlyIncreasing([m] + rest) && forall x :: x in [m] + rest <==> x in s
  {
    forall i | 0 <= i < |rest| ensures m < rest[i] {
      assert rest[i] in rest;
    }
  }
}
