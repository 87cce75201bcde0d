/** Filtering and stable sorting of sequences, as JavaScript's `filter` and `sort` do them. */
module Lists {

  function Filter<T>(s: seq<T>, p: T -> bool): (r: seq<T>)
    ensures forall x | x in r :: x in s && p(x)
    ensures |r| <= |s|
  {
    if s == [] then []
    else
      var n := |s| - 1;
      Filter(s[..n], p) + (if p(s[n]) then [s[n]] else [])
  }

  lemma {:induction false} FilterConcat<T>(a: seq<T>, b: seq<T>, p: T -> bool)
    ensures Filter(a + b, p) == Filter(a, p) + Filter(b, p)
  {
    if b == [] {
      assert a + b == a;
    } else {
      assert (a + b)[..|a + b| - 1] == a + b[..|b| - 1];
      FilterConcat(a, b[..|b| - 1], p);
    }
  }

  lemma {:induction false} FilterAll<T>(s: seq<T>, p: T -> bool)
    requires forall i | 0 <= i < |s| :: p(s[i])
    ensures Filter(s, p) == s
  {
    if s != [] {
      FilterAll(s[..|s| - 1], p);
    }
  }

  lemma {:induction false} FilterNone<T>(s: seq<T>, p: T -> bool)
    requires forall i | 0 <= i < |s| :: !p(s[i])
    ensures Filter(s, p) == []
  {
    if s != [] {
      FilterNone(s[..|s| - 1], p);
    }
  }

  // ---------------------------------------------------------------- stable sorting

  /** A comparison JavaScript's sort() accepts: a strict order up to ties. */
  ghost predicate Comparison<T(!new)>(less: (T, T) -> bool) {
    && (forall x :: !less(x, x))
    && (forall x, y, z :: less(x, y) && less(y, z) ==> less(x, z))
    && (forall x, y, z :: less(x, z) ==> less(x, y) || less(y, z))
  }

  ghost predicate Sorted<T>(s: seq<T>, less: (T, T) -> bool) {
    forall i, j | 0 <= i < j < |s| :: !less(s[j], s[i])
  }

  function Insert<T>(x: T, s: seq<T>, less: (T, T) -> bool): seq<T> {
    if s == [] || !less(s[0], x) then [x] + s else [s[0]] + Insert(x, s[1..], less)
  }

  function StableSort<T>(s: seq<T>, less: (T, T) -> bool): seq<T> {
    if s == [] then [] else Insert(s[0], StableSort(s[1..], less), less)
  }

  lemma {:induction false} InsertContents<T>(x: T, s: seq<T>, less: (T, T) -> bool)
    ensures multiset(Insert(x, s, less)) == multiset(s) + multiset{x}
    ensures |Insert(x, s, less)| == |s| + 1
  {
    if !(s == [] || !less(s[0], x)) {
      InsertContents(x, s[1..], less);
      assert s == [s[0]] + s[1..];
    }
  }

  lemma {:induction false} InsertSorted<T(!new)>(x: T, s: seq<T>, less: (T, T) -> bool)
    requires Comparison(less) && Sorted(s, less)
    ensures Sorted(Insert(x, s, less), less)
  {
    var r := Insert(x, s, less);
    if s == [] {
    } else if !less(s[0], x) {
      forall i, j | 0 <= i < j < |r| ensures !less(r[j], r[i]) {
        if i == 0 && j > 1 {
          assert !less(s[j - 1], s[0]);
        }
      }
    } else {
      InsertSorted(x, s[1..], less);
      InsertContents(x, s[1..], less);
      forall i, j | 0 <= i < j < |r| ensures !less(r[j], r[i]) {
        if i == 0 {
          var y := r[j];
          assert y in multiset(Insert(x, s[1..], less));
          if y != x {
            assert y in s[1..];
          }
        }
      }
    }
  }

  lemma {:induction false} SortContents<T>(s: seq<T>, less: (T, T) -> bool)
    ensures multiset(StableSort(s, less)) == multiset(s)
    ensures |StableSort(s, less)| == |s|
  {
    if s != [] {
      SortContents(s[1..], less);
      InsertContents(s[0], StableSort(s[1..], less), less);
      assert s == [s[0]] + s[1..];
    }
  }

  lemma {:induction false} SortSorted<T(!new)>(s: seq<T>, less: (T, T) -> bool)
    requires Comparison(less)
    ensures Sorted(StableSort(s, less), less)
  {
    if s != [] {
      SortSorted(s[1..], less);
      InsertSorted(s[0], StableSort(s[1..], less), less);
    }
  }

  /** The elements that tie with `x`. */
  function Ties<T>(x: T, less: (T, T) -> bool): T -> bool {
    y => !less(x, y) && !less(y, x)
  }

  lemma FilterOne<T>(x: T, p: T -> bool)
    ensures Filter([x], p) == if p(x) then [x] else []
  {
    assert Filter([x][..0], p) == [];
  }

  lemma FilterFront<T>(s: seq<T>, p: T -> bool)
    requires s != []
    ensures Filter(s, p) == if p(s[0]) then [s[0]] + Filter(s[1..], p) else Filter(s[1..], p)
  {
    assert s == [s[0]] + s[1..];
    FilterConcat([s[0]], s[1..], p);
    FilterOne(s[0], p);
  }

  /** No two elements of the class are before one another. */
  ghost predicate Level<T(!new)>(p: T -> bool, less: (T, T) -> bool) {
    forall a, b | less(a, b) :: !(p(a) && p(b))
  }

  lemma TiesAreLevel<T(!new)>(y: T, less: (T, T) -> bool)
    requires Comparison(less)
    ensures Level(Ties(y, less), less)
  {}

  lemma {:induction false} InsertStable<T(!new)>(x: T, s: seq<T>, less: (T, T) -> bool, p: T -> bool)
    requires Level(p, less)
    ensures Filter(Insert(x, s, less), p) == if p(x) then [x] + Filter(s, p) else Filter(s, p)
  {
    var r := Insert(x, s, less);
    if s == [] || !less(s[0], x) {
      assert r[1..] == s;
      FilterFront(r, p);
    } else {
      InsertStable(x, s[1..], less, p);
      var rest := Insert(x, s[1..], less);
      assert r == [s[0]] + rest && r[1..] == rest;
      FilterFront(r, p);
      FilterFront(s, p);
      assert !(p(s[0]) && p(x));
    }
  }

  lemma {:induction false} SortKeepsLevel<T(!new)>(s: seq<T>, less: (T, T) -> bool, p: T -> bool)
    requires Level(p, less)
    ensures Filter(StableSort(s, less), p) == Filter(s, p)
  {
    if s != [] {
      SortKeepsLevel(s[1..], less, p);
      InsertStable(s[0], StableSort(s[1..], less), less, p);
      FilterFront(s, p);
    }
  }

  /** Elements that tie keep their order. */
  lemma SortStable<T(!new)>(s: seq<T>, less: (T, T) -> bool, y: T)
    requires Comparison(less)
    ensures Filter(StableSort(s, less), Ties(y, less)) == Filter(s, Ties(y, less))
  {
    TiesAreLevel(y, less);
    SortKeepsLevel(s, less, Ties(y, less));
  }

  /** The first of the sorted elements is the first of those no other element is before. */
  lemma {:induction false} SortFirst<T(!new)>(s: seq<T>, less: (T, T) -> bool, i: nat)
    requires Comparison(less) && i < |s|
    requires forall k | 0 <= k < |s| :: !less(s[k], s[i])
    requires forall k | 0 <= k < i :: less(s[i], s[k])
    ensures StableSort(s, less) != [] && StableSort(s, less)[0] == s[i]
  {
    var rest := StableSort(s[1..], less);
    SortContents(s[1..], less);
    if i == 0 {
      if rest != [] {
        assert rest[0] in multiset(rest);
        assert rest[0] in s[1..];
      }
    } else {
      SortFirst(s[1..], less, i - 1);
    }
  }
}
