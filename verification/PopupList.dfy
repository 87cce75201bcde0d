/**
 The popup's result list (extension/popup.js): hits clustered by group, and the arrow keys walking the rows
 of hits and their unfolded addresses.
 */
module PopupList {
  import opened Basics
  import opened Lists
  import opened Pages
  import opened Search

  // ---------------------------------------------------------------- clustering

  function GroupKey(e: Entry): string {
    e.db + "\0" + e.group
  }

  /** Two entries are shown in one group exactly if database and group are the same; no database's name holds a NUL. */
  lemma SameGroupIff(a: Entry, b: Entry)
    requires '\0' !in a.db && '\0' !in b.db
    ensures GroupKey(a) == GroupKey(b) <==> a.db == b.db && a.group == b.group
  {
    var s, t := GroupKey(a), GroupKey(b);
    assert s[|a.db|] == '\0' && forall k | 0 <= k < |a.db| :: s[k] == a.db[k] && s[k] != '\0';
    assert t[|b.db|] == '\0' && forall k | 0 <= k < |b.db| :: t[k] == b.db[k] && t[k] != '\0';
    if s == t {
      assert s[..|a.db|] == a.db && t[..|b.db|] == b.db;
      assert s[|a.db| + 1..] == a.group && t[|b.db| + 1..] == b.group;
    }
  }

  function KeyOf(h: Hit): string {
    GroupKey(h.entry)
  }

  /** The groups in the order of their first hits. */
  function Keys(list: seq<Hit>): seq<string> {
    if list == [] then []
    else
      var n := |list| - 1;
      var before := Keys(list[..n]);
      if KeyOf(list[n]) in before then before else before + [KeyOf(list[n])]
  }

  function InGroup(key: string): Hit -> bool {
    h => KeyOf(h) == key
  }

  /** The groups of `keys`, one after the other, each with its hits in list order. */
  function Gathered(list: seq<Hit>, keys: seq<string>): seq<Hit> {
    if keys == [] then []
    else Gathered(list, keys[..|keys| - 1]) + Filter(list, InGroup(keys[|keys| - 1]))
  }

  function Cluster(list: seq<Hit>): seq<Hit> {
    Gathered(list, Keys(list))
  }

  method ClusterByGroup(list: seq<Hit>) returns (r: seq<Hit>)
    ensures r == Cluster(list)
  {
    var order: seq<string> := [];
    var buckets: map<string, seq<Hit>> := map[];
    for i := 0 to |list|
      invariant order == Keys(list[..i])
      invariant forall k :: k in order <==> k in buckets
      invariant forall k | k in buckets :: buckets[k] == Filter(list[..i], InGroup(k))
    {
      assert list[..i + 1][..i] == list[..i];
      var key := KeyOf(list[i]);
      if key !in buckets {
        NoHitOfOtherGroup(list[..i], key);
        buckets := buckets[key := []];
        order := order + [key];
      }
      buckets := buckets[key := buckets[key] + [list[i]]];
    }
    assert list[..|list|] == list;
    r := Flatten(list, order, buckets);
  }

  /** The groups' buckets one after the other. */
  method Flatten(ghost list: seq<Hit>, order: seq<string>, buckets: map<string, seq<Hit>>) returns (r: seq<Hit>)
    requires forall k | k in order :: k in buckets && buckets[k] == Filter(list, InGroup(k))
    ensures r == Gathered(list, order)
  {
    r := [];
    for k := 0 to |order|
      invariant r == Gathered(list, order[..k])
    {
      assert order[..k + 1][..k] == order[..k];
      assert order[k] in order;
      r := r + buckets[order[k]];
    }
    assert order[..|order|] == order;
  }

  lemma {:induction false} NoHitOfOtherGroup(list: seq<Hit>, key: string)
    ensures key in Keys(list) <==> Filter(list, InGroup(key)) != []
  {
    if list != [] {
      NoHitOfOtherGroup(list[..|list| - 1], key);
    }
  }

  lemma {:induction false} KeysDistinct(list: seq<Hit>)
    ensures Distinct(Keys(list))
  {
    if list != [] {
      KeysDistinct(list[..|list| - 1]);
    }
  }

  // ---------------------------------------------------------------- what clustering keeps

  lemma OtherGroup(list: seq<Hit>, a: string, b: string)
    ensures Filter(Filter(list, InGroup(a)), InGroup(b)) == if a == b then Filter(list, InGroup(a)) else []
  {
    var group := Filter(list, InGroup(a));
    assert forall i | 0 <= i < |group| :: group[i] in group;
    if a == b {
      FilterAll(group, InGroup(b));
    } else {
      FilterNone(group, InGroup(b));
    }
  }

  lemma {:induction false} GroupOfGathered(list: seq<Hit>, keys: seq<string>, key: string)
    requires Distinct(keys)
    ensures Filter(Gathered(list, keys), InGroup(key)) == if key in keys then Filter(list, InGroup(key)) else []
  {
    if keys != [] {
      var n := |keys| - 1;
      var front, group := Gathered(list, keys[..n]), Filter(list, InGroup(keys[n]));
      GroupOfGathered(list, keys[..n], key);
      assert Gathered(list, keys) == front + group;
      FilterConcat(front, group, InGroup(key));
      OtherGroup(list, keys[n], key);
      assert keys[n] !in keys[..n];
      assert keys == keys[..n] + [keys[n]];
    }
  }

  /** Within each group the hits are the same, in the same order. */
  lemma GroupsKept(list: seq<Hit>, key: string)
    ensures Filter(Cluster(list), InGroup(key)) == Filter(list, InGroup(key))
  {
    KeysDistinct(list);
    GroupOfGathered(list, Keys(list), key);
    NoHitOfOtherGroup(list, key);
  }

  lemma {:induction false} CountInGroup(list: seq<Hit>, h: Hit)
    ensures multiset(Filter(list, InGroup(KeyOf(h))))[h] == multiset(list)[h]
  {
    if list != [] {
      var n := |list| - 1;
      CountInGroup(list[..n], h);
      assert list == list[..n] + [list[n]];
    }
  }

  /** Clustering loses no hit and repeats none. */
  lemma ClusterIsPermutation(list: seq<Hit>)
    ensures multiset(Cluster(list)) == multiset(list)
  {
    forall h ensures multiset(Cluster(list))[h] == multiset(list)[h] {
      GroupsKept(list, KeyOf(h));
      CountInGroup(list, h);
      CountInGroup(Cluster(list), h);
    }
  }

  lemma {:induction false} KeysConcat(a: seq<Hit>, b: seq<Hit>)
    requires forall i | 0 <= i < |b| :: KeyOf(b[i]) !in Keys(a)
    ensures Keys(a + b) == Keys(a) + Keys(b)
  {
    if b == [] {
      assert a + b == a;
    } else {
      var n := |b| - 1;
      assert (a + b)[..|a + b| - 1] == a + b[..n];
      KeysConcat(a, b[..n]);
      assert KeyOf(b[n]) !in Keys(a);
    }
  }

  lemma {:induction false} KeysOfGroup(group: seq<Hit>, key: string)
    requires group != [] && forall i | 0 <= i < |group| :: KeyOf(group[i]) == key
    ensures Keys(group) == [key]
  {
    if |group| > 1 {
      KeysOfGroup(group[..|group| - 1], key);
    } else {
      assert group[..0] == [];
    }
  }

  lemma {:induction false} KeysOfGathered(list: seq<Hit>, keys: seq<string>)
    requires Distinct(keys) && forall i | 0 <= i < |keys| :: Filter(list, InGroup(keys[i])) != []
    ensures Keys(Gathered(list, keys)) == keys
  {
    if keys != [] {
      var n := |keys| - 1;
      var group := Filter(list, InGroup(keys[n]));
      KeysOfGathered(list, keys[..n]);
      forall i | 0 <= i < |group| ensures KeyOf(group[i]) == keys[n] {
        assert group[i] in group;
      }
      KeysOfGroup(group, keys[n]);
      assert keys[n] !in keys[..n];
      var front := Gathered(list, keys[..n]);
      assert Keys(front) == keys[..n];
      assert Gathered(list, keys) == front + group;
      KeysConcat(front, group);
      assert keys[..n] + [keys[n]] == keys;
    }
  }

  /** Groups come in the order of their best, that is their first, members. */
  lemma GroupOrderKept(list: seq<Hit>)
    ensures Keys(Cluster(list)) == Keys(list)
  {
    KeysDistinct(list);
    forall i | 0 <= i < |Keys(list)| ensures Filter(list, InGroup(Keys(list)[i])) != [] {
      NoHitOfOtherGroup(list, Keys(list)[i]);
    }
    KeysOfGathered(list, Keys(list));
  }

  lemma {:induction false} GatheredDependsOnGroups(a: seq<Hit>, b: seq<Hit>, keys: seq<string>)
    requires forall k | k in keys :: Filter(a, InGroup(k)) == Filter(b, InGroup(k))
    ensures Gathered(a, keys) == Gathered(b, keys)
  {
    if keys != [] {
      GatheredDependsOnGroups(a, b, keys[..|keys| - 1]);
    }
  }

  /** Clustering a clustered list changes nothing. */
  lemma ClusterIdempotent(list: seq<Hit>)
    ensures Cluster(Cluster(list)) == Cluster(list)
  {
    GroupOrderKept(list);
    forall k | k in Keys(list) ensures Filter(Cluster(list), InGroup(k)) == Filter(list, InGroup(k)) {
      GroupsKept(list, k);
    }
    GatheredDependsOnGroups(Cluster(list), list, Keys(list));
  }

  predicate Contiguous(list: seq<Hit>) {
    forall i, j, k | 0 <= i < j < k < |list| && KeyOf(list[i]) == KeyOf(list[k]) :: KeyOf(list[j]) == KeyOf(list[i])
  }

  lemma ContiguousConcat(a: seq<Hit>, group: seq<Hit>, key: string)
    requires Contiguous(a) && forall i | 0 <= i < |group| :: KeyOf(group[i]) == key
    requires forall i | 0 <= i < |a| :: KeyOf(a[i]) != key
    ensures Contiguous(a + group)
  {}

  lemma {:induction false} GatheredIsContiguous(list: seq<Hit>, keys: seq<string>)
    requires Distinct(keys)
    ensures Contiguous(Gathered(list, keys))
    ensures forall h | h in Gathered(list, keys) :: KeyOf(h) in keys
  {
    if keys != [] {
      var n := |keys| - 1;
      var a, group := Gathered(list, keys[..n]), Filter(list, InGroup(keys[n]));
      GatheredIsContiguous(list, keys[..n]);
      forall i | 0 <= i < |group| ensures KeyOf(group[i]) == keys[n] {
        assert group[i] in group;
      }
      forall i | 0 <= i < |a| ensures KeyOf(a[i]) != keys[n] {
        assert a[i] in a && KeyOf(a[i]) in keys[..n];
      }
      ContiguousConcat(a, group, keys[n]);
    }
  }

  /** The hits of a group stand together. */
  lemma ClusterIsContiguous(list: seq<Hit>)
    ensures Contiguous(Cluster(list))
  {
    KeysDistinct(list);
    GatheredIsContiguous(list, Keys(list));
  }

  lemma {:induction false} KeysFirst(list: seq<Hit>)
    requires list != []
    ensures Keys(list) != [] && Keys(list)[0] == KeyOf(list[0])
  {
    if |list| > 1 {
      KeysFirst(list[..|list| - 1]);
    } else {
      assert list[..0] == [];
    }
  }

  lemma {:induction false} GatheredFirst(list: seq<Hit>, keys: seq<string>)
    requires keys != [] && Filter(list, InGroup(keys[0])) != []
    ensures Gathered(list, keys) != [] && Gathered(list, keys)[0] == Filter(list, InGroup(keys[0]))[0]
  {
    if |keys| > 1 {
      GatheredFirst(list, keys[..|keys| - 1]);
    } else {
      assert keys[..0] == [];
    }
  }

  /** The best hit stays on top. */
  lemma ClusterKeepsFirst(list: seq<Hit>)
    requires list != []
    ensures Cluster(list) != [] && Cluster(list)[0] == list[0]
  {
    KeysFirst(list);
    FilterFront(list, InGroup(KeyOf(list[0])));
    GatheredFirst(list, Keys(list));
  }

  // ---------------------------------------------------------------- selection

  // url == -1 is the hit's own row, otherwise the url-th of its unfolded addresses.
  datatype Selection = Selection(hit: nat, url: int)

  function Expandable(hits: seq<Hit>, hit: int): nat {
    var n := if 0 <= hit < |hits| then |hits[hit].entry.urls| else 0;
    if n > 1 then n else 0
  }

  function NextSelection(hits: seq<Hit>, s: Selection): Selection {
    if s.url + 1 < Expandable(hits, s.hit) then Selection(s.hit, s.url + 1)
    else Selection(if s.hit + 1 < |hits| then s.hit + 1 else 0, -1)
  }

  function PreviousSelection(hits: seq<Hit>, s: Selection): Selection
    requires hits != []
  {
    if s.url >= 0 then Selection(s.hit, s.url - 1)
    else
      var prev := if s.hit - 1 >= 0 then s.hit - 1 else |hits| - 1;
      Selection(prev, Expandable(hits, prev) - 1)
  }

  predicate OnRow(hits: seq<Hit>, s: Selection) {
    s.hit < |hits| && (s.url == -1 || 0 <= s.url < Expandable(hits, s.hit))
  }

  /** How many rows the first n hits have, unfolded. */
  function Rows(hits: seq<Hit>, n: nat): nat
    requires n <= |hits|
  {
    if n == 0 then 0 else Rows(hits, n - 1) + 1 + Expandable(hits, n - 1)
  }

  /** A hit has a row of its own, and unfolds into all its addresses if it has several, else not at all. */
  lemma RowsOfHit(hits: seq<Hit>, i: nat)
    requires i < |hits|
    ensures var urls := |hits[i].entry.urls|;
            && Rows(hits, i + 1) - Rows(hits, i) == (if urls >= 2 then 1 + urls else 1)
            && forall url :: OnRow(hits, Selection(i, url)) <==> url == -1 || (urls >= 2 && 0 <= url < urls)
  {}

  /** The place of a row in the fully unfolded list. */
  function Place(hits: seq<Hit>, s: Selection): int
    requires s.hit < |hits|
  {
    Rows(hits, s.hit) + 1 + s.url
  }

  lemma {:induction false} RowsGrow(hits: seq<Hit>, m: nat, n: nat)
    requires m < n <= |hits|
    ensures Rows(hits, m) + 1 + Expandable(hits, m) <= Rows(hits, n)
  {
    if m + 1 < n {
      RowsGrow(hits, m, n - 1);
    }
  }

  /** Different rows have different places. */
  lemma PlacesDiffer(hits: seq<Hit>, a: Selection, b: Selection)
    requires OnRow(hits, a) && OnRow(hits, b) && Place(hits, a) == Place(hits, b)
    ensures a == b
  {
    if a.hit < b.hit {
      RowsGrow(hits, a.hit, b.hit);
    } else if b.hit < a.hit {
      RowsGrow(hits, b.hit, a.hit);
    }
  }

  lemma PlaceInRange(hits: seq<Hit>, s: Selection)
    requires OnRow(hits, s)
    ensures 0 <= Place(hits, s) < Rows(hits, |hits|)
  {
    RowsGrow(hits, s.hit, |hits|);
  }

  /** Leaving a hit by its last row leads to the next hit, whose rows come next. */
  lemma LastRow(hits: seq<Hit>, s: Selection)
    requires OnRow(hits, s) && s.url + 1 >= Expandable(hits, s.hit)
    ensures Place(hits, s) + 1 == Rows(hits, s.hit + 1)
  {}

  /** An arrow down moves one place on, from the last to the first. */
  lemma NextMovesOn(hits: seq<Hit>, s: Selection)
    requires OnRow(hits, s)
    ensures OnRow(hits, NextSelection(hits, s))
    ensures Place(hits, NextSelection(hits, s))
         == if Place(hits, s) + 1 == Rows(hits, |hits|) then 0 else Place(hits, s) + 1
  {
    if s.url + 1 < Expandable(hits, s.hit) {
      RowsGrow(hits, s.hit, |hits|);
    } else {
      LastRow(hits, s);
      if s.hit + 1 < |hits| {
        RowsGrow(hits, s.hit + 1, |hits|);
      }
    }
  }

  /** Up undoes down and down undoes up, on every row. */
  lemma UpUndoesDown(hits: seq<Hit>, s: Selection)
    requires OnRow(hits, s)
    ensures OnRow(hits, NextSelection(hits, s)) && OnRow(hits, PreviousSelection(hits, s))
    ensures PreviousSelection(hits, NextSelection(hits, s)) == s
    ensures NextSelection(hits, PreviousSelection(hits, s)) == s
  {}

  function Steps(hits: seq<Hit>, s: Selection, k: nat): Selection {
    if k == 0 then s else NextSelection(hits, Steps(hits, s, k - 1))
  }

  const TOP: Selection := Selection(0, -1)

  /** From the top, k arrows down lead to place k, as long as there is one. */
  lemma {:induction false} StepsPlace(hits: seq<Hit>, k: nat)
    requires hits != [] && k < Rows(hits, |hits|)
    ensures OnRow(hits, Steps(hits, TOP, k)) && Place(hits, Steps(hits, TOP, k)) == k
  {
    if k > 0 {
      StepsPlace(hits, k - 1);
      NextMovesOn(hits, Steps(hits, TOP, k - 1));
    }
  }

  /** One walk down from the top visits every row exactly once and ends where it began. */
  lemma OneCycle(hits: seq<Hit>, s: Selection)
    requires hits != [] && OnRow(hits, s)
    ensures var total := Rows(hits, |hits|);
            && Steps(hits, TOP, total) == TOP
            && 0 <= Place(hits, s) < total
            && forall k | 0 <= k < total :: Steps(hits, TOP, k) == s <==> k == Place(hits, s)
  {
    PlaceInRange(hits, s);
    BackAtTheTop(hits);
    forall k | 0 <= k < Rows(hits, |hits|) ensures Steps(hits, TOP, k) == s <==> k == Place(hits, s) {
      VisitedOnce(hits, s, k);
    }
  }

  lemma BackAtTheTop(hits: seq<Hit>)
    requires hits != []
    ensures Rows(hits, |hits|) > 0 && Steps(hits, TOP, Rows(hits, |hits|)) == TOP
  {
    PlaceInRange(hits, TOP);
    var last := Rows(hits, |hits|) - 1;
    StepsPlace(hits, last);
    NextMovesOn(hits, Steps(hits, TOP, last));
    PlacesDiffer(hits, NextSelection(hits, Steps(hits, TOP, last)), TOP);
  }

  lemma VisitedOnce(hits: seq<Hit>, s: Selection, k: nat)
    requires hits != [] && OnRow(hits, s) && k < Rows(hits, |hits|)
    ensures Steps(hits, TOP, k) == s <==> k == Place(hits, s)
  {
    StepsPlace(hits, k);
    if k == Place(hits, s) {
      PlacesDiffer(hits, Steps(hits, TOP, k), s);
    }
  }

  // ---------------------------------------------------------------- what a row opens

  function UrlAt(hits: seq<Hit>, s: Selection): Option<string>
    requires forall h | h in hits :: WellFormed(h)
  {
    if s.hit >= |hits| then None
    else if s.url < 0 then hits[s.hit].url
    else
      assert hits[s.hit] in hits && WellFormed(hits[s.hit]);
      var ranked := RankedURLs(hits[s.hit].entry, hits[s.hit].urlScores);
      if s.url < |ranked| then Some(ranked[s.url].url) else None
  }

  lemma RankedIndex(e: Entry, scores: seq<int>, i: nat) returns (k: nat)
    requires |scores| == |e.urls| && i < |e.urls|
    ensures k < |e.urls| == |RankedURLs(e, scores)| && RankedURLs(e, scores)[k].url == e.urls[i]
  {
    var s, r := WithScores(e, scores), RankedURLs(e, scores);
    SortContents(s, HigherScore());
    assert s[i] in multiset(s);
    assert s[i] in multiset(r);
    k :| 0 <= k < |r| && r[k] == s[i];
  }

  /** Every address of every hit that has several can be reached from the top with the down arrow alone. */
  lemma EveryAddressReachable(hits: seq<Hit>, h: nat, i: nat) returns (k: nat)
    requires (forall x | x in hits :: WellFormed(x)) && h < |hits|
    requires |hits[h].entry.urls| > 1 && i < |hits[h].entry.urls|
    ensures k < Rows(hits, |hits|) && UrlAt(hits, Steps(hits, TOP, k)) == Some(hits[h].entry.urls[i])
  {
    assert hits[h] in hits;
    var u := RankedIndex(hits[h].entry, hits[h].urlScores, i);
    var s := Selection(h, u);
    OneCycle(hits, s);
    k := Place(hits, s);
  }
}
