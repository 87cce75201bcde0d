/**
 Transfer of the search index in pages: the host cuts it (client/cmd/keepass-deltasync/browser_index.go,
 browser_host.go), the extension walks it (extension/background.js).
 */
module Pages {
  import opened Basics

  // Texts are counted in bytes.
  datatype Entry = Entry(uuid: string, title: string, group: string, db: string, urls: seq<string>)

  datatype Page = OutOfRange | Page(entries: seq<Entry>, next: nat)

  // ---------------------------------------------------------------- sizes

  function UrlBytes(urls: seq<string>): nat {
    if urls == [] then 0 else UrlBytes(urls[..|urls| - 1]) + |urls[|urls| - 1]| + 4
  }

  function Size(e: Entry): (n: nat)
    ensures n > 0
  {
    96 + |e.uuid| + |e.title| + |e.group| + |e.db| + UrlBytes(e.urls)
  }

  method ApproxJSONSize(e: Entry) returns (n: nat)
    ensures n == Size(e)
  {
    n := 96 + |e.uuid| + |e.title| + |e.group| + |e.db|;
    for i := 0 to |e.urls|
      invariant n == 96 + |e.uuid| + |e.title| + |e.group| + |e.db| + UrlBytes(e.urls[..i])
    {
      assert e.urls[..i + 1][..i] == e.urls[..i];
      n := n + |e.urls[i]| + 4;
    }
    assert e.urls[..|e.urls|] == e.urls;
  }

  // An entry as it goes over the wire, as long as its texts need no escapes.
  const OPENS: string := "{\"uuid\":\""
  const TITLE: string := "\",\"title\":\""
  const URLS: string := "\",\"urls\":["
  const GROUP: string := "],\"group\":\""
  const DB: string := "\",\"db\":\""
  const CLOSES: string := "\"}"

  function JsonUrls(urls: seq<string>): string {
    if urls == [] then ""
    else
      var n := |urls| - 1;
      JsonUrls(urls[..n]) + (if n == 0 then "" else ",") + "\"" + urls[n] + "\""
  }

  function Json(e: Entry): string {
    OPENS + e.uuid + TITLE + e.title + URLS + JsonUrls(e.urls) + GROUP + e.group + DB + e.db + CLOSES
  }

  function JsonAll(entries: seq<Entry>): string {
    if entries == [] then "" else JsonAll(entries[..|entries| - 1]) + "," + Json(entries[|entries| - 1])
  }

  lemma {:induction false} JsonUrlsSize(urls: seq<string>)
    ensures UrlBytes(urls) == |JsonUrls(urls)| + (if urls == [] then 0 else |urls| + 1)
  {
    if urls != [] {
      JsonUrlsSize(urls[..|urls| - 1]);
    }
  }

  /** How far the estimate is off: it covers what is sent, by a margin of 45 bytes and two or so per address. */
  lemma EstimateCovers(e: Entry)
    ensures Size(e) == |Json(e)| + 45 + (if e.urls == [] then 0 else |e.urls| + 1)
  {
    JsonUrlsSize(e.urls);
    assert |OPENS| + |TITLE| + |URLS| + |GROUP| + |DB| + |CLOSES| == 51;
  }

  lemma JsonAllAppend(entries: seq<Entry>, e: Entry)
    ensures JsonAll(entries + [e]) == JsonAll(entries) + "," + Json(e)
  {
    assert (entries + [e])[..|entries|] == entries;
  }

  /** So a page of several entries stays within the limit on the wire, commas included. */
  lemma {:induction false} PageFitsOnTheWire(index: seq<Entry>, a: nat, b: nat)
    requires a <= b <= |index|
    ensures |JsonAll(index[a..b])| <= Total(index, a, b)
    decreases b
  {
    if a < b {
      assert index[a..b] == index[a..b - 1] + [index[b - 1]];
      JsonAllAppend(index[a..b - 1], index[b - 1]);
      PageFitsOnTheWire(index, a, b - 1);
      EstimateCovers(index[b - 1]);
    }
  }

  /** Bytes in index[a..b]. */
  function Total(index: seq<Entry>, a: nat, b: nat): nat
    requires a <= b <= |index|
    decreases b
  {
    if a == b then 0 else Total(index, a, b - 1) + Size(index[b - 1])
  }

  /** Sizes add up. */
  lemma {:induction false} TotalSplits(index: seq<Entry>, a: nat, b: nat, c: nat)
    requires a <= b <= c <= |index|
    ensures Total(index, a, c) == Total(index, a, b) + Total(index, b, c)
    ensures Total(index, a, a) == 0 && (a < |index| ==> Total(index, a, a + 1) == Size(index[a]))
    decreases c
  {
    if b < c {
      TotalSplits(index, a, b, c - 1);
    }
  }

  lemma TotalGrows(index: seq<Entry>, a: nat, b: nat, c: nat, d: nat)
    requires a <= b <= c <= d <= |index|
    ensures Total(index, b, c) <= Total(index, a, d)
  {
    TotalSplits(index, a, b, d);
    TotalSplits(index, b, c, d);
  }

  // ---------------------------------------------------------------- one page

  /** index[a..b] may be one page: a single entry of any size, or entries within the limit together. */
  predicate Fits(index: seq<Entry>, a: nat, b: nat, limit: int)
    requires a <= b <= |index|
  {
    a < b && (b == a + 1 || Total(index, a, b) <= limit)
  }

  /** A page ends as late as it may: it fits, and nothing longer would. */
  predicate Longest(index: seq<Entry>, a: nat, b: nat, limit: int) {
    a < b <= |index| && Fits(index, a, b, limit) && forall c | b < c <= |index| :: !Fits(index, a, c, limit)
  }

  /** The page that starts at `offset`: as long as it may be, and empty at the end of the index. */
  predicate CutFrom(page: Page, index: seq<Entry>, offset: int, limit: int) {
    && (page.OutOfRange? <==> offset < 0 || offset > |index|)
    && (page.Page? ==> offset <= page.next <= |index| && page.entries == index[offset..page.next])
    && (offset == |index| ==> page == Page([], |index|))
    && (page.Page? && offset < |index| ==> Longest(index, offset, page.next, limit))
  }

  method Paginate(index: seq<Entry>, offset: int, limit: int) returns (page: Page)
    ensures CutFrom(page, index, offset, limit)
  {
    if offset < 0 || offset > |index| {
      return OutOfRange;
    }
    var size, i := 0, offset;
    while i < |index|
      invariant offset <= i <= |index| && size == Total(index, offset, i)
      invariant i == offset || Fits(index, offset, i, limit)
    {
      var n := ApproxJSONSize(index[i]);
      if i > offset && size + n > limit {
        forall c | i < c <= |index| ensures !Fits(index, offset, c, limit) {
          TotalGrows(index, offset, offset, i + 1, c);
        }
        break;
      }
      size := size + n;
      i := i + 1;
    }
    return Page(index[offset..i], i);
  }

  function Grown(index: seq<Entry>, a: nat, b: nat, limit: int): nat
    requires a < b <= |index|
    decreases |index| - b
  {
    if b < |index| && Total(index, a, b + 1) <= limit then Grown(index, a, b + 1, limit) else b
  }

  /** There is always a longest page, and only one. */
  lemma {:induction false} GrownIsLongest(index: seq<Entry>, a: nat, b: nat, limit: int)
    requires a < b <= |index| && Fits(index, a, b, limit)
    ensures Longest(index, a, Grown(index, a, b, limit), limit)
    decreases |index| - b
  {
    if b < |index| && Total(index, a, b + 1) <= limit {
      GrownIsLongest(index, a, b + 1, limit);
    } else if b < |index| {
      forall c | b < c <= |index| ensures !Fits(index, a, c, limit) {
        TotalGrows(index, a, a, b + 1, c);
      }
    }
  }

  function NextPage(index: seq<Entry>, offset: nat, limit: int): (next: nat)
    requires offset <= |index|
    ensures offset <= next <= |index|
    ensures offset < |index| ==> Longest(index, offset, next, limit)
  {
    if offset == |index| then offset
    else GrownIsLongest(index, offset, offset + 1, limit); Grown(index, offset, offset + 1, limit)
  }

  /** The one page that starts at `offset`. */
  function PageOf(index: seq<Entry>, offset: nat, limit: int): (page: Page)
    ensures CutFrom(page, index, offset, limit)
  {
    if offset > |index| then OutOfRange
    else Page(index[offset..NextPage(index, offset, limit)], NextPage(index, offset, limit))
  }

  // ---------------------------------------------------------------- the walk

  /** Where the first k pages end. */
  function Reach(index: seq<Entry>, k: nat, limit: int): (end: nat)
    ensures end <= |index|
  {
    if k == 0 then 0 else NextPage(index, Reach(index, k - 1, limit), limit)
  }

  /** Cuts of the index into consecutive pages that fit. */
  ghost predicate Partition(index: seq<Entry>, cuts: seq<nat>, limit: int) {
    && cuts != [] && cuts[0] == 0 && cuts[|cuts| - 1] == |index|
    && forall k | 0 < k < |cuts| :: cuts[k - 1] <= cuts[k] <= |index| && Fits(index, cuts[k - 1], cuts[k], limit)
  }

  lemma FitsInside(index: seq<Entry>, a: nat, b: nat, c: nat, limit: int)
    requires a <= b < c <= |index| && Fits(index, a, c, limit)
    ensures Fits(index, b, c, limit)
  {
    TotalGrows(index, a, b, c, c);
  }

  /** After as many pages, the walk is never behind another way to cut the index. */
  lemma {:induction false} WalkStaysAhead(index: seq<Entry>, cuts: seq<nat>, k: nat, limit: int)
    requires Partition(index, cuts, limit) && k < |cuts|
    ensures cuts[k] <= Reach(index, k, limit)
  {
    if k > 0 {
      WalkStaysAhead(index, cuts, k - 1, limit);
      var at := Reach(index, k - 1, limit);
      assert Fits(index, cuts[k - 1], cuts[k], limit);
      if at < cuts[k] {
        FitsInside(index, cuts[k - 1], at, cuts[k], limit);
      }
    }
  }

  /** The first k pages end at `end`, and none before that reached the end of the index. */
  ghost predicate Walked(index: seq<Entry>, k: nat, end: nat, limit: int) {
    Reach(index, k, limit) == end && forall j | 0 <= j < k :: Reach(index, j, limit) < |index|
  }

  lemma WalkOn(index: seq<Entry>, k: nat, at: nat, next: nat, limit: int)
    requires Walked(index, k, at, limit) && Longest(index, at, next, limit)
    ensures Walked(index, k + 1, next, limit)
  {
    LongestIsUnique(index, at, next, NextPage(index, at, limit), limit);
  }

  lemma NextPageComes(index: seq<Entry>, k: nat, at: nat, page: Page, limit: int)
    requires Walked(index, k, at, limit) && at < |index| && CutFrom(page, index, at, limit)
    ensures page.Page? && at < page.next <= |index| && Walked(index, k + 1, page.next, limit)
    ensures index[..at] + page.entries == index[..page.next]
  {
    WalkOn(index, k, at, page.next, limit);
  }

  /** No way to cut the index needs fewer pages than the walk. */
  lemma WalkIsOptimal(index: seq<Entry>, n: nat, limit: int)
    requires Walked(index, n, |index|, limit)
    ensures forall cuts | Partition(index, cuts, limit) :: n < |cuts|
  {
    forall cuts | Partition(index, cuts, limit) ensures n < |cuts| {
      WalkStaysAhead(index, cuts, |cuts| - 1, limit);
    }
  }

  /** The walk's own cuts are such a way. */
  lemma WalkIsAPartition(index: seq<Entry>, n: nat, limit: int)
    requires Walked(index, n, |index|, limit)
    ensures Partition(index, seq(n + 1, k requires 0 <= k => Reach(index, k, limit)), limit)
  {
    var cuts := seq(n + 1, k requires 0 <= k => Reach(index, k, limit));
    forall k | 0 < k < |cuts| ensures cuts[k - 1] <= cuts[k] <= |index| && Fits(index, cuts[k - 1], cuts[k], limit) {
      assert Longest(index, Reach(index, k - 1, limit), Reach(index, k, limit), limit);
    }
  }

  /**
   The extension's side of an unlock that announced `count` entries. `answer` is what comes back to the k-th page
   request: any entries with any next offset at all, or an error, as when the host has been locked by then. A host
   that goes on holding one index answers with pages cut from it.
   */
  method FetchIndex(count: nat, answer: (nat, nat) -> Page, ghost indexed: seq<Entry>, ghost limit: int)
    returns (entries: Option<seq<Entry>>, requests: nat)
    ensures requests <= count
    ensures count == |indexed| && (forall k, offset: nat :: CutFrom(answer(k, offset), indexed, offset, limit)) ==>
              && entries == Some(indexed)
              && Walked(indexed, requests, |indexed|, limit)
              && forall cuts | Partition(indexed, cuts, limit) :: requests < |cuts|
  {
    var got: seq<Entry>, offset := [], 0;
    requests := 0;
    ghost var same := count == |indexed| && forall k, offset: nat :: CutFrom(answer(k, offset), indexed, offset, limit);
    while offset < count
      invariant requests <= offset && requests <= count
      invariant same ==> offset <= count && Walked(indexed, requests, offset, limit) && got == indexed[..offset]
      decreases count - offset
    {
      var page := answer(requests, offset);
      assert same ==> CutFrom(page, indexed, offset, limit);
      requests := requests + 1;
      if page.OutOfRange? {
        return None, requests;
      }
      got := got + page.entries;
      if page.next <= offset {
        break;
      }
      if same {
        NextPageComes(indexed, requests - 1, offset, page, limit);
      }
      offset := page.next;
    }
    if same {
      WalkIsOptimal(indexed, requests, limit);
      assert indexed[..|indexed|] == indexed;
    }
    entries := Some(got);
  }

  lemma LongestIsUnique(index: seq<Entry>, a: nat, b: nat, c: nat, limit: int)
    requires Longest(index, a, b, limit) && Longest(index, a, c, limit)
    ensures b == c
  {}
}
