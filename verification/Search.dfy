/**
 The search over the cached index (extension/search.js). Lower-casing covers ASCII letters; the locale's
 order of titles is a parameter.
 */
module Search {
  import opened Basics
  import opened Lists
  import opened Pages

  // ---------------------------------------------------------------- texts

  function LowerChar(c: char): char {
    if 'A' <= c <= 'Z' then c + 32 as char else c
  }

  function Lower(s: string): string {
    seq(|s|, k requires 0 <= k < |s| => LowerChar(s[k]))
  }

  predicate Includes(s: string, p: string) {
    StartsWith(s, p) || (s != "" && Includes(s[1..], p))
  }

  /** A text that includes a part includes what the part includes. */
  lemma {:induction false} IncludesInside(a: string, m: string, b: string, p: string)
    requires Includes(m, p)
    ensures Includes(a + m + b, p)
  {
    var s := a + m + b;
    if a != "" {
      IncludesInside(a[1..], m, b, p);
      assert s[1..] == a[1..] + m + b;
    } else if StartsWith(m, p) {
      assert s == m + b;
      assert StartsWith(s, p) by {
        assert s[..|p|] == m[..|p|];
      }
    } else {
      IncludesInside("", m[1..], b, p);
      assert s[1..] == "" + m[1..] + b;
    }
  }

  predicate Space(c: char) {
    c in " \t\n\r\U{0B}\U{0C}\U{A0}\U{FEFF}\U{2028}\U{2029}"
  }

  /** The pieces of a text between its spaces, empty ones included. */
  function Pieces(s: string): (r: seq<string>)
    ensures r != []
  {
    if s == "" then [""]
    else
      var n := |s| - 1;
      var r := Pieces(s[..n]);
      if Space(s[n]) then r + [""] else r[..|r| - 1] + [r[|r| - 1] + [s[n]]]
  }

  /** The search words of a query. */
  function Tokens(query: string): seq<string> {
    Filter(Pieces(Lower(query)), (p: string) => p != "")
  }

  lemma {:induction false} PiecesOfWord(s: string, w: string)
    requires forall k | 0 <= k < |w| :: !Space(w[k])
    ensures Pieces(s + " " + w) == Pieces(s) + [w]
  {
    var q := s + " " + w;
    if w == "" {
      assert q[..|q| - 1] == s && q[|q| - 1] == ' ';
    } else {
      var n := |w| - 1;
      assert q[..|q| - 1] == s + " " + w[..n] && q[|q| - 1] == w[n];
      PiecesOfWord(s, w[..n]);
      assert w[..n] + [w[n]] == w;
    }
  }

  lemma {:induction false} PiecesOfOne(w: string)
    requires forall k | 0 <= k < |w| :: !Space(w[k])
    ensures Pieces(w) == [w]
  {
    if w != "" {
      PiecesOfOne(w[..|w| - 1]);
      assert w[..|w| - 1] + [w[|w| - 1]] == w;
    }
  }

  lemma LowerKeepsSpaces(s: string)
    ensures forall k | 0 <= k < |s| :: Space(Lower(s)[k]) <==> Space(s[k])
  {}

  /** The first word typed is the only search word. */
  lemma TokensOfFirst(w: string)
    requires w != "" && forall k | 0 <= k < |w| :: !Space(w[k])
    ensures Tokens(w) == [Lower(w)]
  {
    LowerKeepsSpaces(w);
    PiecesOfOne(Lower(w));
    FilterOne(Lower(w), (p: string) => p != "");
  }

  /** A space behind a query, or nothing at all, makes no word. */
  lemma SpacesMakeNone(query: string, c: char)
    requires Space(c)
    ensures Tokens(query + [c]) == Tokens(query) && Tokens("") == []
  {
    var nonEmpty, lower := (p: string) => p != "", Lower(query + [c]);
    LowerKeepsSpaces([c]);
    LowerConcat(query, [c]);
    assert lower[..|lower| - 1] == Lower(query) && lower[|lower| - 1] == Lower([c])[0];
    FilterConcat(Pieces(Lower(query)), [""], nonEmpty);
    FilterOne("", nonEmpty);
    assert Lower("") == "";
    PiecesOfOne("");
  }

  /** Typing one more word adds it to the search words. */
  lemma TokensOfWord(query: string, w: string)
    requires w != "" && forall k | 0 <= k < |w| :: !Space(w[k])
    ensures Tokens(query + " " + w) == Tokens(query) + [Lower(w)]
  {
    assert Lower(query + " " + w) == Lower(query) + " " + Lower(w);
    assert forall k | 0 <= k < |w| :: Lower(w)[k] == LowerChar(w[k]) && !Space(LowerChar(w[k]));
    PiecesOfWord(Lower(query), Lower(w));
    FilterConcat(Pieces(Lower(query)), [Lower(w)], (p: string) => p != "");
    FilterOne(Lower(w), (p: string) => p != "");
  }

  // ---------------------------------------------------------------- one word against one entry

  /** Where `p` first occurs. */
  function IndexOf(s: string, p: string): (r: Option<nat>)
    ensures r.Some? ==> r.value + |p| <= |s|
  {
    if StartsWith(s, p) then Some(0)
    else if s == "" then None
    else match IndexOf(s[1..], p) case None => None case Some(i) => Some(i + 1)
  }

  function UntilPath(s: string): (r: string)
    ensures r <= s
  {
    if s == "" || s[0] in "/?#" then "" else [s[0]] + UntilPath(s[1..])
  }

  function HostOf(url: string): string {
    match IndexOf(url, "://")
    case None => Lower(url)
    case Some(i) => Lower(UntilPath(url[i + 3..]))
  }

  function UrlScore(url: string, token: string): int {
    if StartsWith(HostOf(url), token) then 100
    else if Includes(HostOf(url), token) then 70
    else if Includes(Lower(url), token) then 25
    else -1
  }

  function TextScore(e: Entry, token: string): int {
    var title := Lower(e.title);
    var best := if StartsWith(title, token) then 90 else if Includes(title, token) then 55 else -1;
    var best' := if e.group != "" && Includes(Lower(e.group), token) then Max(best, 20) else best;
    if e.db != "" && Lower(e.db) == token then Max(best', 15) else best'
  }

  lemma LowerConcat(a: string, b: string)
    ensures Lower(a + b) == Lower(a) + Lower(b)
  {}

  lemma HostIsInside(url: string) returns (a: string, b: string)
    ensures Lower(url) == a + HostOf(url) + b
  {
    a, b := "", "";
    match IndexOf(url, "://") {
      case None =>
      case Some(i) =>
        a, b := HostBehind(url, i + 3);
    }
  }

  lemma HostBehind(url: string, start: nat) returns (a: string, b: string)
    requires start <= |url|
    ensures Lower(url) == a + Lower(UntilPath(url[start..])) + b
  {
    var rest := url[start..];
    a := Lower(url[..start]);
    b := HostInFront(rest);
    LowerConcat(url[..start], rest);
    assert url[..start] + rest == url;
    assert a + (Lower(UntilPath(rest)) + b) == a + Lower(UntilPath(rest)) + b;
  }

  lemma HostInFront(rest: string) returns (b: string)
    ensures Lower(rest) == Lower(UntilPath(rest)) + b
  {
    var host := UntilPath(rest);
    var back := rest[|host|..];
    b := Lower(back);
    LowerConcat(host, back);
    assert host + back == rest;
  }

  lemma {:induction false} IndexOfFirst(s: string, p: string, i: nat)
    requires i <= |s| && StartsWith(s[i..], p) && forall k | 0 <= k < i :: !StartsWith(s[k..], p)
    ensures IndexOf(s, p) == Some(i)
  {
    if i > 0 {
      assert s[0..] == s;
      forall k | 0 <= k < i - 1 ensures !StartsWith(s[1..][k..], p) {
        assert s[1..][k..] == s[k + 1..];
      }
      assert s[1..][i - 1..] == s[i..];
      IndexOfFirst(s[1..], p, i - 1);
    }
  }

  lemma {:induction false} IndexOfNone(s: string, p: string)
    requires !Includes(s, p)
    ensures IndexOf(s, p) == None
  {
    if s != "" {
      IndexOfNone(s[1..], p);
    }
  }

  lemma {:induction false} PathEndsHost(host: string, tail: string)
    requires (forall k | 0 <= k < |host| :: host[k] !in "/?#") && (tail == "" || tail[0] in "/?#")
    ensures UntilPath(host + tail) == host
  {
    if host == "" {
      assert host + tail == tail;
    } else {
      assert (host + tail)[1..] == host[1..] + tail;
      PathEndsHost(host[1..], tail);
    }
  }

  /**
   The host of an address: what stands behind the first "://" and before the path, the query or the fragment; and the
   whole address if it has no scheme. Case does not matter.
   */
  lemma HostIs(scheme: string, host: string, tail: string)
    requires forall k | 0 <= k < |scheme| :: !StartsWith((scheme + "://" + host + tail)[k..], "://")
    requires (forall k | 0 <= k < |host| :: host[k] !in "/?#") && (tail == "" || tail[0] in "/?#")
    ensures HostOf(scheme + "://" + host + tail) == Lower(host)
    ensures forall url | !Includes(url, "://") :: HostOf(url) == Lower(url)
  {
    var url := scheme + "://" + host + tail;
    assert url[|scheme|..] == "://" + host + tail;
    IndexOfFirst(url, "://", |scheme|);
    assert url[|scheme| + 3..] == host + tail;
    PathEndsHost(host, tail);
    forall url | !Includes(url, "://") ensures HostOf(url) == Lower(url) {
      IndexOfNone(url, "://");
    }
  }

  /** The same letter, or one its capital. */
  predicate SameLetter(a: char, b: char) {
    a == b || ('A' <= a <= 'Z' && b as int - a as int == 32) || ('A' <= b <= 'Z' && a as int - b as int == 32)
  }

  /** Lower-casing forgets the case of letters, and nothing else. */
  lemma LowerForgetsCase(a: string, b: string)
    ensures Lower(a) == Lower(b) <==> |a| == |b| && forall k | 0 <= k < |a| :: SameLetter(a[k], b[k])
    ensures forall k | 0 <= k < |a| :: !('A' <= Lower(a)[k] <= 'Z')
  {
    if Lower(a) == Lower(b) {
      forall k | 0 <= k < |a| ensures SameLetter(a[k], b[k]) {
        assert Lower(a)[k] == Lower(b)[k];
      }
    } else if |a| == |b| {
      var k :| 0 <= k < |a| && Lower(a)[k] != Lower(b)[k];
      assert !SameLetter(a[k], b[k]);
    }
  }

  /** An address scores exactly when the word occurs somewhere in it. */
  lemma UrlScoreMeaning(url: string, token: string)
    ensures UrlScore(url, token) >= 0 <==> Includes(Lower(url), token)
    ensures UrlScore(url, token) < 0 <==> UrlScore(url, token) == -1
  {
    var a, b := HostIsInside(url);
    if Includes(HostOf(url), token) {
      IncludesInside(a, HostOf(url), b, token);
    }
  }

  predicate TextMatches(e: Entry, token: string) {
    || Includes(Lower(e.title), token)
    || (e.group != "" && Includes(Lower(e.group), token))
    || (e.db != "" && Lower(e.db) == token)
  }

  /** A word matches an entry through its title, its group, its database's whole name or one of its addresses. */
  predicate Matches(e: Entry, token: string) {
    TextMatches(e, token) || exists i :: 0 <= i < |e.urls| && Includes(Lower(e.urls[i]), token)
  }

  lemma TextScoreMeaning(e: Entry, token: string)
    ensures TextScore(e, token) > 0 <==> TextMatches(e, token)
    ensures TextScore(e, token) <= 0 <==> TextScore(e, token) == -1
  {}

  // ---------------------------------------------------------------- a whole query against one entry

  // One word's scores on an entry: on its text and on each address.
  datatype Row = Row(text: int, urls: seq<int>)

  datatype Scored = Scored(total: int, perUrl: seq<int>, textTotal: int)

  function RowOf(e: Entry, token: string): (r: Row)
    ensures |r.urls| == |e.urls|
  {
    Row(TextScore(e, token), seq(|e.urls|, i requires 0 <= i < |e.urls| => UrlScore(e.urls[i], token)))
  }

  function RowsOf(e: Entry, tokens: seq<string>): (r: seq<Row>)
    ensures |r| == |tokens| && Rectangular(r, |e.urls|)
  {
    if tokens == [] then []
    else RowsOf(e, tokens[..|tokens| - 1]) + [RowOf(e, tokens[|tokens| - 1])]
  }

  predicate Rectangular(rows: seq<Row>, width: nat) {
    forall k | 0 <= k < |rows| :: |rows[k].urls| == width
  }

  /** The best score of one word among the text and the first n addresses. */
  function Best(row: Row, n: nat): int
    requires n <= |row.urls|
  {
    if n == 0 then row.text else Max(Best(row, n - 1), row.urls[n - 1])
  }

  function Gain(score: int): int {
    if score < 0 then 0 else score
  }

  function Total(rows: seq<Row>): int {
    if rows == [] then 0
    else var last := rows[|rows| - 1]; Total(rows[..|rows| - 1]) + Best(last, |last.urls|)
  }

  function TextTotal(rows: seq<Row>): int {
    if rows == [] then 0 else TextTotal(rows[..|rows| - 1]) + Gain(rows[|rows| - 1].text)
  }

  function UrlTotal(rows: seq<Row>, i: nat): int
    requires forall k | 0 <= k < |rows| :: i < |rows[k].urls|
  {
    if rows == [] then 0 else UrlTotal(rows[..|rows| - 1], i) + Gain(rows[|rows| - 1].urls[i])
  }

  function UrlTotals(rows: seq<Row>, width: nat): (r: seq<int>)
    requires Rectangular(rows, width)
    ensures |r| == width
  {
    seq(width, i requires 0 <= i < width => UrlTotal(rows, i))
  }

  /** Every word scores somewhere. */
  predicate Scores(rows: seq<Row>) {
    forall k | 0 <= k < |rows| :: Best(rows[k], |rows[k].urls|) >= 0
  }

  /** Entries without an address are shown, but further down. */
  function Combined(rows: seq<Row>, width: nat): Scored
    requires Rectangular(rows, width)
  {
    Scored(Total(rows) - (if width == 0 then 30 else 0), UrlTotals(rows, width), TextTotal(rows))
  }

  method ScoreEntry(e: Entry, tokens: seq<string>) returns (r: Option<Scored>)
    ensures r == if Scores(RowsOf(e, tokens)) then Some(Combined(RowsOf(e, tokens), |e.urls|)) else None
  {
    ghost var rows := RowsOf(e, tokens);
    var perUrl := seq(|e.urls|, _ => 0);
    var total, textTotal := 0, 0;
    assert perUrl == UrlTotals([], |e.urls|);
    for k := 0 to |tokens|
      invariant total == Total(rows[..k]) && textTotal == TextTotal(rows[..k])
      invariant Rectangular(rows[..k], |e.urls|) && perUrl == UrlTotals(rows[..k], |e.urls|)
      invariant Scores(rows[..k])
    {
      assert rows[..k + 1] == rows[..k] + [rows[k]];
      var row := ScoreWord(e, tokens, k);
      if row.text > 0 {
        textTotal := textTotal + row.text;
      }
      var best;
      best, perUrl := AddRow(rows[..k], row, perUrl);
      if best < 0 {
        return None;
      }
      total := total + best;
    }
    assert rows[..|tokens|] == rows;
    if |e.urls| == 0 {
      total := total - 30;
    }
    return Some(Scored(total, perUrl, textTotal));
  }

  method ScoreWord(e: Entry, tokens: seq<string>, k: nat) returns (row: Row)
    requires k < |tokens|
    ensures row == RowsOf(e, tokens)[k]
  {
    var token := tokens[k];
    RowAt(e, tokens, k);
    var scores: seq<int> := [];
    for i := 0 to |e.urls|
      invariant |scores| == i && forall j | 0 <= j < i :: scores[j] == UrlScore(e.urls[j], token)
    {
      scores := scores + [UrlScore(e.urls[i], token)];
    }
    return Row(TextScore(e, token), scores);
  }

  /** The inner loop: one more word's scores on every address, and the best of them and the text's. */
  method AddRow(ghost before: seq<Row>, row: Row, scores: seq<int>) returns (best: int, perUrl: seq<int>)
    requires Rectangular(before, |row.urls|) && scores == UrlTotals(before, |row.urls|)
    ensures Rectangular(before + [row], |row.urls|)
    ensures if best < 0 then Best(row, |row.urls|) < 0 else best == Best(row, |row.urls|)
    ensures perUrl == UrlTotals(before + [row], |row.urls|)
  {
    best, perUrl := row.text, scores;
    assert (before + [row])[..|before|] == before;
    for i := 0 to |row.urls|
      invariant |perUrl| == |row.urls|
      invariant if best < 0 then Best(row, i) < 0 else best == Best(row, i)
      invariant forall j | 0 <= j < i :: perUrl[j] == scores[j] + Gain(row.urls[j])
      invariant forall j | i <= j < |row.urls| :: perUrl[j] == scores[j]
    {
      var s := row.urls[i];
      if s < 0 {
        continue;
      }
      perUrl := perUrl[i := perUrl[i] + s];
      if s > best {
        best := s;
      }
    }
  }

  lemma {:induction false} RowAt(e: Entry, tokens: seq<string>, k: nat)
    requires k < |tokens|
    ensures RowsOf(e, tokens)[k] == RowOf(e, tokens[k])
  {
    if k < |tokens| - 1 {
      RowAt(e, tokens[..|tokens| - 1], k);
    }
  }

  /** A word scores on an entry exactly when it matches it. */
  lemma BestMeaning(e: Entry, token: string)
    ensures Best(RowOf(e, token), |e.urls|) >= 0 <==> Matches(e, token)
  {
    var row := RowOf(e, token);
    BestIff(row, |e.urls|);
    TextScoreMeaning(e, token);
    forall i | 0 <= i < |e.urls| ensures row.urls[i] >= 0 <==> Includes(Lower(e.urls[i]), token) {
      UrlScoreMeaning(e.urls[i], token);
    }
  }

  lemma {:induction false} BestIff(row: Row, n: nat)
    requires n <= |row.urls|
    ensures Best(row, n) >= 0 <==> row.text >= 0 || exists i :: 0 <= i < n && row.urls[i] >= 0
  {
    if n > 0 {
      BestIff(row, n - 1);
    }
  }

  lemma {:induction false} BestIsMax(row: Row, n: nat)
    requires n <= |row.urls|
    ensures row.text <= Best(row, n) && forall i | 0 <= i < n :: row.urls[i] <= Best(row, n)
    ensures Best(row, n) == row.text || exists i :: 0 <= i < n && row.urls[i] == Best(row, n)
  {
    if n > 0 {
      BestIsMax(row, n - 1);
    }
  }

  /** What a word is worth on an entry, by the best place it occurs in. */
  function Worth(e: Entry, token: string): int {
    if exists i :: 0 <= i < |e.urls| && StartsWith(HostOf(e.urls[i]), token) then 100
    else if StartsWith(Lower(e.title), token) then 90
    else if exists i :: 0 <= i < |e.urls| && Includes(HostOf(e.urls[i]), token) then 70
    else if Includes(Lower(e.title), token) then 55
    else if exists i :: 0 <= i < |e.urls| && Includes(Lower(e.urls[i]), token) then 25
    else if e.group != "" && Includes(Lower(e.group), token) then 20
    else if e.db != "" && Lower(e.db) == token then 15
    else -1
  }

  /** A match on the host outweighs one on the title of the same kind, and that one any match further inside. */
  lemma BestIsWorth(e: Entry, token: string)
    ensures Best(RowOf(e, token), |e.urls|) == Worth(e, token)
  {
    var row := RowOf(e, token);
    BestIsMax(row, |e.urls|);
    forall i | 0 <= i < |e.urls| ensures UrlKind(row.urls[i], e.urls[i], token) {
      UrlScoreKind(e.urls[i], token);
    }
    TextScoreKind(e, token);
  }

  predicate UrlKind(score: int, url: string, token: string) {
    && (score == 100 <==> StartsWith(HostOf(url), token))
    && (score >= 70 <==> Includes(HostOf(url), token))
    && (score >= 25 <==> Includes(Lower(url), token))
    && (score == 100 || score == 70 || score == 25 || score == -1)
  }

  lemma UrlScoreKind(url: string, token: string)
    ensures UrlKind(UrlScore(url, token), url, token)
  {
    UrlScoreMeaning(url, token);
    var a, b := HostIsInside(url);
    if Includes(HostOf(url), token) {
      IncludesInside(a, HostOf(url), b, token);
    }
  }

  lemma TextScoreKind(e: Entry, token: string)
    ensures TextScore(e, token)
         == if StartsWith(Lower(e.title), token) then 90
            else if Includes(Lower(e.title), token) then 55
            else if e.group != "" && Includes(Lower(e.group), token) then 20
            else if e.db != "" && Lower(e.db) == token then 15
            else -1
  {}

  function WorthOfAll(e: Entry, tokens: seq<string>): int {
    if tokens == [] then 0
    else WorthOfAll(e, tokens[..|tokens| - 1]) + Worth(e, tokens[|tokens| - 1])
  }

  /** A query is worth the sum of its words; an entry that has no address is put back by thirty. */
  lemma TotalIsWorth(e: Entry, tokens: seq<string>)
    ensures ScoreOf(e, tokens).total == WorthOfAll(e, tokens) - (if e.urls == [] then 30 else 0)
  {
    RowsAreWorth(e, tokens);
  }

  lemma {:induction false} RowsAreWorth(e: Entry, tokens: seq<string>)
    ensures Total(RowsOf(e, tokens)) == WorthOfAll(e, tokens)
  {
    if tokens != [] {
      var n := |tokens| - 1;
      RowsAreWorth(e, tokens[..n]);
      BestIsWorth(e, tokens[n]);
      assert RowsOf(e, tokens)[..n] == RowsOf(e, tokens[..n]);
    }
  }

  /** One more word adds to each address, and to the text, what it is worth there; where it does not occur, nothing. */
  lemma WordAdds(e: Entry, tokens: seq<string>, token: string, i: nat)
    requires i < |e.urls|
    ensures ScoreOf(e, []).perUrl[i] == 0 && ScoreOf(e, []).textTotal == 0
    ensures var url, title := e.urls[i], Lower(e.title);
            ScoreOf(e, tokens + [token]).perUrl[i] - ScoreOf(e, tokens).perUrl[i]
            == (if StartsWith(HostOf(url), token) then 100
                else if Includes(HostOf(url), token) then 70
                else if Includes(Lower(url), token) then 25
                else 0)
    ensures ScoreOf(e, tokens + [token]).textTotal - ScoreOf(e, tokens).textTotal
         == (if StartsWith(Lower(e.title), token) then 90
             else if Includes(Lower(e.title), token) then 55
             else if e.group != "" && Includes(Lower(e.group), token) then 20
             else if e.db != "" && Lower(e.db) == token then 15
             else 0)
  {
    assert (tokens + [token])[..|tokens|] == tokens;
    var rows := RowsOf(e, tokens + [token]);
    assert rows == RowsOf(e, tokens) + [RowOf(e, token)] && rows[..|tokens|] == RowsOf(e, tokens);
    UrlScoreKind(e.urls[i], token);
    TextScoreKind(e, token);
  }

  /** Every word matches. */
  predicate Hits(e: Entry, tokens: seq<string>) {
    forall k | 0 <= k < |tokens| :: Matches(e, tokens[k])
  }

  /** An entry scores exactly when every word matches it, wherever each one does. */
  lemma HitIff(e: Entry, tokens: seq<string>)
    ensures Scores(RowsOf(e, tokens)) <==> Hits(e, tokens)
  {
    forall k | 0 <= k < |tokens|
      ensures Best(RowsOf(e, tokens)[k], |RowsOf(e, tokens)[k].urls|) >= 0 <==> Matches(e, tokens[k])
    {
      RowAt(e, tokens, k);
      BestMeaning(e, tokens[k]);
    }
  }

  function ScoreOf(e: Entry, tokens: seq<string>): Scored {
    Combined(RowsOf(e, tokens), |e.urls|)
  }

  // ---------------------------------------------------------------- the address of a hit

  datatype Ranked = Ranked(url: string, score: int)

  function WithScores(e: Entry, scores: seq<int>): seq<Ranked>
    requires |scores| == |e.urls|
  {
    seq(|e.urls|, i requires 0 <= i < |e.urls| => Ranked(e.urls[i], scores[i]))
  }

  function HigherScore(): (Ranked, Ranked) -> bool {
    (a: Ranked, b: Ranked) => a.score > b.score
  }

  /** All addresses, best first. */
  function RankedURLs(e: Entry, scores: seq<int>): seq<Ranked>
    requires |scores| == |e.urls|
  {
    StableSort(WithScores(e, scores), HigherScore())
  }

  /** The ranking holds every address once, falls in score, and keeps the order of equal scores. */
  lemma RankingIsStable(e: Entry, scores: seq<int>, score: int)
    requires |scores| == |e.urls|
    ensures var r := RankedURLs(e, scores);
            && multiset(r) == multiset(WithScores(e, scores)) && |r| == |e.urls|
            && (forall i, j | 0 <= i < j < |r| :: r[i].score >= r[j].score)
            && Filter(r, (x: Ranked) => x.score == score) == Filter(WithScores(e, scores), (x: Ranked) => x.score == score)
  {
    var s, less, p := WithScores(e, scores), HigherScore(), (x: Ranked) => x.score == score;
    SortContents(s, less);
    SortSorted(s, less);
    SortKeepsLevel(s, less, p);
    var r := RankedURLs(e, scores);
    forall i, j | 0 <= i < j < |r| ensures r[i].score >= r[j].score {
      assert !less(r[j], r[i]);
    }
  }

  predicate FirstMax(scores: seq<int>, i: nat) {
    && i < |scores|
    && (forall k | 0 <= k < |scores| :: scores[k] <= scores[i])
    && (forall k | 0 <= k < i :: scores[k] < scores[i])
  }

  /** The address a hit opens: the first of the best scored, but the primary one if the text scored as high. */
  method BestURL(e: Entry, scored: Scored) returns (r: Option<string>)
    requires |scored.perUrl| == |e.urls|
    ensures e.urls == [] <==> r.None?
    ensures forall i: nat | FirstMax(scored.perUrl, i) ::
              r == Some(if scored.textTotal >= scored.perUrl[i] then e.urls[0] else e.urls[i])
  {
    if e.urls == [] {
      return None;
    }
    var best := 0;
    for i := 1 to |e.urls|
      invariant FirstMax(scored.perUrl[..i], best)
    {
      assert scored.perUrl[..i + 1][..i] == scored.perUrl[..i];
      if scored.perUrl[i] > scored.perUrl[best] {
        best := i;
      }
    }
    assert scored.perUrl[..|e.urls|] == scored.perUrl;
    if scored.textTotal >= scored.perUrl[best] {
      best := 0;
    }
    return Some(e.urls[best]);
  }

  /** Which address that is, as a function. */
  function BestOf(e: Entry, scored: Scored): Option<string>
    requires |scored.perUrl| == |e.urls|
  {
    if e.urls == [] then None
    else
      var i := FirstMaxOf(scored.perUrl);
      Some(if scored.textTotal >= scored.perUrl[i] then e.urls[0] else e.urls[i])
  }

  function FirstMaxOf(scores: seq<int>): (i: nat)
    requires scores != []
    ensures FirstMax(scores, i)
  {
    if |scores| == 1 then 0
    else
      var n := |scores| - 1;
      var i := FirstMaxOf(scores[..n]);
      if scores[n] > scores[i] then n else i
  }

  lemma FirstRanked(e: Entry, scores: seq<int>)
    requires |scores| == |e.urls| && e.urls != []
    ensures RankedURLs(e, scores) != []
    ensures RankedURLs(e, scores)[0] == Ranked(e.urls[FirstMaxOf(scores)], scores[FirstMaxOf(scores)])
  {
    SortFirst(WithScores(e, scores), HigherScore(), FirstMaxOf(scores));
  }

  /**
   The address a hit opens tops its unfolded list if and only if some address scored higher than the text, or
   the primary address is the best scored anyway.
   */
  lemma BestIsFirstRankedIff(e: Entry, scored: Scored)
    requires |scored.perUrl| == |e.urls| && e.urls != []
    ensures var first := FirstMaxOf(scored.perUrl);
            RankedURLs(e, scored.perUrl) != [] &&
            (BestOf(e, scored) == Some(RankedURLs(e, scored.perUrl)[0].url)
             <==> scored.textTotal < scored.perUrl[first] || e.urls[0] == e.urls[first])
  {
    FirstRanked(e, scored.perUrl);
  }

  lemma {:induction false} IncludesChar(s: string, c: char)
    ensures Includes(s, [c]) <==> c in s
  {
    if s != "" {
      IncludesChar(s[1..], c);
      assert s == [s[0]] + s[1..];
      assert StartsWith(s, [c]) <==> s[0] == c;
    }
  }

  // An entry whose title is the word searched for, and whose second address merely includes it.
  const TWO_ADDRESSES := Entry("7", "b", "", "home", ["http://a", "http://ab"])

  /** The host of an address without a path is what follows the scheme. */
  lemma HostBehindScheme(url: string, scheme: string, host: string)
    requires url == scheme + "://" + host && ':' !in scheme
    requires forall k | 0 <= k < |host| :: host[k] != '/' && host[k] != '?' && host[k] != '#'
    ensures HostOf(url) == Lower(host)
  {
    forall k | 0 <= k < |scheme| ensures !StartsWith(url[k..], "://") {
      assert url[k] == scheme[k] && scheme[k] in scheme;
    }
    assert scheme + "://" + host + "" == url;
    HostIs(scheme, host, "");
  }

  lemma TokensOfOneLetter(c: char)
    requires !Space(LowerChar(c))
    ensures Tokens([c]) == [[LowerChar(c)]]
  {
    var w := [LowerChar(c)];
    assert Lower([c]) == w;
    assert w[..0] == "" && Pieces(w[..0]) == [""];
    assert "" + [w[0]] == w;
    assert Pieces(w) == [""][..0] + ["" + [w[0]]];
    FilterOne(w, (p: string) => p != "");
  }

  lemma FirstHost()
    ensures UrlScore("http://a", "b") == -1
  {
    HostBehindScheme("http://a", "http", "a");
    assert Lower("a") == "a";
    IncludesChar("a", 'b');
    LettersOfFirst();
    IncludesChar(Lower("http://a"), 'b');
  }

  lemma LettersOfFirst()
    ensures 'b' !in Lower("http://a")
  {
    LowerConcat("http://", "a");
    assert "http://" + "a" == "http://a";
  }

  lemma SecondHost()
    ensures UrlScore("http://ab", "b") == 70
  {
    HostBehindScheme("http://ab", "http", "ab");
    assert Lower("ab") == "ab";
    IncludesChar("ab", 'b');
  }

  lemma TitleOfWitness()
    ensures TextScore(TWO_ADDRESSES, "b") == 90
  {
    assert Lower("b") == "b";
    TextScoreKind(TWO_ADDRESSES, "b");
  }

  lemma RowOfTwo(e: Entry, token: string)
    requires |e.urls| == 2
    ensures RowOf(e, token) == Row(TextScore(e, token), [UrlScore(e.urls[0], token), UrlScore(e.urls[1], token)])
  {
    assert RowOf(e, token).urls == [UrlScore(e.urls[0], token), UrlScore(e.urls[1], token)];
  }

  lemma RowOfWitness()
    ensures RowOf(TWO_ADDRESSES, "b") == Row(90, [-1, 70])
  {
    FirstHost();
    SecondHost();
    TitleOfWitness();
    RowOfTwo(TWO_ADDRESSES, "b");
  }

  /** One word's row alone. */
  lemma OneRow(row: Row, width: nat)
    requires |row.urls| == width
    ensures TextTotal([row]) == Gain(row.text)
    ensures UrlTotals([row], width) == seq(width, i requires 0 <= i < width => Gain(row.urls[i]))
  {
    assert [row][..0] == [];
    forall i | 0 <= i < width ensures UrlTotal([row], i) == Gain(row.urls[i]) {
      assert UrlTotal([row][..0], i) == 0;
    }
  }

  lemma ScoreOfWitness()
    ensures ScoreOf(TWO_ADDRESSES, ["b"]).textTotal == 90 && ScoreOf(TWO_ADDRESSES, ["b"]).perUrl == [0, 70]
  {
    RowOfWitness();
    assert ["b"][..0] == [];
    assert RowsOf(TWO_ADDRESSES, ["b"]) == [Row(90, [-1, 70])];
    OneRow(Row(90, [-1, 70]), 2);
  }

  lemma SecondOnTop(e: Entry, s: Scored, x: int, y: int)
    requires |e.urls| == 2 && s.perUrl == [x, y] && x < y <= s.textTotal
    ensures BestOf(e, s) == Some(e.urls[0])
    ensures RankedURLs(e, s.perUrl) != [] && RankedURLs(e, s.perUrl)[0].url == e.urls[1]
  {
    assert s.perUrl[..1] == [x];
    FirstRanked(e, s.perUrl);
  }

  /** The witness: searching for "b" opens the first address, while the second tops the unfolded list. */
  lemma TopRowIsNotWhatEnterOpens()
    ensures var s := ScoreOf(TWO_ADDRESSES, Tokens("b"));
            && BestOf(TWO_ADDRESSES, s) == Some("http://a")
            && RankedURLs(TWO_ADDRESSES, s.perUrl) != []
            && RankedURLs(TWO_ADDRESSES, s.perUrl)[0].url == "http://ab"
  {
    TokensOfOneLetter('b');
    ScoreOfWitness();
    SecondOnTop(TWO_ADDRESSES, ScoreOf(TWO_ADDRESSES, ["b"]), 0, 70);
  }

  // ---------------------------------------------------------------- the whole index

  datatype Hit = Hit(entry: Entry, score: int, url: Option<string>, urlScores: seq<int>)

  predicate WellFormed(h: Hit) {
    |h.urlScores| == |h.entry.urls|
  }

  function HitOf(e: Entry, tokens: seq<string>): (h: Hit)
    ensures WellFormed(h)
  {
    var s := ScoreOf(e, tokens);
    Hit(e, s.total, BestOf(e, s), s.perUrl)
  }

  function HitsOf(index: seq<Entry>, tokens: seq<string>): seq<Hit> {
    if index == [] then []
    else
      var n := |index| - 1;
      HitsOf(index[..n], tokens) + (if Scores(RowsOf(index[n], tokens)) then [HitOf(index[n], tokens)] else [])
  }

  /** By falling score, then by title in the locale's order. */
  function Better(rank: string -> real): (Hit, Hit) -> bool {
    (a: Hit, b: Hit) => a.score > b.score || (a.score == b.score && rank(a.entry.title) < rank(b.entry.title))
  }

  function AllResults(index: seq<Entry>, query: string, rank: string -> real): seq<Hit> {
    if Tokens(query) == [] then [] else StableSort(HitsOf(index, Tokens(query)), Better(rank))
  }

  method SearchIndex(index: seq<Entry>, query: string, limit: nat, rank: string -> real) returns (r: seq<Hit>)
    ensures r == AllResults(index, query, rank)[..if limit < |AllResults(index, query, rank)| then limit
                                                  else |AllResults(index, query, rank)|]
  {
    var tokens := Tokens(query);
    if tokens == [] {
      return [];
    }
    var hits: seq<Hit> := [];
    for i := 0 to |index|
      invariant hits == HitsOf(index[..i], tokens)
    {
      assert index[..i + 1][..i] == index[..i];
      var hit := FindHit(index[i], tokens);
      if hit.None? {
        continue;
      }
      hits := hits + [hit.value];
    }
    assert index[..|index|] == index;
    var sorted := StableSort(hits, Better(rank));
    return sorted[..if limit < |sorted| then limit else |sorted|];
  }

  method FindHit(e: Entry, tokens: seq<string>) returns (hit: Option<Hit>)
    ensures hit == if Scores(RowsOf(e, tokens)) then Some(HitOf(e, tokens)) else None
  {
    var scored := ScoreEntry(e, tokens);
    if scored.None? {
      return None;
    }
    var url := BestURL(e, scored.value);
    assert url == BestOf(e, scored.value) by {
      if e.urls != [] {
        assert FirstMax(scored.value.perUrl, FirstMaxOf(scored.value.perUrl));
      }
    }
    return Some(Hit(e, scored.value.total, url, scored.value.perUrl));
  }

  function Entries(hits: seq<Hit>): seq<Entry> {
    seq(|hits|, k requires 0 <= k < |hits| => hits[k].entry)
  }

  /** Before sorting there is one hit for each entry that every word matches, in index order, and no other. */
  lemma {:induction false} HitsAreTheMatches(index: seq<Entry>, tokens: seq<string>)
    ensures Entries(HitsOf(index, tokens)) == Filter(index, (e: Entry) => Hits(e, tokens))
  {
    if index != [] {
      var n := |index| - 1;
      HitsAreTheMatches(index[..n], tokens);
      HitIff(index[n], tokens);
      EntriesSnoc(HitsOf(index[..n], tokens), HitOf(index[n], tokens));
    }
  }

  lemma EntriesSnoc(hits: seq<Hit>, h: Hit)
    ensures Entries(hits + [h]) == Entries(hits) + [h.entry]
    ensures Entries(hits + []) == Entries(hits)
  {
    assert hits + [] == hits;
  }

  /** The results are the matches, each once, ordered by score and then title, ties in index order. */
  lemma ResultsAreSorted(index: seq<Entry>, query: string, rank: string -> real, h: Hit)
    requires Tokens(query) != []
    ensures var r, hits, less := AllResults(index, query, rank), HitsOf(index, Tokens(query)), Better(rank);
            && multiset(r) == multiset(hits)
            && (forall i, j | 0 <= i < j < |r| ::
                  r[i].score > r[j].score
                  || (r[i].score == r[j].score && rank(r[i].entry.title) <= rank(r[j].entry.title)))
            && Filter(r, Ties(h, less)) == Filter(hits, Ties(h, less))
  {
    var hits, less := HitsOf(index, Tokens(query)), Better(rank);
    SortContents(hits, less);
    SortSorted(hits, less);
    SortStable(hits, less, h);
    var r := AllResults(index, query, rank);
    forall i, j | 0 <= i < j < |r|
      ensures r[i].score > r[j].score
              || (r[i].score == r[j].score && rank(r[i].entry.title) <= rank(r[j].entry.title))
    {
      assert !less(r[j], r[i]);
    }
  }

  lemma {:induction false} FewerMatches<T>(s: seq<T>, p: T -> bool, q: T -> bool)
    requires forall x | p(x) :: q(x)
    ensures multiset(Filter(s, p)) <= multiset(Filter(s, q))
  {
    if s != [] {
      FewerMatches(s[..|s| - 1], p, q);
    }
  }

  /** Typing one more word only ever narrows the results, once there is a word at all. */
  lemma OneMoreWordNarrows(index: seq<Entry>, query: string, w: string, rank: string -> real)
    requires Tokens(query) != []
    requires w != "" && forall k | 0 <= k < |w| :: !Space(w[k])
    ensures multiset(Entries(AllResults(index, query + " " + w, rank))) <= multiset(Entries(AllResults(index, query, rank)))
  {
    var few, many := Tokens(query + " " + w), Tokens(query);
    TokensOfWord(query, w);
    HitsAreTheMatches(index, few);
    HitsAreTheMatches(index, many);
    forall e: Entry | Hits(e, few) ensures Hits(e, many) {
      assert forall k | 0 <= k < |many| :: many[k] == few[k];
    }
    FewerMatches(index, (e: Entry) => Hits(e, few), (e: Entry) => Hits(e, many));
    SameEntries(HitsOf(index, few), Better(rank));
    SameEntries(HitsOf(index, many), Better(rank));
  }

  lemma {:induction false} InsertedEntry(x: Hit, s: seq<Hit>, less: (Hit, Hit) -> bool)
    ensures multiset(Entries(Insert(x, s, less))) == multiset(Entries(s)) + multiset{x.entry}
  {
    EntriesFront(Insert(x, s, less));
    if s != [] && less(s[0], x) {
      InsertedEntry(x, s[1..], less);
      EntriesFront(s);
    }
  }

  lemma EntriesFront(s: seq<Hit>)
    ensures s != [] ==> Entries(s) == [s[0].entry] + Entries(s[1..])
  {}

  lemma {:induction false} SameEntries(hits: seq<Hit>, less: (Hit, Hit) -> bool)
    ensures multiset(Entries(StableSort(hits, less))) == multiset(Entries(hits))
  {
    if hits != [] {
      SameEntries(hits[1..], less);
      InsertedEntry(hits[0], StableSort(hits[1..], less), less);
      EntriesFront(hits);
    }
  }
}
