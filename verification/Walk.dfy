/**
 Following next_cursor from page to page.
 */
module Walk {
  import opened Options
  import opened Queries
  import opened Cursors
  import opened Pagination

  predicate Under(row: Row, p: Position) {
    Precedes(row.createdAt, row.id, p.at, p.id)
  }

  lemma CursorFilter(request: Request, p: Position, row: Row, slugs: Slugs)
    ensures Meets(row, RequestFilters(request, Some(p)), slugs)
        <==> Meets(row, RequestFilters(request, None), slugs) && Under(row, p)
  {
    var r := request;
    UserFiltersMean(row, slugs, r.user, r.integration, None, None, r.status, r.jobType);
    UserFiltersMean(row, slugs, r.user, r.integration, Some(p.at), Some(p.id), r.status, r.jobType);
  }

  predicate Sound(rows: seq<Row>, slugs: Slugs) {
    Typed(rows, slugs) && UniqueIds(rows)
  }

  // The two tables hold the same rows under p: above it rows may have come, gone or changed.
  ghost predicate SameUnder(a: seq<Row>, b: seq<Row>, p: Position) {
    forall row :: Under(row, p) ==> (row in a <==> row in b)
  }

  // All that the request asks for
  function Wanted(request: Request, rows: seq<Row>, slugs: Slugs): seq<Row> {
    Listed(rows, RequestFilters(request, None), slugs)
  }

  lemma ListedIsRight(rows: seq<Row>, filters: Filters, slugs: Slugs)
    requires UniqueIds(rows)
    ensures Descending(Listed(rows, filters, slugs))
    ensures forall r :: r in Listed(rows, filters, slugs) <==> r in rows && Meets(r, filters, slugs)
  {
    OrderedIsRight(rows, |rows|, r => Meets(r, filters, slugs));
    assert rows[..|rows|] == rows;
  }

  lemma TailIsUnder(s: seq<Row>, m: nat, row: Row)
    requires Descending(s) && 0 < m <= |s|
    ensures row in s[m..] <==> row in s && Under(row, PositionOf(s[m - 1]))
  {
    if row in s && Under(row, PositionOf(s[m - 1])) {
      var i :| 0 <= i < |s| && s[i] == row;
      assert i >= m;
      assert s[m..][i - m] == row;
    }
    if row in s[m..] {
      var i :| 0 <= i < |s| - m && s[m..][i] == row;
      assert s[m + i] == row;
    }
  }

  // What a cursor at the m-th wanted row lists is everything wanted after it.
  lemma CursorListsTail(request: Request, before: seq<Row>, now: seq<Row>, slugs: Slugs, m: nat)
    requires Sound(before, slugs) && Sound(now, slugs) && 0 < m <= |Wanted(request, before, slugs)|
    requires SameUnder(before, now, PositionOf(Wanted(request, before, slugs)[m - 1]))
    ensures Listed(now, RequestFilters(request, Some(PositionOf(Wanted(request, before, slugs)[m - 1]))), slugs)
         == Wanted(request, before, slugs)[m..]
  {
    var wanted := Wanted(request, before, slugs);
    var p := PositionOf(wanted[m - 1]);
    var listed := Listed(now, RequestFilters(request, Some(p)), slugs);
    ListedIsRight(before, RequestFilters(request, None), slugs);
    ListedIsRight(now, RequestFilters(request, Some(p)), slugs);
    forall row ensures row in listed <==> row in wanted[m..] {
      CursorFilter(request, p, row, slugs);
      TailIsUnder(wanted, m, row);
    }
    SameDescending(listed, wanted[m..]);
  }

  // --- A walk: page k is read from tables[k] with the cursor of the page before ---

  datatype Steps = Steps(request: Request, slugs: Slugs, codec: Codec, tables: seq<seq<Row>>, pages: seq<Page>)

  function Limit(w: Steps): (limit: nat)
    ensures limit > 0
  {
    ClampLimit(w.request.limit, 20, 100)
  }

  ghost predicate Walks(w: Steps) {
    && Invertible(w.codec) && |w.pages| == |w.tables| > 0
    && forall k {:trigger Turns(w, k)} :: 0 <= k < |w.pages| ==> Turns(w, k)
  }

  // The client asks for the first page without a cursor, for page k with the cursor of page k - 1; no row under
  // that cursor came, went or changed in between.
  ghost predicate Turns(w: Steps, k: nat) {
    && k < |w.pages| && |w.pages| == |w.tables| && Sound(w.tables[k], w.slugs)
    && (k == 0 ==> History(w.request, None, w.tables[k], w.slugs, w.codec) == Some(w.pages[k]))
    && (k > 0 ==>
          && w.pages[k - 1].hasMore && w.pages[k - 1].items != []
          && History(w.request, w.pages[k - 1].nextCursor, w.tables[k], w.slugs, w.codec) == Some(w.pages[k])
          && SameUnder(w.tables[k - 1], w.tables[k], PositionOf(LastRow(w.pages[k - 1]))))
  }

  function LastRow(page: Page): Row
    requires page.items != []
  {
    page.items[|page.items| - 1].row
  }

  // Page k shows the wanted rows from the m-th on, and nothing under its start differs from the first table.
  ghost predicate ShowsFrom(w: Steps, k: nat, m: nat) {
    && k < |w.pages| && |w.pages| == |w.tables|
    && var wanted := Wanted(w.request, w.tables[0], w.slugs);
    && m <= |wanted| && (forall r :: r in wanted ==> r.id < UUIDS)
    && w.pages[k] == FirstPage(wanted[m..], Limit(w), w.slugs, w.codec)
    && (m > 0 ==> SameUnder(w.tables[0], w.tables[k], PositionOf(wanted[m - 1])))
    && (m == 0 ==> k == 0)
  }

  lemma CursorIsGiven(codec: Codec, p: Position)
    requires Invertible(codec)
    ensures EncodeCursor(codec, p) != ""
  {
    assert (codec.iso(p.at) + ":" + UuidText(p.id))[|codec.iso(p.at)|] == ':';
    assert codec.unbase64(codec.base64("")) == Some("");
  }

  lemma FirstShows(w: Steps)
    requires Walks(w)
    ensures ShowsFrom(w, 0, 0)
  {
    assert Turns(w, 0);
    var wanted := Wanted(w.request, w.tables[0], w.slugs);
    ListedIds(w.tables[0], RequestFilters(w.request, None), w.slugs);
    assert wanted[0..] == wanted;
  }

  // A page with more behind it ends with the row its cursor names.
  lemma CursorNamesLast(listed: seq<Row>, limit: nat, slugs: Slugs, codec: Codec)
    requires limit > 0 && Invertible(codec) && forall r :: r in listed ==> r.id < UUIDS
    ensures var page := FirstPage(listed, limit, slugs, codec);
            page.hasMore ==>
              && |listed| > limit && page.items != [] && LastRow(page) == listed[limit - 1]
              && page.nextCursor.Some? && page.nextCursor.value != ""
              && DecodeCursor(codec, page.nextCursor.value) == Some(PositionOf(listed[limit - 1]))
  {
    if |listed| > limit {
      CursorRoundTrip(codec, PositionOf(listed[limit - 1]));
      CursorIsGiven(codec, PositionOf(listed[limit - 1]));
    }
  }

  lemma SameUnderLater(a: seq<Row>, b: seq<Row>, c: seq<Row>, p: Position, q: Position)
    requires SameUnder(a, b, p) && SameUnder(b, c, q)
    requires Precedes(q.at, q.id, p.at, p.id)
    ensures SameUnder(a, c, q)
  {
    forall row | Under(row, q) ensures row in a <==> row in c {
      assert Under(row, p);
    }
  }

  // The page asked for with the cursor of the n-th wanted row shows what is wanted after it.
  lemma NextPage(request: Request, slugs: Slugs, codec: Codec, before: seq<Row>, now: seq<Row>, n: nat,
                 cursor: Option<string>, next: Page)
    requires Invertible(codec) && Sound(before, slugs) && Sound(now, slugs)
    requires 0 < n <= |Wanted(request, before, slugs)|
    requires SameUnder(before, now, PositionOf(Wanted(request, before, slugs)[n - 1]))
    requires cursor.Some? && cursor.value != ""
    requires DecodeCursor(codec, cursor.value) == Some(PositionOf(Wanted(request, before, slugs)[n - 1]))
    requires History(request, cursor, now, slugs, codec) == Some(next)
    ensures next == FirstPage(Wanted(request, before, slugs)[n..], ClampLimit(request.limit, 20, 100), slugs, codec)
  {
    CursorListsTail(request, before, now, slugs, n);
  }

  lemma NextSame(w: Steps, k: nat, m: nat, n: nat)
    requires ShowsFrom(w, k, m) && Turns(w, k + 1) && Sound(w.tables[0], w.slugs) && m < n
    requires n <= |Wanted(w.request, w.tables[0], w.slugs)|
    requires LastRow(w.pages[k]) == Wanted(w.request, w.tables[0], w.slugs)[n - 1]
    ensures SameUnder(w.tables[0], w.tables[k + 1], PositionOf(Wanted(w.request, w.tables[0], w.slugs)[n - 1]))
  {
    var wanted := Wanted(w.request, w.tables[0], w.slugs);
    if m > 0 {
      ListedIsRight(w.tables[0], RequestFilters(w.request, None), w.slugs);
      SameUnderLater(w.tables[0], w.tables[k], w.tables[k + 1], PositionOf(wanted[m - 1]), PositionOf(wanted[n - 1]));
    }
  }

  // The cursor of page k names the last wanted row the page shows.
  lemma CursorOfPage(w: Steps, k: nat, m: nat)
    requires Invertible(w.codec) && ShowsFrom(w, k, m) && w.pages[k].hasMore
    ensures var wanted, page := Wanted(w.request, w.tables[0], w.slugs), w.pages[k];
            && m + Limit(w) < |wanted| && page.items != [] && LastRow(page) == wanted[m + Limit(w) - 1]
            && page.nextCursor.Some? && page.nextCursor.value != ""
            && DecodeCursor(w.codec, page.nextCursor.value) == Some(PositionOf(wanted[m + Limit(w) - 1]))
  {
    var wanted := Wanted(w.request, w.tables[0], w.slugs);
    var listed := wanted[m..];
    forall r | r in listed ensures r.id < UUIDS {
      assert r in wanted;
    }
    CursorNamesLast(listed, Limit(w), w.slugs, w.codec);
  }

  lemma NextPageIs(w: Steps, k: nat, n: nat)
    requires Invertible(w.codec) && Turns(w, k + 1) && Sound(w.tables[0], w.slugs)
    requires 0 < n <= |Wanted(w.request, w.tables[0], w.slugs)|
    requires var p := PositionOf(Wanted(w.request, w.tables[0], w.slugs)[n - 1]); var page := w.pages[k];
             && SameUnder(w.tables[0], w.tables[k + 1], p)
             && page.nextCursor.Some? && page.nextCursor.value != "" && DecodeCursor(w.codec, page.nextCursor.value) == Some(p)
    ensures w.pages[k + 1] == FirstPage(Wanted(w.request, w.tables[0], w.slugs)[n..], Limit(w), w.slugs, w.codec)
  {
    NextPage(w.request, w.slugs, w.codec, w.tables[0], w.tables[k + 1], n, w.pages[k].nextCursor, w.pages[k + 1]);
  }

  lemma TurnsInAWalk(w: Steps, k: nat)
    requires Walks(w) && k < |w.pages|
    ensures Invertible(w.codec) && Turns(w, k) && Sound(w.tables[0], w.slugs)
  {
    assert Turns(w, 0);
  }

  lemma NextShows(w: Steps, k: nat, m: nat)
    requires Walks(w) && k + 1 < |w.pages| && ShowsFrom(w, k, m)
    ensures ShowsFrom(w, k + 1, m + Limit(w))
  {
    TurnsInAWalk(w, k + 1);
    CursorOfPage(w, k, m);
    NextSame(w, k, m, m + Limit(w));
    NextPageIs(w, k, m + Limit(w));
  }

  // k * limit
  function Start(k: nat, limit: nat): nat {
    if k == 0 then 0 else Start(k - 1, limit) + limit
  }

  lemma {:induction false} StartIs(k: nat, limit: nat)
    ensures Start(k, limit) == k * limit
  {
    if k > 0 {
      StartIs(k - 1, limit);
    }
  }

  lemma {:induction false} EveryPageShows(w: Steps, k: nat)
    requires Walks(w) && k < |w.pages|
    ensures ShowsFrom(w, k, Start(k, Limit(w)))
  {
    if k == 0 {
      FirstShows(w);
    } else {
      EveryPageShows(w, k - 1);
      NextShows(w, k - 1, Start(k - 1, Limit(w)));
    }
  }

  function Rows(page: Page): seq<Row> {
    seq(|page.items|, i requires 0 <= i < |page.items| => page.items[i].row)
  }

  function Slice(s: seq<Row>, from: int, to: int): seq<Row> {
    Take(s[if from < 0 then 0 else if from <= |s| then from else |s|..], to - from)
  }

  // Page k is exactly the k-th slice of the wanted rows of the first table, newest first, and says whether any
  // are left.
  lemma PagesAreSlices(w: Steps, k: nat)
    requires Walks(w) && k < |w.pages|
    ensures var wanted, limit := Wanted(w.request, w.tables[0], w.slugs), Limit(w);
            && k * limit <= |wanted| && Rows(w.pages[k]) == Slice(wanted, k * limit, (k + 1) * limit)
            && (w.pages[k].hasMore <==> (k + 1) * limit < |wanted|)
  {
    EveryPageShows(w, k);
    StartIs(k, Limit(w));
    StartIs(k + 1, Limit(w));
  }

  // The walk ends: it has no more pages than the wanted rows fill.
  lemma WalkEnds(w: Steps)
    requires Walks(w) && |w.pages| > 1
    ensures (|w.pages| - 1) * Limit(w) < |Wanted(w.request, w.tables[0], w.slugs)|
  {
    var k := |w.pages| - 1;
    assert Turns(w, k);
    PagesAreSlices(w, k - 1);
  }

  // The rows of the first n pages, one page after the other
  function Shown(w: Steps, n: nat): seq<Row>
    requires n <= |w.pages|
  {
    if n == 0 then [] else Shown(w, n - 1) + Rows(w.pages[n - 1])
  }

  lemma {:induction false} ShownIsPrefix(w: Steps, n: nat)
    requires Walks(w) && n <= |w.pages|
    ensures Shown(w, n) == Take(Wanted(w.request, w.tables[0], w.slugs), Start(n, Limit(w)))
  {
    if n > 0 {
      var p := n - 1;
      ShownIsPrefix(w, p);
      PagesAreSlices(w, p);
      StartIs(p, Limit(w));
      StartIs(n, Limit(w));
      TakeMore(Wanted(w.request, w.tables[0], w.slugs), Start(p, Limit(w)), Limit(w));
    }
  }

  lemma TakeMore(s: seq<Row>, a: nat, b: nat)
    requires a <= |s|
    ensures Take(s, a) + Slice(s, a, a + b) == Take(s, a + b)
  {
  }

  lemma AllShown(w: Steps)
    requires Walks(w) && !w.pages[|w.pages| - 1].hasMore
    ensures Shown(w, |w.pages|) == Wanted(w.request, w.tables[0], w.slugs)
  {
    var n := |w.pages|;
    ShownIsPrefix(w, n);
    PagesAreSlices(w, n - 1);
    StartIs(n, Limit(w));
  }

  // A walk that was followed to its end has shown every wanted row exactly once, in strictly descending order.
  lemma WalkTiles(w: Steps)
    requires Walks(w) && !w.pages[|w.pages| - 1].hasMore
    ensures var shown := Shown(w, |w.pages|);
            forall i, k :: 0 <= i < k < |shown| ==>
              || shown[i].createdAt > shown[k].createdAt
              || (shown[i].createdAt == shown[k].createdAt && shown[i].id > shown[k].id)
    ensures forall r :: r in Shown(w, |w.pages|) <==> r in Matching(w.request, None, w.tables[0], w.slugs)
  {
    AllShown(w);
    assert Turns(w, 0);
    MatchingIsListed(w.request, None, w.tables[0], w.slugs);
  }
}
