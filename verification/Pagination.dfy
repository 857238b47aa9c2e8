/**
 GET /v1/users/me/history: one page of a user's jobs, newest first, and the walk along next_cursor.
 */
module Pagination {
  import opened Options
  import opened Queries
  import opened Cursors

  function ClampLimit(limit: Option<int>, default: int, maximum: int): int {
    if limit.None? then default
    else
      var capped := if limit.value < maximum then limit.value else maximum;
      if capped > 1 then capped else 1
  }

  // --- Rows in the order created_at DESC, id DESC ---

  predicate Older(a: Row, b: Row) {
    Precedes(a.createdAt, a.id, b.createdAt, b.id)
  }

  predicate Descending(s: seq<Row>) {
    forall i, k :: 0 <= i < k < |s| ==> Older(s[k], s[i])
  }

  function Insert(row: Row, s: seq<Row>): seq<Row> {
    if s == [] then [row]
    else if Older(s[0], row) then [row] + s
    else [s[0]] + Insert(row, s[1..])
  }

  // Those of the first n rows that p selects, in order.
  function Ordered(rows: seq<Row>, n: nat, p: Row -> bool): seq<Row>
    requires n <= |rows|
  {
    if n == 0 then []
    else if p(rows[n - 1]) then Insert(rows[n - 1], Ordered(rows, n - 1, p))
    else Ordered(rows, n - 1, p)
  }

  predicate UniqueIds(rows: seq<Row>) {
    forall i, k :: 0 <= i < k < |rows| ==> rows[i].id != rows[k].id
  }

  lemma {:induction false} InsertKeeps(row: Row, s: seq<Row>)
    requires Descending(s) && forall r :: r in s ==> r.id != row.id
    ensures Descending(Insert(row, s))
    ensures forall r :: r in Insert(row, s) <==> r == row || r in s
  {
    if s != [] && !Older(s[0], row) {
      InsertKeeps(row, s[1..]);
      assert s[0] in s && s == [s[0]] + s[1..];
      var rest := Insert(row, s[1..]);
      forall k | 0 <= k < |rest| ensures Older(rest[k], s[0]) {
        assert rest[k] in rest;
      }
    } else {
      forall k | 0 <= k < |s| && s != [] && Older(s[0], row) ensures Older(s[k], row) {
        assert k > 0 ==> Older(s[k], s[0]);
      }
    }
  }

  lemma {:induction false} OrderedIsRight(rows: seq<Row>, n: nat, p: Row -> bool)
    requires n <= |rows| && UniqueIds(rows)
    ensures Descending(Ordered(rows, n, p))
    ensures var s := Ordered(rows, n, p);
            forall i, k :: 0 <= i < k < |s| ==>
              s[i].createdAt > s[k].createdAt || (s[i].createdAt == s[k].createdAt && s[i].id > s[k].id)
    ensures forall r :: r in Ordered(rows, n, p) <==> r in rows[..n] && p(r)
  {
    if n > 0 {
      OrderedIsRight(rows, n - 1, p);
      assert rows[..n] == rows[..n - 1] + [rows[n - 1]];
      if p(rows[n - 1]) {
        InsertKeeps(rows[n - 1], Ordered(rows, n - 1, p));
      }
    }
  }

  lemma {:induction false} SelectAlike(rows: seq<Row>, n: nat, p: Row -> bool, q: Row -> bool)
    requires n <= |rows| && forall r :: r in rows ==> p(r) == q(r)
    ensures Ordered(rows, n, p) == Ordered(rows, n, q)
  {
    if n > 0 {
      SelectAlike(rows, n - 1, p, q);
      assert rows[n - 1] in rows;
    }
  }

  lemma Nonempty(a: seq<Row>, b: seq<Row>)
    requires a != [] && forall r :: r in a ==> r in b
    ensures b != []
  {
    assert a[0] in b;
  }

  // A descending sequence is determined by what is in it.
  lemma {:induction false} SameDescending(a: seq<Row>, b: seq<Row>)
    requires Descending(a) && Descending(b) && forall r :: r in a <==> r in b
    ensures a == b
  {
    if a != [] {
      Nonempty(a, b);
    }
    if b != [] {
      Nonempty(b, a);
    }
    if a != [] && b != [] {
      SameHead(a, b);
      SameTail(a, b);
      SameDescending(a[1..], b[1..]);
      assert a == [a[0]] + a[1..] && b == [b[0]] + b[1..];
    }
  }

  lemma SameHead(a: seq<Row>, b: seq<Row>)
    requires Descending(a) && Descending(b) && (forall r :: r in a <==> r in b) && a != [] && b != []
    ensures a[0] == b[0]
  {
    assert a[0] in b && b[0] in a;
  }

  lemma SameTail(a: seq<Row>, b: seq<Row>)
    requires Descending(a) && Descending(b) && (forall r :: r in a <==> r in b) && a != [] && b != [] && a[0] == b[0]
    ensures forall r :: r in a[1..] <==> r in b[1..]
  {
    forall r ensures r in a[1..] <==> r in b[1..] {
      assert r in a[1..] <==> r in a && r != a[0];
      assert r in b[1..] <==> r in b && r != b[0];
    }
  }

  // --- The database's answer ---

  function Take(s: seq<Row>, n: int): seq<Row> {
    if n <= 0 then [] else if n < |s| then s[..n] else s
  }

  // None is an error raised by the database.
  function Answer(query: Query, args: seq<Value>, rows: seq<Row>, slugs: Slugs): Option<seq<Row>> {
    if query.limit.None? || Arg(args, query.limit.value).None? || !Arg(args, query.limit.value).value.Num?
       || exists i :: 0 <= i < |rows| && Holds(query.conditions, |query.conditions|, args, rows[i], query.joined, slugs).None?
    then None
    else
      var p := (r: Row) => Holds(query.conditions, |query.conditions|, args, r, query.joined, slugs) == Some(true);
      Some(Take(Ordered(rows, |rows|, p), Arg(args, query.limit.value).value.num))
  }

  predicate Typed(rows: seq<Row>, slugs: Slugs) {
    forall i :: 0 <= i < |rows| ==> rows[i].jobType in slugs && rows[i].id < UUIDS
  }

  // The rows the filters ask for, newest first.
  function Listed(rows: seq<Row>, filters: Filters, slugs: Slugs): seq<Row> {
    Ordered(rows, |rows|, r => Meets(r, filters, slugs))
  }

  lemma AnswerIsListed(query: Query, args: seq<Value>, rows: seq<Row>, slugs: Slugs, filters: Filters, limit: int)
    requires Faithful(query, args, filters) && Typed(rows, slugs)
    requires query.limit.Some? && Arg(args, query.limit.value) == Some(Num(limit))
    ensures Answer(query, args, rows, slugs) == Some(Take(Listed(rows, filters, slugs), limit))
  {
    var p := (r: Row) => Holds(query.conditions, |query.conditions|, args, r, query.joined, slugs) == Some(true);
    var q := (r: Row) => Meets(r, filters, slugs);
    forall i | 0 <= i < |rows|
      ensures Holds(query.conditions, |query.conditions|, args, rows[i], query.joined, slugs) == Some(q(rows[i]))
    {
    }
    SelectAlike(rows, |rows|, p, q);
  }

  // --- The endpoint ---

  // Who asks, and with which filters
  datatype Request = Request(user: int, integration: int, limit: Option<int>, status: Option<string>, jobType: Option<string>)

  datatype Item = Item(row: Row, slug: Option<string>)

  datatype Page = Page(items: seq<Item>, nextCursor: Option<string>, hasMore: bool)

  function Slug(row: Row, slugs: Slugs): Option<string> {
    if row.jobType in slugs then Some(slugs[row.jobType]) else None
  }

  function Items(rows: seq<Row>, slugs: Slugs): seq<Item> {
    seq(|rows|, i requires 0 <= i < |rows| => Item(rows[i], Slug(rows[i], slugs)))
  }

  function PositionOf(row: Row): Position {
    Position(row.createdAt, row.id)
  }

  // list_for_user: the query is built, then answered.
  method FetchJobs(request: Request, after: Option<Position>, limit: int, rows: seq<Row>, slugs: Slugs)
    returns (jobs: seq<Row>)
    requires Typed(rows, slugs)
    ensures jobs == Take(Listed(rows, RequestFilters(request, after), slugs), limit)
    ensures UniqueIds(rows) && limit >= 0 ==>
              var matching := Matching(request, after, rows, slugs);
              && |jobs| == (if |matching| < limit then |matching| else limit)
              && (forall r :: r in jobs ==> r in matching)
              && (forall i, k :: 0 <= i < k < |jobs| ==>
                    || jobs[i].createdAt > jobs[k].createdAt
                    || (jobs[i].createdAt == jobs[k].createdAt && jobs[i].id > jobs[k].id))
  {
    if UniqueIds(rows) {
      MatchingIsListed(request, after, rows, slugs);
    }
    var cursorAt, cursorId: Option<int> := None, None;
    if after.Some? {
      cursorAt, cursorId := Some(after.value.at), Some(after.value.id);
    }
    var query, args := ListForUser(request.user, request.integration, limit, cursorAt, cursorId, request.status,
                                   request.jobType);
    AnswerIsListed(query, args, rows, slugs, RequestFilters(request, after), limit);
    jobs := Answer(query, args, rows, slugs).value;
  }

  // Each job type is looked up once.
  method Describe(jobs: seq<Row>, slugs: Slugs) returns (items: seq<Item>)
    ensures items == Items(jobs, slugs)
  {
    var typeCache: map<int, Option<string>> := map[];
    items := [];
    for i := 0 to |jobs|
      invariant items == Items(jobs[..i], slugs)
      invariant forall t :: t in typeCache ==> typeCache[t] == if t in slugs then Some(slugs[t]) else None
    {
      var job := jobs[i];
      if job.jobType !in typeCache {
        typeCache := typeCache[job.jobType := if job.jobType in slugs then Some(slugs[job.jobType]) else None];
      }
      items := items + [Item(job, typeCache[job.jobType])];
    }
    assert jobs[..|jobs|] == jobs;
  }

  method GetHistory(request: Request, cursor: Option<string>, rows: seq<Row>, slugs: Slugs, codec: Codec)
    returns (page: Option<Page>)
    requires Typed(rows, slugs)
    ensures page == History(request, cursor, rows, slugs, codec)
  {
    var realLimit := ClampLimit(request.limit, 20, 100);
    var after: Option<Position> := None;
    if cursor.Some? && cursor.value != "" {
      after := DecodeCursor(codec, cursor.value);
      if after.None? {
        return None;
      }
    }
    var jobs := FetchJobs(request, after, realLimit + 1, rows, slugs);
    var hasMore := |jobs| > realLimit;
    ghost var listed := Listed(rows, RequestFilters(request, after), slugs);
    if hasMore {
      jobs := jobs[..realLimit];
    }
    assert jobs == if |listed| > realLimit then listed[..realLimit] else listed;
    var items := Describe(jobs, slugs);
    var nextCursor: Option<string> := None;
    if hasMore && jobs != [] {
      var last := jobs[|jobs| - 1];
      nextCursor := Some(EncodeCursor(codec, PositionOf(last)));
    }
    page := Some(Page(items, nextCursor, hasMore));
  }

  lemma ListedIds(rows: seq<Row>, filters: Filters, slugs: Slugs)
    requires Typed(rows, slugs) && UniqueIds(rows)
    ensures forall r :: r in Listed(rows, filters, slugs) ==> r.id < UUIDS
  {
    OrderedIsRight(rows, |rows|, r => Meets(r, filters, slugs));
  }

  // The first `limit` of what is listed, and whether there is more.
  function FirstPage(listed: seq<Row>, limit: nat, slugs: Slugs, codec: Codec): Page {
    if limit > 0 && |listed| > limit
    then Page(Items(listed[..limit], slugs), Some(EncodeCursor(codec, PositionOf(listed[limit - 1]))), true)
    else Page(Items(listed, slugs), None, false)
  }

  function RequestFilters(request: Request, after: Option<Position>): Filters {
    match after
    case None => UserFilters(request.user, request.integration, None, None, request.status, request.jobType)
    case Some(p) => UserFilters(request.user, request.integration, Some(p.at), Some(p.id), request.status, request.jobType)
  }

  // What a page means: the newest jobs below the cursor that meet the filters.
  function History(request: Request, cursor: Option<string>, rows: seq<Row>, slugs: Slugs, codec: Codec): Option<Page> {
    if cursor.None? || cursor.value == "" then Some(PageFrom(request, None, rows, slugs, codec))
    else match DecodeCursor(codec, cursor.value)
      case None => None
      case Some(p) => Some(PageFrom(request, Some(p), rows, slugs, codec))
  }

  // --- What a page is, row by row ---

  lemma {:induction false} SizeOf(s: seq<Row>, m: set<Row>)
    requires Descending(s) && forall r :: r in s <==> r in m
    ensures |s| == |m|
  {
    if s == [] {
      assert m == {};
    } else {
      var front, last := s[..|s| - 1], s[|s| - 1];
      assert forall r :: r in s <==> r in front || r == last;
      assert last in m && forall r :: r in front <==> r in m - {last};
      SizeOf(front, m - {last});
    }
  }

  // All that the request asks for under the cursor
  lemma ListedAre(request: Request, after: Option<Position>, rows: seq<Row>, slugs: Slugs, row: Row)
    requires UniqueIds(rows)
    ensures row in Listed(rows, RequestFilters(request, after), slugs)
       <==> && row in rows && row.user == request.user && row.integration == request.integration
            && (after.Some? ==> row.createdAt < after.value.at || (row.createdAt == after.value.at && row.id < after.value.id))
            && (request.status.Some? && request.status.value != "" ==> row.status == request.status.value)
            && (request.jobType.Some? && request.jobType.value != "" ==>
                  row.jobType in slugs && slugs[row.jobType] == request.jobType.value)
  {
    var r := request;
    OrderedIsRight(rows, |rows|, r => Meets(r, RequestFilters(request, after), slugs));
    assert rows[..|rows|] == rows;
    UserFiltersMean(row, slugs, r.user, r.integration, if after.Some? then Some(after.value.at) else None,
                    if after.Some? then Some(after.value.id) else None, r.status, r.jobType);
  }

  function PageFrom(request: Request, after: Option<Position>, rows: seq<Row>, slugs: Slugs, codec: Codec): Page {
    var listed := Listed(rows, RequestFilters(request, after), slugs);
    FirstPage(listed, ClampLimit(request.limit, 20, 100), slugs, codec)
  }

  // The jobs a page is taken from
  function Matching(request: Request, after: Option<Position>, rows: seq<Row>, slugs: Slugs): set<Row> {
    set r | r in rows && r.user == request.user && r.integration == request.integration
            && (after.Some? ==> r.createdAt < after.value.at || (r.createdAt == after.value.at && r.id < after.value.id))
            && (request.status.Some? && request.status.value != "" ==> r.status == request.status.value)
            && (request.jobType.Some? && request.jobType.value != "" ==>
                  r.jobType in slugs && slugs[r.jobType] == request.jobType.value)
  }

  lemma MatchingIsListed(request: Request, after: Option<Position>, rows: seq<Row>, slugs: Slugs)
    requires UniqueIds(rows)
    ensures var listed, matching := Listed(rows, RequestFilters(request, after), slugs), Matching(request, after, rows, slugs);
            && |listed| == |matching| && (forall r :: r in listed <==> r in matching)
            && forall i, k :: 0 <= i < k < |listed| ==>
                 || listed[i].createdAt > listed[k].createdAt
                 || (listed[i].createdAt == listed[k].createdAt && listed[i].id > listed[k].id)
  {
    var listed, matching := Listed(rows, RequestFilters(request, after), slugs), Matching(request, after, rows, slugs);
    OrderedIsRight(rows, |rows|, r => Meets(r, RequestFilters(request, after), slugs));
    forall r ensures r in listed <==> r in matching {
      ListedAre(request, after, rows, slugs, r);
    }
    SizeOf(listed, matching);
  }

  lemma FirstPageIs(listed: seq<Row>, limit: nat, slugs: Slugs, codec: Codec)
    requires limit > 0
    ensures var page := FirstPage(listed, limit, slugs, codec);
            && |page.items| == (if |listed| < limit then |listed| else limit) && (page.hasMore <==> |listed| > limit)
            && forall i :: 0 <= i < |page.items| ==> page.items[i].row == listed[i]
  {
  }

  // How many jobs a page shows: those that match, up to the limit asked for, kept between 1 and 100, or 20.
  lemma PageHolds(request: Request, after: Option<Position>, rows: seq<Row>, slugs: Slugs, codec: Codec)
    requires UniqueIds(rows)
    ensures var page, matching := PageFrom(request, after, rows, slugs, codec), Matching(request, after, rows, slugs);
            var asked := if request.limit.Some? then request.limit.value else 20;
            var most := if asked < 1 then 1 else if asked > 100 then 100 else asked;
            && |page.items| == (if |matching| < most then |matching| else most)
            && (page.hasMore <==> |matching| > most)
  {
    MatchingIsListed(request, after, rows, slugs);
    FirstPageIs(Listed(rows, RequestFilters(request, after), slugs), ClampLimit(request.limit, 20, 100), slugs, codec);
  }

  // Which ones, and how: newest first, among equals the greatest id first, and whatever is left out after all of them.
  lemma PageMeans(request: Request, after: Option<Position>, rows: seq<Row>, slugs: Slugs, codec: Codec)
    requires UniqueIds(rows)
    ensures var items, matching := PageFrom(request, after, rows, slugs, codec).items, Matching(request, after, rows, slugs);
            && (forall i :: 0 <= i < |items| ==> items[i].row in matching)
            && (forall i, k :: 0 <= i < k < |items| ==>
                  || items[i].row.createdAt > items[k].row.createdAt
                  || (items[i].row.createdAt == items[k].row.createdAt && items[i].row.id > items[k].row.id))
            && (forall q, i :: q in matching && 0 <= i < |items| && (forall k :: 0 <= k < |items| ==> items[k].row != q) ==>
                  || items[i].row.createdAt > q.createdAt
                  || (items[i].row.createdAt == q.createdAt && items[i].row.id > q.id))
  {
    var listed := Listed(rows, RequestFilters(request, after), slugs);
    MatchingIsListed(request, after, rows, slugs);
    FirstPageIs(listed, ClampLimit(request.limit, 20, 100), slugs, codec);
    NewestShown(listed, Matching(request, after, rows, slugs), PageFrom(request, after, rows, slugs, codec).items);
  }

  lemma NewestShown(listed: seq<Row>, matching: set<Row>, items: seq<Item>)
    requires forall r :: r in listed <==> r in matching
    requires forall i, k :: 0 <= i < k < |listed| ==>
               || listed[i].createdAt > listed[k].createdAt
               || (listed[i].createdAt == listed[k].createdAt && listed[i].id > listed[k].id)
    requires |items| <= |listed| && forall i :: 0 <= i < |items| ==> items[i].row == listed[i]
    ensures forall i :: 0 <= i < |items| ==> items[i].row in matching
    ensures forall q, i :: q in matching && 0 <= i < |items| && (forall k :: 0 <= k < |items| ==> items[k].row != q) ==>
              || items[i].row.createdAt > q.createdAt
              || (items[i].row.createdAt == q.createdAt && items[i].row.id > q.id)
  {
    forall i | 0 <= i < |items| ensures items[i].row in matching {
      assert listed[i] in listed;
    }
    forall q, i | q in matching && 0 <= i < |items| && (forall k :: 0 <= k < |items| ==> items[k].row != q)
      ensures listed[i].createdAt > q.createdAt || (listed[i].createdAt == q.createdAt && listed[i].id > q.id)
    {
      forall n | 0 <= n < |items| ensures listed[n] != q {
        assert items[n].row == listed[n];
      }
      var k :| 0 <= k < |listed| && listed[k] == q;
    }
  }

  // What a page says beside its rows: each job's slug if its type has one, and a cursor at the last job exactly when
  // there is more.
  lemma PageSays(request: Request, after: Option<Position>, rows: seq<Row>, slugs: Slugs, codec: Codec)
    ensures var page := PageFrom(request, after, rows, slugs, codec);
            && (forall i :: 0 <= i < |page.items| ==>
                  var t := page.items[i].row.jobType;
                  page.items[i].slug == if t in slugs then Some(slugs[t]) else None)
            && (page.nextCursor.Some? <==> page.hasMore)
            && (page.hasMore ==>
                  && page.items != []
                  && var last := page.items[|page.items| - 1].row;
                     page.nextCursor == Some(codec.base64(codec.iso(last.createdAt) + ":" + UuidText(last.id))))
  {
  }

  // GetHistory reads no cursor as the start, a good one as its position, and errs on a bad one.
  lemma HistoryReads(request: Request, cursor: Option<string>, rows: seq<Row>, slugs: Slugs, codec: Codec)
    ensures cursor.None? || cursor.value == "" ==>
              History(request, cursor, rows, slugs, codec) == Some(PageFrom(request, None, rows, slugs, codec))
    ensures forall p: Position :: Invertible(codec) && p.id < UUIDS && cursor == Some(EncodeCursor(codec, p)) && cursor.value != "" ==>
              History(request, cursor, rows, slugs, codec) == Some(PageFrom(request, Some(p), rows, slugs, codec))
    ensures cursor.Some? && cursor.value != "" && codec.unbase64(cursor.value).None? ==>
              History(request, cursor, rows, slugs, codec).None?
  {
    forall p: Position | Invertible(codec) && p.id < UUIDS && cursor == Some(EncodeCursor(codec, p)) && cursor.value != ""
      ensures DecodeCursor(codec, cursor.value) == Some(p)
    {
      CursorRoundTrip(codec, p);
    }
  }
}
