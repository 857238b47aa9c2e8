/**
 The job queries that are put together from optional filters: conditions with numbered placeholders on one side,
 their arguments on the other.
 */
module Queries {
  import opened Options

  // A job with what it is filtered and paged by, and the job types' slugs by id.
  datatype Row = Row(id: nat, user: int, integration: int, jobType: int, status: string, createdAt: int)

  type Slugs = map<int, string>

  datatype Value = Text(text: string) | Id(id: int) | At(at: int) | Num(num: int)

  datatype Column = UserCol | IntegrationCol | StatusCol | TypeCol | SlugCol | CreatedCol

  // A condition names its arguments by place, from 1. Below is (created_at, id) < ($at, $id).
  datatype Condition =
    | Equals(column: Column, place: nat)
    | NotBefore(column: Column, place: nat)
    | NotAfter(column: Column, place: nat)
    | Below(place: nat, idPlace: nat)

  // `joined` says that job_types is joined in; limit and offset are places.
  datatype Query = Query(joined: bool, conditions: seq<Condition>, limit: Option<nat>, offset: Option<nat>)

  // --- What the database makes of a query ---

  function Arg(args: seq<Value>, place: nat): Option<Value> {
    if 1 <= place <= |args| then Some(args[place - 1]) else None
  }

  function Cell(row: Row, column: Column, joined: bool, slugs: Slugs): Option<Value> {
    match column
    case UserCol => Some(Id(row.user))
    case IntegrationCol => Some(Id(row.integration))
    case StatusCol => Some(Text(row.status))
    case TypeCol => Some(Id(row.jobType))
    case SlugCol => if joined && row.jobType in slugs then Some(Text(slugs[row.jobType])) else None
    case CreatedCol => Some(At(row.createdAt))
  }

  predicate SameKind(a: Value, b: Value) {
    a.Text? == b.Text? && a.Id? == b.Id? && a.At? == b.At?
  }

  // None is an error: an unbound place, a column that is not there, a value of the wrong type.
  function Test(c: Condition, args: seq<Value>, row: Row, joined: bool, slugs: Slugs): Option<bool> {
    if c.Below? then
      match (Arg(args, c.place), Arg(args, c.idPlace))
      case (Some(At(at)), Some(Id(id))) => Some(Precedes(row.createdAt, row.id, at, id))
      case _ => None
    else
      match (Cell(row, c.column, joined, slugs), Arg(args, c.place))
      case (Some(cell), Some(arg)) =>
        if !SameKind(cell, arg) then None
        else if c.Equals? then Some(cell == arg)
        else if !cell.At? then None
        else if c.NotBefore? then Some(cell.at >= arg.at)
        else Some(cell.at <= arg.at)
      case _ => None
  }

  // Rows compare by time of creation, then id.
  predicate Precedes(at: int, id: int, otherAt: int, otherId: int) {
    at < otherAt || (at == otherAt && id < otherId)
  }

  // The conjunction of the first n conditions
  function Holds(conditions: seq<Condition>, n: nat, args: seq<Value>, row: Row, joined: bool, slugs: Slugs): Option<bool>
    requires n <= |conditions|
  {
    if n == 0 then Some(true)
    else
      match (Holds(conditions, n - 1, args, row, joined, slugs), Test(conditions[n - 1], args, row, joined, slugs))
      case (Some(a), Some(b)) => Some(a && b)
      case _ => None
  }

  function Places(c: Condition): set<nat> {
    if c.Below? then {c.place, c.idPlace} else {c.place}
  }

  // The places the first n conditions use
  function PlacesOf(conditions: seq<Condition>, n: nat): set<nat>
    requires n <= |conditions|
  {
    if n == 0 then {} else PlacesOf(conditions, n - 1) + Places(conditions[n - 1])
  }

  // 1..n
  function Numbers(n: nat): set<nat> {
    if n == 0 then {} else Numbers(n - 1) + {n}
  }

  // --- The filters meant ---

  datatype Filter =
    | ByUser(user: int)
    | ByIntegration(integration: int)
    | ByStatus(status: string)
    | BySlug(slug: string)
    | ByType(jobType: int)
    | Since(time: int)
    | Until(time: int)
    | OlderThan(time: int, job: int)

  predicate Satisfies(row: Row, f: Filter, slugs: Slugs) {
    match f
    case ByUser(user) => row.user == user
    case ByIntegration(integration) => row.integration == integration
    case ByStatus(status) => row.status == status
    case BySlug(slug) => row.jobType in slugs && slugs[row.jobType] == slug
    case ByType(jobType) => row.jobType == jobType
    case Since(time) => row.createdAt >= time
    case Until(time) => row.createdAt <= time
    case OlderThan(time, job) => Precedes(row.createdAt, row.id, time, job)
  }

  datatype Filters = Everything | And(these: Filters, last: Filter)

  predicate Meets(row: Row, filters: Filters, slugs: Slugs) {
    filters.And? ==> Meets(row, filters.these, slugs) && Satisfies(row, filters.last, slugs)
  }

  // The empty string counts as no filter.
  predicate Given(s: Option<string>) {
    s.Some? && s.value != ""
  }

  function UserFilters(user: int, integration: int, cursorAt: Option<int>, cursorId: Option<int>,
                       status: Option<string>, jobType: Option<string>): Filters {
    var own := And(And(Everything, ByUser(user)), ByIntegration(integration));
    var older := if cursorAt.Some? && cursorId.Some? then And(own, OlderThan(cursorAt.value, cursorId.value)) else own;
    var withStatus := if Given(status) then And(older, ByStatus(status.value)) else older;
    if Given(jobType) then And(withStatus, BySlug(jobType.value)) else withStatus
  }

  function AdminFilters(status: Option<string>, integration: Option<int>, jobType: Option<int>, user: Option<int>,
                        dateFrom: Option<int>, dateTo: Option<int>): Filters {
    var f1 := if Given(status) then And(Everything, ByStatus(status.value)) else Everything;
    var f2 := if integration.Some? then And(f1, ByIntegration(integration.value)) else f1;
    var f3 := if jobType.Some? then And(f2, ByType(jobType.value)) else f2;
    var f4 := if user.Some? then And(f3, ByUser(user.value)) else f3;
    var f5 := if dateFrom.Some? then And(f4, Since(dateFrom.value)) else f4;
    if dateTo.Some? then And(f5, Until(dateTo.value)) else f5
  }

  lemma UserFiltersMean(row: Row, slugs: Slugs, user: int, integration: int, cursorAt: Option<int>, cursorId: Option<int>,
                        status: Option<string>, jobType: Option<string>)
    ensures Meets(row, UserFilters(user, integration, cursorAt, cursorId, status, jobType), slugs)
       <==> && row.user == user && row.integration == integration
            && (cursorAt.Some? && cursorId.Some? ==>
                  row.createdAt < cursorAt.value || (row.createdAt == cursorAt.value && row.id < cursorId.value))
            && (status.Some? && status.value != "" ==> row.status == status.value)
            && (jobType.Some? && jobType.value != "" ==> row.jobType in slugs && slugs[row.jobType] == jobType.value)
  {
    var first := And(Everything, ByUser(user));
    var own := And(first, ByIntegration(integration));
    var paged := cursorAt.Some? && cursorId.Some?;
    var older := if paged then And(own, OlderThan(cursorAt.value, cursorId.value)) else own;
    var withStatus := if Given(status) then And(older, ByStatus(status.value)) else older;
    assert Meets(row, first, slugs) <==> row.user == user;
    assert Meets(row, own, slugs) <==> Meets(row, first, slugs) && row.integration == integration;
    assert Meets(row, older, slugs)
      <==> Meets(row, own, slugs) && (paged ==> Precedes(row.createdAt, row.id, cursorAt.value, cursorId.value));
    assert Meets(row, withStatus, slugs) <==> Meets(row, older, slugs) && (Given(status) ==> row.status == status.value);
  }

  lemma AdminFiltersMean(row: Row, slugs: Slugs, status: Option<string>, integration: Option<int>, jobType: Option<int>,
                         user: Option<int>, dateFrom: Option<int>, dateTo: Option<int>)
    ensures Meets(row, AdminFilters(status, integration, jobType, user, dateFrom, dateTo), slugs)
       <==> && (status.Some? && status.value != "" ==> row.status == status.value)
            && (integration.Some? ==> row.integration == integration.value)
            && (jobType.Some? ==> row.jobType == jobType.value)
            && (user.Some? ==> row.user == user.value)
            && (dateFrom.Some? ==> row.createdAt >= dateFrom.value)
            && (dateTo.Some? ==> row.createdAt <= dateTo.value)
  {
    var f1 := if Given(status) then And(Everything, ByStatus(status.value)) else Everything;
    var f2 := if integration.Some? then And(f1, ByIntegration(integration.value)) else f1;
    var f3 := if jobType.Some? then And(f2, ByType(jobType.value)) else f2;
    var f4 := if user.Some? then And(f3, ByUser(user.value)) else f3;
    var f5 := if dateFrom.Some? then And(f4, Since(dateFrom.value)) else f4;
    assert Meets(row, f1, slugs) <==> (Given(status) ==> row.status == status.value);
    assert Meets(row, f2, slugs) <==> Meets(row, f1, slugs) && (integration.Some? ==> row.integration == integration.value);
    assert Meets(row, f3, slugs) <==> Meets(row, f2, slugs) && (jobType.Some? ==> row.jobType == jobType.value);
    assert Meets(row, f4, slugs) <==> Meets(row, f3, slugs) && (user.Some? ==> row.user == user.value);
    assert Meets(row, f5, slugs) <==> Meets(row, f4, slugs) && (dateFrom.Some? ==> row.createdAt >= dateFrom.value);
  }

  predicate Joinable(filters: Filters, joined: bool) {
    filters.And? ==> Joinable(filters.these, joined) && (filters.last.BySlug? ==> joined)
  }

  // --- What the builders push for each filter ---

  function Clause(f: Filter, idx: nat): Condition {
    match f
    case ByUser(_) => Equals(UserCol, idx)
    case ByIntegration(_) => Equals(IntegrationCol, idx)
    case ByStatus(_) => Equals(StatusCol, idx)
    case BySlug(_) => Equals(SlugCol, idx)
    case ByType(_) => Equals(TypeCol, idx)
    case Since(_) => NotBefore(CreatedCol, idx)
    case Until(_) => NotAfter(CreatedCol, idx)
    case OlderThan(_, _) => Below(idx, idx + 1)
  }

  function Pushed(f: Filter): seq<Value> {
    match f
    case ByUser(user) => [Id(user)]
    case ByIntegration(integration) => [Id(integration)]
    case ByStatus(status) => [Text(status)]
    case BySlug(slug) => [Text(slug)]
    case ByType(jobType) => [Id(jobType)]
    case Since(time) => [At(time)]
    case Until(time) => [At(time)]
    case OlderThan(time, job) => [At(time), Id(job)]
  }

  // The state of a builder that has pushed these filters in turn
  datatype Builder = Builder(conditions: seq<Condition>, args: seq<Value>)

  function Built(filters: Filters): Builder {
    match filters
    case Everything => Builder([], [])
    case And(these, f) =>
      var b := Built(these);
      Builder(b.conditions + [Clause(f, |b.args| + 1)], b.args + Pushed(f))
  }

  predicate IsBuilt(b: Builder, filters: Filters, joined: bool) {
    b == Built(filters) && Joinable(filters, joined)
  }

  // The builder's variables after these filters. The quantifier keeps Built folded until IsBuilt is mentioned.
  ghost predicate InStep(conditions: seq<Condition>, args: seq<Value>, idx: nat, filters: Filters, joined: bool) {
    exists b :: IsBuilt(b, filters, joined) && b.conditions == conditions && b.args == args && idx == |args| + 1
  }

  lemma Push(conditions: seq<Condition>, args: seq<Value>, idx: nat, filters: Filters, f: Filter, joined: bool)
    requires InStep(conditions, args, idx, filters, joined) && (f.BySlug? ==> joined)
    ensures InStep(conditions + [Clause(f, idx)], args + Pushed(f), idx + |Pushed(f)|, And(filters, f), joined)
  {
    assert IsBuilt(Builder(conditions + [Clause(f, idx)], args + Pushed(f)), And(filters, f), joined);
  }

  lemma PushOne(conditions: seq<Condition>, args: seq<Value>, idx: nat, filters: Filters, f: Filter, joined: bool,
                c: Condition, v: Value)
    requires InStep(conditions, args, idx, filters, joined) && (f.BySlug? ==> joined)
    requires c == Clause(f, idx) && [v] == Pushed(f)
    ensures InStep(conditions + [c], args + [v], idx + 1, And(filters, f), joined)
  {
    Push(conditions, args, idx, filters, f, joined);
  }

  lemma Start() returns (joined: bool, filters: Filters)
    ensures !joined && filters.Everything? && InStep([], [], 1, filters, joined)
  {
    joined, filters := false, Everything;
    assert IsBuilt(Builder([], []), filters, joined);
  }

  lemma PushTwo(f: Filter, g: Filter, joined: bool)
    requires !f.OlderThan? && !f.BySlug? && !g.OlderThan? && !g.BySlug?
    ensures InStep([Clause(f, 1), Clause(g, 2)], Pushed(f) + Pushed(g), 3, And(And(Everything, f), g), joined)
  {
    assert IsBuilt(Builder([], []), Everything, joined);
    Push([], [], 1, Everything, f, joined);
    Push([Clause(f, 1)], Pushed(f), 2, And(Everything, f), g, joined);
  }

  // --- What was pushed means the filters ---

  // The condition finds its arguments just behind the ones before it.
  lemma ClauseMeans(f: Filter, args: seq<Value>, tail: seq<Value>, row: Row, joined: bool, slugs: Slugs)
    requires row.jobType in slugs && (f.BySlug? ==> joined)
    ensures Test(Clause(f, |args| + 1), args + Pushed(f) + tail, row, joined, slugs) == Some(Satisfies(row, f, slugs))
  {
    var all, n := args + Pushed(f) + tail, |args|;
    assert Arg(all, n + 1) == Some(Pushed(f)[0]);
    assert f.OlderThan? ==> Arg(all, n + 2) == Some(Pushed(f)[1]);
  }

  lemma {:induction false} HoldsPrefix(conditions: seq<Condition>, more: seq<Condition>, n: nat, args: seq<Value>,
                                       row: Row, joined: bool, slugs: Slugs)
    requires n <= |conditions|
    ensures Holds(conditions + more, n, args, row, joined, slugs) == Holds(conditions, n, args, row, joined, slugs)
  {
    if n > 0 {
      HoldsPrefix(conditions, more, n - 1, args, row, joined, slugs);
    }
  }

  // With any further arguments behind them, the conditions hold of the row if and only if it meets every filter.
  predicate Means(b: Builder, filters: Filters, tail: seq<Value>, row: Row, joined: bool, slugs: Slugs) {
    Holds(b.conditions, |b.conditions|, b.args + tail, row, joined, slugs) == Some(Meets(row, filters, slugs))
  }

  lemma HoldsAnother(conditions: seq<Condition>, c: Condition, args: seq<Value>, row: Row, joined: bool, slugs: Slugs)
    requires Holds(conditions, |conditions|, args, row, joined, slugs).Some? && Test(c, args, row, joined, slugs).Some?
    ensures Holds(conditions + [c], |conditions| + 1, args, row, joined, slugs)
         == Some(Holds(conditions, |conditions|, args, row, joined, slugs).value && Test(c, args, row, joined, slugs).value)
  {
    HoldsPrefix(conditions, [c], |conditions|, args, row, joined, slugs);
  }

  lemma MeansAnother(b: Builder, these: Filters, f: Filter, tail: seq<Value>, row: Row, joined: bool, slugs: Slugs)
    requires row.jobType in slugs && (f.BySlug? ==> joined)
    requires Means(b, these, Pushed(f) + tail, row, joined, slugs)
    ensures Means(Builder(b.conditions + [Clause(f, |b.args| + 1)], b.args + Pushed(f)), And(these, f), tail, row, joined, slugs)
  {
    assert b.args + Pushed(f) + tail == b.args + (Pushed(f) + tail);
    ClauseMeans(f, b.args, tail, row, joined, slugs);
    HoldsAnother(b.conditions, Clause(f, |b.args| + 1), b.args + Pushed(f) + tail, row, joined, slugs);
  }

  lemma {:induction false} BuiltMeans(filters: Filters, tail: seq<Value>, row: Row, joined: bool, slugs: Slugs)
    requires row.jobType in slugs && Joinable(filters, joined)
    ensures Means(Built(filters), filters, tail, row, joined, slugs)
  {
    if filters.And? {
      BuiltMeans(filters.these, Pushed(filters.last) + tail, row, joined, slugs);
      MeansAnother(Built(filters.these), filters.these, filters.last, tail, row, joined, slugs);
    }
  }

  lemma {:induction false} PlacesPrefix(conditions: seq<Condition>, more: seq<Condition>, n: nat)
    requires n <= |conditions|
    ensures PlacesOf(conditions + more, n) == PlacesOf(conditions, n)
  {
    if n > 0 {
      PlacesPrefix(conditions, more, n - 1);
    }
  }

  // The conditions use every argument, and nothing else.
  predicate Covers(b: Builder) {
    PlacesOf(b.conditions, |b.conditions|) == Numbers(|b.args|)
  }

  lemma CoversAnother(b: Builder, f: Filter)
    requires Covers(b)
    ensures Covers(Builder(b.conditions + [Clause(f, |b.args| + 1)], b.args + Pushed(f)))
  {
    PlacesPrefix(b.conditions, [Clause(f, |b.args| + 1)], |b.conditions|);
    NextNumbers(|b.args|);
  }

  lemma {:induction false} AllCovered(filters: Filters)
    ensures Covers(Built(filters))
  {
    if filters.And? {
      AllCovered(filters.these);
      CoversAnother(Built(filters.these), filters.last);
    }
  }

  lemma NextNumbers(n: nat)
    ensures Numbers(n + 1) == Numbers(n) + {n + 1}
    ensures Numbers(n + 2) == Numbers(n) + {n + 1, n + 2}
  {
  }

  // The query says what its filters say about every row, and every argument is used.
  ghost predicate Faithful(query: Query, args: seq<Value>, filters: Filters) {
    && (forall row: Row, slugs: Slugs :: row.jobType in slugs ==>
          Holds(query.conditions, |query.conditions|, args, row, query.joined, slugs) == Some(Meets(row, filters, slugs)))
    && PlacesOf(query.conditions, |query.conditions|) + Bound(query.limit) + Bound(query.offset) == Numbers(|args|)
  }

  function Bound(place: Option<nat>): set<nat> {
    if place.Some? then {place.value} else {}
  }

  // LIMIT and OFFSET come last.
  lemma BuiltIsFaithful(filters: Filters, joined: bool, tail: seq<Value>, limit: Option<nat>, offset: Option<nat>)
    requires Joinable(filters, joined)
    requires Numbers(|Built(filters).args| + |tail|) == Numbers(|Built(filters).args|) + Bound(limit) + Bound(offset)
    ensures Faithful(Query(joined, Built(filters).conditions, limit, offset), Built(filters).args + tail, filters)
  {
    forall row: Row, slugs: Slugs | row.jobType in slugs
      ensures var b := Built(filters);
              Holds(b.conditions, |b.conditions|, b.args + tail, row, joined, slugs) == Some(Meets(row, filters, slugs))
    {
      BuiltMeans(filters, tail, row, joined, slugs);
      assert Means(Built(filters), filters, tail, row, joined, slugs);
    }
    AllCovered(filters);
    assert Covers(Built(filters));
  }

  lemma WithLimit(conditions: seq<Condition>, args: seq<Value>, idx: nat, filters: Filters, joined: bool, limit: int)
    requires InStep(conditions, args, idx, filters, joined)
    ensures Faithful(Query(joined, conditions, Some(idx), None), args + [Num(limit)], filters)
    ensures Arg(args + [Num(limit)], idx) == Some(Num(limit))
  {
    NextNumbers(|args|);
    BuiltIsFaithful(filters, joined, [Num(limit)], Some(idx), None);
  }

  lemma WithOffset(conditions: seq<Condition>, args: seq<Value>, idx: nat, filters: Filters, joined: bool, limit: int, offset: int)
    requires InStep(conditions, args, idx, filters, joined)
    ensures Faithful(Query(joined, conditions, Some(idx), Some(idx + 1)), args + [Num(limit), Num(offset)], filters)
    ensures Arg(args + [Num(limit), Num(offset)], idx) == Some(Num(limit))
    ensures Arg(args + [Num(limit), Num(offset)], idx + 1) == Some(Num(offset))
  {
    NextNumbers(|args|);
    BuiltIsFaithful(filters, joined, [Num(limit), Num(offset)], Some(idx), Some(idx + 1));
  }

  lemma WithoutLimit(conditions: seq<Condition>, args: seq<Value>, idx: nat, filters: Filters, joined: bool)
    requires InStep(conditions, args, idx, filters, joined)
    ensures Faithful(Query(joined, conditions, None, None), args, filters)
  {
    BuiltIsFaithful(filters, joined, [], None, None);
    assert args + [] == args;
  }

  method ListForUser(user: int, integration: int, limit: int, cursorAt: Option<int>, cursorId: Option<int>,
                     status: Option<string>, jobType: Option<string>)
    returns (query: Query, args: seq<Value>)
    ensures Faithful(query, args, UserFilters(user, integration, cursorAt, cursorId, status, jobType))
    ensures query.limit.Some? && Arg(args, query.limit.value) == Some(Num(limit)) && query.offset.None?
    ensures query.joined == Given(jobType)
  {
    ghost var join := Given(jobType);
    ghost var filters := And(And(Everything, ByUser(user)), ByIntegration(integration));
    var conditions := [Equals(UserCol, 1), Equals(IntegrationCol, 2)];
    args := [Id(user), Id(integration)];
    var idx: nat := 3;
    PushTwo(ByUser(user), ByIntegration(integration), join);
    if cursorAt.Some? && cursorId.Some? {
      Push(conditions, args, idx, filters, OlderThan(cursorAt.value, cursorId.value), join);
      conditions := conditions + [Below(idx, idx + 1)];
      args := args + [At(cursorAt.value), Id(cursorId.value)];
      idx := idx + 2;
      filters := And(filters, OlderThan(cursorAt.value, cursorId.value));
    }
    assert InStep(conditions, args, idx, filters, join);
    if status.Some? && status.value != "" {
      PushOne(conditions, args, idx, filters, ByStatus(status.value), join, Equals(StatusCol, idx), Text(status.value));
      conditions := conditions + [Equals(StatusCol, idx)];
      args := args + [Text(status.value)];
      idx := idx + 1;
      filters := And(filters, ByStatus(status.value));
    }
    assert InStep(conditions, args, idx, filters, join);
    if jobType.Some? && jobType.value != "" {
      PushOne(conditions, args, idx, filters, BySlug(jobType.value), join, Equals(SlugCol, idx), Text(jobType.value));
      conditions := conditions + [Equals(SlugCol, idx)];
      args := args + [Text(jobType.value)];
      idx := idx + 1;
      filters := And(filters, BySlug(jobType.value));
    }
    assert InStep(conditions, args, idx, filters, join);
    var joined := jobType.Some? && jobType.value != "";
    WithLimit(conditions, args, idx, filters, join, limit);
    query := Query(joined, conditions, Some(idx), None);
    args := args + [Num(limit)];
  }

  // list_all and count push the same six filters.
  method AdminConditions(status: Option<string>, integration: Option<int>, jobType: Option<int>, user: Option<int>,
                         dateFrom: Option<int>, dateTo: Option<int>)
    returns (conditions: seq<Condition>, args: seq<Value>, idx: nat)
    ensures InStep(conditions, args, idx, AdminFilters(status, integration, jobType, user, dateFrom, dateTo), false)
  {
    ghost var join, filters := Start();
    conditions, args, idx := [], [], 1;
    if status.Some? && status.value != "" {
      PushOne(conditions, args, idx, filters, ByStatus(status.value), join, Equals(StatusCol, idx), Text(status.value));
      conditions := conditions + [Equals(StatusCol, idx)];
      args := args + [Text(status.value)];
      idx := idx + 1;
      filters := And(filters, ByStatus(status.value));
    }
    assert InStep(conditions, args, idx, filters, join);
    if integration.Some? {
      PushOne(conditions, args, idx, filters, ByIntegration(integration.value), join, Equals(IntegrationCol, idx), Id(integration.value));
      conditions := conditions + [Equals(IntegrationCol, idx)];
      args := args + [Id(integration.value)];
      idx := idx + 1;
      filters := And(filters, ByIntegration(integration.value));
    }
    assert InStep(conditions, args, idx, filters, join);
    if jobType.Some? {
      PushOne(conditions, args, idx, filters, ByType(jobType.value), join, Equals(TypeCol, idx), Id(jobType.value));
      conditions := conditions + [Equals(TypeCol, idx)];
      args := args + [Id(jobType.value)];
      idx := idx + 1;
      filters := And(filters, ByType(jobType.value));
    }
    assert InStep(conditions, args, idx, filters, join);
    if user.Some? {
      PushOne(conditions, args, idx, filters, ByUser(user.value), join, Equals(UserCol, idx), Id(user.value));
      conditions := conditions + [Equals(UserCol, idx)];
      args := args + [Id(user.value)];
      idx := idx + 1;
      filters := And(filters, ByUser(user.value));
    }
    assert InStep(conditions, args, idx, filters, join);
    if dateFrom.Some? {
      PushOne(conditions, args, idx, filters, Since(dateFrom.value), join, NotBefore(CreatedCol, idx), At(dateFrom.value));
      conditions := conditions + [NotBefore(CreatedCol, idx)];
      args := args + [At(dateFrom.value)];
      idx := idx + 1;
      filters := And(filters, Since(dateFrom.value));
    }
    assert InStep(conditions, args, idx, filters, join);
    if dateTo.Some? {
      PushOne(conditions, args, idx, filters, Until(dateTo.value), join, NotAfter(CreatedCol, idx), At(dateTo.value));
      conditions := conditions + [NotAfter(CreatedCol, idx)];
      args := args + [At(dateTo.value)];
      idx := idx + 1;
      filters := And(filters, Until(dateTo.value));
    }
    assert InStep(conditions, args, idx, filters, join);
  }

  method ListAll(limit: int, offset: int, status: Option<string>, integration: Option<int>, jobType: Option<int>,
                 user: Option<int>, dateFrom: Option<int>, dateTo: Option<int>)
    returns (query: Query, args: seq<Value>)
    ensures Faithful(query, args, AdminFilters(status, integration, jobType, user, dateFrom, dateTo))
    ensures query.limit.Some? && Arg(args, query.limit.value) == Some(Num(limit))
    ensures query.offset.Some? && Arg(args, query.offset.value) == Some(Num(offset))
  {
    var conditions, idx;
    conditions, args, idx := AdminConditions(status, integration, jobType, user, dateFrom, dateTo);
    ghost var filters := AdminFilters(status, integration, jobType, user, dateFrom, dateTo);
    WithOffset(conditions, args, idx, filters, false, limit, offset);
    query := Query(false, conditions, Some(idx), Some(idx + 1));
    args := args + [Num(limit), Num(offset)];
  }

  // Counts exactly what ListAll with the same filters lists.
  method Count(status: Option<string>, integration: Option<int>, jobType: Option<int>, user: Option<int>,
               dateFrom: Option<int>, dateTo: Option<int>)
    returns (query: Query, args: seq<Value>)
    ensures Faithful(query, args, AdminFilters(status, integration, jobType, user, dateFrom, dateTo))
    ensures query.limit.None? && query.offset.None?
  {
    var conditions, idx;
    conditions, args, idx := AdminConditions(status, integration, jobType, user, dateFrom, dateTo);
    WithoutLimit(conditions, args, idx, AdminFilters(status, integration, jobType, user, dateFrom, dateTo), false);
    query := Query(false, conditions, None, None);
  }
}
