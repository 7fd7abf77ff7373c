/**
 The audit listing: optional filters compiled into numbered WHERE clauses with a matching
 argument list, evaluated under the row-level policy, and cut into pages.
 */
module AuditQuery {
  import opened Basics
  import opened Sums

  datatype Row = Row(tenantId: string, userId: Option<string>, action: string, resourceType: string, createdAt: int)

  datatype Caller = Caller(tenantId: string, platformAdmin: bool)

  /** Empty strings and None mean that the filter was not given. */
  datatype Filter = Filter(
    tenantId: string, userId: string, action: string, resourceType: string,
    from: Option<int>, to: Option<int>, page: int, pageSize: int)

  /* ---------- the generated SQL ---------- */

  datatype Value = Text(text: string) | Time(time: int) | Count(count: int)

  datatype Column = TenantId | UserId | Action | ResourceType | CreatedAt

  datatype Comparison = Equal | AtLeast | AtMost

  /** column comparison $placeholder */
  datatype Clause = Clause(column: Column, comparison: Comparison, placeholder: nat)

  datatype Sql = Sql(clauses: seq<Clause>, args: seq<Value>)

  /** NULL compares to nothing. */
  function Cell(r: Row, c: Column): Option<Value> {
    match c
    case TenantId => Some(Text(r.tenantId))
    case UserId => if r.userId.Some? then Some(Text(r.userId.value)) else None
    case Action => Some(Text(r.action))
    case ResourceType => Some(Text(r.resourceType))
    case CreatedAt => Some(Time(r.createdAt))
  }

  predicate Compare(cell: Option<Value>, k: Comparison, v: Value) {
    match k
    case Equal => cell == Some(v)
    case AtLeast => cell.Some? && cell.value.Time? && v.Time? && cell.value.time >= v.time
    case AtMost => cell.Some? && cell.value.Time? && v.Time? && cell.value.time <= v.time
  }

  function Arg(args: seq<Value>, placeholder: nat): Option<Value> {
    if 1 <= placeholder <= |args| then Some(args[placeholder - 1]) else None
  }

  predicate ClauseHolds(c: Clause, args: seq<Value>, r: Row) {
    var v := Arg(args, c.placeholder);
    v.Some? && Compare(Cell(r, c.column), c.comparison, v.value)
  }

  /** The WHERE text joined with AND; no clause at all selects every row. */
  predicate Evaluates(q: Sql, r: Row) {
    forall i :: 0 <= i < |q.clauses| ==> ClauseHolds(q.clauses[i], q.args, r)
  }

  /* ---------- the builder ---------- */

  function AddIf(q: Sql, given: bool, column: Column, k: Comparison, v: Value): Sql {
    if given then Sql(q.clauses + [Clause(column, k, |q.args| + 1)], q.args + [v]) else q
  }

  function Instant(t: Option<int>): Value { Time(if t.Some? then t.value else 0) }

  function WithTenant(caller: Caller, f: Filter): Sql {
    var q := Sql([], []);
    if !caller.platformAdmin then AddIf(q, true, TenantId, Equal, Text(caller.tenantId))
    else AddIf(q, f.tenantId != "", TenantId, Equal, Text(f.tenantId))
  }

  function WithUser(caller: Caller, f: Filter): Sql {
    AddIf(WithTenant(caller, f), f.userId != "", UserId, Equal, Text(f.userId))
  }

  function WithAction(caller: Caller, f: Filter): Sql {
    AddIf(WithUser(caller, f), f.action != "", Action, Equal, Text(f.action))
  }

  function WithResource(caller: Caller, f: Filter): Sql {
    AddIf(WithAction(caller, f), f.resourceType != "", ResourceType, Equal, Text(f.resourceType))
  }

  function WithFrom(caller: Caller, f: Filter): Sql {
    AddIf(WithResource(caller, f), f.from.Some?, CreatedAt, AtLeast, Instant(f.from))
  }

  function Compile(caller: Caller, f: Filter): Sql {
    AddIf(WithFrom(caller, f), f.to.Some?, CreatedAt, AtMost, Instant(f.to))
  }

  /** The first half of the builder: tenant, user, action and resource type. */
  method BuildTextClauses(caller: Caller, f: Filter) returns (clauses: seq<Clause>, args: seq<Value>, n: nat)
    ensures Sql(clauses, args) == WithResource(caller, f)
    ensures n == |args| + 1
  {
    clauses, args, n := [], [], 1;
    if !caller.platformAdmin {
      clauses, args, n := clauses + [Clause(TenantId, Equal, n)], args + [Text(caller.tenantId)], n + 1;
    } else if f.tenantId != "" {
      clauses, args, n := clauses + [Clause(TenantId, Equal, n)], args + [Text(f.tenantId)], n + 1;
    }
    assert Sql(clauses, args) == WithTenant(caller, f) && n == |args| + 1;
    if f.userId != "" {
      clauses, args, n := clauses + [Clause(UserId, Equal, n)], args + [Text(f.userId)], n + 1;
    }
    assert Sql(clauses, args) == WithUser(caller, f) && n == |args| + 1;
    if f.action != "" {
      clauses, args, n := clauses + [Clause(Action, Equal, n)], args + [Text(f.action)], n + 1;
    }
    assert Sql(clauses, args) == WithAction(caller, f) && n == |args| + 1;
    if f.resourceType != "" {
      clauses, args, n := clauses + [Clause(ResourceType, Equal, n)], args + [Text(f.resourceType)], n + 1;
    }
  }

  /** The code's own way: three variables pushed along together. */
  method BuildQuery(caller: Caller, f: Filter) returns (clauses: seq<Clause>, args: seq<Value>, n: nat)
    ensures Sql(clauses, args) == Compile(caller, f)
    ensures n == |args| + 1
  {
    clauses, args, n := BuildTextClauses(caller, f);
    if f.from.Some? {
      clauses, args, n := clauses + [Clause(CreatedAt, AtLeast, n)], args + [Time(f.from.value)], n + 1;
    }
    assert Sql(clauses, args) == WithFrom(caller, f) && n == |args| + 1;
    if f.to.Some? {
      clauses, args, n := clauses + [Clause(CreatedAt, AtMost, n)], args + [Time(f.to.value)], n + 1;
    }
  }

  /* ---------- what the clauses mean ---------- */

  /** Clause i reads argument i, and there is one argument per clause. */
  ghost predicate Numbered(q: Sql) {
    |q.clauses| == |q.args| && forall i :: 0 <= i < |q.clauses| ==> q.clauses[i].placeholder == i + 1
  }

  lemma AddIfMeans(q: Sql, given: bool, column: Column, k: Comparison, v: Value, r: Row)
    requires Numbered(q)
    ensures Numbered(AddIf(q, given, column, k, v))
    ensures Evaluates(AddIf(q, given, column, k, v), r) <==>
            Evaluates(q, r) && (given ==> Compare(Cell(r, column), k, v))
  {
    var q' := AddIf(q, given, column, k, v);
    if given {
      var n := |q.clauses|;
      assert q'.clauses[n] == Clause(column, k, n + 1);
      assert ClauseHolds(q'.clauses[n], q'.args, r) <==> Compare(Cell(r, column), k, v);
      forall i | 0 <= i < n
        ensures ClauseHolds(q'.clauses[i], q'.args, r) <==> ClauseHolds(q.clauses[i], q.args, r)
      {
        assert q'.clauses[i] == q.clauses[i] && q.clauses[i].placeholder == i + 1;
        assert q'.args[i] == q.args[i];
      }
    }
  }

  /** The filters read directly. */
  predicate Selects(caller: Caller, f: Filter, r: Row) {
    && TenantSelects(caller, f, r)
    && (f.userId != "" ==> r.userId == Some(f.userId))
    && (f.action != "" ==> r.action == f.action)
    && (f.resourceType != "" ==> r.resourceType == f.resourceType)
    && (f.from.Some? ==> r.createdAt >= f.from.value)
    && (f.to.Some? ==> r.createdAt <= f.to.value)
  }

  predicate TenantSelects(caller: Caller, f: Filter, r: Row) {
    if !caller.platformAdmin then r.tenantId == caller.tenantId
    else f.tenantId != "" ==> r.tenantId == f.tenantId
  }

  lemma TenantMeans(caller: Caller, f: Filter, r: Row)
    ensures Numbered(WithTenant(caller, f))
    ensures Evaluates(WithTenant(caller, f), r) <==> TenantSelects(caller, f, r)
  {
    AddIfMeans(Sql([], []), true, TenantId, Equal, Text(caller.tenantId), r);
    AddIfMeans(Sql([], []), f.tenantId != "", TenantId, Equal, Text(f.tenantId), r);
  }

  lemma TextFiltersMean(caller: Caller, f: Filter, r: Row)
    ensures Numbered(WithResource(caller, f))
    ensures Evaluates(WithResource(caller, f), r) <==>
      && TenantSelects(caller, f, r)
      && (f.userId != "" ==> r.userId == Some(f.userId))
      && (f.action != "" ==> r.action == f.action)
      && (f.resourceType != "" ==> r.resourceType == f.resourceType)
  {
    TenantMeans(caller, f, r);
    AddIfMeans(WithTenant(caller, f), f.userId != "", UserId, Equal, Text(f.userId), r);
    AddIfMeans(WithUser(caller, f), f.action != "", Action, Equal, Text(f.action), r);
    AddIfMeans(WithAction(caller, f), f.resourceType != "", ResourceType, Equal, Text(f.resourceType), r);
  }

  /** For every caller, filter and row, the SQL selects exactly what the filters say. */
  lemma CompiledMeansFilters(caller: Caller, f: Filter, r: Row)
    ensures Numbered(Compile(caller, f))
    ensures Evaluates(Compile(caller, f), r) <==> Selects(caller, f, r)
  {
    TextFiltersMean(caller, f, r);
    AddIfMeans(WithResource(caller, f), f.from.Some?, CreatedAt, AtLeast, Instant(f.from), r);
    AddIfMeans(WithFrom(caller, f), f.to.Some?, CreatedAt, AtMost, Instant(f.to), r);
  }

  /* ---------- paging ---------- */

  function PageNumber(f: Filter): (p: int)
    ensures if f.page >= 1 then p == f.page else p == 1
  {
    if f.page < 1 then 1 else f.page
  }

  function PageSize(f: Filter): (s: int)
    ensures 1 <= s <= 200
    ensures if 1 <= f.pageSize <= 200 then s == f.pageSize else s == 50
  {
    if f.pageSize < 1 || f.pageSize > 200 then 50 else f.pageSize
  }

  /** The row-level policy of the table for this session. */
  predicate Visible(caller: Caller, r: Row)
    ensures !caller.platformAdmin && r.tenantId != caller.tenantId ==> !Visible(caller, r)
    ensures caller.platformAdmin ==> Visible(caller, r)
  {
    caller.platformAdmin || r.tenantId == caller.tenantId
  }

  function SelectedBy(caller: Caller, q: Sql): Row -> bool {
    (r: Row) => Visible(caller, r) && Evaluates(q, r)
  }

  function Directly(caller: Caller, f: Filter): Row -> bool {
    (r: Row) => Selects(caller, f, r)
  }

  /** LIMIT and OFFSET on a list. */
  function Slice<T>(s: seq<T>, limit: int, offset: int): seq<T>
    requires limit >= 0 && offset >= 0
  {
    if offset >= |s| then [] else if offset + limit >= |s| then s[offset..] else s[offset..offset + limit]
  }

  datatype Listing = Listing(entries: seq<Row>, total: nat)

  /** sessionSet: the transaction began and accepted the two row-level settings, without which
      nothing is queried.  table is in the order that ORDER BY gives it; LIMIT is $n and OFFSET
      is $n+1. */
  function QueryEntries(table: seq<Row>, sessionSet: bool, caller: Caller, f: Filter): Result<Listing> {
    var q := Compile(caller, f);
    var n := |q.args| + 1;
    var pageArgs := q.args + [Count(PageSize(f)), Count(Offset(f))];
    var rows := Where(table, SelectedBy(caller, Sql(q.clauses, pageArgs)));
    var counted := Where(table, SelectedBy(caller, q));
    if !sessionSet then Err(Unavailable)
    else match (Arg(pageArgs, n), Arg(pageArgs, n + 1))
    case (Some(Count(limit)), Some(Count(offset))) =>
      if limit < 0 || offset < 0 then Err(Invalid) else Ok(Listing(Slice(rows, limit, offset), |counted|))
    case _ => Err(Invalid)
  }

  function Offset(f: Filter): int { (PageNumber(f) - 1) * PageSize(f) }

  lemma OffsetNonNegative(f: Filter)
    ensures Offset(f) >= 0
  {
    assert PageNumber(f) - 1 >= 0 && PageSize(f) >= 1;
  }

  /** The two paging arguments do not disturb the clauses before them. */
  lemma ExtraArgsHarmless(q: Sql, extra: seq<Value>, r: Row)
    requires Numbered(q)
    ensures Evaluates(Sql(q.clauses, q.args + extra), r) <==> Evaluates(q, r)
  {
    assert forall i :: 0 <= i < |q.clauses| ==>
      ClauseHolds(q.clauses[i], q.args + extra, r) == ClauseHolds(q.clauses[i], q.args, r);
  }

  lemma {:induction false} WhereSame<T>(s: seq<T>, p: T -> bool, q: T -> bool)
    requires forall i :: 0 <= i < |s| ==> p(s[i]) == q(s[i])
    ensures Where(s, p) == Where(s, q)
  {
    if s != [] {
      WhereSame(s[..|s| - 1], p, q);
    }
  }

  /**
   Once the session is set up, a listing is the requested slice of the directly filtered rows together with their
   number.  The policy removes nothing, because a caller who is not an administrator is
   already confined to the tenant the policy allows.
   */
  lemma ListingIsSliceOfFiltered(table: seq<Row>, sessionSet: bool, caller: Caller, f: Filter)
    ensures Offset(f) >= 0
    ensures var kept := Where(table, Directly(caller, f));
      QueryEntries(table, sessionSet, caller, f) ==
      if sessionSet then Ok(Listing(Slice(kept, PageSize(f), Offset(f)), |kept|)) else Err(Unavailable)
  {
    var q := Compile(caller, f);
    var extra := [Count(PageSize(f)), Count(Offset(f))];
    OffsetNonNegative(f);
    forall i | 0 <= i < |table|
      ensures SelectedBy(caller, Sql(q.clauses, q.args + extra))(table[i]) == Directly(caller, f)(table[i])
      ensures SelectedBy(caller, q)(table[i]) == Directly(caller, f)(table[i])
    {
      CompiledMeansFilters(caller, f, table[i]);
      ExtraArgsHarmless(q, extra, table[i]);
    }
    WhereSame(table, SelectedBy(caller, Sql(q.clauses, q.args + extra)), Directly(caller, f));
    WhereSame(table, SelectedBy(caller, q), Directly(caller, f));
  }

  /** Whatever the filter asks for, a caller who is not an administrator gets rows of the own
      tenant only. */
  lemma CallersSeeOwnTenant(table: seq<Row>, caller: Caller, f: Filter, i: nat)
    requires !caller.platformAdmin && QueryEntries(table, true, caller, f).Ok?
    requires i < |QueryEntries(table, true, caller, f).value.entries|
    ensures QueryEntries(table, true, caller, f).value.entries[i].tenantId == caller.tenantId
  {
    var kept := Where(table, Directly(caller, f));
    ListingIsSliceOfFiltered(table, true, caller, f);
    var r := QueryEntries(table, true, caller, f).value.entries[i];
    assert r in Slice(kept, PageSize(f), Offset(f));
    assert r in kept;
    WhereMember(table, Directly(caller, f), r);
  }

  /** Every placeholder from 1 to n+1 is used exactly once: by its clause, LIMIT or OFFSET. */
  lemma PlaceholdersUsedOnce(caller: Caller, f: Filter, p: nat)
    requires 1 <= p <= |Compile(caller, f).args| + 2
    ensures var q := Compile(caller, f);
      var n := |q.args| + 1;
      && (p < n ==> p - 1 < |q.clauses| && q.clauses[p - 1].placeholder == p)
      && (forall i :: 0 <= i < |q.clauses| && q.clauses[i].placeholder == p ==> p < n && i == p - 1)
  {
    CompiledMeansFilters(caller, f, Row("", None, "", "", 0));
  }

  /* ---------- consecutive pages ---------- */

  /** Pages 1 to k, one after the other. */
  function Concat<T>(page: nat -> seq<T>, k: nat): seq<T> {
    if k == 0 then [] else Concat(page, k - 1) + page(k)
  }

  function PageOf(table: seq<Row>, caller: Caller, f: Filter): nat -> seq<Row> {
    (k: nat) =>
      var r := QueryEntries(table, true, caller, f.(page := k));
      if r.Ok? then r.value.entries else []
  }

  /** The entries of the first k pages. */
  function Pages(table: seq<Row>, caller: Caller, f: Filter, k: nat): seq<Row> {
    Concat(PageOf(table, caller, f), k)
  }

  function Prefix<T>(s: seq<T>, n: int): seq<T>
    requires n >= 0
  {
    if n >= |s| then s else s[..n]
  }

  /** A page holds its slice of the rows. */
  ghost predicate IsPage<T(!new)>(page: nat -> seq<T>, rows: seq<T>, size: int, k: nat) {
    k > 0 && size >= 0 && page(k) == Slice(rows, size, Times(k - 1, size))
  }

  function Times(k: nat, size: int): (n: nat)
    requires size >= 0
    ensures n == k * size
  {
    if k == 0 then 0 else Times(k - 1, size) + size
  }

  lemma {:induction false} SlicesConcatenate<T(!new)>(page: nat -> seq<T>, rows: seq<T>, size: int, k: nat)
    requires size >= 0 && forall j: nat :: 1 <= j <= k ==> IsPage(page, rows, size, j)
    ensures Concat(page, k) == Prefix(rows, Times(k, size))
  {
    if k > 0 {
      SlicesConcatenate(page, rows, size, k - 1);
      assert IsPage(page, rows, size, k);
      PrefixThenSlice(rows, Times(k - 1, size), size);
    }
  }

  /** The first k pages are exactly the first k * pageSize filtered rows, and so all of them
      once that covers the total. */
  lemma PagesConcatenate(table: seq<Row>, caller: Caller, f: Filter, k: nat)
    ensures k * PageSize(f) >= 0
    ensures Pages(table, caller, f, k) == Prefix(Where(table, Directly(caller, f)), k * PageSize(f))
  {
    var rows := Where(table, Directly(caller, f));
    forall j: nat | 1 <= j <= k
      ensures IsPage(PageOf(table, caller, f), rows, PageSize(f), j)
    {
      OnePage(table, caller, f, j);
    }
    SlicesConcatenate(PageOf(table, caller, f), rows, PageSize(f), k);
  }

  lemma SameFilters(table: seq<Row>, caller: Caller, f: Filter, k: nat)
    ensures Where(table, Directly(caller, f.(page := k))) == Where(table, Directly(caller, f))
  {
    WhereSame(table, Directly(caller, f.(page := k)), Directly(caller, f));
  }

  lemma PageOffset(f: Filter, k: nat)
    requires k > 0
    ensures PageSize(f.(page := k)) == PageSize(f) && Offset(f.(page := k)) == Times(k - 1, PageSize(f))
  {
  }

  lemma OnePage(table: seq<Row>, caller: Caller, f: Filter, k: nat)
    requires k > 0
    ensures IsPage(PageOf(table, caller, f), Where(table, Directly(caller, f)), PageSize(f), k)
  {
    ListingIsSliceOfFiltered(table, true, caller, f.(page := k));
    SameFilters(table, caller, f, k);
    PageOffset(f, k);
  }

  lemma PrefixThenSlice<T>(s: seq<T>, offset: int, limit: int)
    requires offset >= 0 && limit >= 0
    ensures Prefix(s, offset) + Slice(s, limit, offset) == Prefix(s, offset + limit)
  {
  }
}
