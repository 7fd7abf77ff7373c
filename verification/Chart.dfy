/**
 The chart of accounts: unique-code creation, update and template initialisation, and what
 every chart command keeps.

 Accounts are listed in code order, as the repository returns them; an account's id is
 the number of accounts created before it, which stands for a fresh Guid.
 */
module Chart {
  import opened Basics

  datatype AccountType = Asset | Liability | Equity | Revenue | Expense

  datatype Account = Account(id: nat, code: string, kind: AccountType, parent: Option<nat>, active: bool)

  /* ---------- code order ---------- */

  predicate CodeBefore(a: string, b: string) {
    b != [] && (a == [] || a[0] < b[0] || (a[0] == b[0] && CodeBefore(a[1..], b[1..])))
  }

  lemma {:induction false} CodeTrichotomy(a: string, b: string)
    ensures CodeBefore(a, b) ==> a != b && !CodeBefore(b, a)
    ensures a == b || CodeBefore(a, b) || CodeBefore(b, a)
  {
    if a != [] && b != [] {
      CodeTrichotomy(a[1..], b[1..]);
      if a[0] == b[0] && a[1..] == b[1..] {
        assert a == [a[0]] + a[1..] && b == [b[0]] + b[1..];
      }
    }
  }

  lemma {:induction false} CodeTransitive(a: string, b: string, c: string)
    requires CodeBefore(a, b) && CodeBefore(b, c)
    ensures CodeBefore(a, c)
  {
    if a != [] && a[0] == b[0] && b[0] == c[0] {
      CodeTransitive(a[1..], b[1..], c[1..]);
    }
  }

  /** The two agree before position k, and there a ends or has the smaller character. */
  ghost predicate SmallerAt(a: string, b: string, k: nat) {
    k <= |a| && k < |b| && a[..k] == b[..k] && (k == |a| || a[k] < b[k])
  }

  /** Code order is the order of the first characters that differ, a prefix coming first. */
  lemma {:induction false} CodeBeforeMeaning(a: string, b: string)
    ensures CodeBefore(a, b) <==> exists k :: SmallerAt(a, b, k)
  {
    if b != [] && (a == [] || a[0] < b[0]) {
      assert SmallerAt(a, b, 0);
    } else if a != [] && b != [] && a[0] == b[0] {
      CodeBeforeMeaning(a[1..], b[1..]);
      if CodeBefore(a, b) {
        var k: nat :| SmallerAt(a[1..], b[1..], k);
        assert a[..k + 1] == [a[0]] + a[1..][..k] && b[..k + 1] == [b[0]] + b[1..][..k];
        assert SmallerAt(a, b, k + 1);
      }
      if k: nat :| SmallerAt(a, b, k) {
        assert k > 0 && a[1..][..k - 1] == a[..k][1..] && b[1..][..k - 1] == b[..k][1..];
        assert SmallerAt(a[1..], b[1..], k - 1);
      }
    } else {
      forall k: nat
        ensures !SmallerAt(a, b, k)
      {
        if 0 < k <= |a| && k <= |b| {
          assert a[..k][0] == a[0] && b[..k][0] == b[0];
        }
      }
    }
  }

  /* ---------- well-formed charts ---------- */

  predicate HasId(c: seq<Account>, id: nat) {
    exists i :: 0 <= i < |c| && c[i].id == id
  }

  predicate HasCode(c: seq<Account>, code: string) {
    exists i :: 0 <= i < |c| && c[i].code == code
  }

  ghost predicate DistinctIds(c: seq<Account>) {
    forall i, j :: 0 <= i < j < |c| ==> c[i].id != c[j].id
  }

  ghost predicate SortedBy(c: seq<Account>, before: (string, string) -> bool) {
    forall i, j :: 0 <= i < j < |c| ==> before(c[i].code, c[j].code)
  }

  /** The listing order, which also makes the codes unique. */
  ghost predicate SortedByCode(c: seq<Account>) {
    SortedBy(c, CodeBefore)
  }

  ghost predicate ParentOlder(c: seq<Account>, a: Account) {
    a.parent.Some? ==> a.parent.value < a.id && HasId(c, a.parent.value)
  }

  /** Every parent link leads to an account of the chart that was created earlier. */
  ghost predicate ParentsOlder(c: seq<Account>) {
    forall i {:trigger ParentOlder(c, c[i])} :: 0 <= i < |c| ==> ParentOlder(c, c[i])
  }

  /** Ids are unique and no chain of parent links can be infinite. */
  ghost predicate Linked(c: seq<Account>) {
    && (forall i :: 0 <= i < |c| ==> c[i].id < |c|)
    && DistinctIds(c)
    && ParentsOlder(c)
  }

  ghost predicate WellFormed(c: seq<Account>) {
    Linked(c) && SortedByCode(c)
  }

  ghost predicate SameAccount(a: Account, b: Account) {
    b == a.(active := b.active)
  }

  ghost predicate Survives(a: Account, d: seq<Account>) {
    exists j :: 0 <= j < |d| && SameAccount(a, d[j])
  }

  /** Nothing is ever removed and only the active flag of an account may change. */
  ghost predicate Extends(c: seq<Account>, d: seq<Account>) {
    forall i :: 0 <= i < |c| ==> Survives(c[i], d)
  }

  lemma ExtendsKeepsIds(c: seq<Account>, d: seq<Account>, id: nat)
    requires Extends(c, d) && HasId(c, id)
    ensures HasId(d, id)
  {
    var i :| 0 <= i < |c| && c[i].id == id;
    assert Survives(c[i], d);
  }

  lemma ExtendsReflexive(c: seq<Account>)
    ensures Extends(c, c)
  {
    assert forall i :: 0 <= i < |c| ==> SameAccount(c[i], c[i]);
  }

  lemma ExtendsTransitive(c: seq<Account>, d: seq<Account>, e: seq<Account>)
    requires Extends(c, d) && Extends(d, e)
    ensures Extends(c, e)
  {
    forall i | 0 <= i < |c|
      ensures Survives(c[i], e)
    {
      var j :| 0 <= j < |d| && SameAccount(c[i], d[j]);
      assert Survives(d[j], e);
      var k :| 0 <= k < |e| && SameAccount(d[j], e[k]);
      assert SameAccount(c[i], e[k]);
    }
  }

  /* ---------- creation and update ---------- */

  /** The position that keeps the listing in code order. */
  function SlotFor(c: seq<Account>, code: string): (k: nat)
    ensures k <= |c|
    ensures forall i :: 0 <= i < k ==> !CodeBefore(code, c[i].code)
    ensures k < |c| ==> CodeBefore(code, c[k].code)
  {
    if c == [] || CodeBefore(code, c[0].code) then 0 else 1 + SlotFor(c[1..], code)
  }

  function Insert(c: seq<Account>, a: Account): seq<Account> {
    var k := SlotFor(c, a.code);
    c[..k] + [a] + c[k..]
  }

  /** Where each old account sits after an insertion. */
  function Shift(k: nat, i: nat): nat {
    if i < k then i else i + 1
  }

  function Unshift(k: nat, j: nat): nat
    requires j != k
  {
    if j < k then j else j - 1
  }

  ghost predicate Spliced(c: seq<Account>, d: seq<Account>, k: nat, a: Account) {
    && k < |d| == |c| + 1
    && d[k] == a
    && (forall i :: 0 <= i < |c| ==> d[Shift(k, i)] == c[i])
    && (forall j :: 0 <= j < |d| && j != k ==> d[j] == c[Unshift(k, j)])
  }

  lemma InsertShape(c: seq<Account>, a: Account)
    ensures Spliced(c, Insert(c, a), SlotFor(c, a.code), a)
  {
    var k, d := SlotFor(c, a.code), Insert(c, a);
    forall i | 0 <= i < |c|
      ensures d[Shift(k, i)] == c[i]
    {
    }
    forall j | 0 <= j < |d| && j != k
      ensures d[j] == c[Unshift(k, j)]
    {
    }
  }

  lemma InsertExtends(c: seq<Account>, a: Account)
    ensures Extends(c, Insert(c, a))
  {
    InsertShape(c, a);
    var k, d := SlotFor(c, a.code), Insert(c, a);
    forall i | 0 <= i < |c|
      ensures Survives(c[i], d)
    {
      assert SameAccount(c[i], d[Shift(k, i)]);
    }
  }

  lemma SpliceSorted(c: seq<Account>, k: nat, a: Account, before: (string, string) -> bool)
    requires SortedBy(c, before) && k <= |c|
    requires forall i :: 0 <= i < k ==> before(c[i].code, a.code)
    requires forall i :: k <= i < |c| ==> before(a.code, c[i].code)
    ensures SortedBy(c[..k] + [a] + c[k..], before)
  {
  }

  lemma InsertSorted(c: seq<Account>, a: Account)
    requires SortedByCode(c) && !HasCode(c, a.code)
    ensures SortedByCode(Insert(c, a))
  {
    var k := SlotFor(c, a.code);
    forall i | 0 <= i < |c|
      ensures i < k ==> CodeBefore(c[i].code, a.code)
      ensures k <= i ==> CodeBefore(a.code, c[i].code)
    {
      CodeTrichotomy(a.code, c[i].code);
      if k < i {
        assert CodeBefore(c[k].code, c[i].code);
        CodeTransitive(a.code, c[k].code, c[i].code);
      }
    }
    SpliceSorted(c, k, a, CodeBefore);
  }

  lemma InsertLinked(c: seq<Account>, d: seq<Account>, k: nat, a: Account)
    requires Linked(c) && Spliced(c, d, k, a) && Extends(c, d) && a.id == |c|
    requires a.parent.Some? ==> HasId(c, a.parent.value)
    ensures Linked(d)
  {
    forall j | 0 <= j < |d|
      ensures ParentOlder(d, d[j])
    {
      if j != k {
        assert ParentOlder(c, c[Unshift(k, j)]);
      }
      if d[j].parent.Some? {
        if j == k {
          IdsBelow(c, a.parent.value);
        }
        ExtendsKeepsIds(c, d, d[j].parent.value);
      }
    }
    SpliceDistinct(c, d, k, a);
  }

  lemma IdsBelow(c: seq<Account>, id: nat)
    requires Linked(c) && HasId(c, id)
    ensures id < |c|
  {
  }

  lemma SpliceDistinct(c: seq<Account>, d: seq<Account>, k: nat, a: Account)
    requires DistinctIds(c) && Spliced(c, d, k, a)
    requires forall i :: 0 <= i < |c| ==> c[i].id != a.id
    ensures DistinctIds(d)
  {
  }

  lemma InsertWellFormed(c: seq<Account>, a: Account)
    requires WellFormed(c) && a.id == |c| && !HasCode(c, a.code)
    requires a.parent.Some? ==> HasId(c, a.parent.value)
    ensures WellFormed(Insert(c, a)) && Extends(c, Insert(c, a))
  {
    InsertExtends(c, a);
    InsertSorted(c, a);
    InsertShape(c, a);
    InsertLinked(c, Insert(c, a), SlotFor(c, a.code), a);
  }

  function Create(c: seq<Account>, code: string, kind: AccountType, parent: Option<nat>): Result<seq<Account>> {
    if HasCode(c, code) then Err(DuplicateCode)
    else if parent.Some? && !HasId(c, parent.value) then Err(UnknownAccount)
    else Ok(Insert(c, Account(|c|, code, kind, parent, true)))
  }

  function IndexOfId(c: seq<Account>, id: nat): (k: nat)
    ensures k <= |c|
    ensures k < |c| ==> c[k].id == id
    ensures k == |c| ==> !HasId(c, id)
  {
    if c == [] then 0
    else if c[0].id == id then 0
    else
      assert forall i :: 0 < i < |c| ==> c[i] == c[1..][i - 1];
      1 + IndexOfId(c[1..], id)
  }

  function Update(c: seq<Account>, id: nat, active: bool): Result<seq<Account>> {
    var k := IndexOfId(c, id);
    if k == |c| then Err(NotFound) else Ok(c[k := c[k].(active := active)])
  }

  /** An account is created if and only if its code is free and its parent, if any, exists; the
      chart gains exactly this account, active, under this parent. */
  lemma CreatesIff(c: seq<Account>, code: string, kind: AccountType, parent: Option<nat>)
    ensures Create(c, code, kind, parent).Ok? <==>
      && (forall i :: 0 <= i < |c| ==> c[i].code != code)
      && (parent.Some? ==> exists i :: 0 <= i < |c| && c[i].id == parent.value)
    ensures (exists i :: 0 <= i < |c| && c[i].code == code) <==> Create(c, code, kind, parent) == Err(DuplicateCode)
    ensures Create(c, code, kind, parent).Ok? ==>
      multiset(Create(c, code, kind, parent).value) == multiset(c) + multiset{Account(|c|, code, kind, parent, true)}
  {
    var k := SlotFor(c, code);
    assert c == c[..k] + c[k..];
  }

  /** An account is updated if and only if it exists; it gets the requested flag, and everything
      else about it and all other accounts stay as they were. */
  lemma UpdatesIff(c: seq<Account>, id: nat, active: bool)
    requires DistinctIds(c)
    ensures Update(c, id, active).Ok? <==> exists i :: 0 <= i < |c| && c[i].id == id
    ensures Update(c, id, active).Err? ==> Update(c, id, active) == Err(NotFound)
    ensures Update(c, id, active).Ok? ==>
      var d := Update(c, id, active).value;
      && |d| == |c|
      && (forall i :: 0 <= i < |c| ==>
            d[i] == if c[i].id == id then Account(id, c[i].code, c[i].kind, c[i].parent, active) else c[i])
  {
  }

  lemma UpdateWellFormed(c: seq<Account>, id: nat, active: bool)
    requires WellFormed(c) && Update(c, id, active).Ok?
    ensures WellFormed(Update(c, id, active).value) && Extends(c, Update(c, id, active).value)
  {
    var d := Update(c, id, active).value;
    forall i | 0 <= i < |c|
      ensures Survives(c[i], d)
    {
      assert SameAccount(c[i], d[i]);
    }
    forall i | 0 <= i < |d|
      ensures ParentOlder(d, d[i])
    {
      assert ParentOlder(c, c[i]);
      if d[i].parent.Some? {
        ExtendsKeepsIds(c, d, d[i].parent.value);
      }
    }
  }

  /* ---------- initialisation from a template ---------- */

  /** kind is None when the template's type text is not one of the five names. */
  datatype TemplateEntry = TemplateEntry(code: string, kind: Option<AccountType>, parentCode: Option<string>)

  /** The chart being built and the ids of the accounts created by this call, by code. */
  datatype Progress = Progress(chart: seq<Account>, created: map<string, nat>)

  function ParentFor(created: map<string, nat>, e: TemplateEntry): Option<nat> {
    if e.parentCode.Some? && e.parentCode.value != "" && e.parentCode.value in created
    then Some(created[e.parentCode.value]) else None
  }

  /** One pass of the loop body; initial is the chart as it was before the command. */
  function Instantiate(initial: seq<Account>, p: Progress, e: TemplateEntry): Result<Progress> {
    if HasCode(initial, e.code) then Ok(p)
    else if e.kind.None? then Err(UnknownKind)
    else if e.code in p.created then Err(DuplicateCode)
    else
      var id := |p.chart|;
      Ok(Progress(Insert(p.chart, Account(id, e.code, e.kind.value, ParentFor(p.created, e), true)),
                  p.created[e.code := id]))
  }

  predicate KindMissing(initial: seq<Account>, e: TemplateEntry) {
    !HasCode(initial, e.code) && e.kind.None?
  }

  /** An unknown kind stops the loop; a repeated code only fails when everything is saved. */
  function InstantiateAll(initial: seq<Account>, es: seq<TemplateEntry>): Result<Progress> {
    if es == [] then Ok(Progress(initial, map[]))
    else
      var r, e := InstantiateAll(initial, es[..|es| - 1]), es[|es| - 1];
      if r.Ok? then Instantiate(initial, r.value, e)
      else if r == Err(DuplicateCode) && KindMissing(initial, e) then Err(UnknownKind)
      else r
  }

  function WithParent(es: seq<TemplateEntry>, hasParent: bool): seq<TemplateEntry> {
    if es == [] then []
    else WithParent(es[..|es| - 1], hasParent) +
         (if es[|es| - 1].parentCode.Some? == hasParent then [es[|es| - 1]] else [])
  }

  /** The position after every entry whose code is not greater. */
  function EntrySlot(es: seq<TemplateEntry>, code: string): (k: nat)
    ensures k <= |es|
    ensures forall i :: 0 <= i < k ==> !CodeBefore(code, es[i].code)
    ensures k < |es| ==> CodeBefore(code, es[k].code)
  {
    if es == [] || CodeBefore(code, es[0].code) then 0 else 1 + EntrySlot(es[1..], code)
  }

  function InsertEntry(es: seq<TemplateEntry>, e: TemplateEntry): seq<TemplateEntry> {
    var k := EntrySlot(es, e.code);
    es[..k] + [e] + es[k..]
  }

  /** A stable sort by code. */
  function SortByCode(es: seq<TemplateEntry>): seq<TemplateEntry> {
    if es == [] then [] else InsertEntry(SortByCode(es[..|es| - 1]), es[|es| - 1])
  }

  /** Entries without a parent code come first, and each group is in code order. */
  function ParentsFirst(es: seq<TemplateEntry>): seq<TemplateEntry> {
    SortByCode(WithParent(es, false)) + SortByCode(WithParent(es, true))
  }

  function InitializeFromTemplate(c: seq<Account>, es: seq<TemplateEntry>): Result<seq<Account>> {
    var r := InstantiateAll(c, ParentsFirst(es));
    if r.Err? then Err(r.error) else Ok(r.value.chart)
  }

  /** Codes of the created accounts are exactly the codes that were not there before. */
  ghost predicate ProgressOk(initial: seq<Account>, p: Progress) {
    && WellFormed(p.chart)
    && Extends(initial, p.chart)
    && (forall code :: code in p.created ==> HasId(p.chart, p.created[code]))
    && (forall i :: 0 <= i < |p.chart| ==> HasCode(initial, p.chart[i].code) || p.chart[i].code in p.created)
  }

  lemma {:induction false} InstantiateAllWellFormed(initial: seq<Account>, es: seq<TemplateEntry>)
    requires WellFormed(initial) && InstantiateAll(initial, es).Ok?
    ensures ProgressOk(initial, InstantiateAll(initial, es).value)
  {
    if es == [] {
      ExtendsReflexive(initial);
    } else {
      InstantiateAllWellFormed(initial, es[..|es| - 1]);
      InstantiateWellFormed(initial, InstantiateAll(initial, es[..|es| - 1]).value, es[|es| - 1]);
    }
  }

  lemma NewCodeIsNew(initial: seq<Account>, p: Progress, code: string)
    requires ProgressOk(initial, p) && !HasCode(initial, code) && code !in p.created
    ensures !HasCode(p.chart, code)
  {
  }

  lemma InstantiateWellFormed(initial: seq<Account>, p: Progress, e: TemplateEntry)
    requires ProgressOk(initial, p) && Instantiate(initial, p, e).Ok?
    ensures ProgressOk(initial, Instantiate(initial, p, e).value)
  {
    if !HasCode(initial, e.code) {
      NewCodeIsNew(initial, p, e.code);
      var a := Account(|p.chart|, e.code, e.kind.value, ParentFor(p.created, e), true);
      var d := Insert(p.chart, a);
      InsertWellFormed(p.chart, a);
      ExtendsTransitive(initial, p.chart, d);
      InsertShape(p.chart, a);
      var created := p.created[e.code := a.id];
      forall code | code in created
        ensures HasId(d, created[code])
      {
        if code != e.code {
          ExtendsKeepsIds(p.chart, d, p.created[code]);
        }
      }
    }
  }

  /** The creation loop itself: createdMap and the new accounts, entry by entry.  The unique
      constraint is checked when the new accounts are saved. */
  method RunTemplate(c: seq<Account>, es: seq<TemplateEntry>) returns (r: Result<seq<Account>>, count: nat)
    ensures r == InitializeFromTemplate(c, es)
    ensures r.Ok? ==> |r.value| == |c| + count
  {
    var ordered := ParentsFirst(es);
    var created: map<string, nat> := map[];
    var chart, repeated := c, false;
    count := 0;
    var i := 0;
    while i < |ordered|
      invariant 0 <= i <= |ordered|
      invariant InstantiateAll(c, ordered[..i]) == if repeated then Err(DuplicateCode) else Ok(Progress(chart, created))
      invariant |chart| == |c| + count
    {
      var e := ordered[i];
      assert ordered[..i + 1][..i] == ordered[..i];
      if !HasCode(c, e.code) {
        if e.kind.None? {
          UnknownKindStops(c, ordered, i + 1);
          return Err(UnknownKind), 0;
        }
        var parent := None;
        if e.parentCode.Some? && e.parentCode.value != "" && e.parentCode.value in created {
          parent := Some(created[e.parentCode.value]);
        }
        if e.code in created {
          repeated := true;
        } else {
          var account := Account(|chart|, e.code, e.kind.value, parent, true);
          created := created[e.code := account.id];
          chart := Insert(chart, account);
          count := count + 1;
        }
      }
      i := i + 1;
    }
    assert ordered[..i] == ordered;
    r := if repeated then Err(DuplicateCode) else Ok(chart);
  }

  lemma {:induction false} UnknownKindStops(c: seq<Account>, es: seq<TemplateEntry>, k: nat)
    requires k <= |es| && InstantiateAll(c, es[..k]) == Err(UnknownKind)
    ensures InstantiateAll(c, es) == Err(UnknownKind)
  {
    if k == |es| {
      assert es[..k] == es;
    } else {
      assert es[..|es| - 1][..k] == es[..k];
      UnknownKindStops(c, es[..|es| - 1], k);
    }
  }

  /* ---------- every reachable chart ---------- */

  datatype ChartCommand =
    | CreateAccount(code: string, kind: AccountType, parent: Option<nat>)
    | UpdateAccount(id: nat, active: bool)
    | FromTemplate(entries: seq<TemplateEntry>)

  function ApplyToChart(c: seq<Account>, cmd: ChartCommand): Result<seq<Account>> {
    match cmd
    case CreateAccount(code, kind, parent) => Create(c, code, kind, parent)
    case UpdateAccount(id, active) => Update(c, id, active)
    case FromTemplate(es) => InitializeFromTemplate(c, es)
  }

  /** Acyclic parents, unique codes and unique ids survive every chart command. */
  lemma ChartCommandKeeps(c: seq<Account>, cmd: ChartCommand)
    requires WellFormed(c) && ApplyToChart(c, cmd).Ok?
    ensures WellFormed(ApplyToChart(c, cmd).value) && Extends(c, ApplyToChart(c, cmd).value)
  {
    match cmd
    case CreateAccount(code, kind, parent) => InsertWellFormed(c, Account(|c|, code, kind, parent, true));
    case UpdateAccount(id, active) => UpdateWellFormed(c, id, active);
    case FromTemplate(es) => InstantiateAllWellFormed(c, ParentsFirst(es));
  }
}
