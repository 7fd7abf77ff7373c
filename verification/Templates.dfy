/**
 What initialisation from a template builds: one account for every entry whose code was not
 taken, of the entry's kind, under the account the same call created for the parent code.
 */
module Templates {
  import opened Basics
  import opened Sums
  import opened Chart

  predicate HasEntry(es: seq<TemplateEntry>, code: string) {
    exists j :: 0 <= j < |es| && es[j].code == code
  }

  /** The account with this id has this code. */
  ghost predicate Named(d: seq<Account>, id: nat, code: string) {
    exists i :: 0 <= i < |d| && d[i].id == id && d[i].code == code
  }

  /** When entry k comes up, this call has created an account for its parent code. */
  ghost predicate ParentCreated(c: seq<Account>, es: seq<TemplateEntry>, k: nat)
    requires k < |es|
  {
    var p := es[k].parentCode;
    p.Some? && p.value != "" && !HasCode(c, p.value) && HasEntry(es[..k], p.value)
  }

  ghost predicate Fits(c: seq<Account>, d: seq<Account>, es: seq<TemplateEntry>, k: nat, a: Account)
    requires k < |es|
  {
    && a.code == es[k].code && Some(a.kind) == es[k].kind && a.active
    && (a.parent.Some? <==> ParentCreated(c, es, k))
    && (a.parent.Some? ==> Named(d, a.parent.value, es[k].parentCode.value))
  }

  ghost predicate Placed(c: seq<Account>, d: seq<Account>, es: seq<TemplateEntry>, k: nat)
    requires k < |es|
  {
    !HasCode(c, es[k].code) ==> exists i :: 0 <= i < |d| && Fits(c, d, es, k, d[i])
  }

  ghost predicate Built(c: seq<Account>, es: seq<TemplateEntry>, p: Progress) {
    && (forall code :: code in p.created <==> !HasCode(c, code) && HasEntry(es, code))
    && (forall code :: code in p.created ==> Named(p.chart, p.created[code], code))
    && (forall k: nat {:trigger Placed(c, p.chart, es, k)} :: k < |es| ==> Placed(c, p.chart, es, k))
  }

  /** Accounts of one chart are all in the next one, unchanged. */
  ghost predicate Kept(d: seq<Account>, d': seq<Account>) {
    forall a :: a in d ==> a in d'
  }

  lemma InsertKept(d: seq<Account>, a: Account)
    ensures Kept(d, Insert(d, a)) && a in Insert(d, a)
  {
    var k, d' := SlotFor(d, a.code), Insert(d, a);
    InsertShape(d, a);
    assert d'[k] == a;
    forall x | x in d
      ensures x in d'
    {
      var i :| 0 <= i < |d| && d[i] == x;
      assert d'[Shift(k, i)] == x;
    }
  }

  lemma NamedKept(d: seq<Account>, d': seq<Account>, id: nat, code: string)
    requires Kept(d, d') && Named(d, id, code)
    ensures Named(d', id, code)
  {
    var i :| 0 <= i < |d| && d[i].id == id && d[i].code == code;
    assert d[i] in d';
  }

  /** Later entries and later accounts do not disturb what entry k got. */
  lemma PlacedKept(c: seq<Account>, d: seq<Account>, d': seq<Account>, es: seq<TemplateEntry>, n: nat, k: nat)
    requires k < n <= |es| && Kept(d, d') && Placed(c, d, es[..n], k)
    ensures Placed(c, d', es, k)
  {
    assert es[..n][..k] == es[..k];
    if !HasCode(c, es[k].code) {
      var i :| 0 <= i < |d| && Fits(c, d, es[..n], k, d[i]);
      if d[i].parent.Some? {
        NamedKept(d, d', d[i].parent.value, es[k].parentCode.value);
      }
      assert d[i] in d';
      var j :| 0 <= j < |d'| && d'[j] == d[i];
      assert Fits(c, d', es, k, d'[j]);
    }
  }

  lemma EntriesSoFar(es: seq<TemplateEntry>, n: nat, code: string)
    requires n + 1 == |es|
    ensures HasEntry(es, code) <==> HasEntry(es[..n], code) || es[n].code == code
  {
    if HasEntry(es[..n], code) {
      var j :| 0 <= j < n && es[..n][j].code == code;
      assert es[j].code == code;
    }
    if j :| 0 <= j < |es| && es[j].code == code {
      assert j == n || es[..n][j].code == code;
    }
  }

  /** The account created for the last entry. */
  lemma LastPlaced(c: seq<Account>, p: Progress, es: seq<TemplateEntry>, n: nat)
    requires n + 1 == |es| && Built(c, es[..n], p)
    requires !HasCode(c, es[n].code) && es[n].kind.Some?
    ensures var a := Account(|p.chart|, es[n].code, es[n].kind.value, ParentFor(p.created, es[n]), true);
      Placed(c, Insert(p.chart, a), es, n)
  {
    var a := Account(|p.chart|, es[n].code, es[n].kind.value, ParentFor(p.created, es[n]), true);
    var d := Insert(p.chart, a);
    InsertKept(p.chart, a);
    if a.parent.Some? {
      NamedKept(p.chart, d, a.parent.value, es[n].parentCode.value);
    }
    var i :| 0 <= i < |d| && d[i] == a;
    assert Fits(c, d, es, n, d[i]);
  }

  lemma InstantiateBuilds(c: seq<Account>, p: Progress, es: seq<TemplateEntry>, n: nat)
    requires n + 1 == |es| && Built(c, es[..n], p) && Instantiate(c, p, es[n]).Ok?
    ensures Built(c, es, Instantiate(c, p, es[n]).value)
  {
    var p' := Instantiate(c, p, es[n]).value;
    forall code
      ensures HasEntry(es, code) <==> HasEntry(es[..n], code) || es[n].code == code
    {
      EntriesSoFar(es, n, code);
    }
    if !HasCode(c, es[n].code) {
      var a := Account(|p.chart|, es[n].code, es[n].kind.value, ParentFor(p.created, es[n]), true);
      InsertKept(p.chart, a);
      LastPlaced(c, p, es, n);
      forall code | code in p'.created
        ensures Named(p'.chart, p'.created[code], code)
      {
        if code == es[n].code {
          var i :| 0 <= i < |p'.chart| && p'.chart[i] == a;
        } else {
          NamedKept(p.chart, p'.chart, p.created[code], code);
        }
      }
    }
    forall k: nat | k < |es|
      ensures Placed(c, p'.chart, es, k)
    {
      if k < n {
        assert Placed(c, p.chart, es[..n], k);
        PlacedKept(c, p.chart, p'.chart, es, n, k);
      }
    }
  }

  lemma {:induction false} InstantiateAllBuilds(c: seq<Account>, es: seq<TemplateEntry>)
    requires InstantiateAll(c, es).Ok?
    ensures Built(c, es, InstantiateAll(c, es).value)
  {
    if es != [] {
      var n := |es| - 1;
      InstantiateAllBuilds(c, es[..n]);
      InstantiateBuilds(c, InstantiateAll(c, es[..n]).value, es, n);
    }
  }

  ghost predicate NoRepeats(c: seq<Account>, es: seq<TemplateEntry>) {
    forall i, j :: 0 <= i < j < |es| && !HasCode(c, es[j].code) ==> es[i].code != es[j].code
  }

  lemma LastIsNew(c: seq<Account>, es: seq<TemplateEntry>, n: nat)
    requires InstantiateAll(c, es).Ok? && n + 1 == |es| && !HasCode(c, es[n].code)
    ensures !HasEntry(es[..n], es[n].code)
  {
    InstantiateAllBuilds(c, es[..n]);
    assert es[n].code !in InstantiateAll(c, es[..n]).value.created;
  }

  lemma NoRepeatsPush(c: seq<Account>, es: seq<TemplateEntry>, n: nat)
    requires n + 1 == |es| && NoRepeats(c, es[..n])
    requires !HasCode(c, es[n].code) ==> !HasEntry(es[..n], es[n].code)
    ensures NoRepeats(c, es)
  {
    forall i, j | 0 <= i < j < |es| && !HasCode(c, es[j].code)
      ensures es[i].code != es[j].code
    {
      assert es[i] == es[..n][i];
      if j < n { assert es[j] == es[..n][j]; }
    }
  }

  /** Free codes that occur twice make the whole command fail. */
  lemma {:induction false} SuccessHasNoRepeats(c: seq<Account>, es: seq<TemplateEntry>)
    requires InstantiateAll(c, es).Ok?
    ensures NoRepeats(c, es)
  {
    if es != [] {
      var n := |es| - 1;
      SuccessHasNoRepeats(c, es[..n]);
      if !HasCode(c, es[n].code) { LastIsNew(c, es, n); }
      NoRepeatsPush(c, es, n);
    }
  }

  /* ---------- the order of the entries ---------- */

  lemma {:induction false} WithParentMember(es: seq<TemplateEntry>, hasParent: bool, e: TemplateEntry)
    ensures e in WithParent(es, hasParent) <==> e in es && e.parentCode.Some? == hasParent
  {
    if es != [] {
      var n := |es| - 1;
      WithParentMember(es[..n], hasParent, e);
      assert es == es[..n] + [es[n]];
    }
  }

  ghost predicate InCodeOrder(es: seq<TemplateEntry>) {
    forall i, j :: 0 <= i < j < |es| ==> !CodeBefore(es[j].code, es[i].code)
  }

  lemma InsertInOrder(es: seq<TemplateEntry>, e: TemplateEntry)
    requires InCodeOrder(es)
    ensures InCodeOrder(InsertEntry(es, e))
  {
    var k := EntrySlot(es, e.code);
    forall j | k <= j < |es|
      ensures !CodeBefore(es[j].code, e.code)
    {
      if CodeBefore(es[j].code, e.code) {
        CodeTransitive(es[j].code, e.code, es[k].code);
        CodeTrichotomy(es[k].code, es[k].code);
      }
    }
  }

  lemma InsertAddsOne(es: seq<TemplateEntry>, e: TemplateEntry)
    ensures multiset(InsertEntry(es, e)) == multiset(es) + multiset{e}
  {
    var k := EntrySlot(es, e.code);
    assert es == es[..k] + es[k..];
  }

  /** The sort loses and invents nothing and yields code order. */
  lemma {:induction false} SortSorts(es: seq<TemplateEntry>)
    ensures InCodeOrder(SortByCode(es)) && multiset(SortByCode(es)) == multiset(es)
  {
    if es != [] {
      var n := |es| - 1;
      SortSorts(es[..n]);
      InsertInOrder(SortByCode(es[..n]), es[n]);
      InsertAddsOne(SortByCode(es[..n]), es[n]);
      assert es == es[..n] + [es[n]];
    }
  }

  lemma GroupMember(es: seq<TemplateEntry>, hasParent: bool, e: TemplateEntry)
    ensures e in SortByCode(WithParent(es, hasParent)) <==> e in es && e.parentCode.Some? == hasParent
  {
    WithParentMember(es, hasParent, e);
    SortSorts(WithParent(es, hasParent));
    assert e in SortByCode(WithParent(es, hasParent)) <==> e in multiset(WithParent(es, hasParent));
  }

  /** tops are the entries without a parent code and kids those with one, in code order. */
  ghost predicate Grouped(es: seq<TemplateEntry>, tops: seq<TemplateEntry>, kids: seq<TemplateEntry>) {
    && (forall x :: x in tops <==> x in es && x.parentCode.None?)
    && (forall x :: x in kids <==> x in es && x.parentCode.Some?)
    && InCodeOrder(kids)
  }

  lemma ParentsFirstGroups(es: seq<TemplateEntry>) returns (tops: seq<TemplateEntry>, kids: seq<TemplateEntry>)
    ensures ParentsFirst(es) == tops + kids && Grouped(es, tops, kids) && InCodeOrder(tops)
  {
    tops, kids := SortByCode(WithParent(es, false)), SortByCode(WithParent(es, true));
    forall x
      ensures x in tops <==> x in es && x.parentCode.None?
      ensures x in kids <==> x in es && x.parentCode.Some?
    {
      GroupMember(es, false, x);
      GroupMember(es, true, x);
    }
    SortSorts(WithParent(es, false));
    SortSorts(WithParent(es, true));
  }

  /** f is processed before e, which has a parent code: f has none, or the smaller code. */
  predicate ComesFirst(f: TemplateEntry, e: TemplateEntry) {
    f.parentCode.None? || CodeBefore(f.code, e.code)
  }

  predicate HasFirst(es: seq<TemplateEntry>, code: string, e: TemplateEntry) {
    exists j :: 0 <= j < |es| && es[j].code == code && ComesFirst(es[j], e)
  }

  /** In code order the smaller of two codes stands first. */
  lemma SmallerStandsFirst(kids: seq<TemplateEntry>, i: nat, j: nat)
    requires InCodeOrder(kids) && i < |kids| && j < |kids| && kids[i].code != kids[j].code
    ensures i < j <==> CodeBefore(kids[i].code, kids[j].code)
  {
    CodeTrichotomy(kids[i].code, kids[j].code);
  }

  lemma StandsBefore(o: seq<TemplateEntry>, j: nat, k: nat)
    requires j < k < |o|
    ensures HasEntry(o[..k], o[j].code)
  {
    assert o[..k][j].code == o[j].code;
  }

  /** Whatever comes first stands before e. */
  lemma FirstStandsBefore(tops: seq<TemplateEntry>, kids: seq<TemplateEntry>, f: TemplateEntry, i: nat)
    requires InCodeOrder(kids) && i < |kids| && f in (if f.parentCode.None? then tops else kids)
    requires ComesFirst(f, kids[i])
    ensures HasEntry((tops + kids)[..|tops| + i], f.code)
  {
    if f.parentCode.None? {
      var j :| 0 <= j < |tops| && tops[j] == f;
      StandsBefore(tops + kids, j, |tops| + i);
    } else {
      var j :| 0 <= j < |kids| && kids[j] == f;
      CodeTrichotomy(f.code, kids[i].code);
      SmallerStandsFirst(kids, j, i);
      StandsBefore(tops + kids, |tops| + j, |tops| + i);
    }
  }

  /** And what stands before e with another code comes first. */
  lemma BeforeComesFirst(tops: seq<TemplateEntry>, kids: seq<TemplateEntry>, j: nat, i: nat)
    requires InCodeOrder(kids) && i < |kids| && j < |tops| + i
    requires forall x :: x in tops ==> x.parentCode.None?
    requires (tops + kids)[j].code != kids[i].code
    ensures ComesFirst((tops + kids)[j], kids[i])
  {
    if j >= |tops| {
      SmallerStandsFirst(kids, j - |tops|, i);
    }
  }

  /** The parent code is free, and an entry with it is processed before e. */
  predicate FindsParent(c: seq<Account>, es: seq<TemplateEntry>, e: TemplateEntry) {
    var p := e.parentCode;
    p.Some? && p.value != "" && !HasCode(c, p.value) && HasFirst(es, p.value, e)
  }

  lemma CreatedIsFound(c: seq<Account>, es: seq<TemplateEntry>, tops: seq<TemplateEntry>, kids: seq<TemplateEntry>,
                       i: nat)
    requires Grouped(es, tops, kids) && NoRepeats(c, tops + kids) && i < |kids| && !HasCode(c, kids[i].code)
    requires ParentCreated(c, tops + kids, |tops| + i)
    ensures FindsParent(c, es, kids[i])
  {
    var o, k := tops + kids, |tops| + i;
    var j :| 0 <= j < k && o[..k][j].code == kids[i].parentCode.value;
    assert o[j].code != o[k].code;
    BeforeComesFirst(tops, kids, j, i);
    assert o[j] in tops || o[j] in kids;
    var n :| 0 <= n < |es| && es[n] == o[j];
  }

  lemma FoundIsCreated(c: seq<Account>, es: seq<TemplateEntry>, tops: seq<TemplateEntry>, kids: seq<TemplateEntry>,
                       i: nat)
    requires Grouped(es, tops, kids) && i < |kids| && FindsParent(c, es, kids[i])
    ensures ParentCreated(c, tops + kids, |tops| + i)
  {
    var e := kids[i];
    var j :| 0 <= j < |es| && es[j].code == e.parentCode.value && ComesFirst(es[j], e);
    FirstStandsBefore(tops, kids, es[j], i);
    assert (tops + kids)[|tops| + i] == e;
  }

  lemma CreatedIffFound(c: seq<Account>, es: seq<TemplateEntry>, tops: seq<TemplateEntry>, kids: seq<TemplateEntry>,
                        i: nat)
    requires Grouped(es, tops, kids) && NoRepeats(c, tops + kids) && i < |kids| && !HasCode(c, kids[i].code)
    ensures ParentCreated(c, tops + kids, |tops| + i) <==> FindsParent(c, es, kids[i])
  {
    if ParentCreated(c, tops + kids, |tops| + i) { CreatedIsFound(c, es, tops, kids, i); }
    if FindsParent(c, es, kids[i]) { FoundIsCreated(c, es, tops, kids, i); }
  }

  lemma TopPosition(c: seq<Account>, es: seq<TemplateEntry>, tops: seq<TemplateEntry>, kids: seq<TemplateEntry>,
                    e: TemplateEntry) returns (k: nat)
    requires e in tops && e.parentCode.None?
    ensures k < |tops + kids| && (tops + kids)[k] == e
    ensures !ParentCreated(c, tops + kids, k) && !FindsParent(c, es, e)
  {
    k :| k < |tops| && tops[k] == e;
  }

  lemma KidPosition(c: seq<Account>, es: seq<TemplateEntry>, tops: seq<TemplateEntry>, kids: seq<TemplateEntry>,
                    e: TemplateEntry) returns (k: nat)
    requires Grouped(es, tops, kids) && NoRepeats(c, tops + kids) && e in kids && !HasCode(c, e.code)
    ensures k < |tops + kids| && (tops + kids)[k] == e
    ensures ParentCreated(c, tops + kids, k) <==> FindsParent(c, es, e)
  {
    var i :| 0 <= i < |kids| && kids[i] == e;
    CreatedIffFound(c, es, tops, kids, i);
    k := |tops| + i;
  }

  lemma PositionIn(c: seq<Account>, es: seq<TemplateEntry>, tops: seq<TemplateEntry>, kids: seq<TemplateEntry>,
                   e: TemplateEntry) returns (k: nat)
    requires Grouped(es, tops, kids) && NoRepeats(c, tops + kids) && e in es && !HasCode(c, e.code)
    ensures k < |tops + kids| && (tops + kids)[k] == e
    ensures ParentCreated(c, tops + kids, k) <==> FindsParent(c, es, e)
  {
    if e.parentCode.None? {
      k := TopPosition(c, es, tops, kids, e);
    } else {
      k := KidPosition(c, es, tops, kids, e);
    }
  }

  /** Where e is processed, its parent is there exactly when the template lets it be found. */
  lemma PositionOf(c: seq<Account>, es: seq<TemplateEntry>, e: TemplateEntry) returns (k: nat)
    requires InstantiateAll(c, ParentsFirst(es)).Ok? && e in es && !HasCode(c, e.code)
    ensures k < |ParentsFirst(es)| && ParentsFirst(es)[k] == e
    ensures ParentCreated(c, ParentsFirst(es), k) <==> FindsParent(c, es, e)
  {
    SuccessHasNoRepeats(c, ParentsFirst(es));
    var tops, kids := ParentsFirstGroups(es);
    k := PositionIn(c, es, tops, kids, e);
  }

  /**
   Every entry with a free code becomes an active account of its kind.  It gets a parent, the
   account of its parent code, if and only if that code is free and belongs to an entry without
   a parent code or with a smaller code than its own; otherwise it ends up at the top.
   */
  lemma TemplateCreates(c: seq<Account>, es: seq<TemplateEntry>, e: TemplateEntry) returns (a: Account)
    requires InitializeFromTemplate(c, es).Ok? && e in es && !HasCode(c, e.code)
    ensures var d := InitializeFromTemplate(c, es).value;
      && a in d && a.code == e.code && Some(a.kind) == e.kind && a.active
      && (a.parent.Some? <==> FindsParent(c, es, e))
      && (a.parent.Some? ==> Named(d, a.parent.value, e.parentCode.value))
  {
    var o := ParentsFirst(es);
    var d := InstantiateAll(c, o).value.chart;
    InstantiateAllBuilds(c, o);
    var k := PositionOf(c, es, e);
    a := PlacedAccount(c, d, o, k);
  }

  lemma PlacedAccount(c: seq<Account>, d: seq<Account>, o: seq<TemplateEntry>, k: nat) returns (a: Account)
    requires k < |o| && Placed(c, d, o, k) && !HasCode(c, o[k].code)
    ensures a in d && Fits(c, d, o, k, a)
  {
    var i :| 0 <= i < |d| && Fits(c, d, o, k, d[i]);
    a := d[i];
  }

  /* ---------- a grandchild that loses its parent ---------- */

  lemma {:induction false} KnownAndDistinctSucceed(c: seq<Account>, es: seq<TemplateEntry>)
    requires forall i :: 0 <= i < |es| ==> es[i].kind.Some?
    requires forall i, j :: 0 <= i < j < |es| ==> es[i].code != es[j].code
    ensures InstantiateAll(c, es).Ok?
  {
    if es != [] {
      var n := |es| - 1;
      KnownAndDistinctSucceed(c, es[..n]);
      InstantiateAllBuilds(c, es[..n]);
      assert !HasEntry(es[..n], es[n].code);
    }
  }

  const GRANDCHILD := TemplateEntry("1", Some(Asset), Some("2"))
  const CHILD := TemplateEntry("2", Some(Asset), Some("3"))
  const TOP := TemplateEntry("3", Some(Asset), None)

  lemma WithParentPush(es: seq<TemplateEntry>, e: TemplateEntry, hasParent: bool)
    ensures WithParent(es + [e], hasParent) ==
            if e.parentCode.Some? == hasParent then WithParent(es, hasParent) + [e] else WithParent(es, hasParent)
  {
    assert (es + [e])[..|es|] == es;
  }

  lemma GroupsOfThree(hasParent: bool)
    ensures WithParent([GRANDCHILD, CHILD, TOP], hasParent) == if hasParent then [GRANDCHILD, CHILD] else [TOP]
  {
    WithParentPush([], GRANDCHILD, hasParent);
    WithParentPush([] + [GRANDCHILD], CHILD, hasParent);
    WithParentPush([] + [GRANDCHILD] + [CHILD], TOP, hasParent);
    assert [] + [GRANDCHILD] + [CHILD] + [TOP] == [GRANDCHILD, CHILD, TOP];
  }

  lemma SortTwo()
    ensures SortByCode([GRANDCHILD, CHILD]) == [GRANDCHILD, CHILD]
  {
    assert [GRANDCHILD, CHILD][..1] == [GRANDCHILD];
    SortOne(GRANDCHILD);
    assert !CodeBefore("2", "1");
    assert EntrySlot([GRANDCHILD], "2") == 1;
    assert InsertEntry([GRANDCHILD], CHILD) == [GRANDCHILD, CHILD];
  }

  lemma OrderOfThree()
    ensures ParentsFirst([GRANDCHILD, CHILD, TOP]) == [TOP, GRANDCHILD, CHILD]
  {
    GroupsOfThree(true);
    GroupsOfThree(false);
    SortOne(TOP);
    SortTwo();
  }

  lemma SortOne(e: TemplateEntry)
    ensures SortByCode([e]) == [e]
  {
    assert [e][..0] == [];
    assert SortByCode([e]) == InsertEntry(SortByCode([e][..0]), e);
  }

  lemma GrandchildNotFound()
    ensures !FindsParent([], [GRANDCHILD, CHILD, TOP], GRANDCHILD)
  {
    assert !CodeBefore("2", "1");
  }

  lemma ThreeSucceed()
    ensures InitializeFromTemplate([], [GRANDCHILD, CHILD, TOP]).Ok?
  {
    OrderOfThree();
    KnownAndDistinctSucceed([], [TOP, GRANDCHILD, CHILD]);
  }

  /** Code "1" under "2" under "3": all codes are free, and yet "1" ends up at the top. */
  lemma GrandchildLosesParent() returns (a: Account)
    ensures InitializeFromTemplate([], [GRANDCHILD, CHILD, TOP]).Ok?
    ensures a in InitializeFromTemplate([], [GRANDCHILD, CHILD, TOP]).value && a.code == "1" && a.parent.None?
  {
    ThreeSucceed();
    GrandchildNotFound();
    a := TemplateCreates([], [GRANDCHILD, CHILD, TOP], GRANDCHILD);
  }

  /* ---------- when a template succeeds, and what else it leaves ---------- */

  function HasThisCode(code: string): TemplateEntry -> int {
    (e: TemplateEntry) => if e.code == code then 1 else 0
  }

  function CountCode(es: seq<TemplateEntry>, code: string): int {
    Total(es, HasThisCode(code))
  }

  lemma CountInserted(es: seq<TemplateEntry>, e: TemplateEntry, f: TemplateEntry -> int)
    ensures Total(InsertEntry(es, e), f) == Total(es, f) + f(e)
  {
    var k := EntrySlot(es, e.code);
    assert es == es[..k] + es[k..];
    TotalConcat(es[..k], es[k..], f);
    TotalPush(es[..k], e, f);
    TotalConcat(es[..k] + [e], es[k..], f);
  }

  lemma {:induction false} CountSorted(es: seq<TemplateEntry>, f: TemplateEntry -> int)
    ensures Total(SortByCode(es), f) == Total(es, f)
  {
    if es != [] {
      CountSorted(es[..|es| - 1], f);
      CountInserted(SortByCode(es[..|es| - 1]), es[|es| - 1], f);
    }
  }

  function ParentIs(hasParent: bool): TemplateEntry -> bool {
    (e: TemplateEntry) => e.parentCode.Some? == hasParent
  }

  lemma {:induction false} GroupIsFilter(es: seq<TemplateEntry>, hasParent: bool)
    ensures WithParent(es, hasParent) == Where(es, ParentIs(hasParent))
  {
    if es != [] {
      GroupIsFilter(es[..|es| - 1], hasParent);
    }
  }

  function Only(hasParent: bool, f: TemplateEntry -> int): TemplateEntry -> int {
    (e: TemplateEntry) => if e.parentCode.Some? == hasParent then f(e) else 0
  }

  /** The order of processing keeps every count. */
  lemma CountOrdered(es: seq<TemplateEntry>, f: TemplateEntry -> int)
    ensures Total(ParentsFirst(es), f) == Total(es, f)
  {
    CountSorted(WithParent(es, false), f);
    CountSorted(WithParent(es, true), f);
    TotalConcat(SortByCode(WithParent(es, false)), SortByCode(WithParent(es, true)), f);
    GroupIsFilter(es, false);
    GroupIsFilter(es, true);
    TotalWhere(es, ParentIs(false), f, Only(false, f));
    TotalWhere(es, ParentIs(true), f, Only(true, f));
    TotalPlus(es, Only(false, f), Only(true, f), f);
  }

  lemma {:induction false} CountedEntries(es: seq<TemplateEntry>, code: string)
    ensures CountCode(es, code) >= 0 && (CountCode(es, code) > 0 <==> HasEntry(es, code))
  {
    if es != [] {
      CountedEntries(es[..|es| - 1], code);
      EntriesSoFar(es, |es| - 1, code);
    }
  }

  ghost predicate AllKnown(c: seq<Account>, es: seq<TemplateEntry>) {
    forall e :: e in es && !HasCode(c, e.code) ==> e.kind.Some?
  }

  ghost predicate NoneTwice(c: seq<Account>, es: seq<TemplateEntry>) {
    forall code :: !HasCode(c, code) ==> CountCode(es, code) <= 1
  }

  lemma PrefixFacts(c: seq<Account>, es: seq<TemplateEntry>, n: nat)
    requires n + 1 == |es|
    ensures AllKnown(c, es) <==> AllKnown(c, es[..n]) && !KindMissing(c, es[n])
    ensures NoneTwice(c, es) <==> NoneTwice(c, es[..n]) && (!HasCode(c, es[n].code) ==> !HasEntry(es[..n], es[n].code))
  {
    assert es == es[..n] + [es[n]];
    CountedEntries(es[..n], es[n].code);
    forall code
      ensures CountCode(es, code) == CountCode(es[..n], code) + (if es[n].code == code then 1 else 0)
    {
    }
  }

  /** The loop succeeds, or stops at a missing kind, or ends with a repeated code. */
  lemma {:induction false} LoopOutcome(c: seq<Account>, es: seq<TemplateEntry>)
    ensures InstantiateAll(c, es).Ok? <==> AllKnown(c, es) && NoneTwice(c, es)
    ensures !AllKnown(c, es) <==> InstantiateAll(c, es) == Err(UnknownKind)
    ensures InstantiateAll(c, es).Err? ==> InstantiateAll(c, es).error in {UnknownKind, DuplicateCode}
  {
    if es != [] {
      var n := |es| - 1;
      LoopOutcome(c, es[..n]);
      PrefixFacts(c, es, n);
      if InstantiateAll(c, es[..n]).Ok? {
        InstantiateAllBuilds(c, es[..n]);
      }
    }
  }

  /** A template succeeds if and only if every entry with a free code has a known type and no free
      code occurs twice; a missing type is reported before a repeated code. */
  lemma TemplateSucceedsIff(c: seq<Account>, es: seq<TemplateEntry>)
    ensures InitializeFromTemplate(c, es).Ok? <==> AllKnown(c, es) && NoneTwice(c, es)
    ensures !AllKnown(c, es) <==> InitializeFromTemplate(c, es) == Err(UnknownKind)
    ensures AllKnown(c, es) && !NoneTwice(c, es) <==> InitializeFromTemplate(c, es) == Err(DuplicateCode)
  {
    LoopOutcome(c, ParentsFirst(es));
    forall code
      ensures CountCode(ParentsFirst(es), code) == CountCode(es, code)
    {
      CountOrdered(es, HasThisCode(code));
    }
    SameEntries(es);
  }

  lemma SameEntries(es: seq<TemplateEntry>)
    ensures forall e :: e in ParentsFirst(es) <==> e in es
  {
    forall e
      ensures e in ParentsFirst(es) <==> e in es
    {
      GroupMember(es, false, e);
      GroupMember(es, true, e);
    }
  }

  /** Old accounts stay as they were, and every new one has the free code of an entry. */
  ghost predicate AddsOnly(c: seq<Account>, es: seq<TemplateEntry>, d: seq<Account>) {
    Kept(c, d) && forall a :: a in d ==> a in c || (!HasCode(c, a.code) && HasEntry(es, a.code))
  }

  lemma InsertAddsOnly(c: seq<Account>, es: seq<TemplateEntry>, n: nat, d: seq<Account>, a: Account)
    requires n + 1 == |es| && AddsOnly(c, es[..n], d) && a.code == es[n].code && !HasCode(c, a.code)
    ensures AddsOnly(c, es, Insert(d, a))
  {
    InsertKept(d, a);
    forall x | x in Insert(d, a)
      ensures x in c || (!HasCode(c, x.code) && HasEntry(es, x.code))
    {
      EntriesSoFar(es, n, x.code);
    }
  }

  lemma {:induction false} LoopAddsOnly(c: seq<Account>, es: seq<TemplateEntry>)
    requires InstantiateAll(c, es).Ok?
    ensures AddsOnly(c, es, InstantiateAll(c, es).value.chart)
  {
    if es != [] {
      var n := |es| - 1;
      LoopAddsOnly(c, es[..n]);
      var p := InstantiateAll(c, es[..n]).value;
      if HasCode(c, es[n].code) {
        forall x | x in p.chart
          ensures x in c || (!HasCode(c, x.code) && HasEntry(es, x.code))
        {
          EntriesSoFar(es, n, x.code);
        }
      } else {
        InsertAddsOnly(c, es, n, p.chart,
                       Account(|p.chart|, es[n].code, es[n].kind.value, ParentFor(p.created, es[n]), true));
      }
    }
  }

  /** A template leaves the old accounts alone and adds nothing but accounts for its own free codes. */
  lemma TemplateAddsOnly(c: seq<Account>, es: seq<TemplateEntry>)
    requires InitializeFromTemplate(c, es).Ok?
    ensures AddsOnly(c, es, InitializeFromTemplate(c, es).value)
  {
    var o := ParentsFirst(es);
    LoopAddsOnly(c, o);
    forall code | HasEntry(o, code)
      ensures HasEntry(es, code)
    {
      CountOrdered(es, HasThisCode(code));
      CountedEntries(o, code);
      CountedEntries(es, code);
    }
  }
}
