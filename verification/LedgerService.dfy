/**
 The mutable ledger: journal entries and fiscal periods as objects, the store that holds
 them, and the command handlers with their loops.  Every handler is proved to take the
 store's model through exactly the step the state machine describes.
 */
module LedgerService {
  import opened Basics
  import opened Sums
  import opened Chart
  import opened Journal
  import opened Reports
  import opened Closing
  import opened Ledgers

  class JournalEntry {
    const id: nat
    const date: int
    const period: Option<nat>
    const reversalOf: Option<nat>
    var status: EntryStatus
    var reversedBy: Option<nat>
    var lines: seq<Line>

    function View(): Entry
      reads this
    {
      Entry(date, status, period, reversedBy, reversalOf, lines)
    }

    constructor Create(id: nat, date: int, period: Option<nat>)
      ensures this.id == id && View() == Entry(date, Draft, period, None, None, [])
    {
      this.id, this.date, this.period, this.reversalOf := id, date, period, None;
      status, reversedBy, lines := Draft, None, [];
    }

    /** The object initializer inside CreateReversal: born posted, pointing back. */
    constructor Reversal(id: nat, today: int, of: nat)
      ensures this.id == id && View() == Entry(today, Posted, None, None, Some(of), [])
    {
      this.id, this.date, this.period, this.reversalOf := id, today, None, Some(of);
      status, reversedBy, lines := Posted, None, [];
    }

    /** No status guard: lines can be added to any entry. */
    method AddLine(account: nat, debit: int, credit: int)
      modifies this
      ensures View() == old(View()).(lines := old(lines) + [Line(account, debit, credit)])
    {
      lines := lines + [Line(account, debit, credit)];
    }

    method Post() returns (failure: Option<Failure>)
      modifies this
      ensures failure == if old(status) != Draft then Some(NotDraft)
                         else if !IsBalanced(old(lines)) then Some(Unbalanced)
                         else None
      ensures View() == if failure.None? then old(View()).(status := Posted) else old(View())
    {
      if status != Draft { return Some(NotDraft); }
      if !IsBalanced(lines) { return Some(Unbalanced); }
      status := Posted;
      failure := None;
    }

    /** The loop of a reversal: every line with its sides exchanged. */
    method AddSwapped(original: seq<Line>)
      requires lines == []
      modifies this
      ensures View() == old(View()).(lines := Swapped(original))
    {
      var i := 0;
      while i < |original|
        invariant 0 <= i <= |original|
        invariant View() == old(View()).(lines := Swapped(original)[..i])
      {
        AddLine(original[i].account, original[i].credit, original[i].debit);
        i := i + 1;
      }
    }

    method CreateReversal(newId: nat, today: int) returns (r: Result<JournalEntry>)
      modifies this
      ensures r.Err? <==> old(status) != Posted || old(reversedBy).Some?
      ensures r.Err? ==> r.error == (if old(status) != Posted then NotPosted else DuplicateReversal)
                         && View() == old(View())
      ensures r.Ok? ==>
        && fresh(r.value)
        && r.value.id == newId
        && r.value.View() == Entry(today, Posted, None, None, Some(id), Swapped(old(lines)))
        && View() == old(View()).(status := Reversed, reversedBy := Some(newId))
    {
      if status != Posted { return Err(NotPosted); }
      if reversedBy.Some? { return Err(DuplicateReversal); }
      var reversal := new JournalEntry.Reversal(newId, today, id);
      reversal.AddSwapped(lines);
      status, reversedBy := Reversed, Some(newId);
      r := Ok(reversal);
    }
  }

  class FiscalPeriod {
    const id: nat
    const start: int
    const end: int
    var status: PeriodStatus
    var opening: Option<nat>

    function View(): Period
      reads this
    {
      Period(start, end, status, opening)
    }

    constructor Create(id: nat, start: int, end: int)
      ensures this.id == id && View() == Period(start, end, Open, None)
    {
      this.id, this.start, this.end := id, start, end;
      status, opening := Open, None;
    }

    method Close() returns (failure: Option<Failure>)
      modifies this
      ensures failure.Some? <==> old(status) != Open
      ensures failure.Some? ==> failure.value == PeriodNotOpen
      ensures View() == if failure.None? then old(View()).(status := Closed) else old(View())
    {
      if status != Open { return Some(PeriodNotOpen); }
      status := Closed;
      failure := None;
    }

    method SetOpeningBalanceEntry(entry: nat)
      modifies this
      ensures View() == old(View()).(opening := Some(entry))
    {
      opening := Some(entry);
    }
  }

  function EntryViews(es: seq<JournalEntry>): (v: seq<Entry>)
    reads es
    ensures |v| == |es| && forall i :: 0 <= i < |es| ==> v[i] == es[i].View()
  {
    seq(|es|, i requires 0 <= i < |es| reads es => es[i].View())
  }

  lemma AppendView(es: seq<JournalEntry>, e: JournalEntry)
    ensures EntryViews(es + [e]) == EntryViews(es) + [e.View()]
  {
  }

  function PeriodViews(ps: seq<FiscalPeriod>): (v: seq<Period>)
    reads ps
    ensures |v| == |ps| && forall i :: 0 <= i < |ps| ==> v[i] == ps[i].View()
  {
    seq(|ps|, i requires 0 <= i < |ps| reads ps => ps[i].View())
  }

  class LedgerStore {
    var accounts: seq<Account>
    var periods: seq<FiscalPeriod>
    var entries: seq<JournalEntry>

    ghost predicate Valid()
      reads this
    {
      && (forall i :: 0 <= i < |entries| ==> entries[i].id == i)
      && (forall i :: 0 <= i < |periods| ==> periods[i].id == i)
    }

    function Model(): Ledger
      reads this, periods, entries
    {
      Ledger(accounts, PeriodViews(periods), EntryViews(entries))
    }

    constructor ()
      ensures Valid() && Model() == EMPTY
    {
      accounts, periods, entries := [], [], [];
    }

    method HandleCreateAccount(code: string, kind: AccountType, parent: Option<nat>) returns (failure: Option<Failure>)
      requires Valid()
      modifies this
      ensures Valid() && Model() == Step(old(Model()), OnChart(CreateAccount(code, kind, parent)))
      ensures failure == FailureOf(Apply(old(Model()), OnChart(CreateAccount(code, kind, parent))))
    {
      if exists i :: 0 <= i < |accounts| && accounts[i].code == code { return Some(DuplicateCode); }
      if parent.Some? && !HasId(accounts, parent.value) { return Some(UnknownAccount); }
      var account := Account(|accounts|, code, kind, parent, true);
      accounts := Insert(accounts, account);
      failure := None;
    }

    method HandleUpdateAccount(id: nat, active: bool) returns (failure: Option<Failure>)
      requires Valid()
      modifies this
      ensures Valid() && Model() == Step(old(Model()), OnChart(UpdateAccount(id, active)))
      ensures failure == FailureOf(Apply(old(Model()), OnChart(UpdateAccount(id, active))))
    {
      var k := IndexOfId(accounts, id);
      if k == |accounts| { return Some(NotFound); }
      accounts := accounts[k := accounts[k].(active := active)];
      failure := None;
    }

    method HandleTemplate(entries: seq<TemplateEntry>) returns (failure: Option<Failure>, count: nat)
      requires Valid()
      modifies this
      ensures Valid() && Model() == Step(old(Model()), OnChart(FromTemplate(entries)))
      ensures failure == FailureOf(Apply(old(Model()), OnChart(FromTemplate(entries))))
      ensures failure.None? ==> |accounts| == |old(accounts)| + count
    {
      var r;
      r, count := RunTemplate(accounts, entries);
      if r.Err? { return Some(r.error), count; }
      accounts := r.value;
      failure := None;
    }

    method HandleCreatePeriod(start: int, end: int) returns (failure: Option<Failure>)
      requires Valid()
      modifies this
      ensures Valid() && Model() == Step(old(Model()), NewPeriod(start, end))
      ensures failure == FailureOf(Apply(old(Model()), NewPeriod(start, end)))
    {
      var views := PeriodViews(periods);
      if exists p :: 0 <= p < |views| && views[p].start == start && views[p].end == end {
        return Some(DuplicatePeriod);
      }
      var period := new FiscalPeriod.Create(|periods|, start, end);
      periods := periods + [period];
      assert Model().periods == old(Model()).periods + [period.View()];
      failure := None;
    }

    /** The line loop of the create handler. */
    method AddLines(entry: JournalEntry, request: seq<Line>)
      requires entry.lines == []
      modifies entry
      ensures entry.View() == old(entry.View()).(lines := request)
    {
      var i := 0;
      while i < |request|
        invariant 0 <= i <= |request|
        invariant entry.View() == old(entry.View()).(lines := request[..i])
        modifies entry
      {
        entry.AddLine(request[i].account, request[i].debit, request[i].credit);
        i := i + 1;
      }
      assert request[..i] == request;
    }

    /** A new entry goes to the end of the store. */
    method Store(entry: JournalEntry)
      requires Valid() && entry.id == |entries|
      modifies this`entries
      ensures Valid() && Model() == old(Model()).(entries := old(Model()).entries + [entry.View()])
    {
      AppendView(entries, entry);
      entries := entries + [entry];
    }

    /** The validator, then the period gate. */
    method CheckEntry(period: Option<nat>, request: seq<Line>) returns (failure: Option<Failure>)
      ensures failure == if !ValidLines(request) then Some(Invalid)
                         else if period.Some? && period.value >= |periods| then Some(NotFound)
                         else if period.Some? && periods[period.value].status != Open then Some(PeriodNotOpen)
                         else None
    {
      if !ValidLines(request) { return Some(Invalid); }
      if period.Some? {
        if period.value >= |periods| { return Some(NotFound); }
        if periods[period.value].status != Open { return Some(PeriodNotOpen); }
      }
      failure := None;
    }

    method HandleCreateEntry(date: int, period: Option<nat>, request: seq<Line>) returns (failure: Option<Failure>)
      requires Valid()
      modifies this
      ensures Valid() && Model() == Step(old(Model()), NewEntry(date, period, request))
      ensures failure == FailureOf(Apply(old(Model()), NewEntry(date, period, request)))
    {
      failure := CheckEntry(period, request);
      if failure.Some? { return; }
      var entry := new JournalEntry.Create(|entries|, date, period);
      AddLines(entry, request);
      assert EntryViews(entries) == old(EntryViews(entries));
      if !LinesCharted(accounts, request) { return Some(UnknownAccount); }
      Store(entry);
    }

    method HandlePost(id: nat) returns (failure: Option<Failure>)
      requires Valid()
      modifies entries
      ensures Valid() && Model() == Step(old(Model()), Ledgers.Post(id))
      ensures failure == FailureOf(Apply(old(Model()), Ledgers.Post(id)))
    {
      if id >= |entries| { return Some(NotFound); }
      failure := entries[id].Post();
      assert Model().entries == old(Model()).entries[id := entries[id].View()];
    }

    method HandleReverse(id: nat, today: int) returns (failure: Option<Failure>)
      requires Valid()
      modifies this, entries
      ensures Valid() && Model() == Step(old(Model()), Reverse(id, today))
      ensures failure == FailureOf(Apply(old(Model()), Reverse(id, today)))
    {
      if id >= |entries| { return Some(NotFound); }
      var r := entries[id].CreateReversal(|entries|, today);
      match r
      case Err(e) =>
        failure := Some(e);
        assert EntryViews(entries) == old(EntryViews(entries));
      case Ok(reversal) =>
        assert EntryViews(entries) == old(EntryViews(entries))[id := entries[id].View()];
        Store(reversal);
        failure := None;
    }

    /** Step 5 of the close: one line per active Revenue or Expense account with a balance, and
        their summed net. */
    method CloseAccounts(entry: JournalEntry, m: map<nat, Totals>) returns (netIncome: int)
      requires entry.lines == []
      modifies entry
      ensures entry.View() == old(entry.View()).(lines := ClosingLines(accounts, m))
      ensures netIncome == NetIncome(accounts, m)
    {
      netIncome := 0;
      var i := 0;
      while i < |accounts|
        invariant 0 <= i <= |accounts|
        invariant entry.View() == old(entry.View()).(lines := ClosingLines(accounts[..i], m))
        invariant netIncome == Total(accounts[..i], IncomePart(m))
        modifies entry
      {
        var a := accounts[i];
        ghost var before := entry.lines;
        assert ClosingLines(accounts[..i + 1], m) == before + ClosingLine(a, m) by {
          assert accounts[..i + 1][..i] == accounts[..i];
        }
        assert Total(accounts[..i + 1], IncomePart(m)) == netIncome + IncomePart(m)(a) by {
          assert accounts[..i + 1][..i] == accounts[..i];
        }
        if a.active && (a.kind == Revenue || a.kind == Expense) && a.id in m {
          var net := m[a.id].credits - m[a.id].debits;
          netIncome := netIncome + net;
          if net > 0 {
            entry.AddLine(a.id, net, 0);
          } else if net < 0 {
            entry.AddLine(a.id, 0, -net);
          }
        }
        assert entry.lines == before + ClosingLine(a, m);
        i := i + 1;
      }
      assert accounts[..i] == accounts;
    }

    /** Step 6: the retained-surplus line. */
    method BuildClosingEntry(entry: JournalEntry, m: map<nat, Totals>, surplus: nat)
      requires entry.lines == []
      modifies entry
      ensures entry.View() == old(entry.View()).(lines := ClosingEntryLines(accounts, m, surplus))
    {
      var netIncome := CloseAccounts(entry, m);
      if netIncome > 0 {
        entry.AddLine(surplus, 0, netIncome);
      } else if netIncome < 0 {
        entry.AddLine(surplus, -netIncome, 0);
      }
    }

    /** Step 8: carry every active balance-sheet account's net forward. */
    method BuildOpeningEntry(entry: JournalEntry, m: map<nat, Totals>)
      requires entry.lines == []
      modifies entry
      ensures entry.View() == old(entry.View()).(lines := OpeningLines(accounts, m))
    {
      var i := 0;
      while i < |accounts|
        invariant 0 <= i <= |accounts|
        invariant entry.View() == old(entry.View()).(lines := OpeningLines(accounts[..i], m))
        modifies entry
      {
        var a := accounts[i];
        ghost var before := entry.lines;
        assert OpeningLines(accounts[..i + 1], m) == before + OpeningLine(a, m) by {
          assert accounts[..i + 1][..i] == accounts[..i];
        }
        if a.active && (a.kind == Asset || a.kind == Liability || a.kind == Equity) && a.id in m {
          if a.kind == Asset {
            var net := m[a.id].debits - m[a.id].credits;
            if net > 0 {
              entry.AddLine(a.id, net, 0);
            } else if net < 0 {
              entry.AddLine(a.id, 0, -net);
            }
          } else {
            var net := m[a.id].credits - m[a.id].debits;
            if net > 0 {
              entry.AddLine(a.id, 0, net);
            } else if net < 0 {
              entry.AddLine(a.id, -net, 0);
            }
          }
        }
        assert entry.lines == before + OpeningLine(a, m);
        i := i + 1;
      }
      assert accounts[..i] == accounts;
    }

    /** Builds, posts and stores the closing entry, if it has any lines. */
    method AddClosing(id: nat, end: int, m: map<nat, Totals>, surplus: nat) returns (failure: Option<Failure>)
      requires Valid() && id < |periods|
      modifies this`entries
      ensures Valid()
      ensures var ls := ClosingEntryLines(accounts, m, surplus);
        if ls != [] && !IsBalanced(ls) then
          failure == Some(Unbalanced) && Model() == old(Model())
        else
          failure == None && Model() == old(Model()).(entries := old(Model()).entries + ClosingEntry(end, id, ls))
    {
      failure := None;
      var closing := new JournalEntry.Create(|entries|, end, Some(id));
      BuildClosingEntry(closing, m, surplus);
      if closing.lines != [] {
        failure := closing.Post();
        if failure.Some? { return; }
        Store(closing);
      }
    }

    /** Builds the opening entry; posts, stores and records it if it has lines and balances. */
    method AddOpening(period: FiscalPeriod, m: map<nat, Totals>)
      requires Valid()
      modifies this`entries, period
      ensures Valid()
      ensures var next := OpeningEntry(period.end, OpeningLines(accounts, m));
        && EntryViews(entries) == old(EntryViews(entries)) + next
        && period.View() == if next == [] then old(period.View())
                            else old(period.View()).(opening := Some(|old(entries)|))
    {
      var opening := new JournalEntry.Create(|entries|, period.end + 1, None);
      BuildOpeningEntry(opening, m);
      if opening.lines != [] && IsBalanced(opening.lines) {
        var _ := opening.Post();
        Store(opening);
        period.SetOpeningBalanceEntry(opening.id);
      }
      assert EntryViews(entries) ==
             old(EntryViews(entries)) + OpeningEntry(period.end, OpeningLines(accounts, m));
    }

    /** Steps 5 to 8 of the close, once the checks have passed. */
    method CarryOut(id: nat, m: map<nat, Totals>, surplus: nat) returns (failure: Option<Failure>)
      requires Valid() && id < |periods| && periods[id].status == Open
      modifies this`entries, periods[id]
      ensures Valid()
      ensures var ls := ClosingEntryLines(accounts, m, surplus);
        if ls != [] && !IsBalanced(ls) then
          failure == Some(Unbalanced) && Model() == old(Model())
        else
          failure == None && Model() == CloseWith(old(Model()), id, ls, OpeningLines(accounts, m))
    {
      var period := periods[id];
      failure := AddClosing(id, period.end, m, surplus);
      if failure.Some? { return; }
      ghost var closed := EntryViews(entries);
      failure := period.Close();
      assert EntryViews(entries) == closed;
      AddOpening(period, m);
      assert PeriodViews(periods) == old(PeriodViews(periods))[id := period.View()];
    }

    method HandleClose(id: nat) returns (failure: Option<Failure>)
      requires Valid()
      modifies this, periods
      ensures Valid() && Model() == Step(old(Model()), Ledgers.Close(id))
      ensures failure == FailureOf(Apply(old(Model()), Ledgers.Close(id)))
    {
      if id >= |periods| { return Some(NotFound); }
      var period := periods[id];
      if period.status != Open { return Some(PeriodNotOpen); }
      var views := EntryViews(entries);
      var drafts := |Where(views, IsDraftWithin(period.start, period.end))|;
      if drafts > 0 { return Some(DraftsRemain(drafts)); }
      var m := GroupTotals(SelectLines(views, PostedWithin(period.start, period.end)));
      var surplus := FindSurplus(accounts);
      if surplus.None? { return Some(NoSurplusAccount); }
      failure := CarryOut(id, m, surplus.value.id);
    }
  }

  function FailureOf(r: Result<Ledger>): Option<Failure> {
    if r.Ok? then None else Some(r.error)
  }
}
