/**
 Runs from the empty ledger on which the reports say something else than one would expect:
 a reversal that overshoots, a profitable period whose close records no opening entry, and a
 break-even period whose opening entry doubles a balance.
 */
module LedgerExamples {
  import opened Basics
  import opened Sums
  import opened Chart
  import opened Journal
  import opened Reports
  import opened Closing
  import opened Ledgers
  import opened CloseTheorems
  import opened Reversals
  import opened Shifts

  const CASH := Account(0, "1", Asset, None, true)
  const RETAINED := Account(1, SURPLUS_CODE, Equity, None, true)
  const SALES := Account(2, "4", Revenue, None, true)

  /** The amount debited to cash and credited to another account. */
  function Booking(amount: int, credited: nat): seq<Line> {
    [Line(0, amount, 0)] + [Line(credited, 0, amount)]
  }

  const DAYS := Period(1, 30, Open, None)

  /** Three accounts, one open period, and the booking on day 5. */
  function Books(status: EntryStatus, amount: int, credited: nat): Ledger {
    Ledger([CASH, RETAINED, SALES], [DAYS],
           [Entry(5, status, None, None, None, Booking(amount, credited))])
  }

  lemma RunPush(cmds: seq<Command>, cmd: Command)
    ensures Run(EMPTY, cmds + [cmd]) == Step(Run(EMPTY, cmds), cmd)
  {
    assert (cmds + [cmd])[..|cmds|] == cmds;
  }

  lemma AddAccount(cmds: seq<Command>, a: Account) returns (more: seq<Command>)
    requires var c := Run(EMPTY, cmds).accounts;
      && a.id == |c| && a.parent.None? && a.active
      && forall i :: 0 <= i < |c| ==> c[i].code != a.code && !CodeBefore(a.code, c[i].code)
    ensures Run(EMPTY, more) == Run(EMPTY, cmds).(accounts := Run(EMPTY, cmds).accounts + [a])
  {
    var c := Run(EMPTY, cmds).accounts;
    assert SlotFor(c, a.code) == |c|;
    assert Insert(c, a) == c + [a];
    RunPush(cmds, OnChart(CreateAccount(a.code, a.kind, None)));
    more := cmds + [OnChart(CreateAccount(a.code, a.kind, None))];
  }

  lemma OpenAccounts() returns (cmds: seq<Command>)
    ensures Run(EMPTY, cmds) == Ledger([CASH, RETAINED, SALES], [], [])
  {
    cmds := AddAccount([], CASH);
    assert Run(EMPTY, cmds).accounts == [CASH];
    cmds := AddAccount(cmds, RETAINED);
    assert Run(EMPTY, cmds).accounts == [CASH, RETAINED];
    cmds := AddAccount(cmds, SALES);
    assert Run(EMPTY, cmds).accounts == [CASH, RETAINED, SALES];
  }

  lemma AddPeriod(cmds: seq<Command>, start: int, end: int)
    requires forall p :: 0 <= p < |Run(EMPTY, cmds).periods| ==> Run(EMPTY, cmds).periods[p].start != start
    ensures Run(EMPTY, cmds + [NewPeriod(start, end)]) ==
            Run(EMPTY, cmds).(periods := Run(EMPTY, cmds).periods + [Period(start, end, Open, None)])
  {
    RunPush(cmds, NewPeriod(start, end));
  }

  lemma OpenBooks() returns (cmds: seq<Command>)
    ensures Run(EMPTY, cmds) == Ledger([CASH, RETAINED, SALES], [DAYS], [])
  {
    cmds := OpenAccounts();
    AddPeriod(cmds, 1, 30);
    cmds := cmds + [NewPeriod(1, 30)];
  }

  lemma BookingBalances(amount: int, credited: nat)
    requires amount > 0
    ensures ValidLines(Booking(amount, credited)) && IsBalanced(Booking(amount, credited))
  {
    var one, two := [Line(0, amount, 0)], [Line(credited, 0, amount)];
    SingleLine(one, All(Debit));
    SingleLine(two, All(Debit));
    SingleLine(one, All(Credit));
    SingleLine(two, All(Credit));
    TotalConcat(one, two, All(Debit));
    TotalConcat(one, two, All(Credit));
  }

  /** What the booking does to account x. */
  function Moved(amount: int, credited: nat, x: nat): int {
    (if x == credited then amount else 0) - (if x == 0 then amount else 0)
  }

  lemma BookingEffect(amount: int, credited: nat, x: nat)
    ensures Effect(Booking(amount, credited), x) == Moved(amount, credited, x)
  {
    var one, two := [Line(0, amount, 0)], [Line(credited, 0, amount)];
    SingleLine(one, On(x, Net));
    SingleLine(two, On(x, Net));
    TotalConcat(one, two, On(x, Net));
  }

  /** The booking can be entered and posted. */
  lemma KeepBooks(amount: int, credited: nat) returns (cmds: seq<Command>)
    requires amount > 0 && credited in {1, 2}
    ensures Run(EMPTY, cmds) == Books(Draft, amount, credited)
    ensures Run(EMPTY, cmds + [Post(0)]) == Books(Posted, amount, credited)
  {
    BookingBalances(amount, credited);
    cmds := OpenBooks();
    var ls := Booking(amount, credited);
    var c := [CASH, RETAINED, SALES];
    assert c[0].id == 0 && c[1].id == 1 && c[2].id == 2;
    assert LinesCharted(c, ls);
    RunPush(cmds, NewEntry(5, None, ls));
    cmds := cmds + [NewEntry(5, None, ls)];
    RunPush(cmds, Post(0));
  }

  /** The amount as the reports see it. */
  lemma BooksNet(amount: int, credited: nat, q: Query, x: nat)
    requires q.status == Some(Posted) && Covers(q, 5)
    ensures PostedNet(Books(Posted, amount, credited).entries, q, x) == Moved(amount, credited, x)
    ensures PostedNet(Books(Draft, amount, credited).entries, q, x) == 0
  {
    BookingEffect(amount, credited, x);
    OneEntry(Books(Posted, amount, credited).entries[0], q, x);
    OneEntry(Books(Draft, amount, credited).entries[0], q, x);
  }

  lemma OneEntry(e: Entry, q: Query, x: nat)
    ensures PostedNet([e], q, x) == if Matches(q, e) then Effect(e.lines, x) else 0
  {
    NetAfterAppend([], [e], q, x);
    assert [] + [e] == [e];
  }

  /** After posting and reversing a booking on the same day, cash reports the opposite of it. */
  lemma ReversalOverstates(amount: int) returns (cmds: seq<Command>)
    requires amount > 0
    ensures PostedNet(Run(EMPTY, cmds).entries, PostedUpTo(5), 0) == 0
    ensures PostedNet(Run(EMPTY, cmds + [Post(0)]).entries, PostedUpTo(5), 0) == -amount
    ensures PostedNet(Run(EMPTY, cmds + [Post(0)] + [Reverse(0, 5)]).entries, PostedUpTo(5), 0) == amount
  {
    cmds := KeepBooks(amount, 2);
    BooksNet(amount, 2, PostedUpTo(5), 0);
    BookingEffect(amount, 2, 0);
    var l := Books(Posted, amount, 2);
    RunPush(cmds + [Post(0)], Reverse(0, 5));
    NetAfterReverse(l, 0, 5, PostedUpTo(5), 0);
  }

  /* ---------- closing the books ---------- */

  lemma CanClose(amount: int, credited: nat)
    requires amount > 0 && credited in {1, 2}
    ensures ClosePeriod(Books(Posted, amount, credited), 0).Ok?
    ensures FindSurplus(Books(Posted, amount, credited).accounts) == Some(RETAINED)
  {
    var l := Books(Posted, amount, credited);
    var c := l.accounts;
    assert c[1] == RETAINED;
    var found := FindSurplus(c);
    assert found.Some? && found.value.code == SURPLUS_CODE;
    assert l.entries[..0] == [];
    assert Where(l.entries[..0], IsDraftWithin(1, 30)) == [];
    assert DraftCount(l, l.periods[0]) == 0;
    CloseNeverUnbalanced(l, 0);
  }

  lemma BooksIncome(amount: int, credited: nat)
    requires amount > 0 && credited in {1, 2}
    ensures ClosedIncome(Books(Posted, amount, credited), 0) == if credited == 2 then amount else 0
  {
    var l := Books(Posted, amount, credited);
    var h := ClosedPart(l, Dates(l, 0));
    ClosedIncomeMeaning(l, 0, h);
    forall x: nat
      ensures PostedNet(l.entries, Dates(l, 0), x) == Moved(amount, credited, x)
    {
      BooksNet(amount, credited, Dates(l, 0), x);
    }
    TotalAt(l.accounts, 2, h);
  }

  lemma BooksConsistent(amount: int, credited: nat)
    requires amount > 0 && credited in {1, 2}
    ensures Consistent(Books(Posted, amount, credited))
  {
    var cmds := KeepBooks(amount, credited);
    RunKeeps(EMPTY, cmds + [Post(0)]);
  }

  /** What a close of the books leaves, with the given opening link. */
  ghost predicate ClosesWith(l: Ledger, opening: Option<nat>) {
    ClosePeriod(l, 0).Ok? && ClosePeriod(l, 0).value.periods == [DAYS.(status := Closed, opening := opening)]
  }

  lemma RunClose(cmds: seq<Command>, l: Ledger)
    requires Run(EMPTY, cmds) == l && ClosePeriod(l, 0).Ok?
    ensures Run(EMPTY, cmds + [Close(0)]) == ClosePeriod(l, 0).value
  {
    StepClose(l, 0);
    RunPush(cmds, Close(0));
  }

  lemma ProfitableClose(amount: int)
    requires amount > 0
    ensures PnL(Books(Posted, amount, 2), 0, Books(Posted, amount, 2).entries) == amount
    ensures ClosesWith(Books(Posted, amount, 2), None)
  {
    BooksConsistent(amount, 2);
    CanClose(amount, 2);
    BooksIncome(amount, 2);
    OpeningNeedsBreakEven(Books(Posted, amount, 2), 0);
  }

  /** A period with a profit is closed, and no opening entry is recorded. */
  lemma ProfitableCloseRecordsNothing(amount: int) returns (cmds: seq<Command>)
    requires amount > 0
    ensures var l := Run(EMPTY, cmds); GetProfitAndLoss(l.accounts, l.entries, 1, 30).netIncome == amount
    ensures Run(EMPTY, cmds + [Close(0)]).periods == [DAYS.(status := Closed)]
  {
    cmds := KeepBooks(amount, 2);
    cmds := cmds + [Post(0)];
    ProfitableClose(amount);
    RunClose(cmds, Books(Posted, amount, 2));
  }

  lemma CashCarries(amount: int)
    requires amount > 0
    ensures var l := Books(Posted, amount, 1);
      CarriesForward(l.accounts, PeriodTotals(l, l.periods[0]))
  {
    var l := Books(Posted, amount, 1);
    NetOfGroup(SelectLines(l.entries, Dates(l, 0)), 0);
    BooksNet(amount, 1, Dates(l, 0), 0);
    assert SheetPart(PeriodTotals(l, l.periods[0]))(l.accounts[0]) != 0;
  }

  /** Without income there is no closing entry, so the opening entry is entry 1. */
  lemma OnlyOpeningAdded(amount: int)
    requires amount > 0
    ensures var l := Books(Posted, amount, 1);
      ClosingEntryLines(l.accounts, PeriodTotals(l, l.periods[0]), 1) == []
  {
    var l := Books(Posted, amount, 1);
    var c, m := l.accounts, PeriodTotals(l, l.periods[0]);
    BooksIncome(amount, 1);
    NetOfGroup(SelectLines(l.entries, Dates(l, 0)), 2);
    BooksNet(amount, 1, Dates(l, 0), 2);
    assert NetOf(m, 2) == 0;
    assert c[..3] == c && c[..3][..2] == c[..2] && c[..2][..1] == c[..1] && c[..1][..0] == [];
    assert ClosingLines(c[..1], m) == [];
    assert ClosingLines(c[..2], m) == [];
    assert ClosingLines(c[..3], m) == [];
  }

  lemma BreakEvenClose(amount: int)
    requires amount > 0
    ensures ClosesWith(Books(Posted, amount, 1), Some(1))
  {
    BooksConsistent(amount, 1);
    CanClose(amount, 1);
    BooksIncome(amount, 1);
    CashCarries(amount);
    OpeningNeedsBreakEven(Books(Posted, amount, 1), 0);
    OnlyOpeningAdded(amount);
  }

  lemma BreakEvenDoubles(amount: int)
    requires amount > 0 && ClosesWith(Books(Posted, amount, 1), Some(1))
    ensures PostedNet(ClosePeriod(Books(Posted, amount, 1), 0).value.entries, PostedUpTo(31), 0) == -2 * amount
  {
    BooksConsistent(amount, 1);
    CanClose(amount, 1);
    BooksNet(amount, 1, PostedUpTo(31), 0);
    BooksNet(amount, 1, PostedWithin(1, 30), 0);
    OpeningRepeatsMovements(Books(Posted, amount, 1), 0, 0, 31);
  }

  /** A break-even period: the opening entry is recorded, and cash reports the amount twice. */
  lemma BreakEvenCloseDoubles(amount: int) returns (cmds: seq<Command>)
    requires amount > 0
    ensures Run(EMPTY, cmds + [Close(0)]).periods == [DAYS.(status := Closed, opening := Some(1))]
    ensures PostedNet(Run(EMPTY, cmds).entries, PostedUpTo(31), 0) == -amount
    ensures PostedNet(Run(EMPTY, cmds + [Close(0)]).entries, PostedUpTo(31), 0) == -2 * amount
  {
    cmds := KeepBooks(amount, 1);
    cmds := cmds + [Post(0)];
    BooksNet(amount, 1, PostedUpTo(31), 0);
    BreakEvenClose(amount);
    BreakEvenDoubles(amount);
    RunClose(cmds, Books(Posted, amount, 1));
  }

  /* ---------- a closed period moves ---------- */

  /** The close has taken everything off sales. */
  lemma SalesClosed(amount: int)
    requires amount > 0
    ensures ClosePeriod(Books(Posted, amount, 2), 0).Ok?
    ensures ClosePeriod(Books(Posted, amount, 2), 0).value.accounts == [CASH, RETAINED, SALES]
    ensures PostedNet(ClosePeriod(Books(Posted, amount, 2), 0).value.entries, PostedWithin(1, 30), 2) == 0
  {
    BooksConsistent(amount, 2);
    CanClose(amount, 2);
    CloseZeroesIncome(Books(Posted, amount, 2), 0, 2);
  }

  lemma BookingCharted(amount: int)
    ensures LinesCharted([CASH, RETAINED, SALES], Booking(amount, 2))
  {
    var c := [CASH, RETAINED, SALES];
    assert c[0].id == 0 && c[2].id == 2;
  }

  lemma RunTwo(cmds: seq<Command>, one: Command, two: Command)
    ensures Run(EMPTY, cmds + [one] + [two]) == Step(Step(Run(EMPTY, cmds), one), two)
  {
    RunPush(cmds, one);
    RunPush(cmds + [one], two);
  }

  /** After a profitable close, a booking entered without a period and posted on day 5 moves
      sales inside the closed dates. */
  lemma ClosedDatesMove(amount: int, more: int) returns (cmds: seq<Command>, id: nat)
    requires amount > 0 && more > 0
    ensures |Run(EMPTY, cmds).periods| == 1 && Run(EMPTY, cmds).periods[0].status == Closed
    ensures PostedNet(Run(EMPTY, cmds).entries, PostedWithin(1, 30), 2) == 0
    ensures PostedNet(Run(EMPTY, cmds + [NewEntry(5, None, Booking(more, 2))] + [Post(id)]).entries,
            PostedWithin(1, 30), 2) == more
  {
    var books := KeepBooks(amount, 2);
    ProfitableClose(amount);
    SalesClosed(amount);
    RunClose(books + [Post(0)], Books(Posted, amount, 2));
    cmds := books + [Post(0)] + [Close(0)];
    var l := ClosePeriod(Books(Posted, amount, 2), 0).value;
    id := |l.entries|;
    MoveSales(cmds, l, more);
  }

  lemma MoveSales(cmds: seq<Command>, l: Ledger, more: int)
    requires Run(EMPTY, cmds) == l && l.accounts == [CASH, RETAINED, SALES] && more > 0
    requires PostedNet(l.entries, PostedWithin(1, 30), 2) == 0
    ensures PostedNet(Run(EMPTY, cmds + [NewEntry(5, None, Booking(more, 2))] + [Post(|l.entries|)]).entries,
                      PostedWithin(1, 30), 2) == more
  {
    BookingBalances(more, 2);
    BookingCharted(more);
    BookingEffect(more, 2, 2);
    LatePostingMoves(l, 5, Booking(more, 2), PostedWithin(1, 30), 2);
    RunTwo(cmds, NewEntry(5, None, Booking(more, 2)), Post(|l.entries|));
  }
}
