/**
 The ledger as a state machine: its commands as the handlers run them, and what every run
 keeps.  A command that fails leaves the store as it was, because its unit of work is
 dropped before it is saved.
 */
module Ledgers {
  import opened Basics
  import opened Sums
  import opened Chart
  import opened Journal
  import opened Reports
  import opened Closing

  datatype PeriodStatus = Open | Closed | Locked

  datatype Period = Period(start: int, end: int, status: PeriodStatus, opening: Option<nat>)

  datatype Ledger = Ledger(accounts: seq<Account>, periods: seq<Period>, entries: seq<Entry>)

  const EMPTY := Ledger([], [], [])

  /* ---------- the commands ---------- */

  predicate ValidLines(ls: seq<Line>) {
    ls != [] && AllOneSided(ls)
  }

  function CreateEntry(l: Ledger, date: int, period: Option<nat>, ls: seq<Line>): Result<Ledger> {
    if !ValidLines(ls) then Err(Invalid)
    else if period.Some? && period.value >= |l.periods| then Err(NotFound)
    else if period.Some? && l.periods[period.value].status != Open then Err(PeriodNotOpen)
    else if !LinesCharted(l.accounts, ls) then Err(UnknownAccount)
    else Ok(l.(entries := l.entries + [Entry(date, Draft, period, None, None, ls)]))
  }

  function PostEntry(l: Ledger, id: nat): Result<Ledger> {
    if id >= |l.entries| then Err(NotFound)
    else if l.entries[id].status != Draft then Err(NotDraft)
    else if !IsBalanced(l.entries[id].lines) then Err(Unbalanced)
    else Ok(l.(entries := l.entries[id := l.entries[id].(status := Posted)]))
  }

  function ReverseEntry(l: Ledger, id: nat, today: int): Result<Ledger> {
    if id >= |l.entries| then Err(NotFound)
    else if l.entries[id].status != Posted then Err(NotPosted)
    else if l.entries[id].reversedBy.Some? then Err(DuplicateReversal)
    else
      var e := l.entries[id];
      var marked := e.(status := Reversed, reversedBy := Some(|l.entries|));
      var reversal := Entry(today, Posted, None, None, Some(id), Swapped(e.lines));
      Ok(l.(entries := l.entries[id := marked] + [reversal]))
  }

  function CreatePeriod(l: Ledger, start: int, end: int): Result<Ledger> {
    if exists p :: 0 <= p < |l.periods| && l.periods[p].start == start && l.periods[p].end == end
    then Err(DuplicatePeriod)
    else Ok(l.(periods := l.periods + [Period(start, end, Open, None)]))
  }

  function IsDraftWithin(start: int, end: int): Entry -> bool {
    (e: Entry) => Matches(Query(Some(start), Some(end), Some(Draft)), e)
  }

  function DraftCount(l: Ledger, p: Period): nat {
    |Where(l.entries, IsDraftWithin(p.start, p.end))|
  }

  /** Posted totals by account over the period's dates. */
  function PeriodTotals(l: Ledger, p: Period): map<nat, Totals> {
    GroupTotals(SelectLines(l.entries, PostedWithin(p.start, p.end)))
  }

  function ClosePeriod(l: Ledger, id: nat): Result<Ledger> {
    if id >= |l.periods| then Err(NotFound)
    else if l.periods[id].status != Open then Err(PeriodNotOpen)
    else
      var p := l.periods[id];
      var drafts := DraftCount(l, p);
      var surplus := FindSurplus(l.accounts);
      if drafts > 0 then Err(DraftsRemain(drafts))
      else if surplus.None? then Err(NoSurplusAccount)
      else
        var m := PeriodTotals(l, p);
        var closing := ClosingEntryLines(l.accounts, m, surplus.value.id);
        if closing != [] && !IsBalanced(closing) then Err(Unbalanced)
        else Ok(CloseWith(l, id, closing, OpeningLines(l.accounts, m)))
  }

  /** The store after a close that built these two lists of lines. */
  function CloseWith(l: Ledger, id: nat, closing: seq<Line>, opening: seq<Line>): Ledger
    requires id < |l.periods|
  {
    var p := l.periods[id];
    var closed := l.entries + ClosingEntry(p.end, id, closing);
    var next := OpeningEntry(p.end, opening);
    var link := if next == [] then p.opening else Some(|closed|);
    l.(entries := closed + next, periods := l.periods[id := p.(status := Closed, opening := link)])
  }

  /** The closing entry, if it has any lines. */
  function ClosingEntry(end: int, id: nat, ls: seq<Line>): seq<Entry> {
    if ls == [] then [] else [Entry(end, Posted, Some(id), None, None, ls)]
  }

  /** The opening entry, dated the next day, if it has lines and they balance. */
  function OpeningEntry(end: int, ls: seq<Line>): seq<Entry> {
    if ls != [] && IsBalanced(ls) then [Entry(end + 1, Posted, None, None, None, ls)] else []
  }

  datatype Command =
    | OnChart(chart: ChartCommand)
    | NewPeriod(start: int, end: int)
    | NewEntry(date: int, period: Option<nat>, lines: seq<Line>)
    | Post(id: nat)
    | Reverse(id: nat, today: int)
    | Close(id: nat)

  function Apply(l: Ledger, cmd: Command): Result<Ledger> {
    match cmd
    case OnChart(c) =>
      var r := ApplyToChart(l.accounts, c);
      if r.Err? then Err(r.error) else Ok(l.(accounts := r.value))
    case NewPeriod(start, end) => CreatePeriod(l, start, end)
    case NewEntry(date, period, lines) => CreateEntry(l, date, period, lines)
    case Post(id) => PostEntry(l, id)
    case Reverse(id, today) => ReverseEntry(l, id, today)
    case Close(id) => ClosePeriod(l, id)
  }

  function Step(l: Ledger, cmd: Command): Ledger {
    var r := Apply(l, cmd);
    if r.Ok? then r.value else l
  }

  function Run(l: Ledger, cmds: seq<Command>): Ledger {
    if cmds == [] then l else Step(Run(l, cmds[..|cmds| - 1]), cmds[|cmds| - 1])
  }

  /* ---------- the invariant ---------- */

  /** Balance, line shape and the reversal links of entry i. */
  ghost predicate EntryOk(es: seq<Entry>, i: nat)
    requires i < |es|
  {
    var e := es[i];
    && AllOneSided(e.lines)
    && (e.status != Draft ==> IsBalanced(e.lines))
    && (e.status == Draft ==> e.reversalOf.None?)
    && (e.status == Reversed <==> e.reversedBy.Some?)
    && (e.reversedBy.Some? ==>
        && i < e.reversedBy.value < |es|
        && es[e.reversedBy.value].reversalOf == Some(i)
        && es[e.reversedBy.value].lines == Swapped(e.lines))
    && (e.reversalOf.Some? ==>
        && e.reversalOf.value < i
        && es[e.reversalOf.value].reversedBy == Some(i))
  }

  ghost predicate EntriesOk(es: seq<Entry>) {
    forall i: nat {:trigger EntryOk(es, i)} :: i < |es| ==> EntryOk(es, i)
  }

  ghost predicate PeriodsOk(l: Ledger) {
    && (forall p :: 0 <= p < |l.periods| ==>
          && l.periods[p].status != Locked
          && (l.periods[p].opening.Some? ==> l.periods[p].status == Closed && l.periods[p].opening.value < |l.entries|))
    && (forall i :: 0 <= i < |l.entries| && l.entries[i].period.Some? ==> l.entries[i].period.value < |l.periods|)
  }

  ghost predicate Consistent(l: Ledger) {
    && WellFormed(l.accounts)
    && Charted(l.accounts, l.entries)
    && EntriesOk(l.entries)
    && PeriodsOk(l)
  }

  lemma PostedEntriesBalance(es: seq<Entry>)
    requires EntriesOk(es)
    ensures PostedBalanced(es)
  {
    forall i: nat | i < |es| && es[i].status == Posted
      ensures IsBalanced(es[i].lines)
    {
      assert EntryOk(es, i);
    }
  }

  lemma AppendKeeps(es: seq<Entry>, e: Entry)
    requires EntriesOk(es)
    requires AllOneSided(e.lines) && e.status != Reversed && e.reversedBy.None? && e.reversalOf.None?
    requires e.status == Posted ==> IsBalanced(e.lines)
    ensures EntriesOk(es + [e])
  {
    forall i: nat | i < |es + [e]|
      ensures EntryOk(es + [e], i)
    {
      if i < |es| {
        assert EntryOk(es, i);
      }
    }
  }

  lemma PostKeeps(es: seq<Entry>, id: nat)
    requires EntriesOk(es) && id < |es| && es[id].status == Draft && IsBalanced(es[id].lines)
    ensures EntriesOk(es[id := es[id].(status := Posted)])
  {
    var es' := es[id := es[id].(status := Posted)];
    forall i: nat | i < |es'|
      ensures EntryOk(es', i)
    {
      assert EntryOk(es, i) && EntryOk(es, id);
    }
  }

  lemma ReverseKeeps(l: Ledger, id: nat, today: int)
    requires EntriesOk(l.entries) && ReverseEntry(l, id, today).Ok?
    ensures EntriesOk(ReverseEntry(l, id, today).value.entries)
  {
    var es, es' := l.entries, ReverseEntry(l, id, today).value.entries;
    assert EntryOk(es, id);
    SwappedTotals(es[id].lines);
    forall i: nat | i < |es'|
      ensures EntryOk(es', i)
    {
      if i < |es| {
        assert EntryOk(es, i);
      }
    }
  }

  lemma ChartKeeps(l: Ledger, cmd: ChartCommand)
    requires Consistent(l) && ApplyToChart(l.accounts, cmd).Ok?
    ensures Consistent(l.(accounts := ApplyToChart(l.accounts, cmd).value))
  {
    ChartCommandKeeps(l.accounts, cmd);
    var d := ApplyToChart(l.accounts, cmd).value;
    forall i, j | 0 <= i < |l.entries| && 0 <= j < |l.entries[i].lines|
      ensures HasId(d, l.entries[i].lines[j].account)
    {
      ExtendsKeepsIds(l.accounts, d, l.entries[i].lines[j].account);
    }
  }

  lemma ChartedAppend(c: seq<Account>, es: seq<Entry>, e: Entry)
    requires Charted(c, es) && LinesCharted(c, e.lines)
    ensures Charted(c, es + [e])
  {
  }

  /** Appending a posted entry without links keeps the entries and the chart in order. */
  lemma AddPosted(c: seq<Account>, es: seq<Entry>, e: Entry)
    requires EntriesOk(es) && Charted(c, es)
    requires AllOneSided(e.lines) && LinesCharted(c, e.lines) && IsBalanced(e.lines)
    requires e.status == Posted && e.reversedBy.None? && e.reversalOf.None?
    ensures EntriesOk(es + [e]) && Charted(c, es + [e])
  {
    AppendKeeps(es, e);
    ChartedAppend(c, es, e);
  }

  /** Both entries built by a close are balanced, one-sided and on accounts of the chart. */
  lemma CloseKeepsEntries(l: Ledger, id: nat)
    requires EntriesOk(l.entries) && Charted(l.accounts, l.entries) && ClosePeriod(l, id).Ok?
    ensures EntriesOk(ClosePeriod(l, id).value.entries)
    ensures Charted(l.accounts, ClosePeriod(l, id).value.entries)
  {
    var c, p := l.accounts, l.periods[id];
    var m := PeriodTotals(l, p);
    var surplus := FindSurplus(c).value;
    var closing, opening := ClosingEntryLines(c, m, surplus.id), OpeningLines(c, m);
    ClosingEntryBalances(c, m, surplus.id);
    ClosingLinesCharted(c, c, m);
    OpeningLinesSum(c, m);
    OpeningLinesCharted(c, c, m);
    var closed := l.entries + ClosingEntry(p.end, id, closing);
    if closing != [] {
      SurplusCharted(c, surplus, NetIncome(c, m));
      AddPosted(c, l.entries, ClosingEntry(p.end, id, closing)[0]);
    } else {
      assert closed == l.entries;
    }
    if OpeningEntry(p.end, opening) != [] {
      AddPosted(c, closed, OpeningEntry(p.end, opening)[0]);
    } else {
      assert closed + OpeningEntry(p.end, opening) == closed;
    }
  }

  lemma SurplusCharted(c: seq<Account>, surplus: Account, net: int)
    requires surplus in c
    ensures LinesCharted(c, SurplusLine(surplus.id, net))
  {
    var i :| 0 <= i < |c| && c[i] == surplus;
    assert HasId(c, c[i].id);
  }

  lemma CloseKeepsPeriods(l: Ledger, id: nat, closing: seq<Line>, opening: seq<Line>)
    requires PeriodsOk(l) && id < |l.periods|
    ensures PeriodsOk(CloseWith(l, id, closing, opening))
  {
  }

  lemma StepKeeps(l: Ledger, cmd: Command)
    requires Consistent(l)
    ensures Consistent(Step(l, cmd))
  {
    if Apply(l, cmd).Ok? {
      match cmd
      case OnChart(c) => ChartKeeps(l, c);
      case NewPeriod(start, end) =>
      case NewEntry(date, period, lines) => AppendKeeps(l.entries, Entry(date, Draft, period, None, None, lines));
      case Post(id) => PostKeeps(l.entries, id);
      case Reverse(id, today) => ReverseKeeps(l, id, today);
      case Close(id) =>
        CloseKeepsEntries(l, id);
        var m := PeriodTotals(l, l.periods[id]);
        CloseKeepsPeriods(l, id, ClosingEntryLines(l.accounts, m, FindSurplus(l.accounts).value.id),
                          OpeningLines(l.accounts, m));
    }
  }

  lemma {:induction false} RunKeeps(l: Ledger, cmds: seq<Command>)
    requires Consistent(l)
    ensures Consistent(Run(l, cmds))
  {
    if cmds != [] {
      RunKeeps(l, cmds[..|cmds| - 1]);
      StepKeeps(Run(l, cmds[..|cmds| - 1]), cmds[|cmds| - 1]);
    }
  }

  /** After any run from the empty ledger: every stored line has one positive side, and every
      posted or reversed entry is balanced with a positive total. */
  lemma EveryRunBalances(cmds: seq<Command>, i: nat)
    requires i < |Run(EMPTY, cmds).entries|
    ensures AllOneSided(Run(EMPTY, cmds).entries[i].lines)
    ensures Run(EMPTY, cmds).entries[i].status != Draft ==> IsBalanced(Run(EMPTY, cmds).entries[i].lines)
  {
    RunKeeps(EMPTY, cmds);
    assert EntryOk(Run(EMPTY, cmds).entries, i);
  }

  /** The reports agree in every reachable ledger, for every date. */
  lemma EveryRunReports(cmds: seq<Command>, from: int, asOf: int)
    ensures var l := Run(EMPTY, cmds);
      var tb := GetTrialBalance(l.accounts, l.entries, asOf);
      tb.totalDebits == tb.totalCredits == Total(l.entries, Share(PostedUpTo(asOf), All(Debit)))
    ensures var l := Run(EMPTY, cmds);
      var s := GetBalanceSheet(l.accounts, l.entries, asOf);
      (forall i :: 0 <= i < |l.entries| ==> from <= l.entries[i].date) ==>
        s.totalAssets + s.totalLiabilities + s.totalEquity ==
        GetProfitAndLoss(l.accounts, l.entries, from, asOf).netIncome
  {
    var l := Run(EMPTY, cmds);
    RunKeeps(EMPTY, cmds);
    PostedEntriesBalance(l.entries);
    TrialBalanceBalances(l.accounts, l.entries, asOf);
    if forall i :: 0 <= i < |l.entries| ==> from <= l.entries[i].date {
      BalanceSheetIsNetIncome(l.accounts, l.entries, from, asOf);
    }
  }

  /** In a consistent ledger the duplicate-reversal branch cannot be reached. */
  lemma NoDuplicateReversal(l: Ledger, id: nat, today: int)
    requires Consistent(l)
    ensures ReverseEntry(l, id, today) != Err(DuplicateReversal)
    ensures ReverseEntry(l, id, today).Ok? ==>
              ReverseEntry(ReverseEntry(l, id, today).value, id, today) == Err(NotPosted)
  {
    if id < |l.entries| {
      assert EntryOk(l.entries, id);
    }
  }

  /* ---------- what never changes ---------- */

  function Rank(s: EntryStatus): nat {
    match s case Draft => 0 case Posted => 1 case Reversed => 2
  }

  /** Only the status, forwards, and the link to a reversal may change. */
  ghost predicate SameBooking(e: Entry, e': Entry) {
    && e' == e.(status := e'.status, reversedBy := e'.reversedBy)
    && Rank(e.status) <= Rank(e'.status)
    && (e.reversedBy.Some? ==> e'.reversedBy == e.reversedBy)
  }

  ghost predicate Grows(l: Ledger, l': Ledger) {
    && |l.entries| <= |l'.entries|
    && |l.periods| <= |l'.periods|
    && (forall i :: 0 <= i < |l.entries| ==> SameBooking(l.entries[i], l'.entries[i]))
  }

  /** Period p has not moved: its record and the entries that carry its id are the same. */
  ghost predicate Frozen(l: Ledger, l': Ledger, p: nat)
    requires p < |l.periods|
  {
    && Grows(l, l')
    && l'.periods[p] == l.periods[p]
    && (forall i :: |l.entries| <= i < |l'.entries| ==> l'.entries[i].period != Some(p))
  }

  lemma StepFreezes(l: Ledger, cmd: Command, p: nat)
    requires p < |l.periods|
    ensures Grows(l, Step(l, cmd))
    ensures l.periods[p].status == Closed ==> Frozen(l, Step(l, cmd), p)
  {
    match cmd
    case OnChart(c) =>
    case NewPeriod(start, end) =>
    case NewEntry(date, period, lines) =>
    case Post(id) =>
    case Reverse(id, today) =>
    case Close(id) =>
      if ClosePeriod(l, id).Ok? {
        var m := PeriodTotals(l, l.periods[id]);
        CloseFreezes(l, id, ClosingEntryLines(l.accounts, m, FindSurplus(l.accounts).value.id),
                     OpeningLines(l.accounts, m), p);
      }
  }

  lemma CloseFreezes(l: Ledger, id: nat, closing: seq<Line>, opening: seq<Line>, p: nat)
    requires p < |l.periods| && id < |l.periods| && l.periods[id].status == Open
    ensures Grows(l, CloseWith(l, id, closing, opening))
    ensures l.periods[p].status == Closed ==> Frozen(l, CloseWith(l, id, closing, opening), p)
  {
  }

  /** A closed period stays closed with the same opening entry, and no later command adds,
      removes or re-dates an entry that carries its id. */
  lemma {:induction false} ClosedPeriodsAreFrozen(l: Ledger, cmds: seq<Command>, p: nat)
    requires p < |l.periods| && l.periods[p].status == Closed
    ensures Frozen(l, Run(l, cmds), p)
  {
    if cmds != [] {
      var mid := Run(l, cmds[..|cmds| - 1]);
      ClosedPeriodsAreFrozen(l, cmds[..|cmds| - 1], p);
      StepFreezes(mid, cmds[|cmds| - 1], p);
    }
  }
}
