/**
 What every command does to every posted balance over every range of dates.  A closed period's
 dates are not frozen: this is the exact account of what still moves them.
 */
module Shifts {
  import opened Basics
  import opened Chart
  import opened Journal
  import opened Reports
  import opened Closing
  import opened Ledgers
  import opened CloseTheorems
  import opened Reversals

  function AccountOf(c: seq<Account>, a: nat): (r: Option<Account>)
    ensures r.Some? ==> r.value in c && r.value.id == a
    ensures r.None? ==> !HasId(c, a)
  {
    var k := IndexOfId(c, a);
    if k < |c| then Some(c[k]) else None
  }

  /** What the closing entry takes from account a or, into retained surplus, brings to it. */
  function ClosingPart(l: Ledger, id: nat, a: nat): int
    requires id < |l.periods| && FindSurplus(l.accounts).Some?
  {
    var account := AccountOf(l.accounts, a);
    (if a == Surplus(l) then ClosedIncome(l, id) else 0) -
    (if account.Some? && IsIncome(account.value) then PostedNet(l.entries, Dates(l, id), a) else 0)
  }

  /** What the opening entry repeats on account a. */
  function OpeningPart(l: Ledger, id: nat, a: nat): int
    requires id < |l.periods|
  {
    var account := AccountOf(l.accounts, a);
    if account.Some? && IsSheet(account.value) then PostedNet(l.entries, Dates(l, id), a) else 0
  }

  /** The opening entry has lines and they balance. */
  predicate Opens(l: Ledger, id: nat)
    requires id < |l.periods|
  {
    var ls := OpeningLines(l.accounts, PeriodTotals(l, l.periods[id]));
    ls != [] && IsBalanced(ls)
  }

  function If(covered: bool, amount: int): int {
    if covered then amount else 0
  }

  /** How far the command moves account a over the dates of q. */
  function Shift(l: Ledger, cmd: Command, q: Query, a: nat): int {
    if Apply(l, cmd).Err? then 0
    else
      match cmd
      case Post(id) => If(Covers(q, l.entries[id].date), Effect(l.entries[id].lines, a))
      case Reverse(id, today) =>
        -If(Covers(q, l.entries[id].date), Effect(l.entries[id].lines, a)) -
        If(Covers(q, today), Effect(l.entries[id].lines, a))
      case Close(id) =>
        If(Covers(q, l.periods[id].end), ClosingPart(l, id, a)) +
        If(Covers(q, l.periods[id].end + 1) && Opens(l, id), OpeningPart(l, id, a))
      case OnChart(_) => 0
      case NewPeriod(_, _) => 0
      case NewEntry(_, _, _) => 0
  }

  lemma AbsentAccount(c: seq<Account>, a: nat)
    requires AccountOf(c, a).None?
    ensures forall i :: 0 <= i < |c| ==> c[i].id != a
  {
  }

  lemma ClosingPartMeaning(l: Ledger, id: nat, a: nat)
    requires DistinctIds(l.accounts) && id < |l.periods| && FindSurplus(l.accounts).Some?
    ensures Effect(ClosingEntryLines(l.accounts, PeriodTotals(l, l.periods[id]), Surplus(l)), a) ==
            ClosingPart(l, id, a)
  {
    var c, m := l.accounts, PeriodTotals(l, l.periods[id]);
    if AccountOf(c, a).Some? {
      ClosingEntryEffect(c, m, Surplus(l), IndexOfId(c, a));
      NetOfGroup(SelectLines(l.entries, Dates(l, id)), a);
    } else {
      AbsentAccount(c, a);
      NoEntryEffect(c, m, Surplus(l), a);
    }
  }

  lemma NoEntryEffect(c: seq<Account>, m: map<nat, Totals>, surplus: nat, a: nat)
    requires forall i :: 0 <= i < |c| ==> c[i].id != a
    ensures Effect(ClosingEntryLines(c, m, surplus), a) == if a == surplus then NetIncome(c, m) else 0
  {
    ClosingSplit(c, m, surplus, a);
    NoClosingEffect(c, m, a);
    SurplusEffect(surplus, NetIncome(c, m), a);
  }

  lemma OpeningPartMeaning(l: Ledger, id: nat, a: nat)
    requires DistinctIds(l.accounts) && id < |l.periods|
    ensures Effect(OpeningLines(l.accounts, PeriodTotals(l, l.periods[id])), a) == OpeningPart(l, id, a)
  {
    var c, m := l.accounts, PeriodTotals(l, l.periods[id]);
    if AccountOf(c, a).Some? {
      OpeningEffect(c, m, IndexOfId(c, a));
      NetOfGroup(SelectLines(l.entries, Dates(l, id)), a);
    } else {
      AbsentAccount(c, a);
      NoOpeningEffect(c, m, a);
    }
  }

  lemma CloseShifts(l: Ledger, id: nat, q: Query, a: nat)
    requires DistinctIds(l.accounts) && ClosePeriod(l, id).Ok? && q.status == Some(Posted)
    ensures PostedNet(ClosePeriod(l, id).value.entries, q, a) ==
            PostedNet(l.entries, q, a) +
            If(Covers(q, l.periods[id].end), ClosingPart(l, id, a)) +
            If(Covers(q, l.periods[id].end + 1) && Opens(l, id), OpeningPart(l, id, a))
  {
    var c, m := l.accounts, PeriodTotals(l, l.periods[id]);
    NetAfterClose(l, id, ClosingEntryLines(c, m, Surplus(l)), OpeningLines(c, m), q, a);
    ClosingPartMeaning(l, id, a);
    OpeningPartMeaning(l, id, a);
  }

  lemma CreateShifts(es: seq<Entry>, e: Entry, q: Query, a: nat)
    requires e.status == Draft && q.status == Some(Posted)
    ensures PostedNet(es + [e], q, a) == PostedNet(es, q, a)
  {
    NetAfterAppend(es, [e], q, a);
  }

  ghost predicate Shifted(l: Ledger, cmd: Command, q: Query, a: nat) {
    PostedNet(Step(l, cmd).entries, q, a) == PostedNet(l.entries, q, a) + Shift(l, cmd, q, a)
  }

  lemma FailureShifts(l: Ledger, cmd: Command, q: Query, a: nat)
    requires Apply(l, cmd).Err?
    ensures Shifted(l, cmd, q, a)
  {
  }

  lemma PostShifts(l: Ledger, id: nat, q: Query, a: nat)
    requires PostEntry(l, id).Ok? && q.status == Some(Posted)
    ensures Shifted(l, Post(id), q, a)
  {
    NetAfterPost(l, id, q, a);
  }

  lemma ReverseShifts(l: Ledger, id: nat, today: int, q: Query, a: nat)
    requires ReverseEntry(l, id, today).Ok? && q.status == Some(Posted)
    ensures Shifted(l, Reverse(id, today), q, a)
  {
    NetAfterReverse(l, id, today, q, a);
  }

  lemma CloseStepShifts(l: Ledger, id: nat, q: Query, a: nat)
    requires DistinctIds(l.accounts) && ClosePeriod(l, id).Ok? && q.status == Some(Posted)
    ensures Shifted(l, Close(id), q, a)
  {
    CloseShifts(l, id, q, a);
    StepClose(l, id);
  }

  lemma EntryShifts(l: Ledger, date: int, period: Option<nat>, ls: seq<Line>, q: Query, a: nat)
    requires CreateEntry(l, date, period, ls).Ok? && q.status == Some(Posted)
    ensures Shifted(l, NewEntry(date, period, ls), q, a)
  {
    CreateShifts(l.entries, Entry(date, Draft, period, None, None, ls), q, a);
  }

  /**
   Every command, every range of dates, every account: posting adds the entry at its date,
   reversing takes it away at its date and again today, closing books the closing entry on the
   last day and the opening entry on the day after, and nothing else moves a posted balance.
   */
  lemma StepShifts(l: Ledger, cmd: Command, q: Query, a: nat)
    requires DistinctIds(l.accounts) && q.status == Some(Posted)
    ensures PostedNet(Step(l, cmd).entries, q, a) == PostedNet(l.entries, q, a) + Shift(l, cmd, q, a)
  {
    if Apply(l, cmd).Err? {
      FailureShifts(l, cmd, q, a);
    } else {
      match cmd
      case Post(id) => PostShifts(l, id, q, a);
      case Reverse(id, today) => ReverseShifts(l, id, today, q, a);
      case Close(id) => CloseStepShifts(l, id, q, a);
      case NewEntry(date, period, lines) => EntryShifts(l, date, period, lines, q, a);
      case OnChart(_) =>
      case NewPeriod(_, _) =>
    }
  }

  /** The shifts of a whole run. */
  function RunShift(l: Ledger, cmds: seq<Command>, q: Query, a: nat): int {
    if cmds == [] then 0
    else
      var before := cmds[..|cmds| - 1];
      RunShift(l, before, q, a) + Shift(Run(l, before), cmds[|cmds| - 1], q, a)
  }

  lemma {:induction false} RunShifts(l: Ledger, cmds: seq<Command>, q: Query, a: nat)
    requires Consistent(l) && q.status == Some(Posted)
    ensures PostedNet(Run(l, cmds).entries, q, a) == PostedNet(l.entries, q, a) + RunShift(l, cmds, q, a)
  {
    if cmds != [] {
      var before := cmds[..|cmds| - 1];
      RunShifts(l, before, q, a);
      RunKeeps(l, before);
      StepShifts(Run(l, before), cmds[|cmds| - 1], q, a);
    }
  }

  /** A command leaves the posted balances of a closed period's dates alone if and only if it
      shifts none of them: it fails, drafts, or its dates or effects lie elsewhere. */
  lemma ClosedDatesStayIff(l: Ledger, p: nat, cmd: Command)
    requires Consistent(l) && p < |l.periods|
    ensures (forall a :: PostedNet(Step(l, cmd).entries, Dates(l, p), a) == PostedNet(l.entries, Dates(l, p), a)) <==>
            (forall a :: Shift(l, cmd, Dates(l, p), a) == 0)
  {
    forall a
      ensures PostedNet(Step(l, cmd).entries, Dates(l, p), a) ==
              PostedNet(l.entries, Dates(l, p), a) + Shift(l, cmd, Dates(l, p), a)
    {
      StepShifts(l, cmd, Dates(l, p), a);
    }
    if forall a :: PostedNet(Step(l, cmd).entries, Dates(l, p), a) == PostedNet(l.entries, Dates(l, p), a) {
      forall a
        ensures Shift(l, cmd, Dates(l, p), a) == 0
      {
        assert PostedNet(Step(l, cmd).entries, Dates(l, p), a) == PostedNet(l.entries, Dates(l, p), a);
      }
    }
  }

  lemma Drafting(l: Ledger, date: int, ls: seq<Line>)
    requires ValidLines(ls) && LinesCharted(l.accounts, ls)
    ensures Step(l, NewEntry(date, None, ls)) == l.(entries := l.entries + [Entry(date, Draft, None, None, None, ls)])
  {
  }

  lemma PostingLast(l: Ledger, es: seq<Entry>, e: Entry, q: Query, a: nat)
    requires l.entries == es + [e] && e.status == Draft && IsBalanced(e.lines)
    requires q.status == Some(Posted) && Covers(q, e.date)
    ensures PostedNet(Step(l, Post(|es|)).entries, q, a) == PostedNet(es, q, a) + Effect(e.lines, a)
  {
    assert l.entries[|es|] == e;
    PostShifts(l, |es|, q, a);
    CreateShifts(es, e, q, a);
  }

  /** In every ledger, whatever is closed, a balanced booking on known accounts can be entered
      without a period and posted at any date, and moves the posted balances there. */
  lemma LatePostingMoves(l: Ledger, date: int, ls: seq<Line>, q: Query, a: nat)
    requires ValidLines(ls) && LinesCharted(l.accounts, ls) && IsBalanced(ls)
    requires q.status == Some(Posted) && Covers(q, date)
    ensures var drafted := Step(l, NewEntry(date, None, ls));
      PostedNet(Step(drafted, Post(|l.entries|)).entries, q, a) == PostedNet(l.entries, q, a) + Effect(ls, a)
  {
    Drafting(l, date, ls);
    PostingLast(Step(l, NewEntry(date, None, ls)), l.entries, Entry(date, Draft, None, None, None, ls), q, a);
  }
}
