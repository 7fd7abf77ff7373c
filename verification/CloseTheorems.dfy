/** What closing a period does to every account, to profit and loss, and to the next period. */
module CloseTheorems {
  import opened Basics
  import opened Sums
  import opened Chart
  import opened Journal
  import opened Reports
  import opened Closing
  import opened Ledgers

  function Dates(l: Ledger, id: nat): Query
    requires id < |l.periods|
  {
    PostedWithin(l.periods[id].start, l.periods[id].end)
  }

  function ClosedIncome(l: Ledger, id: nat): int
    requires id < |l.periods|
  {
    NetIncome(l.accounts, PeriodTotals(l, l.periods[id]))
  }

  function Surplus(l: Ledger): nat
    requires FindSurplus(l.accounts).Some?
  {
    FindSurplus(l.accounts).value.id
  }

  lemma NetOfGroup(ls: seq<Line>, x: nat)
    ensures NetOf(GroupTotals(ls), x) == Effect(ls, x)
  {
    GroupIsFilterAndSum(ls, x);
    EffectSplits(ls, x);
  }

  /** What is closed is the posted net of the active Revenue and Expense accounts. */
  lemma ClosedIncomeMeaning(l: Ledger, id: nat, h: Account -> int)
    requires id < |l.periods|
    requires forall i :: 0 <= i < |l.accounts| ==>
      h(l.accounts[i]) == if IsIncome(l.accounts[i]) then PostedNet(l.entries, Dates(l, id), l.accounts[i].id) else 0
    ensures ClosedIncome(l, id) == Total(l.accounts, h)
  {
    var ls := SelectLines(l.entries, Dates(l, id));
    forall i | 0 <= i < |l.accounts|
      ensures IncomePart(GroupTotals(ls))(l.accounts[i]) == h(l.accounts[i])
    {
      NetOfGroup(ls, l.accounts[i].id);
    }
    TotalSame(l.accounts, IncomePart(GroupTotals(ls)), h);
  }

  lemma StepClose(l: Ledger, id: nat)
    requires ClosePeriod(l, id).Ok?
    ensures Step(l, Close(id)) == ClosePeriod(l, id).value
  {
    assert Apply(l, Close(id)) == ClosePeriod(l, id);
  }

  /** The posting step inside a close never raises the unbalanced-entry failure. */
  lemma CloseNeverUnbalanced(l: Ledger, id: nat)
    ensures ClosePeriod(l, id) != Err(Unbalanced)
  {
    if id < |l.periods| && FindSurplus(l.accounts).Some? {
      ClosingEntryBalances(l.accounts, PeriodTotals(l, l.periods[id]), Surplus(l));
    }
  }

  lemma {:induction false} EmptyDates(es: seq<Entry>, q: Query)
    requires q.from.Some? && q.to.Some? && q.from.value > q.to.value
    ensures SelectLines(es, q) == []
  {
    if es != [] {
      EmptyDates(es[..|es| - 1], q);
    }
  }

  lemma NetAfterAppend(es: seq<Entry>, added: seq<Entry>, q: Query, x: nat)
    requires |added| <= 1
    ensures PostedNet(es + added, q, x) ==
            PostedNet(es, q, x) + (if added != [] && Matches(q, added[0]) then Effect(added[0].lines, x) else 0)
  {
    SelectTotal(es, q, On(x, Net));
    SelectTotal(es + added, q, On(x, Net));
    TotalConcat(es, added, Share(q, On(x, Net)));
    if added != [] {
      assert added[..0] == [];
    }
  }

  predicate Covers(q: Query, date: int) {
    (q.from.Some? ==> q.from.value <= date) && (q.to.Some? ==> date <= q.to.value)
  }

  lemma ClosingShare(es: seq<Entry>, end: int, id: nat, ls: seq<Line>, q: Query, x: nat)
    requires q.status == Some(Posted)
    ensures PostedNet(es + ClosingEntry(end, id, ls), q, x) ==
            PostedNet(es, q, x) + (if Covers(q, end) then Effect(ls, x) else 0)
  {
    NetAfterAppend(es, ClosingEntry(end, id, ls), q, x);
  }

  lemma OpeningShare(es: seq<Entry>, end: int, ls: seq<Line>, q: Query, x: nat)
    requires q.status == Some(Posted)
    ensures PostedNet(es + OpeningEntry(end, ls), q, x) ==
            PostedNet(es, q, x) + (if Covers(q, end + 1) && ls != [] && IsBalanced(ls) then Effect(ls, x) else 0)
  {
    NetAfterAppend(es, OpeningEntry(end, ls), q, x);
  }

  /** The net over any dates grows by the shares of the two new entries. */
  lemma NetAfterClose(l: Ledger, id: nat, closing: seq<Line>, opening: seq<Line>, q: Query, x: nat)
    requires id < |l.periods| && q.status == Some(Posted)
    ensures PostedNet(CloseWith(l, id, closing, opening).entries, q, x) ==
              PostedNet(l.entries, q, x) +
              (if Covers(q, l.periods[id].end) then Effect(closing, x) else 0) +
              (if Covers(q, l.periods[id].end + 1) && opening != [] &&
                IsBalanced(opening) then Effect(opening, x) else 0)
  {
    var end := l.periods[id].end;
    ClosingShare(l.entries, end, id, closing, q, x);
    OpeningShare(l.entries + ClosingEntry(end, id, closing), end, opening, q, x);
  }

  /**
   The effect of a close on every account over the period's own dates: an active Revenue or
   Expense account loses its whole net, retained surplus gains the sum of those nets, and no
   other account moves.
   */
  lemma CloseMovesIncomeToSurplus(l: Ledger, id: nat, k: nat)
    requires DistinctIds(l.accounts) && ClosePeriod(l, id).Ok? && k < |l.accounts|
    ensures var a := l.accounts[k];
      var before := PostedNet(l.entries, Dates(l, id), a.id);
      PostedNet(ClosePeriod(l, id).value.entries, Dates(l, id), a.id) ==
        before - (if IsIncome(a) then before else 0) +
        (if a.id == Surplus(l) then ClosedIncome(l, id) else 0)
  {
    var p, q, c := l.periods[id], Dates(l, id), l.accounts;
    var m := PeriodTotals(l, p);
    var closing, opening := ClosingEntryLines(c, m, Surplus(l)), OpeningLines(c, m);
    NetAfterClose(l, id, closing, opening, q, c[k].id);
    ClosingEntryEffect(c, m, Surplus(l), k);
    NetOfGroup(SelectLines(l.entries, q), c[k].id);
    if p.start > p.end {
      EmptyDates(l.entries, q);
      NothingToClose(c, m);
    }
  }

  /** Every active Revenue and Expense account ends at zero, except that retained surplus,
      if it is itself one of them, keeps what was closed into it. */
  lemma CloseZeroesIncome(l: Ledger, id: nat, k: nat)
    requires DistinctIds(l.accounts) && ClosePeriod(l, id).Ok? && k < |l.accounts| && IsIncome(l.accounts[k])
    ensures PostedNet(ClosePeriod(l, id).value.entries, Dates(l, id), l.accounts[k].id) == 0 <==>
            l.accounts[k].id != Surplus(l) || ClosedIncome(l, id) == 0
  {
    CloseMovesIncomeToSurplus(l, id, k);
  }

  /* ---------- profit and loss across a close ---------- */

  function PnL(l: Ledger, id: nat, es: seq<Entry>): int
    requires id < |l.periods|
  {
    GetProfitAndLoss(l.accounts, es, l.periods[id].start, l.periods[id].end).netIncome
  }

  predicate IsResult(a: Account) {
    a.kind == Revenue || a.kind == Expense
  }

  function ResultNet(es: seq<Entry>, q: Query): Account -> int {
    (a: Account) => if IsResult(a) then PostedNet(es, q, a.id) else 0
  }

  lemma PnLMeaning(l: Ledger, id: nat, es: seq<Entry>)
    requires id < |l.periods|
    ensures PnL(l, id, es) == Total(l.accounts, ResultNet(es, Dates(l, id)))
  {
    var ls := SelectLines(es, Dates(l, id));
    NetIncomeMeaning(l.accounts, es, l.periods[id].start, l.periods[id].end);
    TotalPlus(l.accounts, NetOfKind(ls, Revenue), NetOfKind(ls, Expense), ResultNet(es, Dates(l, id)));
  }

  predicate SurplusIsResult(l: Ledger)
    requires FindSurplus(l.accounts).Some?
  {
    IsResult(FindSurplus(l.accounts).value)
  }

  function ClosedPart(l: Ledger, q: Query): Account -> int {
    (a: Account) => if IsIncome(a) then PostedNet(l.entries, q, a.id) else 0
  }

  function GainPart(surplus: nat, income: int): Account -> int {
    (a: Account) => if a.id == surplus && IsResult(a) then income else 0
  }

  lemma ResultAfterClose(l: Ledger, id: nat, k: nat)
    requires DistinctIds(l.accounts) && ClosePeriod(l, id).Ok? && k < |l.accounts|
    ensures var a, q := l.accounts[k], Dates(l, id);
      ResultNet(ClosePeriod(l, id).value.entries, q)(a) ==
      ResultNet(l.entries, q)(a) - ClosedPart(l, q)(a) + GainPart(Surplus(l), ClosedIncome(l, id))(a)
  {
    CloseMovesIncomeToSurplus(l, id, k);
  }

  /**
   The period's net income after a close is what it was, less the income closed, plus that
   same amount again if retained surplus is itself a Revenue or Expense account.
   */
  lemma CloseProfitAndLoss(l: Ledger, id: nat)
    requires DistinctIds(l.accounts) && ClosePeriod(l, id).Ok?
    ensures PnL(l, id, ClosePeriod(l, id).value.entries) ==
            PnL(l, id, l.entries) - ClosedIncome(l, id) + (if SurplusIsResult(l) then ClosedIncome(l, id) else 0)
  {
    var q, es' := Dates(l, id), ClosePeriod(l, id).value.entries;
    PnLMeaning(l, id, l.entries);
    PnLMeaning(l, id, es');
    ClosedIncomeMeaning(l, id, ClosedPart(l, q));
    forall i | 0 <= i < |l.accounts|
      ensures ResultNet(es', q)(l.accounts[i]) ==
              ResultNet(l.entries, q)(l.accounts[i]) - ClosedPart(l, q)(l.accounts[i]) +
              GainPart(Surplus(l), ClosedIncome(l, id))(l.accounts[i])
    {
      ResultAfterClose(l, id, i);
    }
    SumParts(l.accounts, ResultNet(l.entries, q), ClosedPart(l, q),
             GainPart(Surplus(l), ClosedIncome(l, id)), ResultNet(es', q));
    GainTotal(l, ClosedIncome(l, id));
  }

  lemma SumParts(c: seq<Account>, f: Account -> int, g: Account -> int, h: Account -> int, r: Account -> int)
    requires forall i :: 0 <= i < |c| ==> r(c[i]) == f(c[i]) - g(c[i]) + h(c[i])
    ensures Total(c, r) == Total(c, f) - Total(c, g) + Total(c, h)
  {
    var d := (a: Account) => f(a) - g(a);
    TotalMinus(c, f, g, d);
    TotalPlus(c, d, h, r);
  }

  lemma GainTotal(l: Ledger, income: int)
    requires DistinctIds(l.accounts) && FindSurplus(l.accounts).Some?
    ensures Total(l.accounts, GainPart(Surplus(l), income)) == if SurplusIsResult(l) then income else 0
  {
    var s := FindSurplus(l.accounts).value;
    var at :| 0 <= at < |l.accounts| && l.accounts[at] == s;
    TotalAt(l.accounts, at, GainPart(s.id, income));
  }

  /** With every Revenue and Expense account that moved still active, and retained surplus on
      the balance sheet, the close books the whole net income and leaves none behind. */
  lemma CloseClearsProfitAndLoss(l: Ledger, id: nat)
    requires DistinctIds(l.accounts) && ClosePeriod(l, id).Ok? && !SurplusIsResult(l)
    requires forall i :: 0 <= i < |l.accounts| && IsResult(l.accounts[i]) && !l.accounts[i].active ==>
               PostedNet(l.entries, Dates(l, id), l.accounts[i].id) == 0
    ensures ClosedIncome(l, id) == PnL(l, id, l.entries)
    ensures PnL(l, id, ClosePeriod(l, id).value.entries) == 0
  {
    PnLMeaning(l, id, l.entries);
    ClosedIncomeMeaning(l, id, ResultNet(l.entries, Dates(l, id)));
    CloseProfitAndLoss(l, id);
  }

  /* ---------- the opening entry ---------- */

  /** Posted net of the accounts both loops skip. */
  function SkippedNet(l: Ledger, id: nat): int
    requires id < |l.periods|
  {
    Total(l.accounts, InactivePart(PeriodTotals(l, l.periods[id])))
  }

  /**
   A close records an opening entry exactly when some active balance-sheet account moved and
   the closed income is cancelled by what sits on inactive accounts; the recorded entry is
   then posted, balanced and dated the day after the period.
   */
  lemma OpeningRecordedIff(l: Ledger, id: nat)
    requires Consistent(l) && ClosePeriod(l, id).Ok?
    ensures var l' := ClosePeriod(l, id).value;
      var m := PeriodTotals(l, l.periods[id]);
      var link := l'.periods[id].opening;
      && (link.Some? <==> CarriesForward(l.accounts, m) && ClosedIncome(l, id) + SkippedNet(l, id) == 0)
      && (link.Some? ==>
          && link.value == |l'.entries| - 1
          && l'.entries[link.value] ==
             Entry(l.periods[id].end + 1, Posted, None, None, None, OpeningLines(l.accounts, m))
          && IsBalanced(l'.entries[link.value].lines))
  {
    var q := Dates(l, id);
    SelectedCharted(l.accounts, l.entries, q);
    PostedEntriesBalance(l.entries);
    SelectedBalance(l.entries, q);
    OpeningDifference(l.accounts, SelectLines(l.entries, q));
  }

  /** With all accounts active the condition is break-even. */
  lemma OpeningNeedsBreakEven(l: Ledger, id: nat)
    requires Consistent(l) && ClosePeriod(l, id).Ok?
    requires forall i :: 0 <= i < |l.accounts| ==> l.accounts[i].active
    ensures ClosePeriod(l, id).value.periods[id].opening.Some? <==>
            CarriesForward(l.accounts, PeriodTotals(l, l.periods[id])) && ClosedIncome(l, id) == 0
    ensures ClosedIncome(l, id) == PnL(l, id, l.entries)
  {
    OpeningRecordedIff(l, id);
    TotalZero(l.accounts, InactivePart(PeriodTotals(l, l.periods[id])));
    PnLMeaning(l, id, l.entries);
    ClosedIncomeMeaning(l, id, ResultNet(l.entries, Dates(l, id)));
  }

  /**
   Seen from any date after the period, a recorded opening entry counts the period's
   movement of every active balance-sheet account a second time.
   */
  lemma OpeningRepeatsMovements(l: Ledger, id: nat, k: nat, asOf: int)
    requires Consistent(l) && ClosePeriod(l, id).Ok? && k < |l.accounts| && asOf > l.periods[id].end
    ensures var a := l.accounts[k];
      var l' := ClosePeriod(l, id).value;
      var moved := PostedNet(l.entries, Dates(l, id), a.id);
      PostedNet(l'.entries, PostedUpTo(asOf), a.id) ==
        PostedNet(l.entries, PostedUpTo(asOf), a.id) -
        (if IsIncome(a) then moved else 0) +
        (if a.id == Surplus(l) then ClosedIncome(l, id) else 0) +
        (if IsSheet(a) && l'.periods[id].opening.Some? then moved else 0)
  {
    var c, m := l.accounts, PeriodTotals(l, l.periods[id]);
    var closing, opening := ClosingEntryLines(c, m, Surplus(l)), OpeningLines(c, m);
    NetAfterClose(l, id, closing, opening, PostedUpTo(asOf), c[k].id);
    ClosingEntryEffect(c, m, Surplus(l), k);
    OpeningEffect(c, m, k);
    NetOfGroup(SelectLines(l.entries, Dates(l, id)), c[k].id);
  }
}
