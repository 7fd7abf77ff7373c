/**
 When each ledger command succeeds, which failure it reports otherwise, and what it leaves in the
 store, said on the entries, periods and accounts themselves.
 */
module Gates {
  import opened Basics
  import opened Sums
  import opened Chart
  import opened Journal
  import opened Reports
  import opened Closing
  import opened Ledgers
  import opened CloseTheorems

  /* ---------- closing ---------- */

  /** Drafts dated inside the period, both ends included. */
  ghost function DraftsIn(l: Ledger, p: Period): set<nat> {
    set i: nat | i < |l.entries| && l.entries[i].status == Draft && p.start <= l.entries[i].date <= p.end
  }

  predicate HasSurplus(c: seq<Account>) {
    exists i :: 0 <= i < |c| && c[i].code == "3002" && c[i].active
  }

  lemma DraftCountMeaning(l: Ledger, p: Period)
    ensures DraftCount(l, p) == |DraftsIn(l, p)|
  {
    WhereCount(l.entries, IsDraftWithin(p.start, p.end));
    assert Holding(l.entries, IsDraftWithin(p.start, p.end)) == DraftsIn(l, p);
  }

  lemma SurplusFound(c: seq<Account>)
    ensures FindSurplus(c).Some? <==> HasSurplus(c)
  {
    if FindSurplus(c).Some? {
      var i :| 0 <= i < |c| && c[i] == FindSurplus(c).value;
    }
  }

  /** A close goes through if and only if the period exists and is open, no draft is dated inside
      it, and an active account has code 3002. */
  lemma ClosesIff(l: Ledger, id: nat)
    ensures ClosePeriod(l, id).Ok? <==>
      && id < |l.periods| && l.periods[id].status == Open
      && (forall i :: 0 <= i < |l.entries| && l.entries[i].status == Draft ==>
            !(l.periods[id].start <= l.entries[i].date <= l.periods[id].end))
      && (exists i :: 0 <= i < |l.accounts| && l.accounts[i].code == "3002" && l.accounts[i].active)
  {
    if id < |l.periods| {
      var p := l.periods[id];
      DraftCountMeaning(l, p);
      SurplusFound(l.accounts);
      CloseNeverUnbalanced(l, id);
      if DraftsIn(l, p) == {} {
        forall i | 0 <= i < |l.entries| && l.entries[i].status == Draft
          ensures !(p.start <= l.entries[i].date <= p.end)
        {
          assert i !in DraftsIn(l, p);
        }
      } else {
        var i :| i in DraftsIn(l, p);
        assert |DraftsIn(l, p)| > 0;
      }
    }
  }

  /** The failures of a close, in the order of the checks. */
  lemma CloseFails(l: Ledger, id: nat)
    ensures id >= |l.periods| <==> ClosePeriod(l, id) == Err(NotFound)
    ensures id < |l.periods| && l.periods[id].status != Open <==> ClosePeriod(l, id) == Err(PeriodNotOpen)
    ensures id < |l.periods| && l.periods[id].status == Open ==>
      var n := |DraftsIn(l, l.periods[id])|;
      && (n > 0 <==> ClosePeriod(l, id) == Err(DraftsRemain(n)))
      && (n == 0 && !HasSurplus(l.accounts) <==> ClosePeriod(l, id) == Err(NoSurplusAccount))
  {
    if id < |l.periods| {
      DraftCountMeaning(l, l.periods[id]);
      SurplusFound(l.accounts);
    }
  }

  /** Exactly n drafts remain when that is what the failure says. */
  lemma DraftsRemainIff(l: Ledger, id: nat, n: nat)
    requires id < |l.periods| && l.periods[id].status == Open
    ensures ClosePeriod(l, id) == Err(DraftsRemain(n)) <==> n > 0 && n == |DraftsIn(l, l.periods[id])|
  {
    DraftCountMeaning(l, l.periods[id]);
  }

  /** What a close leaves: the period closed and nothing else about it changed but the opening
      link, the other periods, the accounts and the old entries as they were, then the closing
      entry on the last day for this period and the opening entry on the day after for none. */
  lemma CloseLeaves(l: Ledger, id: nat)
    requires ClosePeriod(l, id).Ok?
    ensures var l' := ClosePeriod(l, id).value;
      && l'.accounts == l.accounts && |l'.periods| == |l.periods| && l.entries <= l'.entries
      && (forall i :: 0 <= i < |l.periods| && i != id ==> l'.periods[i] == l.periods[i])
      && l'.periods[id] == l.periods[id].(status := Closed, opening := l'.periods[id].opening)
    ensures var l' := ClosePeriod(l, id).value;
      forall i :: |l.entries| <= i < |l'.entries| ==>
        var e := l'.entries[i];
        && e.status == Posted && e.reversedBy.None? && e.reversalOf.None? && e.lines != []
        && ((e.date == l.periods[id].end && e.period == Some(id)) ||
            (e.date == l.periods[id].end + 1 && e.period.None?))
  {
  }

  /* ---------- creating ---------- */

  /** Exactly one side of the line is positive and the other is zero. */
  predicate OnePositiveSide(x: Line) {
    x.debit >= 0 && x.credit >= 0 && (x.debit == 0) != (x.credit == 0)
  }

  lemma OneSidedMeaning(ls: seq<Line>)
    ensures AllOneSided(ls) <==> forall i :: 0 <= i < |ls| ==> OnePositiveSide(ls[i])
  {
    if forall i :: 0 <= i < |ls| ==> OnePositiveSide(ls[i]) {
      forall i | 0 <= i < |ls|
        ensures OneSided(ls[i])
      {
        assert OnePositiveSide(ls[i]);
      }
    }
    if AllOneSided(ls) {
      forall i | 0 <= i < |ls|
        ensures OnePositiveSide(ls[i])
      {
        assert OneSided(ls[i]);
      }
    }
  }

  predicate InChart(c: seq<Account>, id: nat) {
    exists k :: 0 <= k < |c| && c[k].id == id
  }

  lemma ChartedMeaning(c: seq<Account>, ls: seq<Line>)
    ensures LinesCharted(c, ls) <==> forall i :: 0 <= i < |ls| ==> InChart(c, ls[i].account)
  {
    if LinesCharted(c, ls) {
      forall i | 0 <= i < |ls|
        ensures InChart(c, ls[i].account)
      {
        assert HasId(c, ls[i].account);
      }
    }
    if forall i :: 0 <= i < |ls| ==> InChart(c, ls[i].account) {
      forall i | 0 <= i < |ls|
        ensures HasId(c, ls[i].account)
      {
        assert InChart(c, ls[i].account);
      }
    }
  }

  predicate OpenOrNone(l: Ledger, period: Option<nat>) {
    period.None? || (period.value < |l.periods| && l.periods[period.value].status == Open)
  }

  /** An entry is created if and only if it has lines, each with exactly one positive side and a
      known account, and names no period or an open one; it is a draft at the end of the store. */
  lemma CreatesIff(l: Ledger, date: int, period: Option<nat>, ls: seq<Line>)
    ensures CreateEntry(l, date, period, ls).Ok? <==>
      && ls != [] && (forall i :: 0 <= i < |ls| ==> OnePositiveSide(ls[i]))
      && OpenOrNone(l, period)
      && (forall i :: 0 <= i < |ls| ==> InChart(l.accounts, ls[i].account))
    ensures CreateEntry(l, date, period, ls).Ok? ==>
      CreateEntry(l, date, period, ls).value ==
      Ledger(l.accounts, l.periods, l.entries + [Entry(date, Draft, period, None, None, ls)])
  {
    OneSidedMeaning(ls);
    ChartedMeaning(l.accounts, ls);
  }

  /** The failures of a creation, in the order of the checks. */
  lemma CreateFails(l: Ledger, date: int, period: Option<nat>, ls: seq<Line>)
    ensures var valid := ls != [] && forall i :: 0 <= i < |ls| ==> OnePositiveSide(ls[i]);
      && (!valid <==> CreateEntry(l, date, period, ls) == Err(Invalid))
      && (valid && period.Some? && period.value >= |l.periods| <==> CreateEntry(l, date, period, ls) == Err(NotFound))
      && (valid && period.Some? && period.value < |l.periods| && l.periods[period.value].status != Open <==>
          CreateEntry(l, date, period, ls) == Err(PeriodNotOpen))
      && (valid && OpenOrNone(l, period) && (exists i :: 0 <= i < |ls| && !InChart(l.accounts, ls[i].account)) <==>
          CreateEntry(l, date, period, ls) == Err(UnknownAccount))
  {
    OneSidedMeaning(ls);
    ChartedMeaning(l.accounts, ls);
  }

  /** A period is created if and only if none has the same two dates; it is open, at the end. */
  lemma CreatesPeriodIff(l: Ledger, start: int, end: int)
    ensures CreatePeriod(l, start, end).Ok? <==>
      forall p :: 0 <= p < |l.periods| ==> l.periods[p].start != start || l.periods[p].end != end
    ensures CreatePeriod(l, start, end).Err? ==> CreatePeriod(l, start, end) == Err(DuplicatePeriod)
    ensures CreatePeriod(l, start, end).Ok? ==>
      CreatePeriod(l, start, end).value ==
      Ledger(l.accounts, l.periods + [Period(start, end, Open, None)], l.entries)
  {
  }

  /* ---------- posting and reversing ---------- */

  function DebitSum(ls: seq<Line>): int {
    if ls == [] then 0 else DebitSum(ls[1..]) + ls[0].debit
  }

  function CreditSum(ls: seq<Line>): int {
    if ls == [] then 0 else CreditSum(ls[1..]) + ls[0].credit
  }

  lemma {:induction false} SumsAgree(ls: seq<Line>)
    ensures TotalDebits(ls) == DebitSum(ls) && TotalCredits(ls) == CreditSum(ls)
  {
    if ls != [] {
      SumsAgree(ls[1..]);
      assert ls == [ls[0]] + ls[1..];
      TotalConcat([ls[0]], ls[1..], All(Debit));
      TotalConcat([ls[0]], ls[1..], All(Credit));
      SingleLine([ls[0]], All(Debit));
      SingleLine([ls[0]], All(Credit));
    }
  }

  /** An entry is posted if and only if it exists, is a draft, and its debits and credits sum to
      the same positive amount; then only its status changes. */
  lemma PostsIff(l: Ledger, id: nat)
    ensures PostEntry(l, id).Ok? <==>
      && id < |l.entries| && l.entries[id].status == Draft
      && DebitSum(l.entries[id].lines) == CreditSum(l.entries[id].lines) && DebitSum(l.entries[id].lines) > 0
    ensures id >= |l.entries| <==> PostEntry(l, id) == Err(NotFound)
    ensures id < |l.entries| && l.entries[id].status != Draft <==> PostEntry(l, id) == Err(NotDraft)
    ensures PostEntry(l, id).Ok? ==>
      PostEntry(l, id).value ==
      Ledger(l.accounts, l.periods, l.entries[id := l.entries[id].(status := Posted)])
  {
    if id < |l.entries| {
      SumsAgree(l.entries[id].lines);
    }
  }

  /** In every reachable ledger an entry is reversed if and only if it exists and is posted; it is
      marked and linked, and a posted entry of today, without a period, with every line's sides
      exchanged is added. */
  lemma ReversesIff(l: Ledger, id: nat, today: int)
    requires Consistent(l)
    ensures ReverseEntry(l, id, today).Ok? <==> id < |l.entries| && l.entries[id].status == Posted
    ensures id >= |l.entries| <==> ReverseEntry(l, id, today) == Err(NotFound)
    ensures id < |l.entries| && l.entries[id].status != Posted <==> ReverseEntry(l, id, today) == Err(NotPosted)
    ensures ReverseEntry(l, id, today).Ok? ==>
      var l', n := ReverseEntry(l, id, today).value, |l.entries|;
      && l'.accounts == l.accounts && l'.periods == l.periods && |l'.entries| == n + 1
      && (forall i :: 0 <= i < n && i != id ==> l'.entries[i] == l.entries[i])
      && l'.entries[id] == l.entries[id].(status := Reversed, reversedBy := Some(n))
      && l'.entries[n] == Entry(today, Posted, None, None, Some(id), l'.entries[n].lines)
      && |l'.entries[n].lines| == |l.entries[id].lines|
      && (forall j :: 0 <= j < |l.entries[id].lines| ==>
            var x := l.entries[id].lines[j]; l'.entries[n].lines[j] == Line(x.account, x.credit, x.debit))
  {
    if id < |l.entries| {
      assert EntryOk(l.entries, id);
    }
  }

  /** After any run from the empty ledger: stored lines have one positive side, and the debits and
      credits of posted and reversed entries sum to the same positive amount. */
  lemma EveryRunSums(cmds: seq<Command>, i: nat)
    requires i < |Run(EMPTY, cmds).entries|
    ensures var e := Run(EMPTY, cmds).entries[i];
      && (forall j :: 0 <= j < |e.lines| ==> OnePositiveSide(e.lines[j]))
      && (e.status != Draft ==> DebitSum(e.lines) == CreditSum(e.lines) && DebitSum(e.lines) > 0)
  {
    EveryRunBalances(cmds, i);
    OneSidedMeaning(Run(EMPTY, cmds).entries[i].lines);
    SumsAgree(Run(EMPTY, cmds).entries[i].lines);
  }
}
