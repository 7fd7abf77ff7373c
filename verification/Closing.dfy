/**
 The two entries built when a fiscal period is closed: the closing entry that zeroes
 Revenue and Expense into retained surplus, and the opening entry of the next period.
 Here m is the dictionary of posted totals by account over the period's date range.
 */
module Closing {
  import opened Basics
  import opened Sums
  import opened Chart
  import opened Journal
  import opened Reports

  const SURPLUS_CODE := "3002"

  predicate IsIncome(a: Account) {
    a.active && (a.kind == Revenue || a.kind == Expense)
  }

  predicate IsSheet(a: Account) {
    a.active && (a.kind == Asset || a.kind == Liability || a.kind == Equity)
  }

  function FindSurplus(c: seq<Account>): (r: Option<Account>)
    ensures r.Some? ==> r.value in c && r.value.code == SURPLUS_CODE && r.value.active
    ensures r.None? ==> forall i :: 0 <= i < |c| && c[i].code == SURPLUS_CODE ==> !c[i].active
  {
    if c == [] then None
    else if c[0].code == SURPLUS_CODE && c[0].active then Some(c[0])
    else
      assert forall i :: 0 < i < |c| ==> c[i] == c[1..][i - 1];
      FindSurplus(c[1..])
  }

  /** A part counted on one account only. */
  function AtId(x: nat, part: Account -> int): Account -> int {
    (a: Account) => if a.id == x then part(a) else 0
  }

  lemma {:induction false} TotalAt(c: seq<Account>, k: nat, f: Account -> int)
    requires DistinctIds(c) && k < |c|
    requires forall i :: 0 <= i < |c| && c[i].id != c[k].id ==> f(c[i]) == 0
    ensures Total(c, f) == f(c[k])
  {
    var n := |c| - 1;
    if k < n {
      TotalAt(c[..n], k, f);
    } else {
      TotalZero(c[..n], f);
    }
  }

  /* ---------- the closing entry ---------- */

  function ClosingLine(a: Account, m: map<nat, Totals>): seq<Line> {
    if !IsIncome(a) || a.id !in m then []
    else
      var net := NetOf(m, a.id);
      if net > 0 then [Line(a.id, net, 0)]
      else if net < 0 then [Line(a.id, 0, -net)]
      else []
  }

  function ClosingLines(c: seq<Account>, m: map<nat, Totals>): seq<Line> {
    if c == [] then [] else ClosingLines(c[..|c| - 1], m) + ClosingLine(c[|c| - 1], m)
  }

  function IncomePart(m: map<nat, Totals>): Account -> int {
    (a: Account) => if IsIncome(a) then NetOf(m, a.id) else 0
  }

  function NetIncome(c: seq<Account>, m: map<nat, Totals>): int {
    Total(c, IncomePart(m))
  }

  function SurplusLine(surplus: nat, netIncome: int): seq<Line> {
    if netIncome > 0 then [Line(surplus, 0, netIncome)]
    else if netIncome < 0 then [Line(surplus, -netIncome, 0)]
    else []
  }

  function ClosingEntryLines(c: seq<Account>, m: map<nat, Totals>, surplus: nat): seq<Line> {
    ClosingLines(c, m) + SurplusLine(surplus, NetIncome(c, m))
  }

  lemma {:induction false} ClosingLinesSum(c: seq<Account>, m: map<nat, Totals>)
    ensures AllOneSided(ClosingLines(c, m))
    ensures Total(ClosingLines(c, m), All(Net)) == -NetIncome(c, m)
  {
    if c != [] {
      var n := |c| - 1;
      ClosingLinesSum(c[..n], m);
      SingleLine(ClosingLine(c[n], m), All(Net));
      TotalConcat(ClosingLines(c[..n], m), ClosingLine(c[n], m), All(Net));
    }
  }

  lemma SingleLine(ls: seq<Line>, f: Line -> int)
    requires |ls| <= 1
    ensures Total(ls, f) == if ls == [] then 0 else f(ls[0])
  {
    if ls != [] {
      assert ls[..0] == [];
    }
  }

  /**
   Profit, loss or break-even, the closing entry has no lines at all or is balanced with a
   positive total, so posting it cannot fail.
   */
  lemma ClosingEntryBalances(c: seq<Account>, m: map<nat, Totals>, surplus: nat)
    ensures var ls := ClosingEntryLines(c, m, surplus);
      AllOneSided(ls) && (ls == [] || IsBalanced(ls))
  {
    var ls := ClosingEntryLines(c, m, surplus);
    var tail := SurplusLine(surplus, NetIncome(c, m));
    ClosingLinesSum(c, m);
    SingleLine(tail, All(Net));
    TotalConcat(ClosingLines(c, m), tail, All(Net));
    NetOfLines(ls);
    OneSidedTotals(ls);
  }

  lemma ClosingLineEffect(a: Account, m: map<nat, Totals>, x: nat)
    ensures Effect(ClosingLine(a, m), x) == if a.id == x then -IncomePart(m)(a) else 0
  {
    SingleLine(ClosingLine(a, m), On(x, Net));
  }

  lemma ClosingStep(c: seq<Account>, m: map<nat, Totals>, x: nat)
    requires c != []
    ensures var n := |c| - 1;
      Effect(ClosingLines(c, m), x) ==
      Effect(ClosingLines(c[..n], m), x) + (if c[n].id == x then -IncomePart(m)(c[n]) else 0)
  {
    var n := |c| - 1;
    TotalConcat(ClosingLines(c[..n], m), ClosingLine(c[n], m), On(x, Net));
    ClosingLineEffect(c[n], m, x);
  }

  lemma {:induction false} ClosingSum(c: seq<Account>, m: map<nat, Totals>, x: nat)
    ensures Effect(ClosingLines(c, m), x) == -Total(c, AtId(x, IncomePart(m)))
  {
    if c != [] {
      ClosingStep(c, m, x);
      ClosingSum(c[..|c| - 1], m, x);
    }
  }

  /** On each account of the chart the closing lines undo exactly what was grouped. */
  lemma ClosingEffect(c: seq<Account>, m: map<nat, Totals>, k: nat)
    requires DistinctIds(c) && k < |c|
    ensures Effect(ClosingLines(c, m), c[k].id) == -IncomePart(m)(c[k])
  {
    ClosingSum(c, m, c[k].id);
    TotalAt(c, k, AtId(c[k].id, IncomePart(m)));
  }

  lemma NoClosingEffect(c: seq<Account>, m: map<nat, Totals>, x: nat)
    requires forall i :: 0 <= i < |c| ==> c[i].id != x
    ensures Effect(ClosingLines(c, m), x) == 0
  {
    ClosingSum(c, m, x);
    TotalZero(c, AtId(x, IncomePart(m)));
  }

  lemma SurplusEffect(surplus: nat, netIncome: int, x: nat)
    ensures Effect(SurplusLine(surplus, netIncome), x) == if x == surplus then netIncome else 0
  {
    SingleLine(SurplusLine(surplus, netIncome), On(x, Net));
  }

  lemma ClosingSplit(c: seq<Account>, m: map<nat, Totals>, surplus: nat, x: nat)
    ensures Effect(ClosingEntryLines(c, m, surplus), x) ==
            Effect(ClosingLines(c, m), x) + Effect(SurplusLine(surplus, NetIncome(c, m)), x)
  {
    TotalConcat(ClosingLines(c, m), SurplusLine(surplus, NetIncome(c, m)), On(x, Net));
  }

  /** The whole closing entry takes each income account's net away and gives it to surplus. */
  lemma ClosingEntryEffect(c: seq<Account>, m: map<nat, Totals>, surplus: nat, k: nat)
    requires DistinctIds(c) && k < |c|
    ensures Effect(ClosingEntryLines(c, m, surplus), c[k].id) ==
            (if c[k].id == surplus then NetIncome(c, m) else 0) - IncomePart(m)(c[k])
  {
    ClosingSplit(c, m, surplus, c[k].id);
    SurplusEffect(surplus, NetIncome(c, m), c[k].id);
    ClosingEffect(c, m, k);
  }

  /** Closing lines appear only for accounts that were grouped. */
  lemma {:induction false} NothingToClose(c: seq<Account>, m: map<nat, Totals>)
    requires m == map[]
    ensures ClosingLines(c, m) == [] && NetIncome(c, m) == 0
  {
    if c != [] {
      NothingToClose(c[..|c| - 1], m);
    }
  }

  lemma {:induction false} ClosingLinesCharted(c: seq<Account>, d: seq<Account>, m: map<nat, Totals>)
    requires c <= d
    ensures LinesCharted(d, ClosingLines(c, m))
  {
    if c != [] {
      ClosingLinesCharted(c[..|c| - 1], d, m);
      assert c[|c| - 1] == d[|c| - 1];
    }
  }

  /* ---------- the opening entry ---------- */

  function OpeningLine(a: Account, m: map<nat, Totals>): seq<Line> {
    if !IsSheet(a) || a.id !in m then []
    else if a.kind == Asset then
      var net := m[a.id].debits - m[a.id].credits;
      if net > 0 then [Line(a.id, net, 0)]
      else if net < 0 then [Line(a.id, 0, -net)]
      else []
    else
      var net := m[a.id].credits - m[a.id].debits;
      if net > 0 then [Line(a.id, 0, net)]
      else if net < 0 then [Line(a.id, -net, 0)]
      else []
  }

  function OpeningLines(c: seq<Account>, m: map<nat, Totals>): seq<Line> {
    if c == [] then [] else OpeningLines(c[..|c| - 1], m) + OpeningLine(c[|c| - 1], m)
  }

  function SheetPart(m: map<nat, Totals>): Account -> int {
    (a: Account) => if IsSheet(a) then NetOf(m, a.id) else 0
  }

  predicate CarriesForward(c: seq<Account>, m: map<nat, Totals>) {
    exists i :: 0 <= i < |c| && SheetPart(m)(c[i]) != 0
  }

  lemma OpeningLineFacts(a: Account, m: map<nat, Totals>)
    ensures AllOneSided(OpeningLine(a, m)) && |OpeningLine(a, m)| <= 1
    ensures Total(OpeningLine(a, m), All(Net)) == SheetPart(m)(a)
    ensures OpeningLine(a, m) != [] <==> SheetPart(m)(a) != 0
  {
    SingleLine(OpeningLine(a, m), All(Net));
  }

  lemma {:induction false} OpeningLinesSum(c: seq<Account>, m: map<nat, Totals>)
    ensures AllOneSided(OpeningLines(c, m))
    ensures Total(OpeningLines(c, m), All(Net)) == Total(c, SheetPart(m))
  {
    if c != [] {
      var n := |c| - 1;
      OpeningLinesSum(c[..n], m);
      OpeningLineFacts(c[n], m);
      TotalConcat(OpeningLines(c[..n], m), OpeningLine(c[n], m), All(Net));
    }
  }

  lemma {:induction false} OpeningLinesExist(c: seq<Account>, m: map<nat, Totals>)
    ensures OpeningLines(c, m) != [] <==> CarriesForward(c, m)
  {
    if c != [] {
      var n := |c| - 1;
      OpeningLinesExist(c[..n], m);
      OpeningLineFacts(c[n], m);
      if CarriesForward(c[..n], m) {
        var i :| 0 <= i < n && SheetPart(m)(c[..n][i]) != 0;
        assert SheetPart(m)(c[i]) != 0;
      }
      if i :| 0 <= i < |c| && SheetPart(m)(c[i]) != 0 {
        assert i == n || SheetPart(m)(c[..n][i]) != 0;
      }
    }
  }

  lemma OpeningLineEffect(a: Account, m: map<nat, Totals>, x: nat)
    ensures Effect(OpeningLine(a, m), x) == if a.id == x then SheetPart(m)(a) else 0
  {
    SingleLine(OpeningLine(a, m), On(x, Net));
  }

  lemma OpeningStep(c: seq<Account>, m: map<nat, Totals>, x: nat)
    requires c != []
    ensures var n := |c| - 1;
      Effect(OpeningLines(c, m), x) ==
      Effect(OpeningLines(c[..n], m), x) + (if c[n].id == x then SheetPart(m)(c[n]) else 0)
  {
    var n := |c| - 1;
    TotalConcat(OpeningLines(c[..n], m), OpeningLine(c[n], m), On(x, Net));
    OpeningLineEffect(c[n], m, x);
  }

  lemma {:induction false} OpeningSum(c: seq<Account>, m: map<nat, Totals>, x: nat)
    ensures Effect(OpeningLines(c, m), x) == Total(c, AtId(x, SheetPart(m)))
  {
    if c != [] {
      OpeningStep(c, m, x);
      OpeningSum(c[..|c| - 1], m, x);
    }
  }

  /** On every account the opening entry repeats the account's own net of the period. */
  lemma OpeningEffect(c: seq<Account>, m: map<nat, Totals>, k: nat)
    requires DistinctIds(c) && k < |c|
    ensures Effect(OpeningLines(c, m), c[k].id) == SheetPart(m)(c[k])
  {
    OpeningSum(c, m, c[k].id);
    TotalAt(c, k, AtId(c[k].id, SheetPart(m)));
  }

  lemma NoOpeningEffect(c: seq<Account>, m: map<nat, Totals>, x: nat)
    requires forall i :: 0 <= i < |c| ==> c[i].id != x
    ensures Effect(OpeningLines(c, m), x) == 0
  {
    OpeningSum(c, m, x);
    TotalZero(c, AtId(x, SheetPart(m)));
  }

  lemma {:induction false} OpeningLinesCharted(c: seq<Account>, d: seq<Account>, m: map<nat, Totals>)
    requires c <= d
    ensures LinesCharted(d, OpeningLines(c, m))
  {
    if c != [] {
      OpeningLinesCharted(c[..|c| - 1], d, m);
      assert c[|c| - 1] == d[|c| - 1];
    }
  }

  function InactivePart(m: map<nat, Totals>): Account -> int {
    (a: Account) => if a.active then 0 else NetOf(m, a.id)
  }

  /** Income, carried-forward and skipped (inactive) accounts are the whole chart. */
  lemma PartsCancel(c: seq<Account>, ls: seq<Line>)
    requires DistinctIds(c) && LinesCharted(c, ls) && TotalDebits(ls) == TotalCredits(ls)
    ensures var m := GroupTotals(ls);
      NetIncome(c, m) + Total(c, SheetPart(m)) + Total(c, InactivePart(m)) == 0
  {
    var m := GroupTotals(ls);
    AccountsCoverLines(c, ls, Net);
    NetOfLines(ls);
    var two := (a: Account) => IncomePart(m)(a) + SheetPart(m)(a);
    TotalPlus(c, IncomePart(m), SheetPart(m), two);
    forall i | 0 <= i < |c|
      ensures PerAccount(ls, Net)(c[i]) == two(c[i]) + InactivePart(m)(c[i])
    {
      GroupIsFilterAndSum(ls, c[i].id);
      EffectSplits(ls, c[i].id);
    }
    TotalPlus(c, two, InactivePart(m), PerAccount(ls, Net));
  }

  /**
   The opening entry is out of balance by exactly the net income plus whatever sits on
   inactive accounts; so it passes the balance test if and only if that sum is zero and
   there is something to carry forward.
   */
  lemma OpeningDifference(c: seq<Account>, ls: seq<Line>)
    requires DistinctIds(c) && LinesCharted(c, ls) && TotalDebits(ls) == TotalCredits(ls)
    ensures var m := GroupTotals(ls);
      var open := OpeningLines(c, m);
      && TotalDebits(open) - TotalCredits(open) == NetIncome(c, m) + Total(c, InactivePart(m))
      && (open != [] && IsBalanced(open) <==>
          CarriesForward(c, m) && NetIncome(c, m) + Total(c, InactivePart(m)) == 0)
  {
    var m := GroupTotals(ls);
    var open := OpeningLines(c, m);
    OpeningLinesSum(c, m);
    OpeningLinesExist(c, m);
    NetOfLines(open);
    OneSidedTotals(open);
    PartsCancel(c, ls);
  }
}
