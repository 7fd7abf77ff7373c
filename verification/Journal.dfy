/**
 Journal entries and the queries the handlers run over them.

 Amounts are whole numbers of 1/10000 currency units, dates are day numbers, and an
 entry's id is its position in the store.
 */
module Journal {
  import opened Basics
  import opened Sums

  datatype Line = Line(account: nat, debit: int, credit: int)

  datatype EntryStatus = Draft | Posted | Reversed

  datatype Entry = Entry(
    date: int,
    status: EntryStatus,
    period: Option<nat>,
    reversedBy: Option<nat>,
    reversalOf: Option<nat>,
    lines: seq<Line>)

  /** The three amounts the code sums; Net counts credits positive. */
  datatype Side = Debit | Credit | Net

  function Amount(s: Side, l: Line): int {
    match s
    case Debit => l.debit
    case Credit => l.credit
    case Net => l.credit - l.debit
  }

  function All(s: Side): Line -> int {
    (l: Line) => Amount(s, l)
  }

  function TotalDebits(ls: seq<Line>): int { Total(ls, All(Debit)) }

  function TotalCredits(ls: seq<Line>): int { Total(ls, All(Credit)) }

  predicate IsBalanced(ls: seq<Line>) {
    TotalDebits(ls) == TotalCredits(ls) && TotalDebits(ls) > 0
  }

  /** The validator's line rule, which is also the table's CHECK constraint. */
  predicate OneSided(l: Line) {
    (l.debit > 0 && l.credit == 0) || (l.credit > 0 && l.debit == 0)
  }

  predicate AllOneSided(ls: seq<Line>) {
    forall i :: 0 <= i < |ls| ==> OneSided(ls[i])
  }

  /** The amount, on the lines of one account only. */
  function On(a: nat, s: Side): Line -> int {
    (l: Line) => if l.account == a then Amount(s, l) else 0
  }

  /** What a list of lines does to one account. */
  function Effect(ls: seq<Line>, a: nat): int {
    Total(ls, On(a, Net))
  }

  lemma NetOfLines(ls: seq<Line>)
    ensures Total(ls, All(Net)) == TotalCredits(ls) - TotalDebits(ls)
  {
    TotalMinus(ls, All(Credit), All(Debit), All(Net));
  }

  lemma EffectSplits(ls: seq<Line>, a: nat)
    ensures Effect(ls, a) == Total(ls, On(a, Credit)) - Total(ls, On(a, Debit))
  {
    TotalMinus(ls, On(a, Credit), On(a, Debit), On(a, Net));
  }

  /** One-sided lines cannot cancel: some line means a positive debit or credit total. */
  lemma {:induction false} OneSidedTotals(ls: seq<Line>)
    requires AllOneSided(ls)
    ensures TotalDebits(ls) >= 0 && TotalCredits(ls) >= 0
    ensures ls != [] ==> TotalDebits(ls) + TotalCredits(ls) > 0
  {
    if ls != [] {
      OneSidedTotals(ls[..|ls| - 1]);
      assert OneSided(ls[|ls| - 1]);
    }
  }

  /* ---------- reversal lines ---------- */

  function Swap(l: Line): Line { Line(l.account, l.credit, l.debit) }

  function Swapped(ls: seq<Line>): (r: seq<Line>)
    ensures |r| == |ls|
    ensures forall i :: 0 <= i < |ls| ==> r[i] == Swap(ls[i])
  {
    if ls == [] then [] else Swapped(ls[..|ls| - 1]) + [Swap(ls[|ls| - 1])]
  }

  lemma {:induction false} SwappedTotals(ls: seq<Line>)
    ensures TotalDebits(Swapped(ls)) == TotalCredits(ls)
    ensures TotalCredits(Swapped(ls)) == TotalDebits(ls)
  {
    if ls != [] {
      var n := |ls| - 1;
      SwappedTotals(ls[..n]);
      TotalPush(Swapped(ls[..n]), Swap(ls[n]), All(Debit));
      TotalPush(Swapped(ls[..n]), Swap(ls[n]), All(Credit));
    }
  }

  lemma {:induction false} SwappedEffect(ls: seq<Line>, a: nat)
    ensures Effect(Swapped(ls), a) == -Effect(ls, a)
  {
    if ls != [] {
      var n := |ls| - 1;
      SwappedEffect(ls[..n], a);
      TotalPush(Swapped(ls[..n]), Swap(ls[n]), On(a, Net));
    }
  }

  /* ---------- queries ---------- */

  datatype Query = Query(from: Option<int>, to: Option<int>, status: Option<EntryStatus>)

  predicate Matches(q: Query, e: Entry) {
    && (q.from.Some? ==> e.date >= q.from.value)
    && (q.to.Some? ==> e.date <= q.to.value)
    && (q.status.Some? ==> e.status == q.status.value)
  }

  /** The lines of all matching entries, one after the other. */
  function SelectLines(es: seq<Entry>, q: Query): seq<Line> {
    if es == [] then []
    else SelectLines(es[..|es| - 1], q) + (if Matches(q, es[|es| - 1]) then es[|es| - 1].lines else [])
  }

  /** What one entry contributes to a sum over the lines of a query. */
  function Share(q: Query, f: Line -> int): Entry -> int {
    (e: Entry) => if Matches(q, e) then Total(e.lines, f) else 0
  }

  lemma {:induction false} SelectTotal(es: seq<Entry>, q: Query, f: Line -> int)
    ensures Total(SelectLines(es, q), f) == Total(es, Share(q, f))
  {
    if es != [] {
      var n := |es| - 1;
      SelectTotal(es[..n], q, f);
      TotalConcat(SelectLines(es[..n], q), if Matches(q, es[n]) then es[n].lines else [], f);
    }
  }

  /** A property of every line of every matching entry holds of the selected lines. */
  lemma {:induction false} SelectedLines(es: seq<Entry>, q: Query, p: Line -> bool)
    requires forall i, j :: 0 <= i < |es| && 0 <= j < |es[i].lines| && Matches(q, es[i]) ==> p(es[i].lines[j])
    ensures forall k :: 0 <= k < |SelectLines(es, q)| ==> p(SelectLines(es, q)[k])
  {
    if es != [] {
      var n := |es| - 1;
      SelectedLines(es[..n], q, p);
    }
  }

  /* ---------- grouping by account ---------- */

  datatype Totals = Totals(debits: int, credits: int)

  const ZERO := Totals(0, 0)

  function Lookup(m: map<nat, Totals>, a: nat): Totals {
    if a in m then m[a] else ZERO
  }

  function GroupTotals(ls: seq<Line>): map<nat, Totals> {
    if ls == [] then map[]
    else
      var m := GroupTotals(ls[..|ls| - 1]);
      var l := ls[|ls| - 1];
      var t := Lookup(m, l.account);
      m[l.account := Totals(t.debits + l.debit, t.credits + l.credit)]
  }

  predicate Mentions(ls: seq<Line>, a: nat) {
    exists i :: 0 <= i < |ls| && ls[i].account == a
  }

  /** Grouping loses nothing: every group is the filter-and-sum of its account. */
  lemma {:induction false} GroupIsFilterAndSum(ls: seq<Line>, a: nat)
    ensures a in GroupTotals(ls) <==> Mentions(ls, a)
    ensures Lookup(GroupTotals(ls), a) == Totals(Total(ls, On(a, Debit)), Total(ls, On(a, Credit)))
  {
    if ls != [] {
      var n := |ls| - 1;
      GroupIsFilterAndSum(ls[..n], a);
      if Mentions(ls[..n], a) {
        var i :| 0 <= i < n && ls[..n][i].account == a;
        assert ls[i].account == a;
      }
      if i :| 0 <= i < |ls| && ls[i].account == a {
        assert i == n || ls[..n][i].account == a;
      }
    }
  }
}
