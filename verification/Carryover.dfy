/**
 Opening entries over several closes.  An opening entry is dated inside the next period, so the
 next close carries it forward again: over adjacent periods the movements compound.
 */
module Carryover {
  import opened Basics
  import opened Sums
  import opened Journal
  import opened Reports
  import opened Closing
  import opened Ledgers
  import opened CloseTheorems

  function Closes(first: nat, n: nat): seq<Command> {
    if n == 0 then [] else Closes(first, n - 1) + [Close(first + n - 1)]
  }

  /** Open periods, each starting the day after the one before has ended. */
  ghost predicate Adjacent(ps: seq<Period>, first: nat, n: nat) {
    && first + n <= |ps|
    && (forall i :: first <= i < first + n ==> ps[i].status == Open && ps[i].start <= ps[i].end)
    && (forall i {:trigger Follows(ps, i)} :: first < i < first + n ==> Follows(ps, i))
  }

  ghost predicate Follows(ps: seq<Period>, i: int) {
    0 < i < |ps| && ps[i].start == ps[i - 1].end + 1
  }

  /** Closing period id succeeds, records an opening entry, and leads to l'. */
  ghost predicate Records(l: Ledger, id: nat, l': Ledger) {
    && ClosePeriod(l, id) == Ok(l')
    && id < |l'.periods| && l'.periods[id].opening.Some?
  }

  ghost function Recording(): (Ledger, nat, Ledger) -> bool {
    (l: Ledger, id: nat, l': Ledger) => Records(l, id, l')
  }

  ghost predicate StepLinked(rec: (Ledger, nat, Ledger) -> bool, steps: seq<Ledger>, first: nat, i: nat)
    requires i + 1 < |steps|
  {
    rec(steps[i], first + i, steps[i + 1])
  }

  ghost predicate AllLinked(rec: (Ledger, nat, Ledger) -> bool, steps: seq<Ledger>, first: nat) {
    steps != [] && forall i: nat {:trigger StepLinked(rec, steps, first, i)} :: i + 1 < |steps| ==>
      StepLinked(rec, steps, first, i)
  }

  /** The successive ledgers of closes that all record an opening entry. */
  ghost predicate AllRecord(steps: seq<Ledger>, first: nat) {
    AllLinked(Recording(), steps, first)
  }

  lemma RecordsAt(steps: seq<Ledger>, first: nat, i: nat)
    requires AllRecord(steps, first) && i + 1 < |steps|
    ensures Records(steps[i], first + i, steps[i + 1])
  {
    assert StepLinked(Recording(), steps, first, i);
  }

  lemma StepAt(steps: seq<Ledger>, first: nat, i: nat)
    requires AllRecord(steps, first) && i + 1 < |steps|
    ensures Step(steps[i], Close(first + i)) == steps[i + 1]
  {
    RecordsAt(steps, first, i);
    StepClose(steps[i], first + i);
  }

  /** l' is reached from l by n close commands. */
  ghost predicate IsRun(l: Ledger, first: nat, n: nat, l': Ledger) {
    l' == Run(l, Closes(first, n))
  }

  /** The steps are those of the state machine. */
  lemma {:induction false} StepsAreRun(steps: seq<Ledger>, first: nat, n: nat)
    requires AllRecord(steps, first) && n < |steps|
    ensures IsRun(steps[0], first, n, steps[n])
  {
    if n > 0 {
      StepsAreRun(steps, first, n - 1);
      StepAt(steps, first, n - 1);
      RunOneMore(steps[0], first, n, steps[n - 1], steps[n]);
    }
  }

  lemma RunOneMore(l: Ledger, first: nat, n: nat, mid: Ledger, l': Ledger)
    requires n > 0 && IsRun(l, first, n - 1, mid) && Step(mid, Close(first + n - 1)) == l'
    ensures IsRun(l, first, n, l')
  {
    assert Closes(first, n)[..|Closes(first, n)| - 1] == Closes(first, n - 1);
  }

  /* ---------- one close ---------- */

  /** Same accounts, and the same periods but for status and opening link of period id. */
  ghost predicate SamePeriods(l: Ledger, l': Ledger, done: nat) {
    && l'.accounts == l.accounts && |l'.periods| == |l.periods|
    && (forall i :: 0 <= i < |l.periods| ==>
          l'.periods[i].start == l.periods[i].start && l'.periods[i].end == l.periods[i].end)
    && (forall i :: done <= i < |l.periods| ==> l'.periods[i] == l.periods[i])
  }

  lemma CloseKeepsOthers(l: Ledger, id: nat)
    requires ClosePeriod(l, id).Ok?
    ensures SamePeriods(l, ClosePeriod(l, id).value, id + 1)
  {
  }

  /** One more close after some. */
  lemma CloseNext(l: Ledger, mid: Ledger, id: nat, l': Ledger)
    requires Consistent(mid) && SamePeriods(l, mid, id) && Records(mid, id, l')
    ensures Consistent(l') && SamePeriods(l, l', id + 1)
  {
    StepKeeps(mid, Close(id));
    StepClose(mid, id);
    CloseKeepsOthers(mid, id);
    SameAgain(l, mid, l', id);
  }

  lemma SameAgain(l: Ledger, mid: Ledger, l': Ledger, id: nat)
    requires SamePeriods(l, mid, id) && SamePeriods(mid, l', id + 1)
    ensures SamePeriods(l, l', id + 1)
  {
  }

  predicate IsSheetAt(l: Ledger, k: nat) {
    k < |l.accounts| && IsSheet(l.accounts[k])
  }

  /** What the closing entry of period id brings to account a: the closed income, if a is
      retained surplus. */
  function Gain(l: Ledger, id: nat, a: nat): int {
    if id < |l.periods| && FindSurplus(l.accounts).Some? && a == Surplus(l) then ClosedIncome(l, id) else 0
  }

  /** A recorded opening entry adds the period's net again to every date range that holds the day
      after it; the closing entry adds the gain to every one that holds the last day. */
  lemma CloseCarries(l: Ledger, id: nat, l': Ledger, k: nat, q: Query)
    requires Consistent(l) && Records(l, id, l') && IsSheetAt(l, k) && q.status == Some(Posted)
    ensures var a := l.accounts[k].id;
      PostedNet(l'.entries, q, a) ==
        PostedNet(l.entries, q, a) +
        (if Covers(q, l.periods[id].end + 1) then PostedNet(l.entries, Dates(l, id), a) else 0) +
        (if Covers(q, l.periods[id].end) then Gain(l, id, a) else 0)
  {
    var c, m := l.accounts, PeriodTotals(l, l.periods[id]);
    NetAfterClose(l, id, ClosingEntryLines(c, m, Surplus(l)), OpeningLines(c, m), q, c[k].id);
    ClosingEntryEffect(c, m, Surplus(l), k);
    OpeningEffect(c, m, k);
    NetOfGroup(SelectLines(l.entries, Dates(l, id)), c[k].id);
  }

  /* ---------- compounding, by numbers alone ---------- */

  function DatesOf(p: Period): Query { PostedWithin(p.start, p.end) }

  /** m gives the movement of each period. */
  function MovementSum(m: nat -> int, first: nat, n: nat): int {
    if n == 0 then 0 else MovementSum(m, first, n - 1) + m(first + n - 1)
  }

  /** What the opening entries of the first n closes add over the dates of q. */
  function CarriedIn(ps: seq<Period>, m: nat -> int, first: nat, n: nat, q: Query): int {
    if n == 0 || first + n > |ps| then 0
    else
      var added := if Covers(q, ps[first + n - 1].end + 1) then MovementSum(m, first, n) else 0;
      CarriedIn(ps, m, first, n - 1, q) + added
  }

  lemma {:induction false} EndsInOrder(ps: seq<Period>, first: nat, n: nat, i: nat, j: nat)
    requires Adjacent(ps, first, n) && first <= i <= j < first + n
    ensures ps[i].end <= ps[j].end
    ensures i < j ==> ps[i].end < ps[j].start
    decreases j
  {
    if i < j {
      EndsInOrder(ps, first, n, i, j - 1);
      assert Follows(ps, j);
    }
  }

  /** Inside one period lies the opening entry of the period before it, and no other. */
  lemma {:induction false} OnlyPreviousOpening(ps: seq<Period>, m: nat -> int, first: nat, n: nat, k: nat)
    requires Adjacent(ps, first, n + 1) && k <= n
    ensures CarriedIn(ps, m, first, k, DatesOf(ps[first + n])) == if k == n then MovementSum(m, first, n) else 0
  {
    if k > 0 {
      OnlyPreviousOpening(ps, m, first, n, k - 1);
      var i := first + k - 1;
      assert Follows(ps, i + 1);
      if k < n {
        EndsInOrder(ps, first, n + 1, i + 1, first + n - 1);
        assert Follows(ps, first + n);
      }
    }
  }

  /** What the closing entries of the first n closes add over the dates of q. */
  function GainIn(ps: seq<Period>, gain: nat -> int, first: nat, n: nat, q: Query): int {
    if n == 0 || first + n > |ps| then 0
    else GainIn(ps, gain, first, n - 1, q) + (if Covers(q, ps[first + n - 1].end) then gain(n - 1) else 0)
  }

  /** A closing entry lies in its own period and so not in a later one. */
  lemma {:induction false} NoGainLater(ps: seq<Period>, gain: nat -> int, first: nat, n: nat, k: nat)
    requires Adjacent(ps, first, n + 1) && k <= n
    ensures GainIn(ps, gain, first, k, DatesOf(ps[first + n])) == 0
  {
    if k > 0 {
      NoGainLater(ps, gain, first, n, k - 1);
      EndsInOrder(ps, first, n + 1, first + k - 1, first + n);
    }
  }

  /** net(i, q) is the account's net over q after i closes: close i adds, to every q that holds
      the day after its period, the net it found over the period, and to every q that holds the
      last day its gain. */
  ghost predicate StepAdds(ps: seq<Period>, net: (nat, Query) -> int, gain: nat -> int, first: nat, i: nat) {
    first + i < |ps| &&
    forall q: Query :: q.status == Some(Posted) ==>
      net(i + 1, q) ==
      net(i, q) +
      (if Covers(q, ps[first + i].end + 1) then net(i, DatesOf(ps[first + i])) else 0) +
      (if Covers(q, ps[first + i].end) then gain(i) else 0)
  }

  ghost predicate MovementsOf(ps: seq<Period>, net: (nat, Query) -> int, m: nat -> int) {
    forall id: nat :: id < |ps| ==> m(id) == net(0, DatesOf(ps[id]))
  }

  /** So each close carries its period's own movement and all that was carried into it. */
  lemma {:induction false} NetAfterCloses(ps: seq<Period>, net: (nat, Query) -> int, m: nat -> int, gain: nat -> int,
                                          first: nat, n: nat, q: Query)
    requires Adjacent(ps, first, n) && MovementsOf(ps, net, m) && q.status == Some(Posted)
    requires forall i: nat {:trigger StepAdds(ps, net, gain, first, i)} :: i < n ==> StepAdds(ps, net, gain, first, i)
    ensures net(n, q) == net(0, q) + CarriedIn(ps, m, first, n, q) + GainIn(ps, gain, first, n, q)
    decreases n
  {
    if n > 0 {
      NetAfterCloses(ps, net, m, gain, first, n - 1, q);
      NetAfterCloses(ps, net, m, gain, first, n - 1, DatesOf(ps[first + n - 1]));
      OnlyPreviousOpening(ps, m, first, n - 1, n - 1);
      NoGainLater(ps, gain, first, n - 1, n - 1);
      assert StepAdds(ps, net, gain, first, n - 1);
    }
  }

  /** Movement j counted n - j times, over the first k. */
  function Weighted(m: nat -> int, first: nat, n: nat, k: nat): int {
    if k == 0 then 0 else Weighted(m, first, n, k - 1) + (n - (k - 1)) * m(first + k - 1)
  }

  lemma {:induction false} OneMoreEach(m: nat -> int, first: nat, n: nat, k: nat)
    ensures Weighted(m, first, n + 1, k) == Weighted(m, first, n, k) + MovementSum(m, first, k)
  {
    if k > 0 {
      OneMoreEach(m, first, n, k - 1);
      var w, x := n - (k - 1), m(first + k - 1);
      assert (w + 1) * x == w * x + x;
    }
  }

  lemma {:induction false} CarriedIsWeighted(ps: seq<Period>, m: nat -> int, first: nat, n: nat, q: Query)
    requires first + n <= |ps| && forall i :: first <= i < first + n ==> Covers(q, ps[i].end + 1)
    ensures CarriedIn(ps, m, first, n, q) == Weighted(m, first, n, n)
  {
    if n > 0 {
      CarriedIsWeighted(ps, m, first, n - 1, q);
      OneMoreEach(m, first, n - 1, n - 1);
    }
  }

  function GainSum(gain: nat -> int, n: nat): int {
    if n == 0 then 0 else GainSum(gain, n - 1) + gain(n - 1)
  }

  lemma {:induction false} AllGains(ps: seq<Period>, gain: nat -> int, first: nat, n: nat, q: Query)
    requires first + n <= |ps| && forall i :: first <= i < first + n ==> Covers(q, ps[i].end)
    ensures GainIn(ps, gain, first, n, q) == GainSum(gain, n)
  {
    if n > 0 {
      AllGains(ps, gain, first, n - 1, q);
    }
  }

  lemma CompoundNet(ps: seq<Period>, net: (nat, Query) -> int, m: nat -> int, gain: nat -> int,
                    first: nat, n: nat, asOf: int)
    requires Adjacent(ps, first, n) && MovementsOf(ps, net, m) && (n > 0 ==> asOf > ps[first + n - 1].end)
    requires forall i: nat {:trigger StepAdds(ps, net, gain, first, i)} :: i < n ==> StepAdds(ps, net, gain, first, i)
    ensures net(n, PostedUpTo(asOf)) == net(0, PostedUpTo(asOf)) + Weighted(m, first, n, n) + GainSum(gain, n)
  {
    NetAfterCloses(ps, net, m, gain, first, n, PostedUpTo(asOf));
    forall i | first <= i < first + n
      ensures Covers(PostedUpTo(asOf), ps[i].end + 1) && Covers(PostedUpTo(asOf), ps[i].end)
    {
      EndsInOrder(ps, first, n, i, first + n - 1);
    }
    CarriedIsWeighted(ps, m, first, n, PostedUpTo(asOf));
    AllGains(ps, gain, first, n, PostedUpTo(asOf));
  }

  /* ---------- the closes of a ledger ---------- */

  /** The account's own movement in each period, before any close. */
  function MovementIn(l: Ledger, a: nat): nat -> int {
    (id: nat) => if id < |l.periods| then PostedNet(l.entries, DatesOf(l.periods[id]), a) else 0
  }

  function NetAt(steps: seq<Ledger>, a: nat): (nat, Query) -> int {
    (i: nat, q: Query) => if i < |steps| then PostedNet(steps[i].entries, q, a) else 0
  }

  /** What the closing entry of each step brings to account a. */
  function GainAt(steps: seq<Ledger>, first: nat, a: nat): nat -> int {
    (i: nat) => if i < |steps| then Gain(steps[i], first + i, a) else 0
  }

  /** From mid to after, account a moves over q by what it has over the period, if q holds the
      day after, and by the gain, if q holds the last day. */
  ghost predicate Carries(p: Period, mid: seq<Entry>, after: seq<Entry>, a: nat, gain: int) {
    forall q: Query :: q.status == Some(Posted) ==>
      PostedNet(after, q, a) ==
      PostedNet(mid, q, a) +
      (if Covers(q, p.end + 1) then PostedNet(mid, DatesOf(p), a) else 0) + (if Covers(q, p.end) then gain else 0)
  }

  /** Closing the next period, seen from the first ledger. */
  lemma NextCarries(l: Ledger, mid: Ledger, id: nat, l': Ledger, k: nat)
    requires Consistent(mid) && SamePeriods(l, mid, id) && id < |l.periods| && Records(mid, id, l') && IsSheetAt(l, k)
    ensures Carries(l.periods[id], mid.entries, l'.entries, l.accounts[k].id, Gain(mid, id, l.accounts[k].id))
  {
    forall q: Query | q.status == Some(Posted)
      ensures PostedNet(l'.entries, q, l.accounts[k].id) ==
              PostedNet(mid.entries, q, l.accounts[k].id) +
              (if Covers(q, l.periods[id].end + 1) then PostedNet(mid.entries, DatesOf(l.periods[id]),
                l.accounts[k].id) else 0) +
              (if Covers(q, l.periods[id].end) then Gain(mid, id, l.accounts[k].id) else 0)
    {
      CloseCarries(mid, id, l', k, q);
    }
  }

  /** What one recorded close does, for every ledger that is ok before the close of period id. */
  ghost predicate ClosesCarry(ps: seq<Period>, ok: (Ledger, nat) -> bool, rec: (Ledger, nat, Ledger) -> bool, a: nat) {
    forall mid: Ledger, id: nat, l': Ledger {:trigger rec(mid, id, l')} ::
      id < |ps| && ok(mid, id) && rec(mid, id, l') ==>
        ok(l', id + 1) && Carries(ps[id], mid.entries, l'.entries, a, Gain(mid, id, a))
  }

  lemma {:induction false} StepsCarry(ps: seq<Period>, ok: (Ledger, nat) -> bool, rec: (Ledger, nat, Ledger) -> bool,
                                      a: nat, steps: seq<Ledger>, first: nat, i: nat)
    requires ClosesCarry(ps, ok, rec, a) && AllLinked(rec, steps, first) && ok(steps[0], first)
    requires i + 1 < |steps| && first + i < |ps|
    ensures ok(steps[i], first + i)
    ensures Carries(ps[first + i], steps[i].entries, steps[i + 1].entries, a, Gain(steps[i], first + i, a))
  {
    if i > 0 {
      StepsCarry(ps, ok, rec, a, steps, first, i - 1);
      assert StepLinked(rec, steps, first, i - 1);
    }
    assert StepLinked(rec, steps, first, i);
  }

  lemma CarriedAdds(steps: seq<Ledger>, ps: seq<Period>, first: nat, i: nat, a: nat)
    requires i + 1 < |steps| && first + i < |ps|
    requires Carries(ps[first + i], steps[i].entries, steps[i + 1].entries, a, Gain(steps[i], first + i, a))
    ensures StepAdds(ps, NetAt(steps, a), GainAt(steps, first, a), first, i)
  {
    assert GainAt(steps, first, a)(i) == Gain(steps[i], first + i, a);
    forall q: Query | q.status == Some(Posted)
      ensures NetAt(steps, a)(i + 1, q) ==
              NetAt(steps, a)(i, q) +
              (if Covers(q, ps[first + i].end + 1) then NetAt(steps, a)(i, DatesOf(ps[first + i])) else 0) +
              (if Covers(q, ps[first + i].end) then GainAt(steps, first, a)(i) else 0)
    {
    }
  }

  /** The same numbers for any closes that carry. */
  lemma CarryingCompounds(ps: seq<Period>, ok: (Ledger, nat) -> bool, rec: (Ledger, nat, Ledger) -> bool,
                          a: nat, steps: seq<Ledger>, first: nat, m: nat -> int, asOf: int)
    requires ClosesCarry(ps, ok, rec, a) && AllLinked(rec, steps, first) && ok(steps[0], first)
    requires Adjacent(ps, first, |steps| - 1) && MovementsOf(ps, NetAt(steps, a), m)
    requires |steps| > 1 ==> asOf > ps[first + |steps| - 2].end
    ensures NetAt(steps, a)(|steps| - 1, PostedUpTo(asOf)) ==
            NetAt(steps, a)(0, PostedUpTo(asOf)) + Weighted(m, first, |steps| - 1, |steps| - 1) +
            GainSum(GainAt(steps, first, a), |steps| - 1)
  {
    var n := |steps| - 1;
    forall i: nat | i < n
      ensures StepAdds(ps, NetAt(steps, a), GainAt(steps, first, a), first, i)
    {
      StepsCarry(ps, ok, rec, a, steps, first, i);
      CarriedAdds(steps, ps, first, i, a);
    }
    CompoundNet(ps, NetAt(steps, a), m, GainAt(steps, first, a), first, n, asOf);
  }

  /** The ledgers reached from l by closing periods before id. */
  ghost function OkFrom(l: Ledger): (Ledger, nat) -> bool {
    (mid: Ledger, id: nat) => Consistent(mid) && SamePeriods(l, mid, id)
  }

  lemma RecordedClosesCarry(l: Ledger, k: nat)
    requires IsSheetAt(l, k)
    ensures ClosesCarry(l.periods, OkFrom(l), Recording(), l.accounts[k].id)
  {
    forall mid: Ledger, id: nat, l': Ledger | id < |l.periods| && OkFrom(l)(mid, id) && Recording()(mid, id, l')
      ensures OkFrom(l)(l', id + 1)
      ensures Carries(l.periods[id], mid.entries, l'.entries, l.accounts[k].id, Gain(mid, id, l.accounts[k].id))
    {
      CloseNext(l, mid, id, l');
      NextCarries(l, mid, id, l', k);
    }
  }

  lemma StartOk(l: Ledger, first: nat)
    requires Consistent(l)
    ensures OkFrom(l)(l, first)
  {
  }

  lemma MovementsMatch(steps: seq<Ledger>, a: nat)
    requires steps != []
    ensures MovementsOf(steps[0].periods, NetAt(steps, a), MovementIn(steps[0], a))
  {
  }

  /**
   After n adjacent closes that each record an opening entry, an active balance-sheet account
   shows, at any later date, the movement of the first period n times more than it was posted,
   that of the second n - 1 times more, and so on to once for the last; retained surplus shows
   the income closed into it as well, each once.  By StepsAreRun the last of the steps is the
   ledger after the n close commands.
   */
  lemma OpeningsCompound(steps: seq<Ledger>, first: nat, k: nat, asOf: int)
    requires AllRecord(steps, first) && Consistent(steps[0]) && Adjacent(steps[0].periods, first, |steps| - 1)
    requires IsSheetAt(steps[0], k)
    requires |steps| > 1 ==> asOf > steps[0].periods[first + |steps| - 2].end
    ensures var l, n, a := steps[0], |steps| - 1, steps[0].accounts[k].id;
      PostedNet(steps[n].entries, PostedUpTo(asOf), a) ==
      PostedNet(l.entries, PostedUpTo(asOf), a) + Weighted(MovementIn(l, a), first, n, n) + GainSum(GainAt(steps,
        first, a), n)
  {
    var l := steps[0];
    RecordedClosesCarry(l, k);
    StartOk(l, first);
    MovementsMatch(steps, l.accounts[k].id);
    CarryingCompounds(l.periods, OkFrom(l), Recording(), l.accounts[k].id, steps, first, MovementIn(l,
      l.accounts[k].id), asOf);
  }

  /* ---------- idle periods ---------- */

  ghost predicate AllActive(l: Ledger) {
    forall i :: 0 <= i < |l.accounts| ==> l.accounts[i].active
  }

  /** Period id is open, starts the day after the one before it, and nothing is dated in it. */
  ghost predicate IdleAfter(l: Ledger, id: nat) {
    && 0 < id < |l.periods|
    && l.periods[id].status == Open && l.periods[id].start <= l.periods[id].end
    && l.periods[id].start == l.periods[id - 1].end + 1
    && (forall i :: 0 <= i < |l.entries| ==> !(l.periods[id].start <= l.entries[i].date <= l.periods[id].end))
  }

  lemma {:induction false} NothingSelected(es: seq<Entry>, q: Query)
    requires forall i :: 0 <= i < |es| ==> !Covers(q, es[i].date)
    ensures SelectLines(es, q) == []
  {
    if es != [] {
      NothingSelected(es[..|es| - 1], q);
    }
  }

  /** Over the idle period there is nothing but the opening entry. */
  lemma IdleNet(l: Ledger, id: nat, l': Ledger, k: nat)
    requires Consistent(l) && Records(l, id, l') && IdleAfter(l, id + 1) && k < |l.accounts|
    ensures PostedNet(l'.entries, Dates(l, id + 1), l.accounts[k].id) ==
            SheetPart(PeriodTotals(l, l.periods[id]))(l.accounts[k])
  {
    var c, m, q := l.accounts, PeriodTotals(l, l.periods[id]), Dates(l, id + 1);
    NothingSelected(l.entries, q);
    NetAfterClose(l, id, ClosingEntryLines(c, m, Surplus(l)), OpeningLines(c, m), q, c[k].id);
    OpeningEffect(c, m, k);
  }

  lemma RecordedShape(l: Ledger, id: nat, l': Ledger) returns (closing: seq<Line>, opening: seq<Line>)
    requires Records(l, id, l')
    ensures id < |l.periods| && l' == CloseWith(l, id, closing, opening)
  {
    var m := PeriodTotals(l, l.periods[id]);
    closing, opening := ClosingEntryLines(l.accounts, m, Surplus(l)), OpeningLines(l.accounts, m);
  }

  lemma IdleHasNoDrafts(l: Ledger, id: nat, closing: seq<Line>, opening: seq<Line>)
    requires IdleAfter(l, id + 1)
    ensures DraftCount(CloseWith(l, id, closing, opening), l.periods[id + 1]) == 0
  {
    var p := IsDraftWithin(l.periods[id + 1].start, l.periods[id + 1].end);
    var es := CloseWith(l, id, closing, opening).entries;
    forall e | e in es
      ensures !p(e)
    {
      if e in l.entries {
        var i :| 0 <= i < |l.entries| && l.entries[i] == e;
      }
    }
    NoneKept(es, p);
  }

  lemma NoneKept<T>(s: seq<T>, p: T -> bool)
    requires forall x :: x in s ==> !p(x)
    ensures Where(s, p) == []
  {
    if Where(s, p) != [] {
      WhereMember(s, p, Where(s, p)[0]);
      assert false;
    }
  }

  lemma IdleIncome(l: Ledger, id: nat)
    requires id < |l.periods|
    requires forall k :: 0 <= k < |l.accounts| && IsIncome(l.accounts[k]) ==>
      PostedNet(l.entries, Dates(l, id), l.accounts[k].id) == 0
    ensures ClosedIncome(l, id) == 0
  {
    var h := ClosedPart(l, Dates(l, id));
    ClosedIncomeMeaning(l, id, h);
    TotalZero(l.accounts, h);
  }

  lemma IdleCarries(l: Ledger, id: nat, k: nat)
    requires id < |l.periods| && k < |l.accounts| && IsSheet(l.accounts[k])
    requires PostedNet(l.entries, Dates(l, id), l.accounts[k].id) != 0
    ensures CarriesForward(l.accounts, PeriodTotals(l, l.periods[id]))
  {
    NetOfGroup(SelectLines(l.entries, Dates(l, id)), l.accounts[k].id);
    assert SheetPart(PeriodTotals(l, l.periods[id]))(l.accounts[k]) != 0;
  }

  lemma SomethingCarried(l: Ledger, id: nat, l': Ledger) returns (k: nat)
    requires Consistent(l) && Records(l, id, l')
    ensures id < |l.periods| && k < |l.accounts| && SheetPart(PeriodTotals(l, l.periods[id]))(l.accounts[k]) != 0
  {
    OpeningRecordedIff(l, id);
    k :| 0 <= k < |l.accounts| && SheetPart(PeriodTotals(l, l.periods[id]))(l.accounts[k]) != 0;
  }

  /** Some account has something to carry. */
  lemma IdleSheet(l: Ledger, id: nat, l': Ledger) returns (k: nat)
    requires Consistent(l) && Records(l, id, l') && IdleAfter(l, id + 1)
    ensures k < |l.accounts| && IsSheet(l.accounts[k])
    ensures PostedNet(l'.entries, Dates(l, id + 1), l.accounts[k].id) != 0
  {
    k := SomethingCarried(l, id, l');
    IdleNet(l, id, l', k);
  }

  /** Closing period id would be break-even with something to carry. */
  ghost predicate ReadyToCarry(l: Ledger, id: nat) {
    && Consistent(l) && AllActive(l) && id < |l.periods| && l.periods[id].status == Open
    && DraftCount(l, l.periods[id]) == 0 && FindSurplus(l.accounts).Some?
    && CarriesForward(l.accounts, PeriodTotals(l, l.periods[id])) && ClosedIncome(l, id) == 0
  }

  lemma ReadyRecords(l: Ledger, id: nat)
    requires ReadyToCarry(l, id)
    ensures ClosePeriod(l, id).Ok? && Records(l, id, ClosePeriod(l, id).value)
  {
    CloseNeverUnbalanced(l, id);
    OpeningNeedsBreakEven(l, id);
  }

  lemma IdleDraftFree(l: Ledger, id: nat, l': Ledger)
    requires Records(l, id, l') && IdleAfter(l, id + 1)
    ensures DraftCount(l', l.periods[id + 1]) == 0 && FindSurplus(l.accounts).Some?
  {
    var closing, opening := RecordedShape(l, id, l');
    IdleHasNoDrafts(l, id, closing, opening);
  }

  /** No income account has anything in the idle period. */
  lemma IdleResult(l: Ledger, id: nat, l': Ledger)
    requires Consistent(l) && Records(l, id, l') && IdleAfter(l, id + 1)
    ensures forall k :: 0 <= k < |l.accounts| && IsIncome(l.accounts[k]) ==>
      PostedNet(l'.entries, Dates(l, id + 1), l.accounts[k].id) == 0
  {
    forall k | 0 <= k < |l.accounts| && IsIncome(l.accounts[k])
      ensures PostedNet(l'.entries, Dates(l, id + 1), l.accounts[k].id) == 0
    {
      IdleNet(l, id, l', k);
    }
  }

  /** With all accounts active, a recorded opening entry makes the close of an idle period after
      it break-even with something to carry, so that it is recorded again. */
  lemma IdlePeriodCarries(l: Ledger, id: nat, l': Ledger)
    requires Consistent(l) && AllActive(l) && Records(l, id, l') && IdleAfter(l, id + 1)
    ensures ReadyToCarry(l', id + 1)
  {
    CloseNext(l, l, id, l');
    IdleDraftFree(l, id, l');
    IdleResult(l, id, l');
    var k := IdleSheet(l, id, l');
    IdleIncome(l', id + 1);
    IdleCarries(l', id + 1, k);
  }
}
