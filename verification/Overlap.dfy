/**
 Ledger commands that overlap.  The store has no concurrency token: a handler loads what it
 needs, decides, and saves its changes later, when others may have saved theirs.  Balance
 survives every interleaving; the reversal links and the freeze of a closed period do not.
 */
module Overlap {
  import opened Basics
  import opened Sums
  import opened Chart
  import opened Journal
  import opened Reports
  import opened Closing
  import opened Ledgers
  import opened CloseTheorems

  /** Changes a handler has decided on and not saved yet. */
  datatype Pending =
    | SaveEntry(entry: Entry)
    | SavePost(post: nat)
    | SaveReversal(original: nat, lines: seq<Line>, today: int)
    | SaveClose(period: nat, closing: seq<Line>, opening: seq<Line>)

  datatype State = State(ledger: Ledger, pending: map<nat, Pending>)

  datatype Action = Load(task: nat, cmd: Command) | Save(saved: nat)

  /** What the handler decides from the ledger it sees; None if it fails. */
  function Decided(l: Ledger, cmd: Command): Option<Pending> {
    if Apply(l, cmd).Err? then None
    else
      match cmd
      case NewEntry(date, period, ls) => Some(SaveEntry(Entry(date, Draft, period, None, None, ls)))
      case Post(id) => Some(SavePost(id))
      case Reverse(id, today) => Some(SaveReversal(id, l.entries[id].lines, today))
      case Close(id) =>
        var m := PeriodTotals(l, l.periods[id]);
        Some(SaveClose(id, ClosingEntryLines(l.accounts, m, Surplus(l)), OpeningLines(l.accounts, m)))
      case OnChart(_) => None
      case NewPeriod(_, _) => None
  }

  /** Saving writes the changed columns and the new rows, whatever has happened since. */
  function Saved(l: Ledger, p: Pending): Ledger {
    match p
    case SaveEntry(e) => l.(entries := l.entries + [e])
    case SavePost(id) =>
      if id < |l.entries| then l.(entries := l.entries[id := l.entries[id].(status := Posted)]) else l
    case SaveReversal(id, ls, today) =>
      if id < |l.entries| then
        var marked := l.entries[id].(status := Reversed, reversedBy := Some(|l.entries|));
        l.(entries := l.entries[id := marked] + [Entry(today, Posted, None, None, Some(id), Swapped(ls))])
      else l
    case SaveClose(id, closing, opening) => if id < |l.periods| then CloseWith(l, id, closing, opening) else l
  }

  /** Chart and period commands are single inserts or updates and run at once. */
  function Do(s: State, a: Action): State {
    match a
    case Load(task, cmd) =>
      if cmd.OnChart? || cmd.NewPeriod? then s.(ledger := Step(s.ledger, cmd))
      else
        var p := Decided(s.ledger, cmd);
        if p.None? || task in s.pending then s else s.(pending := s.pending[task := p.value])
    case Save(task) =>
      if task in s.pending then State(Saved(s.ledger, s.pending[task]), s.pending - {task}) else s
  }

  function RunAll(actions: seq<Action>): State {
    if actions == [] then State(EMPTY, map[]) else Do(RunAll(actions[..|actions| - 1]), actions[|actions| - 1])
  }

  lemma AloneClose(l: Ledger, id: nat)
    requires ClosePeriod(l, id).Ok?
    ensures Saved(l, Decided(l, Close(id)).value) == ClosePeriod(l, id).value
  {
  }

  lemma AloneReverse(l: Ledger, id: nat, today: int)
    requires ReverseEntry(l, id, today).Ok?
    ensures Saved(l, Decided(l, Reverse(id, today)).value) == Step(l, Reverse(id, today))
  {
  }

  lemma AlonePost(l: Ledger, id: nat)
    requires PostEntry(l, id).Ok?
    ensures Saved(l, Decided(l, Post(id)).value) == Step(l, Post(id))
  {
  }

  lemma AloneCreate(l: Ledger, date: int, period: Option<nat>, ls: seq<Line>)
    requires CreateEntry(l, date, period, ls).Ok?
    ensures Saved(l, Decided(l, NewEntry(date, period, ls)).value) == Step(l, NewEntry(date, period, ls))
  {
  }

  /** A handler that nobody interrupts takes the state machine's step. */
  lemma AloneIsStep(l: Ledger, cmd: Command)
    requires Decided(l, cmd).Some?
    ensures Saved(l, Decided(l, cmd).value) == Step(l, cmd)
  {
    match cmd
    case NewEntry(date, period, ls) => AloneCreate(l, date, period, ls);
    case Post(id) => AlonePost(l, id);
    case Reverse(id, today) => AloneReverse(l, id, today);
    case Close(id) =>
      AloneClose(l, id);
      StepClose(l, id);
  }

  /* ---------- what survives ---------- */

  /** Lines have one positive side, and entries that are not drafts balance. */
  predicate EntrySound(e: Entry) {
    AllOneSided(e.lines) && (e.status != Draft ==> IsBalanced(e.lines))
  }

  ghost predicate Sound(l: Ledger) {
    && WellFormed(l.accounts)
    && (forall i :: 0 <= i < |l.entries| ==> EntrySound(l.entries[i]) && LinesCharted(l.accounts, l.entries[i].lines))
  }

  /** Lines that may be posted, on accounts of the chart. */
  ghost predicate Postable(l: Ledger, ls: seq<Line>) {
    AllOneSided(ls) && IsBalanced(ls) && LinesCharted(l.accounts, ls)
  }

  ghost predicate PendingSound(l: Ledger, p: Pending) {
    match p
    case SaveEntry(e) => EntrySound(e) && LinesCharted(l.accounts, e.lines)
    case SavePost(id) => id < |l.entries| && IsBalanced(l.entries[id].lines)
    case SaveReversal(id, ls, _) => id < |l.entries| && ls == l.entries[id].lines && Postable(l, ls)
    case SaveClose(id, closing, opening) =>
      && (closing != [] ==> Postable(l, closing))
      && (opening != [] && IsBalanced(opening) ==> Postable(l, opening))
  }

  ghost predicate Inv(s: State) {
    Sound(s.ledger) && forall task :: task in s.pending ==> PendingSound(s.ledger, s.pending[task])
  }

  /** Entries keep their lines, and no account is lost. */
  ghost predicate Later(l: Ledger, l': Ledger) {
    && Extends(l.accounts, l'.accounts)
    && |l.entries| <= |l'.entries|
    && (forall i :: 0 <= i < |l.entries| ==> l'.entries[i].lines == l.entries[i].lines)
  }

  lemma ChartedLater(c: seq<Account>, d: seq<Account>, ls: seq<Line>)
    requires Extends(c, d) && LinesCharted(c, ls)
    ensures LinesCharted(d, ls)
  {
    forall i | 0 <= i < |ls|
      ensures HasId(d, ls[i].account)
    {
      ExtendsKeepsIds(c, d, ls[i].account);
    }
  }

  lemma PendingLater(l: Ledger, l': Ledger, p: Pending)
    requires PendingSound(l, p) && Later(l, l')
    ensures PendingSound(l', p)
  {
    match p
    case SaveEntry(e) => ChartedLater(l.accounts, l'.accounts, e.lines);
    case SavePost(id) =>
    case SaveReversal(id, ls, _) => ChartedLater(l.accounts, l'.accounts, ls);
    case SaveClose(id, closing, opening) =>
      if closing != [] { ChartedLater(l.accounts, l'.accounts, closing); }
      if opening != [] && IsBalanced(opening) { ChartedLater(l.accounts, l'.accounts, opening); }
  }

  lemma ClosingCharted(c: seq<Account>, m: map<nat, Totals>, surplus: Account)
    requires surplus in c
    ensures LinesCharted(c, ClosingEntryLines(c, m, surplus.id))
  {
    ClosingLinesCharted(c, c, m);
    SurplusCharted(c, surplus, NetIncome(c, m));
  }

  lemma ClosesSoundly(l: Ledger, id: nat, m: map<nat, Totals>, surplus: Account)
    requires surplus in l.accounts
    ensures PendingSound(l, SaveClose(id, ClosingEntryLines(l.accounts, m, surplus.id), OpeningLines(l.accounts, m)))
  {
    ClosingEntryBalances(l.accounts, m, surplus.id);
    ClosingCharted(l.accounts, m, surplus);
    OpeningLinesSum(l.accounts, m);
    OpeningLinesCharted(l.accounts, l.accounts, m);
  }

  lemma CloseDecides(l: Ledger, id: nat)
    requires ClosePeriod(l, id).Ok?
    ensures PendingSound(l, Decided(l, Close(id)).value)
  {
    ClosesSoundly(l, id, PeriodTotals(l, l.periods[id]), FindSurplus(l.accounts).value);
  }

  lemma DecidedSound(l: Ledger, cmd: Command)
    requires Sound(l) && Decided(l, cmd).Some?
    ensures PendingSound(l, Decided(l, cmd).value)
  {
    match cmd
    case NewEntry(_, _, _) =>
    case Post(id) =>
    case Reverse(id, _) =>
    case Close(id) => CloseDecides(l, id);
  }

  lemma SwapSound(l: Ledger, ls: seq<Line>)
    requires Postable(l, ls)
    ensures Postable(l, Swapped(ls))
  {
    SwappedTotals(ls);
  }

  lemma AppendSound(l: Ledger, e: Entry)
    requires Sound(l) && EntrySound(e) && LinesCharted(l.accounts, e.lines)
    ensures Sound(l.(entries := l.entries + [e])) && Later(l, l.(entries := l.entries + [e]))
  {
    ExtendsReflexive(l.accounts);
  }

  lemma MarkSound(l: Ledger, id: nat, e: Entry)
    requires Sound(l) && id < |l.entries| && e.lines == l.entries[id].lines && EntrySound(e)
    ensures Sound(l.(entries := l.entries[id := e])) && Later(l, l.(entries := l.entries[id := e]))
  {
    ExtendsReflexive(l.accounts);
  }

  lemma LaterTransitive(l: Ledger, m: Ledger, n: Ledger)
    requires Later(l, m) && Later(m, n)
    ensures Later(l, n)
  {
    ExtendsTransitive(l.accounts, m.accounts, n.accounts);
  }

  /** Entries that may be missing. */
  lemma AppendSome(l: Ledger, es: seq<Entry>)
    requires Sound(l) && |es| <= 1
    requires forall i :: 0 <= i < |es| ==> EntrySound(es[i]) && LinesCharted(l.accounts, es[i].lines)
    ensures Sound(l.(entries := l.entries + es)) && Later(l, l.(entries := l.entries + es))
  {
    if es == [] {
      assert l.entries + es == l.entries;
      ExtendsReflexive(l.accounts);
    } else {
      assert es == [es[0]];
      AppendSound(l, es[0]);
    }
  }

  lemma SavedReversalSound(l: Ledger, id: nat, ls: seq<Line>, today: int)
    requires Sound(l) && PendingSound(l, SaveReversal(id, ls, today))
    ensures Sound(Saved(l, SaveReversal(id, ls, today))) && Later(l, Saved(l, SaveReversal(id, ls, today)))
  {
    var marked := l.entries[id].(status := Reversed, reversedBy := Some(|l.entries|));
    var mid := l.(entries := l.entries[id := marked]);
    MarkSound(l, id, marked);
    SwapSound(l, ls);
    AppendSound(mid, Entry(today, Posted, None, None, Some(id), Swapped(ls)));
    LaterTransitive(l, mid, Saved(l, SaveReversal(id, ls, today)));
  }

  lemma SavedCloseSound(l: Ledger, id: nat, closing: seq<Line>, opening: seq<Line>)
    requires Sound(l) && PendingSound(l, SaveClose(id, closing, opening)) && id < |l.periods|
    ensures Sound(CloseWith(l, id, closing, opening)) && Later(l, CloseWith(l, id, closing, opening))
  {
    var end := l.periods[id].end;
    var mid := l.(entries := l.entries + ClosingEntry(end, id, closing));
    AppendSome(l, ClosingEntry(end, id, closing));
    AppendSome(mid, OpeningEntry(end, opening));
    LaterTransitive(l, mid, mid.(entries := mid.entries + OpeningEntry(end, opening)));
    assert CloseWith(l, id, closing, opening).entries == mid.entries + OpeningEntry(end, opening);
  }

  lemma SavedSound(l: Ledger, p: Pending)
    requires Sound(l) && PendingSound(l, p)
    ensures Sound(Saved(l, p)) && Later(l, Saved(l, p))
  {
    match p
    case SaveEntry(e) => AppendSound(l, e);
    case SavePost(id) => MarkSound(l, id, l.entries[id].(status := Posted));
    case SaveReversal(id, ls, today) => SavedReversalSound(l, id, ls, today);
    case SaveClose(id, closing, opening) =>
      if id < |l.periods| {
        SavedCloseSound(l, id, closing, opening);
      } else {
        ExtendsReflexive(l.accounts);
      }
  }

  lemma AtOnceSound(l: Ledger, cmd: Command)
    requires Sound(l) && (cmd.OnChart? || cmd.NewPeriod?)
    ensures Sound(Step(l, cmd)) && Later(l, Step(l, cmd))
  {
    ExtendsReflexive(l.accounts);
    if cmd.OnChart? && Apply(l, cmd).Ok? {
      ChartCommandKeeps(l.accounts, cmd.chart);
      var l' := Step(l, cmd);
      forall i | 0 <= i < |l.entries|
        ensures LinesCharted(l'.accounts, l.entries[i].lines)
      {
        ChartedLater(l.accounts, l'.accounts, l.entries[i].lines);
      }
    }
  }

  lemma DoKeeps(s: State, a: Action)
    requires Inv(s)
    ensures Inv(Do(s, a))
  {
    var t := Do(s, a);
    match a
    case Load(task, cmd) =>
      if cmd.OnChart? || cmd.NewPeriod? {
        AtOnceSound(s.ledger, cmd);
      } else if Decided(s.ledger, cmd).Some? {
        DecidedSound(s.ledger, cmd);
      }
    case Save(task) =>
      if task in s.pending { SavedSound(s.ledger, s.pending[task]); }
    forall x | x in t.pending && x in s.pending && t.pending[x] == s.pending[x] && Later(s.ledger, t.ledger)
      ensures PendingSound(t.ledger, t.pending[x])
    {
      PendingLater(s.ledger, t.ledger, s.pending[x]);
    }
    ExtendsReflexive(s.ledger.accounts);
  }

  /** However the handlers interleave, stored lines have one positive side, and posted or
      reversed entries balance with a positive total. */
  lemma {:induction false} BalanceSurvives(actions: seq<Action>)
    ensures Inv(RunAll(actions))
  {
    if actions != [] {
      BalanceSurvives(actions[..|actions| - 1]);
      DoKeeps(RunAll(actions[..|actions| - 1]), actions[|actions| - 1]);
    }
  }

  /** So the reports still balance. */
  lemma ReportsSurvive(actions: seq<Action>, from: int, asOf: int)
    ensures var l := RunAll(actions).ledger;
      var tb := GetTrialBalance(l.accounts, l.entries, asOf);
      tb.totalDebits == tb.totalCredits == Total(l.entries, Share(PostedUpTo(asOf), All(Debit)))
    ensures var l := RunAll(actions).ledger;
      var sheet := GetBalanceSheet(l.accounts, l.entries, asOf);
      (forall i :: 0 <= i < |l.entries| ==> from <= l.entries[i].date) ==>
        sheet.totalAssets + sheet.totalLiabilities + sheet.totalEquity ==
        GetProfitAndLoss(l.accounts, l.entries, from, asOf).netIncome
  {
    var l := RunAll(actions).ledger;
    BalanceSurvives(actions);
    assert PostedBalanced(l.entries) && Charted(l.accounts, l.entries);
    TrialBalanceBalances(l.accounts, l.entries, asOf);
    if forall i :: 0 <= i < |l.entries| ==> from <= l.entries[i].date {
      BalanceSheetIsNetIncome(l.accounts, l.entries, from, asOf);
    }
  }

  /* ---------- what does not ---------- */

  /** Two overlapping reversals of one entry both go through: two posted entries reverse it, and
      its own link names only the second. */
  lemma ReversedTwice(l: Ledger, id: nat, today: int)
    requires ReverseEntry(l, id, today).Ok?
    ensures var p := Decided(l, Reverse(id, today)).value;
      var n, l' := |l.entries|, Saved(Saved(l, p), p);
      && |l'.entries| == n + 2
      && l'.entries[n].reversalOf == l'.entries[n + 1].reversalOf == Some(id)
      && l'.entries[n].status == l'.entries[n + 1].status == Posted
      && l'.entries[id].reversedBy == Some(n + 1)
  {
  }

  /** An entry created for a period that is closed before it is saved ends up in the closed
      period. */
  lemma EntersClosedPeriod(l: Ledger, date: int, p: nat, ls: seq<Line>)
    requires CreateEntry(l, date, Some(p), ls).Ok? && ClosePeriod(l, p).Ok?
    ensures var closed := Saved(l, Decided(l, Close(p)).value);
      var l' := Saved(closed, Decided(l, NewEntry(date, Some(p), ls)).value);
      && p < |l'.periods| && l'.periods[p].status == Closed
      && l'.entries == closed.entries + [Entry(date, Draft, Some(p), None, None, ls)]
  {
    AloneIsStep(l, Close(p));
    StepClose(l, p);
  }
}
