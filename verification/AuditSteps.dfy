/**
 What the audit consumer does with each kind of delivery, step by step: a malformed message is
 dropped for good, the hundredth event flushes, and the table gets exactly the valid events.
 */
module AuditSteps {
  import opened Sums
  import opened AuditConsumer

  /* ---------- malformed messages ---------- */

  predicate ReceivesMalformed(s: State) {
    && s.channelUp && s.buffer != [] && s.buffer[0] < |s.published|
    && s.published[s.buffer[0]].Malformed?
  }

  /** On a live channel a malformed delivery is discarded, not requeued, and nothing else moves. */
  lemma MalformedIsDiscarded(s: State, outcome: InsertOutcome, loss: nat)
    requires ReceivesMalformed(s)
    ensures var t := Do(s, Receive(outcome, loss));
      && t.discarded == s.discarded + {s.buffer[0]}
      && t.unacked == s.unacked - {s.buffer[0]}
      && t.buffer == s.buffer[1..]
      && t.ready == s.ready && t.acked == s.acked && t.rows == s.rows && t.batch == s.batch && t.pending == s.pending
      && t.published == s.published && t.channelUp
  {
  }

  lemma {:induction false} SettleAllDiscards(s: State, ms: seq<nat>, how: How, loss: nat)
    requires how != Discard
    ensures SettleAll(s, ms, how, loss).discarded == s.discarded
  {
    if ms != [] {
      SettleAllDiscards(s, ms[..|ms| - 1], how, loss);
    }
  }

  lemma FlushDiscards(s: State, outcome: InsertOutcome, loss: nat)
    ensures Flush(s, outcome, loss).discarded == s.discarded
  {
    if s.batch != [] {
      SettleAllDiscards(Stored(s, s.batch, outcome), s.pending, Answer(outcome), loss);
    }
  }

  lemma DiscardsStay(s: State, a: Action)
    requires Enabled(s, a)
    ensures s.discarded <= Do(s, a).discarded
  {
    match a
    case Tick(outcome, loss) => FlushDiscards(s, outcome, loss);
    case SeeClosed(outcome) => FlushDiscards(s, outcome, 0);
    case Receive(outcome, loss) =>
      if s.published[s.buffer[0]].WellFormed? {
        var e := s.published[s.buffer[0]].event;
        var collected := s.(buffer := s.buffer[1..], batch := s.batch + [e], pending := s.pending + [s.buffer[0]]);
        FlushDiscards(collected, outcome, loss);
      }
    case _ =>
  }

  lemma {:induction false} DiscardsStayOverRuns(actions: seq<Action>, k: nat)
    requires k <= |actions|
    ensures Run(actions[..k]).discarded <= Run(actions).discarded
  {
    if k < |actions| {
      var before := actions[..|actions| - 1];
      assert before[..k] == actions[..k];
      DiscardsStayOverRuns(before, k);
      if Enabled(Run(before), actions[|actions| - 1]) {
        DiscardsStay(Run(before), actions[|actions| - 1]);
      }
    } else {
      assert actions[..k] == actions;
    }
  }

  /** Over every run, a malformed message received on a live channel is discarded from then on, and
      so never delivered or stored again. */
  lemma MalformedStaysDiscarded(actions: seq<Action>, k: nat)
    requires k < |actions| && actions[k].Receive? && ReceivesMalformed(Run(actions[..k]))
    ensures var m := Run(actions[..k]).buffer[0];
      var s := Run(actions);
      m in s.discarded && m !in s.ready && m !in s.unacked && m !in s.acked
  {
    var s := Run(actions[..k]);
    assert actions[..k + 1][..k] == actions[..k];
    MalformedIsDiscarded(s, actions[k].onReceive, actions[k].receiveLoss);
    assert s.buffer[0] in Run(actions[..k + 1]).discarded;
    DiscardsStayOverRuns(actions, k + 1);
    EveryRunKeeps(actions);
  }

  /* ---------- the hundredth event ---------- */

  predicate ReceivesEvent(s: State, e: Event) {
    s.buffer != [] && s.buffer[0] < |s.published| && s.published[s.buffer[0]] == WellFormed(e)
  }

  /** Up to 99 events are only collected; the hundredth is flushed with the others at once. */
  lemma HundredthFlushes(s: State, e: Event, outcome: InsertOutcome, loss: nat)
    requires ReceivesEvent(s, e)
    ensures var t := Do(s, Receive(outcome, loss));
      && (|s.batch| < 99 ==>
            t == s.(buffer := s.buffer[1..], batch := s.batch + [e], pending := s.pending + [s.buffer[0]]))
      && (|s.batch| >= 99 ==> t.batch == [] && t.pending == [])
  {
  }

  /* ---------- the table ---------- */

  predicate AllValid(rows: seq<Event>) {
    forall i :: 0 <= i < |rows| ==> rows[i].validTenant
  }

  lemma {:induction false} KeptAreValid(es: seq<Event>)
    ensures AllValid(Where(es, HasValidTenant()))
  {
    if es != [] {
      KeptAreValid(es[..|es| - 1]);
    }
  }

  lemma FlushKeepsValid(s: State, outcome: InsertOutcome, loss: nat)
    requires AllValid(s.rows)
    ensures AllValid(Flush(s, outcome, loss).rows)
  {
    KeptAreValid(s.batch);
    SettleAllFrame(Stored(s, s.batch, outcome), s.pending, Answer(outcome), loss);
  }

  lemma StepKeepsValid(s: State, a: Action)
    requires AllValid(s.rows) && Enabled(s, a)
    ensures AllValid(Do(s, a).rows)
  {
    match a
    case Tick(outcome, loss) => FlushKeepsValid(s, outcome, loss);
    case SeeClosed(outcome) => FlushKeepsValid(s, outcome, 0);
    case Receive(outcome, loss) =>
      if s.published[s.buffer[0]].WellFormed? {
        var e := s.published[s.buffer[0]].event;
        var collected := s.(buffer := s.buffer[1..], batch := s.batch + [e], pending := s.pending + [s.buffer[0]]);
        FlushKeepsValid(collected, outcome, loss);
      }
    case _ =>
  }

  /** No event whose tenant id is not a UUID is ever stored. */
  lemma {:induction false} OnlyValidStored(actions: seq<Action>)
    ensures AllValid(Run(actions).rows)
  {
    if actions != [] {
      var before := actions[..|actions| - 1];
      OnlyValidStored(before);
      if Enabled(Run(before), actions[|actions| - 1]) {
        StepKeepsValid(Run(before), actions[|actions| - 1]);
      }
    }
  }

  /** Unless the insert fails, a flush adds each valid event as often as the batch holds it, and no
      other; a failed insert adds nothing. */
  lemma FlushStores(s: State, outcome: InsertOutcome, loss: nat, e: Event)
    ensures Total(Flush(s, outcome, loss).rows, Equals(e)) ==
            Total(s.rows, Equals(e)) + (if outcome != Failed && e.validTenant then Total(s.batch, Equals(e)) else 0)
  {
    SettleAllFrame(Stored(s, s.batch, outcome), s.pending, Answer(outcome), loss);
    TotalConcat(s.rows, Where(s.batch, HasValidTenant()), Equals(e));
    TotalWhere(s.batch, HasValidTenant(), Equals(e), EqualsValid(e));
    if e.validTenant {
      TotalSame(s.batch, EqualsValid(e), Equals(e));
    } else {
      TotalZero(s.batch, EqualsValid(e));
    }
  }

  function EqualsValid(e: Event): Event -> int {
    (x: Event) => if x.validTenant && x == e then 1 else 0
  }
}
