/**
 When the audit consumer stores every event exactly once: the table holds one row per
 acknowledged message if and only if no flush of the run stores an event whose message it
 does not then acknowledge.
 */
module AuditExact {
  import opened Sums
  import opened AuditConsumer

  /** Every event with a valid tenant has as many rows as acknowledged messages. */
  ghost predicate ExactlyOnce(s: State) {
    forall e: Event :: e.validTenant ==> Total(s.rows, Equals(e)) == Total(s.acked, Carries(s.published, e))
  }

  /** How many of the pending deliveries a flush acknowledges. */
  function Acknowledged(s: State, outcome: InsertOutcome, loss: nat): nat {
    if outcome != Committed || !s.channelUp then 0
    else if loss < |s.pending| then loss else |s.pending|
  }

  /** The flush stores an event and leaves its message with the broker. */
  predicate Wastes(s: State, outcome: InsertOutcome, loss: nat) {
    outcome != Failed && exists i :: Acknowledged(s, outcome, loss) <= i < |s.batch| && s.batch[i].validTenant
  }

  function Collecting(s: State, m: nat, e: Event): State {
    s.(batch := s.batch + [e], pending := s.pending + [m])
  }

  /** The action flushes, on a tick, a full batch or a closed channel, and the flush wastes. */
  predicate WastesAt(s: State, a: Action) {
    match a
    case Tick(outcome, loss) => Wastes(s, outcome, loss)
    case SeeClosed(outcome) => Wastes(s, outcome, 0)
    case Receive(outcome, loss) =>
      && s.buffer != [] && s.buffer[0] < |s.published| && s.published[s.buffer[0]].WellFormed?
      && |s.batch| + 1 >= BATCH_SIZE
      && Wastes(Collecting(s, s.buffer[0], s.published[s.buffer[0]].event), outcome, loss)
    case _ => false
  }

  ghost predicate NeverWastes(actions: seq<Action>) {
    actions != [] ==>
      var before, a := actions[..|actions| - 1], actions[|actions| - 1];
      NeverWastes(before) && (Enabled(Run(before), a) ==> !WastesAt(Run(before), a))
  }

  /* ---------- what a flush acknowledges ---------- */

  lemma {:induction false} AckPrefix(s: State, ms: seq<nat>, loss: nat)
    requires s.channelUp
    ensures SettleAll(s, ms, Ack, loss).acked == s.acked + ms[..if loss < |ms| then loss else |ms|]
    ensures SettleAll(s, ms, Ack, loss).channelUp <==> loss >= |ms|
  {
    if ms != [] {
      var n := |ms| - 1;
      AckPrefix(s, ms[..n], loss);
      if loss < n {
        assert ms[..n][..loss] == ms[..loss];
      } else if loss > n {
        assert s.acked + ms == s.acked + ms[..n] + [ms[n]];
      }
    }
  }

  lemma {:induction false} AckNone(s: State, ms: seq<nat>, loss: nat)
    requires !s.channelUp
    ensures SettleAll(s, ms, Ack, loss).acked == s.acked && !SettleAll(s, ms, Ack, loss).channelUp
  {
    if ms != [] {
      AckNone(s, ms[..|ms| - 1], loss);
    }
  }

  lemma FlushAcks(s: State, outcome: InsertOutcome, loss: nat)
    requires Aligned(s)
    ensures Flush(s, outcome, loss).acked == s.acked + s.pending[..Acknowledged(s, outcome, loss)]
  {
    var stored := Stored(s, s.batch, outcome);
    if s.batch != [] {
      if outcome != Committed {
        SettleAllFrame(stored, s.pending, Requeue, loss);
      } else if s.channelUp {
        AckPrefix(stored, s.pending, loss);
      } else {
        AckNone(stored, s.pending, loss);
      }
    }
  }

  lemma FlushRows(s: State, outcome: InsertOutcome, loss: nat)
    ensures Flush(s, outcome, loss).published == s.published
    ensures Flush(s, outcome, loss).rows == if outcome ==
            Failed then s.rows else s.rows + Where(s.batch, HasValidTenant())
  {
    if s.batch == [] {
      assert s.rows + [] == s.rows;
    } else {
      SettleAllFrame(Stored(s, s.batch, outcome), s.pending, Answer(outcome), loss);
    }
  }

  /* ---------- rows without an acknowledgement ---------- */

  function Excess(s: State, e: Event): int {
    Total(s.rows, Equals(e)) - Total(s.acked, Carries(s.published, e))
  }

  /** What a flush adds to the excess of an event. */
  function Wasted(s: State, outcome: InsertOutcome, loss: nat): seq<Event>
    requires |s.pending| <= |s.batch|
  {
    if outcome == Failed then [] else s.batch[Acknowledged(s, outcome, loss)..]
  }

  /** Storing a batch and acknowledging its first k messages leaves the rest in excess. */
  lemma BatchExcess(published: seq<Body>, rows: seq<Event>, acked: seq<nat>, batch: seq<Event>, pending: seq<nat>,
                    k: nat, e: Event)
    requires |batch| == |pending| && k <= |pending| && e.validTenant
    requires forall i :: 0 <= i < |pending| ==>
      pending[i] < |published| && published[pending[i]] == WellFormed(batch[i])
    ensures Total(rows + Where(batch, HasValidTenant()), Equals(e)) - Total(acked + pending[..k],
            Carries(published, e)) ==
            Total(rows, Equals(e)) - Total(acked, Carries(published, e)) + Total(batch[k..], Equals(e))
  {
    TotalWhere(batch, HasValidTenant(), Equals(e), Equals(e));
    TotalConcat(rows, Where(batch, HasValidTenant()), Equals(e));
    TotalConcat(acked, pending[..k], Carries(published, e));
    BatchCarries(published, batch[..k], pending[..k], e);
    TotalConcat(batch[..k], batch[k..], Equals(e));
    assert batch == batch[..k] + batch[k..];
  }

  lemma FlushExcess(s: State, outcome: InsertOutcome, loss: nat, e: Event)
    requires Aligned(s) && e.validTenant
    ensures Excess(Flush(s, outcome, loss), e) == Excess(s, e) + Total(Wasted(s, outcome, loss), Equals(e))
  {
    var k := Acknowledged(s, outcome, loss);
    FlushAcks(s, outcome, loss);
    FlushRows(s, outcome, loss);
    if outcome == Failed {
      assert s.acked + s.pending[..k] == s.acked;
    } else {
      BatchExcess(s.published, s.rows, s.acked, s.batch, s.pending, k, e);
    }
  }

  /** A wasted event is missed by the count of that event, and nothing else is. */
  lemma WasteShows(s: State, outcome: InsertOutcome, loss: nat)
    requires Aligned(s)
    ensures Wastes(s, outcome, loss) <==>
      exists e: Event :: e.validTenant && Total(Wasted(s, outcome, loss), Equals(e)) > 0
  {
    var wasted, k := Wasted(s, outcome, loss), Acknowledged(s, outcome, loss);
    if Wastes(s, outcome, loss) {
      var i :| k <= i < |s.batch| && s.batch[i].validTenant;
      assert wasted[i - k] == s.batch[i];
      Occurs(wasted, s.batch[i]);
    }
    if e: Event :| e.validTenant && Total(wasted, Equals(e)) > 0 {
      Uncounted(wasted, e);
      var j :| 0 <= j < |wasted| && wasted[j] == e;
      assert s.batch[k + j] == e;
    }
  }

  lemma {:induction false} Occurs(es: seq<Event>, e: Event)
    requires e in es
    ensures Total(es, Equals(e)) > 0
  {
    var n := |es| - 1;
    TotalNonNegative(es[..n], Equals(e));
    if es[n] != e {
      assert es == es[..n] + [es[n]];
      Occurs(es[..n], e);
    }
  }

  /** Excess never goes below zero or shrinks, so a flush keeps it at zero only without waste. */
  lemma FlushExact(s: State, outcome: InsertOutcome, loss: nat)
    requires Aligned(s) && Funded(s)
    ensures ExactlyOnce(Flush(s, outcome, loss)) <==> ExactlyOnce(s) && !Wastes(s, outcome, loss)
  {
    var t := Flush(s, outcome, loss);
    forall e: Event | e.validTenant
      ensures Excess(t, e) == Excess(s, e) + Total(Wasted(s, outcome, loss), Equals(e))
      ensures Excess(s, e) >= 0 && Total(Wasted(s, outcome, loss), Equals(e)) >= 0
    {
      FlushExcess(s, outcome, loss, e);
      TotalNonNegative(Wasted(s, outcome, loss), Equals(e));
    }
    ExcessIsExact(s);
    ExcessIsExact(t);
    WasteShows(s, outcome, loss);
  }

  lemma ExcessIsExact(s: State)
    ensures ExactlyOnce(s) <==> forall e: Event :: e.validTenant ==> Excess(s, e) == 0
  {
    if forall e: Event :: e.validTenant ==> Excess(s, e) == 0 {
      forall e: Event | e.validTenant
        ensures Total(s.rows, Equals(e)) == Total(s.acked, Carries(s.published, e))
      {
        assert Excess(s, e) == 0;
      }
    }
  }

  /* ---------- every step ---------- */

  /** A step that stores and acknowledges nothing. */
  lemma QuietExact(s: State, t: State)
    requires SettledRight(s) && t.rows == s.rows && t.acked == s.acked && s.published <= t.published
    ensures ExactlyOnce(t) <==> ExactlyOnce(s)
  {
    forall e: Event
      ensures Total(t.acked, Carries(t.published, e)) == Total(s.acked, Carries(s.published, e))
    {
      forall i | 0 <= i < |s.acked|
        ensures Carries(s.published, e)(s.acked[i]) == Carries(t.published, e)(s.acked[i])
      {
        assert s.acked[i] in s.acked;
      }
      TotalSame(s.acked, Carries(s.published, e), Carries(t.published, e));
    }
  }

  lemma ReceiveExact(s: State, outcome: InsertOutcome, loss: nat)
    requires Inv(s) && Enabled(s, Receive(outcome, loss))
    ensures ExactlyOnce(Do(s, Receive(outcome, loss))) <==> ExactlyOnce(s) && !WastesAt(s, Receive(outcome, loss))
  {
    var m := s.buffer[0];
    match s.published[m]
    case Malformed => QuietExact(s, Do(s, Receive(outcome, loss)));
    case WellFormed(e) =>
      var u := Collecting(s.(buffer := s.buffer[1..]), m, e);
      assert Wastes(u, outcome, loss) == Wastes(Collecting(s, m, e), outcome, loss);
      QuietExact(s, u);
      if |u.batch| >= BATCH_SIZE {
        assert Aligned(u) && Funded(u);
        FlushExact(u, outcome, loss);
      }
  }

  lemma StepExact(s: State, a: Action)
    requires Inv(s) && Enabled(s, a)
    ensures ExactlyOnce(Do(s, a)) <==> ExactlyOnce(s) && !WastesAt(s, a)
  {
    match a
    case Tick(outcome, loss) => FlushExact(s, outcome, loss);
    case Receive(outcome, loss) => ReceiveExact(s, outcome, loss);
    case SeeClosed(outcome) =>
      FlushExact(s, outcome, 0);
      FlushKeeps(s, outcome, 0);
      QuietExact(Flush(s, outcome, 0), Do(s, a));
    case _ => QuietExact(s, Do(s, a));
  }

  /**
   Over every run: each event with a valid tenant has exactly as many rows as acknowledged
   messages if and only if no flush of the run wastes.
   */
  lemma {:induction false} ExactlyOnceIff(actions: seq<Action>)
    ensures ExactlyOnce(Run(actions)) <==> NeverWastes(actions)
  {
    if actions != [] {
      var before, a := actions[..|actions| - 1], actions[|actions| - 1];
      ExactlyOnceIff(before);
      EveryRunKeeps(before);
      if Enabled(Run(before), a) {
        StepExact(Run(before), a);
      }
    }
  }
}
