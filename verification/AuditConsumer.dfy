/**
 The audit batch consumer as an at-least-once protocol: a broker that holds messages until
 they are settled, a loop that collects a batch and flushes it into one transaction, and
 every way the two can come apart - a failed insert, a commit whose answer is lost, a
 channel lost at any moment (also half-way through the acknowledgements), a crash.
 */
module AuditConsumer {
  import opened Basics
  import opened Sums

  const BATCH_SIZE := 100

  /** validTenant: the event's tenant id parses as a UUID. */
  datatype Event = Event(validTenant: bool, payload: nat)

  datatype Body = Malformed | WellFormed(event: Event)

  /**
   published is everything ever sent, and a message is its index in it.  The broker has each
   message ready, unacked on the current channel, acked, or discarded; buffer holds the
   deliveries the loop has not read yet.
   */
  datatype State = State(
    published: seq<Body>,
    ready: set<nat>,
    unacked: set<nat>,
    acked: seq<nat>,
    discarded: set<nat>,
    channelUp: bool,
    buffer: seq<nat>,
    batch: seq<Event>,
    pending: seq<nat>,
    rows: seq<Event>)

  const INITIAL := State([], {}, {}, [], {}, true, [], [], [], [])

  /* ---------- settling deliveries ---------- */

  datatype How = Ack | Requeue | Discard

  /** On a lost channel the call fails and its error is ignored. */
  function Settle(s: State, m: nat, how: How): State {
    if !s.channelUp then s
    else match how
      case Ack => s.(unacked := s.unacked - {m}, acked := s.acked + [m])
      case Requeue => s.(unacked := s.unacked - {m}, ready := s.ready + {m})
      case Discard => s.(unacked := s.unacked - {m}, discarded := s.discarded + {m})
  }

  /** The broker takes back everything the channel had not settled. */
  function LoseChannel(s: State): State {
    s.(channelUp := false, ready := s.ready + s.unacked, unacked := {})
  }

  /** Settle one after the other; the channel is lost just before number loss, if there is one. */
  function SettleAll(s: State, ms: seq<nat>, how: How, loss: nat): State {
    if ms == [] then s
    else
      var n := |ms| - 1;
      var t := SettleAll(s, ms[..n], how, loss);
      Settle(if n == loss then LoseChannel(t) else t, ms[n], how)
  }

  /* ---------- the flush ---------- */

  datatype InsertOutcome = Committed | Failed | CommittedButError

  function HasValidTenant(): Event -> bool { (e: Event) => e.validTenant }

  function Stored(s: State, events: seq<Event>, outcome: InsertOutcome): State {
    if outcome == Failed then s else s.(rows := s.rows + Where(events, HasValidTenant()))
  }

  function Answer(outcome: InsertOutcome): How {
    if outcome == Committed then Ack else Requeue
  }

  function Flush(s: State, outcome: InsertOutcome, loss: nat): State {
    if s.batch == [] then s
    else SettleAll(Stored(s, s.batch, outcome), s.pending, Answer(outcome), loss).(batch := [], pending := [])
  }

  /* ---------- the steps ---------- */

  datatype Action =
    | Publish(body: Body)
    | Deliver(message: nat)
    | Receive(onReceive: InsertOutcome, receiveLoss: nat)
    | Tick(onTick: InsertOutcome, tickLoss: nat)
    | ChannelLost
    | SeeClosed(onClose: InsertOutcome)
    | Crash

  predicate Enabled(s: State, a: Action) {
    match a
    case Publish(_) => true
    case Deliver(m) => s.channelUp && m in s.ready && |s.unacked| < BATCH_SIZE
    case Receive(_, _) => s.buffer != [] && s.buffer[0] < |s.published|
    case Tick(_, _) => true
    case ChannelLost => s.channelUp
    case SeeClosed(_) => !s.channelUp
    case Crash => true
  }

  /** The loop body on one delivery. */
  function OnMessage(s: State, m: nat, body: Body, outcome: InsertOutcome, loss: nat): State {
    match body
    case Malformed => Settle(s, m, Discard)
    case WellFormed(e) =>
      var t := s.(batch := s.batch + [e], pending := s.pending + [m]);
      if |t.batch| >= BATCH_SIZE then Flush(t, outcome, loss) else t
  }

  /** A new consumer on a new channel. */
  function Restart(s: State): State {
    LoseChannel(s).(channelUp := true, buffer := [], batch := [], pending := [])
  }

  function Do(s: State, a: Action): State
    requires Enabled(s, a)
  {
    match a
    case Publish(body) => s.(published := s.published + [body], ready := s.ready + {|s.published|})
    case Deliver(m) => s.(ready := s.ready - {m}, unacked := s.unacked + {m}, buffer := s.buffer + [m])
    case Receive(outcome, loss) =>
      OnMessage(s.(buffer := s.buffer[1..]), s.buffer[0], s.published[s.buffer[0]], outcome, loss)
    case Tick(outcome, loss) => Flush(s, outcome, loss)
    case ChannelLost => LoseChannel(s)
    case SeeClosed(outcome) => Restart(Flush(s, outcome, 0))
    case Crash => Restart(s)
  }

  function Run(actions: seq<Action>): State {
    if actions == [] then INITIAL
    else
      var s := Run(actions[..|actions| - 1]);
      var a := actions[|actions| - 1];
      if Enabled(s, a) then Do(s, a) else s
  }

  /* ---------- the invariant ---------- */

  ghost predicate NoDuplicates(ms: seq<nat>) {
    forall i, j :: 0 <= i < j < |ms| ==> ms[i] != ms[j]
  }

  /** Every published message is in exactly one of the four places. */
  ghost predicate Partitioned(s: State) {
    && (forall m :: m in s.ready ==> m !in s.unacked && m !in s.acked && m !in s.discarded)
    && (forall m :: m in s.unacked ==> m !in s.acked && m !in s.discarded)
    && (forall m :: m in s.acked ==> m !in s.discarded)
    && NoDuplicates(s.acked)
    && (forall m: nat :: m < |s.published| <==> m in s.ready || m in s.unacked || m in s.acked || m in s.discarded)
  }

  /** held is what the consumer still has to settle. */
  ghost predicate Holds(s: State, held: seq<nat>) {
    && (s.channelUp ==> NoDuplicates(held) && forall m :: m in s.unacked <==> m in held)
    && (!s.channelUp ==> s.unacked == {})
    && (forall i :: 0 <= i < |held| ==> held[i] < |s.published|)
  }

  /** Only well-formed messages are acknowledged and only malformed ones are dropped. */
  ghost predicate SettledRight(s: State) {
    && (forall m :: m in s.acked ==> m < |s.published| && s.published[m].WellFormed?)
    && (forall m :: m in s.discarded ==> m < |s.published| && s.published[m].Malformed?)
  }

  function Carries(published: seq<Body>, e: Event): nat -> int {
    (m: nat) => if m < |published| && published[m] == WellFormed(e) then 1 else 0
  }

  function Equals(e: Event): Event -> int {
    (x: Event) => if x == e then 1 else 0
  }

  /** There are at least as many rows of an event as acknowledged messages that carry it. */
  ghost predicate Funded(s: State) {
    forall e: Event :: e.validTenant ==> Total(s.acked, Carries(s.published, e)) <= Total(s.rows, Equals(e))
  }

  /** Entry i of the batch is the event of pending delivery i. */
  ghost predicate Aligned(s: State) {
    && |s.batch| == |s.pending|
    && (forall i :: 0 <= i < |s.pending| ==>
          s.pending[i] < |s.published| && s.published[s.pending[i]] == WellFormed(s.batch[i]))
  }

  ghost predicate Core(s: State, held: seq<nat>) {
    Partitioned(s) && Holds(s, held) && SettledRight(s)
  }

  ghost predicate Inv(s: State) {
    && Core(s, s.pending + s.buffer)
    && Funded(s)
    && Aligned(s)
    && |s.batch| < BATCH_SIZE
    && |s.unacked| <= BATCH_SIZE
  }

  /* ---------- settling keeps the core ---------- */

  /** Taking one element out of a list without duplicates. */
  lemma Without(p: seq<nat>, m: nat, q: seq<nat>)
    requires NoDuplicates(p + [m] + q)
    ensures NoDuplicates(p + q)
    ensures forall x :: x in p + q <==> x in p + [m] + q && x != m
  {
    var s, t := p + [m] + q, p + q;
    assert s[|p|] == m;
    forall i | 0 <= i < |t|
      ensures t[i] == s[if i < |p| then i else i + 1] != m
    {
      var i' := if i < |p| then i else i + 1;
      assert i' != |p|;
    }
    assert forall i :: 0 <= i < |s| && i != |p| ==> s[i] == t[if i < |p| then i else i - 1];
  }

  lemma SettleKeeps(s: State, p: seq<nat>, m: nat, q: seq<nat>, how: How)
    requires Core(s, p + [m] + q) && m < |s.published|
    requires how == Ack ==> s.published[m].WellFormed?
    requires how == Discard ==> s.published[m].Malformed?
    ensures Core(Settle(s, m, how), p + q)
  {
    var held := p + [m] + q;
    forall i | 0 <= i < |p + q|
      ensures (p + q)[i] < |s.published|
    {
      assert (p + q)[i] == held[if i < |p| then i else i + 1];
    }
    if s.channelUp {
      Without(p, m, q);
      assert held[|p|] == m;
    }
  }

  lemma LoseKeeps(s: State, held: seq<nat>)
    requires Core(s, held)
    ensures Core(LoseChannel(s), held)
  {
  }

  lemma {:induction false} SettleAllKeeps(s: State, ms: seq<nat>, rest: seq<nat>, how: How, loss: nat)
    requires Core(s, ms + rest) && how != Discard
    requires how == Ack ==> forall i :: 0 <= i < |ms| ==> s.published[(ms + rest)[i]].WellFormed?
    ensures Core(SettleAll(s, ms, how, loss), rest)
    ensures SettleAll(s, ms, how, loss).published == s.published
  {
    if ms == [] {
      assert ms + rest == rest;
    } else {
      var n := |ms| - 1;
      var held := [ms[n]] + rest;
      assert ms + rest == ms[..n] + held;
      SettleAllKeeps(s, ms[..n], held, how, loss);
      var t := SettleAll(s, ms[..n], how, loss);
      LoseKeeps(t, held);
      assert (ms + rest)[n] == ms[n];
      assert [] + [ms[n]] + rest == held && [] + rest == rest;
      SettleKeeps(if n == loss then LoseChannel(t) else t, [], ms[n], rest, how);
    }
  }

  /** Settling touches nothing but where the messages are, and acknowledges only from its list. */
  lemma {:induction false} SettleAllFrame(s: State, ms: seq<nat>, how: How, loss: nat)
    ensures var t := SettleAll(s, ms, how, loss);
      t == s.(ready := t.ready, unacked := t.unacked, acked := t.acked, discarded := t.discarded,
        channelUp := t.channelUp)
    ensures SettleAll(s, ms, how, loss).unacked <= s.unacked
    ensures how != Ack ==> SettleAll(s, ms, how, loss).acked == s.acked
  {
    if ms != [] {
      SettleAllFrame(s, ms[..|ms| - 1], how, loss);
    }
  }

  lemma {:induction false} SettleAllAcks(s: State, ms: seq<nat>, how: How, loss: nat, e: Event)
    ensures Total(SettleAll(s, ms, how, loss).acked, Carries(s.published, e)) <=
            Total(s.acked, Carries(s.published, e)) + Total(ms, Carries(s.published, e))
  {
    if ms != [] {
      var n := |ms| - 1;
      SettleAllAcks(s, ms[..n], how, loss, e);
      TotalPush(SettleAll(s, ms[..n], how, loss).acked, ms[n], Carries(s.published, e));
    }
  }

  /** The batch holds each event as often as the pending deliveries carry it. */
  lemma {:induction false} BatchCarries(published: seq<Body>, batch: seq<Event>, pending: seq<nat>, e: Event)
    requires |batch| == |pending|
    requires forall i :: 0 <= i < |pending| ==>
      pending[i] < |published| && published[pending[i]] == WellFormed(batch[i])
    ensures Total(pending, Carries(published, e)) == Total(batch, Equals(e))
  {
    if pending != [] {
      var n := |pending| - 1;
      BatchCarries(published, batch[..n], pending[..n], e);
    }
  }

  /* ---------- flushing keeps the invariant ---------- */

  /** The invariant in the middle of an iteration, when the batch may just have filled up. */
  ghost predicate BeforeFlush(s: State) {
    Core(s, s.pending + s.buffer) && Funded(s) && Aligned(s) && |s.unacked| <= BATCH_SIZE
  }

  lemma StoredFunds(s: State, outcome: InsertOutcome, e: Event)
    requires BeforeFlush(s) && e.validTenant && outcome != Failed
    ensures Total(s.acked, Carries(s.published, e)) + Total(s.pending, Carries(s.published, e)) <=
            Total(s.rows + Where(s.batch, HasValidTenant()), Equals(e))
  {
    BatchCarries(s.published, s.batch, s.pending, e);
    TotalWhere(s.batch, HasValidTenant(), Equals(e), Equals(e));
    TotalConcat(s.rows, Where(s.batch, HasValidTenant()), Equals(e));
  }

  lemma FlushFunds(s: State, outcome: InsertOutcome, loss: nat, e: Event)
    requires BeforeFlush(s) && s.batch != [] && e.validTenant
    ensures Total(Flush(s, outcome, loss).acked, Carries(s.published, e)) <=
            Total(Flush(s, outcome, loss).rows, Equals(e))
  {
    var stored, how := Stored(s, s.batch, outcome), Answer(outcome);
    SettleAllFrame(stored, s.pending, how, loss);
    if outcome == Failed {
    } else {
      StoredFunds(s, outcome, e);
      SettleAllAcks(stored, s.pending, how, loss, e);
      TotalNonNegative(s.pending, Carries(s.published, e));
    }
  }

  lemma {:induction false} TotalNonNegative<T>(s: seq<T>, f: T -> int)
    requires forall i :: 0 <= i < |s| ==> f(s[i]) >= 0
    ensures Total(s, f) >= 0
  {
    if s != [] {
      TotalNonNegative(s[..|s| - 1], f);
    }
  }

  lemma FlushCore(s: State, outcome: InsertOutcome, loss: nat)
    requires BeforeFlush(s) && s.batch != []
    ensures Core(Flush(s, outcome, loss), s.buffer)
  {
    var stored, how := Stored(s, s.batch, outcome), Answer(outcome);
    assert Core(stored, s.pending + s.buffer);
    SettleAllKeeps(stored, s.pending, s.buffer, how, loss);
  }

  lemma FlushKeeps(s: State, outcome: InsertOutcome, loss: nat)
    requires BeforeFlush(s)
    ensures Inv(Flush(s, outcome, loss))
    ensures Flush(s, outcome, loss).published == s.published
  {
    if s.batch != [] {
      var t := Flush(s, outcome, loss);
      SettleAllFrame(Stored(s, s.batch, outcome), s.pending, Answer(outcome), loss);
      FlushCore(s, outcome, loss);
      assert t.pending + t.buffer == s.buffer;
      forall e: Event | e.validTenant
        ensures Total(t.acked, Carries(t.published, e)) <= Total(t.rows, Equals(e))
      {
        FlushFunds(s, outcome, loss, e);
      }
      SubsetSize(t.unacked, s.unacked);
    }
  }

  lemma {:induction false} AckAll(s: State, ms: seq<nat>, loss: nat)
    requires s.channelUp && loss >= |ms|
    ensures SettleAll(s, ms, Ack, loss).acked == s.acked + ms
    ensures SettleAll(s, ms, Ack, loss).channelUp
  {
    if ms != [] {
      AckAll(s, ms[..|ms| - 1], loss);
      assert s.acked + ms == s.acked + ms[..|ms| - 1] + [ms[|ms| - 1]];
    }
  }

  /** A flush that commits on a channel that stays up acknowledges the whole batch, in order,
      and adds exactly its events with a valid tenant to the table. */
  lemma CommittedFlushSettlesBatch(s: State, loss: nat)
    requires s.channelUp && Aligned(s) && loss >= |s.pending|
    ensures var t := Flush(s, Committed, loss);
      && t.acked == s.acked + s.pending
      && t.rows == s.rows + Where(s.batch, HasValidTenant())
      && t.batch == [] && t.pending == []
  {
    AckAll(Stored(s, s.batch, Committed), s.pending, loss);
    SettleAllFrame(Stored(s, s.batch, Committed), s.pending, Ack, loss);
  }

  /* ---------- every step keeps the invariant ---------- */

  lemma PublishKeeps(s: State, body: Body)
    requires Inv(s)
    ensures Inv(Do(s, Publish(body)))
  {
    var t := Do(s, Publish(body));
    assert forall m: nat :: m < |s.published| ==> t.published[m] == s.published[m];
    forall e: Event | e.validTenant
      ensures Total(t.acked, Carries(t.published, e)) <= Total(t.rows, Equals(e))
    {
      TotalSame(s.acked, Carries(s.published, e), Carries(t.published, e));
    }
  }

  lemma DeliverCore(s: State, m: nat, held: seq<nat>)
    requires Core(s, held) && s.channelUp && m in s.ready
    ensures Core(s.(ready := s.ready - {m}, unacked := s.unacked + {m}), held + [m])
  {
    assert m !in held;
    assert forall x :: x in held + [m] <==> x in held || x == m;
  }

  lemma DeliverKeeps(s: State, m: nat)
    requires Inv(s) && Enabled(s, Deliver(m))
    ensures Inv(Do(s, Deliver(m)))
  {
    DeliverCore(s, m, s.pending + s.buffer);
    assert s.pending + (s.buffer + [m]) == s.pending + s.buffer + [m];
  }

  lemma ReceiveMalformed(s: State, m: nat)
    requires Core(s, s.pending + [m] + s.buffer) && Funded(s) && Aligned(s)
    requires |s.batch| < BATCH_SIZE && |s.unacked| <= BATCH_SIZE
    requires m < |s.published| && s.published[m].Malformed?
    ensures Inv(Settle(s, m, Discard))
  {
    SettleKeeps(s, s.pending, m, s.buffer, Discard);
    SubsetSize(s.unacked - {m}, s.unacked);
  }

  lemma ReceiveWellFormed(s: State, m: nat, e: Event, outcome: InsertOutcome, loss: nat)
    requires Core(s, s.pending + [m] + s.buffer) && Funded(s) && Aligned(s)
    requires |s.batch| < BATCH_SIZE && |s.unacked| <= BATCH_SIZE
    requires m < |s.published| && s.published[m] == WellFormed(e)
    ensures Inv(OnMessage(s, m, WellFormed(e), outcome, loss))
  {
    var u := s.(batch := s.batch + [e], pending := s.pending + [m]);
    assert BeforeFlush(u);
    if |u.batch| >= BATCH_SIZE {
      FlushKeeps(u, outcome, loss);
    }
  }

  lemma ReceiveKeeps(s: State, outcome: InsertOutcome, loss: nat)
    requires Inv(s) && Enabled(s, Receive(outcome, loss))
    ensures Inv(Do(s, Receive(outcome, loss)))
  {
    var m := s.buffer[0];
    var t := s.(buffer := s.buffer[1..]);
    assert s.pending + s.buffer == t.pending + [m] + t.buffer;
    match s.published[m]
    case Malformed => ReceiveMalformed(t, m);
    case WellFormed(e) => ReceiveWellFormed(t, m, e, outcome, loss);
  }

  lemma RestartKeeps(s: State)
    requires Inv(s)
    ensures Inv(Restart(s))
  {
  }

  lemma LostKeeps(s: State)
    requires Inv(s)
    ensures Inv(LoseChannel(s))
  {
    LoseKeeps(s, s.pending + s.buffer);
  }

  lemma StepKeeps(s: State, a: Action)
    requires Inv(s) && Enabled(s, a)
    ensures Inv(Do(s, a))
  {
    match a
    case Publish(body) => PublishKeeps(s, body);
    case Deliver(m) => DeliverKeeps(s, m);
    case Receive(outcome, loss) => ReceiveKeeps(s, outcome, loss);
    case Tick(outcome, loss) => FlushKeeps(s, outcome, loss);
    case ChannelLost => LostKeeps(s);
    case SeeClosed(outcome) =>
      FlushKeeps(s, outcome, 0);
      RestartKeeps(Flush(s, outcome, 0));
    case Crash => RestartKeeps(s);
  }

  lemma {:induction false} EveryRunKeeps(actions: seq<Action>)
    ensures Inv(Run(actions))
  {
    if actions == [] {
      assert INITIAL.pending + INITIAL.buffer == [];
    } else {
      var s := Run(actions[..|actions| - 1]);
      EveryRunKeeps(actions[..|actions| - 1]);
      if Enabled(s, actions[|actions| - 1]) {
        StepKeeps(s, actions[|actions| - 1]);
      }
    }
  }

  /* ---------- what the protocol promises ---------- */

  /** At every loop head the two lists match entry by entry and stay below the batch size,
      and every published message is in exactly one place. */
  lemma LoopHead(actions: seq<Action>)
    ensures var s := Run(actions);
      Aligned(s) && |s.batch| == |s.pending| < BATCH_SIZE && Partitioned(s)
  {
    EveryRunKeeps(actions);
  }

  /**
   No well-formed message with a valid tenant is lost: it is still with the broker, or it
   was acknowledged and its event is in the table.
   */
  lemma NothingLost(actions: seq<Action>, m: nat)
    requires m < |Run(actions).published|
    requires Run(actions).published[m].WellFormed? && Run(actions).published[m].event.validTenant
    ensures var s := Run(actions);
      m in s.ready || m in s.unacked || (m in s.acked && s.published[m].event in s.rows)
  {
    var s := Run(actions);
    EveryRunKeeps(actions);
    if m in s.acked {
      var e := s.published[m].event;
      Counted(s.acked, Carries(s.published, e), m);
      Uncounted(s.rows, e);
    }
  }

  /** Rows are never fewer than the acknowledged messages that carry the same event. */
  lemma StoredAtLeastOnceEach(actions: seq<Action>, e: Event)
    requires e.validTenant
    ensures var s := Run(actions); Total(s.acked, Carries(s.published, e)) <= Total(s.rows, Equals(e))
  {
    EveryRunKeeps(actions);
  }

  /** A discarded message was malformed; an acknowledged one was not. */
  lemma OnlyMalformedDropped(actions: seq<Action>, m: nat)
    ensures var s := Run(actions);
      && (m in s.discarded ==> m < |s.published| && s.published[m].Malformed?)
      && (m in s.acked ==> m < |s.published| && s.published[m].WellFormed?)
  {
    EveryRunKeeps(actions);
  }

  lemma {:induction false} Counted(s: seq<nat>, f: nat -> int, m: nat)
    requires m in s && f(m) == 1 && forall x :: f(x) >= 0
    ensures Total(s, f) >= 1
  {
    var n := |s| - 1;
    TotalNonNegative(s[..n], f);
    if s[n] != m {
      assert s == s[..n] + [s[n]];
      Counted(s[..n], f, m);
    }
  }

  lemma {:induction false} Uncounted(s: seq<Event>, e: Event)
    ensures Total(s, Equals(e)) > 0 ==> e in s
  {
    if s != [] {
      var n := |s| - 1;
      Uncounted(s[..n], e);
      assert s == s[..n] + [s[n]];
    }
  }

  /* ---------- at least once, not exactly once ---------- */

  lemma RunPush(actions: seq<Action>, a: Action)
    ensures var s := Run(actions); Run(actions + [a]) == if Enabled(s, a) then Do(s, a) else s
  {
    assert (actions + [a])[..|actions|] == actions;
  }

  /** The only message published so far has reached the batch. */
  function Collected(e: Event, rows: seq<Event>): State {
    State([WellFormed(e)], {}, {0}, [], {}, true, [], [e], [0], rows)
  }

  function Waiting(e: Event, rows: seq<Event>): State {
    State([WellFormed(e)], {0}, {}, [], {}, true, [], [], [], rows)
  }

  /** A waiting message is delivered and read into the batch. */
  lemma Collect(actions: seq<Action>, e: Event, rows: seq<Event>) returns (more: seq<Action>)
    requires Run(actions) == Waiting(e, rows)
    ensures Run(more) == Collected(e, rows)
  {
    var quiet := Receive(Failed, BATCH_SIZE);
    RunPush(actions, Deliver(0));
    assert Run(actions + [Deliver(0)]) == State([WellFormed(e)], {}, {0}, [], {}, true, [0], [], [], rows);
    RunPush(actions + [Deliver(0)], quiet);
    more := actions + [Deliver(0)] + [quiet];
  }

  lemma SettleOne(s: State, m: nat, how: How)
    ensures SettleAll(s, [m], how, BATCH_SIZE) == Settle(s, m, how)
  {
    assert [m][..0] == [];
    assert SettleAll(s, [m][..0], how, BATCH_SIZE) == s;
  }

  lemma KeepOne(e: Event)
    requires e.validTenant
    ensures Where([e], HasValidTenant()) == [e]
  {
    assert [e][..0] == [];
    assert Where([e][..0], HasValidTenant()) == [];
  }

  lemma FlushOne(e: Event, rows: seq<Event>, outcome: InsertOutcome)
    requires e.validTenant && outcome != Failed
    ensures Flush(Collected(e, rows), outcome, BATCH_SIZE) ==
            if outcome == Committed
            then State([WellFormed(e)], {}, {}, [0], {}, true, [], [], [], rows + [e])
            else Waiting(e, rows + [e])
  {
    KeepOne(e);
    SettleOne(Collected(e, rows + [e]), 0, Answer(outcome));
  }

  lemma TickFlushes(actions: seq<Action>, e: Event, rows: seq<Event>, outcome: InsertOutcome)
    requires Run(actions) == Collected(e, rows)
    ensures Run(actions + [Tick(outcome, BATCH_SIZE)]) == Flush(Collected(e, rows), outcome, BATCH_SIZE)
  {
    RunPush(actions, Tick(outcome, BATCH_SIZE));
  }

  lemma FirstPublish(e: Event)
    ensures Run([] + [Publish(WellFormed(e))]) == Waiting(e, [])
  {
    RunPush([], Publish(WellFormed(e)));
  }

  /** A commit whose answer is lost is redelivered and stored twice. */
  lemma DuplicateRowsHappen(e: Event) returns (actions: seq<Action>)
    requires e.validTenant
    ensures Run(actions).acked == [0] && Run(actions).rows == [e, e]
  {
    FirstPublish(e);
    var first := Collect([] + [Publish(WellFormed(e))], e, []);
    TickFlushes(first, e, [], CommittedButError);
    FlushOne(e, [], CommittedButError);
    var second := Collect(first + [Tick(CommittedButError, BATCH_SIZE)], e, [] + [e]);
    TickFlushes(second, e, [] + [e], Committed);
    FlushOne(e, [] + [e], Committed);
    actions := second + [Tick(Committed, BATCH_SIZE)];
  }

  /* ---------- the consumer object ---------- */

  /** The consumer's two slices, with the broker and the table it talks to. */
  class Consumer {
    var batch: seq<Event>
    var pending: seq<nat>
    var rows: seq<Event>
    var published: seq<Body>
    var ready: set<nat>
    var unacked: set<nat>
    var acked: seq<nat>
    var discarded: set<nat>
    var channelUp: bool
    var buffer: seq<nat>

    function Model(): State
      reads this
    {
      State(published, ready, unacked, acked, discarded, channelUp, buffer, batch, pending, rows)
    }

    constructor ()
      ensures Model() == INITIAL
    {
      batch, pending, rows, published, acked, buffer := [], [], [], [], [], [];
      ready, unacked, discarded, channelUp := {}, {}, {}, true;
    }

    method SettleDelivery(m: nat, how: How)
      modifies this
      ensures Model() == Settle(old(Model()), m, how)
    {
      if channelUp {
        unacked := unacked - {m};
        match how
        case Ack => acked := acked + [m];
        case Requeue => ready := ready + {m};
        case Discard => discarded := discarded + {m};
      }
    }

    method DropChannel()
      modifies this
      ensures Model() == LoseChannel(old(Model()))
    {
      channelUp, ready, unacked := false, ready + unacked, {};
    }

    /** Skips events whose tenant id is not a UUID; the rest go in one transaction. */
    method BatchInsert(events: seq<Event>, outcome: InsertOutcome) returns (ok: bool)
      modifies this
      ensures ok <==> outcome == Committed
      ensures Model() == Stored(old(Model()), events, outcome)
    {
      var queued: seq<Event> := [];
      var i := 0;
      while i < |events|
        invariant 0 <= i <= |events|
        invariant queued == Where(events[..i], HasValidTenant())
        invariant Model() == old(Model())
      {
        assert events[..i + 1][..i] == events[..i];
        if events[i].validTenant {
          queued := queued + [events[i]];
        }
        i := i + 1;
      }
      assert events[..i] == events;
      if outcome != Failed {
        rows := rows + queued;
      }
      ok := outcome == Committed;
    }

    method FlushBatch(outcome: InsertOutcome, loss: nat)
      modifies this
      ensures Model() == Flush(old(Model()), outcome, loss)
    {
      if |batch| == 0 { return; }
      var ok := BatchInsert(batch, outcome);
      var how := if ok then Ack else Requeue;
      ghost var stored := Model();
      var i := 0;
      while i < |pending|
        invariant 0 <= i <= |pending| && pending == old(pending)
        invariant Model() == SettleAll(stored, pending[..i], how, loss)
      {
        assert pending[..i + 1][..i] == pending[..i];
        SettleAllFrame(stored, pending[..i], how, loss);
        if i == loss {
          DropChannel();
        }
        SettleDelivery(pending[i], how);
        i := i + 1;
      }
      assert pending[..i] == pending;
      SettleAllFrame(stored, pending, how, loss);
      batch, pending := [], [];
    }

    /** One pass of the select loop on a delivery. */
    method HandleDelivery(outcome: InsertOutcome, loss: nat)
      requires Enabled(Model(), Receive(outcome, loss))
      modifies this
      ensures Model() == Do(old(Model()), Receive(outcome, loss))
    {
      var m := buffer[0];
      buffer := buffer[1..];
      match published[m]
      case Malformed => SettleDelivery(m, Discard);
      case WellFormed(event) =>
        batch, pending := batch + [event], pending + [m];
        if |batch| >= BATCH_SIZE {
          FlushBatch(outcome, loss);
        }
    }

    method HandleTick(outcome: InsertOutcome, loss: nat)
      modifies this
      ensures Model() == Do(old(Model()), Tick(outcome, loss))
    {
      FlushBatch(outcome, loss);
    }

    /** The channel-closed path: flush what is left, then start over on a new channel. */
    method HandleClosed(outcome: InsertOutcome)
      requires Enabled(Model(), SeeClosed(outcome))
      modifies this
      ensures Model() == Do(old(Model()), SeeClosed(outcome))
    {
      FlushBatch(outcome, 0);
      DropChannel();
      channelUp, buffer, batch, pending := true, [], [], [];
    }
  }
}
