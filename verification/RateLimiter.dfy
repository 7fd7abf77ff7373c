/**
 The gateway's rate limiter: three fixed-window counters in Redis per tenant, incremented
 one after the other by each request, with key expiry.  Requests overlap freely; reading
 the clock, INCR and EXPIRE are separate steps.  Times are milliseconds.
 */
module RateLimiter {
  import opened Basics

  /* ---------- limits ---------- */

  datatype Limits = Limits(perMinute: nat, perHour: nat, burst: nat)

  const PLAN_LIMITS: map<string, Limits> := map[
    "free" := Limits(30, 500, 10),
    "starter" := Limits(100, 3000, 30),
    "pro" := Limits(500, 15000, 100),
    "enterprise" := Limits(2000, 100000, 500)]

  /** An unknown plan gets the free limits. */
  function LimitsFor(plan: string): (l: Limits)
    ensures plan == "starter" ==> l == Limits(100, 3000, 30)
    ensures plan == "pro" ==> l == Limits(500, 15000, 100)
    ensures plan == "enterprise" ==> l == Limits(2000, 100000, 500)
    ensures plan !in {"starter", "pro", "enterprise"} ==> l == Limits(30, 500, 10)
    ensures 0 < l.burst < l.perMinute < l.perHour < 60 * l.perMinute
  {
    if plan in PLAN_LIMITS then PLAN_LIMITS[plan] else PLAN_LIMITS["free"]
  }

  datatype Window = Minute | Hour | Burst

  function Length(w: Window): (ms: nat)
    ensures ms > 0
  {
    match w case Minute => 60_000 case Hour => 3_600_000 case Burst => 1_000
  }

  function Limit(l: Limits, w: Window): nat {
    match w case Minute => l.perMinute case Hour => l.perHour case Burst => l.burst
  }

  /** Unix seconds divided by the window's seconds. */
  function Bucket(w: Window, time: nat): nat {
    match w
    case Minute => time / 1_000 / 60
    case Hour => time / 1_000 / 3_600
    case Burst => time / 1_000
  }

  /** When no INCR for this bucket can be on its way any more. */
  function Horizon(w: Window, bucket: nat): nat {
    match w
    case Minute => (bucket + 2) * 60_000
    case Hour => (bucket + 2) * 3_600_000
    case Burst => (bucket + 2) * 1_000
  }

  lemma BucketSpan(w: Window, time: nat)
    ensures Horizon(w, Bucket(w, time)) - 2 * Length(w) <= time < Horizon(w, Bucket(w, time)) - Length(w)
  {
  }

  /* ---------- counters ---------- */

  datatype Key = Key(tenant: string, window: Window, bucket: nat)

  /** A key without expiry stays for ever. */
  datatype Counter = Counter(count: nat, expiresAt: Option<nat>)

  predicate Present(cs: map<Key, Counter>, k: Key, now: nat) {
    k in cs && (cs[k].expiresAt.Some? ==> now < cs[k].expiresAt.value)
  }

  function Count(cs: map<Key, Counter>, k: Key, now: nat): nat {
    if Present(cs, k, now) then cs[k].count else 0
  }

  /** INCR on a missing or expired key starts again at one, without expiry. */
  function Incr(cs: map<Key, Counter>, k: Key, now: nat): map<Key, Counter> {
    if Present(cs, k, now) then cs[k := Counter(cs[k].count + 1, cs[k].expiresAt)]
    else cs[k := Counter(1, None)]
  }

  function SetExpiry(cs: map<Key, Counter>, k: Key, now: nat, ttl: nat): map<Key, Counter> {
    if Present(cs, k, now) then cs[k := cs[k].(expiresAt := Some(now + ttl))] else cs
  }

  /* ---------- requests ---------- */

  /** The INCR result n for the key computed at time stamp. */
  datatype Ticket = Ticket(stamp: nat, n: nat)

  datatype Stage =
    | Ready(window: Window)
    | Stamped(window: Window, stamp: nat)
    | Counted(window: Window)
    | Admitted
    | Rejected

  datatype Request = Request(tenant: string, stage: Stage, tickets: map<Window, Ticket>)

  datatype State = State(now: nat, counters: map<Key, Counter>, requests: map<nat, Request>)

  const START := State(0, map[], map[])

  function KeyOf(r: Request, w: Window, stamp: nat): Key { Key(r.tenant, w, Bucket(w, stamp)) }

  datatype Action =
    | Wait(ms: nat)
    | Arrive(id: nat, tenant: string)
    | ReadClock(id: nat)
    | IncrOk(id: nat)
    | IncrUnseen(id: nat)
    | IncrFails(id: nat)
    | ExpireAndDecide(id: nat, expireOk: bool)

  predicate Enabled(s: State, a: Action) {
    match a
    case Wait(_) => true
    case Arrive(id, _) => id !in s.requests
    case ReadClock(id) => id in s.requests && s.requests[id].stage.Ready?
    case IncrOk(id) => id in s.requests && s.requests[id].stage.Stamped?
    case IncrUnseen(id) => id in s.requests && s.requests[id].stage.Stamped?
    case IncrFails(id) => id in s.requests && s.requests[id].stage.Stamped?
    case ExpireAndDecide(id, _) =>
      && id in s.requests && s.requests[id].stage.Counted?
      && s.requests[id].stage.window in s.requests[id].tickets
  }

  /** Minute, then hour, then burst. */
  function After(w: Window): Stage {
    match w case Minute => Ready(Hour) case Hour => Ready(Burst) case Burst => Admitted
  }

  /** Without the minute counter the request is let through at once. */
  function AfterFailure(w: Window): Stage {
    if w == Minute then Admitted else After(w)
  }

  /** The minute key gets its expiry from the first request only, the others from every one. */
  predicate SetsExpiry(w: Window, n: nat) { w != Minute || n == 1 }

  /** The request with this id goes on to the given stage. */
  function Move(s: State, id: nat, next: Stage): State
    requires id in s.requests
  {
    s.(requests := s.requests[id := s.requests[id].(stage := next)])
  }

  function CountStep(s: State, id: nat): State
    requires Enabled(s, IncrOk(id))
  {
    var r := s.requests[id];
    var w, k := r.stage.window, KeyOf(r, r.stage.window, r.stage.stamp);
    var ticket := Ticket(r.stage.stamp, Count(s.counters, k, s.now) + 1);
    s.(counters := Incr(s.counters, k, s.now),
       requests := s.requests[id := r.(stage := Counted(w), tickets := r.tickets[w := ticket])])
  }

  /** The key the request is about to count on. */
  function StampedKey(s: State, id: nat): Key
    requires id in s.requests && s.requests[id].stage.Stamped?
  {
    KeyOf(s.requests[id], s.requests[id].stage.window, s.requests[id].stage.stamp)
  }

  /** Redis executes the INCR and the answer is lost; the client sends it again or gives up. */
  function UnseenStep(s: State, id: nat): State
    requires Enabled(s, IncrUnseen(id))
  {
    s.(counters := Incr(s.counters, StampedKey(s, id), s.now))
  }

  function DecideStep(limits: string -> Limits, s: State, id: nat, expireOk: bool): State
    requires Enabled(s, ExpireAndDecide(id, expireOk))
  {
    var r := s.requests[id];
    var w := r.stage.window;
    var ticket := r.tickets[w];
    var k := KeyOf(r, w, ticket.stamp);
    var cs := if expireOk && SetsExpiry(w, ticket.n) then SetExpiry(s.counters, k, s.now, 2 * Length(w))
      else s.counters;
    Move(s.(counters := cs), id, if ticket.n > Limit(limits(r.tenant), w) then Rejected else After(w))
  }

  function Do(limits: string -> Limits, s: State, a: Action): State
    requires Enabled(s, a)
  {
    match a
    case Wait(ms) => s.(now := s.now + ms)
    case Arrive(id, tenant) => s.(requests := s.requests[id := Request(tenant, Ready(Minute), map[])])
    case ReadClock(id) => Move(s, id, Stamped(s.requests[id].stage.window, s.now))
    case IncrOk(id) => CountStep(s, id)
    case IncrUnseen(id) => UnseenStep(s, id)
    case IncrFails(id) => Move(s, id, AfterFailure(s.requests[id].stage.window))
    case ExpireAndDecide(id, expireOk) => DecideStep(limits, s, id, expireOk)
  }

  function Run(limits: string -> Limits, actions: seq<Action>): State {
    if actions == [] then START
    else
      var s := Run(limits, actions[..|actions| - 1]);
      var a := actions[|actions| - 1];
      if Enabled(s, a) then Do(limits, s, a) else s
  }

  /**
   This INCR reaches Redis before the horizon of the bucket its key was computed for, or at
   most slack milliseconds too late.
   */
  predicate InTime(slack: nat, s: State, id: nat) {
    id in s.requests && s.requests[id].stage.Stamped? ==>
      var w := s.requests[id].stage.window;
      s.now < Horizon(w, Bucket(w, s.requests[id].stage.stamp)) + slack
  }

  /** Every INCR of the run is in time. */
  predicate Timely(limits: string -> Limits, slack: nat, actions: seq<Action>) {
    actions != [] ==>
      var before, a := actions[..|actions| - 1], actions[|actions| - 1];
      && Timely(limits, slack, before)
      && (a.IncrOk? ==> InTime(slack, Run(limits, before), a.id))
  }

  /* ---------- single steps ---------- */

  /** A failed INCR counts nowhere.  On the minute counter the request is let through at once; on
      the other two the check is skipped. */
  lemma FailedIncr(limits: string -> Limits, s: State, id: nat)
    requires Enabled(s, IncrFails(id))
    ensures var t := Do(limits, s, IncrFails(id));
      var r := s.requests[id];
      && t.now == s.now && t.counters == s.counters
      && t.requests == s.requests[id := Request(r.tenant, t.requests[id].stage, r.tickets)]
      && (r.stage.window == Minute ==> t.requests[id].stage == Admitted)
      && (r.stage.window == Hour ==> t.requests[id].stage == Ready(Burst))
      && (r.stage.window == Burst ==> t.requests[id].stage == Admitted)
  {
  }

  /** A counted request goes from the minute to the hour to the burst check and is then admitted,
      unless its number is above the plan's limit for that counter. */
  lemma Decision(limits: string -> Limits, s: State, id: nat, expireOk: bool)
    requires Enabled(s, ExpireAndDecide(id, expireOk))
    ensures var r := s.requests[id];
      var n, l := r.tickets[r.stage.window].n, limits(r.tenant);
      Do(limits, s, ExpireAndDecide(id, expireOk)).requests ==
      s.requests[id := r.(stage := match r.stage.window
                                   case Minute => if n <= l.perMinute then Ready(Hour) else Rejected
                                   case Hour => if n <= l.perHour then Ready(Burst) else Rejected
                                   case Burst => if n <= l.burst then Admitted else Rejected)]
  {
  }

  /* ---------- the invariant ---------- */

  /** No expiry falls before the horizon of the key's bucket. */
  ghost predicate ExpiryOk(k: Key, c: Counter) {
    c.expiresAt.Some? ==> c.expiresAt.value >= Horizon(k.window, k.bucket)
  }

  /** Until the horizon, the counter is there and has counted the ticket. */
  ghost predicate TicketOk(s: State, r: Request, w: Window) {
    w in r.tickets ==>
      var t := r.tickets[w];
      var k := KeyOf(r, w, t.stamp);
      && t.stamp <= s.now
      && t.n >= 1
      && (s.now < Horizon(w, k.bucket) ==> k in s.counters && t.n <= s.counters[k].count)
  }

  function Order(w: Window): nat { match w case Minute => 0 case Hour => 1 case Burst => 2 }

  /** The window whose check is still open, if any. */
  function Position(stage: Stage): nat {
    match stage
    case Ready(w) => Order(w)
    case Stamped(w, _) => Order(w)
    case Counted(w) => Order(w)
    case Admitted => 3
    case Rejected => 0
  }

  /** Windows already passed were within their limit, and later ones have no ticket yet. */
  ghost predicate PassedOk(limits: string -> Limits, r: Request, w: Window) {
    && (w in r.tickets && Order(w) < Position(r.stage) ==> r.tickets[w].n <= Limit(limits(r.tenant), w))
    && (w in r.tickets && !r.stage.Rejected? && !r.stage.Counted? ==> Order(w) < Position(r.stage))
    && (w in r.tickets && r.stage.Counted? ==> Order(w) <= Position(r.stage))
  }

  ghost predicate StampOk(s: State, r: Request) {
    r.stage.Stamped? ==> r.stage.stamp <= s.now
  }

  ghost predicate SameKey(a: Request, b: Request, w: Window) {
    && w in a.tickets && w in b.tickets
    && KeyOf(a, w, a.tickets[w].stamp) == KeyOf(b, w, b.tickets[w].stamp)
  }

  /** Two requests never hold the same number of the same key. */
  ghost predicate DistinctTickets(s: State) {
    forall i, j, w :: i in s.requests && j in s.requests && i != j && SameKey(s.requests[i], s.requests[j], w) ==>
      s.requests[i].tickets[w].n != s.requests[j].tickets[w].n
  }

  ghost predicate Inv(limits: string -> Limits, s: State) {
    && (forall k :: k in s.counters ==> ExpiryOk(k, s.counters[k]))
    && (forall i, w :: i in s.requests ==> TicketOk(s, s.requests[i], w))
    && (forall i, w :: i in s.requests ==> PassedOk(limits, s.requests[i], w))
    && (forall i :: i in s.requests ==> StampOk(s, s.requests[i]))
    && DistinctTickets(s)
  }

  /** Key expiry never resets a live bucket: a counted key is present until its horizon. */
  lemma LiveBucketKept(limits: string -> Limits, s: State, k: Key)
    requires Inv(limits, s) && k in s.counters && s.now < Horizon(k.window, k.bucket)
    ensures Present(s.counters, k, s.now)
  {
    assert ExpiryOk(k, s.counters[k]);
  }

  /** Before the horizon INCR only counts up. */
  lemma IncrCounts(limits: string -> Limits, s: State, id: nat, k: Key)
    requires Inv(limits, s) && Enabled(s, IncrOk(id)) && InTime(0, s, id) && k in s.counters
    ensures k in CountStep(s, id).counters
    ensures s.now < Horizon(k.window, k.bucket) ==> CountStep(s, id).counters[k].count >= s.counters[k].count
  {
    if s.now < Horizon(k.window, k.bucket) {
      LiveBucketKept(limits, s, k);
    }
  }

  lemma IncrTickets(limits: string -> Limits, s: State, id: nat, i: nat, w: Window)
    requires Inv(limits, s) && Enabled(s, IncrOk(id)) && InTime(0, s, id) && i in s.requests
    ensures TicketOk(CountStep(s, id), CountStep(s, id).requests[i], w)
  {
    var r := s.requests[i];
    assert TicketOk(s, r, w);
    if i == id && w == r.stage.window {
      assert StampOk(s, r);
    } else if w in r.tickets {
      var k := KeyOf(r, w, r.tickets[w].stamp);
      if k in s.counters { IncrCounts(limits, s, id, k); }
    }
  }

  /** The new ticket is larger than every ticket already drawn on the key. */
  lemma IncrDistinct(limits: string -> Limits, s: State, id: nat)
    requires Inv(limits, s) && Enabled(s, IncrOk(id)) && InTime(0, s, id)
    ensures DistinctTickets(CountStep(s, id))
  {
    var t := CountStep(s, id);
    var r := s.requests[id];
    var w0 := r.stage.window;
    var k := KeyOf(r, w0, r.stage.stamp);
    assert StampOk(s, r);
    forall i | i in s.requests && i != id && SameKey(t.requests[i], t.requests[id], w0)
      ensures t.requests[i].tickets[w0].n < t.requests[id].tickets[w0].n
    {
      assert TicketOk(s, s.requests[i], w0);
      LiveBucketKept(limits, s, k);
    }
    forall i, j, w | i in t.requests && j in t.requests && i != j && SameKey(t.requests[i], t.requests[j], w)
      ensures t.requests[i].tickets[w].n != t.requests[j].tickets[w].n
    {
      if w == w0 && (i == id || j == id) {
        var other := if i == id then j else i;
        assert SameKey(t.requests[other], t.requests[id], w0);
      } else {
        assert SameKey(s.requests[i], s.requests[j], w);
      }
    }
  }

  lemma IncrPassed(limits: string -> Limits, s: State, id: nat, w: Window)
    requires Enabled(s, IncrOk(id)) && PassedOk(limits, s.requests[id], w)
    ensures PassedOk(limits, CountStep(s, id).requests[id], w)
  {
  }

  lemma IncrKeeps(limits: string -> Limits, s: State, id: nat)
    requires Inv(limits, s) && Enabled(s, IncrOk(id)) && InTime(0, s, id)
    ensures Inv(limits, CountStep(s, id))
  {
    var t := CountStep(s, id);
    forall k | k in t.counters
      ensures ExpiryOk(k, t.counters[k])
    {
      if k in s.counters { assert ExpiryOk(k, s.counters[k]); }
    }
    forall i, w | i in t.requests
      ensures TicketOk(t, t.requests[i], w) && PassedOk(limits, t.requests[i], w)
    {
      IncrTickets(limits, s, id, i, w);
      if i == id { IncrPassed(limits, s, id, w); }
    }
    IncrDistinct(limits, s, id);
  }

  /** An expiry set now, two windows ahead, is past the horizon of a bucket stamped by now. */
  lemma DecideExpiry(limits: string -> Limits, s: State, id: nat, expireOk: bool, k: Key)
    requires Inv(limits, s) && Enabled(s, ExpireAndDecide(id, expireOk))
    requires k in DecideStep(limits, s, id, expireOk).counters
    ensures k in s.counters
    ensures ExpiryOk(k, DecideStep(limits, s, id, expireOk).counters[k])
    ensures DecideStep(limits, s, id, expireOk).counters[k].count == s.counters[k].count
  {
    var r := s.requests[id];
    var w := r.stage.window;
    assert TicketOk(s, r, w);
    BucketSpan(w, r.tickets[w].stamp);
    assert ExpiryOk(k, s.counters[k]);
  }

  lemma DecidePassed(limits: string -> Limits, s: State, id: nat, expireOk: bool, w: Window)
    requires Enabled(s, ExpireAndDecide(id, expireOk)) && PassedOk(limits, s.requests[id], w)
    ensures PassedOk(limits, DecideStep(limits, s, id, expireOk).requests[id], w)
  {
  }

  lemma DecideTickets(limits: string -> Limits, s: State, id: nat, expireOk: bool, i: nat, w: Window)
    requires Inv(limits, s) && Enabled(s, ExpireAndDecide(id, expireOk)) && i in s.requests
    ensures TicketOk(DecideStep(limits, s, id, expireOk), DecideStep(limits, s, id, expireOk).requests[i], w)
  {
    assert TicketOk(s, s.requests[i], w);
    if w in s.requests[i].tickets {
      var k := KeyOf(s.requests[i], w, s.requests[i].tickets[w].stamp);
      if k in s.counters { DecideExpiry(limits, s, id, expireOk, k); }
    }
  }

  lemma DecideKeeps(limits: string -> Limits, s: State, id: nat, expireOk: bool)
    requires Inv(limits, s) && Enabled(s, ExpireAndDecide(id, expireOk))
    ensures Inv(limits, DecideStep(limits, s, id, expireOk))
  {
    var t := DecideStep(limits, s, id, expireOk);
    forall k | k in t.counters
      ensures ExpiryOk(k, t.counters[k])
    {
      DecideExpiry(limits, s, id, expireOk, k);
    }
    forall i, w | i in t.requests
      ensures TicketOk(t, t.requests[i], w) && PassedOk(limits, t.requests[i], w)
    {
      DecideTickets(limits, s, id, expireOk, i, w);
      if i == id {
        DecidePassed(limits, s, id, expireOk, w);
      } else {
        assert PassedOk(limits, s.requests[i], w);
      }
    }
    SameTickets(s, t);
  }

  /** Steps that draw no ticket keep the tickets distinct. */
  lemma SameTickets(s: State, t: State)
    requires DistinctTickets(s)
    requires forall i :: i in t.requests && t.requests[i].tickets != map[] ==>
      i in s.requests && t.requests[i].tickets == s.requests[i].tickets && t.requests[i].tenant == s.requests[i].tenant
    ensures DistinctTickets(t)
  {
    forall i, j, w | i in t.requests && j in t.requests && i != j && SameKey(t.requests[i], t.requests[j], w)
      ensures t.requests[i].tickets[w].n != t.requests[j].tickets[w].n
    {
      assert SameKey(s.requests[i], s.requests[j], w);
    }
  }

  /** An INCR whose answer is lost only raises a counter, whenever it arrives. */
  lemma UnseenKeeps(limits: string -> Limits, s: State, id: nat)
    requires Inv(limits, s) && Enabled(s, IncrUnseen(id))
    ensures Inv(limits, UnseenStep(s, id))
  {
    var t := UnseenStep(s, id);
    forall k | k in t.counters
      ensures ExpiryOk(k, t.counters[k])
    {
      if k in s.counters { assert ExpiryOk(k, s.counters[k]); }
    }
    forall i, w | i in t.requests
      ensures TicketOk(t, t.requests[i], w)
    {
      UnseenTickets(limits, s, id, i, w);
    }
    SameTickets(s, t);
  }

  lemma UnseenTickets(limits: string -> Limits, s: State, id: nat, i: nat, w: Window)
    requires Inv(limits, s) && Enabled(s, IncrUnseen(id)) && i in s.requests
    ensures TicketOk(UnseenStep(s, id), s.requests[i], w)
  {
    var r := s.requests[i];
    assert TicketOk(s, r, w);
    if w in r.tickets {
      var k := KeyOf(r, w, r.tickets[w].stamp);
      if k in s.counters && s.now < Horizon(w, k.bucket) { LiveBucketKept(limits, s, k); }
    }
  }

  lemma WaitKeeps(limits: string -> Limits, s: State, ms: nat)
    requires Inv(limits, s)
    ensures Inv(limits, s.(now := s.now + ms))
  {
    var t := s.(now := s.now + ms);
    forall i, w | i in t.requests
      ensures TicketOk(t, t.requests[i], w) && StampOk(t, t.requests[i])
    {
      assert TicketOk(s, s.requests[i], w) && StampOk(s, s.requests[i]);
    }
    SameTickets(s, t);
  }

  /** A request that arrives, or moves on without drawing a ticket. */
  lemma RequestStepKeeps(limits: string -> Limits, s: State, id: nat, r: Request)
    requires Inv(limits, s)
    requires r.tickets == map[] || (id in s.requests && r.tickets == s.requests[id].tickets && r.tenant ==
             s.requests[id].tenant)
    requires StampOk(s, r) && forall w :: PassedOk(limits, r, w)
    ensures Inv(limits, s.(requests := s.requests[id := r]))
  {
    var t := s.(requests := s.requests[id := r]);
    forall i, w | i in t.requests
      ensures TicketOk(t, t.requests[i], w) && PassedOk(limits, t.requests[i], w) && StampOk(t, t.requests[i])
    {
      if i in s.requests {
        assert TicketOk(s, s.requests[i], w) && PassedOk(limits, s.requests[i], w) && StampOk(s, s.requests[i]);
      }
    }
    SameTickets(s, t);
  }

  lemma MoveKeeps(limits: string -> Limits, s: State, a: Action)
    requires Inv(limits, s) && Enabled(s, a) && (a.ReadClock? || a.IncrFails?)
    ensures Inv(limits, Do(limits, s, a))
  {
    var r := Do(limits, s, a).requests[a.id];
    forall w
      ensures PassedOk(limits, r, w)
    {
      assert PassedOk(limits, s.requests[a.id], w);
    }
    RequestStepKeeps(limits, s, a.id, r);
  }

  lemma {:induction false} EveryRunKeeps(limits: string -> Limits, actions: seq<Action>)
    requires Timely(limits, 0, actions)
    ensures Inv(limits, Run(limits, actions))
  {
    if actions != [] {
      var s, a := Run(limits, actions[..|actions| - 1]), actions[|actions| - 1];
      EveryRunKeeps(limits, actions[..|actions| - 1]);
      if Enabled(s, a) {
        match a
        case IncrOk(id) => IncrKeeps(limits, s, id);
        case IncrUnseen(id) => UnseenKeeps(limits, s, id);
        case ExpireAndDecide(id, expireOk) => DecideKeeps(limits, s, id, expireOk);
        case Wait(ms) => WaitKeeps(limits, s, ms);
        case Arrive(id, tenant) => RequestStepKeeps(limits, s, id, Request(tenant, Ready(Minute), map[]));
        case _ => MoveKeeps(limits, s, a);
      }
    }
  }

  /* ---------- the bounds ---------- */

  /** Requests of the tenant that were admitted after counting in this bucket. */
  ghost function AdmittedIn(s: State, tenant: string, w: Window, bucket: nat): set<nat> {
    set i | i in s.requests && CountsIn(s.requests[i], tenant, w, bucket)
  }

  predicate CountsIn(r: Request, tenant: string, w: Window, bucket: nat) {
    && r.stage.Admitted? && r.tenant == tenant && w in r.tickets
    && Bucket(w, r.tickets[w].stamp) == bucket
  }

  lemma {:induction false} Pigeonhole(ids: set<nat>, number: map<nat, nat>, limit: nat)
    requires ids <= number.Keys
    requires forall i :: i in ids ==> 1 <= number[i] <= limit
    requires forall i, j :: i in ids && j in ids && i != j ==> number[i] != number[j]
    ensures |ids| <= limit
    decreases limit
  {
    if ids != {} {
      if i :| i in ids && number[i] == limit {
        assert |ids - {i}| == |ids| - 1;
        Pigeonhole(ids - {i}, number, limit - 1);
      } else {
        Pigeonhole(ids, number, limit - 1);
      }
    }
  }

  /** Whatever the interleaving, one bucket admits at most its limit. */
  lemma BucketBound(limits: string -> Limits, actions: seq<Action>, tenant: string, w: Window, bucket: nat)
    requires Timely(limits, 0, actions)
    ensures |AdmittedIn(Run(limits, actions), tenant, w, bucket)| <= Limit(limits(tenant), w)
  {
    var s := Run(limits, actions);
    EveryRunKeeps(limits, actions);
    var ids := AdmittedIn(s, tenant, w, bucket);
    var number := map i | i in ids :: s.requests[i].tickets[w].n;
    forall i | i in ids
      ensures 1 <= number[i] <= Limit(limits(tenant), w)
    {
      assert TicketOk(s, s.requests[i], w) && PassedOk(limits, s.requests[i], w);
    }
    forall i, j | i in ids && j in ids && i != j
      ensures number[i] != number[j]
    {
      assert SameKey(s.requests[i], s.requests[j], w);
    }
    Pigeonhole(ids, number, Limit(limits(tenant), w));
  }

  /** Requests admitted after counting at a time in the window-long interval from t. */
  ghost function AdmittedFrom(s: State, tenant: string, w: Window, t: nat): set<nat> {
    set i | i in s.requests && CountsFrom(s.requests[i], tenant, w, t)
  }

  predicate CountsFrom(r: Request, tenant: string, w: Window, t: nat) {
    && r.stage.Admitted? && r.tenant == tenant && w in r.tickets
    && t <= r.tickets[w].stamp < t + Length(w)
  }

  lemma TwoBuckets(w: Window, t: nat, stamp: nat)
    requires t <= stamp < t + Length(w)
    ensures Bucket(w, stamp) == Bucket(w, t) || Bucket(w, stamp) == Bucket(w, t) + 1
  {
  }

  lemma IntervalInBuckets(s: State, tenant: string, w: Window, t: nat) returns (b: nat)
    ensures |AdmittedFrom(s, tenant, w, t)| <= |AdmittedIn(s, tenant, w, b)| + |AdmittedIn(s, tenant, w, b + 1)|
  {
    b := Bucket(w, t);
    forall i | i in AdmittedFrom(s, tenant, w, t)
      ensures i in AdmittedIn(s, tenant, w, b) + AdmittedIn(s, tenant, w, b + 1)
    {
      TwoBuckets(w, t, s.requests[i].tickets[w].stamp);
    }
    UnionSize(AdmittedFrom(s, tenant, w, t), AdmittedIn(s, tenant, w, b), AdmittedIn(s, tenant, w, b + 1));
  }

  /** Any interval as long as the window admits at most twice the limit; for the minute
      counter, any 60 seconds at most twice the requests per minute. */
  lemma IntervalBound(limits: string -> Limits, actions: seq<Action>, tenant: string, w: Window, t: nat)
    requires Timely(limits, 0, actions)
    ensures |AdmittedFrom(Run(limits, actions), tenant, w, t)| <= 2 * Limit(limits(tenant), w)
  {
    var b := IntervalInBuckets(Run(limits, actions), tenant, w, t);
    BucketBound(limits, actions, tenant, w, b);
    BucketBound(limits, actions, tenant, w, b + 1);
  }

  lemma UnionSize(a: set<nat>, b: set<nat>, c: set<nat>)
    requires a <= b + c
    ensures |a| <= |b| + |c|
  {
    assert a == a * b + (a - b);
    SubsetSize(a * b, b);
    SubsetSize(a - b, c);
  }
}
