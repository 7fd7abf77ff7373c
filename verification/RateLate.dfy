/**
 A late INCR in runs in which Redis answers every INCR: the bucket is filled by ordinary
 arrivals, only its first EXPIRE succeeds, and one more request's INCR arrives at the horizon.
 */
module RateLate {
  import opened Basics
  import opened RateLimiter
  import opened WindowChecks
  import opened RateRuns
  import opened RateSchedule
  import opened Timetables
  import opened RateOverruns

  /* ---------- a full bucket with room for one more request elsewhere ---------- */

  /** Before the check of w, and after it, the other windows have room at these moments. */
  predicate RoomAround(l: Limits, ts: seq<nat>, w: Window, late: nat, horizon: nat) {
    match w
    case Minute =>
      && Tally(ts, Hour, Bucket(Hour, horizon)) < l.perHour
      && Tally(ts, Burst, Bucket(Burst, horizon)) < l.burst
    case Hour =>
      && Tally(ts, Minute, Bucket(Minute, late)) < l.perMinute
      && Tally(ts, Burst, Bucket(Burst, horizon)) < l.burst
    case Burst =>
      && Tally(ts, Minute, Bucket(Minute, late)) < l.perMinute
      && Tally(ts, Hour, Bucket(Hour, late)) < l.perHour
  }

  /** The bucket that starts at start is filled, from its first moment, and late is still in it. */
  ghost predicate FullBucket(l: Limits, w: Window, start: nat, ts: seq<nat>, late: nat) {
    && |ts| == Limit(l, w) && |ts| >= 1 && ts[0] == start && Sorted(ts) && Fits(l, ts)
    && Span(ts, start, start + Length(w)) && ts[|ts| - 1] <= late && start <= late < start + Length(w)
    && RoomAround(l, ts, w, late, start + 2 * Length(w))
  }

  lemma FillStarts(l: Limits, w: Window, start: nat, n: nat)
    requires l.burst >= 1 && l.perMinute >= 1 && n >= 1
    ensures Fill(l, w, start, n) != [] && Fill(l, w, start, n)[0] == start
  {
  }

  lemma NothingYet(ts: seq<nat>, w: Window, lo: nat, t: nat)
    requires Span(ts, lo, t) && StartsBucket(w, t)
    ensures Tally(ts, w, Bucket(w, t)) == 0
  {
    TallySides(ts, w, t, Bucket(w, t));
  }

  lemma Boundaries(w: Window, start: nat)
    requires w != Burst && StartsBucket(w, start)
    ensures StartsUnit(w, start) && StartsUnit(w, start + 59 * Unit(w)) && StartsBucket(Burst, start + 2 * Length(w))
  {
    BoundariesNest(start);
    if w == Hour {
      WholeMinutes(start + 59 * 60_000, start / 60_000 + 59);
      Thousands(start + 7_200_000, start / 1_000 + 7_200);
    } else {
      Thousands(start + 59_000, start / 1_000 + 59);
      Thousands(start + 120_000, start / 1_000 + 120);
    }
  }

  lemma LongFull(l: Limits, w: Window, start: nat) returns (ts: seq<nat>, late: nat)
    requires w != Burst && Roomy(l, w) && StartsBucket(w, start)
    ensures FullBucket(l, w, start, ts, late)
  {
    Boundaries(w, start);
    ts, late := Fill(l, w, start, Limit(l, w)), start + 59 * Unit(w);
    FillFacts(l, w, start, Limit(l, w), 59);
    FillStarts(l, w, start, Limit(l, w));
    CappedByLength(ts, Hour, l.perHour);
    NothingYet(ts, Burst, start, start + 2 * Length(w));
    if w == Hour {
      NothingYet(ts, Minute, start, late);
    } else {
      TallyLength(ts, Hour, Bucket(Hour, start + 2 * Length(w)));
    }
  }

  lemma ShortFull(l: Limits, start: nat) returns (ts: seq<nat>, late: nat)
    requires Roomy(l, Burst) && StartsBucket(Burst, start)
    ensures FullBucket(l, Burst, start, ts, late)
  {
    ts, late := Repeat(start, l.burst), start;
    RepeatFacts(start, l.burst);
    CappedByLength(ts, Minute, l.perMinute);
    CappedByLength(ts, Hour, l.perHour);
    CappedByLength(ts, Burst, l.burst);
    TallyLength(ts, Minute, Bucket(Minute, late));
    TallyLength(ts, Hour, Bucket(Hour, late));
  }

  lemma FullTimetable(l: Limits, w: Window, start: nat) returns (ts: seq<nat>, late: nat)
    requires Roomy(l, w) && StartsBucket(w, start)
    ensures FullBucket(l, w, start, ts, late)
  {
    if w == Burst {
      ts, late := ShortFull(l, start);
    } else {
      ts, late := LongFull(l, w, start);
    }
  }

  /* ---------- the late request ---------- */

  ghost predicate At(s: State, id: nat, tenant: string, stage: Stage) {
    id in s.requests && s.requests[id].tenant == tenant && s.requests[id].stage == stage
  }

  /** Every other request is as it was. */
  ghost predicate OthersKept(s: State, t: State, id: nat) {
    id in t.requests && t.requests == s.requests[id := t.requests[id]]
  }

  /** One check in an earlier window: the counter of w keeps its expiry, the later windows their tallies. */
  lemma EarlierCheck(limits: string -> Limits, slack: nat, s: State, id: nat, tenant: string, ts: seq<nat>, late: nat,
                     v: Window)
    returns (t: State)
    requires Reaches(limits, slack, Answered, s) && At(s, id, tenant, Ready(v)) && s.now <= late
    requires AllShow(s.counters, tenant, v, ts) && Tally(ts, v, Bucket(v, late)) < Limit(limits(tenant), v)
    ensures Reaches(limits, slack, Answered, t) && t.now == late && At(t, id, tenant, After(v)) && OthersKept(s, t, id)
    ensures t.counters == CountersAfter(s.counters, Key(tenant, v, Bucket(v, late)), late, Replied(false))
  {
    CountIsTally(s.counters, tenant, v, ts, late);
    t := PassReady(limits, slack, Answered, s, id, tenant, late, v, false);
  }

  lemma KeptElsewhere(cs: map<Key, Counter>, tenant: string, k: Key, late: nat, w: Window, ts: seq<nat>, x: Key,
                      expires: nat)
    requires k.window != w && AllShow(cs, tenant, w, ts) && x != k && ExpiresAt(cs, x, expires)
    ensures AllShow(CountersAfter(cs, k, late, Replied(false)), tenant, w, ts)
    ensures ExpiresAt(CountersAfter(cs, k, late, Replied(false)), x, expires)
  {
    CountElsewhere(cs, tenant, k, late, false, w, ts);
    OtherKeys(cs, k, late, false, x);
  }

  /** The request stands before the check of w; the windows from w on still show the timetable. */
  ghost predicate Arrived(s: State, id: nat, tenant: string, ts: seq<nat>, w: Window, x: Key, expires: nat) {
    && At(s, id, tenant, Ready(w))
    && (w == Minute ==> AllShow(s.counters, tenant, Hour, ts))
    && (w != Burst ==> AllShow(s.counters, tenant, Burst, ts))
    && ExpiresAt(s.counters, x, expires)
  }

  lemma ArriveBefore(limits: string -> Limits, slack: nat, s: State, id: nat, tenant: string, ts: seq<nat>, late: nat,
                     w: Window, x: Key, expires: nat) returns (t: State)
    requires Reaches(limits, slack, Answered, s) && At(s, id, tenant, Ready(Minute)) && s.now <= late
    requires Showing(s.counters, tenant, ts) && ExpiresAt(s.counters, x, expires) && x.window == w
    requires w != Minute ==> Tally(ts, Minute, Bucket(Minute, late)) < limits(tenant).perMinute
    requires w == Burst ==> Tally(ts, Hour, Bucket(Hour, late)) < limits(tenant).perHour
    ensures Reaches(limits, slack, Answered, t) && t.now <= late && OthersKept(s, t, id)
    ensures Arrived(t, id, tenant, ts, w, x, expires)
  {
    t := s;
    if w != Minute {
      var k := Key(tenant, Minute, Bucket(Minute, late));
      t := EarlierCheck(limits, slack, s, id, tenant, ts, late, Minute);
      KeptElsewhere(s.counters, tenant, k, late, Hour, ts, x, expires);
      KeptElsewhere(s.counters, tenant, k, late, Burst, ts, x, expires);
      if w == Burst {
        var one := t;
        t := EarlierCheck(limits, slack, one, id, tenant, ts, late, Hour);
        KeptElsewhere(one.counters, tenant, Key(tenant, Hour, Bucket(Hour, late)), late, Burst, ts, x, expires);
      }
    }
  }

  /** The clock is read in time, and INCR arrives when the key has expired. */
  lemma CountLate(limits: string -> Limits, slack: nat, s: State, id: nat, tenant: string, w: Window, late: nat,
                  horizon: nat)
    returns (t: State)
    requires slack > 0 && Reaches(limits, slack, Answered, s) && At(s, id, tenant, Ready(w)) && s.now <= late <= horizon
    requires ExpiresAt(s.counters, Key(tenant, w, Bucket(w, late)), horizon) && horizon == Horizon(w, Bucket(w, late))
    requires Limit(limits(tenant), w) >= 1
    ensures Reaches(limits, slack, Answered, t) && t.now == horizon && At(t, id, tenant, After(w))
    ensures OthersKept(s, t, id)
    ensures t.counters == s.counters[Key(tenant, w, Bucket(w, late)) := Counter(1, None)]
    ensures w in t.requests[id].tickets && t.requests[id].tickets[w].stamp == late
  {
    ReachWait(limits, slack, Answered, s, late);
    ReachStep(limits, slack, Answered, s.(now := late), ReadClock(id));
    var stamped := Do(limits, s.(now := late), ReadClock(id));
    ReachWait(limits, slack, Answered, stamped, horizon);
    var waited := stamped.(now := horizon);
    ReachStep(limits, slack, Answered, waited, IncrOk(id));
    var counted := Do(limits, waited, IncrOk(id));
    assert counted.requests[id].tickets[w] == Ticket(late, 1);
    ReachStep(limits, slack, Answered, counted, ExpireAndDecide(id, false));
    t := Do(limits, counted, ExpireAndDecide(id, false));
  }

  /** One check in a later window. */
  lemma LaterCheck(limits: string -> Limits, slack: nat, s: State, id: nat, tenant: string, ts: seq<nat>, v: Window)
    returns (t: State)
    requires Reaches(limits, slack, Answered, s) && At(s, id, tenant, Ready(v))
    requires AllShow(s.counters, tenant, v, ts) && Tally(ts, v, Bucket(v, s.now)) < Limit(limits(tenant), v)
    ensures Reaches(limits, slack, Answered, t) && t.now == s.now && At(t, id, tenant, After(v)) && OthersKept(s, t, id)
    ensures t.counters == CountersAfter(s.counters, Key(tenant, v, Bucket(v, s.now)), s.now, Replied(false))
    ensures forall x :: x != v && x in s.requests[id].tickets ==>
      x in t.requests[id].tickets && t.requests[id].tickets[x] == s.requests[id].tickets[x]
  {
    CountIsTally(s.counters, tenant, v, ts, s.now);
    t := PassReady(limits, slack, Answered, s, id, tenant, s.now, v, false);
  }

  lemma OneKeyElsewhere(cs: map<Key, Counter>, tenant: string, k: Key, c: Counter, w: Window, ts: seq<nat>)
    requires AllShow(cs, tenant, w, ts) && k.window != w
    ensures AllShow(cs[k := c], tenant, w, ts)
  {
    forall b
      ensures Shows(cs[k := c], Key(tenant, w, b), Tally(ts, w, b))
    {
      assert Shows(cs, Key(tenant, w, b), Tally(ts, w, b));
    }
  }

  lemma PassLater(limits: string -> Limits, slack: nat, s: State, id: nat, tenant: string, ts: seq<nat>, w: Window)
    returns (t: State)
    requires Reaches(limits, slack, Answered, s) && At(s, id, tenant, After(w)) && w in s.requests[id].tickets
    requires w == Minute ==> AllShow(s.counters, tenant, Hour, ts)
    requires w == Minute ==> Tally(ts, Hour, Bucket(Hour, s.now)) < limits(tenant).perHour
    requires w != Burst ==> AllShow(s.counters, tenant, Burst, ts)
    requires w != Burst ==> Tally(ts, Burst, Bucket(Burst, s.now)) < limits(tenant).burst
    ensures Reaches(limits, slack, Answered, t) && At(t, id, tenant, Admitted) && OthersKept(s, t, id)
    ensures w in t.requests[id].tickets && t.requests[id].tickets[w] == s.requests[id].tickets[w]
  {
    t := s;
    if w == Minute {
      t := LaterCheck(limits, slack, s, id, tenant, ts, Hour);
      CountElsewhere(s.counters, tenant, Key(tenant, Hour, Bucket(Hour, s.now)), s.now, false, Burst, ts);
    }
    if w != Burst {
      t := LaterCheck(limits, slack, t, id, tenant, ts, Burst);
    }
  }

  /* ---------- limit + 1 in one bucket ---------- */

  lemma BucketOf(w: Window, start: nat, t: nat)
    requires StartsBucket(w, start) && start <= t < start + Length(w)
    ensures Bucket(w, t) == Bucket(w, start) && Horizon(w, Bucket(w, t)) == start + 2 * Length(w)
  {
    SameBucket(w, start, t);
    AlignedStart(w, start);
  }

  /** From the check of w on. */
  lemma FinishLate(limits: string -> Limits, slack: nat, s: State, id: nat, tenant: string, w: Window,
                   ts: seq<nat>, late: nat, horizon: nat) returns (t: State)
    requires slack > 0 && Reaches(limits, slack, Answered, s) && s.now <= late <= horizon
    requires Arrived(s, id, tenant, ts, w, Key(tenant, w, Bucket(w, late)), horizon)
    requires horizon == Horizon(w, Bucket(w, late)) && Limit(limits(tenant), w) >= 1
    requires RoomAround(limits(tenant), ts, w, late, horizon)
    ensures Reaches(limits, slack, Answered, t) && OthersKept(s, t, id) && At(t, id, tenant, Admitted)
    ensures w in t.requests[id].tickets && t.requests[id].tickets[w].stamp == late
  {
    var x := Key(tenant, w, Bucket(w, late));
    var counted := CountLate(limits, slack, s, id, tenant, w, late, horizon);
    if w == Minute { OneKeyElsewhere(s.counters, tenant, x, Counter(1, None), Hour, ts); }
    if w != Burst { OneKeyElsewhere(s.counters, tenant, x, Counter(1, None), Burst, ts); }
    t := PassLater(limits, slack, counted, id, tenant, ts, w);
  }

  lemma FirstExpires(cs: map<Key, Counter>, tenant: string, w: Window, start: nat)
    requires FirstExpiry(cs, tenant, start)
    ensures ExpiresAt(cs, Key(tenant, w, Bucket(w, start)), start + 2 * Length(w))
  {
    match w
    case Minute =>
    case Hour =>
    case Burst =>
  }

  /** What a full bucket's counters are to the late request. */
  ghost predicate Full(cs: map<Key, Counter>, l: Limits, tenant: string, w: Window,
                       ts: seq<nat>, late: nat, horizon: nat) {
    && Showing(cs, tenant, ts) && RoomAround(l, ts, w, late, horizon) && Limit(l, w) >= 1 && late <= horizon
    && horizon == Horizon(w, Bucket(w, late)) && ExpiresAt(cs, Key(tenant, w, Bucket(w, late)), horizon)
  }

  lemma BucketIsFull(cs: map<Key, Counter>, l: Limits, tenant: string, w: Window, start: nat, ts: seq<nat>, late: nat)
    requires StartsBucket(w, start) && FullBucket(l, w, start, ts, late)
    requires Showing(cs, tenant, ts) && FirstExpiry(cs, tenant, start)
    ensures Full(cs, l, tenant, w, ts, late, start + 2 * Length(w))
  {
    BucketOf(w, start, late);
    FirstExpires(cs, tenant, w, start);
  }

  lemma PassAll(limits: string -> Limits, slack: nat, s: State, id: nat, tenant: string, w: Window,
                ts: seq<nat>, late: nat, horizon: nat) returns (t: State)
    requires slack > 0 && Reaches(limits, slack, Answered, s) && At(s, id, tenant, Ready(Minute)) && s.now <= late
    requires Full(s.counters, limits(tenant), tenant, w, ts, late, horizon)
    ensures Reaches(limits, slack, Answered, t) && OthersKept(s, t, id) && At(t, id, tenant, Admitted)
    ensures w in t.requests[id].tickets && t.requests[id].tickets[w].stamp == late
  {
    var x := Key(tenant, w, Bucket(w, late));
    var before := ArriveBefore(limits, slack, s, id, tenant, ts, late, w, x, horizon);
    t := FinishLate(limits, slack, before, id, tenant, w, ts, late, horizon);
  }

  lemma LateRequest(limits: string -> Limits, slack: nat, s: State, tenant: string, w: Window, start: nat,
                    ts: seq<nat>, late: nat) returns (t: State)
    requires slack > 0 && StartsBucket(w, start) && FullBucket(limits(tenant), w, start, ts, late)
    requires Reaches(limits, slack, Answered, s) && Served(s, tenant, ts) && FirstExpiry(s.counters, tenant, start)
    ensures Reaches(limits, slack, Answered, t) && OthersKept(s, t, |ts|) && At(t, |ts|, tenant, Admitted)
    ensures w in t.requests[|ts|].tickets && t.requests[|ts|].tickets[w].stamp == late
  {
    BucketIsFull(s.counters, limits(tenant), tenant, w, start, ts, late);
    var arrived := Arrival(limits, slack, Answered, s, tenant, ts, late);
    t := PassAll(limits, slack, arrived, |ts|, tenant, w, ts, late, start + 2 * Length(w));
  }

  lemma AllInBucket(s: State, t: State, tenant: string, w: Window, start: nat, ts: seq<nat>, late: nat)
    requires StartsBucket(w, start) && Span(ts, start, start + Length(w)) && start <= late < start + Length(w)
    requires Served(s, tenant, ts) && OthersKept(s, t, |ts|) && At(t, |ts|, tenant, Admitted)
    requires w in t.requests[|ts|].tickets && t.requests[|ts|].tickets[w].stamp == late
    ensures |AdmittedIn(t, tenant, w, Bucket(w, start))| >= |ts| + 1
  {
    forall i: nat | i < |ts| + 1
      ensures i in AdmittedIn(t, tenant, w, Bucket(w, start))
    {
      if i < |ts| {
        assert Through(s.requests[i], tenant, ts[i]);
        BucketOf(w, start, ts[i]);
      } else {
        BucketOf(w, start, late);
      }
    }
    AtLeast(AdmittedIn(t, tenant, w, Bucket(w, start)), |ts| + 1);
  }

  /** In every bucket, with every INCR answered and one of them arriving at the horizon, limit + 1
      requests can be admitted. */
  lemma LateIncrOverruns(limits: string -> Limits, slack: nat, tenant: string, w: Window, start: nat) returns (t: State)
    requires slack > 0 && Roomy(limits(tenant), w) && StartsBucket(w, start)
    ensures Reaches(limits, slack, Answered, t)
    ensures |AdmittedIn(t, tenant, w, Bucket(w, start))| > Limit(limits(tenant), w)
  {
    var ts, late := FullTimetable(limits(tenant), w, start);
    var s := TimetableOnceExpiring(limits, slack, tenant, ts);
    t := LateRequest(limits, slack, s, tenant, w, start, ts, late);
    AllInBucket(s, t, tenant, w, start, ts, late);
  }

  /** With every INCR answered, too, the limit per bucket holds over all runs if and only if no
      INCR arrives at or after the horizon of its bucket. */
  lemma AnsweredBucketsHoldIff(limits: string -> Limits, slack: nat, tenant: string, w: Window)
    requires Roomy(limits(tenant), w)
    ensures BucketsHold(limits, slack, Answered, tenant, w) <==> slack == 0
  {
    if slack == 0 {
      BucketsHoldInTime(limits, Answered, tenant, w);
    } else {
      var t := LateIncrOverruns(limits, slack, tenant, w, 0);
      BucketOverrun(limits, slack, Answered, tenant, w, t, Bucket(w, 0));
    }
  }

  /** Both conditions on the plans of the tier table, unknown plans included. */
  lemma EveryPlan(plan: string -> string, limits: string -> Limits, tenant: string, w: Window, slack: nat, t: nat,
                  mode: Mode)
    requires forall x :: limits(x) == LimitsFor(plan(x))
    ensures BucketsHold(limits, slack, Answered, tenant, w) <==> slack == 0
    ensures IntervalHolds(limits, mode, tenant, w, t) <==> StartsBucket(w, t)
  {
    assert limits(tenant) == LimitsFor(plan(tenant));
    PlansRoomy(plan(tenant), w);
    AnsweredBucketsHoldIff(limits, slack, tenant, w);
    SlidingWindowIff(limits, mode, tenant, w, t);
  }
}
