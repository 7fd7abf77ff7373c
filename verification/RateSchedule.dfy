/**
 Any timetable of arrivals that keeps every limit in every bucket is admitted in full, by a run
 in which Redis answers everything and each request makes its three checks at one moment.
 */
module RateSchedule {
  import opened Basics
  import opened RateLimiter
  import opened WindowChecks
  import opened RateRuns

  /* ---------- timetables ---------- */

  /** How many arrivals fall into the bucket. */
  function Tally(ts: seq<nat>, w: Window, b: nat): nat {
    if ts == [] then 0
    else Tally(ts[..|ts| - 1], w, b) + (if Bucket(w, ts[|ts| - 1]) == b then 1 else 0)
  }

  predicate Sorted(ts: seq<nat>) {
    forall i, j :: 0 <= i <= j < |ts| ==> ts[i] <= ts[j]
  }

  ghost predicate Capped(ts: seq<nat>, w: Window, cap: nat) {
    forall b :: Tally(ts, w, b) <= cap
  }

  ghost predicate Fits(l: Limits, ts: seq<nat>) {
    Capped(ts, Minute, l.perMinute) && Capped(ts, Hour, l.perHour) && Capped(ts, Burst, l.burst)
  }

  /** One more arrival would still be within every limit. */
  predicate HasRoom(l: Limits, ts: seq<nat>, time: nat) {
    && Tally(ts, Minute, Bucket(Minute, time)) < l.perMinute
    && Tally(ts, Hour, Bucket(Hour, time)) < l.perHour
    && Tally(ts, Burst, Bucket(Burst, time)) < l.burst
  }

  lemma TallyPush(ts: seq<nat>, t: nat, w: Window, b: nat)
    ensures Tally(ts + [t], w, b) == Tally(ts, w, b) + (if Bucket(w, t) == b then 1 else 0)
  {
    assert (ts + [t])[..|ts|] == ts;
  }

  lemma CappedPrefix(ts: seq<nat>, n: nat, w: Window, cap: nat)
    requires n + 1 == |ts| && Capped(ts, w, cap)
    ensures Capped(ts[..n], w, cap) && Tally(ts[..n], w, Bucket(w, ts[n])) < cap
  {
    assert ts == ts[..n] + [ts[n]];
    forall b
      ensures Tally(ts[..n], w, b) + (if b == Bucket(w, ts[n]) then 1 else 0) <= cap
    {
      TallyPush(ts[..n], ts[n], w, b);
      assert Tally(ts, w, b) <= cap;
    }
  }

  lemma FitsPrefix(l: Limits, ts: seq<nat>, n: nat)
    requires n + 1 == |ts| && Fits(l, ts)
    ensures Fits(l, ts[..n]) && HasRoom(l, ts[..n], ts[n])
  {
    CappedPrefix(ts, n, Minute, l.perMinute);
    CappedPrefix(ts, n, Hour, l.perHour);
    CappedPrefix(ts, n, Burst, l.burst);
  }

  /* ---------- counters that show the timetable ---------- */

  /** The counter of the bucket shows its tally, and does not expire before the horizon. */
  ghost predicate Shows(cs: map<Key, Counter>, k: Key, tally: nat) {
    if tally == 0 then k !in cs
    else k in cs && cs[k].count == tally && (cs[k].expiresAt.Some? ==>
      cs[k].expiresAt.value >= Horizon(k.window, k.bucket))
  }

  ghost predicate AllShow(cs: map<Key, Counter>, tenant: string, w: Window, ts: seq<nat>) {
    forall b {:trigger Tally(ts, w, b)} :: Shows(cs, Key(tenant, w, b), Tally(ts, w, b))
  }

  lemma CountIsTally(cs: map<Key, Counter>, tenant: string, w: Window, ts: seq<nat>, time: nat)
    requires AllShow(cs, tenant, w, ts)
    ensures Count(cs, Key(tenant, w, Bucket(w, time)), time) == Tally(ts, w, Bucket(w, time))
  {
    assert Shows(cs, Key(tenant, w, Bucket(w, time)), Tally(ts, w, Bucket(w, time)));
    BucketSpan(w, time);
  }

  /** A late look at a counter never shows more than the tally. */
  lemma CountAtMostTally(cs: map<Key, Counter>, tenant: string, w: Window, ts: seq<nat>, b: nat, time: nat)
    requires AllShow(cs, tenant, w, ts)
    ensures Count(cs, Key(tenant, w, b), time) <= Tally(ts, w, b)
  {
    assert Shows(cs, Key(tenant, w, b), Tally(ts, w, b));
  }

  lemma ShowsNext(cs: map<Key, Counter>, k: Key, time: nat, tally: nat, expireOk: bool)
    requires Shows(cs, k, tally) && k.bucket == Bucket(k.window, time)
    ensures Shows(CountersAfter(cs, k, time, Replied(expireOk)), k, tally + 1)
  {
    BucketSpan(k.window, time);
  }

  lemma OtherKeys(cs: map<Key, Counter>, k: Key, time: nat, expireOk: bool, x: Key)
    requires x != k
    ensures var cs' := CountersAfter(cs, k, time, Replied(expireOk));
      (x in cs' <==> x in cs) && (x in cs ==> cs'[x] == cs[x])
  {
  }

  /** Counting one arrival in w, seen from w itself. */
  lemma CountShows(cs: map<Key, Counter>, tenant: string, w: Window, ts: seq<nat>, time: nat, expireOk: bool)
    requires AllShow(cs, tenant, w, ts)
    ensures AllShow(CountersAfter(cs, Key(tenant, w, Bucket(w, time)), time, Replied(expireOk)), tenant, w, ts + [time])
  {
    var k := Key(tenant, w, Bucket(w, time));
    var cs' := CountersAfter(cs, k, time, Replied(expireOk));
    forall b
      ensures Shows(cs', Key(tenant, w, b), Tally(ts + [time], w, b))
    {
      TallyPush(ts, time, w, b);
      assert Shows(cs, Key(tenant, w, b), Tally(ts, w, b));
      if b == Bucket(w, time) {
        ShowsNext(cs, k, time, Tally(ts, w, b), expireOk);
      } else {
        OtherKeys(cs, k, time, expireOk, Key(tenant, w, b));
      }
    }
  }

  /** And from the other windows. */
  lemma CountElsewhere(cs: map<Key, Counter>, tenant: string, k: Key, time: nat, expireOk: bool, w: Window,
                       ts: seq<nat>)
    requires AllShow(cs, tenant, w, ts) && k.window != w
    ensures AllShow(CountersAfter(cs, k, time, Replied(expireOk)), tenant, w, ts)
  {
    forall b
      ensures Shows(CountersAfter(cs, k, time, Replied(expireOk)), Key(tenant, w, b), Tally(ts, w, b))
    {
      assert Shows(cs, Key(tenant, w, b), Tally(ts, w, b));
      OtherKeys(cs, k, time, expireOk, Key(tenant, w, b));
    }
  }

  /* ---------- serving one request ---------- */

  ghost predicate Showing(cs: map<Key, Counter>, tenant: string, ts: seq<nat>) {
    AllShow(cs, tenant, Minute, ts) && AllShow(cs, tenant, Hour, ts) && AllShow(cs, tenant, Burst, ts)
  }

  /** The first done windows, in the order of the checks, have the new arrival, the others not yet. */
  function UpTo(ts: seq<nat>, time: nat, w: Window, done: nat): seq<nat> {
    if Order(w) < done then ts + [time] else ts
  }

  ghost predicate Halfway(cs: map<Key, Counter>, tenant: string, ts: seq<nat>, time: nat, done: nat) {
    && AllShow(cs, tenant, Minute, UpTo(ts, time, Minute, done))
    && AllShow(cs, tenant, Hour, UpTo(ts, time, Hour, done))
    && AllShow(cs, tenant, Burst, UpTo(ts, time, Burst, done))
  }

  /** The request stands before the check of w and has counted, now, in the windows before it. */
  ghost predicate Before(r: Request, tenant: string, time: nat, w: Window) {
    && r.tenant == tenant && r.stage == Ready(w)
    && (forall v :: Order(v) < Order(w) ==> v in r.tickets && r.tickets[v].stamp == time)
  }

  ghost predicate Through(r: Request, tenant: string, time: nat) {
    r.tenant == tenant && r.stage == Admitted && forall v :: v in r.tickets && r.tickets[v].stamp == time
  }

  /** It has passed the check of w too. */
  ghost predicate Beyond(r: Request, tenant: string, time: nat, w: Window) {
    match w
    case Minute => Before(r, tenant, time, Hour)
    case Hour => Before(r, tenant, time, Burst)
    case Burst => Through(r, tenant, time)
  }

  /** One check of one request, within its limit. */
  lemma PassReady(limits: string -> Limits, slack: nat, mode: Mode, s: State, id: nat, tenant: string,
                  time: nat, w: Window, expireOk: bool) returns (t: State)
    requires Reaches(limits, slack, mode, s) && id in s.requests && s.now <= time && MayEnd(mode, Replied(expireOk))
    requires s.requests[id].tenant == tenant && s.requests[id].stage == Ready(w)
    requires Count(s.counters, Key(tenant, w, Bucket(w, time)), time) < Limit(limits(tenant), w)
    ensures Reaches(limits, slack, mode, t) && t.now == time
    ensures t.counters == CountersAfter(s.counters, Key(tenant, w, Bucket(w, time)), time, Replied(expireOk))
    ensures var n := Count(s.counters, Key(tenant, w, Bucket(w, time)), time) + 1;
      t.requests == s.requests[id := Request(tenant, After(w), s.requests[id].tickets[w := Ticket(time, n)])]
  {
    t := Attempt(limits, s, id, time, Replied(expireOk));
    ReachAttempt(limits, slack, mode, s, id, time, Replied(expireOk));
    AttemptMeaning(limits, s, id, time, Replied(expireOk));
  }

  lemma PassCheck(limits: string -> Limits, slack: nat, mode: Mode, s: State, id: nat, tenant: string,
                  time: nat, w: Window, expireOk: bool) returns (t: State)
    requires Reaches(limits, slack, mode, s) && id in s.requests && s.now <= time && MayEnd(mode, Replied(expireOk))
    requires Before(s.requests[id], tenant, time, w)
    requires Count(s.counters, Key(tenant, w, Bucket(w, time)), time) < Limit(limits(tenant), w)
    ensures Reaches(limits, slack, mode, t) && t.now == time && id in t.requests
    ensures t.requests == s.requests[id := t.requests[id]] && Beyond(t.requests[id], tenant, time, w)
    ensures t.counters == CountersAfter(s.counters, Key(tenant, w, Bucket(w, time)), time, Replied(expireOk))
  {
    t := PassReady(limits, slack, mode, s, id, tenant, time, w, expireOk);
  }

  lemma WindowNext(cs: map<Key, Counter>, tenant: string, ts: seq<nat>, time: nat, w: Window, expireOk: bool, v: Window)
    requires AllShow(cs, tenant, v, UpTo(ts, time, v, Order(w)))
    ensures AllShow(CountersAfter(cs, Key(tenant, w, Bucket(w, time)), time, Replied(expireOk)), tenant, v,
                    UpTo(ts, time, v, Order(w) + 1))
  {
    if v == w {
      CountShows(cs, tenant, w, ts, time, expireOk);
    } else {
      CountElsewhere(cs, tenant, Key(tenant, w, Bucket(w, time)), time, expireOk, v, UpTo(ts, time, v, Order(w)));
    }
  }

  lemma HalfwayNext(cs: map<Key, Counter>, tenant: string, ts: seq<nat>, time: nat, w: Window, expireOk: bool)
    requires Halfway(cs, tenant, ts, time, Order(w))
    ensures Halfway(CountersAfter(cs, Key(tenant, w, Bucket(w, time)), time, Replied(expireOk)), tenant, ts, time,
            Order(w) + 1)
  {
    WindowNext(cs, tenant, ts, time, w, expireOk, Minute);
    WindowNext(cs, tenant, ts, time, w, expireOk, Hour);
    WindowNext(cs, tenant, ts, time, w, expireOk, Burst);
  }

  lemma CheckOne(limits: string -> Limits, slack: nat, mode: Mode, s: State, id: nat, tenant: string, ts: seq<nat>,
                 time: nat, w: Window, expireOk: bool) returns (t: State)
    requires Reaches(limits, slack, mode, s) && id in s.requests && s.now <= time && MayEnd(mode, Replied(expireOk))
    requires Before(s.requests[id], tenant, time, w) && Halfway(s.counters, tenant, ts, time, Order(w))
    requires Tally(ts, w, Bucket(w, time)) < Limit(limits(tenant), w)
    ensures Reaches(limits, slack, mode, t) && t.now == time && id in t.requests
    ensures t.requests == s.requests[id := t.requests[id]] && Beyond(t.requests[id], tenant, time, w)
    ensures t.counters == CountersAfter(s.counters, Key(tenant, w, Bucket(w, time)), time, Replied(expireOk))
    ensures Halfway(t.counters, tenant, ts, time, Order(w) + 1)
  {
    assert AllShow(s.counters, tenant, w, UpTo(ts, time, w, Order(w)));
    CountIsTally(s.counters, tenant, w, ts, time);
    HalfwayNext(s.counters, tenant, ts, time, w, expireOk);
    t := PassCheck(limits, slack, mode, s, id, tenant, time, w, expireOk);
  }

  /* ---------- serving a timetable ---------- */

  ghost predicate Served(s: State, tenant: string, ts: seq<nat>) {
    && (forall i: nat :: i in s.requests <==> i < |ts|)
    && (forall i: nat :: i < |ts| ==> Through(s.requests[i], tenant, ts[i]))
    && Showing(s.counters, tenant, ts)
    && s.now == if ts == [] then 0 else ts[|ts| - 1]
  }

  /* ---------- one more arrival ---------- */

  /** The counters after all three checks of one arrival. */
  function CountersAfterAll(cs: map<Key, Counter>, tenant: string, time: nat, expireOk: bool): map<Key, Counter> {
    var one := CountersAfter(cs, Key(tenant, Minute, Bucket(Minute, time)), time, Replied(expireOk));
    var two := CountersAfter(one, Key(tenant, Hour, Bucket(Hour, time)), time, Replied(expireOk));
    CountersAfter(two, Key(tenant, Burst, Bucket(Burst, time)), time, Replied(expireOk))
  }

  lemma Arrival(limits: string -> Limits, slack: nat, mode: Mode, s: State, tenant: string, ts: seq<nat>, time: nat)
    returns (t: State)
    requires Reaches(limits, slack, mode, s) && Served(s, tenant, ts) && s.now <= time
    ensures Reaches(limits, slack, mode, t) && t.now == time && t.counters == s.counters
    ensures t.requests == s.requests[|ts| := Request(tenant, Ready(Minute), map[])]
  {
    ReachWait(limits, slack, mode, s, time);
    ReachStep(limits, slack, mode, s.(now := time), Arrive(|ts|, tenant));
    t := Do(limits, s.(now := time), Arrive(|ts|, tenant));
  }

  /** A served request joins the others. */
  lemma ServedPush(s: State, t: State, tenant: string, ts: seq<nat>, time: nat)
    requires Served(s, tenant, ts) && t.now == time && |ts| in t.requests
    requires t.requests == s.requests[|ts| := t.requests[|ts|]] && Through(t.requests[|ts|], tenant, time)
    requires Showing(t.counters, tenant, ts + [time])
    ensures Served(t, tenant, ts + [time])
  {
  }

  lemma ThreeChecks(limits: string -> Limits, slack: nat, mode: Mode, s: State, id: nat, tenant: string, ts: seq<nat>,
                    time: nat, expireOk: bool) returns (t: State)
    requires Reaches(limits, slack, mode, s) && id in s.requests && s.now <= time && MayEnd(mode, Replied(expireOk))
    requires Before(s.requests[id], tenant, time, Minute) && Showing(s.counters, tenant, ts)
    requires HasRoom(limits(tenant), ts, time)
    ensures Reaches(limits, slack, mode, t) && t.now == time && id in t.requests
    ensures t.requests == s.requests[id := t.requests[id]] && Through(t.requests[id], tenant, time)
    ensures t.counters == CountersAfterAll(s.counters, tenant, time, expireOk)
    ensures Showing(t.counters, tenant, ts + [time])
  {
    var one := CheckOne(limits, slack, mode, s, id, tenant, ts, time, Minute, expireOk);
    var two := CheckOne(limits, slack, mode, one, id, tenant, ts, time, Hour, expireOk);
    t := CheckOne(limits, slack, mode, two, id, tenant, ts, time, Burst, expireOk);
  }

  lemma ServeOne(limits: string -> Limits, slack: nat, mode: Mode, s: State, tenant: string, ts: seq<nat>, time: nat,
                 expireOk: bool) returns (t: State)
    requires Reaches(limits, slack, mode, s) && Served(s, tenant, ts) && s.now <= time
    requires MayEnd(mode, Replied(expireOk))
    requires HasRoom(limits(tenant), ts, time)
    ensures Reaches(limits, slack, mode, t) && Served(t, tenant, ts + [time])
    ensures t.counters == CountersAfterAll(s.counters, tenant, time, expireOk)
  {
    var arrived := Arrival(limits, slack, mode, s, tenant, ts, time);
    t := ThreeChecks(limits, slack, mode, arrived, |ts|, tenant, ts, time, expireOk);
    ServedPush(s, t, tenant, ts, time);
  }

  lemma ServedStart(tenant: string)
    ensures Served(START, tenant, [])
  {
  }

  /**
   Every sorted timetable that keeps the three limits in every bucket is admitted in full, by a
   timely run in which Redis answers every INCR and every EXPIRE.
   */
  lemma {:induction false} TimetableAdmitted(limits: string -> Limits, slack: nat, tenant: string, ts: seq<nat>)
    returns (s: State)
    requires Sorted(ts) && Fits(limits(tenant), ts)
    ensures Reaches(limits, slack, Healthy, s) && Served(s, tenant, ts)
  {
    if ts == [] {
      s := START;
      ReachStart(limits, slack, Healthy);
      ServedStart(tenant);
    } else {
      var n := |ts| - 1;
      FitsPrefix(limits(tenant), ts, n);
      s := TimetableAdmitted(limits, slack, tenant, ts[..n]);
      s := ServeOne(limits, slack, Healthy, s, tenant, ts[..n], ts[n], true);
      assert ts[..n] + [ts[n]] == ts;
    }
  }

  /* ---------- EXPIREs that fail after the first ---------- */

  /** The key of the first arrival's bucket expires two windows after it. */
  ghost predicate FirstExpiry(cs: map<Key, Counter>, tenant: string, first: nat) {
    && ExpiresAt(cs, Key(tenant, Minute, Bucket(Minute, first)), first + 2 * Length(Minute))
    && ExpiresAt(cs, Key(tenant, Hour, Bucket(Hour, first)), first + 2 * Length(Hour))
    && ExpiresAt(cs, Key(tenant, Burst, Bucket(Burst, first)), first + 2 * Length(Burst))
  }

  ghost predicate ExpiresAt(cs: map<Key, Counter>, k: Key, time: nat) {
    k in cs && cs[k].expiresAt == Some(time)
  }

  lemma ExpiryKept(cs: map<Key, Counter>, k: Key, x: Key, expires: nat, time: nat)
    requires ExpiresAt(cs, x, expires) && (x == k ==> time < expires)
    ensures ExpiresAt(CountersAfter(cs, k, time, Replied(false)), x, expires)
  {
  }

  /** Within the first bucket of every window or past it, later arrivals leave the expiry alone. */
  lemma FirstExpiryKept(cs: map<Key, Counter>, tenant: string, first: nat, time: nat, w: Window)
    requires first <= time && ExpiresAt(cs, Key(tenant, w, Bucket(w, first)), first + 2 * Length(w))
    ensures ExpiresAt(CountersAfterAll(cs, tenant, time, false), Key(tenant, w, Bucket(w, first)),
            first + 2 * Length(w))
  {
    var x := Key(tenant, w, Bucket(w, first));
    BucketSpan(w, first);
    BucketSpan(w, time);
    var one := CountersAfter(cs, Key(tenant, Minute, Bucket(Minute, time)), time, Replied(false));
    var two := CountersAfter(one, Key(tenant, Hour, Bucket(Hour, time)), time, Replied(false));
    ExpiryKept(cs, Key(tenant, Minute, Bucket(Minute, time)), x, first + 2 * Length(w), time);
    ExpiryKept(one, Key(tenant, Hour, Bucket(Hour, time)), x, first + 2 * Length(w), time);
    ExpiryKept(two, Key(tenant, Burst, Bucket(Burst, time)), x, first + 2 * Length(w), time);
  }

  lemma FirstExpirySet(tenant: string, first: nat)
    ensures FirstExpiry(CountersAfterAll(map[], tenant, first, true), tenant, first)
  {
  }

  lemma FirstExpiryNext(cs: map<Key, Counter>, tenant: string, first: nat, time: nat)
    requires first <= time && FirstExpiry(cs, tenant, first)
    ensures FirstExpiry(CountersAfterAll(cs, tenant, time, false), tenant, first)
  {
    FirstExpiryKept(cs, tenant, first, time, Minute);
    FirstExpiryKept(cs, tenant, first, time, Hour);
    FirstExpiryKept(cs, tenant, first, time, Burst);
  }

  lemma ServeFirst(limits: string -> Limits, slack: nat, tenant: string, time: nat) returns (s: State)
    requires HasRoom(limits(tenant), [], time)
    ensures Reaches(limits, slack, Answered, s) && Served(s, tenant, [time]) && FirstExpiry(s.counters, tenant, time)
  {
    assert [] + [time] == [time];
    ReachStart(limits, slack, Answered);
    ServedStart(tenant);
    s := ServeOne(limits, slack, Answered, START, tenant, [], time, true);
    FirstExpirySet(tenant, time);
  }

  lemma ServeNext(limits: string -> Limits, slack: nat, s: State, tenant: string, ts: seq<nat>,
                  n: nat) returns (t: State)
    requires 0 < n && n + 1 == |ts| && Sorted(ts) && HasRoom(limits(tenant), ts[..n], ts[n])
    requires Reaches(limits, slack, Answered, s) && Served(s, tenant, ts[..n]) && FirstExpiry(s.counters, tenant, ts[0])
    ensures Reaches(limits, slack, Answered, t) && Served(t, tenant, ts) && FirstExpiry(t.counters, tenant, ts[0])
  {
    t := ServeOne(limits, slack, Answered, s, tenant, ts[..n], ts[n], false);
    FirstExpiryNext(s.counters, tenant, ts[0], ts[n]);
    assert ts[..n] + [ts[n]] == ts;
  }

  /** The same timetables, with the EXPIREs after the first one failing. */
  lemma {:induction false} TimetableOnceExpiring(limits: string -> Limits, slack: nat, tenant: string, ts: seq<nat>)
    returns (s: State)
    requires Sorted(ts) && Fits(limits(tenant), ts) && ts != []
    ensures Reaches(limits, slack, Answered, s) && Served(s, tenant, ts) && FirstExpiry(s.counters, tenant, ts[0])
  {
    var n := |ts| - 1;
    FitsPrefix(limits(tenant), ts, n);
    if n == 0 {
      assert ts[..n] == [] && ts == [ts[0]];
      s := ServeFirst(limits, slack, tenant, ts[0]);
    } else {
      s := TimetableOnceExpiring(limits, slack, tenant, ts[..n]);
      s := ServeNext(limits, slack, s, tenant, ts, n);
    }
  }
}
