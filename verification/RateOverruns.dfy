/**
 How tight the rate limiter's bounds are in runs in which Redis answers every INCR: an interval
 as long as the window keeps the limit exactly when it is itself a bucket, and a bucket keeps it
 exactly when no INCR is as late as the bucket's horizon.
 */
module RateOverruns {
  import opened Basics
  import opened RateLimiter
  import opened WindowChecks
  import opened RateRuns
  import opened RateSchedule
  import opened Timetables

  /** The shorter windows leave room to use this one up in 59 of its 60 parts. */
  predicate Roomy(l: Limits, w: Window) {
    match w
    case Minute => 1 <= l.burst && 1 <= l.perMinute < l.perHour && l.perMinute < 59 * l.burst
    case Hour => 1 <= l.burst && 1 <= l.perMinute <= 60 * l.burst && 1 <= l.perHour < 59 * l.perMinute
    case Burst => 1 <= l.burst < l.perMinute && l.burst < l.perHour
  }

  lemma PlansRoomy(plan: string, w: Window)
    ensures Roomy(LimitsFor(plan), w)
  {
  }

  /* ---------- filling one part of an interval ---------- */

  /** The sixtieth part of a window, and how many arrivals it takes. */
  function Unit(w: Window): nat { if w == Hour then 60_000 else 1_000 }

  function UnitCap(l: Limits, w: Window): nat { if w == Hour then l.perMinute else l.burst }

  predicate StartsUnit(w: Window, t: nat) { if w == Hour then StartsBucket(Minute, t) else StartsBucket(Burst, t) }

  function Fill(l: Limits, w: Window, start: nat, n: nat): seq<nat>
    requires l.burst >= 1 && l.perMinute >= 1
  {
    if w == Hour then FillMinutes(start, l.perMinute, l.burst, n) else FillSeconds(start, l.burst, n)
  }

  lemma FillFacts(l: Limits, w: Window, start: nat, n: nat, q: nat)
    requires w != Burst && Roomy(l, w) && StartsUnit(w, start) && n <= Limit(l, w) && n <= q * UnitCap(l, w)
    ensures Filled(Fill(l, w, start, n), n, start, start + Unit(w) * q, l.perMinute, l.burst)
  {
    if w == Hour {
      FillMinutesFacts(start, l.perMinute, l.burst, n, q);
    } else {
      FillSecondsFacts(start, l.burst, n, q);
      CappedByLength(FillSeconds(start, l.burst, n), Minute, l.perMinute);
    }
  }

  lemma OneArrival(l: Limits, t: nat)
    requires l.burst >= 1 && l.perMinute >= 1
    ensures Filled([t], 1, t, t + 1, l.perMinute, l.burst)
  {
    CappedByLength([t], Minute, l.perMinute);
    CappedByLength([t], Burst, l.burst);
  }

  /** n arrivals in the m units before mid, or one just before it. */
  lemma PartBefore(l: Limits, w: Window, mid: nat, m: nat, n: nat) returns (ts: seq<nat>)
    requires w != Burst && Roomy(l, w) && n <= Limit(l, w) && (if m == 0 then n == 1 else n <= m * UnitCap(l, w))
    requires 1 <= mid && m * Unit(w) <= mid && StartsUnit(w, mid)
    ensures Filled(ts, n, if m == 0 then mid - 1 else mid - m * Unit(w), mid, l.perMinute, l.burst)
  {
    if m == 0 {
      ts := [mid - 1];
      OneArrival(l, mid - 1);
    } else {
      UnitsBefore(w, mid, m);
      ts := Fill(l, w, mid - m * Unit(w), n);
      FillFacts(l, w, mid - m * Unit(w), n, m);
    }
  }

  lemma UnitsBefore(w: Window, mid: nat, m: nat)
    requires StartsUnit(w, mid) && m * Unit(w) <= mid
    ensures StartsUnit(w, mid - m * Unit(w))
  {
    if w == Hour {
      WholeMinutes(mid - m * 60_000, mid / 60_000 - m);
    } else {
      Thousands(mid - m * 1_000, mid / 1_000 - m);
    }
  }

  /** n arrivals in the m units from mid on, or one at mid. */
  lemma PartFrom(l: Limits, w: Window, mid: nat, m: nat, n: nat) returns (ts: seq<nat>)
    requires w != Burst && Roomy(l, w) && n <= Limit(l, w) && (if m == 0 then n == 1 else n <= m * UnitCap(l, w))
    requires StartsUnit(w, mid)
    ensures Filled(ts, n, mid, if m == 0 then mid + 1 else mid + m * Unit(w), l.perMinute, l.burst)
  {
    if m == 0 {
      ts := [mid];
      OneArrival(l, mid);
    } else {
      ts := Fill(l, w, mid, n);
      FillFacts(l, w, mid, n, m);
    }
  }

  /* ---------- one arrival too many across a boundary ---------- */

  /** How limit + 1 arrivals are shared out over m and m' units with room for cap in each. */
  lemma Share(limit: nat, cap: nat, m: nat, m': nat) returns (n: nat, n': nat)
    requires 1 <= limit < 59 * cap && m + m' >= 59
    ensures n + n' == limit + 1 && 1 <= n <= limit && 1 <= n' <= limit
    ensures if m == 0 then n == 1 else n <= m * cap
    ensures if m' == 0 then n' == 1 else n' <= m' * cap
  {
    if m == 0 {
      n, n' := 1, limit;
      Scaled(59, m', cap);
    } else if m' == 0 {
      n, n' := limit, 1;
      Scaled(59, m, cap);
    } else {
      n := if limit <= m * cap then limit else m * cap;
      n' := limit + 1 - n;
      Scaled(59, m + m', cap);
      Scaled(1, m, cap);
      Scaled(1, m', cap);
      assert (m + m') * cap == m * cap + m' * cap;
    }
  }

  lemma Scaled(a: nat, b: nat, c: nat)
    requires a <= b
    ensures a * c <= b * c
  {
  }

  lemma MinuteAhead(t: nat) returns (mid: nat)
    requires t % 60_000 != 0
    ensures t < mid < t + 60_000 && mid % 60_000 == 0
  {
    mid := (t / 60_000 + 1) * 60_000;
    WholeMinutes(mid, t / 60_000 + 1);
  }

  lemma HourAhead(t: nat) returns (mid: nat)
    requires t % 3_600_000 != 0
    ensures t < mid < t + 3_600_000 && mid % 3_600_000 == 0
  {
    mid := (t / 3_600_000 + 1) * 3_600_000;
    WholeHours(mid, t / 3_600_000 + 1);
  }

  lemma WholeHours(x: nat, q: nat)
    requires x == 3_600_000 * q
    ensures x % 3_600_000 == 0
  {
  }

  lemma WholeUnits(x: nat, y: nat)
    ensures x / 1_000 * 1_000 <= x && (x + y == 60_000 ==> x / 1_000 + y / 1_000 >= 59)
    ensures x / 60_000 * 60_000 <= x && (x + y == 3_600_000 ==> x / 60_000 + y / 60_000 >= 59)
  {
  }

  /** The boundary inside the interval from t, with the whole units on either side of it. */
  lemma Boundary(w: Window, t: nat) returns (mid: nat, m: nat, m': nat)
    requires w != Burst && !StartsBucket(w, t)
    ensures t < mid < t + Length(w) && StartsBucket(w, mid) && StartsUnit(w, mid)
    ensures t + m * Unit(w) <= mid && mid + m' * Unit(w) <= t + Length(w) && m + m' >= 59
  {
    if w == Minute {
      mid := MinuteAhead(t);
    } else {
      mid := HourAhead(t);
    }
    BoundariesNest(mid);
    var x, y := mid - t, t + Length(w) - mid;
    WholeUnits(x, y);
    WholeUnits(y, x);
    if w == Minute {
      m, m' := x / 1_000, y / 1_000;
    } else {
      m, m' := x / 60_000, y / 60_000;
    }
  }

  /** Two filled parts on either side of a boundary keep all limits. */
  lemma JoinParts(l: Limits, w: Window, a: seq<nat>, b: seq<nat>, lo: nat, mid: nat, hi: nat)
    requires w != Burst && Roomy(l, w) && StartsBucket(w, mid) && lo <= mid <= hi
    requires Filled(a, |a|, lo, mid, l.perMinute, l.burst) && Filled(b, |b|, mid, hi, l.perMinute, l.burst)
    requires |a| <= Limit(l, w) && |b| <= Limit(l, w) && |a| + |b| == Limit(l, w) + 1
    ensures Sorted(a + b) && Span(a + b, lo, hi) && Fits(l, a + b)
  {
    BoundariesNest(mid);
    JoinFilled(a, b, lo, mid, hi, l.perMinute, l.burst);
    if w == Hour {
      CappedByLength(a, Hour, l.perHour);
      CappedByLength(b, Hour, l.perHour);
      JoinCapped(a, b, Hour, lo, mid, hi, l.perHour);
    } else {
      CappedByLength(a + b, Hour, l.perHour);
    }
  }

  lemma WidenFilled(ts: seq<nat>, n: nat, lo: nat, hi: nat, lo': nat, hi': nat, perMinute: nat, burst: nat)
    requires Filled(ts, n, lo, hi, perMinute, burst) && lo' <= lo && hi <= hi'
    ensures Filled(ts, n, lo', hi', perMinute, burst)
  {
  }

  lemma LongTimetable(l: Limits, w: Window, t: nat) returns (ts: seq<nat>)
    requires w != Burst && Roomy(l, w) && !StartsBucket(w, t)
    ensures Sorted(ts) && Fits(l, ts) && Span(ts, t, t + Length(w)) && |ts| == Limit(l, w) + 1
  {
    var mid, m, m' := Boundary(w, t);
    var n, n' := Share(Limit(l, w), UnitCap(l, w), m, m');
    var a := PartBefore(l, w, mid, m, n);
    var b := PartFrom(l, w, mid, m', n');
    WidenFilled(a, n, if m == 0 then mid - 1 else mid - m * Unit(w), mid, t, mid, l.perMinute, l.burst);
    WidenFilled(b, n', mid, if m' == 0 then mid + 1 else mid + m' * Unit(w), mid, t + Length(w), l.perMinute, l.burst);
    JoinParts(l, w, a, b, t, mid, t + Length(w));
    ts := a + b;
  }

  lemma ShortTimetable(l: Limits, t: nat) returns (ts: seq<nat>)
    requires Roomy(l, Burst) && !StartsBucket(Burst, t)
    ensures Sorted(ts) && Fits(l, ts) && Span(ts, t, t + 1_000) && |ts| == l.burst + 1
  {
    var mid := (t / 1_000 + 1) * 1_000;
    var a, b := Repeat(mid - 1, l.burst), [mid];
    RepeatFacts(mid - 1, l.burst);
    Widen(a, mid - 1, mid, mid);
    CappedByLength(a, Burst, l.burst);
    CappedByLength(b, Burst, l.burst);
    JoinSorted(a, b, mid - 1, mid, mid + 1);
    JoinCapped(a, b, Burst, mid - 1, mid, mid + 1, l.burst);
    CappedByLength(a + b, Minute, l.perMinute);
    CappedByLength(a + b, Hour, l.perHour);
    ts := a + b;
  }

  lemma ReachMore(limits: string -> Limits, slack: nat, mode: Mode, s: State)
    requires Reaches(limits, slack, Healthy, s)
    ensures Reaches(limits, slack, mode, s)
  {
    var actions :| IsRun(limits, slack, Healthy, actions) && Run(limits, actions) == s;
    assert IsRun(limits, slack, mode, actions);
  }

  /** From every start inside a bucket, a run with a healthy Redis admits limit + 1 requests
      within the window's length. */
  lemma OverrunAcrossBuckets(limits: string -> Limits, tenant: string, w: Window, t: nat) returns (s: State)
    requires Roomy(limits(tenant), w) && !StartsBucket(w, t)
    ensures Reaches(limits, 0, Healthy, s) && |AdmittedFrom(s, tenant, w, t)| > Limit(limits(tenant), w)
  {
    var ts: seq<nat>;
    if w == Burst {
      ts := ShortTimetable(limits(tenant), t);
    } else {
      ts := LongTimetable(limits(tenant), w, t);
    }
    s := TimetableAdmitted(limits, 0, tenant, ts);
    AllCounted(s, tenant, ts, w, t);
  }

  lemma AllCounted(s: State, tenant: string, ts: seq<nat>, w: Window, t: nat)
    requires Served(s, tenant, ts) && Span(ts, t, t + Length(w))
    ensures |AdmittedFrom(s, tenant, w, t)| >= |ts|
  {
    forall i: nat | i < |ts|
      ensures i in AdmittedFrom(s, tenant, w, t)
    {
      assert Through(s.requests[i], tenant, ts[i]);
    }
    AtLeast(AdmittedFrom(s, tenant, w, t), |ts|);
  }

  /* ---------- a sliding window ---------- */

  lemma SameBucket(w: Window, t: nat, stamp: nat)
    requires StartsBucket(w, t) && t <= stamp < t + Length(w)
    ensures Bucket(w, stamp) == Bucket(w, t)
  {
    AlignedStart(w, t);
    BucketSpan(w, stamp);
    Inside(w, Bucket(w, t), t, Bucket(w, stamp), stamp);
  }

  lemma Inside(w: Window, m: nat, t: nat, b: nat, stamp: nat)
    requires t + 2 * Length(w) == Horizon(w, m) && t <= stamp < t + Length(w)
    requires Horizon(w, b) - 2 * Length(w) <= stamp < Horizon(w, b) - Length(w)
    ensures b == m
  {
    match w
    case Minute =>
    case Hour =>
    case Burst =>
  }

  lemma AlignedInterval(s: State, tenant: string, w: Window, t: nat)
    requires StartsBucket(w, t)
    ensures |AdmittedFrom(s, tenant, w, t)| <= |AdmittedIn(s, tenant, w, Bucket(w, t))|
  {
    forall i | i in AdmittedFrom(s, tenant, w, t)
      ensures i in AdmittedIn(s, tenant, w, Bucket(w, t))
    {
      SameBucket(w, t, s.requests[i].tickets[w].stamp);
    }
    SubsetSize(AdmittedFrom(s, tenant, w, t), AdmittedIn(s, tenant, w, Bucket(w, t)));
  }

  lemma AlignedHolds(limits: string -> Limits, mode: Mode, tenant: string, w: Window, t: nat)
    requires StartsBucket(w, t)
    ensures IntervalHolds(limits, mode, tenant, w, t)
  {
    forall actions | IsRun(limits, 0, mode, actions)
      ensures |AdmittedFrom(Run(limits, actions), tenant, w, t)| <= Limit(limits(tenant), w)
    {
      BucketBound(limits, actions, tenant, w, Bucket(w, t));
      AlignedInterval(Run(limits, actions), tenant, w, t);
    }
  }

  /**
   The limiter is a sliding window nowhere but on the bucket boundaries: whatever Redis is
   allowed to do, an interval as long as the window keeps the limit over all timely runs if and
   only if it starts on one.
   */
  lemma SlidingWindowIff(limits: string -> Limits, mode: Mode, tenant: string, w: Window, t: nat)
    requires Roomy(limits(tenant), w)
    ensures IntervalHolds(limits, mode, tenant, w, t) <==> StartsBucket(w, t)
  {
    if StartsBucket(w, t) {
      AlignedHolds(limits, mode, tenant, w, t);
    } else {
      var s := OverrunAcrossBuckets(limits, tenant, w, t);
      ReachMore(limits, 0, mode, s);
      var actions :| IsRun(limits, 0, mode, actions) && Run(limits, actions) == s;
      assert |AdmittedFrom(Run(limits, actions), tenant, w, t)| > Limit(limits(tenant), w);
    }
  }
}
