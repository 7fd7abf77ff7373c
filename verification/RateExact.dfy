/**
 How late an INCR may be.  A bucket keeps its limit over all runs exactly when no INCR may
 arrive at its horizon or later.  The overruns are built for any positive limits: the requests
 gather before the window's check, then count in it at one moment.
 */
module RateExact {
  import opened Basics
  import opened RateLimiter
  import opened WindowChecks
  import opened RateRuns

  /** With Redis gone for the windows that are left, a request goes through. */
  lemma ReachFinish(limits: string -> Limits, slack: nat, s: State, id: nat)
    requires Reaches(limits, slack, Anything, s) && id in s.requests
    requires s.requests[id].stage in {Ready(Hour), Ready(Burst), Admitted}
    ensures Reaches(limits, slack, Anything, Move(s, id, Admitted))
  {
    if s.requests[id].stage == Admitted {
      assert Move(s, id, Admitted) == s;
    } else {
      var t := Attempt(limits, s, id, s.now, IncrError);
      ReachAttempt(limits, slack, Anything, s, id, s.now, IncrError);
      AttemptMeaning(limits, s, id, s.now, IncrError);
      if s.requests[id].stage == Ready(Hour) {
        ReachAttempt(limits, slack, Anything, t, id, s.now, IncrError);
        AttemptMeaning(limits, t, id, s.now, IncrError);
        assert Attempt(limits, t, id, s.now, IncrError) == Move(s, id, Admitted);
      } else {
        assert t == Move(s, id, Admitted);
      }
    }
  }

  /* ---------- gathering requests before a check ---------- */

  /** The requests are 0 to n - 1, and those from first on stand before the check of w. */
  ghost predicate Waiting(s: State, tenant: string, w: Window, first: nat, n: nat) {
    && (forall i: nat :: i in s.requests <==> i < n)
    && (forall i: nat :: first <= i < n ==> s.requests[i].tenant == tenant && s.requests[i].stage == Ready(w))
  }

  /** Only minute keys up to minute m exist, and the tenant has counted c times in minute m. */
  ghost predicate MinuteUsed(s: State, tenant: string, m: nat, c: nat) {
    && s.now == m * 60_000
    && (forall k :: k in s.counters ==> k.window == Minute && k.bucket <= m)
    && Count(s.counters, Key(tenant, Minute, m), s.now) == c
  }

  lemma MinuteBucket(m: nat)
    ensures Bucket(Minute, m * 60_000) == m
  {
  }

  lemma CountUp(cs: map<Key, Counter>, k: Key, time: nat)
    ensures Count(CountersAfter(cs, k, time, Replied(true)), k, time) == Count(cs, k, time) + 1
    ensures forall k' :: k' in CountersAfter(cs, k, time, Replied(true)) <==> k' in cs || k' == k
  {
  }

  /** One more request arrives and passes the minute check. */
  lemma PassMinute(limits: string -> Limits, slack: nat, s: State, tenant: string, n: nat, m: nat, c: nat)
    returns (t: State)
    requires Reaches(limits, slack, Anything, s) && (forall i: nat ::
             i in s.requests <==> i < n) && MinuteUsed(s, tenant, m, c)
    requires c < limits(tenant).perMinute
    ensures Reaches(limits, slack, Anything, t) && MinuteUsed(t, tenant, m, c + 1)
    ensures n in t.requests && t.requests[n].tenant == tenant && t.requests[n].stage == Ready(Hour)
    ensures t.requests == s.requests[n := t.requests[n]]
  {
    ReachStep(limits, slack, Anything, s, Arrive(n, tenant));
    var arrived := Do(limits, s, Arrive(n, tenant));
    ReachAttempt(limits, slack, Anything, arrived, n, s.now, Replied(true));
    AttemptMeaning(limits, arrived, n, s.now, Replied(true));
    MinuteBucket(m);
    CountUp(s.counters, Key(tenant, Minute, m), s.now);
    t := Attempt(limits, arrived, n, s.now, Replied(true));
  }

  /** The same, up to the check of w. */
  lemma Join(limits: string -> Limits, slack: nat, s: State, tenant: string, w: Window, n: nat, m: nat, c: nat)
    returns (t: State)
    requires Reaches(limits, slack, Anything, s) && Waiting(s, tenant, w, 0, n) && MinuteUsed(s, tenant, m, c)
    requires w != Minute && c < limits(tenant).perMinute
    ensures Reaches(limits, slack, Anything, t) && Waiting(t, tenant, w, 0, n + 1) && MinuteUsed(t, tenant, m, c + 1)
  {
    t := PassMinute(limits, slack, s, tenant, n, m, c);
    if w == Burst {
      ReachAttempt(limits, slack, Anything, t, n, t.now, IncrError);
      AttemptMeaning(limits, t, n, t.now, IncrError);
      t := Attempt(limits, t, n, t.now, IncrError);
    }
  }

  /** Before the first check requests can gather at once. */
  lemma {:induction false} GatherFirst(limits: string -> Limits, slack: nat, tenant: string, n: nat) returns (s: State)
    ensures Reaches(limits, slack, Anything, s) && Waiting(s, tenant, Minute, 0, n) && s.counters == map[] && s.now == 0
  {
    if n == 0 {
      s := START;
      ReachStart(limits, slack, Anything);
    } else {
      s := GatherFirst(limits, slack, tenant, n - 1);
      ReachStep(limits, slack, Anything, s, Arrive(n - 1, tenant));
      s := Do(limits, s, Arrive(n - 1, tenant));
    }
  }

  lemma NextMinute(limits: string -> Limits, slack: nat, s: State, tenant: string, w: Window, n: nat, m: nat, c: nat)
    returns (t: State)
    requires Reaches(limits, slack, Anything, s) && Waiting(s, tenant, w, 0, n) && MinuteUsed(s, tenant, m, c)
    ensures Reaches(limits, slack, Anything, t) && Waiting(t, tenant, w, 0, n) && MinuteUsed(t, tenant, m + 1, 0)
  {
    ReachWait(limits, slack, Anything, s, (m + 1) * 60_000);
    t := s.(now := (m + 1) * 60_000);
  }

  /** Before the other checks they gather minute by minute, as many in each as the limit allows. */
  lemma {:induction false} GatherLater(limits: string -> Limits, slack: nat, tenant: string, w: Window, n: nat)
    returns (s: State, m: nat, c: nat)
    requires w != Minute && limits(tenant).perMinute >= 1
    ensures Reaches(limits, slack, Anything, s) && Waiting(s, tenant, w, 0, n) && MinuteUsed(s, tenant, m, c)
    ensures c <= limits(tenant).perMinute
  {
    if n == 0 {
      s, m, c := START, 0, 0;
      ReachStart(limits, slack, Anything);
    } else {
      s, m, c := GatherLater(limits, slack, tenant, w, n - 1);
      if c == limits(tenant).perMinute {
        s := NextMinute(limits, slack, s, tenant, w, n - 1, m, c);
        m, c := m + 1, 0;
      }
      s := Join(limits, slack, s, tenant, w, n - 1, m, c);
      c := c + 1;
    }
  }

  ghost predicate Gathered(s: State, tenant: string, w: Window, n: nat) {
    Waiting(s, tenant, w, 0, n) && forall k :: k in s.counters ==> k.window != w
  }

  lemma Gather(limits: string -> Limits, slack: nat, tenant: string, w: Window, n: nat) returns (s: State)
    requires limits(tenant).perMinute >= 1
    ensures Reaches(limits, slack, Anything, s) && Gathered(s, tenant, w, n)
  {
    if w == Minute {
      s := GatherFirst(limits, slack, tenant, n);
    } else {
      var m, c;
      s, m, c := GatherLater(limits, slack, tenant, w, n);
    }
  }

  /* ---------- counting at one moment ---------- */

  ghost predicate AdmittedAt(r: Request, tenant: string, w: Window, time: nat) {
    r.stage == Admitted && r.tenant == tenant && w in r.tickets && r.tickets[w].stamp == time
  }

  /** At this moment k of the n requests have counted in w and got through. */
  ghost predicate Line(s: State, tenant: string, w: Window, k: nat, n: nat) {
    var key := Key(tenant, w, Bucket(w, s.now));
    && Waiting(s, tenant, w, k, n)
    && (forall i: nat :: i < k && i < n ==> AdmittedAt(s.requests[i], tenant, w, s.now))
    && (forall k' :: k' in s.counters && k'.window == w ==> k' == key)
    && (if k == 0 then key !in s.counters
        else key in s.counters && s.counters[key] == Counter(k, Some(s.now + 2 * Length(w))))
  }

  lemma CountOne(cs: map<Key, Counter>, k: Key, time: nat, n: nat)
    requires if n == 0 then !Present(cs, k, time) else k in cs && cs[k] == Counter(n, Some(time + 2 * Length(k.window)))
    ensures Count(cs, k, time) == n
    ensures CountersAfter(cs, k, time, Replied(true)) == cs[k := Counter(n + 1, Some(time + 2 * Length(k.window)))]
  {
  }

  /** A request that counts now, within the limit, and then gets through. */
  lemma Through(limits: string -> Limits, slack: nat, s: State, id: nat, tenant: string, w: Window, n: nat)
    returns (t: State)
    requires Reaches(limits, slack, Anything, s) && id in s.requests
    requires s.requests[id].tenant == tenant && s.requests[id].stage == Ready(w)
    requires var k := Key(tenant, w, Bucket(w, s.now));
      if n == 0 then !Present(s.counters, k, s.now)
      else k in s.counters && s.counters[k] == Counter(n, Some(s.now + 2 * Length(w)))
    requires n < Limit(limits(tenant), w)
    ensures Reaches(limits, slack, Anything, t) && t.now == s.now && id in t.requests
    ensures AdmittedAt(t.requests[id], tenant, w, s.now)
    ensures t.requests == s.requests[id := t.requests[id]]
    ensures t.counters == s.counters[Key(tenant, w, Bucket(w, s.now)) := Counter(n + 1, Some(s.now + 2 * Length(w)))]
  {
    t := Attempt(limits, s, id, s.now, Replied(true));
    ReachAttempt(limits, slack, Anything, s, id, s.now, Replied(true));
    AttemptMeaning(limits, s, id, s.now, Replied(true));
    CountOne(s.counters, Key(tenant, w, Bucket(w, s.now)), s.now, n);
    ReachFinish(limits, slack, t, id);
    t := Move(t, id, Admitted);
  }

  lemma LineStep(limits: string -> Limits, slack: nat, s: State, tenant: string, w: Window, k: nat, n: nat)
    returns (t: State)
    requires Reaches(limits, slack, Anything, s) && Line(s, tenant, w, k, n) && k < n && k < Limit(limits(tenant), w)
    ensures Reaches(limits, slack, Anything, t) && Line(t, tenant, w, k + 1, n) && t.now == s.now
  {
    t := Through(limits, slack, s, k, tenant, w, k);
  }

  lemma {:induction false} FillLine(limits: string -> Limits, slack: nat, s: State, tenant: string, w: Window, k: nat,
                                    n: nat)
    returns (t: State)
    requires Reaches(limits, slack, Anything, s) && Line(s, tenant, w, 0, n) && k < n && k <= Limit(limits(tenant), w)
    ensures Reaches(limits, slack, Anything, t) && Line(t, tenant, w, k, n) && t.now == s.now
  {
    t := s;
    if k > 0 {
      t := FillLine(limits, slack, s, tenant, w, k - 1, n);
      t := LineStep(limits, slack, t, tenant, w, k - 1, n);
    }
  }

  /** At the given time the bucket is filled to its limit, and one more request waits. */
  lemma FilledBucket(limits: string -> Limits, slack: nat, s: State, tenant: string, w: Window,
                     time: nat) returns (t: State)
    requires Reaches(limits, slack, Anything, s) && Gathered(s, tenant, w, Limit(limits(tenant), w) + 1)
    requires s.now <= time
    ensures Reaches(limits, slack, Anything, t) && t.now == time
    ensures Line(t, tenant, w, Limit(limits(tenant), w), Limit(limits(tenant), w) + 1)
  {
    ReachWait(limits, slack, Anything, s, time);
    t := FillLine(limits, slack, s.(now := time), tenant, w, Limit(limits(tenant), w), Limit(limits(tenant), w) + 1);
  }

  /* ---------- INCRs at the horizon ---------- */

  lemma StartOfBucket(w: Window, b: nat) returns (time: nat)
    ensures Bucket(w, time) == b && time + 2 * Length(w) == Horizon(w, b) && time == b * Length(w)
  {
    time := b * Length(w);
  }

  /** An INCR on an expired key starts again at one, and the request gets through. */
  lemma LateCount(limits: string -> Limits, slack: nat, s: State, id: nat, w: Window) returns (t: State)
    requires Reaches(limits, slack, Anything, s) && id in s.requests && s.requests[id].stage.Stamped?
    requires InTime(slack, s, id)
    requires s.requests[id].stage.window == w && Limit(limits(s.requests[id].tenant), w) >= 1
    requires !Present(s.counters, KeyOf(s.requests[id], w, s.requests[id].stage.stamp), s.now)
    ensures Reaches(limits, slack, Anything, t) && id in t.requests && t.requests == s.requests[id := t.requests[id]]
    ensures AdmittedAt(t.requests[id], s.requests[id].tenant, w, s.requests[id].stage.stamp)
  {
    ReachStep(limits, slack, Anything, s, IncrOk(id));
    var counted := Do(limits, s, IncrOk(id));
    assert counted.requests[id].tickets[w] == Ticket(s.requests[id].stage.stamp, 1);
    ReachStep(limits, slack, Anything, counted, ExpireAndDecide(id, true));
    t := Do(limits, counted, ExpireAndDecide(id, true));
    ReachFinish(limits, slack, t, id);
    t := Move(t, id, Admitted);
  }

  /** The last request reads the clock with the others, and its INCR comes when the key has gone. */
  lemma LateOne(limits: string -> Limits, slack: nat, s: State, tenant: string, w: Window, id: nat) returns (t: State)
    requires slack > 0 && Limit(limits(tenant), w) >= 1 && id >= 1
    requires Reaches(limits, slack, Anything, s) && Line(s, tenant, w, id, id + 1)
    requires s.now + 2 * Length(w) == Horizon(w, Bucket(w, s.now))
    ensures Reaches(limits, slack, Anything, t)
    ensures forall i: nat :: i <= id ==> i in t.requests && AdmittedAt(t.requests[i], tenant, w, s.now)
  {
    ReachStep(limits, slack, Anything, s, ReadClock(id));
    var stamped := Do(limits, s, ReadClock(id));
    ReachWait(limits, slack, Anything, stamped, s.now + 2 * Length(w));
    t := LateCount(limits, slack, stamped.(now := s.now + 2 * Length(w)), id, w);
  }

  lemma OverrunAtHorizon(limits: string -> Limits, slack: nat, tenant: string, w: Window) returns (t: State, b: nat)
    requires slack > 0 && limits(tenant).perMinute >= 1 && Limit(limits(tenant), w) >= 1
    ensures Reaches(limits, slack, Anything, t) && |AdmittedIn(t, tenant, w, b)| > Limit(limits(tenant), w)
  {
    var s := Gather(limits, slack, tenant, w, Limit(limits(tenant), w) + 1);
    b := Bucket(w, s.now) + 1;
    var time := StartOfBucket(w, b);
    BucketSpan(w, s.now);
    s := FilledBucket(limits, slack, s, tenant, w, time);
    t := LateOne(limits, slack, s, tenant, w, Limit(limits(tenant), w));
    AtLeast(AdmittedIn(t, tenant, w, b), Limit(limits(tenant), w) + 1);
  }

  /**
   For every positive limits and each of the three counters: the limit per bucket holds over all
   runs if and only if no INCR arrives at or after the horizon of its bucket, which is when the
   key can have expired.
   */
  lemma BucketsHoldIff(limits: string -> Limits, slack: nat, tenant: string, w: Window)
    requires limits(tenant).perMinute >= 1 && Limit(limits(tenant), w) >= 1
    ensures BucketsHold(limits, slack, Anything, tenant, w) <==> slack == 0
  {
    if slack == 0 {
      BucketsHoldInTime(limits, Anything, tenant, w);
    } else {
      var t, b := OverrunAtHorizon(limits, slack, tenant, w);
      BucketOverrun(limits, slack, Anything, tenant, w, t, b);
    }
  }
}
