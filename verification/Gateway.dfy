/**
 The rate-limit middleware itself, working on the shared counters, proved to take the steps
 of the limiter's state machine for a request that nothing interrupts.
 */
module Gateway {
  import opened Basics
  import opened RateLimiter
  import opened WindowChecks

  /** A request about to make its first check. */
  function Alone(counters: map<Key, Counter>, now: nat, tenant: string): State {
    State(now, counters, map[0 := Request(tenant, Ready(Minute), map[])])
  }

  function Passage(limits: string -> Limits, cs: map<Key, Counter>, tenant: string,
                   times: (nat, nat, nat), outcomes: (Outcome, Outcome, Outcome)): State {
    var minute := Attempt(limits, Alone(cs, times.0, tenant), 0, times.0, outcomes.0);
    var hour := Attempt(limits, minute, 0, times.1, outcomes.1);
    Attempt(limits, hour, 0, times.2, outcomes.2)
  }

  /** The number an INCR would draw. */
  function Draw(cs: map<Key, Counter>, tenant: string, w: Window, time: nat): nat {
    Count(cs, Key(tenant, w, Bucket(w, time)), time) + 1
  }

  /** A check that is answered with a number above the limit. */
  predicate Exceeds(cs: map<Key, Counter>, tenant: string, w: Window, time: nat, limit: nat, outcome: Outcome) {
    outcome.Replied? && Draw(cs, tenant, w, time) > limit
  }

  lemma DrawElsewhere(cs: map<Key, Counter>, tenant: string, v: Window, t: nat, outcome: Outcome, w: Window, time: nat)
    requires v != w
    ensures Draw(CountersAfter(cs, Key(tenant, v, Bucket(v, t)), t, outcome), tenant, w, time) ==
            Draw(cs, tenant, w, time)
  {
    if outcome.Replied? {
      CountedKey(cs, Key(tenant, v, Bucket(v, t)), t, outcome.expireOk);
    }
  }

  /** The counters after the checks a request makes, and whether it is admitted. */
  function Verdict(cs: map<Key, Counter>, l: Limits, tenant: string,
                  times: (nat, nat, nat), outcomes: (Outcome, Outcome, Outcome)): (map<Key, Counter>, bool) {
    if outcomes.0.IncrError? then (cs, true)
    else
      var one := CountersAfter(cs, Key(tenant, Minute, Bucket(Minute, times.0)), times.0, outcomes.0);
      if Exceeds(cs, tenant, Minute, times.0, l.perMinute, outcomes.0) then (one, false)
      else
        var two := CountersAfter(one, Key(tenant, Hour, Bucket(Hour, times.1)), times.1, outcomes.1);
        if Exceeds(one, tenant, Hour, times.1, l.perHour, outcomes.1) then (two, false)
        else
          var three := CountersAfter(two, Key(tenant, Burst, Bucket(Burst, times.2)), times.2, outcomes.2);
          (three, !Exceeds(two, tenant, Burst, times.2, l.burst, outcomes.2))
  }

  /**
   If the minute counter fails, the request is let through and nothing is counted.  Otherwise it
   is admitted if and only if its minute number is within the limit, and its hour and burst
   numbers are where those counters answer; the numbers are those the old counters give.
   */
  lemma VerdictMeaning(cs: map<Key, Counter>, l: Limits, tenant: string,
                      times: (nat, nat, nat), outcomes: (Outcome, Outcome, Outcome))
    ensures outcomes.0.IncrError? ==> Verdict(cs, l, tenant, times, outcomes) == (cs, true)
    ensures outcomes.0.Replied? ==>
      (Verdict(cs, l, tenant, times, outcomes).1 <==>
       && Draw(cs, tenant, Minute, times.0) <= l.perMinute
       && (outcomes.1.Replied? ==> Draw(cs, tenant, Hour, times.1) <= l.perHour)
       && (outcomes.2.Replied? ==> Draw(cs, tenant, Burst, times.2) <= l.burst))
  {
    var one := CountersAfter(cs, Key(tenant, Minute, Bucket(Minute, times.0)), times.0, outcomes.0);
    DrawElsewhere(cs, tenant, Minute, times.0, outcomes.0, Hour, times.1);
    DrawElsewhere(cs, tenant, Minute, times.0, outcomes.0, Burst, times.2);
    DrawElsewhere(one, tenant, Hour, times.1, outcomes.1, Burst, times.2);
  }

  ghost predicate Stands(s: State, tenant: string, stage: Stage, now: nat) {
    0 in s.requests && s.requests[0].tenant == tenant && s.requests[0].stage == stage && s.now <= now
  }

  /** One check, on the counters as they are. */
  lemma AttemptStage(limits: string -> Limits, s: State, tenant: string, w: Window, time: nat, outcome: Outcome)
    requires Stands(s, tenant, Ready(w), time)
    ensures var t := Attempt(limits, s, 0, time, outcome);
      && t.counters == CountersAfter(s.counters, Key(tenant, w, Bucket(w, time)), time, outcome)
      && Stands(t, tenant, if outcome.IncrError? then AfterFailure(w)
                           else if Exceeds(s.counters, tenant, w, time, Limit(limits(tenant), w), outcome) then Rejected
                           else After(w), time)
  {
    AttemptMeaning(limits, s, 0, time, outcome);
  }

  /** The steps of the machine come to the same. */
  lemma PassageIsVerdict(limits: string -> Limits, cs: map<Key, Counter>, tenant: string,
                        times: (nat, nat, nat), outcomes: (Outcome, Outcome, Outcome))
    requires times.0 <= times.1 <= times.2
    ensures var end := Passage(limits, cs, tenant, times, outcomes);
      var verdict := Verdict(cs, limits(tenant), tenant, times, outcomes);
      && end.counters == verdict.0
      && 0 in end.requests && end.requests[0].stage == if verdict.1 then Admitted else Rejected
  {
    var start := Alone(cs, times.0, tenant);
    var minute := Attempt(limits, start, 0, times.0, outcomes.0);
    AttemptStage(limits, start, tenant, Minute, times.0, outcomes.0);
    if minute.requests[0].stage == Ready(Hour) {
      var hour := Attempt(limits, minute, 0, times.1, outcomes.1);
      AttemptStage(limits, minute, tenant, Hour, times.1, outcomes.1);
      if hour.requests[0].stage == Ready(Burst) {
        AttemptStage(limits, hour, tenant, Burst, times.2, outcomes.2);
      }
    }
  }

  class Middleware {
    var counters: map<Key, Counter>

    constructor ()
      ensures counters == map[]
    {
      counters := map[];
    }

    method IncrKey(k: Key, now: nat) returns (count: nat)
      modifies this
      ensures counters == Incr(old(counters), k, now)
      ensures count == Count(old(counters), k, now) + 1 == Count(counters, k, now)
    {
      if k in counters && (counters[k].expiresAt.Some? ==> now < counters[k].expiresAt.value) {
        count := counters[k].count + 1;
        counters := counters[k := counters[k].(count := count)];
      } else {
        count := 1;
        counters := counters[k := Counter(1, None)];
      }
    }

    method ExpireKey(k: Key, now: nat, ttl: nat)
      modifies this
      ensures counters == SetExpiry(old(counters), k, now, ttl)
    {
      if Present(counters, k, now) {
        counters := counters[k := Counter(counters[k].count, Some(now + ttl))];
      }
    }

    /** One window's INCR and EXPIRE. */
    method CountIn(k: Key, time: nat, expireOk: bool) returns (count: nat)
      modifies this
      ensures counters == CountersAfter(old(counters), k, time, Replied(expireOk))
      ensures count == Count(old(counters), k, time) + 1
    {
      count := IncrKey(k, time);
      if expireOk && (k.window != Minute || count == 1) {
        ExpireKey(k, time, 2 * Length(k.window));
      }
    }

    /** One window's check: false if the number drawn is above the limit; a failed INCR is skipped. */
    method CheckWindow(tenant: string, w: Window, limit: nat, time: nat, outcome: Outcome) returns (ok: bool)
      modifies this
      ensures counters == CountersAfter(old(counters), Key(tenant, w, Bucket(w, time)), time, outcome)
      ensures ok <==> !Exceeds(old(counters), tenant, w, time, limit, outcome)
    {
      if outcome.IncrError? { return true; }
      var count := CountIn(Key(tenant, w, Bucket(w, time)), time, outcome.expireOk);
      ok := count <= limit;
    }

    /** Lets the request through, or answers 429; limits gives every tenant its plan's limits. */
    method Handle(tenant: string, plan: string, ghost limits: string -> Limits,
                  times: (nat, nat, nat), outcomes: (Outcome, Outcome, Outcome)) returns (admitted: bool)
      requires times.0 <= times.1 <= times.2 && limits(tenant) == LimitsFor(plan)
      modifies this
      ensures var end := Passage(limits, old(counters), tenant, times, outcomes);
        && counters == end.counters
        && 0 in end.requests
        && end.requests[0].stage == if admitted then Admitted else Rejected
      ensures outcomes.0.IncrError? ==> admitted && counters == old(counters)
      ensures outcomes.0.Replied? ==>
        (admitted <==>
         && Draw(old(counters), tenant, Minute, times.0) <= LimitsFor(plan).perMinute
         && (outcomes.1.Replied? ==> Draw(old(counters), tenant, Hour, times.1) <= LimitsFor(plan).perHour)
         && (outcomes.2.Replied? ==> Draw(old(counters), tenant, Burst, times.2) <= LimitsFor(plan).burst))
    {
      var tier := LimitsFor(plan);
      PassageIsVerdict(limits, counters, tenant, times, outcomes);
      VerdictMeaning(counters, tier, tenant, times, outcomes);
      admitted := Checks(tenant, tier, times, outcomes);
    }

    /** Minute, then hour, then burst, with the early exits. */
    method Checks(tenant: string, tier: Limits, times: (nat, nat, nat), outcomes: (Outcome, Outcome, Outcome))
      returns (admitted: bool)
      modifies this
      ensures (counters, admitted) == Verdict(old(counters), tier, tenant, times, outcomes)
    {
      if outcomes.0.IncrError? {
        return true;
      }
      var ok := CheckWindow(tenant, Minute, tier.perMinute, times.0, outcomes.0);
      if !ok {
        return false;
      }
      ok := CheckWindow(tenant, Hour, tier.perHour, times.1, outcomes.1);
      if !ok {
        return false;
      }
      ok := CheckWindow(tenant, Burst, tier.burst, times.2, outcomes.2);
      return ok;
    }
  }
}
