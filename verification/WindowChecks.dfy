/**
 One request's check of one window, taken without interruption: the clock is read, INCR
 answers or fails, EXPIRE may fail, and the request is rejected or goes on.
 */
module WindowChecks {
  import opened Basics
  import opened RateLimiter

  /** What Redis does with one window's INCR and EXPIRE. */
  datatype Outcome = IncrError | Replied(expireOk: bool)

  predicate Checking(s: State, id: nat) { id in s.requests && s.requests[id].stage.Ready? }

  /** The check as steps of the machine; a request past its checks does nothing. */
  function Attempt(limits: string -> Limits, s: State, id: nat, time: nat, outcome: Outcome): State {
    if !Checking(s, id) || time < s.now then s
    else
      var stamped := Do(limits, s.(now := time), ReadClock(id));
      match outcome
      case IncrError => Do(limits, stamped, IncrFails(id))
      case Replied(expireOk) => Do(limits, Do(limits, stamped, IncrOk(id)), ExpireAndDecide(id, expireOk))
  }

  function CountersAfter(cs: map<Key, Counter>, k: Key, time: nat, outcome: Outcome): map<Key, Counter> {
    if outcome.IncrError? then cs
    else
      var counted := Incr(cs, k, time);
      if outcome.expireOk && SetsExpiry(k.window, Count(counted, k, time))
      then SetExpiry(counted, k, time, 2 * Length(k.window)) else counted
  }

  /** n is the number the INCR would draw. */
  function RequestAfter(limits: string -> Limits, r: Request, w: Window, time: nat, n: nat, outcome: Outcome): Request {
    if outcome.IncrError? then r.(stage := AfterFailure(w))
    else r.(stage := if n > Limit(limits(r.tenant), w) then Rejected
      else After(w), tickets := r.tickets[w := Ticket(time, n)])
  }

  /** The check seen from outside: what it does to the counters and to the request, and that
      it touches nothing else. */
  lemma AttemptMeaning(limits: string -> Limits, s: State, id: nat, time: nat, outcome: Outcome)
    requires Checking(s, id) && s.now <= time
    ensures var r := s.requests[id];
      var k := KeyOf(r, r.stage.window, time);
      var n := Count(s.counters, k, time) + 1;
      Attempt(limits, s, id, time, outcome) ==
        State(time, CountersAfter(s.counters, k, time, outcome),
              s.requests[id := RequestAfter(limits, r, r.stage.window, time, n, outcome)])
  {
    var r := s.requests[id];
    var w := r.stage.window;
    var stamped := Do(limits, s.(now := time), ReadClock(id));
    if outcome.Replied? {
      var counted := Do(limits, stamped, IncrOk(id));
      assert counted.requests[id].tickets[w].stamp == time;
      assert Count(counted.counters, KeyOf(r, w, time), time) == Count(s.counters, KeyOf(r, w, time), time) + 1;
    }
  }

  /** An answered check counts one up on its own key, from zero if the key is missing or expired.
      EXPIRE gives the minute key two minutes, on the first count only, the hour key two hours
      and the burst key two seconds, on every count. */
  lemma CountedKey(cs: map<Key, Counter>, k: Key, time: nat, expireOk: bool)
    ensures var cs' := CountersAfter(cs, k, time, Replied(expireOk));
      var kept := if Present(cs, k, time) then cs[k].expiresAt else None;
      && k in cs' && cs'[k].count == Count(cs, k, time) + 1
      && (!expireOk ==> cs'[k].expiresAt == kept)
      && (expireOk && k.window == Minute ==>
            cs'[k].expiresAt == if Count(cs, k, time) == 0 then Some(time + 120_000) else kept)
      && (expireOk && k.window == Hour ==> cs'[k].expiresAt == Some(time + 7_200_000))
      && (expireOk && k.window == Burst ==> cs'[k].expiresAt == Some(time + 2_000))
    ensures forall x :: x != k ==>
      var cs' := CountersAfter(cs, k, time, Replied(expireOk));
      (x in cs' <==> x in cs) && (x in cs ==> cs'[x] == cs[x])
  {
  }
}
