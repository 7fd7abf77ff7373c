/** Reachable states of the rate limiter, by what Redis may do in the run. */
module RateRuns {
  import opened RateLimiter
  import opened WindowChecks

  /** Anything may happen; or every INCR is answered; or every EXPIRE succeeds as well. */
  datatype Mode = Anything | Answered | Healthy

  predicate Allowed(mode: Mode, a: Action) {
    && (mode != Anything ==> !a.IncrFails? && !a.IncrUnseen?)
    && (mode == Healthy && a.ExpireAndDecide? ==> a.expireOk)
  }

  predicate AllAllowed(mode: Mode, actions: seq<Action>) {
    forall i :: 0 <= i < |actions| ==> Allowed(mode, actions[i])
  }

  /** A run of this mode whose INCRs are at most slack too late. */
  predicate IsRun(limits: string -> Limits, slack: nat, mode: Mode, actions: seq<Action>) {
    Timely(limits, slack, actions) && AllAllowed(mode, actions)
  }

  ghost predicate Reaches(limits: string -> Limits, slack: nat, mode: Mode, s: State) {
    exists actions :: IsRun(limits, slack, mode, actions) && Run(limits, actions) == s
  }

  lemma ReachStart(limits: string -> Limits, slack: nat, mode: Mode)
    ensures Reaches(limits, slack, mode, START)
  {
    assert IsRun(limits, slack, mode, []) && Run(limits, []) == START;
  }

  lemma ReachStep(limits: string -> Limits, slack: nat, mode: Mode, s: State, a: Action)
    requires Reaches(limits, slack, mode, s) && Enabled(s, a) && Allowed(mode, a)
    requires a.IncrOk? ==> InTime(slack, s, a.id)
    ensures Reaches(limits, slack, mode, Do(limits, s, a))
  {
    var actions :| IsRun(limits, slack, mode, actions) && Run(limits, actions) == s;
    var more := actions + [a];
    assert more[..|more| - 1] == actions;
    assert IsRun(limits, slack, mode, more) && Run(limits, more) == Do(limits, s, a);
  }

  lemma ReachWait(limits: string -> Limits, slack: nat, mode: Mode, s: State, time: nat)
    requires Reaches(limits, slack, mode, s) && s.now <= time
    ensures Reaches(limits, slack, mode, s.(now := time))
  {
    ReachStep(limits, slack, mode, s, Wait(time - s.now));
  }

  predicate MayEnd(mode: Mode, outcome: Outcome) {
    match outcome
    case IncrError => mode == Anything
    case Replied(expireOk) => mode == Healthy ==> expireOk
  }

  /** An uninterrupted check is always in time. */
  lemma ReachAttempt(limits: string -> Limits, slack: nat, mode: Mode, s: State, id: nat, time: nat, outcome: Outcome)
    requires Reaches(limits, slack, mode, s) && Checking(s, id) && s.now <= time && MayEnd(mode, outcome)
    ensures Reaches(limits, slack, mode, Attempt(limits, s, id, time, outcome))
  {
    ReachWait(limits, slack, mode, s, time);
    var waited := s.(now := time);
    ReachStep(limits, slack, mode, waited, ReadClock(id));
    var stamped := Do(limits, waited, ReadClock(id));
    match outcome
    case IncrError => ReachStep(limits, slack, mode, stamped, IncrFails(id));
    case Replied(expireOk) =>
      BucketSpan(s.requests[id].stage.window, time);
      ReachStep(limits, slack, mode, stamped, IncrOk(id));
      ReachStep(limits, slack, mode, Do(limits, stamped, IncrOk(id)), ExpireAndDecide(id, expireOk));
  }

  /* ---------- what may hold of all runs ---------- */

  /** Over all such runs, no bucket admits more than its limit. */
  ghost predicate BucketsHold(limits: string -> Limits, slack: nat, mode: Mode, tenant: string, w: Window) {
    forall actions, bucket :: IsRun(limits, slack, mode, actions) ==>
      |AdmittedIn(Run(limits, actions), tenant, w, bucket)| <= Limit(limits(tenant), w)
  }

  /** Over all timely runs, the window-long interval from t admits at most the limit. */
  ghost predicate IntervalHolds(limits: string -> Limits, mode: Mode, tenant: string, w: Window, t: nat) {
    forall actions :: IsRun(limits, 0, mode, actions) ==>
      |AdmittedFrom(Run(limits, actions), tenant, w, t)| <= Limit(limits(tenant), w)
  }

  lemma BucketsHoldInTime(limits: string -> Limits, mode: Mode, tenant: string, w: Window)
    ensures BucketsHold(limits, 0, mode, tenant, w)
  {
    forall actions, bucket | IsRun(limits, 0, mode, actions)
      ensures |AdmittedIn(Run(limits, actions), tenant, w, bucket)| <= Limit(limits(tenant), w)
    {
      BucketBound(limits, actions, tenant, w, bucket);
    }
  }

  lemma BucketOverrun(limits: string -> Limits, slack: nat, mode: Mode, tenant: string, w: Window, s: State, b: nat)
    requires Reaches(limits, slack, mode, s) && |AdmittedIn(s, tenant, w, b)| > Limit(limits(tenant), w)
    ensures !BucketsHold(limits, slack, mode, tenant, w)
  {
    var actions :| IsRun(limits, slack, mode, actions) && Run(limits, actions) == s;
    assert |AdmittedIn(Run(limits, actions), tenant, w, b)| > Limit(limits(tenant), w);
  }

  lemma {:induction false} AtLeast(ids: set<nat>, n: nat)
    requires forall i: nat :: i < n ==> i in ids
    ensures |ids| >= n
  {
    if n > 0 {
      AtLeast(ids - {n - 1}, n - 1);
      assert |ids - {n - 1}| == |ids| - 1;
    }
  }
}
