/**
 The other half of the rate limiter: a request is turned away only when its bucket has been
 used up, by requests that counted and by INCRs whose answers were lost.
 */
module RateFairness {
  import opened RateLimiter

  /* ---------- executed INCRs ---------- */

  /** Redis executes an INCR on k, whether or not its answer arrives. */
  predicate Executes(s: State, a: Action, k: Key) {
    (a.IncrOk? || a.IncrUnseen?) && Enabled(s, a) && StampedKey(s, a.id) == k
  }

  function Executed(limits: string -> Limits, actions: seq<Action>, k: Key): nat {
    if actions == [] then 0
    else
      var before, a := actions[..|actions| - 1], actions[|actions| - 1];
      Executed(limits, before, k) + (if Executes(Run(limits, before), a, k) then 1 else 0)
  }

  /** Those among them whose answer was lost. */
  function Unseen(limits: string -> Limits, actions: seq<Action>, k: Key): nat {
    if actions == [] then 0
    else
      var before, a := actions[..|actions| - 1], actions[|actions| - 1];
      Unseen(limits, before, k) + (if a.IncrUnseen? && Executes(Run(limits, before), a, k) then 1 else 0)
  }

  function ExecutedOn(limits: string -> Limits, actions: seq<Action>): Key -> nat {
    (k: Key) => Executed(limits, actions, k)
  }

  /* ---------- the invariant ---------- */

  predicate Over(limits: string -> Limits, r: Request, w: Window) {
    w in r.tickets && r.tickets[w].n > Limit(limits(r.tenant), w)
  }

  ghost predicate RejectedOk(limits: string -> Limits, r: Request) {
    r.stage.Rejected? ==> exists w :: Over(limits, r, w)
  }

  /** Ticket numbers never run ahead of the executed INCRs. */
  ghost predicate Earned(done: Key -> nat, r: Request, w: Window) {
    w in r.tickets ==> r.tickets[w].n <= done(KeyOf(r, w, r.tickets[w].stamp))
  }

  ghost predicate Fair(limits: string -> Limits, s: State, done: Key -> nat) {
    && (forall k :: k in s.counters ==> s.counters[k].count <= done(k))
    && (forall i, w :: i in s.requests ==> Earned(done, s.requests[i], w))
    && (forall i, w :: i in s.requests ==> PassedOk(limits, s.requests[i], w))
    && (forall i :: i in s.requests ==> RejectedOk(limits, s.requests[i]))
  }

  ghost predicate OneMore(done: Key -> nat, after: Key -> nat, k: Key) {
    forall x :: after(x) == done(x) + (if x == k then 1 else 0)
  }

  lemma CountStepFair(limits: string -> Limits, s: State, done: Key -> nat, after: Key -> nat, id: nat)
    requires Fair(limits, s, done) && Enabled(s, IncrOk(id)) && OneMore(done, after, StampedKey(s, id))
    ensures Fair(limits, CountStep(s, id), after)
  {
    var t := CountStep(s, id);
    forall i, w | i in t.requests
      ensures Earned(after, t.requests[i], w) && PassedOk(limits, t.requests[i], w)
    {
      assert Earned(done, s.requests[i], w) && PassedOk(limits, s.requests[i], w);
      if i == id { IncrPassed(limits, s, id, w); }
    }
  }

  lemma UnseenStepFair(limits: string -> Limits, s: State, done: Key -> nat, after: Key -> nat, id: nat)
    requires Fair(limits, s, done) && Enabled(s, IncrUnseen(id)) && OneMore(done, after, StampedKey(s, id))
    ensures Fair(limits, UnseenStep(s, id), after)
  {
    forall i, w | i in s.requests
      ensures Earned(after, s.requests[i], w)
    {
      assert Earned(done, s.requests[i], w);
    }
  }

  /** Steps that draw no ticket and raise no counter. */
  lemma OtherStepFair(limits: string -> Limits, s: State, t: State, done: Key -> nat)
    requires Fair(limits, s, done)
    requires forall k :: k in t.counters ==> k in s.counters && t.counters[k].count == s.counters[k].count
    requires forall i :: i in t.requests && t.requests[i].tickets != map[] ==>
      i in s.requests && t.requests[i].tickets == s.requests[i].tickets && t.requests[i].tenant == s.requests[i].tenant
    requires forall i, w :: i in t.requests ==> PassedOk(limits, t.requests[i], w)
    requires forall i :: i in t.requests ==> RejectedOk(limits, t.requests[i])
    ensures Fair(limits, t, done)
  {
    forall i, w | i in t.requests
      ensures Earned(done, t.requests[i], w)
    {
      if w in t.requests[i].tickets {
        assert Earned(done, s.requests[i], w);
      }
    }
  }

  lemma DecideStepFair(limits: string -> Limits, s: State, done: Key -> nat, id: nat, expireOk: bool)
    requires Fair(limits, s, done) && Enabled(s, ExpireAndDecide(id, expireOk))
    ensures Fair(limits, DecideStep(limits, s, id, expireOk), done)
  {
    var t := DecideStep(limits, s, id, expireOk);
    forall i, w | i in t.requests
      ensures PassedOk(limits, t.requests[i], w)
    {
      assert PassedOk(limits, s.requests[i], w);
      if i == id { DecidePassed(limits, s, id, expireOk, w); }
    }
    forall i | i in t.requests
      ensures RejectedOk(limits, t.requests[i])
    {
      assert RejectedOk(limits, s.requests[i]);
      if i == id && t.requests[i].stage.Rejected? {
        assert Over(limits, t.requests[i], s.requests[id].stage.window);
      }
    }
    OtherStepFair(limits, s, t, done);
  }

  predicate IsQuiet(a: Action) {
    !a.IncrOk? && !a.IncrUnseen? && !a.ExpireAndDecide?
  }

  lemma QuietStepFair(limits: string -> Limits, s: State, done: Key -> nat, a: Action)
    requires Fair(limits, s, done) && Enabled(s, a) && IsQuiet(a)
    ensures Fair(limits, Do(limits, s, a), done)
  {
    var t := Do(limits, s, a);
    forall i, w | i in t.requests
      ensures PassedOk(limits, t.requests[i], w)
    {
      if i in s.requests { assert PassedOk(limits, s.requests[i], w); }
    }
    forall i | i in t.requests
      ensures RejectedOk(limits, t.requests[i])
    {
      if i in s.requests { assert RejectedOk(limits, s.requests[i]); }
    }
    OtherStepFair(limits, s, t, done);
  }

  lemma SameFair(limits: string -> Limits, s: State, done: Key -> nat, after: Key -> nat)
    requires Fair(limits, s, done) && forall k :: after(k) == done(k)
    ensures Fair(limits, s, after)
  {
    forall i, w | i in s.requests
      ensures Earned(after, s.requests[i], w)
    {
      assert Earned(done, s.requests[i], w);
    }
  }

  lemma StepFair(limits: string -> Limits, s: State, done: Key -> nat, after: Key -> nat, a: Action)
    requires Fair(limits, s, done) && Enabled(s, a)
    requires forall k :: after(k) == done(k) + (if Executes(s, a, k) then 1 else 0)
    ensures Fair(limits, Do(limits, s, a), after)
  {
    match a
    case IncrOk(id) => CountStepFair(limits, s, done, after, id);
    case IncrUnseen(id) => UnseenStepFair(limits, s, done, after, id);
    case ExpireAndDecide(id, expireOk) =>
      DecideStepFair(limits, s, done, id, expireOk);
      SameFair(limits, Do(limits, s, a), done, after);
    case _ =>
      QuietStepFair(limits, s, done, a);
      SameFair(limits, Do(limits, s, a), done, after);
  }

  lemma {:induction false} EveryRunFair(limits: string -> Limits, actions: seq<Action>)
    ensures Fair(limits, Run(limits, actions), ExecutedOn(limits, actions))
  {
    if actions != [] {
      var before, a := actions[..|actions| - 1], actions[|actions| - 1];
      var s := Run(limits, before);
      EveryRunFair(limits, before);
      if Enabled(s, a) {
        StepFair(limits, s, ExecutedOn(limits, before), ExecutedOn(limits, actions), a);
      } else {
        SameFair(limits, s, ExecutedOn(limits, before), ExecutedOn(limits, actions));
      }
    }
  }

  /* ---------- who used the bucket up ---------- */

  /** Requests that counted on the key, whatever became of them. */
  ghost function Drawn(s: State, k: Key): set<nat> {
    set i | i in s.requests && Drew(s.requests[i], k)
  }

  ghost predicate Drew(r: Request, k: Key) {
    k.window in r.tickets && KeyOf(r, k.window, r.tickets[k.window].stamp) == k
  }

  lemma DrewOwn(limits: string -> Limits, s: State, id: nat)
    requires Enabled(s, IncrOk(id)) && PassedOk(limits, s.requests[id], s.requests[id].stage.window)
    ensures !Drew(s.requests[id], StampedKey(s, id)) && Drew(CountStep(s, id).requests[id], StampedKey(s, id))
  {
  }

  lemma DrewOther(limits: string -> Limits, s: State, id: nat, k: Key)
    requires Enabled(s, IncrOk(id)) && PassedOk(limits, s.requests[id], s.requests[id].stage.window)
    requires k != StampedKey(s, id)
    ensures Drew(CountStep(s, id).requests[id], k) <==> Drew(s.requests[id], k)
  {
    var r, t := s.requests[id], CountStep(s, id).requests[id];
    if k.window == r.stage.window {
      assert t.tickets[k.window].stamp == r.stage.stamp && r.stage.window !in r.tickets;
    }
  }

  /** A request counts in a window for the first time, and so adds itself to its key's. */
  lemma CountDraws(limits: string -> Limits, s: State, id: nat, k: Key)
    requires Enabled(s, IncrOk(id)) && PassedOk(limits, s.requests[id], s.requests[id].stage.window)
    ensures |Drawn(CountStep(s, id), k)| == |Drawn(s, k)| + (if k == StampedKey(s, id) then 1 else 0)
  {
    if k == StampedKey(s, id) {
      DrewOwn(limits, s, id);
      assert Drawn(CountStep(s, id), k) == Drawn(s, k) + {id};
    } else {
      DrewOther(limits, s, id, k);
      assert Drawn(CountStep(s, id), k) == Drawn(s, k);
    }
  }

  lemma OtherDraws(limits: string -> Limits, s: State, a: Action, k: Key)
    requires Enabled(s, a) && !a.IncrOk?
    ensures Drawn(Do(limits, s, a), k) == Drawn(s, k)
  {
    var t := Do(limits, s, a);
    forall i
      ensures i in Drawn(t, k) <==> i in Drawn(s, k)
    {
    }
  }

  /** Executed INCRs are those of requests that counted and those whose answer was lost. */
  lemma {:induction false} ExecutedSplits(limits: string -> Limits, actions: seq<Action>, k: Key)
    ensures Executed(limits, actions, k) == |Drawn(Run(limits, actions), k)| + Unseen(limits, actions, k)
  {
    if actions == [] {
      assert Drawn(START, k) == {};
    } else {
      var before, a := actions[..|actions| - 1], actions[|actions| - 1];
      var s := Run(limits, before);
      ExecutedSplits(limits, before, k);
      EveryRunFair(limits, before);
      if Enabled(s, a) {
        if a.IncrOk? {
          CountDraws(limits, s, a.id, k);
        } else {
          OtherDraws(limits, s, a, k);
        }
      }
    }
  }

  /**
   Every rejected request counted in a bucket on which Redis has executed more INCRs than the
   limit; without lost answers, a bucket in which more requests than the limit have counted.
   This needs no bound on delays.
   */
  lemma RejectedOnlyWhenFull(limits: string -> Limits, actions: seq<Action>, id: nat) returns (w: Window, k: Key)
    requires id in Run(limits, actions).requests && Run(limits, actions).requests[id].stage.Rejected?
    ensures k.tenant == Run(limits, actions).requests[id].tenant && k.window == w
    ensures id in Drawn(Run(limits, actions), k)
    ensures |Drawn(Run(limits, actions), k)| + Unseen(limits, actions, k) > Limit(limits(k.tenant), w)
  {
    var s := Run(limits, actions);
    EveryRunFair(limits, actions);
    assert RejectedOk(limits, s.requests[id]);
    w :| Over(limits, s.requests[id], w);
    k := KeyOf(s.requests[id], w, s.requests[id].tickets[w].stamp);
    assert Earned(ExecutedOn(limits, actions), s.requests[id], w);
    ExecutedSplits(limits, actions, k);
  }
}
