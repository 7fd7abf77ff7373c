/**
 The SDK's feature-flag client: an insertion-ordered cache with a size bound and a time to
 live, filled by fetches that may overlap.  Times are milliseconds.
 */
module FlagCache {
  import opened Basics
  import opened Keys

  const MAX_SIZE := 1000
  const TTL := 60_000

  datatype Slot = Slot(key: string, value: bool, expiresAt: int)

  /* ---------- the ordered map ---------- */

  function IndexOf(cache: seq<Slot>, key: string): (k: nat)
    ensures k <= |cache|
    ensures k < |cache| ==> cache[k].key == key
    ensures k == |cache| ==> forall i :: 0 <= i < |cache| ==> cache[i].key != key
  {
    if cache == [] then 0
    else if cache[0].key == key then 0
    else
      assert forall i :: 0 < i < |cache| ==> cache[i] == cache[1..][i - 1];
      1 + IndexOf(cache[1..], key)
  }

  /** Map.set: an existing key keeps its place. */
  function Set(cache: seq<Slot>, slot: Slot): seq<Slot> {
    var k := IndexOf(cache, slot.key);
    if k < |cache| then cache[k := slot] else cache + [slot]
  }

  /** The oldest key is evicted from a full cache, even when the key to be set is present. */
  function Stored(cache: seq<Slot>, slot: Slot): seq<Slot> {
    Set(if |cache| >= MAX_SIZE then cache[1..] else cache, slot)
  }

  function Hit(cache: seq<Slot>, key: string, now: int): Option<bool> {
    var k := IndexOf(cache, key);
    if k < |cache| && cache[k].expiresAt > now then Some(cache[k].value) else None
  }

  ghost predicate DistinctKeys(cache: seq<Slot>) {
    forall i, j :: 0 <= i < j < |cache| ==> cache[i].key != cache[j].key
  }

  /** Storing keeps the bound and the keys distinct, and brings in nothing but the new slot. */
  lemma StoredKeeps(cache: seq<Slot>, slot: Slot)
    requires |cache| <= MAX_SIZE && DistinctKeys(cache)
    ensures |Stored(cache, slot)| <= MAX_SIZE && DistinctKeys(Stored(cache, slot))
    ensures slot in Stored(cache, slot)
    ensures forall s :: s in Stored(cache, slot) ==> s == slot || s in cache
  {
    var c := if |cache| >= MAX_SIZE then cache[1..] else cache;
    var k := IndexOf(c, slot.key);
    var d := Stored(cache, slot);
    assert d[k] == slot;
  }

  /** Nothing is dropped but the key's own previous slot and the oldest slot of a full cache. */
  lemma StoredDropsOldestOnly(cache: seq<Slot>, slot: Slot, s: Slot)
    requires |cache| <= MAX_SIZE && DistinctKeys(cache) && s in cache && s.key != slot.key
    ensures s in Stored(cache, slot) <==> |cache| < MAX_SIZE || s != cache[0]
  {
    var c := if |cache| >= MAX_SIZE then cache[1..] else cache;
    var d := Stored(cache, slot);
    if |cache| < MAX_SIZE || s != cache[0] {
      assert s in c;
      var i :| 0 <= i < |c| && c[i] == s;
      assert d[i] == s;
    } else {
      assert forall i :: 0 <= i < |d| ==> d[i] == slot || d[i] == cache[i + 1];
    }
  }

  /** What was stored is what the next call gets, until it expires. */
  lemma HitAfterStore(cache: seq<Slot>, slot: Slot, now: int)
    requires |cache| <= MAX_SIZE && DistinctKeys(cache)
    ensures Hit(Stored(cache, slot), slot.key, now) == if now < slot.expiresAt then Some(slot.value) else None
  {
    StoredKeeps(cache, slot);
    var d := Stored(cache, slot);
    var i :| 0 <= i < |d| && d[i] == slot;
    assert d[IndexOf(d, slot.key)].key == d[i].key;
  }

  /* ---------- the client as a state machine ---------- */

  datatype Request = Request(tenant: string, feature: string)

  /** A server reply and when it was stored. */
  datatype Reply = Reply(request: Request, value: bool, at: int)

  datatype Source = GatingOff | Cached | Fetched | FetchFailed

  datatype Answer = Answer(request: Request, value: bool, at: int, source: Source)

  datatype State = State(
    cache: seq<Slot>,
    now: int,
    inFlight: map<nat, Request>,
    replies: seq<Reply>,
    answers: seq<Answer>)

  datatype Action =
    | Wait(ms: nat)
    | Call(id: nat, request: Request)
    | Respond(reply: nat, value: bool)
    | Fail(failed: nat)

  const START := State([], 0, map[], [], [])

  function KeyOf(r: Request): string { Joined(r.tenant, r.feature) }

  function Answered(s: State, r: Request, value: bool, source: Source): State {
    s.(answers := s.answers + [Answer(r, value, s.now, source)])
  }

  /** Tenant ids are UUIDs, and a call in flight has its own id. */
  predicate Enabled(s: State, a: Action) {
    match a
    case Wait(_) => true
    case Call(id, r) => id !in s.inFlight && ColonFree(r.tenant)
    case Respond(id, _) => id in s.inFlight
    case Fail(id) => id in s.inFlight
  }

  function Do(gating: bool, s: State, a: Action): State
    requires Enabled(s, a)
  {
    match a
    case Wait(ms) => s.(now := s.now + ms)
    case Call(id, r) =>
      if !gating then Answered(s, r, true, GatingOff)
      else
        var hit := Hit(s.cache, KeyOf(r), s.now);
        if hit.Some? then Answered(s, r, hit.value, Cached)
        else s.(inFlight := s.inFlight[id := r])
    case Respond(id, value) =>
      var r := s.inFlight[id];
      Answered(s.(cache := Stored(s.cache, Slot(KeyOf(r), value, s.now + TTL)),
                  inFlight := s.inFlight - {id},
                  replies := s.replies + [Reply(r, value, s.now)]),
               r, value, Fetched)
    case Fail(id) =>
      Answered(s.(inFlight := s.inFlight - {id}), s.inFlight[id], false, FetchFailed)
  }

  function Run(gating: bool, actions: seq<Action>): State {
    if actions == [] then START
    else
      var s := Run(gating, actions[..|actions| - 1]);
      var a := actions[|actions| - 1];
      if Enabled(s, a) then Do(gating, s, a) else s
  }

  /* ---------- the invariant ---------- */

  /** The slot was filled from this reply. */
  ghost predicate FilledFrom(slot: Slot, r: Reply) {
    && ColonFree(r.request.tenant)
    && slot == Slot(KeyOf(r.request), r.value, r.at + TTL)
  }

  ghost predicate Sourced(slot: Slot, replies: seq<Reply>, now: int) {
    exists i :: 0 <= i < |replies| && replies[i].at <= now && FilledFrom(slot, replies[i])
  }

  /** The answer repeats a reply for the same tenant and feature less than TTL old. */
  ghost predicate Recent(a: Answer, replies: seq<Reply>) {
    exists i :: 0 <= i < |replies| && replies[i].request == a.request && replies[i].value == a.value
                && replies[i].at <= a.at < replies[i].at + TTL
  }

  ghost predicate Justified(gating: bool, a: Answer, replies: seq<Reply>) {
    match a.source
    case GatingOff => !gating && a.value
    case FetchFailed => gating && !a.value
    case _ => gating && Recent(a, replies)
  }

  ghost predicate Inv(gating: bool, s: State) {
    && |s.cache| <= MAX_SIZE
    && DistinctKeys(s.cache)
    && (forall slot :: slot in s.cache ==> Sourced(slot, s.replies, s.now))
    && (forall id :: id in s.inFlight ==> ColonFree(s.inFlight[id].tenant))
    && (forall a :: a in s.answers ==> Justified(gating, a, s.replies))
    && (s.inFlight != map[] ==> gating)
  }

  lemma SourcedLater(slot: Slot, replies: seq<Reply>, now: int, replies': seq<Reply>, now': int)
    requires Sourced(slot, replies, now) && replies <= replies' && now <= now'
    ensures Sourced(slot, replies', now')
  {
    var i :| 0 <= i < |replies| && replies[i].at <= now && FilledFrom(slot, replies[i]);
    assert FilledFrom(slot, replies'[i]);
  }

  lemma JustifiedLater(gating: bool, a: Answer, replies: seq<Reply>, replies': seq<Reply>)
    requires Justified(gating, a, replies) && replies <= replies'
    ensures Justified(gating, a, replies')
  {
    if Recent(a, replies) {
      var i :| 0 <= i < |replies| && replies[i].request == a.request && replies[i].value == a.value
               && replies[i].at <= a.at < replies[i].at + TTL;
      assert replies'[i] == replies[i];
    }
  }

  /** A hit comes from a reply for the very same tenant and feature, still fresh. */
  lemma HitIsRecent(s: State, r: Request)
    requires Inv(true, s) && ColonFree(r.tenant) && Hit(s.cache, KeyOf(r), s.now).Some?
    ensures Recent(Answer(r, Hit(s.cache, KeyOf(r), s.now).value, s.now, Cached), s.replies)
  {
    var slot := s.cache[IndexOf(s.cache, KeyOf(r))];
    assert Sourced(slot, s.replies, s.now);
    var i :| 0 <= i < |s.replies| && s.replies[i].at <= s.now && FilledFrom(slot, s.replies[i]);
    var q := s.replies[i].request;
    JoinedInjective(q.tenant, q.feature, r.tenant, r.feature);
    assert s.replies[i].request == r;
  }

  lemma AnswerKeeps(gating: bool, s: State, r: Request, value: bool, source: Source)
    requires Inv(gating, s) && Justified(gating, Answer(r, value, s.now, source), s.replies)
    ensures Inv(gating, Answered(s, r, value, source))
  {
  }

  lemma RespondKeeps(s: State, id: nat, value: bool)
    requires Inv(true, s) && id in s.inFlight
    ensures Inv(true, Do(true, s, Respond(id, value)))
  {
    var r := s.inFlight[id];
    var slot, reply := Slot(KeyOf(r), value, s.now + TTL), Reply(r, value, s.now);
    var t := s.(cache := Stored(s.cache, slot), inFlight := s.inFlight - {id}, replies := s.replies + [reply]);
    StoredKeeps(s.cache, slot);
    var n := |s.replies|;
    assert t.replies[n] == reply && FilledFrom(slot, t.replies[n]);
    forall x | x in t.cache
      ensures Sourced(x, t.replies, t.now)
    {
      if x != slot {
        SourcedLater(x, s.replies, s.now, t.replies, t.now);
      }
    }
    forall a | a in t.answers
      ensures Justified(true, a, t.replies)
    {
      JustifiedLater(true, a, s.replies, t.replies);
    }
    assert Recent(Answer(r, value, t.now, Fetched), t.replies);
    AnswerKeeps(true, t, r, value, Fetched);
  }

  lemma StepKeeps(gating: bool, s: State, a: Action)
    requires Inv(gating, s) && Enabled(s, a)
    ensures Inv(gating, Do(gating, s, a))
  {
    match a
    case Wait(ms) =>
      forall slot | slot in s.cache
        ensures Sourced(slot, s.replies, s.now + ms)
      {
        SourcedLater(slot, s.replies, s.now, s.replies, s.now + ms);
      }
    case Call(id, r) =>
      if gating && Hit(s.cache, KeyOf(r), s.now).Some? {
        HitIsRecent(s, r);
      }
    case Respond(id, value) => RespondKeeps(s, id, value);
    case Fail(id) =>
      AnswerKeeps(gating, s.(inFlight := s.inFlight - {id}), s.inFlight[id], false, FetchFailed);
  }

  /** Over every run the cache stays bounded and every answer is justified. */
  lemma {:induction false} EveryRunKeeps(gating: bool, actions: seq<Action>)
    ensures Inv(gating, Run(gating, actions))
  {
    if actions != [] {
      var s := Run(gating, actions[..|actions| - 1]);
      EveryRunKeeps(gating, actions[..|actions| - 1]);
      if Enabled(s, actions[|actions| - 1]) {
        StepKeeps(gating, s, actions[|actions| - 1]);
      }
    }
  }

  lemma CacheBounded(gating: bool, actions: seq<Action>)
    ensures |Run(gating, actions).cache| <= 1000
  {
    EveryRunKeeps(gating, actions);
  }

  /** With gating on, an answer is false after a failed fetch, or it is the server's reply for
      the same tenant and feature, stored less than a minute before. */
  lemma AnswersAreRecentReplies(actions: seq<Action>, k: nat)
    requires k < |Run(true, actions).answers|
    ensures var s := Run(true, actions);
      var a := s.answers[k];
      (a.source == FetchFailed && !a.value) ||
      (exists i :: 0 <= i < |s.replies| && s.replies[i].request == a.request && s.replies[i].value == a.value
                   && s.replies[i].at <= a.at < s.replies[i].at + 60_000)
  {
    EveryRunKeeps(true, actions);
    var s := Run(true, actions);
    assert s.answers[k] in s.answers;
  }

  /* ---------- single calls ---------- */

  /** With gating off every call is answered true, at once. */
  lemma GatingOffAnswersTrue(s: State, id: nat, r: Request)
    requires Enabled(s, Call(id, r))
    ensures Do(false, s, Call(id, r)) == s.(answers := s.answers + [Answer(r, true, s.now, GatingOff)])
  {
  }

  /** With gating on a call is answered from an unexpired slot of its key, without a fetch, and
      otherwise starts one. */
  lemma CallAsksCacheFirst(s: State, id: nat, r: Request)
    requires Enabled(s, Call(id, r)) && DistinctKeys(s.cache)
    ensures var t := Do(true, s, Call(id, r));
      && (forall slot :: slot in s.cache && slot.key == r.tenant + ":" + r.feature && slot.expiresAt > s.now ==>
            t == s.(answers := s.answers + [Answer(r, slot.value, s.now, Cached)]))
      && ((forall slot :: slot in s.cache && slot.key == r.tenant + ":" + r.feature ==> slot.expiresAt <= s.now) ==>
            t == s.(inFlight := s.inFlight[id := r]))
  {
    var k := IndexOf(s.cache, KeyOf(r));
    if k < |s.cache| {
      assert s.cache[k] in s.cache;
    }
  }

  /** A reply is answered and remembered for a minute: the same call made within it is answered the
      same without a fetch, and one made later fetches again. */
  lemma ReplyIsRemembered(s: State, id: nat, value: bool, ms: nat, id': nat)
    requires |s.cache| <= MAX_SIZE && DistinctKeys(s.cache) && Enabled(s, Respond(id, value))
    requires id' !in s.inFlight && ColonFree(s.inFlight[id].tenant)
    ensures var r := s.inFlight[id];
      var replied := Do(true, s, Respond(id, value));
      var waited := Do(true, replied, Wait(ms));
      && replied.answers == s.answers + [Answer(r, value, s.now, Fetched)]
      && Enabled(waited, Call(id', r))
      && var again := Do(true, waited, Call(id', r));
      && (ms < 60_000 ==> again == waited.(answers := waited.answers + [Answer(r, value, s.now + ms, Cached)]))
      && (ms >= 60_000 ==> again == waited.(inFlight := waited.inFlight[id' := r]))
  {
    HitAfterStore(s.cache, Slot(KeyOf(s.inFlight[id]), value, s.now + TTL), s.now + ms);
  }

  /** A failed fetch is answered false and remembered nowhere. */
  lemma FailureIsForgotten(s: State, id: nat)
    requires Enabled(s, Fail(id))
    ensures var t := Do(true, s, Fail(id));
      && t.cache == s.cache && t.replies == s.replies && t.inFlight == s.inFlight - {id}
      && t.answers == s.answers + [Answer(s.inFlight[id], false, s.now, FetchFailed)]
  {
  }

  /* ---------- the service object ---------- */

  class FeatureFlagService {
    var cache: seq<Slot>
    const gating: bool

    constructor (gating: bool)
      ensures cache == [] && this.gating == gating
    {
      cache := [];
      this.gating := gating;
    }

    method SetCacheEntry(key: string, value: bool, expiresAt: int)
      modifies this
      ensures cache == Stored(old(cache), Slot(key, value, expiresAt))
    {
      if |cache| >= MAX_SIZE {
        cache := cache[1..];
      }
      var k := IndexOf(cache, key);
      if k < |cache| {
        cache := cache[k := Slot(key, value, expiresAt)];
      } else {
        cache := cache + [Slot(key, value, expiresAt)];
      }
    }

    /** The part of isEnabled before the fetch: an answer, or None when a fetch is needed. */
    method AskCache(tenant: string, feature: string, now: int) returns (answer: Option<bool>)
      ensures answer == if !gating then Some(true) else Hit(cache, Joined(tenant, feature), now)
    {
      if !gating { return Some(true); }
      var k := IndexOf(cache, Joined(tenant, feature));
      if k < |cache| && cache[k].expiresAt > now { return Some(cache[k].value); }
      answer := None;
    }

    /** The part after the fetch; reply is None when the fetch failed or was not OK. */
    method Complete(tenant: string, feature: string, now: int, reply: Option<bool>) returns (answer: bool)
      modifies this
      ensures answer == (reply == Some(true))
      ensures cache == if reply.None? then old(cache)
                       else Stored(old(cache), Slot(Joined(tenant, feature), reply.value, now + TTL))
    {
      if reply.None? { return false; }
      SetCacheEntry(Joined(tenant, feature), reply.value, now + TTL);
      answer := reply.value;
    }
  }
}
