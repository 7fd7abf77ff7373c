/**
 The feature cache with readers and writers interleaved step by step, and a clock in
 seconds.  A reader asks the cache, reads the override, perhaps the default, and fills the
 cache, each as its own step; writers save or delete rows and delete keys at any moment.
 */
module FeatureRace {
  const TTL := 300

  /** Tenant and feature code; FeatureKeyInjective lets the pair stand for the key text. */
  type Key = (string, string)

  datatype Entry = Entry(value: bool, seen: nat, filledAt: int)

  /** seen is the index of the database moment the reader has read. */
  datatype Reader =
    | Asked(key: Key)
    | NeedsDefault(key: Key, seen: nat)
    | Ready(key: Key, value: bool, seen: nat)

  /** The override rows at one moment of the run. */
  datatype Moment = Moment(time: int, overrides: map<Key, bool>)

  /** An answer given from the cache. */
  datatype Served = Served(key: Key, value: bool, at: int, seen: nat, filledAt: int)

  datatype State = State(
    defaults: map<string, bool>,
    overrides: map<Key, bool>,
    cache: map<Key, Entry>,
    readers: map<nat, Reader>,
    now: int,
    history: seq<Moment>,
    served: seq<Served>)

  function Start(defaults: map<string, bool>, overrides: map<Key, bool>): State {
    State(defaults, overrides, map[], map[], 0, [Moment(0, overrides)], [])
  }

  function Default(defaults: map<string, bool>, k: Key): bool {
    k.1 in defaults && defaults[k.1]
  }

  function Truth(defaults: map<string, bool>, overrides: map<Key, bool>, k: Key): bool {
    if k in overrides then overrides[k] else Default(defaults, k)
  }

  function Now(s: State, k: Key): bool { Truth(s.defaults, s.overrides, k) }

  datatype Action =
    | Wait(seconds: nat)
    | Ask(reader: nat, key: Key)
    | ReadOverride(reader: nat)
    | ReadDefault(reader: nat)
    | Fill(reader: nat)
    | GiveUp(reader: nat)
    | SaveRow(key: Key, enabled: bool)
    | DeleteTenantRows(tenant: string)
    | DeleteKeys(keys: set<Key>)

  predicate Enabled(s: State, a: Action) {
    match a
    case Ask(id, _) => id !in s.readers
    case ReadOverride(id) => id in s.readers && s.readers[id].Asked?
    case ReadDefault(id) => id in s.readers && s.readers[id].NeedsDefault?
    case Fill(id) => id in s.readers && s.readers[id].Ready?
    case GiveUp(id) => id in s.readers
    case _ => true
  }

  predicate Live(s: State, k: Key) {
    k in s.cache && s.now < s.cache[k].filledAt + TTL
  }

  function Change(s: State, a: Action): State
    requires Enabled(s, a) && s.history != []
  {
    match a
    case Wait(d) => s.(now := s.now + d)
    case Ask(id, k) =>
      if Live(s, k) then
        var e := s.cache[k];
        s.(served := s.served + [Served(k, e.value, s.now, e.seen, e.filledAt)])
      else s.(readers := s.readers[id := Asked(k)])
    case ReadOverride(id) =>
      var k, seen := s.readers[id].key, |s.history| - 1;
      s.(readers := s.readers[id := if k in s.overrides then Ready(k, s.overrides[k], seen) else NeedsDefault(k, seen)])
    case ReadDefault(id) =>
      var r := s.readers[id];
      s.(readers := s.readers[id := Ready(r.key, Default(s.defaults, r.key), r.seen)])
    case Fill(id) =>
      var r := s.readers[id];
      s.(cache := s.cache[r.key := Entry(r.value, r.seen, s.now)], readers := s.readers - {id})
    case GiveUp(id) => s.(readers := s.readers - {id})
    case SaveRow(k, enabled) => s.(overrides := s.overrides[k := enabled])
    case DeleteTenantRows(t) => s.(overrides := map k | k in s.overrides && k.0 != t :: s.overrides[k])
    case DeleteKeys(ks) => s.(cache := s.cache - ks)
  }

  function Do(s: State, a: Action): State
    requires Enabled(s, a) && s.history != []
  {
    var t := Change(s, a);
    t.(history := s.history + [Moment(t.now, t.overrides)])
  }

  function Step(s: State, a: Action): State {
    if s.history != [] && Enabled(s, a) then Do(s, a) else s
  }

  function Run(s: State, actions: seq<Action>): State {
    if actions == [] then s else Step(Run(s, actions[..|actions| - 1]), actions[|actions| - 1])
  }

  /* ---------- every served value was true ---------- */

  /** At moment seen, the value was the database's own answer for k. */
  ghost predicate WasTrue(s: State, k: Key, value: bool, seen: nat) {
    && seen < |s.history|
    && s.history[seen].time <= s.now
    && Truth(s.defaults, s.history[seen].overrides, k) == value
  }

  ghost predicate EntryOk(s: State, k: Key, e: Entry) {
    WasTrue(s, k, e.value, e.seen) && s.history[e.seen].time <= e.filledAt <= s.now
  }

  ghost predicate ReaderOk(s: State, r: Reader) {
    match r
    case Asked(_) => true
    case NeedsDefault(k, seen) => WasTrue(s, k, Default(s.defaults, k), seen)
    case Ready(k, v, seen) => WasTrue(s, k, v, seen)
  }

  ghost predicate ServedOk(s: State, v: Served) {
    && WasTrue(s, v.key, v.value, v.seen)
    && s.history[v.seen].time <= v.filledAt <= v.at < v.filledAt + TTL
  }

  ghost predicate Inv(s: State) {
    && s.history != []
    && s.history[|s.history| - 1] == Moment(s.now, s.overrides)
    && (forall k :: k in s.cache ==> EntryOk(s, k, s.cache[k]))
    && (forall id :: id in s.readers ==> ReaderOk(s, s.readers[id]))
    && (forall i :: 0 <= i < |s.served| ==> ServedOk(s, s.served[i]))
  }

  lemma HistoryGrows(s: State, t: State)
    requires s.history <= t.history && s.now <= t.now && s.defaults == t.defaults
    ensures forall k, v, seen :: WasTrue(s, k, v, seen) ==> WasTrue(t, k, v, seen)
  {
  }

  lemma StepKeeps(s: State, a: Action)
    requires Inv(s) && Enabled(s, a)
    ensures Inv(Do(s, a))
  {
    var t := Do(s, a);
    HistoryGrows(s, t);
    forall k | k in t.cache
      ensures EntryOk(t, k, t.cache[k])
    {
      if a.Fill? && k == s.readers[a.reader].key {
        assert ReaderOk(s, s.readers[a.reader]);
      } else {
        assert EntryOk(s, k, s.cache[k]);
      }
    }
    ReadersKeep(s, a);
    ServedKeeps(s, a);
  }

  lemma ReadersKeep(s: State, a: Action)
    requires Inv(s) && Enabled(s, a)
    ensures forall id :: id in Do(s, a).readers ==> ReaderOk(Do(s, a), Do(s, a).readers[id])
  {
    var t := Do(s, a);
    HistoryGrows(s, t);
    forall id | id in t.readers
      ensures ReaderOk(t, t.readers[id])
    {
      if id in s.readers {
        assert ReaderOk(s, s.readers[id]);
      }
    }
  }

  lemma ServedKeeps(s: State, a: Action)
    requires Inv(s) && Enabled(s, a)
    ensures forall i :: 0 <= i < |Do(s, a).served| ==> ServedOk(Do(s, a), Do(s, a).served[i])
  {
    var t := Do(s, a);
    HistoryGrows(s, t);
    forall i | 0 <= i < |t.served|
      ensures ServedOk(t, t.served[i])
    {
      if i < |s.served| {
        assert ServedOk(s, s.served[i]);
      } else {
        assert EntryOk(s, a.key, s.cache[a.key]);
      }
    }
  }

  lemma {:induction false} RunKeeps(s: State, actions: seq<Action>)
    requires Inv(s)
    ensures Inv(Run(s, actions))
  {
    if actions != [] {
      RunKeeps(s, actions[..|actions| - 1]);
      var before := Run(s, actions[..|actions| - 1]);
      if Enabled(before, actions[|actions| - 1]) {
        StepKeeps(before, actions[|actions| - 1]);
      }
    }
  }

  /**
   Every value served from the cache was the database's value at a moment less than 300
   seconds plus the filling reader's read-to-fill delay before it was served.
   */
  lemma ServedValuesWereTrue(defaults: map<string, bool>, overrides: map<Key, bool>, actions: seq<Action>, i: nat)
    requires i < |Run(Start(defaults, overrides), actions).served|
    ensures var s := Run(Start(defaults, overrides), actions);
      var v := s.served[i];
      && v.seen < |s.history|
      && Truth(defaults, s.history[v.seen].overrides, v.key) == v.value
      && s.history[v.seen].time <= v.filledAt <= v.at
      && v.at - s.history[v.seen].time < 300 + (v.filledAt - s.history[v.seen].time)
  {
    var s0 := Start(defaults, overrides);
    var s := Run(s0, actions);
    RunKeeps(s0, actions);
    DefaultsFixed(s0, actions);
    assert ServedOk(s, s.served[i]);
  }

  lemma {:induction false} DefaultsFixed(s: State, actions: seq<Action>)
    ensures Run(s, actions).defaults == s.defaults
  {
    if actions != [] {
      DefaultsFixed(s, actions[..|actions| - 1]);
    }
  }

  /** A filled value is served, without reading the database, for exactly 300 seconds. */
  lemma FillIsServed(s: State, id: nat, seconds: nat, id': nat)
    requires s.history != [] && Enabled(s, Fill(id)) && id' !in s.readers
    ensures var k := s.readers[id].key;
      var waited := Do(Do(s, Fill(id)), Wait(seconds));
      && Enabled(waited, Ask(id', k))
      && var asked := Do(waited, Ask(id', k));
      && (seconds < 300 ==> |asked.served| == |s.served| + 1 && asked.served[|s.served|].value == s.readers[id].value)
      && (seconds >= 300 ==> asked.served == s.served && id' in asked.readers && asked.readers[id'] == Asked(k))
  {
  }

  /** An asked reader takes the override if there is a row, else the default, else false. */
  lemma ReaderReads(s: State, id: nat)
    requires s.history != [] && id in s.readers && s.readers[id].Asked?
    ensures var k := s.readers[id].key;
      var read := Do(s, ReadOverride(id));
      && id in read.readers
      && (k in s.overrides ==> read.readers[id].Ready? && read.readers[id].value == s.overrides[k])
      && (k !in s.overrides ==> Enabled(read, ReadDefault(id)))
      && (k !in s.overrides ==>
            Do(read, ReadDefault(id)).readers[id].value == (k.1 in s.defaults && s.defaults[k.1]))
  {
  }

  /* ---------- when invalidation is enough ---------- */

  /** What the reader will put into the cache, if it has read already. */
  predicate Agrees(s: State, r: Reader) {
    match r
    case Asked(_) => true
    case NeedsDefault(k, _) => Default(s.defaults, k) == Now(s, k)
    case Ready(k, v, _) => v == Now(s, k)
  }

  predicate ReadersAgree(s: State, k: Key) {
    forall id :: id in s.readers && s.readers[id].key == k ==> Agrees(s, s.readers[id])
  }

  /** Neither the cache nor any reader holds an outdated value of k. */
  predicate Settled(s: State, k: Key) {
    && (k in s.cache ==> s.cache[k].value == Now(s, k))
    && ReadersAgree(s, k)
  }

  predicate Writes(a: Action, k: Key) {
    (a.SaveRow? && a.key == k) || (a.DeleteTenantRows? && a.tenant == k.0)
  }

  lemma SettledKept(s: State, a: Action, k: Key)
    requires s.history != [] && Enabled(s, a) && Settled(s, k) && !Writes(a, k)
    ensures Settled(Do(s, a), k)
  {
  }

  /* ---------- what callers are told after an invalidation ---------- */

  predicate Untouched(actions: seq<Action>, k: Key) {
    forall i :: 0 <= i < |actions| ==> !Writes(actions[i], k)
  }

  /** From the given one on, every answer for k from the cache is this value. */
  predicate AnswersFrom(served: seq<Served>, first: nat, k: Key, value: bool) {
    forall i :: first <= i < |served| && served[i].key == k ==> served[i].value == value
  }

  /** However the system goes on, as long as nobody writes k, callers get its value from the cache. */
  ghost predicate AnswersStayRight(s: State, k: Key) {
    forall actions :: Untouched(actions, k) ==> AnswersFrom(Run(s, actions).served, |s.served|, k, Now(s, k))
  }

  lemma UnwrittenStep(s: State, a: Action, k: Key)
    requires s.history != [] && Enabled(s, a) && Settled(s, k) && !Writes(a, k)
    ensures Now(Do(s, a), k) == Now(s, k)
    ensures s.served <= Do(s, a).served && AnswersFrom(Do(s, a).served, |s.served|, k, Now(s, k))
  {
  }

  lemma {:induction false} SettledAnswers(s: State, actions: seq<Action>, k: Key)
    requires s.history != [] && Settled(s, k) && Untouched(actions, k)
    ensures var t := Run(s, actions);
      && t.history != [] && Settled(t, k) && Now(t, k) == Now(s, k)
      && s.served <= t.served && AnswersFrom(t.served, |s.served|, k, Now(s, k))
  {
    if actions != [] {
      var n := |actions| - 1;
      SettledAnswers(s, actions[..n], k);
      var mid := Run(s, actions[..n]);
      if Enabled(mid, actions[n]) {
        SettledKept(mid, actions[n], k);
        UnwrittenStep(mid, actions[n], k);
      }
    }
  }

  lemma RunPush(s: State, actions: seq<Action>, a: Action)
    ensures Run(s, actions + [a]) == Step(Run(s, actions), a)
  {
    assert (actions + [a])[..|actions|] == actions;
  }

  lemma AskServes(s: State, id: nat, k: Key)
    requires s.history != [] && id !in s.readers && Live(s, k)
    ensures var t := Step(s, Ask(id, k));
      |t.served| == |s.served| + 1 && t.served[|s.served|].key == k && t.served[|s.served|].value == s.cache[k].value
  {
  }

  /** A reader that disagrees and is ready fills the cache, and the next caller is told so. */
  lemma SpoiltAnswer(s: State, id: nat)
    requires s.history != [] && id in s.readers && s.readers[id].Ready? && !Agrees(s, s.readers[id])
    ensures var t := Step(Step(s, Fill(id)), Ask(id, s.readers[id].key));
      && |t.served| == |s.served| + 1
      && t.served[|s.served|].key == s.readers[id].key && t.served[|s.served|].value != Now(s, s.readers[id].key)
  {
    var filled := Do(s, Fill(id));
    assert Step(s, Fill(id)) == filled && filled.served == s.served;
    AskServes(filled, id, s.readers[id].key);
  }

  lemma SpoiltRun(s: State, before: seq<Action>, id: nat, k: Key) returns (actions: seq<Action>)
    requires var m := Run(s, before);
      m.history != [] && id in m.readers && m.readers[id].Ready? && !Agrees(m, m.readers[id]) && m.readers[id].key == k
    requires Untouched(before, k) && Run(s, before).served == s.served && Now(Run(s, before), k) == Now(s, k)
    ensures Untouched(actions, k) && !AnswersFrom(Run(s, actions).served, |s.served|, k, Now(s, k))
  {
    SpoiltAnswer(Run(s, before), id);
    RunPush(s, before, Fill(id));
    RunPush(s, before + [Fill(id)], Ask(id, k));
    actions := before + [Fill(id)] + [Ask(id, k)];
    assert Run(s, actions).served[|s.served|].key == k;
  }

  /** A reader that has read and disagrees leads some caller to be told an outdated value. */
  lemma DisagreeingReaderMisleads(s: State, id: nat) returns (actions: seq<Action>)
    requires s.history != [] && id in s.readers && !Agrees(s, s.readers[id])
    ensures var k := s.readers[id].key;
      Untouched(actions, k) && !AnswersFrom(Run(s, actions).served, |s.served|, k, Now(s, k))
  {
    var k := s.readers[id].key;
    if s.readers[id].Ready? {
      actions := SpoiltRun(s, [], id, k);
    } else {
      RunPush(s, [], ReadDefault(id));
      actions := SpoiltRun(s, [] + [ReadDefault(id)], id, k);
    }
  }

  /**
   After deleting the key, callers get the right value from the cache until the next write,
   however the steps interleave, if and only if no reader that has read already carries a
   value the database no longer holds.
   */
  lemma InvalidationSufficesIff(s: State, ks: set<Key>, k: Key)
    requires s.history != [] && k in ks
    ensures AnswersStayRight(Do(s, DeleteKeys(ks)), k) <==> ReadersAgree(s, k)
  {
    var t := Do(s, DeleteKeys(ks));
    assert forall r: Reader :: Agrees(t, r) == Agrees(s, r);
    if ReadersAgree(s, k) {
      forall actions | Untouched(actions, k)
        ensures AnswersFrom(Run(t, actions).served, |t.served|, k, Now(t, k))
      {
        SettledAnswers(t, actions, k);
      }
    } else {
      var id :| id in s.readers && s.readers[id].key == k && !Agrees(s, s.readers[id]);
      var actions := DisagreeingReaderMisleads(t, id);
      assert Untouched(actions, k);
    }
  }

  /** A reader that disagrees spoils the cache: once it fills, the cached value is outdated. */
  lemma LateReaderSpoils(s: State, id: nat)
    requires s.history != [] && Enabled(s, Fill(id)) && !Agrees(s, s.readers[id])
    ensures var k := s.readers[id].key;
      var t := Do(s, Fill(id));
      k in t.cache && t.cache[k].value != Now(t, k)
  {
  }

  /** A complete toggle of k away from v: row saved, key deleted. */
  function Toggled(s: State, k: Key, v: bool): State
    requires s.history != []
  {
    Do(Do(s, SaveRow(k, !v)), DeleteKeys({k}))
  }

  lemma ToggledFacts(s: State, k: Key, v: bool)
    requires s.history != []
    ensures var t := Toggled(s, k, v);
      t.readers == s.readers && t.history != [] && Now(t, k) == !v
  {
  }

  /**
   Whenever a reader is about to fill, a toggle that runs to its end in between is undone for
   the next caller: the old value is served although the database holds the new one.
   */
  lemma ToggleCanBeOverrun(s: State, id: nat)
    requires s.history != [] && Enabled(s, Fill(id))
    ensures var k, v := s.readers[id].key, s.readers[id].value;
      && Enabled(Toggled(s, k, v), Fill(id))
      && var filled := Do(Toggled(s, k, v), Fill(id));
      && Enabled(filled, Ask(id, k))
      && var asked := Do(filled, Ask(id, k));
      && |asked.served| == |filled.served| + 1
      && asked.served[|filled.served|].value == v != Now(asked, k)
  {
    var k, v := s.readers[id].key, s.readers[id].value;
    ToggledFacts(s, k, v);
    var t := Toggled(s, k, v);
    LateReaderSpoils(t, id);
  }
}
