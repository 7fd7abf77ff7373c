/**
 The tenant manager's feature flags: overrides over defaults in the database, a Redis cache
 in front, and writers that save first and invalidate afterwards.  In this module every
 operation runs to its end before the next one starts.
 */
module FeatureCache {
  import opened Basics
  import opened Keys

  type Override = (string, string)

  /** tenants maps each tenant to its plan; overrides are the tenant_features rows. */
  datatype Store = Store(
    defaults: map<string, bool>,
    tenants: map<string, string>,
    overrides: map<Override, bool>,
    cache: map<string, bool>)

  /** Override, else default, else off. */
  function Truth(s: Store, t: string, c: string): bool {
    if (t, c) in s.overrides then s.overrides[(t, c)]
    else if c in s.defaults then s.defaults[c]
    else false
  }

  /* ---------- reading ---------- */

  datatype Checked = Checked(store: Store, enabled: bool)

  function Check(s: Store, t: string, c: string): Checked {
    var key := FeatureKey(t, c);
    if key in s.cache then Checked(s, s.cache[key])
    else if (t, c) in s.overrides then
      Checked(s.(cache := s.cache[key := s.overrides[(t, c)]]), s.overrides[(t, c)])
    else
      var enabled := if c in s.defaults then s.defaults[c] else false;
      Checked(s.(cache := s.cache[key := enabled]), enabled)
  }

  datatype Status = Status(isEnabled: bool, hasOverride: bool)

  /** The merged list of one tenant, by feature code. */
  function Merged(s: Store, t: string): map<string, Status> {
    map c | c in s.defaults ::
      if (t, c) in s.overrides then Status(s.overrides[(t, c)], true) else Status(s.defaults[c], false)
  }

  /* ---------- writing ---------- */

  function Toggle(s: Store, t: string, c: string, enabled: bool): Result<Store> {
    if c !in s.defaults then Err(NotFound)
    else if t !in s.tenants then Err(Invalid)
    else Ok(s.(overrides := s.overrides[(t, c) := enabled], cache := s.cache - {FeatureKey(t, c)}))
  }

  function WithoutRows(o: map<Override, bool>, t: string): map<Override, bool> {
    map k | k in o && k.0 != t :: o[k]
  }

  function EnableAll(o: map<Override, bool>, t: string, codes: seq<string>): map<Override, bool> {
    if codes == [] then o else EnableAll(o, t, codes[..|codes| - 1])[(t, codes[|codes| - 1]) := true]
  }

  function WithoutTenant(cache: map<string, bool>, t: string): map<string, bool> {
    map k | k in cache && !(TenantPrefix(t) <= k) :: cache[k]
  }

  /** The static map used when the plan record lists no features. */
  const PLAN_FEATURES: map<string, seq<string>> := map[
    "free" := ["basic_reporting"],
    "starter" := ["basic_reporting", "api_access", "webhooks"],
    "pro" := ["basic_reporting", "api_access", "webhooks", "advanced_analytics", "sso"],
    "enterprise" := ["basic_reporting", "api_access", "webhooks", "advanced_analytics", "sso",
                     "custom_domain", "audit_logs"]]

  function FeaturesToSync(plan: string, included: seq<string>): seq<string> {
    if included != [] then included else if plan in PLAN_FEATURES then PLAN_FEATURES[plan] else []
  }

  /** Rows must reference a known feature. */
  predicate Known(s: Store, codes: seq<string>) {
    forall i :: 0 <= i < |codes| ==> codes[i] in s.defaults
  }

  /** And rows are unique per tenant and feature. */
  predicate Insertable(s: Store, codes: seq<string>) {
    && Known(s, codes)
    && (forall i, j :: 0 <= i < j < |codes| ==> codes[i] != codes[j])
  }

  /** How many rows are inserted before one is rejected; all of them if none is. */
  function Accepted(defaults: map<string, bool>, codes: seq<string>): (n: nat)
    ensures n <= |codes|
  {
    if codes == [] then 0
    else
      var last := |codes| - 1;
      var n := Accepted(defaults, codes[..last]);
      if n == last && codes[last] in defaults && codes[last] !in codes[..last] then |codes| else n
  }

  lemma {:induction false} AcceptedStops(defaults: map<string, bool>, codes: seq<string>, i: nat)
    requires i < |codes| && Accepted(defaults, codes[..i]) == i
    requires codes[i] !in defaults || codes[i] in codes[..i]
    ensures Accepted(defaults, codes) == i
  {
    var last := |codes| - 1;
    if i < last {
      assert codes[..last][..i] == codes[..i];
      AcceptedStops(defaults, codes[..last], i);
    }
  }

  /** A plan change goes through exactly when all rows are known and different. */
  lemma {:induction false} AllAcceptedIff(s: Store, codes: seq<string>)
    ensures Accepted(s.defaults, codes) == |codes| <==> Insertable(s, codes)
  {
    if codes != [] {
      var last := |codes| - 1;
      AllAcceptedIff(s, codes[..last]);
      if Insertable(s, codes) {
        assert Insertable(s, codes[..last]);
      }
    }
  }

  /** The plan change of updateTenant: save, replace the rows, then invalidate the tenant. */
  function ChangePlan(s: Store, t: string, plan: string, included: seq<string>): Result<Store> {
    if t !in s.tenants then Err(NotFound)
    else if s.tenants[t] == plan then Ok(s)
    else
      Ok(s.(tenants := s.tenants[t := plan],
            overrides := EnableAll(WithoutRows(s.overrides, t), t, FeaturesToSync(plan, included)),
            cache := WithoutTenant(s.cache, t)))
  }

  /** What is left when the insert of row n is rejected: the rows before it, and no invalidation. */
  function AbortedPlanChange(s: Store, t: string, plan: string, codes: seq<string>, n: nat): Store
    requires n <= |codes|
  {
    s.(tenants := s.tenants[t := plan], overrides := EnableAll(WithoutRows(s.overrides, t), t, codes[..n]))
  }

  /** The plan change as it ends: complete, or with an error after the rejected row. */
  function PlanChangeOutcome(s: Store, t: string, plan: string, included: seq<string>): Store {
    var codes := FeaturesToSync(plan, included);
    var n := Accepted(s.defaults, codes);
    if t in s.tenants && s.tenants[t] != plan && n < |codes| then AbortedPlanChange(s, t, plan, codes, n)
    else OrSame(s, ChangePlan(s, t, plan, included))
  }

  function CreateTenant(s: Store, t: string, plan: string, codes: seq<string>): Store {
    s.(tenants := s.tenants[t := plan], overrides := EnableAll(s.overrides, t, codes))
  }

  function Archive(s: Store, t: string, alreadyCancelled: bool): Result<Store> {
    if t !in s.tenants then Err(NotFound)
    else if alreadyCancelled then Err(Invalid)
    else Ok(s.(cache := WithoutTenant(s.cache, t)))
  }

  /* ---------- coherence ---------- */

  /** The entry belongs to some tenant and feature and repeats their database value. */
  ghost predicate Faithful(s: Store, k: string) {
    exists t, c :: ColonFree(t) && k == FeatureKey(t, c) && k in s.cache && s.cache[k] == Truth(s, t, c)
  }

  ghost predicate Coherent(s: Store) {
    && (forall k :: k in s.cache ==> Faithful(s, k))
    && (forall t :: t in s.tenants ==> ColonFree(t))
    && (forall o :: o in s.overrides ==> o.0 in s.tenants)
  }

  /** In a coherent store a cached answer is the database answer. */
  lemma CachedIsTrue(s: Store, t: string, c: string)
    requires Coherent(s) && ColonFree(t) && FeatureKey(t, c) in s.cache
    ensures s.cache[FeatureKey(t, c)] == Truth(s, t, c)
  {
    var k := FeatureKey(t, c);
    assert Faithful(s, k);
    var t', c' :| ColonFree(t') && k == FeatureKey(t', c') && s.cache[k] == Truth(s, t', c');
    FeatureKeyInjective(t, c, t', c');
  }

  /** Every check answers override-else-default-else-off, cached or not. */
  lemma CheckAnswersTruth(s: Store, t: string, c: string)
    requires Coherent(s) && ColonFree(t)
    ensures Check(s, t, c).enabled == Truth(s, t, c)
    ensures Coherent(Check(s, t, c).store)
  {
    var k := FeatureKey(t, c);
    var s' := Check(s, t, c).store;
    if k in s.cache {
      CachedIsTrue(s, t, c);
    } else {
      forall k' | k' in s'.cache
        ensures Faithful(s', k')
      {
        if k' == k {
          assert s'.cache[k] == Truth(s', t, c);
        } else {
          KeepFaithful(s, s', k');
        }
      }
    }
  }

  /** An untouched entry stays faithful if its tenant's and feature's value is untouched. */
  lemma KeepFaithful(s: Store, s': Store, k: string)
    requires Faithful(s, k) && k in s'.cache && s'.cache[k] == s.cache[k]
    requires forall t, c :: ColonFree(t) && k == FeatureKey(t, c) ==> Truth(s', t, c) == Truth(s, t, c)
    ensures Faithful(s', k)
  {
    var t, c :| ColonFree(t) && k == FeatureKey(t, c) && k in s.cache && s.cache[k] == Truth(s, t, c);
    assert s'.cache[k] == Truth(s', t, c);
  }

  /** The merged list and the single check agree on every defined code. */
  lemma MergedAgreesWithCheck(s: Store, t: string, c: string)
    requires Coherent(s) && ColonFree(t) && c in s.defaults
    ensures c in Merged(s, t)
    ensures Merged(s, t)[c].isEnabled == Check(s, t, c).enabled
    ensures Merged(s, t)[c].hasOverride <==> (t, c) in s.overrides
  {
    CheckAnswersTruth(s, t, c);
  }

  /** Invalidating a tenant removes exactly that tenant's keys. */
  lemma InvalidationIsExact(cache: map<string, bool>, t: string, t': string, c': string)
    requires ColonFree(t) && ColonFree(t')
    ensures FeatureKey(t', c') in WithoutTenant(cache, t) <==> FeatureKey(t', c') in cache && t' != t
  {
    PrefixMatchesOwnTenant(t, t', c');
  }

  lemma ToggleKeeps(s: Store, t: string, c: string, enabled: bool)
    requires Coherent(s) && Toggle(s, t, c, enabled).Ok?
    ensures Coherent(Toggle(s, t, c, enabled).value)
    ensures Truth(Toggle(s, t, c, enabled).value, t, c) == enabled
  {
    var s' := Toggle(s, t, c, enabled).value;
    forall k | k in s'.cache
      ensures Faithful(s', k)
    {
      forall t', c' | ColonFree(t') && k == FeatureKey(t', c')
        ensures Truth(s', t', c') == Truth(s, t', c')
      {
        assert (t', c') != (t, c);
      }
      KeepFaithful(s, s', k);
    }
  }

  lemma {:induction false} EnableAllRows(o: map<Override, bool>, t: string, codes: seq<string>)
    ensures var o' := EnableAll(o, t, codes);
      && (forall k :: k in o' ==> k in o || k.0 == t)
      && (forall k :: k in o && k.0 != t ==> k in o' && o'[k] == o[k])
      && (forall c :: (t, c) in o' <==> (t, c) in o || c in codes)
      && (forall c :: c in codes ==> (t, c) in o' && o'[(t, c)])
  {
    if codes != [] {
      var n := |codes| - 1;
      EnableAllRows(o, t, codes[..n]);
      assert codes == codes[..n] + [codes[n]];
    }
  }

  /** Writers that touch one tenant and drop that tenant's keys stay coherent. */
  lemma TenantRewriteKeeps(s: Store, s': Store, t: string)
    requires Coherent(s) && t in s.tenants
    requires s'.defaults == s.defaults && s'.tenants.Keys == s.tenants.Keys
    requires s'.cache == WithoutTenant(s.cache, t)
    requires forall k :: k in s'.overrides ==> k in s.overrides || k.0 == t
    requires forall k: Override :: k.0 != t ==>
      (k in s'.overrides <==> k in s.overrides) && (k in s.overrides ==> s'.overrides[k] == s.overrides[k])
    ensures Coherent(s')
  {
    forall k | k in s'.cache
      ensures Faithful(s', k)
    {
      assert Faithful(s, k);
      forall t', c' | ColonFree(t') && k == FeatureKey(t', c')
        ensures Truth(s', t', c') == Truth(s, t', c')
      {
        PrefixMatchesOwnTenant(t, t', c');
        assert t' != t;
      }
      KeepFaithful(s, s', k);
    }
  }

  lemma ChangePlanKeeps(s: Store, t: string, plan: string, included: seq<string>)
    requires Coherent(s) && ChangePlan(s, t, plan, included).Ok?
    ensures Coherent(ChangePlan(s, t, plan, included).value)
    ensures s.tenants[t] != plan ==>
      forall c :: c in FeaturesToSync(plan, included) ==> Truth(ChangePlan(s, t, plan, included).value, t, c)
  {
    if s.tenants[t] != plan {
      EnableAllRows(WithoutRows(s.overrides, t), t, FeaturesToSync(plan, included));
      TenantRewriteKeeps(s, ChangePlan(s, t, plan, included).value, t);
    }
  }

  /** A new tenant's id is fresh: no key was ever cached for it. */
  ghost predicate FreshTenant(s: Store, t: string) {
    ColonFree(t) && t !in s.tenants && forall c :: FeatureKey(t, c) !in s.cache
  }

  lemma CreateTenantKeeps(s: Store, t: string, plan: string, codes: seq<string>)
    requires Coherent(s) && FreshTenant(s, t)
    ensures Coherent(CreateTenant(s, t, plan, codes))
  {
    var s' := CreateTenant(s, t, plan, codes);
    EnableAllRows(s.overrides, t, codes);
    forall k | k in s'.cache
      ensures Faithful(s', k)
    {
      KeepFaithful(s, s', k);
    }
  }

  lemma ArchiveKeeps(s: Store, t: string)
    requires Coherent(s) && Archive(s, t, false).Ok?
    ensures Coherent(Archive(s, t, false).value)
  {
    TenantRewriteKeeps(s, Archive(s, t, false).value, t);
  }

  lemma ExpireKeeps(s: Store, key: string)
    requires Coherent(s)
    ensures Coherent(s.(cache := s.cache - {key}))
  {
    forall k | k in s.cache - {key}
      ensures Faithful(s.(cache := s.cache - {key}), k)
    {
      KeepFaithful(s, s.(cache := s.cache - {key}), k);
    }
  }

  /* ---------- runs ---------- */

  datatype Action =
    | DoCheck(tenant: string, code: string)
    | DoToggle(tenant: string, code: string, enabled: bool)
    | DoChangePlan(tenant: string, plan: string, included: seq<string>)
    | DoCreate(tenant: string, plan: string, codes: seq<string>)
    | DoArchive(tenant: string, alreadyCancelled: bool)
    | KeyExpires(key: string)

  /** Requests carry UUIDs, new tenants have fresh ids, and no row insert is rejected. */
  ghost predicate Enabled(s: Store, a: Action) {
    match a
    case DoCheck(t, _) => ColonFree(t)
    case DoToggle(_, _, _) => true
    case DoChangePlan(_, plan, included) => Insertable(s, FeaturesToSync(plan, included))
    case DoCreate(t, _, codes) => FreshTenant(s, t) && Known(s, codes)
    case DoArchive(_, _) => true
    case KeyExpires(_) => true
  }

  function Do(s: Store, a: Action): Store {
    match a
    case DoCheck(t, c) => Check(s, t, c).store
    case DoToggle(t, c, enabled) => OrSame(s, Toggle(s, t, c, enabled))
    case DoChangePlan(t, plan, included) => OrSame(s, ChangePlan(s, t, plan, included))
    case DoCreate(t, plan, codes) => CreateTenant(s, t, plan, codes)
    case DoArchive(t, cancelled) => OrSame(s, Archive(s, t, cancelled))
    case KeyExpires(k) => s.(cache := s.cache - {k})
  }

  function OrSame(s: Store, r: Result<Store>): Store {
    if r.Ok? then r.value else s
  }

  ghost function Run(s: Store, actions: seq<Action>): Store {
    if actions == [] then s
    else
      var before := Run(s, actions[..|actions| - 1]);
      if Enabled(before, actions[|actions| - 1]) then Do(before, actions[|actions| - 1]) else before
  }

  lemma StepKeeps(s: Store, a: Action)
    requires Coherent(s) && Enabled(s, a)
    ensures Coherent(Do(s, a))
  {
    match a
    case DoCheck(t, c) => CheckAnswersTruth(s, t, c);
    case DoToggle(t, c, enabled) =>
      if Toggle(s, t, c, enabled).Ok? { ToggleKeeps(s, t, c, enabled); }
    case DoChangePlan(t, plan, included) =>
      if ChangePlan(s, t, plan, included).Ok? { ChangePlanKeeps(s, t, plan, included); }
    case DoCreate(t, plan, codes) => CreateTenantKeeps(s, t, plan, codes);
    case DoArchive(t, cancelled) =>
      if Archive(s, t, cancelled).Ok? { ArchiveKeeps(s, t); }
    case KeyExpires(k) => ExpireKeeps(s, k);
  }

  lemma {:induction false} RunKeeps(s: Store, actions: seq<Action>)
    requires Coherent(s)
    ensures Coherent(Run(s, actions))
  {
    if actions != [] {
      RunKeeps(s, actions[..|actions| - 1]);
      var before := Run(s, actions[..|actions| - 1]);
      if Enabled(before, actions[|actions| - 1]) {
        StepKeeps(before, actions[|actions| - 1]);
      }
    }
  }

  /** From an empty system, whatever has been cached is the database value, and every check
      answers it. */
  lemma EveryRunCoherent(defaults: map<string, bool>, actions: seq<Action>, t: string, c: string)
    requires ColonFree(t)
    ensures var s := Run(Store(defaults, map[], map[], map[]), actions);
      && (FeatureKey(t, c) in s.cache ==> s.cache[FeatureKey(t, c)] == Truth(s, t, c))
      && Check(s, t, c).enabled == Truth(s, t, c)
  {
    var s := Run(Store(defaults, map[], map[], map[]), actions);
    RunKeeps(Store(defaults, map[], map[], map[]), actions);
    if FeatureKey(t, c) in s.cache {
      CachedIsTrue(s, t, c);
    }
    CheckAnswersTruth(s, t, c);
  }

  /* ---------- a rejected row ---------- */

  function Default(s: Store, c: string): bool {
    c in s.defaults && s.defaults[c]
  }

  /**
   If a row insert is rejected half-way, the invalidation is never reached.  A feature cached
   before is then answered right if and only if it was on and its row is back or its default
   is on, or it was off and neither holds.
   */
  lemma AbortedPlanChangeRightIff(s: Store, t: string, plan: string, codes: seq<string>, n: nat, c: string)
    requires Coherent(s) && ColonFree(t) && FeatureKey(t, c) in s.cache && n <= |codes|
    ensures var after := AbortedPlanChange(s, t, plan, codes, n);
      Check(after, t, c).enabled == Truth(after, t, c) <==>
      Truth(s, t, c) == (c in codes[..n] || Default(s, c))
  {
    CachedIsTrue(s, t, c);
    EnableAllRows(WithoutRows(s.overrides, t), t, codes[..n]);
  }

  /** For example, an override that was deleted is still answered from the cache. */
  lemma AbortedPlanChangeIsStale()
    ensures var s := Store(map["x" := false], map["t" := "free"], map[("t", "x") := true],
                           map[FeatureKey("t", "x") := true]);
      && Coherent(s)
      && Check(AbortedPlanChange(s, "t", "pro", ["unknown"], 0), "t", "x").enabled == true
      && Truth(AbortedPlanChange(s, "t", "pro", ["unknown"], 0), "t", "x") == false
  {
    var s := Store(map["x" := false], map["t" := "free"], map[("t", "x") := true],
                   map[FeatureKey("t", "x") := true]);
    assert ColonFree("t");
    assert s.cache[FeatureKey("t", "x")] == Truth(s, "t", "x");
    assert Faithful(s, FeatureKey("t", "x"));
    assert ["unknown"][..0] == [];
  }

  /* ---------- the service object ---------- */

  class FeaturesService {
    const defaults: map<string, bool>
    var tenants: map<string, string>
    var overrides: map<Override, bool>
    var cache: map<string, bool>

    function Model(): Store
      reads this
    {
      Store(defaults, tenants, overrides, cache)
    }

    constructor (defaults: map<string, bool>)
      ensures Model() == Store(defaults, map[], map[], map[])
    {
      this.defaults := defaults;
      tenants, overrides, cache := map[], map[], map[];
    }

    method IsFeatureEnabled(t: string, c: string) returns (enabled: bool)
      modifies this`cache
      ensures Checked(Model(), enabled) == Check(old(Model()), t, c)
    {
      var key := FeatureKey(t, c);
      if key in cache { return cache[key]; }
      if (t, c) in overrides {
        cache := cache[key := overrides[(t, c)]];
        return overrides[(t, c)];
      }
      enabled := c in defaults && defaults[c];
      cache := cache[key := enabled];
    }

    method ToggleFeature(t: string, c: string, on: bool) returns (failure: Option<Failure>)
      modifies this
      ensures Model() == OrSame(old(Model()), Toggle(old(Model()), t, c, on))
      ensures failure.None? <==> Toggle(old(Model()), t, c, on).Ok?
    {
      if c !in defaults { return Some(NotFound); }
      if t !in tenants { return Some(Invalid); }
      overrides := overrides[(t, c) := on];
      cache := cache - {FeatureKey(t, c)};
      failure := None;
    }

    /** Deletes the tenant's rows and inserts one enabled row per code, up to the first that the
        table rejects: a feature it does not know, or one that already has its row. */
    method ReplaceTenantFeatures(t: string, codes: seq<string>) returns (ok: bool)
      modifies this`overrides
      ensures var n := Accepted(defaults, codes);
        ok == (n == |codes|) && overrides == EnableAll(WithoutRows(old(overrides), t), t, codes[..n])
    {
      overrides := WithoutRows(overrides, t);
      ghost var cleared := overrides;
      var i := 0;
      while i < |codes|
        invariant 0 <= i <= |codes|
        invariant Accepted(defaults, codes[..i]) == i
        invariant overrides == EnableAll(cleared, t, codes[..i])
      {
        assert codes[..i + 1][..i] == codes[..i];
        EnableAllRows(cleared, t, codes[..i]);
        if codes[i] !in defaults || (t, codes[i]) in overrides {
          AcceptedStops(defaults, codes, i);
          return false;
        }
        overrides := overrides[(t, codes[i]) := true];
        i := i + 1;
      }
      assert codes[..i] == codes;
      ok := true;
    }

    /**
     The SCAN loop followed by one DEL.  pages is what the scan returns: together the
     matching keys, possibly more than once.
     */
    method InvalidateTenantFeatureCache(t: string, pages: seq<seq<string>>)
      requires forall i, j :: 0 <= i < |pages| && 0 <= j < |pages[i]| ==> TenantPrefix(t) <= pages[i][j]
      requires forall k :: k in cache && TenantPrefix(t) <= k ==> exists i :: 0 <= i < |pages| && k in pages[i]
      modifies this`cache
      ensures cache == WithoutTenant(old(cache), t)
    {
      var keys: set<string> := {};
      var cursor := 0;
      while cursor < |pages|
        invariant 0 <= cursor <= |pages|
        invariant forall k :: k in keys ==> TenantPrefix(t) <= k
        invariant forall i, k :: 0 <= i < cursor && k in pages[i] ==> k in keys
      {
        keys := keys + (set k | k in pages[cursor]);
        cursor := cursor + 1;
      }
      assert forall k :: k in cache && TenantPrefix(t) <= k ==> k in keys;
      if keys != {} {
        cache := cache - keys;
      }
    }

    /** The feature loop of a new tenant: one enabled row per code that has none yet. */
    method ProvisionTenant(t: string, plan: string, codes: seq<string>)
      requires forall k :: k in overrides ==> k.0 != t
      modifies this
      ensures Model() == CreateTenant(old(Model()), t, plan, codes)
    {
      tenants := tenants[t := plan];
      var i := 0;
      while i < |codes|
        invariant 0 <= i <= |codes|
        invariant overrides == EnableAll(old(overrides), t, codes[..i])
        invariant tenants == old(tenants)[t := plan] && cache == old(cache)
      {
        assert codes[..i + 1][..i] == codes[..i];
        EnableAllRows(old(overrides), t, codes[..i]);
        if (t, codes[i]) !in overrides {
          overrides := overrides[(t, codes[i]) := true];
        }
        assert overrides == EnableAll(old(overrides), t, codes[..i])[(t, codes[i]) := true];
        i := i + 1;
      }
      assert codes[..i] == codes;
    }

    method ArchiveTenant(t: string, alreadyCancelled: bool, pages: seq<seq<string>>) returns (failure: Option<Failure>)
      requires forall i, j :: 0 <= i < |pages| && 0 <= j < |pages[i]| ==> TenantPrefix(t) <= pages[i][j]
      requires forall k :: k in cache && TenantPrefix(t) <= k ==> exists i :: 0 <= i < |pages| && k in pages[i]
      modifies this
      ensures Model() == OrSame(old(Model()), Archive(old(Model()), t, alreadyCancelled))
      ensures failure.None? <==> Archive(old(Model()), t, alreadyCancelled).Ok?
    {
      if t !in tenants { return Some(NotFound); }
      if alreadyCancelled { return Some(Invalid); }
      InvalidateTenantFeatureCache(t, pages);
      failure := None;
    }

    method UpdatePlan(t: string, plan: string, included: seq<string>, pages: seq<seq<string>>)
      returns (failure: Option<Failure>)
      requires forall i, j :: 0 <= i < |pages| && 0 <= j < |pages[i]| ==> TenantPrefix(t) <= pages[i][j]
      requires forall k :: k in cache && TenantPrefix(t) <= k ==> exists i :: 0 <= i < |pages| && k in pages[i]
      modifies this
      ensures Model() == PlanChangeOutcome(old(Model()), t, plan, included)
      ensures t !in old(tenants) ==> failure == Some(NotFound)
      ensures t in old(tenants) ==>
        (failure.None? <==> old(tenants)[t] == plan || Insertable(old(Model()), FeaturesToSync(plan, included)))
    {
      if t !in tenants { return Some(NotFound); }
      if tenants[t] == plan { return None; }
      var codes := FeaturesToSync(plan, included);
      AllAcceptedIff(Model(), codes);
      tenants := tenants[t := plan];
      var ok := ReplaceTenantFeatures(t, codes);
      if !ok { return Some(Invalid); }
      assert codes[..|codes|] == codes;
      InvalidateTenantFeatureCache(t, pages);
      failure := None;
    }
  }
}
