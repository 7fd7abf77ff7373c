/**
 What the feature operations write, said on the rows and keys themselves, and when they succeed.
 */
module FeatureGates {
  import opened Basics
  import opened Keys
  import opened FeatureCache

  /** The tenant has exactly one enabled row per code, answers its defaults otherwise, and the rows
      of other tenants are as they were. */
  ghost predicate HasRows(s: Store, after: Store, t: string, codes: seq<string>) {
    && after.defaults == s.defaults
    && (forall c :: (t, c) in after.overrides <==> c in codes)
    && (forall c :: c in codes ==> (t, c) in after.overrides && after.overrides[(t, c)])
    && (forall c :: c !in codes ==> Truth(after, t, c) == (c in s.defaults && s.defaults[c]))
    && (forall k: Override :: k.0 != t ==>
          (k in after.overrides <==> k in s.overrides) && (k in s.overrides ==> after.overrides[k] == s.overrides[k]))
  }

  /* ---------- plan changes ---------- */

  lemma RowsReplaced(s: Store, after: Store, t: string, codes: seq<string>)
    requires after.defaults == s.defaults
    requires after.overrides == EnableAll(WithoutRows(s.overrides, t), t, codes)
    ensures HasRows(s, after, t, codes)
  {
    EnableAllRows(WithoutRows(s.overrides, t), t, codes);
  }

  /** A plan record that lists features decides alone. */
  lemma PlanRecordDecides(s: Store, t: string, plan: string, included: seq<string>)
    requires t in s.tenants && s.tenants[t] != plan && included != []
    ensures ChangePlan(s, t, plan, included).Ok?
    ensures HasRows(s, ChangePlan(s, t, plan, included).value, t, included)
    ensures ChangePlan(s, t, plan, included).value.tenants == s.tenants[t := plan]
  {
    RowsReplaced(s, ChangePlan(s, t, plan, included).value, t, included);
  }

  /** A plan record that lists none leaves the decision to the fixed lists of the four plans; any
      other plan leaves no row. */
  lemma FixedListsDecide(s: Store, t: string, plan: string)
    requires t in s.tenants && s.tenants[t] != plan
    ensures ChangePlan(s, t, plan, []).Ok?
    ensures var after := ChangePlan(s, t, plan, []).value;
      && after.tenants == s.tenants[t := plan]
      && (plan == "free" ==> HasRows(s, after, t, ["basic_reporting"]))
      && (plan == "starter" ==> HasRows(s, after, t, ["basic_reporting", "api_access", "webhooks"]))
      && (plan == "pro" ==>
            HasRows(s, after, t, ["basic_reporting", "api_access", "webhooks", "advanced_analytics", "sso"]))
      && (plan == "enterprise" ==>
            HasRows(s, after, t, ["basic_reporting", "api_access", "webhooks", "advanced_analytics", "sso",
                                  "custom_domain", "audit_logs"]))
      && (plan !in {"free", "starter", "pro", "enterprise"} ==> HasRows(s, after, t, []))
  {
    RowsReplaced(s, ChangePlan(s, t, plan, []).value, t, FeaturesToSync(plan, []));
  }

  /** A change to the plan the tenant has, or of a tenant that does not exist, does nothing. */
  lemma NoPlanChange(s: Store, t: string, plan: string, included: seq<string>)
    ensures t !in s.tenants <==> ChangePlan(s, t, plan, included) == Err(NotFound)
    ensures t in s.tenants && s.tenants[t] == plan ==> ChangePlan(s, t, plan, included) == Ok(s)
    ensures t !in s.tenants || s.tenants[t] == plan ==> PlanChangeOutcome(s, t, plan, included) == s
  {
  }

  /** The rows before the first one the table rejects: known, all different, and then one that is
      not. */
  lemma {:induction false} AcceptedIsFirstRejected(s: Store, codes: seq<string>)
    ensures var n := Accepted(s.defaults, codes);
      && Insertable(s, codes[..n])
      && (n < |codes| ==> codes[n] !in s.defaults || codes[n] in codes[..n])
  {
    if codes != [] {
      var last := |codes| - 1;
      AcceptedIsFirstRejected(s, codes[..last]);
      var n := Accepted(s.defaults, codes[..last]);
      assert codes[..last][..n] == codes[..n];
      if n == last { assert codes[..last][..last] == codes[..last]; }
      AllAcceptedIff(s, codes);
      assert codes[..|codes|] == codes;
    }
  }

  /** The codes a plan change is about: the plan record's own, else the plan's fixed list. */
  function Listed(plan: string, included: seq<string>): seq<string> {
    if included != [] then included
    else match plan
      case "free" => ["basic_reporting"]
      case "starter" => ["basic_reporting", "api_access", "webhooks"]
      case "pro" => ["basic_reporting", "api_access", "webhooks", "advanced_analytics", "sso"]
      case "enterprise" =>
        ["basic_reporting", "api_access", "webhooks", "advanced_analytics", "sso", "custom_domain", "audit_logs"]
      case _ => []
  }

  lemma ListedAgrees(plan: string, included: seq<string>)
    ensures FeaturesToSync(plan, included) == Listed(plan, included)
  {
  }

  /** If no row is rejected the change is complete, and the tenant's keys are gone. */
  lemma CompletePlanChange(s: Store, t: string, plan: string, included: seq<string>)
    requires t in s.tenants && s.tenants[t] != plan && Insertable(s, Listed(plan, included))
    ensures var after := PlanChangeOutcome(s, t, plan, included);
      && HasRows(s, after, t, Listed(plan, included))
      && after.tenants == s.tenants[t := plan]
      && (forall k :: k in after.cache <==> k in s.cache && !(TenantPrefix(t) <= k))
      && (forall k :: k in after.cache ==> after.cache[k] == s.cache[k])
  {
    ListedAgrees(plan, included);
    AllAcceptedIff(s, Listed(plan, included));
    RowsReplaced(s, ChangePlan(s, t, plan, included).value, t, Listed(plan, included));
  }

  lemma AbortedIs(s: Store, t: string, plan: string, included: seq<string>)
    requires t in s.tenants && s.tenants[t] != plan && !Insertable(s, Listed(plan, included))
    ensures var codes := Listed(plan, included);
      var n := Accepted(s.defaults, codes);
      n < |codes| && PlanChangeOutcome(s, t, plan, included) == AbortedPlanChange(s, t, plan, codes, n)
  {
    ListedAgrees(plan, included);
    AllAcceptedIff(s, Listed(plan, included));
  }

  lemma AbortedRows(s: Store, t: string, plan: string, codes: seq<string>, n: nat)
    requires n <= |codes|
    ensures HasRows(s, AbortedPlanChange(s, t, plan, codes, n), t, codes[..n])
    ensures AbortedPlanChange(s, t, plan, codes, n).cache == s.cache
    ensures AbortedPlanChange(s, t, plan, codes, n).tenants == s.tenants[t := plan]
  {
    RowsReplaced(s, AbortedPlanChange(s, t, plan, codes, n), t, codes[..n]);
  }

  /** If one is, exactly the rows before the first such one are written and the cache stays as it
      was. */
  lemma AbortedPlanRows(s: Store, t: string, plan: string, included: seq<string>)
    requires t in s.tenants && s.tenants[t] != plan && !Insertable(s, Listed(plan, included))
    ensures var codes := Listed(plan, included);
      var n := Accepted(s.defaults, codes);
      var after := PlanChangeOutcome(s, t, plan, included);
      && n < |codes| && Insertable(s, codes[..n]) && (codes[n] !in s.defaults || codes[n] in codes[..n])
      && HasRows(s, after, t, codes[..n])
      && after.cache == s.cache && after.tenants == s.tenants[t := plan]
  {
    var codes := Listed(plan, included);
    AbortedIs(s, t, plan, included);
    AbortedRows(s, t, plan, codes, Accepted(s.defaults, codes));
    AcceptedIsFirstRejected(s, codes);
  }

  /* ---------- toggles, checks, new and archived tenants ---------- */

  /** A toggle succeeds if and only if code and tenant are known; it writes the one row and deletes
      the one key, and everything else stays. */
  lemma TogglesIff(s: Store, t: string, c: string, enabled: bool)
    ensures Toggle(s, t, c, enabled).Ok? <==> c in s.defaults && t in s.tenants
    ensures c !in s.defaults <==> Toggle(s, t, c, enabled) == Err(NotFound)
    ensures Toggle(s, t, c, enabled).Ok? ==>
      var after := Toggle(s, t, c, enabled).value;
      && after.defaults == s.defaults && after.tenants == s.tenants
      && (t, c) in after.overrides && after.overrides[(t, c)] == enabled
      && (forall k :: k != (t, c) ==>
            (k in after.overrides <==> k in s.overrides) && (k in s.overrides ==> after.overrides[k] == s.overrides[k]))
      && (forall k :: k in after.cache <==> k in s.cache && k != FeatureKey(t, c))
      && (forall k :: k in after.cache ==> after.cache[k] == s.cache[k])
  {
  }

  /** A check leaves its answer in the cache under the one key, and changes nothing else. */
  lemma CheckFills(s: Store, t: string, c: string)
    ensures var checked := Check(s, t, c);
      && checked.store == s.(cache := checked.store.cache)
      && FeatureKey(t, c) in checked.store.cache && checked.store.cache[FeatureKey(t, c)] == checked.enabled
      && (forall k :: k != FeatureKey(t, c) ==>
            (k in checked.store.cache <==> k in s.cache) && (k in s.cache ==> checked.store.cache[k] == s.cache[k]))
  {
  }

  /** A new tenant has exactly the rows of its plan. */
  lemma NewTenantHasRows(s: Store, t: string, plan: string, codes: seq<string>)
    requires forall k :: k in s.overrides ==> k.0 != t
    ensures HasRows(s, CreateTenant(s, t, plan, codes), t, codes)
    ensures CreateTenant(s, t, plan, codes).tenants == s.tenants[t := plan]
    ensures CreateTenant(s, t, plan, codes).cache == s.cache
  {
    EnableAllRows(s.overrides, t, codes);
  }

  /** An archive succeeds if and only if the tenant exists and is not cancelled yet; it deletes the
      tenant's keys and nothing else. */
  lemma ArchivesIff(s: Store, t: string, alreadyCancelled: bool)
    ensures Archive(s, t, alreadyCancelled).Ok? <==> t in s.tenants && !alreadyCancelled
    ensures t !in s.tenants <==> Archive(s, t, alreadyCancelled) == Err(NotFound)
    ensures Archive(s, t, alreadyCancelled).Ok? ==>
      var after := Archive(s, t, alreadyCancelled).value;
      && after == s.(cache := after.cache)
      && (forall k :: k in after.cache <==> k in s.cache && !(TenantPrefix(t) <= k))
      && (forall k :: k in after.cache ==> after.cache[k] == s.cache[k])
  {
  }
}
