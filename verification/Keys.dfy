/** Cache keys made by joining a tenant id and a feature code with colons. */
module Keys {

  predicate ColonFree(s: string) {
    forall i :: 0 <= i < |s| ==> s[i] != ':'
  }

  function Joined(tenant: string, code: string): string {
    tenant + ":" + code
  }

  /** With colon-free tenant ids a joined key determines both of its parts. */
  lemma JoinedInjective(t: string, c: string, t': string, c': string)
    requires ColonFree(t) && ColonFree(t') && Joined(t, c) == Joined(t', c')
    ensures t == t' && c == c'
  {
    var k := Joined(t, c);
    assert k[|t|] == ':' && k[|t'|] == ':';
    assert |t| == |t'|;
    assert t == k[..|t|] && t' == k[..|t'|];
    assert c == k[|t| + 1..] && c' == k[|t'| + 1..];
  }

  /** Without that, keys of two tenants can coincide exactly when one tenant id, with its colon,
      begins with the other. */
  lemma JoinedAmbiguousIff(t: string, t': string)
    requires t != t'
    ensures (exists c, c' :: Joined(t, c) == Joined(t', c')) <==> t + ":" <= t' + ":" || t' + ":" <= t + ":"
  {
    if c, c' :| Joined(t, c) == Joined(t', c') {
      var k := Joined(t, c);
      assert t + ":" == k[..|t| + 1] && t' + ":" == k[..|t'| + 1];
    }
    if t + ":" <= t' + ":" {
      assert Joined(t, (t' + ":")[|t| + 1..]) == Joined(t', "");
    }
    if t' + ":" <= t + ":" {
      assert Joined(t, "") == Joined(t', (t + ":")[|t'| + 1..]);
    }
  }

  const FEATURE := "feature:"

  function FeatureKey(tenant: string, code: string): string {
    FEATURE + Joined(tenant, code)
  }

  function TenantPrefix(tenant: string): string {
    FEATURE + tenant + ":"
  }

  /** The texts the code builds. */
  lemma FeatureKeyText(t: string, c: string)
    ensures FeatureKey(t, c) == "feature:" + (t + ":" + c)
    ensures TenantPrefix(t) == "feature:" + t + ":"
  {
  }

  lemma FeatureKeyInjective(t: string, c: string, t': string, c': string)
    requires ColonFree(t) && ColonFree(t') && FeatureKey(t, c) == FeatureKey(t', c')
    ensures t == t' && c == c'
  {
    assert Joined(t, c) == FeatureKey(t, c)[|FEATURE|..];
    assert Joined(t', c') == FeatureKey(t', c')[|FEATURE|..];
    JoinedInjective(t, c, t', c');
  }

  /** The SCAN pattern of one tenant matches that tenant's keys and no other tenant's. */
  lemma PrefixMatchesOwnTenant(t: string, t': string, c': string)
    requires ColonFree(t) && ColonFree(t')
    ensures TenantPrefix(t) <= FeatureKey(t', c') <==> t == t'
  {
    var p, k := TenantPrefix(t), FeatureKey(t', c');
    assert FEATURE + t' + ":" + c' == k;
    if p <= k {
      var c := k[|p|..];
      assert k == p + c;
      assert p + c == FeatureKey(t, c);
      FeatureKeyInjective(t, c, t', c');
    }
  }

  /* ---------- rate-limit keys ---------- */

  /** One decimal digit. */
  function Digit(n: nat): char
    requires n < 10
  {
    "0123456789"[n]
  }

  function Decimal(n: nat): string {
    if n < 10 then [Digit(n)] else Decimal(n / 10) + [Digit(n % 10)]
  }

  lemma DigitInjective(m: nat, n: nat)
    requires m < 10 && n < 10 && Digit(m) == Digit(n)
    ensures m == n
  {
  }

  lemma {:induction false} DecimalShape(n: nat)
    ensures Decimal(n) != [] && '0' <= Decimal(n)[0] <= '9'
    ensures |Decimal(n)| == 1 <==> n < 10
  {
    if n >= 10 {
      DecimalShape(n / 10);
    }
  }

  lemma {:induction false} DecimalInjective(m: nat, n: nat)
    requires Decimal(m) == Decimal(n)
    ensures m == n
  {
    var a, b := Decimal(m), Decimal(n);
    DecimalShape(m);
    DecimalShape(n);
    assert a[|a| - 1] == Digit(m % 10) && b[|b| - 1] == Digit(n % 10);
    DigitInjective(m % 10, n % 10);
    if m >= 10 {
      assert a[..|a| - 1] == Decimal(m / 10) && b[..|b| - 1] == Decimal(n / 10);
      DecimalInjective(m / 10, n / 10);
    }
  }

  /** The three counters of a tenant. */
  datatype Scope = PerMinute | PerHour | PerSecond

  function ScopeText(s: Scope): string {
    match s case PerMinute => "" case PerHour => "hour:" case PerSecond => "burst:"
  }

  const RATELIMIT := "ratelimit:"

  function RateKey(tenant: string, s: Scope, bucket: nat): string {
    RATELIMIT + Joined(tenant, ScopeText(s) + Decimal(bucket))
  }

  lemma ScopeInjective(s: Scope, n: nat, s': Scope, n': nat)
    requires ScopeText(s) + Decimal(n) == ScopeText(s') + Decimal(n')
    ensures s == s' && n == n'
  {
    DecimalShape(n);
    DecimalShape(n');
    var a, b := ScopeText(s) + Decimal(n), ScopeText(s') + Decimal(n');
    assert a[0] == b[0];
    assert Decimal(n) == a[|ScopeText(s)|..] && Decimal(n') == b[|ScopeText(s')|..];
    DecimalInjective(n, n');
  }

  lemma RateKeyText(t: string, n: nat)
    ensures RateKey(t, PerMinute, n) == "ratelimit:" + (t + ":" + ("" + Decimal(n)))
    ensures RateKey(t, PerHour, n) == "ratelimit:" + (t + ":" + ("hour:" + Decimal(n)))
    ensures RateKey(t, PerSecond, n) == "ratelimit:" + (t + ":" + ("burst:" + Decimal(n)))
  {
  }

  /** A rate-limit key determines tenant, counter and bucket. */
  lemma RateKeyInjective(t: string, s: Scope, n: nat, t': string, s': Scope, n': nat)
    requires ColonFree(t) && ColonFree(t') && RateKey(t, s, n) == RateKey(t', s', n')
    ensures t == t' && s == s' && n == n'
  {
    var rest, rest' := ScopeText(s) + Decimal(n), ScopeText(s') + Decimal(n');
    assert Joined(t, rest) == RateKey(t, s, n)[|RATELIMIT|..];
    assert Joined(t', rest') == RateKey(t', s', n')[|RATELIMIT|..];
    JoinedInjective(t, rest, t', rest');
    ScopeInjective(s, n, s', n');
  }
}
