/**
 Timetables that use the rate limits up: arrivals filled in second by second and minute by
 minute, and joined across a bucket boundary.
 */
module Timetables {
  import opened RateLimiter
  import opened RateSchedule

  predicate StartsBucket(w: Window, t: nat) {
    match w
    case Minute => t % 60_000 == 0
    case Hour => t % 3_600_000 == 0
    case Burst => t % 1_000 == 0
  }

  predicate Span(ts: seq<nat>, lo: nat, hi: nat) {
    forall i :: 0 <= i < |ts| ==> lo <= ts[i] < hi
  }

  /* ---------- tallies ---------- */

  lemma {:induction false} TallyConcat(a: seq<nat>, b: seq<nat>, w: Window, x: nat)
    ensures Tally(a + b, w, x) == Tally(a, w, x) + Tally(b, w, x)
  {
    if b == [] {
      assert a + b == a;
    } else {
      var n := |b| - 1;
      assert a + b == a + b[..n] + [b[n]];
      TallyPush(a + b[..n], b[n], w, x);
      TallyConcat(a, b[..n], w, x);
    }
  }

  lemma {:induction false} TallyLength(ts: seq<nat>, w: Window, b: nat)
    ensures Tally(ts, w, b) <= |ts|
  {
    if ts != [] {
      TallyLength(ts[..|ts| - 1], w, b);
    }
  }

  lemma {:induction false} TallyNone(ts: seq<nat>, w: Window, b: nat)
    requires forall i :: 0 <= i < |ts| ==> Bucket(w, ts[i]) != b
    ensures Tally(ts, w, b) == 0
  {
    if ts != [] {
      TallyNone(ts[..|ts| - 1], w, b);
    }
  }

  lemma CappedByLength(ts: seq<nat>, w: Window, cap: nat)
    requires |ts| <= cap
    ensures Capped(ts, w, cap)
  {
    forall b
      ensures Tally(ts, w, b) <= cap
    {
      TallyLength(ts, w, b);
    }
  }

  lemma Thousands(x: nat, q: nat)
    requires x == 1_000 * q
    ensures x / 1_000 == q && x % 1_000 == 0
  {
  }

  lemma Sixties(x: nat, q: nat)
    requires x == 60 * q
    ensures x / 60 == q
  {
  }

  lemma SixtySixties(x: nat, q: nat)
    requires x == 3_600 * q
    ensures x / 3_600 == q
  {
  }

  lemma WholeMinutes(x: nat, q: nat)
    requires x == 60_000 * q
    ensures x % 60_000 == 0
  {
  }

  lemma MinuteBoundary(mid: nat)
    requires mid % 60_000 == 0
    ensures mid == 60_000 * (mid / 1_000 / 60) && mid % 1_000 == 0
  {
    var q := mid / 60_000;
    Thousands(mid, 60 * q);
    Sixties(60 * q, q);
  }

  lemma HourBoundary(mid: nat)
    requires mid % 3_600_000 == 0
    ensures mid == 3_600_000 * (mid / 1_000 / 3_600) && mid % 60_000 == 0
  {
    var q := mid / 3_600_000;
    Thousands(mid, 3_600 * q);
    SixtySixties(3_600 * q, q);
    WholeMinutes(mid, 60 * q);
  }

  /** A boundary is the first moment of its bucket. */
  lemma AlignedStart(w: Window, mid: nat)
    requires StartsBucket(w, mid)
    ensures mid + 2 * Length(w) == Horizon(w, Bucket(w, mid))
  {
    match w
    case Minute => MinuteBoundary(mid);
    case Hour => HourBoundary(mid);
    case Burst =>
  }

  /** And a boundary of every shorter window. */
  lemma BoundariesNest(mid: nat)
    ensures StartsBucket(Hour, mid) ==> StartsBucket(Minute, mid)
    ensures StartsBucket(Minute, mid) ==> StartsBucket(Burst, mid)
  {
    if StartsBucket(Hour, mid) { HourBoundary(mid); }
    if StartsBucket(Minute, mid) { MinuteBoundary(mid); }
  }

  lemma BucketSides(w: Window, mid: nat, t: nat)
    requires StartsBucket(w, mid)
    ensures t < mid ==> Bucket(w, t) < Bucket(w, mid)
    ensures t >= mid ==> Bucket(w, t) >= Bucket(w, mid)
  {
    AlignedStart(w, mid);
    BucketSpan(w, t);
    Sides(w, Bucket(w, mid), mid, Bucket(w, t), t);
  }

  lemma Sides(w: Window, m: nat, mid: nat, b: nat, t: nat)
    requires mid + 2 * Length(w) == Horizon(w, m) && Horizon(w, b) - 2 * Length(w) <= t < Horizon(w, b) - Length(w)
    ensures t < mid ==> b < m
    ensures t >= mid ==> b >= m
  {
    match w
    case Minute =>
    case Hour =>
    case Burst =>
  }

  lemma TallySides(ts: seq<nat>, w: Window, mid: nat, b: nat)
    requires StartsBucket(w, mid)
    ensures (forall i :: 0 <= i < |ts| ==> ts[i] < mid) && b >= Bucket(w, mid) ==> Tally(ts, w, b) == 0
    ensures (forall i :: 0 <= i < |ts| ==> ts[i] >= mid) && b < Bucket(w, mid) ==> Tally(ts, w, b) == 0
  {
    forall i | 0 <= i < |ts|
      ensures ts[i] < mid ==> Bucket(w, ts[i]) < Bucket(w, mid)
      ensures ts[i] >= mid ==> Bucket(w, ts[i]) >= Bucket(w, mid)
    {
      BucketSides(w, mid, ts[i]);
    }
    if (forall i :: 0 <= i < |ts| ==> ts[i] < mid) && b >= Bucket(w, mid) {
      TallyNone(ts, w, b);
    }
    if (forall i :: 0 <= i < |ts| ==> ts[i] >= mid) && b < Bucket(w, mid) {
      TallyNone(ts, w, b);
    }
  }

  /** Across a bucket boundary caps do not add up. */
  lemma JoinCapped(a: seq<nat>, b: seq<nat>, w: Window, lo: nat, mid: nat, hi: nat, cap: nat)
    requires StartsBucket(w, mid) && Span(a, lo, mid) && Span(b, mid, hi) && Capped(a, w, cap) && Capped(b, w, cap)
    ensures Capped(a + b, w, cap)
  {
    forall x
      ensures Tally(a + b, w, x) <= cap
    {
      TallyConcat(a, b, w, x);
      TallySides(a, w, mid, x);
      TallySides(b, w, mid, x);
      assert Tally(a, w, x) <= cap && Tally(b, w, x) <= cap;
    }
  }

  lemma JoinSorted(a: seq<nat>, b: seq<nat>, lo: nat, mid: nat, hi: nat)
    requires Sorted(a) && Sorted(b) && Span(a, lo, mid) && Span(b, mid, hi) && lo <= mid <= hi
    ensures Sorted(a + b) && Span(a + b, lo, hi)
  {
  }

  /* ---------- second by second ---------- */

  function Repeat(t: nat, n: nat): seq<nat> {
    seq(n, _ => t)
  }

  lemma RepeatFacts(t: nat, n: nat)
    ensures |Repeat(t, n)| == n && Sorted(Repeat(t, n)) && Span(Repeat(t, n), t, t + 1)
  {
  }

  /** n arrivals from start on, cap in each second. */
  function FillSeconds(start: nat, cap: nat, n: nat): seq<nat>
    requires cap >= 1
    decreases n
  {
    if n <= cap then Repeat(start, n) else Repeat(start, cap) + FillSeconds(start + 1_000, cap, n - cap)
  }

  lemma Rest(n: nat, q: nat, cap: nat)
    requires cap < n <= q * cap
    ensures q >= 1 && n - cap <= (q - 1) * cap
  {
    assert (q - 1) * cap == q * cap - cap;
  }

  lemma Widen(ts: seq<nat>, lo: nat, hi: nat, hi': nat)
    requires Span(ts, lo, hi) && hi <= hi'
    ensures Span(ts, lo, hi')
  {
  }

  lemma {:induction false} FillSecondsFacts(start: nat, cap: nat, n: nat, q: nat)
    requires cap >= 1 && StartsBucket(Burst, start) && n <= q * cap
    ensures |FillSeconds(start, cap, n)| == n && Sorted(FillSeconds(start, cap, n))
    ensures Span(FillSeconds(start, cap, n), start, start + 1_000 * q)
    ensures Capped(FillSeconds(start, cap, n), Burst, cap)
    decreases n
  {
    if n <= cap {
      RepeatFacts(start, n);
      CappedByLength(Repeat(start, n), Burst, cap);
    } else {
      var one, rest := Repeat(start, cap), FillSeconds(start + 1_000, cap, n - cap);
      Rest(n, q, cap);
      FillSecondsFacts(start + 1_000, cap, n - cap, q - 1);
      RepeatFacts(start, cap);
      CappedByLength(one, Burst, cap);
      Widen(one, start, start + 1, start + 1_000);
      JoinSorted(one, rest, start, start + 1_000, start + 1_000 * q);
      JoinCapped(one, rest, Burst, start, start + 1_000, start + 1_000 * q, cap);
    }
  }

  /* ---------- minute by minute ---------- */

  /** n arrivals from start on, perMinute in each minute and burst in each second. */
  function FillMinutes(start: nat, perMinute: nat, burst: nat, n: nat): seq<nat>
    requires perMinute >= 1 && burst >= 1
    decreases n
  {
    if n <= perMinute then FillSeconds(start, burst, n)
    else FillSeconds(start, burst, perMinute) + FillMinutes(start + 60_000, perMinute, burst, n - perMinute)
  }

  ghost predicate Filled(ts: seq<nat>, n: nat, lo: nat, hi: nat, perMinute: nat, burst: nat) {
    |ts| == n && Sorted(ts) && Span(ts, lo, hi) && Capped(ts, Burst, burst) && Capped(ts, Minute, perMinute)
  }

  lemma OneMinute(start: nat, perMinute: nat, burst: nat, n: nat)
    requires perMinute >= 1 && burst >= 1 && perMinute <= 60 * burst && StartsBucket(Minute, start) && n <= perMinute
    ensures Filled(FillSeconds(start, burst, n), n, start, start + 60_000, perMinute, burst)
  {
    BoundariesNest(start);
    FillSecondsFacts(start, burst, n, 60);
    CappedByLength(FillSeconds(start, burst, n), Minute, perMinute);
  }

  lemma JoinFilled(a: seq<nat>, b: seq<nat>, lo: nat, mid: nat, hi: nat, perMinute: nat, burst: nat)
    requires StartsBucket(Minute, mid) && lo <= mid <= hi
    requires Filled(a, |a|, lo, mid, perMinute, burst) && Filled(b, |b|, mid, hi, perMinute, burst)
    ensures Filled(a + b, |a| + |b|, lo, hi, perMinute, burst)
  {
    BoundariesNest(mid);
    JoinSorted(a, b, lo, mid, hi);
    JoinCapped(a, b, Burst, lo, mid, hi, burst);
    JoinCapped(a, b, Minute, lo, mid, hi, perMinute);
  }

  lemma {:induction false} FillMinutesFacts(start: nat, perMinute: nat, burst: nat, n: nat, q: nat)
    requires perMinute >= 1 && burst >= 1 && perMinute <= 60 * burst && StartsBucket(Minute, start)
    requires n <= q * perMinute
    ensures Filled(FillMinutes(start, perMinute, burst, n), n, start, start + 60_000 * q, perMinute, burst)
    decreases n
  {
    if n <= perMinute {
      OneMinute(start, perMinute, burst, n);
      if n > 0 { AtLeastOne(n, q, perMinute); }
    } else {
      Rest(n, q, perMinute);
      OneMinute(start, perMinute, burst, perMinute);
      FillMinutesFacts(start + 60_000, perMinute, burst, n - perMinute, q - 1);
      JoinFilled(FillSeconds(start, burst, perMinute), FillMinutes(start + 60_000, perMinute, burst, n - perMinute),
                 start, start + 60_000, start + 60_000 * q, perMinute, burst);
    }
  }

  lemma AtLeastOne(n: nat, q: nat, cap: nat)
    requires 0 < n <= q * cap
    ensures q >= 1
  {
  }
}
