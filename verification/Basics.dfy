/** Shared vocabulary: optional values, command outcomes, and integer sums over sequences. */
module Basics {

  datatype Option<+T> = None | Some(value: T)

  datatype Failure =
    | NotFound
    | Invalid
    | PeriodNotOpen
    | DraftsRemain(count: nat)
    | NoSurplusAccount
    | NotDraft
    | Unbalanced
    | NotPosted
    | DuplicateReversal
    | DuplicateCode
    | DuplicatePeriod
    | UnknownAccount
    | UnknownKind
    | Unavailable

  datatype Result<+T> = Ok(value: T) | Err(error: Failure)

  lemma SubsetSize(a: set<nat>, b: set<nat>)
    requires a <= b
    ensures |a| <= |b|
  {
    assert b == a + (b - a);
  }
}

module Sums {

  /** The sum of f over s, growing at the end like the loops that append. */
  function Total<T>(s: seq<T>, f: T -> int): int {
    if s == [] then 0 else Total(s[..|s| - 1], f) + f(s[|s| - 1])
  }

  lemma {:induction false} TotalConcat<T>(s: seq<T>, t: seq<T>, f: T -> int)
    ensures Total(s + t, f) == Total(s, f) + Total(t, f)
  {
    if t == [] {
      assert s + t == s;
    } else {
      var t' := t[..|t| - 1];
      assert (s + t)[..|s + t| - 1] == s + t';
      TotalConcat(s, t', f);
    }
  }

  lemma TotalPush<T>(s: seq<T>, x: T, f: T -> int)
    ensures Total(s + [x], f) == Total(s, f) + f(x)
  {
    assert (s + [x])[..|s|] == s;
  }

  lemma {:induction false} TotalUpdate<T>(s: seq<T>, i: nat, x: T, f: T -> int)
    requires i < |s|
    ensures Total(s[i := x], f) == Total(s, f) - f(s[i]) + f(x)
  {
    var n := |s| - 1;
    if i == n {
      assert s[i := x][..n] == s[..n];
    } else {
      assert s[i := x][..n] == s[..n][i := x];
      TotalUpdate(s[..n], i, x, f);
    }
  }

  lemma {:induction false} TotalSame<T>(s: seq<T>, f: T -> int, g: T -> int)
    requires forall i :: 0 <= i < |s| ==> f(s[i]) == g(s[i])
    ensures Total(s, f) == Total(s, g)
  {
    if s != [] {
      TotalSame(s[..|s| - 1], f, g);
    }
  }

  lemma {:induction false} TotalZero<T>(s: seq<T>, f: T -> int)
    requires forall i :: 0 <= i < |s| ==> f(s[i]) == 0
    ensures Total(s, f) == 0
  {
    if s != [] {
      TotalZero(s[..|s| - 1], f);
    }
  }

  lemma {:induction false} TotalPlus<T>(s: seq<T>, f: T -> int, g: T -> int, h: T -> int)
    requires forall i :: 0 <= i < |s| ==> h(s[i]) == f(s[i]) + g(s[i])
    ensures Total(s, h) == Total(s, f) + Total(s, g)
  {
    if s != [] {
      TotalPlus(s[..|s| - 1], f, g, h);
    }
  }

  lemma TotalMinus<T>(s: seq<T>, f: T -> int, g: T -> int, h: T -> int)
    requires forall i :: 0 <= i < |s| ==> h(s[i]) == f(s[i]) - g(s[i])
    ensures Total(s, h) == Total(s, f) - Total(s, g)
  {
    TotalPlus(s, h, g, f);
  }

  /* ---------- the LINQ operators of the report handlers ---------- */

  function Where<T>(s: seq<T>, p: T -> bool): seq<T> {
    if s == [] then []
    else Where(s[..|s| - 1], p) + (if p(s[|s| - 1]) then [s[|s| - 1]] else [])
  }

  function Select<T, U>(s: seq<T>, g: T -> U): seq<U> {
    if s == [] then [] else Select(s[..|s| - 1], g) + [g(s[|s| - 1])]
  }

  /** Summing what a filter keeps is summing everything with the rest counted as zero. */
  lemma {:induction false} TotalWhere<T>(s: seq<T>, p: T -> bool, f: T -> int, h: T -> int)
    requires forall i :: 0 <= i < |s| ==> h(s[i]) == if p(s[i]) then f(s[i]) else 0
    ensures Total(Where(s, p), f) == Total(s, h)
  {
    if s != [] {
      var n := |s| - 1;
      TotalWhere(s[..n], p, f, h);
      TotalConcat(Where(s[..n], p), if p(s[n]) then [s[n]] else [], f);
      assert [s[n]][..0] == [];
      assert Total([s[n]], f) == Total([s[n]][..0], f) + f(s[n]);
    }
  }

  lemma {:induction false} TotalSelect<T, U>(s: seq<T>, g: T -> U, f: U -> int, h: T -> int)
    requires forall i :: 0 <= i < |s| ==> h(s[i]) == f(g(s[i]))
    ensures Total(Select(s, g), f) == Total(s, h)
  {
    if s != [] {
      TotalSelect(s[..|s| - 1], g, f, h);
      TotalPush(Select(s[..|s| - 1], g), g(s[|s| - 1]), f);
    }
  }

  lemma {:induction false} WhereMember<T>(s: seq<T>, p: T -> bool, x: T)
    ensures x in Where(s, p) <==> x in s && p(x)
  {
    if s != [] {
      var n := |s| - 1;
      WhereMember(s[..n], p, x);
      assert s == s[..n] + [s[n]];
    }
  }

  lemma {:induction false} SelectMember<T, U>(s: seq<T>, g: T -> U, y: U)
    ensures y in Select(s, g) <==> exists i :: 0 <= i < |s| && g(s[i]) == y
  {
    if s != [] {
      var n := |s| - 1;
      SelectMember(s[..n], g, y);
      if y in Select(s[..n], g) {
        var i :| 0 <= i < n && g(s[..n][i]) == y;
        assert g(s[i]) == y;
      }
      if i :| 0 <= i < |s| && g(s[i]) == y {
        assert i == n || g(s[..n][i]) == y;
      }
    }
  }

  /* ---------- counting what a filter keeps ---------- */

  /** The positions at which p holds. */
  ghost function Holding<T(!new)>(s: seq<T>, p: T -> bool): set<nat> {
    set i: nat | i < |s| && p(s[i])
  }

  lemma {:induction false} WhereCount<T(!new)>(s: seq<T>, p: T -> bool)
    ensures |Where(s, p)| == |Holding(s, p)|
  {
    if s == [] {
      assert Holding(s, p) == {};
    } else {
      var n := |s| - 1;
      WhereCount(s[..n], p);
      assert Holding(s, p) == Holding(s[..n], p) + (if p(s[n]) then {n} else {});
    }
  }

  lemma {:induction false} SelectLength<T, U>(s: seq<T>, g: T -> U)
    ensures |Select(s, g)| == |s| && forall i :: 0 <= i < |s| ==> Select(s, g)[i] == g(s[i])
  {
    if s != [] {
      SelectLength(s[..|s| - 1], g);
    }
  }

  lemma WherePush<T>(s: seq<T>, x: T, p: T -> bool)
    ensures Where(s + [x], p) == if p(x) then Where(s, p) + [x] else Where(s, p)
  {
    assert (s + [x])[..|s|] == s;
  }

  lemma SelectPush<T, U>(s: seq<T>, x: T, g: T -> U)
    ensures Select(s + [x], g) == Select(s, g) + [g(x)]
  {
    assert (s + [x])[..|s|] == s;
  }

  /** A filter before a projection and one after it keep what both keep. */
  lemma {:induction false} FilteredCount<T, U>(s: seq<T>, p: T -> bool, g: T -> U, q: U -> bool, r: T -> bool)
    requires forall i :: 0 <= i < |s| ==> r(s[i]) == (p(s[i]) && q(g(s[i])))
    ensures |Where(Select(Where(s, p), g), q)| == |Where(s, r)|
  {
    if s != [] {
      var n := |s| - 1;
      var t, x := s[..n], s[n];
      assert s == t + [x];
      FilteredCount(t, p, g, q, r);
      WherePush(t, x, p);
      WherePush(t, x, r);
      SelectPush(Where(t, p), x, g);
      WherePush(Select(Where(t, p), g), g(x), q);
    }
  }
}
