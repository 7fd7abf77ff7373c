/**
 The account listing: one pass that appends every account to its parent's children or to
 the roots, and the proof that the result is a forest holding every account exactly once.
 */
module Forest {
  import opened Basics
  import opened Chart

  predicate IsRoot(c: seq<Account>, a: Account) {
    a.parent.None? || !HasId(c, a.parent.value)
  }

  /** Ids of the accounts of s that the loop puts at the top, s being a prefix of the chart c. */
  function RootIds(c: seq<Account>, s: seq<Account>): seq<nat> {
    if s == [] then []
    else RootIds(c, s[..|s| - 1]) + (if IsRoot(c, s[|s| - 1]) then [s[|s| - 1].id] else [])
  }

  function ChildIds(s: seq<Account>, p: nat): seq<nat> {
    if s == [] then []
    else ChildIds(s[..|s| - 1], p) + (if s[|s| - 1].parent == Some(p) then [s[|s| - 1].id] else [])
  }

  /** The loop over dtoMap.Values, with the children lists kept by parent id. */
  method BuildTree(c: seq<Account>) returns (roots: seq<nat>, children: map<nat, seq<nat>>)
    ensures roots == RootIds(c, c)
    ensures forall p :: p in children <==> HasId(c, p)
    ensures forall p :: p in children ==> children[p] == ChildIds(c, p)
  {
    roots := [];
    children := map i | 0 <= i < |c| :: c[i].id := [];
    var i := 0;
    while i < |c|
      invariant 0 <= i <= |c|
      invariant roots == RootIds(c, c[..i])
      invariant forall p :: p in children <==> HasId(c, p)
      invariant forall p :: p in children ==> children[p] == ChildIds(c[..i], p)
    {
      var a := c[i];
      assert c[..i + 1][..i] == c[..i];
      if a.parent.Some? && a.parent.value in children {
        children := children[a.parent.value := children[a.parent.value] + [a.id]];
      } else {
        roots := roots + [a.id];
      }
      i := i + 1;
    }
    assert c[..i] == c;
  }

  predicate Within(ids: seq<nat>, lo: nat, hi: nat) {
    forall i :: 0 <= i < |ids| ==> lo <= ids[i] < hi
  }

  predicate AllExist(c: seq<Account>, ids: seq<nat>) {
    forall i :: 0 <= i < |ids| ==> HasId(c, ids[i])
  }

  lemma {:induction false} ChildrenAreYounger(c: seq<Account>, s: seq<Account>, p: nat)
    requires Linked(c) && s <= c
    ensures Within(ChildIds(s, p), p + 1, |c|)
  {
    if s != [] {
      ChildrenAreYounger(c, s[..|s| - 1], p);
      assert s[|s| - 1] == c[|s| - 1] && ParentOlder(c, c[|s| - 1]);
    }
  }

  lemma {:induction false} RootsInRange(c: seq<Account>, s: seq<Account>)
    requires Linked(c) && s <= c
    ensures Within(RootIds(c, s), 0, |c|)
  {
    if s != [] {
      RootsInRange(c, s[..|s| - 1]);
      assert s[|s| - 1] == c[|s| - 1];
    }
  }

  /**
   The order in which the nested response shows the accounts: each one followed by its
   subtree.  It ends because a child is always younger than its parent.
   */
  function Shown(c: seq<Account>, oldest: nat, level: seq<nat>): seq<nat>
    requires Linked(c)
    requires Within(level, oldest, |c|)
    decreases |c| - oldest, |level|
  {
    if level == [] then []
    else
      ChildrenAreYounger(c, c, level[0]);
      [level[0]] + Shown(c, level[0] + 1, ChildIds(c, level[0])) + Shown(c, oldest, level[1..])
  }

  function Listing(c: seq<Account>): seq<nat>
    requires Linked(c)
  {
    RootsInRange(c, c);
    Shown(c, 0, RootIds(c, c))
  }

  /* ---------- counting occurrences ---------- */

  function Times(s: seq<nat>, x: nat): nat {
    if s == [] then 0 else Times(s[..|s| - 1], x) + (if s[|s| - 1] == x then 1 else 0)
  }

  lemma {:induction false} TimesConcat(s: seq<nat>, t: seq<nat>, x: nat)
    ensures Times(s + t, x) == Times(s, x) + Times(t, x)
  {
    if t == [] {
      assert s + t == s;
    } else {
      assert (s + t)[..|s + t| - 1] == s + t[..|t| - 1];
      TimesConcat(s, t[..|t| - 1], x);
    }
  }

  /** Account k of the prefix is a child of p once if p is its parent, and never otherwise. */
  lemma {:induction false} ChildTimes(s: seq<Account>, p: nat, k: nat)
    requires DistinctIds(s) && k < |s|
    ensures Times(ChildIds(s, p), s[k].id) == if s[k].parent == Some(p) then 1 else 0
  {
    var n := |s| - 1;
    TimesConcat(ChildIds(s[..n], p), if s[n].parent == Some(p) then [s[n].id] else [], s[k].id);
    if k < n {
      ChildTimes(s[..n], p, k);
    } else {
      AbsentChild(s[..n], p, s[n].id);
    }
  }

  lemma {:induction false} AbsentChild(s: seq<Account>, p: nat, x: nat)
    requires !HasId(s, x)
    ensures Times(ChildIds(s, p), x) == 0
  {
    if s != [] {
      var n := |s| - 1;
      TimesConcat(ChildIds(s[..n], p), if s[n].parent == Some(p) then [s[n].id] else [], x);
      AbsentChild(s[..n], p, x);
    }
  }

  lemma {:induction false} RootTimes(c: seq<Account>, s: seq<Account>, k: nat)
    requires DistinctIds(s) && k < |s|
    ensures Times(RootIds(c, s), s[k].id) == if IsRoot(c, s[k]) then 1 else 0
  {
    var n := |s| - 1;
    TimesConcat(RootIds(c, s[..n]), if IsRoot(c, s[n]) then [s[n].id] else [], s[k].id);
    if k < n {
      RootTimes(c, s[..n], k);
    } else {
      AbsentRoot(c, s[..n], s[n].id);
    }
  }

  lemma {:induction false} AbsentRoot(c: seq<Account>, s: seq<Account>, x: nat)
    requires !HasId(s, x)
    ensures Times(RootIds(c, s), x) == 0
  {
    if s != [] {
      var n := |s| - 1;
      TimesConcat(RootIds(c, s[..n]), if IsRoot(c, s[n]) then [s[n].id] else [], x);
      AbsentRoot(c, s[..n], x);
    }
  }

  /** In any chart, account k is at the top, once, if and only if it names no parent or one that is
      not in the chart; and it is among the children of exactly the parent it names. */
  lemma PlacedOnce(c: seq<Account>, k: nat, p: nat)
    requires DistinctIds(c) && k < |c|
    ensures Times(RootIds(c, c), c[k].id) ==
            if c[k].parent.Some? && (exists i :: 0 <= i < |c| && c[i].id == c[k].parent.value) then 0 else 1
    ensures Times(ChildIds(c, p), c[k].id) == if c[k].parent == Some(p) then 1 else 0
  {
    RootTimes(c, c, k);
    ChildTimes(c, p, k);
  }

  /**
   Wherever a level is shown, account k is shown once for each time it is on the level
   itself, plus once for each time its parent is shown.
   */
  lemma {:induction false} ShownTimes(c: seq<Account>, oldest: nat, level: seq<nat>, k: nat)
    requires Linked(c) && k < |c|
    requires Within(level, oldest, |c|)
    ensures Times(Shown(c, oldest, level), c[k].id) ==
            Times(level, c[k].id) +
            (if c[k].parent.Some? then Times(Shown(c, oldest, level), c[k].parent.value) else 0)
    decreases |c| - oldest, |level|
  {
    if level != [] {
      var h, x := level[0], c[k].id;
      ChildrenAreYounger(c, c, h);
      ShownTimes(c, h + 1, ChildIds(c, h), k);
      ShownTimes(c, oldest, level[1..], k);
      ChildTimes(c, h, k);
      ShownStep(c, oldest, level, x);
      FirstTimes(level, x);
      if c[k].parent.Some? {
        ShownStep(c, oldest, level, c[k].parent.value);
      }
    }
  }

  lemma FirstTimes(level: seq<nat>, x: nat)
    requires level != []
    ensures Times(level, x) == (if level[0] == x then 1 else 0) + Times(level[1..], x)
  {
    assert level == [level[0]] + level[1..];
    TimesConcat([level[0]], level[1..], x);
  }

  lemma ShownStep(c: seq<Account>, oldest: nat, level: seq<nat>, x: nat)
    requires Linked(c) && level != [] && Within(level, oldest, |c|)
    requires Within(ChildIds(c, level[0]), level[0] + 1, |c|)
    ensures Times(Shown(c, oldest, level), x) ==
            (if level[0] == x then 1 else 0) +
            Times(Shown(c, level[0] + 1, ChildIds(c, level[0])), x) +
            Times(Shown(c, oldest, level[1..]), x)
  {
    SplitTimes([level[0]], Shown(c, level[0] + 1, ChildIds(c, level[0])), Shown(c, oldest, level[1..]), x);
  }

  lemma SplitTimes(s: seq<nat>, t: seq<nat>, u: seq<nat>, x: nat)
    ensures Times(s + t + u, x) == Times(s, x) + Times(t, x) + Times(u, x)
  {
    TimesConcat(s + t, u, x);
    TimesConcat(s, t, x);
  }

  lemma {:induction false} OnlyAccountsShown(c: seq<Account>, oldest: nat, level: seq<nat>)
    requires Linked(c) && Within(level, oldest, |c|) && AllExist(c, level)
    ensures AllExist(c, Shown(c, oldest, level))
    decreases |c| - oldest, |level|
  {
    if level != [] {
      ChildrenAreYounger(c, c, level[0]);
      ChildrenExist(c, c, level[0]);
      OnlyAccountsShown(c, level[0] + 1, ChildIds(c, level[0]));
      OnlyAccountsShown(c, oldest, level[1..]);
      AllExistConcat(c, [level[0]], Shown(c, level[0] + 1, ChildIds(c, level[0])));
      AllExistConcat(c, [level[0]] + Shown(c, level[0] + 1, ChildIds(c, level[0])), Shown(c, oldest, level[1..]));
    }
  }

  lemma AllExistConcat(c: seq<Account>, s: seq<nat>, t: seq<nat>)
    requires AllExist(c, s) && AllExist(c, t)
    ensures AllExist(c, s + t)
  {
  }

  lemma {:induction false} AbsentTimes(s: seq<nat>, x: nat)
    requires forall i :: 0 <= i < |s| ==> s[i] != x
    ensures Times(s, x) == 0
  {
    if s != [] {
      AbsentTimes(s[..|s| - 1], x);
    }
  }

  lemma {:induction false} ChildrenExist(c: seq<Account>, s: seq<Account>, p: nat)
    requires s <= c
    ensures AllExist(c, ChildIds(s, p))
  {
    if s != [] {
      ChildrenExist(c, s[..|s| - 1], p);
      assert s[|s| - 1] == c[|s| - 1];
    }
  }

  lemma {:induction false} RootsExist(c: seq<Account>, s: seq<Account>)
    requires s <= c
    ensures AllExist(c, RootIds(c, s))
  {
    if s != [] {
      RootsExist(c, s[..|s| - 1]);
      assert s[|s| - 1] == c[|s| - 1];
    }
  }

  /** The response shows every account of the chart exactly once and nothing else. */
  lemma {:induction false} ListingShowsEachAccountOnce(c: seq<Account>, x: nat)
    requires Linked(c)
    ensures Times(Listing(c), x) == if HasId(c, x) then 1 else 0
    decreases x
  {
    RootsInRange(c, c);
    if HasId(c, x) {
      var k :| 0 <= k < |c| && c[k].id == x;
      ShownTimes(c, 0, RootIds(c, c), k);
      RootTimes(c, c, k);
      assert ParentOlder(c, c[k]);
      if c[k].parent.Some? {
        ListingShowsEachAccountOnce(c, c[k].parent.value);
      }
    } else {
      RootsExist(c, c);
      OnlyAccountsShown(c, 0, RootIds(c, c));
      AbsentTimes(Listing(c), x);
    }
  }

  /* ---------- reachable charts ---------- */

  function RunChart(cmds: seq<ChartCommand>): seq<Account> {
    if cmds == [] then []
    else
      var before := RunChart(cmds[..|cmds| - 1]);
      var r := ApplyToChart(before, cmds[|cmds| - 1]);
      if r.Ok? then r.value else before
  }

  lemma {:induction false} ReachableChartsAreWellFormed(cmds: seq<ChartCommand>)
    ensures WellFormed(RunChart(cmds))
  {
    if cmds != [] {
      ReachableChartsAreWellFormed(cmds[..|cmds| - 1]);
      var before := RunChart(cmds[..|cmds| - 1]);
      if ApplyToChart(before, cmds[|cmds| - 1]).Ok? {
        ChartCommandKeeps(before, cmds[|cmds| - 1]);
      }
    }
  }

  /** After any history of chart commands the listing is a forest over exactly the accounts. */
  lemma ReachableListing(cmds: seq<ChartCommand>, x: nat)
    ensures WellFormed(RunChart(cmds))
    ensures Times(Listing(RunChart(cmds)), x) == if HasId(RunChart(cmds), x) then 1 else 0
  {
    ReachableChartsAreWellFormed(cmds);
    ListingShowsEachAccountOnce(RunChart(cmds), x);
  }
}
