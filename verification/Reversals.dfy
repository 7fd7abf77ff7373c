/** Chains of reversals: an entry, its reversal, the reversal's reversal, and so on. */
module Reversals {
  import opened Basics
  import opened Sums
  import opened Journal
  import opened Reports
  import opened Ledgers
  import opened CloseTheorems

  /** The entries reached from i by following the reversed-by link; it ends because a
      reversal is always younger than what it reverses. */
  ghost function Chain(es: seq<Entry>, i: nat): (ch: seq<nat>)
    requires EntriesOk(es) && i < |es|
    ensures ch != [] && ch[0] == i
    decreases |es| - i
  {
    assert EntryOk(es, i);
    if es[i].reversedBy.None? then [i] else [i] + Chain(es, es[i].reversedBy.value)
  }

  ghost function Root(es: seq<Entry>, i: nat): (r: nat)
    requires EntriesOk(es) && i < |es|
    ensures r <= i && es[r].reversalOf.None?
  {
    assert EntryOk(es, i);
    if es[i].reversalOf.None? then i else Root(es, es[i].reversalOf.value)
  }

  /** The links are mutual inverses, they hold exactly on reversed entries, and they only
      lead forwards in time. */
  lemma LinksAreInverse(cmds: seq<Command>, i: nat)
    requires i < |Run(EMPTY, cmds).entries|
    ensures var es := Run(EMPTY, cmds).entries;
      && (es[i].status == Reversed <==> es[i].reversedBy.Some?)
      && (forall j: nat :: es[i].reversedBy == Some(j) <==> j < |es| && es[j].reversalOf == Some(i))
      && (es[i].reversedBy.Some? ==> i < es[i].reversedBy.value)
  {
    var es := Run(EMPTY, cmds).entries;
    RunKeeps(EMPTY, cmds);
    assert EntryOk(es, i);
    forall j: nat
      ensures es[i].reversedBy == Some(j) <==> j < |es| && es[j].reversalOf == Some(i)
    {
      if j < |es| {
        assert EntryOk(es, j);
      }
    }
  }

  /** Only the last member is posted; the others are reversed. */
  ghost predicate OnlyTailPosted(es: seq<Entry>, ch: seq<nat>) {
    forall k :: 0 <= k < |ch| ==>
      ch[k] < |es| && es[ch[k]].status == if k == |ch| - 1 then Posted else Reversed
  }

  lemma {:induction false} ChainStatus(es: seq<Entry>, i: nat)
    requires EntriesOk(es) && i < |es| && es[i].status != Draft
    ensures OnlyTailPosted(es, Chain(es, i))
    decreases |es| - i
  {
    assert EntryOk(es, i);
    if es[i].reversedBy.Some? {
      var j := es[i].reversedBy.value;
      assert EntryOk(es, j);
      ChainStatus(es, j);
      assert Chain(es, i) == [i] + Chain(es, j);
    }
  }

  function Signed(k: nat, v: int): int {
    if k % 2 == 0 then v else -v
  }

  /** k reversals later, the effect on every account is (-1)^k times the first entry's. */
  lemma {:induction false} ChainEffect(es: seq<Entry>, i: nat, k: nat, a: nat)
    requires EntriesOk(es) && i < |es| && k < |Chain(es, i)|
    ensures Chain(es, i)[k] < |es|
    ensures Effect(es[Chain(es, i)[k]].lines, a) == Signed(k, Effect(es[i].lines, a))
    decreases |es| - i
  {
    assert EntryOk(es, i);
    if k > 0 {
      var j := es[i].reversedBy.value;
      ChainEffect(es, j, k - 1, a);
      SwappedEffect(es[i].lines, a);
    }
  }

  /** What the entry at index i contributes, counting only posted entries or all of them. */
  function Contribution(es: seq<Entry>, a: nat, postedOnly: bool): nat -> int {
    (i: nat) => if i < |es| && (!postedOnly || es[i].status == Posted) then Effect(es[i].lines, a) else 0
  }

  lemma {:induction false} PrefixTotals(es: seq<Entry>, i: nat, n: nat, a: nat)
    requires EntriesOk(es) && i < |es| && es[i].status != Draft && n <= |Chain(es, i)|
    ensures var ch, v := Chain(es, i), Effect(es[i].lines, a);
      && Total(ch[..n], Contribution(es, a, false)) == (if n % 2 == 0 then 0 else v)
      && (n < |ch| ==> Total(ch[..n], Contribution(es, a, true)) == 0)
  {
    if n > 0 {
      PrefixTotals(es, i, n - 1, a);
      ChainEffect(es, i, n - 1, a);
      ChainStatus(es, i);
      var ch := Chain(es, i);
      assert ch[..n][..n - 1] == ch[..n - 1];
    }
  }

  /**
   A chain with k reversals, dates aside: reports that read only posted entries see (-1)^k
   times the first entry; counting reversed entries too, the chain comes to the first entry
   for even k and to nothing for odd k.
   */
  lemma ChainTotals(es: seq<Entry>, i: nat, a: nat)
    requires EntriesOk(es) && i < |es| && es[i].status != Draft
    ensures var ch, v := Chain(es, i), Effect(es[i].lines, a);
      var k := |ch| - 1;
      && Total(ch, Contribution(es, a, true)) == Signed(k, v)
      && Total(ch, Contribution(es, a, false)) == if k % 2 == 0 then v else 0
  {
    var ch := Chain(es, i);
    var n := |ch|;
    PrefixTotals(es, i, n, a);
    PrefixTotals(es, i, n - 1, a);
    ChainStatus(es, i);
    ChainEffect(es, i, n - 1, a);
    assert ch[..n] == ch;
    assert Total(ch, Contribution(es, a, true)) ==
           Total(ch[..n - 1], Contribution(es, a, true)) + Contribution(es, a, true)(ch[n - 1]);
  }

  /* ---------- chains partition the entries ---------- */

  lemma {:induction false} ChainStepsBack(es: seq<Entry>, i: nat, k: nat)
    requires EntriesOk(es) && i < |es| && k < |Chain(es, i)|
    ensures Chain(es, i)[k] < |es|
    ensures es[i].reversalOf.None? ==> Root(es, Chain(es, i)[k]) == i
    ensures Root(es, Chain(es, i)[k]) == Root(es, i)
    decreases |es| - i
  {
    assert EntryOk(es, i);
    if k > 0 {
      var j := es[i].reversedBy.value;
      ChainStepsBack(es, j, k - 1);
    }
  }

  lemma {:induction false} ChainContinues(es: seq<Entry>, i: nat, k: nat)
    requires EntriesOk(es) && i < |es| && k < |Chain(es, i)|
    ensures Chain(es, i)[k] < |es|
    ensures es[Chain(es, i)[k]].reversedBy.Some? ==>
              k + 1 < |Chain(es, i)| && Chain(es, i)[k + 1] == es[Chain(es, i)[k]].reversedBy.value
    decreases |es| - i
  {
    assert EntryOk(es, i);
    if k > 0 {
      ChainContinues(es, es[i].reversedBy.value, k - 1);
    }
  }

  lemma {:induction false} OnOwnChain(es: seq<Entry>, i: nat)
    requires EntriesOk(es) && i < |es|
    ensures exists k :: 0 <= k < |Chain(es, Root(es, i))| && Chain(es, Root(es, i))[k] == i
  {
    assert EntryOk(es, i);
    if es[i].reversalOf.Some? {
      var j := es[i].reversalOf.value;
      OnOwnChain(es, j);
      var k :| 0 <= k < |Chain(es, Root(es, j))| && Chain(es, Root(es, j))[k] == j;
      ChainContinues(es, Root(es, j), k);
      assert Root(es, i) == Root(es, j) && Chain(es, Root(es, j))[k + 1] == i;
    } else {
      assert Root(es, i) == i && Chain(es, Root(es, i))[0] == i;
    }
  }

  /** Every entry is on the chain of one original entry, and of no other. */
  lemma ChainsPartition(cmds: seq<Command>, i: nat, r: nat)
    requires i < |Run(EMPTY, cmds).entries| && r < |Run(EMPTY, cmds).entries|
    requires Run(EMPTY, cmds).entries[r].reversalOf.None?
    ensures EntriesOk(Run(EMPTY, cmds).entries)
    ensures var es := Run(EMPTY, cmds).entries;
      i in Chain(es, r) <==> r == Root(es, i)
  {
    var es := Run(EMPTY, cmds).entries;
    RunKeeps(EMPTY, cmds);
    OnOwnChain(es, i);
    if i in Chain(es, r) {
      var k :| 0 <= k < |Chain(es, r)| && Chain(es, r)[k] == i;
      ChainStepsBack(es, r, k);
    }
  }

  /* ---------- what reversing does to the reports ---------- */

  /** Posting adds the entry to every date range that holds its date. */
  lemma NetAfterPost(l: Ledger, id: nat, q: Query, x: nat)
    requires PostEntry(l, id).Ok? && q.status == Some(Posted)
    ensures PostedNet(PostEntry(l, id).value.entries, q, x) ==
            PostedNet(l.entries, q, x) + (if Covers(q, l.entries[id].date) then Effect(l.entries[id].lines, x) else 0)
  {
    var es := l.entries;
    var posted := es[id].(status := Posted);
    SelectTotal(es, q, On(x, Net));
    SelectTotal(es[id := posted], q, On(x, Net));
    TotalUpdate(es, id, posted, Share(q, On(x, Net)));
  }

  /** Reversing takes the effect away from ranges that hold the entry's date and from those that
      hold today, so twice from those that hold both. */
  lemma NetAfterReverse(l: Ledger, id: nat, today: int, q: Query, x: nat)
    requires ReverseEntry(l, id, today).Ok? && q.status == Some(Posted)
    ensures var v := Effect(l.entries[id].lines, x);
      PostedNet(ReverseEntry(l, id, today).value.entries, q, x) ==
      PostedNet(l.entries, q, x) -
      (if Covers(q, l.entries[id].date) then v else 0) - (if Covers(q, today) then v else 0)
  {
    var es, n := l.entries, |l.entries|;
    var marked := es[id].(status := Reversed, reversedBy := Some(n));
    var reversal := Entry(today, Posted, None, None, Some(id), Swapped(es[id].lines));
    SelectTotal(es, q, On(x, Net));
    SelectTotal(es[id := marked] + [reversal], q, On(x, Net));
    TotalPush(es[id := marked], reversal, Share(q, On(x, Net)));
    TotalUpdate(es, id, marked, Share(q, On(x, Net)));
    SwappedEffect(es[id].lines, x);
  }

  /**
   Posting and then reversing brings an account's reported net over any dates back to where it
   was if and only if the entry does not touch the account or the dates leave out the day of
   the reversal.
   */
  lemma ReversalRestoresIff(l: Ledger, id: nat, today: int, q: Query, x: nat)
    requires PostEntry(l, id).Ok? && ReverseEntry(PostEntry(l, id).value, id, today).Ok? && q.status == Some(Posted)
    ensures var after := ReverseEntry(PostEntry(l, id).value, id, today).value;
      PostedNet(after.entries, q, x) == PostedNet(l.entries, q, x) <==>
      Effect(l.entries[id].lines, x) == 0 || !Covers(q, today)
  {
    NetAfterPost(l, id, q, x);
    NetAfterReverse(PostEntry(l, id).value, id, today, q, x);
  }
}
