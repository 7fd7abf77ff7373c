/**
 The four reports: trial balance, account balance, profit and loss, balance sheet.
 Each follows its handler's chain of select, group, filter and sum; the lemmas relate the
 reports to the posted entries and to each other.
 */
module Reports {
  import opened Basics
  import opened Sums
  import opened Chart
  import opened Journal

  /** Posted entries up to a date. */
  function PostedUpTo(asOf: int): Query { Query(None, Some(asOf), Some(Posted)) }

  function PostedWithin(from: int, to: int): Query { Query(Some(from), Some(to), Some(Posted)) }

  /** Net of account x over the entries of the query, credits positive. */
  function PostedNet(es: seq<Entry>, q: Query, x: nat): int {
    Effect(SelectLines(es, q), x)
  }

  /* ---------- trial balance ---------- */

  datatype TrialLine = TrialLine(account: Account, debits: int, credits: int, balance: int)

  datatype TrialBalance = TrialBalance(lines: seq<TrialLine>, totalDebits: int, totalCredits: int)

  function ToTrialLine(m: map<nat, Totals>): Account -> TrialLine {
    (a: Account) => var b := Lookup(m, a.id); TrialLine(a, b.debits, b.credits, b.debits - b.credits)
  }

  function LineDebits(): TrialLine -> int { (l: TrialLine) => l.debits }

  function LineCredits(): TrialLine -> int { (l: TrialLine) => l.credits }

  function LineBalance(): TrialLine -> int { (l: TrialLine) => l.balance }

  function HasActivity(): TrialLine -> bool { (l: TrialLine) => l.debits != 0 || l.credits != 0 }

  function TrialLines(c: seq<Account>, ls: seq<Line>): seq<TrialLine> {
    Where(Select(c, ToTrialLine(GroupTotals(ls))), HasActivity())
  }

  function GetTrialBalance(c: seq<Account>, es: seq<Entry>, asOf: int): TrialBalance {
    var lines := TrialLines(c, SelectLines(es, PostedUpTo(asOf)));
    TrialBalance(lines, Total(lines, LineDebits()), Total(lines, LineCredits()))
  }

  /* ---------- account balance ---------- */

  datatype AccountBalance = AccountBalance(account: Account, debits: int, credits: int, balance: int)

  function IsFor(a: nat): Line -> bool { (l: Line) => l.account == a }

  function GetAccountBalance(c: seq<Account>, es: seq<Entry>, id: nat, asOf: int): Result<AccountBalance> {
    var k := IndexOfId(c, id);
    if k == |c| then Err(NotFound)
    else
      var lines := Where(SelectLines(es, PostedUpTo(asOf)), IsFor(id));
      var d, r := TotalDebits(lines), TotalCredits(lines);
      Ok(AccountBalance(c[k], d, r, d - r))
  }

  /* ---------- profit and loss ---------- */

  datatype PnLLine = PnLLine(code: string, amount: int)

  datatype ProfitAndLoss = ProfitAndLoss(
    revenue: seq<PnLLine>, expenses: seq<PnLLine>,
    totalRevenue: int, totalExpenses: int, netIncome: int)

  function OfKind(k: AccountType): Account -> bool { (a: Account) => a.kind == k }

  function NetOf(m: map<nat, Totals>, a: nat): int { Lookup(m, a).credits - Lookup(m, a).debits }

  /** Expenses are shown with the sign turned. */
  function Turned(negate: bool, v: int): int { if negate then -v else v }

  function ToPnLLine(m: map<nat, Totals>, negate: bool): Account -> PnLLine {
    (a: Account) => PnLLine(a.code, Turned(negate, NetOf(m, a.id)))
  }

  function PnLAmount(): PnLLine -> int { (l: PnLLine) => l.amount }

  function NonZero(): PnLLine -> bool { (l: PnLLine) => l.amount != 0 }

  function PnLLines(c: seq<Account>, ls: seq<Line>, k: AccountType, negate: bool): seq<PnLLine> {
    Where(Select(Where(c, OfKind(k)), ToPnLLine(GroupTotals(ls), negate)), NonZero())
  }

  function GetProfitAndLoss(c: seq<Account>, es: seq<Entry>, from: int, to: int): ProfitAndLoss {
    var ls := SelectLines(es, PostedWithin(from, to));
    var revenue, expenses := PnLLines(c, ls, Revenue, false), PnLLines(c, ls, Expense, true);
    var r, x := Total(revenue, PnLAmount()), Total(expenses, PnLAmount());
    ProfitAndLoss(revenue, expenses, r, x, r - x)
  }

  /* ---------- balance sheet ---------- */

  datatype BalanceSheet = BalanceSheet(totalAssets: int, totalLiabilities: int, totalEquity: int)

  function LineOfKind(k: AccountType): TrialLine -> bool { (l: TrialLine) => l.account.kind == k }

  function SheetTotal(tb: TrialBalance, k: AccountType): int {
    Total(Where(tb.lines, LineOfKind(k)), LineBalance())
  }

  function GetBalanceSheet(c: seq<Account>, es: seq<Entry>, asOf: int): BalanceSheet {
    var tb := GetTrialBalance(c, es, asOf);
    BalanceSheet(SheetTotal(tb, Asset), SheetTotal(tb, Liability), SheetTotal(tb, Equity))
  }

  /* ---------- what the reports rely on ---------- */

  /** Every line of every entry names an account of the chart. */
  ghost predicate Charted(c: seq<Account>, es: seq<Entry>) {
    forall i, j :: 0 <= i < |es| && 0 <= j < |es[i].lines| ==> HasId(c, es[i].lines[j].account)
  }

  ghost predicate PostedBalanced(es: seq<Entry>) {
    forall i :: 0 <= i < |es| && es[i].status == Posted ==> IsBalanced(es[i].lines)
  }

  predicate LinesCharted(c: seq<Account>, ls: seq<Line>) {
    forall i :: 0 <= i < |ls| ==> HasId(c, ls[i].account)
  }

  ghost function IsCharted(c: seq<Account>): Line -> bool { (l: Line) => HasId(c, l.account) }

  lemma SelectedCharted(c: seq<Account>, es: seq<Entry>, q: Query)
    requires Charted(c, es)
    ensures LinesCharted(c, SelectLines(es, q))
  {
    SelectedLines(es, q, IsCharted(c));
    assert forall k :: 0 <= k < |SelectLines(es, q)| ==> IsCharted(c)(SelectLines(es, q)[k]);
  }

  /* ---------- summing account by account ---------- */

  function PerAccount(ls: seq<Line>, s: Side): Account -> int {
    (a: Account) => Total(ls, On(a.id, s))
  }

  /** Only the account of the line itself picks the line up. */
  function Pick(l: Line, s: Side): Account -> int {
    (a: Account) => if l.account == a.id then Amount(s, l) else 0
  }

  lemma {:induction false} PickOnce(c: seq<Account>, l: Line, s: Side)
    requires DistinctIds(c)
    ensures Total(c, Pick(l, s)) == if HasId(c, l.account) then Amount(s, l) else 0
  {
    if c != [] {
      var n := |c| - 1;
      PickOnce(c[..n], l, s);
      if HasId(c[..n], l.account) {
        var i :| 0 <= i < n && c[..n][i].id == l.account;
        assert c[i].id == l.account;
      }
      if i :| 0 <= i < |c| && c[i].id == l.account {
        assert i == n || c[..n][i].id == l.account;
      }
    }
  }

  /** Adding up the accounts of the chart is adding up the lines. */
  lemma {:induction false} AccountsCoverLines(c: seq<Account>, ls: seq<Line>, s: Side)
    requires DistinctIds(c) && LinesCharted(c, ls)
    ensures Total(c, PerAccount(ls, s)) == Total(ls, All(s))
  {
    if ls == [] {
      TotalZero(c, PerAccount(ls, s));
    } else {
      var n := |ls| - 1;
      AccountsCoverLines(c, ls[..n], s);
      PickOnce(c, ls[n], s);
      TotalPlus(c, PerAccount(ls[..n], s), Pick(ls[n], s), PerAccount(ls, s));
    }
  }

  /** The trial lines, zero lines dropped, still sum to the per-account totals. */
  lemma TrialLinesTotal(c: seq<Account>, ls: seq<Line>)
    ensures Total(TrialLines(c, ls), LineDebits()) == Total(c, PerAccount(ls, Debit))
    ensures Total(TrialLines(c, ls), LineCredits()) == Total(c, PerAccount(ls, Credit))
  {
    var m := GroupTotals(ls);
    var rows := Select(c, ToTrialLine(m));
    TotalWhere(rows, HasActivity(), LineDebits(), LineDebits());
    TotalWhere(rows, HasActivity(), LineCredits(), LineCredits());
    forall i | 0 <= i < |c|
      ensures PerAccount(ls, Debit)(c[i]) == LineDebits()(ToTrialLine(m)(c[i]))
      ensures PerAccount(ls, Credit)(c[i]) == LineCredits()(ToTrialLine(m)(c[i]))
    {
      GroupIsFilterAndSum(ls, c[i].id);
    }
    TotalSelect(c, ToTrialLine(m), LineDebits(), PerAccount(ls, Debit));
    TotalSelect(c, ToTrialLine(m), LineCredits(), PerAccount(ls, Credit));
  }

  /** Selected lines of balanced entries are balanced as a whole. */
  lemma SelectedBalance(es: seq<Entry>, q: Query)
    requires PostedBalanced(es) && q.status == Some(Posted)
    ensures TotalDebits(SelectLines(es, q)) == TotalCredits(SelectLines(es, q))
    ensures TotalDebits(SelectLines(es, q)) == Total(es, Share(q, All(Debit)))
  {
    SelectTotal(es, q, All(Debit));
    SelectTotal(es, q, All(Credit));
    TotalSame(es, Share(q, All(Debit)), Share(q, All(Credit)));
  }

  /** Trial-balance debits equal credits, and both are the posted entries' own totals. */
  lemma TrialBalanceBalances(c: seq<Account>, es: seq<Entry>, asOf: int)
    requires DistinctIds(c) && Charted(c, es) && PostedBalanced(es)
    ensures var tb := GetTrialBalance(c, es, asOf);
      tb.totalDebits == tb.totalCredits == Total(es, Share(PostedUpTo(asOf), All(Debit)))
  {
    var ls := SelectLines(es, PostedUpTo(asOf));
    SelectedCharted(c, es, PostedUpTo(asOf));
    TrialLinesTotal(c, ls);
    AccountsCoverLines(c, ls, Debit);
    AccountsCoverLines(c, ls, Credit);
    SelectedBalance(es, PostedUpTo(asOf));
  }

  /** Balanced or not, the two totals are those of the posted lines, each on its own side. */
  lemma TrialTotals(c: seq<Account>, es: seq<Entry>, asOf: int)
    requires DistinctIds(c) && Charted(c, es)
    ensures var ls := SelectLines(es, PostedUpTo(asOf));
      var tb := GetTrialBalance(c, es, asOf);
      tb.totalDebits == TotalDebits(ls) && tb.totalCredits == TotalCredits(ls)
  {
    var ls := SelectLines(es, PostedUpTo(asOf));
    SelectedCharted(c, es, PostedUpTo(asOf));
    TrialLinesTotal(c, ls);
    AccountsCoverLines(c, ls, Debit);
    AccountsCoverLines(c, ls, Credit);
  }

  /** Accounts with posted debits or credits. */
  ghost function MovedAccounts(c: seq<Account>, ls: seq<Line>): set<nat> {
    set k: nat | k < |c| && (Total(ls, On(c[k].id, Debit)) != 0 || Total(ls, On(c[k].id, Credit)) != 0)
  }

  function HasMoved(m: map<nat, Totals>): Account -> bool {
    (a: Account) => Lookup(m, a.id).debits != 0 || Lookup(m, a.id).credits != 0
  }

  /** There is one line per account that moved, so none is repeated and none is invented. */
  lemma TrialLineCount(c: seq<Account>, es: seq<Entry>, asOf: int)
    ensures |GetTrialBalance(c, es, asOf).lines| == |MovedAccounts(c, SelectLines(es, PostedUpTo(asOf)))|
  {
    var ls := SelectLines(es, PostedUpTo(asOf));
    var m := GroupTotals(ls);
    WhereAll(c);
    FilteredCount(c, Anyone(), ToTrialLine(m), HasActivity(), HasMoved(m));
    WhereCount(c, HasMoved(m));
    forall k: nat | k < |c|
      ensures k in Holding(c, HasMoved(m)) <==> k in MovedAccounts(c, ls)
    {
      GroupIsFilterAndSum(ls, c[k].id);
    }
    assert Holding(c, HasMoved(m)) == MovedAccounts(c, ls);
  }

  function Anyone(): Account -> bool { (a: Account) => true }

  lemma {:induction false} WhereAll(c: seq<Account>)
    ensures Where(c, Anyone()) == c
  {
    if c != [] {
      WhereAll(c[..|c| - 1]);
    }
  }

  /** The filter-and-sum account balance is exactly the account's trial line, or all zero. */
  lemma AccountBalanceAgrees(c: seq<Account>, es: seq<Entry>, k: nat, asOf: int)
    requires DistinctIds(c) && k < |c|
    ensures GetAccountBalance(c, es, c[k].id, asOf).Ok?
    ensures var b := GetAccountBalance(c, es, c[k].id, asOf).value;
      var row := TrialLine(c[k], b.debits, b.credits, b.balance);
      && b.account == c[k]
      && (row in GetTrialBalance(c, es, asOf).lines <==> b.debits != 0 || b.credits != 0)
      && (forall l :: l in GetTrialBalance(c, es, asOf).lines && l.account.id == c[k].id ==> l == row)
  {
    var ls := SelectLines(es, PostedUpTo(asOf));
    var m := GroupTotals(ls);
    var b := GetAccountBalance(c, es, c[k].id, asOf).value;
    GroupIsFilterAndSum(ls, c[k].id);
    TotalWhere(ls, IsFor(c[k].id), All(Debit), On(c[k].id, Debit));
    TotalWhere(ls, IsFor(c[k].id), All(Credit), On(c[k].id, Credit));
    var row := TrialLine(c[k], b.debits, b.credits, b.balance);
    assert row == ToTrialLine(m)(c[k]);
    WhereMember(Select(c, ToTrialLine(m)), HasActivity(), row);
    SelectMember(c, ToTrialLine(m), row);
    forall l | l in GetTrialBalance(c, es, asOf).lines && l.account.id == c[k].id
      ensures l == row
    {
      WhereMember(Select(c, ToTrialLine(m)), HasActivity(), l);
      SelectMember(c, ToTrialLine(m), l);
    }
  }

  /* ---------- profit and loss against the balance sheet ---------- */

  function NetOfKind(ls: seq<Line>, k: AccountType): Account -> int {
    (a: Account) => if a.kind == k then Effect(ls, a.id) else 0
  }

  function NetAs(m: map<nat, Totals>, negate: bool): Account -> int {
    (a: Account) => Turned(negate, NetOf(m, a.id))
  }

  lemma PnLRows(kept: seq<Account>, m: map<nat, Totals>, negate: bool)
    ensures Total(Where(Select(kept, ToPnLLine(m, negate)), NonZero()), PnLAmount()) == Total(kept, NetAs(m, negate))
  {
    TotalWhere(Select(kept, ToPnLLine(m, negate)), NonZero(), PnLAmount(), PnLAmount());
    TotalSelect(kept, ToPnLLine(m, negate), PnLAmount(), NetAs(m, negate));
  }

  lemma PnLTotal(c: seq<Account>, ls: seq<Line>, k: AccountType, negate: bool, h: Account -> int)
    requires forall i :: 0 <= i < |c| ==>
      h(c[i]) == if c[i].kind == k then Turned(negate, Effect(ls, c[i].id)) else 0
    ensures Total(PnLLines(c, ls, k, negate), PnLAmount()) == Total(c, h)
  {
    var m := GroupTotals(ls);
    PnLRows(Where(c, OfKind(k)), m, negate);
    forall i | 0 <= i < |c|
      ensures h(c[i]) == if OfKind(k)(c[i]) then NetAs(m, negate)(c[i]) else 0
    {
      GroupIsFilterAndSum(ls, c[i].id);
      EffectSplits(ls, c[i].id);
    }
    TotalWhere(c, OfKind(k), NetAs(m, negate), h);
  }

  /** Revenue counts credits positive, expenses debits, and net income is what the Revenue and
      Expense accounts gained together. */
  lemma NetIncomeMeaning(c: seq<Account>, es: seq<Entry>, from: int, to: int)
    ensures var ls := SelectLines(es, PostedWithin(from, to));
      var pnl := GetProfitAndLoss(c, es, from, to);
      && pnl.totalRevenue == Total(c, NetOfKind(ls, Revenue))
      && pnl.totalExpenses == -Total(c, NetOfKind(ls, Expense))
      && pnl.netIncome == Total(c, NetOfKind(ls, Revenue)) + Total(c, NetOfKind(ls, Expense))
  {
    var ls := SelectLines(es, PostedWithin(from, to));
    PnLTotal(c, ls, Revenue, false, NetOfKind(ls, Revenue));
    var neg := (a: Account) => if a.kind == Expense then -Effect(ls, a.id) else 0;
    var zero := (a: Account) => 0;
    PnLTotal(c, ls, Expense, true, neg);
    TotalPlus(c, neg, NetOfKind(ls, Expense), zero);
    TotalZero(c, zero);
  }

  /** The line is there, unless its amount is zero. */
  predicate Lists(lines: seq<PnLLine>, code: string, amount: int) {
    PnLLine(code, amount) in lines <==> amount != 0
  }

  /** Every Revenue account is listed as revenue with its net. */
  lemma RevenueListed(c: seq<Account>, es: seq<Entry>, from: int, to: int, k: nat)
    requires k < |c| && c[k].kind == Revenue
    ensures Lists(GetProfitAndLoss(c, es, from, to).revenue, c[k].code, PostedNet(es, PostedWithin(from, to), c[k].id))
  {
    LineListed(c, SelectLines(es, PostedWithin(from, to)), Revenue, false, k);
  }

  /** Every Expense account is listed as an expense with its net, the sign turned. */
  lemma ExpensesListed(c: seq<Account>, es: seq<Entry>, from: int, to: int, k: nat)
    requires k < |c| && c[k].kind == Expense
    ensures Lists(GetProfitAndLoss(c, es, from, to).expenses, c[k].code, -PostedNet(es, PostedWithin(from, to),
            c[k].id))
  {
    LineListed(c, SelectLines(es, PostedWithin(from, to)), Expense, true, k);
  }

  lemma LineListed(c: seq<Account>, ls: seq<Line>, kind: AccountType, negate: bool, k: nat)
    requires k < |c| && c[k].kind == kind
    ensures Lists(PnLLines(c, ls, kind, negate), c[k].code, Turned(negate, Effect(ls, c[k].id)))
  {
    GroupIsFilterAndSum(ls, c[k].id);
    EffectSplits(ls, c[k].id);
    RowListed(c, GroupTotals(ls), kind, negate, k);
  }

  lemma RowListed(c: seq<Account>, m: map<nat, Totals>, kind: AccountType, negate: bool, k: nat)
    requires k < |c| && c[k].kind == kind
    ensures ToPnLLine(m, negate)(c[k]) in Where(Select(Where(c, OfKind(kind)), ToPnLLine(m, negate)), NonZero()) <==>
            NetOf(m, c[k].id) != 0
  {
    var kept := Where(c, OfKind(kind));
    var row := ToPnLLine(m, negate)(c[k]);
    WhereMember(c, OfKind(kind), c[k]);
    var i :| 0 <= i < |kept| && kept[i] == c[k];
    SelectMember(kept, ToPnLLine(m, negate), row);
    WhereMember(Select(kept, ToPnLLine(m, negate)), NonZero(), row);
  }

  lemma SheetTotalMeaning(c: seq<Account>, ls: seq<Line>, k: AccountType)
    ensures Total(Where(TrialLines(c, ls), LineOfKind(k)), LineBalance()) == -Total(c, NetOfKind(ls, k))
  {
    var m := GroupTotals(ls);
    var rows := Select(c, ToTrialLine(m));
    var kept := (l: TrialLine) => if l.account.kind == k then l.balance else 0;
    var byAccount := (a: Account) => if a.kind == k then -Effect(ls, a.id) else 0;
    var zero := (a: Account) => 0;
    TotalWhere(TrialLines(c, ls), LineOfKind(k), LineBalance(), kept);
    forall i | 0 <= i < |rows|
      ensures kept(rows[i]) == if HasActivity()(rows[i]) then kept(rows[i]) else 0
    {
      RowBalance(c, m, rows[i]);
    }
    TotalWhere(rows, HasActivity(), kept, kept);
    forall i | 0 <= i < |c|
      ensures byAccount(c[i]) == kept(ToTrialLine(m)(c[i]))
    {
      GroupIsFilterAndSum(ls, c[i].id);
      EffectSplits(ls, c[i].id);
    }
    TotalSelect(c, ToTrialLine(m), kept, byAccount);
    TotalPlus(c, byAccount, NetOfKind(ls, k), zero);
    TotalZero(c, zero);
  }

  /** Accounts of the kind with a posted net. */
  ghost function WithNet(c: seq<Account>, ls: seq<Line>, kind: AccountType): set<nat> {
    set k: nat | k < |c| && c[k].kind == kind && Effect(ls, c[k].id) != 0
  }

  function IsWithNet(m: map<nat, Totals>, kind: AccountType): Account -> bool {
    (a: Account) => a.kind == kind && NetOf(m, a.id) != 0
  }

  lemma PnLCount(c: seq<Account>, ls: seq<Line>, kind: AccountType, negate: bool)
    ensures |PnLLines(c, ls, kind, negate)| == |WithNet(c, ls, kind)|
  {
    var m := GroupTotals(ls);
    FilteredCount(c, OfKind(kind), ToPnLLine(m, negate), NonZero(), IsWithNet(m, kind));
    WhereCount(c, IsWithNet(m, kind));
    forall k: nat | k < |c|
      ensures k in Holding(c, IsWithNet(m, kind)) <==> k in WithNet(c, ls, kind)
    {
      GroupIsFilterAndSum(ls, c[k].id);
      EffectSplits(ls, c[k].id);
    }
    assert Holding(c, IsWithNet(m, kind)) == WithNet(c, ls, kind);
  }

  /** Both lists have one line per account with a net, so none is repeated and none is invented. */
  lemma ProfitAndLossCounts(c: seq<Account>, es: seq<Entry>, from: int, to: int)
    ensures var ls := SelectLines(es, PostedWithin(from, to));
      var pnl := GetProfitAndLoss(c, es, from, to);
      |pnl.revenue| == |WithNet(c, ls, Revenue)| && |pnl.expenses| == |WithNet(c, ls, Expense)|
  {
    var ls := SelectLines(es, PostedWithin(from, to));
    PnLCount(c, ls, Revenue, false);
    PnLCount(c, ls, Expense, true);
  }

  /** Each total of the balance sheet is the debit-positive net of the accounts of its kind. */
  lemma BalanceSheetTotals(c: seq<Account>, es: seq<Entry>, asOf: int)
    ensures var ls := SelectLines(es, PostedUpTo(asOf));
      var sheet := GetBalanceSheet(c, es, asOf);
      && sheet.totalAssets == -Total(c, NetOfKind(ls, Asset))
      && sheet.totalLiabilities == -Total(c, NetOfKind(ls, Liability))
      && sheet.totalEquity == -Total(c, NetOfKind(ls, Equity))
  {
    var ls := SelectLines(es, PostedUpTo(asOf));
    SheetTotalMeaning(c, ls, Asset);
    SheetTotalMeaning(c, ls, Liability);
    SheetTotalMeaning(c, ls, Equity);
  }

  lemma RowBalance(c: seq<Account>, m: map<nat, Totals>, row: TrialLine)
    requires row in Select(c, ToTrialLine(m))
    ensures row.balance == row.debits - row.credits
  {
    SelectMember(c, ToTrialLine(m), row);
  }

  /** Over the whole chart, the five kinds together have net zero. */
  lemma KindsCancel(c: seq<Account>, ls: seq<Line>)
    requires DistinctIds(c) && LinesCharted(c, ls) && TotalDebits(ls) == TotalCredits(ls)
    ensures Total(c, NetOfKind(ls, Asset)) + Total(c, NetOfKind(ls, Liability)) + Total(c, NetOfKind(ls, Equity)) +
            Total(c, NetOfKind(ls, Revenue)) + Total(c, NetOfKind(ls, Expense)) == 0
  {
    AccountsCoverLines(c, ls, Net);
    NetOfLines(ls);
    var two := (a: Account) => NetOfKind(ls, Asset)(a) + NetOfKind(ls, Liability)(a);
    var three := (a: Account) => two(a) + NetOfKind(ls, Equity)(a);
    var four := (a: Account) => three(a) + NetOfKind(ls, Revenue)(a);
    TotalPlus(c, NetOfKind(ls, Asset), NetOfKind(ls, Liability), two);
    TotalPlus(c, two, NetOfKind(ls, Equity), three);
    TotalPlus(c, three, NetOfKind(ls, Revenue), four);
    TotalPlus(c, four, NetOfKind(ls, Expense), PerAccount(ls, Net));
  }

  lemma {:induction false} EarlyStart(es: seq<Entry>, from: int, to: int)
    requires forall i :: 0 <= i < |es| ==> from <= es[i].date
    ensures SelectLines(es, PostedWithin(from, to)) == SelectLines(es, PostedUpTo(to))
  {
    if es != [] {
      EarlyStart(es[..|es| - 1], from, to);
    }
  }

  /** Assets plus liabilities plus equity, debits positive, is the net income since the start. */
  lemma BalanceSheetIsNetIncome(c: seq<Account>, es: seq<Entry>, from: int, asOf: int)
    requires DistinctIds(c) && Charted(c, es) && PostedBalanced(es)
    requires forall i :: 0 <= i < |es| ==> from <= es[i].date
    ensures var s := GetBalanceSheet(c, es, asOf);
      s.totalAssets + s.totalLiabilities + s.totalEquity == GetProfitAndLoss(c, es, from, asOf).netIncome
  {
    var ls := SelectLines(es, PostedUpTo(asOf));
    EarlyStart(es, from, asOf);
    NetIncomeMeaning(c, es, from, asOf);
    SelectedCharted(c, es, PostedUpTo(asOf));
    SelectedBalance(es, PostedUpTo(asOf));
    KindsCancel(c, ls);
    SheetTotalMeaning(c, ls, Asset);
    SheetTotalMeaning(c, ls, Liability);
    SheetTotalMeaning(c, ls, Equity);
  }
}
