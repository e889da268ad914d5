/** The reports and the worker's soft check (internal/accounting/report_service.go,
    internal/accounting/ledger_worker.go and the queries they run). They add up stored ending
    balances, which are cumulative and carry the sign of the account's normal side, as if they
    were debit minus credit of one period; these lemmas say what the true equation is and exactly
    when each reported figure agrees with it. */
module Reports {
  import opened Prelude
  import opened Money
  import opened Rules
  import opened Chart
  import opened Books
  import opened Journals
  import opened LedgerRuns
  import opened Chains
  import opened Postings
  import opened Balances
  import opened Losses
  import Sums

  // ----- The true equation -----

  /** Debit minus credit of an account over the whole ledger. */
  function Net(b: Books, account: nat): int {
    Fold(b.ledger, NetAt(account))
  }

  /** `value` summed over the accounts that satisfy `chosen`. */
  function Over(accounts: seq<Account>, chosen: Account -> bool, value: nat -> int): int {
    Sums.SumTo(Chosen(accounts, chosen, value), |accounts|)
  }

  function Chosen(accounts: seq<Account>, chosen: Account -> bool, value: nat -> int): nat -> int {
    (a: nat) => if a < |accounts| && chosen(accounts[a]) then value(a) else 0
  }

  function NetOf(b: Books): nat -> int {
    (a: nat) => Net(b, a)
  }

  function Every(): Account -> bool { (a: Account) => true }

  function IsKind(kind: AccountType): Account -> bool { (a: Account) => a.kind == kind }

  /** Debit minus credit of one account type. */
  function KindNet(b: Books, kind: AccountType): int {
    Over(b.accounts, IsKind(kind), NetOf(b))
  }

  /** Revenue less expense over all periods. */
  function NetIncome(b: Books): int {
    -KindNet(b, Revenue) - KindNet(b, Expense)
  }

  lemma TimesOnce(txs: seq<Tx>, a: nat)
    ensures PostedSum(txs, TimesWeight(a, Once())) == PostedSum(txs, NetWeight(a))
  {
    forall tx: Tx ensures TimesWeight(a, Once())(tx) == NetWeight(a)(tx) {
      assert Once()(tx.period) == 1;
    }
    SameWeights(txs, TimesWeight(a, Once()), NetWeight(a));
  }

  lemma NetsAreTimes(steps: seq<Step>, a: nat)
    ensures TimesEach(Final(steps).txs, Once(), |Final(steps).txs|)(a) == Net(Final(steps), a)
  {
    RunKeepsLedgerIsPosted(steps, a, 0);
    TimesOnce(Final(steps).txs, a);
  }

  /** The accounts' nets are the journals' effects on them, and those add up to the drifts. */
  lemma NetsAddUp(steps: seq<Step>)
    ensures Over(Final(steps).accounts, Every(), NetOf(Final(steps)))
         == Sums.SumTo(TimesEach(Final(steps).txs, Once(), |Final(steps).txs|), |Final(steps).accounts|)
  {
    var b := Final(steps);
    var f, g := TimesEach(b.txs, Once(), |b.txs|), Chosen(b.accounts, Every(), NetOf(b));
    forall a: nat | a < |b.accounts| ensures f(a) == g(a) {
      NetsAreTimes(steps, a);
    }
    Sums.Same(f, g, |b.accounts|);
  }

  lemma DriftsOnce(txs: seq<Tx>)
    ensures PostedSum(txs, DriftTimes(Once())) == PostedSum(txs, DriftWeight())
  {
    SameWeights(txs, DriftTimes(Once()), DriftWeight());
  }

  lemma AllNetsDrift(steps: seq<Step>)
    ensures Over(Final(steps).accounts, Every(), NetOf(Final(steps))) == PostedSum(Final(steps).txs, DriftWeight())
  {
    RunKeepsTxs(steps);
    JournalsSpread(Final(steps).txs, Once(), |Final(steps).txs|, |Final(steps).accounts|);
    NetsAddUp(steps);
    DriftsOnce(Final(steps).txs);
  }

  /** In every run the accounts' debit-minus-credit balances add up to the drift of the standing
      hand-entered originals, so to at most one cent for each; exactly to zero when there is none. */
  lemma {:induction false} LedgerBalances(steps: seq<Step>)
    ensures var b := Final(steps);
            var total := Over(b.accounts, Every(), NetOf(b));
            var manual := Sums.SumTo(StandingManual(b.txs, HandEntered(steps)), |b.txs|);
            && total == Sums.SumTo(StandingTerm(b.txs, DriftWeight()), |b.txs|)
            && -manual <= total <= manual
            && (HandEntered(steps) == {} ==> total == 0)
  {
    AllNetsDrift(steps);
    DriftOfARun(steps);
  }

  /** The five types partition the accounts. */
  lemma KindsPartition(accounts: seq<Account>, value: nat -> int)
    ensures Over(accounts, Every(), value)
         == Over(accounts, IsKind(Asset), value) + Over(accounts, IsKind(Liability), value)
          + Over(accounts, IsKind(Equity), value) + Over(accounts, IsKind(Revenue), value)
          + Over(accounts, IsKind(Expense), value)
  {
    KindsPartitionTo(accounts, value, |accounts|);
  }

  lemma {:induction false} KindsPartitionTo(accounts: seq<Account>, value: nat -> int, n: nat)
    ensures Sums.SumTo(Chosen(accounts, Every(), value), n)
         == Sums.SumTo(Chosen(accounts, IsKind(Asset), value), n) + Sums.SumTo(Chosen(accounts, IsKind(Liability), value), n)
          + Sums.SumTo(Chosen(accounts, IsKind(Equity), value), n) + Sums.SumTo(Chosen(accounts, IsKind(Revenue), value), n)
          + Sums.SumTo(Chosen(accounts, IsKind(Expense), value), n)
  {
    if n > 0 {
      KindsPartitionTo(accounts, value, n - 1);
    }
  }

  /** In every run whose standing journals are exact, contra accounts included: assets plus
      liabilities plus equity, each as debit minus credit, come to the cumulative net income. */
  lemma {:induction false} AccountingEquation(steps: seq<Step>)
    requires var txs := Final(steps).txs; forall t :: 0 <= t < |txs| && Stands(txs, t) ==> Drift(txs[t].lines) == 0
    ensures var b := Final(steps);
            KindNet(b, Asset) + KindNet(b, Liability) + KindNet(b, Equity) == NetIncome(b)
  {
    var b := Final(steps);
    LedgerBalances(steps);
    Sums.Zero(StandingTerm(b.txs, DriftWeight()), |b.txs|);
    KindsPartition(b.accounts, NetOf(b));
  }

  // ----- The worker's soft check -----

  function CheckSign(kind: AccountType): int {
    if kind == Liability || kind == Equity then -1 else 1
  }

  function Active(): Account -> bool { (a: Account) => a.isActive }

  /** What an active account adds to assets less liabilities and equity, as the check reads it. */
  function CheckTerm(accounts: seq<Account>, ledger: seq<LedgerEntry>): nat -> int {
    (a: nat) => if a < |accounts| then CheckSign(accounts[a].kind) * Stored(ledger, a) else 0
  }

  predicate CheckPasses(accounts: seq<Account>, ledger: seq<LedgerEntry>) {
    -1 <= Over(accounts, Active(), CheckTerm(accounts, ledger)) <= 1
  }

  /** The check after a posting: it adds up the stored balances of the active accounts, taking
      revenue and expense both out of equity, and tolerates one cent. */
  method ValidateAccountingEquation(accounts: seq<Account>, ledger: seq<LedgerEntry>) returns (ok: bool)
    ensures ok <==> CheckPasses(accounts, ledger)
  {
    var totalAssets, totalLiabilities, totalEquity := 0, 0, 0;
    var i := 0;
    while i < |accounts|
      invariant 0 <= i <= |accounts|
      invariant totalAssets - (totalLiabilities + totalEquity)
             == Sums.SumTo(Chosen(accounts, Active(), CheckTerm(accounts, ledger)), i)
    {
      var acc := accounts[i];
      var last := LastEntry(ledger, |ledger|, i);
      if acc.isActive && last.Some? {
        var balance := ledger[last.value].running;
        match acc.kind {
          case Asset => totalAssets := totalAssets + balance;
          case Liability => totalLiabilities := totalLiabilities + balance;
          case Equity => totalEquity := totalEquity + balance;
          case Revenue => totalEquity := totalEquity - balance;
          case Expense => totalEquity := totalEquity - balance;
        }
      }
      i := i + 1;
    }
    var diff := totalAssets - (totalLiabilities + totalEquity);
    ok := !(diff > 1 || diff < -1);
  }

  /** The accounts whose balance the check takes with the wrong sign: revenue, and the contra
      accounts of every other type. */
  function Misread(): Account -> bool {
    (a: Account) => a.isActive && CheckSign(a.kind) * SignOf(a.normal) == -1
  }

  function Inactive(): Account -> bool { (a: Account) => !a.isActive }

  /** What the check misses when the stored balance of each account misses something. */
  function MissedTerm(accounts: seq<Account>, missed: nat -> int): nat -> int {
    (a: nat) => if a < |accounts| then CheckSign(accounts[a].kind) * missed(a) else 0
  }

  lemma CheckAccount(b: Books, missed: nat -> int, a: nat)
    requires a < |b.accounts|
    requires b.accounts[a].isActive ==> Stored(b.ledger, a) == SignOf(b.accounts[a].normal) * Net(b, a) - missed(a)
    ensures Chosen(b.accounts, Active(), CheckTerm(b.accounts, b.ledger))(a)
         == Chosen(b.accounts, Active(), NetOf(b))(a) - 2 * Chosen(b.accounts, Misread(), NetOf(b))(a)
          - Chosen(b.accounts, Active(), MissedTerm(b.accounts, missed))(a)
  {
    var c := CheckSign(b.accounts[a].kind);
    SignCases(c, SignOf(b.accounts[a].normal), Net(b, a));
    assert c * (SignOf(b.accounts[a].normal) * Net(b, a) - missed(a)) == c * (SignOf(b.accounts[a].normal) * Net(b, a)) - c * missed(a);
  }

  lemma {:induction false} CheckSum(b: Books, missed: nat -> int, n: nat)
    requires n <= |b.accounts|
    requires forall a :: 0 <= a < |b.accounts| && b.accounts[a].isActive ==>
        Stored(b.ledger, a) == SignOf(b.accounts[a].normal) * Net(b, a) - missed(a)
    ensures Sums.SumTo(Chosen(b.accounts, Active(), CheckTerm(b.accounts, b.ledger)), n)
         == Sums.SumTo(Chosen(b.accounts, Active(), NetOf(b)), n) - 2 * Sums.SumTo(Chosen(b.accounts, Misread(), NetOf(b)), n)
          - Sums.SumTo(Chosen(b.accounts, Active(), MissedTerm(b.accounts, missed)), n)
  {
    if n > 0 {
      CheckSum(b, missed, n - 1);
      CheckAccount(b, missed, n - 1);
    }
  }

  ghost function LostEach(steps: seq<Step>): nat -> int {
    (a: nat) => LostInRun(steps, a)
  }

  /** In every clocked run what the check compares with a cent is the active accounts' net, less twice
      the net of the misread ones, less what was lost on the active accounts with the sign it gives
      them. */
  lemma CheckTotal(steps: seq<Step>)
    requires Clocked(steps)
    ensures Over(Final(steps).accounts, Active(), CheckTerm(Final(steps).accounts, Final(steps).ledger))
         == Over(Final(steps).accounts, Active(), NetOf(Final(steps))) - 2 * Over(Final(steps).accounts, Misread(), NetOf(Final(steps)))
          - Over(Final(steps).accounts, Active(), MissedTerm(Final(steps).accounts, LostEach(steps)))
  {
    forall a: nat | a < |Final(steps).accounts|
      ensures Stored(Final(steps).ledger, a) == SignOf(Final(steps).accounts[a].normal) * Net(Final(steps), a) - LostEach(steps)(a)
    {
      StoredIsPostedLessLost(steps, a);
      RunKeepsLedgerIsPosted(steps, a, 0);
    }
    CheckSum(Final(steps), LostEach(steps), |Final(steps).accounts|);
  }

  /** Where the keys of the active accounts ascend, nothing is missing. */
  lemma CheckTotalAscending(steps: seq<Step>)
    requires forall a :: 0 <= a < |Final(steps).accounts| && Final(steps).accounts[a].isActive ==> KeysAscend(Final(steps).ledger, a)
    ensures Over(Final(steps).accounts, Active(), CheckTerm(Final(steps).accounts, Final(steps).ledger))
         == Over(Final(steps).accounts, Active(), NetOf(Final(steps))) - 2 * Over(Final(steps).accounts, Misread(), NetOf(Final(steps)))
  {
    var b, none := Final(steps), (a: nat) => 0;
    forall a: nat | a < |b.accounts| && b.accounts[a].isActive
      ensures Stored(b.ledger, a) == SignOf(b.accounts[a].normal) * Net(b, a) - none(a)
    {
      StoredIsPosted(steps, a);
      RunKeepsLedgerIsPosted(steps, a, 0);
    }
    CheckSum(b, none, |b.accounts|);
    Sums.Zero(Chosen(b.accounts, Active(), MissedTerm(b.accounts, none)), |b.accounts|);
  }

  lemma SignCases(c: int, s: int, x: int)
    requires (c == 1 || c == -1) && (s == 1 || s == -1)
    ensures c * (s * x) == x - 2 * if c * s == -1 then x else 0
  {
  }

  lemma ActiveNets(steps: seq<Step>)
    ensures Over(Final(steps).accounts, Active(), NetOf(Final(steps))) + Over(Final(steps).accounts, Inactive(), NetOf(Final(steps)))
         == PostedSum(Final(steps).txs, DriftWeight())
  {
    var b := Final(steps);
    AllNetsDrift(steps);
    Sums.Linear(Chosen(b.accounts, Active(), NetOf(b)), Chosen(b.accounts, Inactive(), NetOf(b)),
      Chosen(b.accounts, Every(), NetOf(b)), 1, |b.accounts|);
  }

  /** So in every clocked run the check passes exactly when the drift of the posted journals, less the
      net of switched-off accounts, less twice that of misread ones, less the losses, is within a
      cent. */
  lemma CheckPassesIff(steps: seq<Step>)
    requires Clocked(steps)
    ensures CheckPasses(Final(steps).accounts, Final(steps).ledger) <==>
            -1 <= PostedSum(Final(steps).txs, DriftWeight()) - Over(Final(steps).accounts, Inactive(), NetOf(Final(steps)))
                  - 2 * Over(Final(steps).accounts, Misread(), NetOf(Final(steps)))
                  - Over(Final(steps).accounts, Active(), MissedTerm(Final(steps).accounts, LostEach(steps))) <= 1
  {
    CheckTotal(steps);
    ActiveNets(steps);
  }

  /** And with the standing journals exact and the active accounts' keys ascending, exactly when the
      net of switched-off accounts and twice that of revenue and contra accounts are within a cent of
      nothing; with every account active, exactly when the latter net to nothing. */
  lemma CheckPassesIffNothingMisread(steps: seq<Step>)
    requires forall a :: 0 <= a < |Final(steps).accounts| && Final(steps).accounts[a].isActive ==> KeysAscend(Final(steps).ledger, a)
    requires forall t :: 0 <= t < |Final(steps).txs| && Stands(Final(steps).txs, t) ==> Drift(Final(steps).txs[t].lines) == 0
    ensures CheckPasses(Final(steps).accounts, Final(steps).ledger) <==>
            -1 <= Over(Final(steps).accounts, Inactive(), NetOf(Final(steps))) + 2 * Over(Final(steps).accounts, Misread(), NetOf(Final(steps))) <= 1
    ensures (forall a :: 0 <= a < |Final(steps).accounts| ==> Final(steps).accounts[a].isActive) ==>
              (CheckPasses(Final(steps).accounts, Final(steps).ledger) <==>
               Over(Final(steps).accounts, Misread(), NetOf(Final(steps))) == 0)
  {
    var b := Final(steps);
    CheckTotalAscending(steps);
    ActiveNets(steps);
    DriftOfARun(steps);
    Sums.Zero(StandingTerm(b.txs, DriftWeight()), |b.txs|);
    if forall a :: 0 <= a < |b.accounts| ==> b.accounts[a].isActive {
      Sums.Zero(Chosen(b.accounts, Inactive(), NetOf(b)), |b.accounts|);
    }
  }

  // ----- The statements -----

  predicate InRange(from: Option<int>, upTo: int, period: int) {
    period <= upTo && (from.Some? ==> from.value <= period)
  }

  /** SUM(ending_balance) of an account over the periods `from` (if any) to `upTo`. */
  function EndingSum(rows: seq<Row>, from: Option<int>, upTo: int, account: nat): int {
    Sums.SumTo(EndingTerm(rows, from, upTo, account), |rows|)
  }

  function EndingTerm(rows: seq<Row>, from: Option<int>, upTo: int, account: nat): nat -> int {
    (i: nat) => if i < |rows| && rows[i].account == account && InRange(from, upTo, rows[i].period) then rows[i].ending else 0
  }

  function EndingSums(rows: seq<Row>, from: Option<int>, upTo: int): nat -> int {
    (a: nat) => EndingSum(rows, from, upTo, a)
  }

  datatype ReportRow = ReportRow(account: nat, kind: AccountType, balance: int)

  /** The rows the statement queries return: the active accounts of the wanted types whose summed
      ending balance is not zero. */
  function QueryRows(accounts: seq<Account>, wanted: AccountType -> bool, value: nat -> int, n: nat): seq<ReportRow>
    requires n <= |accounts|
  {
    if n == 0 then []
    else
      var rest := QueryRows(accounts, wanted, value, n - 1);
      var a := accounts[n - 1];
      if a.isActive && wanted(a.kind) && value(n - 1) != 0 then rest + [ReportRow(n - 1, a.kind, value(n - 1))] else rest
  }

  function OnSheet(): AccountType -> bool { (k: AccountType) => k == Asset || k == Liability || k == Equity }

  function OnIncome(): AccountType -> bool { (k: AccountType) => k == Revenue || k == Expense }

  function ActiveKind(kind: AccountType): Account -> bool { (a: Account) => a.isActive && a.kind == kind }

  function KindTotal(rows: seq<ReportRow>, kind: AccountType): int {
    if rows == [] then 0
    else KindTotal(rows[..|rows| - 1], kind) + if rows[|rows| - 1].kind == kind then rows[|rows| - 1].balance else 0
  }

  function OfKind(rows: seq<ReportRow>, kind: AccountType): seq<ReportRow> {
    if rows == [] then []
    else
      var last := rows[|rows| - 1];
      OfKind(rows[..|rows| - 1], kind) + if last.kind == kind then [last] else []
  }

  lemma KindTotalAppend(rows: seq<ReportRow>, r: ReportRow, kind: AccountType)
    ensures KindTotal(rows + [r], kind) == KindTotal(rows, kind) + if r.kind == kind then r.balance else 0
    ensures OfKind(rows + [r], kind) == OfKind(rows, kind) + if r.kind == kind then [r] else []
  {
    assert (rows + [r])[..|rows|] == rows;
  }

  /** A wanted type's rows add up to its active accounts. */
  lemma {:induction false} QueryTotals(accounts: seq<Account>, wanted: AccountType -> bool, value: nat -> int, n: nat, kind: AccountType)
    requires n <= |accounts| && wanted(kind)
    ensures KindTotal(QueryRows(accounts, wanted, value, n), kind)
         == Sums.SumTo(Chosen(accounts, ActiveKind(kind), value), n)
  {
    if n > 0 {
      QueryTotals(accounts, wanted, value, n - 1, kind);
      var rest := QueryRows(accounts, wanted, value, n - 1);
      KindTotalAppend(rest, ReportRow(n - 1, accounts[n - 1].kind, value(n - 1)), kind);
    }
  }

  /** The row of an active account of the type, among the first `n`, whose figure is not zero. */
  predicate Belongs(accounts: seq<Account>, value: nat -> int, n: nat, kind: AccountType, r: ReportRow)
    requires n <= |accounts|
  {
    && r.account < n && accounts[r.account].isActive && accounts[r.account].kind == kind
    && r.kind == kind && r.balance == value(r.account) && r.balance != 0
  }

  /** A list of a type: those rows, each once, and nothing else. */
  ghost predicate ListsType(accounts: seq<Account>, value: nat -> int, n: nat, kind: AccountType, list: seq<ReportRow>)
    requires n <= |accounts|
  {
    && (forall r :: r in list <==> Belongs(accounts, value, n, kind, r))
    && (forall i, j :: 0 <= i < j < |list| ==> list[i].account != list[j].account)
  }

  lemma BelongsStep(accounts: seq<Account>, value: nat -> int, n: nat, kind: AccountType, r: ReportRow)
    requires 0 < n <= |accounts|
    ensures Belongs(accounts, value, n, kind, r) <==>
            Belongs(accounts, value, n - 1, kind, r)
            || (r == ReportRow(n - 1, kind, value(n - 1)) && accounts[n - 1].isActive && accounts[n - 1].kind == kind && value(n - 1) != 0)
  {
  }

  lemma ListsStep(accounts: seq<Account>, value: nat -> int, n: nat, kind: AccountType, list: seq<ReportRow>, after: seq<ReportRow>)
    requires 0 < n <= |accounts| && ListsType(accounts, value, n - 1, kind, list)
    requires var a := accounts[n - 1];
             after == if a.isActive && a.kind == kind && value(n - 1) != 0 then list + [ReportRow(n - 1, kind, value(n - 1))] else list
    ensures ListsType(accounts, value, n, kind, after)
  {
    forall r ensures r in after <==> Belongs(accounts, value, n, kind, r) {
      BelongsStep(accounts, value, n, kind, r);
    }
    forall i | 0 <= i < |list| ensures list[i].account < n - 1 {
      assert list[i] in list;
    }
  }

  lemma QueryStep(accounts: seq<Account>, wanted: AccountType -> bool, value: nat -> int, n: nat, kind: AccountType)
    requires 0 < n <= |accounts| && wanted(kind)
    ensures var list, a := OfKind(QueryRows(accounts, wanted, value, n - 1), kind), accounts[n - 1];
            OfKind(QueryRows(accounts, wanted, value, n), kind)
              == if a.isActive && a.kind == kind && value(n - 1) != 0 then list + [ReportRow(n - 1, kind, value(n - 1))] else list
  {
    KindTotalAppend(QueryRows(accounts, wanted, value, n - 1), ReportRow(n - 1, accounts[n - 1].kind, value(n - 1)), kind);
  }

  lemma QueryListsStep(accounts: seq<Account>, wanted: AccountType -> bool, value: nat -> int, n: nat, kind: AccountType)
    requires 0 < n <= |accounts| && wanted(kind)
    requires ListsType(accounts, value, n - 1, kind, OfKind(QueryRows(accounts, wanted, value, n - 1), kind))
    ensures ListsType(accounts, value, n, kind, OfKind(QueryRows(accounts, wanted, value, n), kind))
  {
    QueryStep(accounts, wanted, value, n, kind);
    ListsStep(accounts, value, n, kind, OfKind(QueryRows(accounts, wanted, value, n - 1), kind),
      OfKind(QueryRows(accounts, wanted, value, n), kind));
  }

  lemma {:induction false} QueryListsType(accounts: seq<Account>, wanted: AccountType -> bool, value: nat -> int, n: nat, kind: AccountType)
    requires n <= |accounts| && wanted(kind)
    ensures ListsType(accounts, value, n, kind, OfKind(QueryRows(accounts, wanted, value, n), kind))
  {
    if n > 0 {
      QueryListsType(accounts, wanted, value, n - 1, kind);
      QueryListsStep(accounts, wanted, value, n, kind);
    }
  }

  datatype BalanceSheet = BalanceSheet(
    assets: seq<ReportRow>, liabilities: seq<ReportRow>, equity: seq<ReportRow>,
    totalAssets: int, totalLiabilities: int, totalEquity: int, isBalanced: bool)

  /** The balance sheet query's rows. */
  function SheetRows(accounts: seq<Account>, rows: seq<Row>, period: int): seq<ReportRow> {
    QueryRows(accounts, OnSheet(), EndingSums(rows, None, period), |accounts|)
  }

  /** The report: the rows of each type, the sums of the summed ending balances over the active
      accounts of each type, and whether these balance. */
  function BalanceSheetOf(accounts: seq<Account>, rows: seq<Row>, period: int): BalanceSheet {
    var listed, value := SheetRows(accounts, rows, period), EndingSums(rows, None, period);
    var a, l, e := Over(accounts, ActiveKind(Asset), value), Over(accounts, ActiveKind(Liability), value), Over(accounts, ActiveKind(Equity), value);
    BalanceSheet(OfKind(listed, Asset), OfKind(listed, Liability), OfKind(listed, Equity), a, l, e, a == l + e)
  }

  function SheetList(report: BalanceSheet, kind: AccountType): seq<ReportRow> {
    match kind
    case Asset => report.assets
    case Liability => report.liabilities
    case Equity => report.equity
    case _ => []
  }

  /** Its three lists. */
  lemma SheetLists(accounts: seq<Account>, rows: seq<Row>, period: int)
    ensures forall kind :: kind in {Asset, Liability, Equity} ==>
      ListsType(accounts, EndingSums(rows, None, period), |accounts|, kind, SheetList(BalanceSheetOf(accounts, rows, period), kind))
  {
    forall kind | kind in {Asset, Liability, Equity}
      ensures ListsType(accounts, EndingSums(rows, None, period), |accounts|, kind, SheetList(BalanceSheetOf(accounts, rows, period), kind))
    {
      QueryListsType(accounts, OnSheet(), EndingSums(rows, None, period), |accounts|, kind);
    }
  }

  method GetBalanceSheet(accounts: seq<Account>, rows: seq<Row>, period: int) returns (report: BalanceSheet)
    ensures report == BalanceSheetOf(accounts, rows, period)
  {
    var value := EndingSums(rows, None, period);
    var listed := QueryRows(accounts, OnSheet(), value, |accounts|);
    var assets, liabilities, equity := [], [], [];
    var totalAssets, totalLiab, totalEquity := 0, 0, 0;
    var i := 0;
    while i < |listed|
      invariant 0 <= i <= |listed|
      invariant assets == OfKind(listed[..i], Asset) && totalAssets == KindTotal(listed[..i], Asset)
      invariant liabilities == OfKind(listed[..i], Liability) && totalLiab == KindTotal(listed[..i], Liability)
      invariant equity == OfKind(listed[..i], Equity) && totalEquity == KindTotal(listed[..i], Equity)
    {
      var r := listed[i];
      assert listed[..i + 1] == listed[..i] + [r];
      KindTotalAppend(listed[..i], r, Asset);
      KindTotalAppend(listed[..i], r, Liability);
      KindTotalAppend(listed[..i], r, Equity);
      match r.kind {
        case Asset => assets := assets + [r]; totalAssets := totalAssets + r.balance;
        case Liability => liabilities := liabilities + [r]; totalLiab := totalLiab + r.balance;
        case Equity => equity := equity + [r]; totalEquity := totalEquity + r.balance;
        case _ =>
      }
      i := i + 1;
    }
    assert listed[..i] == listed;
    QueryTotals(accounts, OnSheet(), value, |accounts|, Asset);
    QueryTotals(accounts, OnSheet(), value, |accounts|, Liability);
    QueryTotals(accounts, OnSheet(), value, |accounts|, Equity);
    var diff := totalAssets - (totalLiab + totalEquity);
    report := BalanceSheet(assets, liabilities, equity, totalAssets, totalLiab, totalEquity, diff > -1 && diff < 1);
  }

  datatype IncomeStatement = IncomeStatement(
    revenue: seq<ReportRow>, expenses: seq<ReportRow>,
    totalRevenue: int, totalExpense: int, netIncome: int)

  /** The income statement query's rows. */
  function IncomeRows(accounts: seq<Account>, rows: seq<Row>, from: int, upTo: int): seq<ReportRow> {
    QueryRows(accounts, OnIncome(), EndingSums(rows, Some(from), upTo), |accounts|)
  }

  /** The report: the rows of each type, revenue as the negated sum of the summed ending balances,
      expense as their sum, and the difference. */
  function IncomeStatementOf(accounts: seq<Account>, rows: seq<Row>, from: int, upTo: int): IncomeStatement {
    var listed, value := IncomeRows(accounts, rows, from, upTo), EndingSums(rows, Some(from), upTo);
    var r, e := -Over(accounts, ActiveKind(Revenue), value), Over(accounts, ActiveKind(Expense), value);
    IncomeStatement(OfKind(listed, Revenue), OfKind(listed, Expense), r, e, r - e)
  }

  function IncomeList(report: IncomeStatement, kind: AccountType): seq<ReportRow> {
    match kind
    case Revenue => report.revenue
    case Expense => report.expenses
    case _ => []
  }

  /** Its two lists. */
  lemma IncomeLists(accounts: seq<Account>, rows: seq<Row>, from: int, upTo: int)
    ensures forall kind :: kind in {Revenue, Expense} ==>
      ListsType(accounts, EndingSums(rows, Some(from), upTo), |accounts|, kind, IncomeList(IncomeStatementOf(accounts, rows, from, upTo), kind))
  {
    QueryListsType(accounts, OnIncome(), EndingSums(rows, Some(from), upTo), |accounts|, Revenue);
    QueryListsType(accounts, OnIncome(), EndingSums(rows, Some(from), upTo), |accounts|, Expense);
  }

  method GetIncomeStatement(accounts: seq<Account>, rows: seq<Row>, from: int, upTo: int) returns (report: IncomeStatement)
    ensures report == IncomeStatementOf(accounts, rows, from, upTo)
  {
    var value := EndingSums(rows, Some(from), upTo);
    var listed := QueryRows(accounts, OnIncome(), value, |accounts|);
    var revenue, expenses := [], [];
    var totalRevenue, totalExpense := 0, 0;
    var i := 0;
    while i < |listed|
      invariant 0 <= i <= |listed|
      invariant revenue == OfKind(listed[..i], Revenue) && totalRevenue == -KindTotal(listed[..i], Revenue)
      invariant expenses == OfKind(listed[..i], Expense) && totalExpense == KindTotal(listed[..i], Expense)
    {
      var r := listed[i];
      assert listed[..i + 1] == listed[..i] + [r];
      KindTotalAppend(listed[..i], r, Revenue);
      KindTotalAppend(listed[..i], r, Expense);
      match r.kind {
        case Revenue => revenue := revenue + [r]; totalRevenue := totalRevenue + -r.balance;
        case Expense => expenses := expenses + [r]; totalExpense := totalExpense + r.balance;
        case _ =>
      }
      i := i + 1;
    }
    assert listed[..i] == listed;
    QueryTotals(accounts, OnIncome(), value, |accounts|, Revenue);
    QueryTotals(accounts, OnIncome(), value, |accounts|, Expense);
    report := IncomeStatement(revenue, expenses, totalRevenue, totalExpense, totalRevenue - totalExpense);
  }
}
