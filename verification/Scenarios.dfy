/** Short runs on a freshly seeded workspace on which stored balances and reports go wrong. Each is
    stated for every workspace that is set up and has no transactions yet; a seeded one is. */
module Scenarios {
  import opened Prelude
  import opened Money
  import opened Rules
  import opened Chart
  import opened ChartRuns
  import opened Books
  import opened Journals
  import opened LedgerRuns
  import opened Voids
  import opened Postings
  import opened Balances
  import opened Endings
  import opened Reports
  import opened Figures
  import opened Statements
  import Sums

  const SERVICES := Std(4, 1002)

  /** A chart with the places of its cash and its service revenue account. */
  datatype Shop = Shop(accounts: seq<Account>, cash: nat, services: nat)

  predicate IsShop(shop: Shop) {
    && FindByCode(shop.accounts, KAS) == Some(shop.cash) && FindByCode(shop.accounts, SERVICES) == Some(shop.services)
    && shop.cash < |shop.accounts| && shop.services < |shop.accounts| && shop.cash != shop.services
    && shop.accounts[shop.cash].kind == Asset && shop.accounts[shop.cash].normal == DebitNormal
    && shop.accounts[shop.cash].isActive
    && shop.accounts[shop.services].kind == Revenue && shop.accounts[shop.services].normal == CreditNormal
    && shop.accounts[shop.services].isActive
  }

  /** The run sets the workspace up and does nothing else. */
  ghost predicate Opens(pre: seq<Step>, shop: Shop) {
    IsRun(pre) && Final(pre) == EMPTY.(accounts := shop.accounts) && IsShop(shop)
  }

  lemma TemplateEntries()
    ensures EntryOf(DefaultTemplate(), KAS) == Some(Entry(KAS, Asset, DebitNormal, 3, Some(Std(1, 1000))))
    ensures EntryOf(DefaultTemplate(), SERVICES) == Some(Entry(SERVICES, Revenue, CreditNormal, 2, Some(Std(4, 0))))
  {
    var three := Append(EquityEntries(), IncomeEntries());
    var two := Append(LiabilityEntries(), three);
    EntryAppend(CurrentAssetEntries(), Append(FixedAssetEntries(), two), KAS);
    EntryAppend(RevenueEntries(), Append(OperatingExpenseEntries(), OtherExpenseEntries()), SERVICES);
    EntryAppend(EquityEntries(), IncomeEntries(), SERVICES);
    EntryAppend(LiabilityEntries(), three, SERVICES);
    EntryAppend(FixedAssetEntries(), two, SERVICES);
    EntryAppend(CurrentAssetEntries(), Append(FixedAssetEntries(), two), SERVICES);
  }

  /** Seeding sets a workspace up. */
  lemma SeedingOpens()
    ensures var accounts := Chart.Apply([], Seed);
            Opens([ChartStep(Seed)], Shop(accounts, AccountOf(accounts, KAS), AccountOf(accounts, SERVICES)))
  {
    TemplateEntries();
    TemplateCodeResolves([], KAS);
    TemplateCodeResolves([], SERVICES);
    var steps := [ChartStep(Seed)];
    assert steps[..0] == [];
    assert Final(steps) == Next(EMPTY, ChartStep(Seed));
  }

  // ----- Cash sales of services -----

  /** A request for a cash sale of services, without tax. */
  function CashSale(cents: int, period: int): CreateRequest {
    CreateRequest(Some(Sales), Given(Simple), true, Some(period), cents as real, true, PenjualanJasaTunai, NoClient, false, [], None)
  }

  function SaleLines(shop: Shop, cents: int): seq<Line> {
    [Line(shop.cash, cents, 0), Line(shop.services, 0, cents)]
  }

  function SaleTx(shop: Shop, cents: int, period: int, status: Status): Tx {
    Tx(Sales, Simple, status, period, cents, PenjualanJasaTunai, 0, None, SaleLines(shop, cents))
  }

  lemma SaleNet(shop: Shop, cents: int, a: nat)
    ensures SumDebit(SaleLines(shop, cents)) == cents && SumCredit(SaleLines(shop, cents)) == cents
    ensures NetOn(SaleLines(shop, cents), a) == (if a == shop.cash then cents else 0) - (if a == shop.services then cents else 0)
  {
    var l1, l2 := Line(shop.cash, cents, 0), Line(shop.services, 0, cents);
    assert [] + [l1] == [l1] && [l1] + [l2] == SaleLines(shop, cents);
    SumsAppend([], l1, a);
    SumsAppend([l1], l2, a);
  }

  lemma SalePair(shop: Shop, s: Split, cents: int)
    requires IsShop(shop) && cents > 0 && ToCents(s.base) == cents
    ensures RuleLines(shop.accounts, [Pair(KAS, SERVICES)], s, 1) == Ok(SaleLines(shop, cents))
  {
    var pairs := [Pair(KAS, SERVICES)];
    assert RuleLines(shop.accounts, pairs, s, 0) == Ok([]);
    assert PairCents(pairs, 0, s) == cents;
    assert [] + SaleLines(shop, cents) == SaleLines(shop, cents);
  }

  lemma SaleCreates(shop: Shop, cents: int, period: int)
    requires IsShop(shop) && cents > 0
    ensures NewTx(shop.accounts, CashSale(cents, period)) == Ok(SaleTx(shop, cents, period, Draft))
  {
    var req, s := CashSale(cents, period), Split(cents as real, 0.0, false);
    assert Validate(req) == Ok(PenjualanJasaTunai) && RequestSplit(req, PenjualanJasaTunai) == s;
    ToCentsUnique(cents as real, cents);
    SalePair(shop, s, cents);
    assert GetJournalRule(Sales, PenjualanJasaTunai).value.Pairs() == [Pair(KAS, SERVICES)];
    assert RequestLines(shop.accounts, req, PenjualanJasaTunai) == Ok(SaleLines(shop, cents));
    SaleNet(shop, cents, 0);
    assert ToColumn(cents as real) == cents;
  }

  /** What posting a sale adds to the tables, when its two accounts have no rows for its period. */
  function SaleEntries(shop: Shop, t: nat, cents: int, period: int, stamp: Stamp, cash: int, services: int): seq<LedgerEntry> {
    [LedgerEntry(shop.cash, t, 0, period, cents, 0, cash + cents, stamp.now, stamp.newId(0)),
     LedgerEntry(shop.services, t, 1, period, 0, cents, services + cents, stamp.now, stamp.newId(1))]
  }

  function SaleRows(shop: Shop, cents: int, period: int, cash: int, services: int): seq<Row> {
    [Row(shop.cash, period, cents, 0, cash + cents, 1), Row(shop.services, period, 0, cents, services + cents, 1)]
  }

  lemma SecondLinePosts(shop: Shop, w: Tables, e: LedgerEntry, r: Row, t: nat, cents: int, period: int, stamp: Stamp)
    requires IsShop(shop) && e.account == shop.cash && r.account == shop.cash
    requires FindRow(w.rows, |w.rows|, shop.services, period).None?
    ensures PostLine(shop.accounts, Tables(w.ledger + [e], w.rows + [r]), t, SaleTx(shop, cents, period, Draft), 1, stamp)
         == Tables(w.ledger + [e] + [SaleEntries(shop, t, cents, period, stamp, 0, Stored(w.ledger, shop.services))[1]],
                   w.rows + [r] + [SaleRows(shop, cents, period, 0, Stored(w.ledger, shop.services))[1]])
  {
    LastAfterOther(w.ledger, e, shop.services);
    FindAfterUpsert(w.rows, r, |w.rows|, shop.services, period);
  }

  lemma SalePosts(shop: Shop, w: Tables, t: nat, cents: int, period: int, stamp: Stamp)
    requires IsShop(shop)
    requires FindRow(w.rows, |w.rows|, shop.cash, period).None? && FindRow(w.rows, |w.rows|, shop.services, period).None?
    ensures var cash, services := Stored(w.ledger, shop.cash), Stored(w.ledger, shop.services);
            PostLines(shop.accounts, w, t, SaleTx(shop, cents, period, Draft), 2, stamp)
              == Tables(w.ledger + SaleEntries(shop, t, cents, period, stamp, cash, services),
                        w.rows + SaleRows(shop, cents, period, cash, services))
  {
    var tx := SaleTx(shop, cents, period, Draft);
    var cash, services := Stored(w.ledger, shop.cash), Stored(w.ledger, shop.services);
    var es, rs := SaleEntries(shop, t, cents, period, stamp, cash, services), SaleRows(shop, cents, period, cash, services);
    assert PostLines(shop.accounts, w, t, tx, 0, stamp) == w;
    assert PostLines(shop.accounts, w, t, tx, 1, stamp) == Tables(w.ledger + [es[0]], w.rows + [rs[0]]);
    SecondLinePosts(shop, w, es[0], rs[0], t, cents, period, stamp);
    assert w.ledger + [es[0]] + [es[1]] == w.ledger + es && w.rows + [rs[0]] + [rs[1]] == w.rows + rs;
  }

  /** The books after a request for a sale. */
  function Ordered(b: Books, shop: Shop, cents: int, period: int): Books {
    b.(txs := b.txs + [SaleTx(shop, cents, period, Draft)], outbox := b.outbox + [TransactionCreated(|b.txs|, false)])
  }

  /** The books after a sale is delivered. */
  function Sold(b: Books, shop: Shop, t: nat, cents: int, period: int, stamp: Stamp, cash: int, services: int): Books
    requires t < |b.txs|
  {
    b.(txs := b.txs[t := SaleTx(shop, cents, period, Posted)],
       ledger := b.ledger + SaleEntries(shop, t, cents, period, stamp, cash, services),
       rows := b.rows + SaleRows(shop, cents, period, cash, services),
       outbox := b.outbox + [LedgerPosted(t, false)])
  }

  lemma OrderStep(b: Books, shop: Shop, cents: int, period: int)
    requires IsShop(shop) && b.accounts == shop.accounts && cents > 0
    ensures Next(b, CreateStep(CashSale(cents, period))) == Ordered(b, shop, cents, period)
  {
    SaleCreates(shop, cents, period);
  }

  lemma DeliverSale(b: Books, shop: Shop, t: nat, cents: int, period: int, stamp: Stamp)
    requires IsShop(shop) && b.accounts == shop.accounts && cents > 0
    requires t < |b.txs| && b.txs[t] == SaleTx(shop, cents, period, Draft)
    requires FindRow(b.rows, |b.rows|, shop.cash, period).None? && FindRow(b.rows, |b.rows|, shop.services, period).None?
    ensures Next(b, DeliverStep(t, false, stamp))
         == Sold(b, shop, t, cents, period, stamp, Stored(b.ledger, shop.cash), Stored(b.ledger, shop.services))
  {
    SaleNet(shop, cents, 0);
    SalePosts(shop, Tables(b.ledger, b.rows), t, cents, period, stamp);
    assert OutcomeOf(b, t) == Post;
  }

  // ----- One sale -----

  /** The run has entered and posted one sale on a new workspace. */
  ghost predicate SoldOnce(steps: seq<Step>, shop: Shop, cents: int, period: int, stamp: Stamp) {
    && IsRun(steps) && IsShop(shop)
    && Final(steps).accounts == shop.accounts
    && Final(steps).txs == [SaleTx(shop, cents, period, Posted)]
    && Final(steps).ledger == SaleEntries(shop, 0, cents, period, stamp, 0, 0)
  }

  /** One request and one delivery lead there. */
  lemma OneSaleRuns(pre: seq<Step>, shop: Shop, cents: int, period: int, stamp: Stamp)
    requires Opens(pre, shop) && cents > 0
    ensures SoldOnce(pre + [CreateStep(CashSale(cents, period))] + [DeliverStep(0, false, stamp)], shop, cents, period, stamp)
  {
    RunStep(pre, CreateStep(CashSale(cents, period)));
    OrderStep(Final(pre), shop, cents, period);
    RunStep(pre + [CreateStep(CashSale(cents, period))], DeliverStep(0, false, stamp));
    DeliverSale(Ordered(Final(pre), shop, cents, period), shop, 0, cents, period, stamp);
    SoldBooks(shop, cents, period, stamp);
  }

  lemma SoldBooks(shop: Shop, cents: int, period: int, stamp: Stamp)
    ensures var b := Sold(Ordered(EMPTY.(accounts := shop.accounts), shop, cents, period), shop, 0, cents, period, stamp, 0, 0);
            && b.txs == [SaleTx(shop, cents, period, Posted)]
            && b.ledger == SaleEntries(shop, 0, cents, period, stamp, 0, 0)
  {
  }

  /** So there are chains of reversals of every depth. */
  lemma EveryDepthIsReached(n: nat)
    ensures exists steps: seq<Step>, t: nat ::
              IsRun(steps) && t < |Final(steps).txs| && Depth(Links(Final(steps).txs), t) == n
  {
    SeedingOpens();
    var accounts, stamp := Chart.Apply([], Seed), Stamp(0, (i: nat) => i);
    var shop := Shop(accounts, AccountOf(accounts, KAS), AccountOf(accounts, SERVICES));
    OneSaleRuns([ChartStep(Seed)], shop, 1, 0, stamp);
    var steps := [ChartStep(Seed)] + [CreateStep(CashSale(1, 0))] + [DeliverStep(0, false, stamp)];
    var longer, last := ChainsOfAnyDepth(steps, 0, n, 0, stamp);
  }

  /** A cash account holds the amount and a revenue account its negation, and nothing else does. */
  predicate OnlySale(shop: Shop, net: nat -> int, cents: int) {
    forall a: nat :: a < |shop.accounts| ==> net(a) == (if a == shop.cash then cents else 0) - (if a == shop.services then cents else 0)
  }

  /** So a sum over chosen accounts has at most two terms. */
  lemma OverSale(shop: Shop, chosen: Account -> bool, net: nat -> int, cents: int)
    requires IsShop(shop) && OnlySale(shop, net, cents)
    ensures Over(shop.accounts, chosen, net)
         == (if chosen(shop.accounts[shop.cash]) then cents else 0) - (if chosen(shop.accounts[shop.services]) then cents else 0)
  {
    var n := |shop.accounts|;
    var f, g := (a: nat) => 0, (a: nat) => if a == shop.cash && chosen(shop.accounts[shop.cash]) then cents else 0;
    Sums.Zero(f, n);
    Sums.Change(f, g, n, shop.cash);
    Sums.Change(g, Chosen(shop.accounts, chosen, net), n, shop.services);
  }

  lemma IncomeOfSale(shop: Shop, net: nat -> int, cents: int)
    requires IsShop(shop) && OnlySale(shop, net, cents)
    ensures Over(shop.accounts, IsKind(Revenue), net) == -cents && Over(shop.accounts, IsKind(Expense), net) == 0
    ensures Over(shop.accounts, Hidden(OnIncome()), net) == 0 && Over(shop.accounts, MisreadOf(OnIncome()), net) == -cents
  {
    assert CheckSign(Revenue) == 1 && SignOf(CreditNormal) == -1;
    OverSale(shop, IsKind(Revenue), net, cents);
    OverSale(shop, IsKind(Expense), net, cents);
    OverSale(shop, Hidden(OnIncome()), net, cents);
    OverSale(shop, MisreadOf(OnIncome()), net, cents);
  }

  lemma SheetOfSale(shop: Shop, net: nat -> int, cents: int)
    requires IsShop(shop) && OnlySale(shop, net, cents)
    ensures Over(shop.accounts, Hidden(OnSheet()), net) == 0 && Over(shop.accounts, MisreadOf(OnSheet()), net) == 0
    ensures Over(shop.accounts, Active(), net) == 0 && Over(shop.accounts, Misread(), net) == -cents
  {
    assert CheckSign(Asset) == 1 && SignOf(DebitNormal) == 1 && CheckSign(Revenue) == 1 && SignOf(CreditNormal) == -1;
    OverSale(shop, Hidden(OnSheet()), net, cents);
    OverSale(shop, MisreadOf(OnSheet()), net, cents);
    OverSale(shop, Active(), net, cents);
    OverSale(shop, Misread(), net, cents);
  }

  lemma OneSaleNets(steps: seq<Step>, shop: Shop, cents: int, period: int)
    requires Final(steps).txs == [SaleTx(shop, cents, period, Posted)]
    ensures OnlySale(shop, NetOf(Final(steps)), cents)
  {
    forall a: nat ensures Net(Final(steps), a) == (if a == shop.cash then cents else 0) - (if a == shop.services then cents else 0) {
      RunKeepsLedgerIsPosted(steps, a, 0);
      var f := PostedTerm(Final(steps).txs, NetWeight(a));
      assert Sums.SumTo(f, 1) == f(0);
      SaleNet(shop, cents, a);
    }
  }

  /** The net income is the amount, and yet neither report nor the check says so. */
  ghost predicate Misreported(b: Books, cents: int, from: int, upTo: int) {
    && NetIncome(b) == cents
    && !BalanceSheetOf(b.accounts, b.rows, upTo).isBalanced
    && IncomeStatementOf(b.accounts, b.rows, from, upTo).netIncome == -cents
    && !CheckPasses(b.accounts, b.ledger)
  }

  /** After the very first sale, whatever its amount, its period and its stamp: the balance sheet is
      not balanced, the income statement reports the income as a loss, and the check after the
      posting fails; all three although the books are in order and the income is the amount. */
  lemma FirstSaleMisreported(steps: seq<Step>, shop: Shop, cents: int, period: int, from: int, upTo: int, stamp: Stamp)
    requires SoldOnce(steps, shop, cents, period, stamp) && cents > 0 && from <= period <= upTo
    ensures Misreported(Final(steps), cents, from, upTo)
  {
    OneSaleNets(steps, shop, cents, period);
    IncomeOfSale(shop, NetOf(Final(steps)), cents);
    SheetOfSale(shop, NetOf(Final(steps)), cents);
    SaleInOrder(steps, shop, cents, period, upTo, stamp);
    OnePeriodStatements(steps, period, from, upTo);
    CheckTotalAscending(steps);
  }

  lemma SaleInOrder(steps: seq<Step>, shop: Shop, cents: int, period: int, upTo: int, stamp: Stamp)
    requires SoldOnce(steps, shop, cents, period, stamp)
    ensures forall a: nat :: KeysAscend(Final(steps).ledger, a)
    ensures ExactIn(Final(steps), None, upTo)
  {
    SaleNet(shop, cents, 0);
  }

  // ----- Two sales in two periods -----

  /** The books of a new workspace in which two sales are entered, of x in period p and of y in
      period q. */
  function TwoOrders(shop: Shop, x: int, p: int, y: int, q: int): Books {
    Ordered(Ordered(EMPTY.(accounts := shop.accounts), shop, x, p), shop, y, q)
  }

  ghost predicate Drafted(steps: seq<Step>, shop: Shop, x: int, p: int, y: int, q: int) {
    IsRun(steps) && IsShop(shop) && Final(steps) == TwoOrders(shop, x, p, y, q)
  }

  /** Two requests lead there. */
  lemma OrdersAreDrafted(pre: seq<Step>, shop: Shop, x: int, p: int, y: int, q: int)
    requires Opens(pre, shop) && x > 0 && y > 0
    ensures Drafted(pre + [CreateStep(CashSale(x, p))] + [CreateStep(CashSale(y, q))], shop, x, p, y, q)
  {
    RunStep(pre, CreateStep(CashSale(x, p)));
    OrderStep(Final(pre), shop, x, p);
    RunStep(pre + [CreateStep(CashSale(x, p))], CreateStep(CashSale(y, q)));
    OrderStep(Ordered(Final(pre), shop, x, p), shop, y, q);
  }

  /** Number `t` is delivered before the other one. */
  function Deliveries(steps: seq<Step>, t: nat, s0: Stamp, s1: Stamp): seq<Step>
    requires t < 2
  {
    steps + [DeliverStep(t, false, s0)] + [DeliverStep(1 - t, false, s1)]
  }

  lemma SoldReads(shop: Shop, t: nat, cents: int, m: int, n: int, stamp: Stamp)
    requires IsShop(shop) && m != n
    ensures var es, rs := SaleEntries(shop, t, cents, m, stamp, 0, 0), SaleRows(shop, cents, m, 0, 0);
            && Stored(es, shop.cash) == cents && Stored(es, shop.services) == cents
            && FindRow(rs, 2, shop.cash, n).None? && FindRow(rs, 2, shop.services, n).None?
  {
    var es, rs := SaleEntries(shop, t, cents, m, stamp, 0, 0), SaleRows(shop, cents, m, 0, 0);
    assert LastEntry(es, 1, shop.cash) == Some(0) && LastEntry(es, 1, shop.services) == None;
    assert FindRow(rs, 1, shop.cash, n).None? && FindRow(rs, 1, shop.services, n).None?;
  }

  /** The books then: `first` in period `m` is number `t`, `second` in period `n` the other one. */
  function BothSold(b: Books, shop: Shop, t: nat, first: int, m: int, second: int, n: int, s0: Stamp, s1: Stamp): Books
    requires t < 2 && |b.txs| == 2
  {
    Sold(Sold(b, shop, t, first, m, s0, 0, 0), shop, 1 - t, second, n, s1, first, first)
  }

  lemma DeliverBoth(b: Books, shop: Shop, t: nat, first: int, m: int, second: int, n: int, s0: Stamp, s1: Stamp)
    requires IsShop(shop) && b.accounts == shop.accounts && b.ledger == [] && b.rows == [] && t < 2 && |b.txs| == 2
    requires b.txs[t] == SaleTx(shop, first, m, Draft) && b.txs[1 - t] == SaleTx(shop, second, n, Draft)
    requires first > 0 && second > 0 && m != n
    ensures Next(Next(b, DeliverStep(t, false, s0)), DeliverStep(1 - t, false, s1)) == BothSold(b, shop, t, first, m, second, n, s0, s1)
  {
    DeliverSale(b, shop, t, first, m, s0);
    var b1 := Sold(b, shop, t, first, m, s0, 0, 0);
    assert b1.ledger == SaleEntries(shop, t, first, m, s0, 0, 0) && b1.rows == SaleRows(shop, first, m, 0, 0);
    SoldReads(shop, t, first, m, n, s0);
    DeliverSale(b1, shop, 1 - t, second, n, s1);
  }

  lemma RunTwo(steps: seq<Step>, d: Step, e: Step)
    ensures Final(steps + [d] + [e]) == Next(Next(Final(steps), d), e)
    ensures IsRun(steps) && Enabled(Final(steps), d) && Enabled(Next(Final(steps), d), e) ==> IsRun(steps + [d] + [e])
  {
    RunStep(steps, d);
    RunStep(steps + [d], e);
  }

  lemma BothEnabled(b: Books, t: nat, s0: Stamp, s1: Stamp)
    requires t < 2 && TransactionCreated(0, false) in b.outbox && TransactionCreated(1, false) in b.outbox
    ensures Enabled(b, DeliverStep(t, false, s0))
    ensures Enabled(Next(b, DeliverStep(t, false, s0)), DeliverStep(1 - t, false, s1))
  {
    forall e | e in b.outbox ensures e in Next(b, DeliverStep(t, false, s0)).outbox {
    }
  }

  lemma DeliveriesRun(steps: seq<Step>, shop: Shop, x: int, p: int, y: int, q: int, t: nat, s0: Stamp, s1: Stamp)
    requires Drafted(steps, shop, x, p, y, q) && x > 0 && y > 0 && p < q && t < 2
    ensures IsRun(Deliveries(steps, t, s0, s1))
    ensures Final(Deliveries(steps, t, s0, s1))
         == if t == 0 then BothSold(TwoOrders(shop, x, p, y, q), shop, 0, x, p, y, q, s0, s1)
            else BothSold(TwoOrders(shop, x, p, y, q), shop, 1, y, q, x, p, s0, s1)
  {
    RunTwo(steps, DeliverStep(t, false, s0), DeliverStep(1 - t, false, s1));
    BothEnabled(Final(steps), t, s0, s1);
    EitherOrder(shop, x, p, y, q, t, s0, s1);
  }

  lemma EitherOrder(shop: Shop, x: int, p: int, y: int, q: int, t: nat, s0: Stamp, s1: Stamp)
    requires IsShop(shop) && x > 0 && y > 0 && p < q && t < 2
    ensures var b := TwoOrders(shop, x, p, y, q);
            Next(Next(b, DeliverStep(t, false, s0)), DeliverStep(1 - t, false, s1))
              == if t == 0 then BothSold(b, shop, 0, x, p, y, q, s0, s1) else BothSold(b, shop, 1, y, q, x, p, s0, s1)
  {
    if t == 0 {
      DeliverBoth(TwoOrders(shop, x, p, y, q), shop, 0, x, p, y, q, s0, s1);
    } else {
      DeliverBoth(TwoOrders(shop, x, p, y, q), shop, 1, y, q, x, p, s0, s1);
    }
  }

  /** What the two sales move on their accounts. */
  lemma TwoMoved(b: Books, shop: Shop, x: int, p: int, y: int, q: int)
    requires IsShop(shop) && b.accounts == shop.accounts && p < q
    requires b.txs == [SaleTx(shop, x, p, Posted), SaleTx(shop, y, q, Posted)]
    ensures Movement(b, None, p, shop.cash) == x
    ensures Movement(b, None, q, shop.cash) == x + y && Movement(b, Some(q), q, shop.services) == y
  {
    TwoTerms(b.txs, TimesWeight(shop.cash, Within(None, p)));
    TwoTerms(b.txs, TimesWeight(shop.cash, Within(None, q)));
    TwoTerms(b.txs, TimesWeight(shop.services, Within(Some(q), q)));
    SaleNet(shop, x, shop.cash);
    SaleNet(shop, y, shop.cash);
    SaleNet(shop, x, shop.services);
    SaleNet(shop, y, shop.services);
  }

  lemma TwoTerms(txs: seq<Tx>, w: Tx -> int)
    requires |txs| == 2 && HasPosted(txs[0].status) && HasPosted(txs[1].status)
    ensures PostedSum(txs, w) == w(txs[0]) + w(txs[1])
  {
    assert Sums.SumTo(PostedTerm(txs, w), 1) == w(txs[0]);
  }

  lemma TwoFigures(shop: Shop, rows: seq<Row>, x: int, p: int, y: int, q: int)
    requires shop.cash != shop.services && p < q
    requires rows == SaleRows(shop, x, p, 0, 0) + SaleRows(shop, y, q, x, x)
    ensures EndingSum(rows, None, q, shop.cash) == 2 * x + y && EndingSum(rows, Some(q), q, shop.services) == x + y
  {
    var f, g := EndingTerm(rows, None, q, shop.cash), EndingTerm(rows, Some(q), q, shop.services);
    assert Sums.SumTo(f, 1) == x && Sums.SumTo(f, 2) == x && Sums.SumTo(f, 3) == 2 * x + y;
    assert Sums.SumTo(g, 1) == 0 && Sums.SumTo(g, 2) == 0 && Sums.SumTo(g, 3) == 0;
  }

  lemma TwoSalesAscend(shop: Shop, ledger: seq<LedgerEntry>, t: nat, x: int, p: int, y: int, q: int, s0: Stamp, s1: Stamp)
    requires shop.cash != shop.services && t < 2 && s0.now < s1.now
    requires ledger == SaleEntries(shop, t, x, p, s0, 0, 0) + SaleEntries(shop, 1 - t, y, q, s1, x, x)
    ensures forall a: nat :: KeysAscend(ledger, a)
  {
  }

  /** Delivered in period order, with ascending keys: the cash figure of the second period's balance
      sheet counts the first sale twice, and the revenue figure of the second period's income
      statement counts it once although it was made before. */
  lemma SecondPeriodMisreported(steps: seq<Step>, shop: Shop, x: int, p: int, y: int, q: int, s0: Stamp, s1: Stamp)
    requires Drafted(steps, shop, x, p, y, q) && x > 0 && y > 0 && p < q && s0.now < s1.now
    ensures IsRun(Deliveries(steps, 0, s0, s1))
    ensures var b := Final(Deliveries(steps, 0, s0, s1));
            && (forall a: nat :: KeysAscend(b.ledger, a))
            && EndingSum(b.rows, None, q, shop.cash) == 2 * x + y && Movement(b, None, q, shop.cash) == x + y
            && EndingSum(b.rows, Some(q), q, shop.services) == x + y && Movement(b, Some(q), q, shop.services) == y
  {
    DeliveriesRun(steps, shop, x, p, y, q, 0, s0, s1);
    SecondPeriodBooks(TwoOrders(shop, x, p, y, q), shop, x, p, y, q, s0, s1);
  }

  lemma SecondPeriodBooks(b0: Books, shop: Shop, x: int, p: int, y: int, q: int, s0: Stamp, s1: Stamp)
    requires IsShop(shop) && b0.accounts == shop.accounts && b0.ledger == [] && b0.rows == [] && |b0.txs| == 2
    requires p < q && s0.now < s1.now
    ensures var b := BothSold(b0, shop, 0, x, p, y, q, s0, s1);
            && (forall a: nat :: KeysAscend(b.ledger, a))
            && EndingSum(b.rows, None, q, shop.cash) == 2 * x + y && Movement(b, None, q, shop.cash) == x + y
            && EndingSum(b.rows, Some(q), q, shop.services) == x + y && Movement(b, Some(q), q, shop.services) == y
  {
    var b := BothSold(b0, shop, 0, x, p, y, q, s0, s1);
    assert b.txs == [SaleTx(shop, x, p, Posted), SaleTx(shop, y, q, Posted)];
    TwoMoved(b, shop, x, p, y, q);
    assert b.rows == SaleRows(shop, x, p, 0, 0) + SaleRows(shop, y, q, x, x);
    TwoFigures(shop, b.rows, x, p, y, q);
    TwoSalesAscend(shop, b.ledger, 0, x, p, y, q, s0, s1);
  }

  /** Delivered out of period order, with ascending keys: the earlier period's stored ending balance
      holds the later sale, and the later period's misses the earlier one. */
  lemma SwappedEndingsWrong(steps: seq<Step>, shop: Shop, x: int, p: int, y: int, q: int, s0: Stamp, s1: Stamp)
    requires Drafted(steps, shop, x, p, y, q) && x > 0 && y > 0 && p < q && s0.now < s1.now
    ensures IsRun(Deliveries(steps, 1, s0, s1))
    ensures var b := Final(Deliveries(steps, 1, s0, s1));
            && (forall a: nat :: KeysAscend(b.ledger, a))
            && Ending(b, shop.cash, p) == Some(x + y) && CumulativeAt(b.accounts, b.ledger, shop.cash, p) == x
            && Ending(b, shop.cash, q) == Some(y) && CumulativeAt(b.accounts, b.ledger, shop.cash, q) == x + y
  {
    DeliveriesRun(steps, shop, x, p, y, q, 1, s0, s1);
    MovementIsCumulative(Deliveries(steps, 1, s0, s1), p, shop.cash);
    MovementIsCumulative(Deliveries(steps, 1, s0, s1), q, shop.cash);
    SwappedBooks(TwoOrders(shop, x, p, y, q), shop, x, p, y, q, s0, s1);
  }

  lemma SwappedBooks(b0: Books, shop: Shop, x: int, p: int, y: int, q: int, s0: Stamp, s1: Stamp)
    requires IsShop(shop) && b0.accounts == shop.accounts && b0.ledger == [] && b0.rows == [] && |b0.txs| == 2
    requires p < q && s0.now < s1.now
    ensures var b := BothSold(b0, shop, 1, y, q, x, p, s0, s1);
            && (forall a: nat :: KeysAscend(b.ledger, a))
            && Ending(b, shop.cash, p) == Some(x + y) && Movement(b, None, p, shop.cash) == x
            && Ending(b, shop.cash, q) == Some(y) && Movement(b, None, q, shop.cash) == x + y
  {
    var b := BothSold(b0, shop, 1, y, q, x, p, s0, s1);
    assert b.txs == [SaleTx(shop, x, p, Posted), SaleTx(shop, y, q, Posted)];
    TwoMoved(b, shop, x, p, y, q);
    assert b.rows == SaleRows(shop, y, q, 0, 0) + SaleRows(shop, x, p, y, y);
    SwappedRows(b, shop, x, p, y, q);
    TwoSalesAscend(shop, b.ledger, 1, y, q, x, p, s0, s1);
  }

  lemma SwappedRows(b: Books, shop: Shop, x: int, p: int, y: int, q: int)
    requires shop.cash != shop.services && p < q
    requires b.rows == SaleRows(shop, y, q, 0, 0) + SaleRows(shop, x, p, y, y)
    ensures Ending(b, shop.cash, p) == Some(x + y) && Ending(b, shop.cash, q) == Some(y)
  {
    assert FindRow(b.rows, 3, shop.cash, p) == Some(2);
    assert FindRow(b.rows, 1, shop.cash, q) == Some(0);
    assert FindRow(b.rows, 2, shop.cash, q) == Some(0);
    assert FindRow(b.rows, 3, shop.cash, q) == Some(0);
  }

  // ----- A PPN sale -----

  /** A request for a PPN sale of whole cents at 11% with nothing wrong about it. */
  predicate PpnSale(req: CreateRequest, cents: int) {
    && req.kind == Some(Sales) && EffectiveMode(req.mode) == Simple && !req.mode.Unknown?
    && req.paymentMethodOk && req.period.Some? && req.counterpartyOk
    && req.category == PenjualanDenganPpn && EffectiveRate(req.taxProfile) == PPN_RATE
    && cents > 0 && req.amount == cents as real
  }

  function Request(pre: seq<Step>, req: CreateRequest, stamp: Stamp): seq<Step> {
    pre + [CreateStep(req)] + [DeliverStep(0, false, stamp)]
  }

  lemma RequestDelivered(pre: seq<Step>, shop: Shop, req: CreateRequest, stamp: Stamp)
    requires Opens(pre, shop) && NewTx(shop.accounts, req).Ok? && NewTx(shop.accounts, req).value.lines != []
    ensures IsRun(Request(pre, req, stamp))
    ensures var tx := NewTx(shop.accounts, req).value;
            Final(Request(pre, req, stamp)).ledger == PostLines(shop.accounts, Tables([], []), 0, tx, |tx.lines|, stamp).ledger
  {
    NewTxJournal(shop.accounts, req);
    RunStep(pre, CreateStep(req));
    RunStep(pre + [CreateStep(req)], DeliverStep(0, false, stamp));
    assert OutcomeOf(Final(pre + [CreateStep(req)]), 0) == Post;
  }

  lemma BaseExceedsTax(cents: int)
    requires cents > 0
    ensures ToCents(SplitTax(cents as real, PPN_RATE, true).1) > 0 ==> ToCents(SplitTax(cents as real, PPN_RATE, true).0) > 0
  {
    var (base, tax) := SplitTax(cents as real, PPN_RATE, true);
    assert base * 1.11 == cents as real;
    assert ToCents(base) as real >= base - 0.5;
  }

  lemma PpnSaleCreates(req: CreateRequest, cents: int)
    requires PpnSale(req, cents) && ToCents(RequestSplit(req, PenjualanDenganPpn).tax) > 0
    ensures NewTx(Chart.Apply([], Seed), req).Ok?
  {
    BaseExceedsTax(cents);
    assert Chart.ApplyAll(Chart.Apply([], Seed), []) == Chart.Apply([], Seed);
    SeededSimpleSucceedsIff([], req);
  }

  /** The first PPN sale on a seeded workspace: unless its amount is so small that the tax rounds to
      nothing, it is created and posted, and the cash balance stored for the next posting is the full
      amount exactly when the id drawn for the second cash line does not sort before the first;
      otherwise the tax is missing from it. */
  lemma PpnSaleKeptIff(pre: seq<Step>, shop: Shop, req: CreateRequest, cents: int, stamp: Stamp)
    requires Opens(pre, shop) && shop.accounts == Chart.Apply([], Seed)
    requires PpnSale(req, cents) && ToCents(RequestSplit(req, PenjualanDenganPpn).tax) > 0
    ensures IsRun(Request(pre, req, stamp))
    ensures var cash := Stored(Final(Request(pre, req, stamp)).ledger, shop.cash);
            && (cash == cents <==> stamp.newId(2) >= stamp.newId(0))
            && (cash != cents ==> cash == cents - ToCents(RequestSplit(req, PenjualanDenganPpn).tax))
  {
    var s := RequestSplit(req, PenjualanDenganPpn);
    PpnSaleCreates(req, cents);
    PpnSaleDebitsTwice(shop.accounts, req);
    RequestDelivered(pre, shop, req, stamp);
    SplitExactAtPpnRate(cents);
    SecondDebitKeptIff(shop.accounts, Tables([], []), 0, NewTx(shop.accounts, req).value, stamp, shop.cash, ToCents(s.base), ToCents(s.tax));
  }

  /** A sale of 1.11 whose second id sorts first leaves 1.00 on record. */
  lemma RunningBalanceCanLoseThePpn(pre: seq<Step>, shop: Shop, req: CreateRequest, stamp: Stamp)
    requires Opens(pre, shop) && shop.accounts == Chart.Apply([], Seed)
    requires PpnSale(req, 111) && stamp.newId(2) < stamp.newId(0)
    ensures IsRun(Request(pre, req, stamp)) && Stored(Final(Request(pre, req, stamp)).ledger, shop.cash) == 100
  {
    var (base, tax) := SplitTax(111.0, PPN_RATE, true);
    assert base * 1.11 == 111.0;
    ToCentsUnique(tax, 11);
    PpnSaleKeptIff(pre, shop, req, 111, stamp);
  }
}
