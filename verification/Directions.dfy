/** Which way each category moves money: what a generated journal does to cash, to what is owed and
    due, to stock, and to the five account types. */
module Directions {
  import opened Prelude
  import opened Money
  import opened Rules
  import opened Chart
  import opened ChartRuns
  import opened Numbering
  import opened Books
  import opened Journals
  import opened Requests
  import opened Postings
  import opened Reports
  import Sums

  // ----- What a journal moves -----

  /** What a journal moves, debit less credit, on all the accounts that satisfy `chosen`. */
  function Moved(accounts: seq<Account>, chosen: Account -> bool, ls: seq<Line>): int {
    Over(accounts, chosen, NetOnEach(ls))
  }

  /** The accounts with one of some codes. */
  function Named(codes: set<AccountCode>): Account -> bool { (a: Account) => a.code in codes }

  function OneOf(codes: set<AccountCode>): AccountCode -> bool { (c: AccountCode) => c in codes }

  lemma MovedAppend(accounts: seq<Account>, chosen: Account -> bool, ls: seq<Line>, l: Line)
    requires l.account < |accounts|
    ensures Moved(accounts, chosen, ls + [l])
         == Moved(accounts, chosen, ls) + if chosen(accounts[l.account]) then l.debit - l.credit else 0
  {
    forall a: nat ensures NetOn(ls + [l], a) == NetOn(ls, a) + if l.account == a then l.debit - l.credit else 0 {
      SumsAppend(ls, l, a);
    }
    Sums.Change(Chosen(accounts, chosen, NetOnEach(ls)), Chosen(accounts, chosen, NetOnEach(ls + [l])), |accounts|, l.account);
  }

  /** What a pair moves on codes: up by its debit, down by its credit. */
  function PairMoves(p: JournalRule, cents: int, on: AccountCode -> bool): int {
    (if on(p.debit) then cents else 0) - (if on(p.credit) then cents else 0)
  }

  /** The accounts satisfy `chosen` just when their codes satisfy `on`. */
  predicate Picks(accounts: seq<Account>, chosen: Account -> bool, on: AccountCode -> bool, p: JournalRule) {
    && (FindByCode(accounts, p.debit).Some? ==> chosen(accounts[FindByCode(accounts, p.debit).value]) == on(p.debit))
    && (FindByCode(accounts, p.credit).Some? ==> chosen(accounts[FindByCode(accounts, p.credit).value]) == on(p.credit))
  }

  function PairsMove(pairs: seq<JournalRule>, s: Split, on: AccountCode -> bool, n: nat): int
    requires n <= |pairs|
  {
    if n == 0 then 0 else PairsMove(pairs, s, on, n - 1) + PairMoves(pairs[n - 1], PairCents(pairs, n - 1, s), on)
  }

  lemma {:induction false} LinesMove(accounts: seq<Account>, chosen: Account -> bool, on: AccountCode -> bool,
      pairs: seq<JournalRule>, s: Split, n: nat)
    requires n <= |pairs| && RuleLines(accounts, pairs, s, n).Ok?
    requires forall k :: 0 <= k < n ==> Picks(accounts, chosen, on, pairs[k])
    ensures Moved(accounts, chosen, RuleLines(accounts, pairs, s, n).value) == PairsMove(pairs, s, on, n)
  {
    if n == 0 {
      Sums.Zero(Chosen(accounts, chosen, NetOnEach([])), |accounts|);
    } else {
      LinesMove(accounts, chosen, on, pairs, s, n - 1);
      var before := RuleLines(accounts, pairs, s, n - 1).value;
      var two := PairLines(accounts, pairs[n - 1], PairCents(pairs, n - 1, s)).value;
      MovedAppend(accounts, chosen, before, two[0]);
      MovedAppend(accounts, chosen, before + [two[0]], two[1]);
      assert before + two == before + [two[0]] + [two[1]];
    }
  }

  /** A request whose journal is made from the rule of its category, and the transaction it makes. */
  predicate Generates(accounts: seq<Account>, req: CreateRequest, tx: Tx) {
    !ByHand(req) && req.kind != Some(Journal) && NewTx(accounts, req) == Ok(tx)
  }

  /** What a rule moves on codes; the additional pair of a PPN rule carries the tax. */
  function RuleMoves(r: MultiJournalRule, ppn: bool, base: int, tax: int, on: AccountCode -> bool): int {
    PairMoves(r.primary, base, on)
    + if r.additional == [] then 0 else PairMoves(r.additional[0], if ppn then tax else base, on)
  }

  lemma PairsMoveAs(r: MultiJournalRule, s: Split, ppn: bool, on: AccountCode -> bool)
    requires |r.additional| <= 1 && (ppn ==> s.applies)
    requires forall p :: p in r.additional ==> (IsPpnPair(p) <==> ppn)
    ensures PairsMove(r.Pairs(), s, on, |r.Pairs()|) == RuleMoves(r, ppn, ToCents(s.base), ToCents(s.tax), on)
  {
    assert PairsMove(r.Pairs(), s, on, 1) == PairMoves(r.primary, ToCents(s.base), on);
    if r.additional != [] {
      assert r.additional[0] in r.additional && r.Pairs()[1] == r.additional[0];
    }
  }

  function CategoryMoves(kind: TxType, c: Category, base: int, tax: int, on: AccountCode -> bool): int
    requires GetJournalRule(kind, c).Some?
  {
    RuleMoves(GetJournalRule(kind, c).value, IsPpnCategory(c), base, tax, on)
  }

  lemma RuleLinesOf(accounts: seq<Account>, req: CreateRequest, tx: Tx)
    requires Generates(accounts, req, tx)
    ensures GetJournalRule(tx.kind, tx.category).Some?
    ensures var pairs := GetJournalRule(tx.kind, tx.category).value.Pairs();
            RuleLines(accounts, pairs, RequestSplit(req, tx.category), |pairs|) == Ok(tx.lines)
  {
    assert AutoLines(accounts, tx.kind, tx.category, RequestSplit(req, tx.category)) == Ok(tx.lines);
  }

  predicate RulePicks(accounts: seq<Account>, chosen: Account -> bool, on: AccountCode -> bool, r: MultiJournalRule) {
    forall k :: 0 <= k < |r.Pairs()| ==> Picks(accounts, chosen, on, r.Pairs()[k])
  }

  lemma {:induction false} GeneratedMoves(accounts: seq<Account>, req: CreateRequest, tx: Tx, chosen: Account -> bool, on: AccountCode -> bool)
    requires Generates(accounts, req, tx)
    requires GetJournalRule(tx.kind, tx.category).Some? ==> RulePicks(accounts, chosen, on, GetJournalRule(tx.kind, tx.category).value)
    ensures GetJournalRule(tx.kind, tx.category).Some?
    ensures Moved(accounts, chosen, tx.lines) == CategoryMoves(tx.kind, tx.category, BaseCents(req, tx.category), TaxCents(req, tx.category), on)
  {
    RuleLinesOf(accounts, req, tx);
    PpnPairIff(tx.kind, tx.category);
    SplitCents(req, tx.category);
    RuleJournalMoves(accounts, chosen, on, GetJournalRule(tx.kind, tx.category).value, RequestSplit(req, tx.category),
      IsPpnCategory(tx.category), tx.lines);
  }

  lemma RuleJournalMoves(accounts: seq<Account>, chosen: Account -> bool, on: AccountCode -> bool, r: MultiJournalRule, s: Split,
      ppn: bool, ls: seq<Line>)
    requires RuleLines(accounts, r.Pairs(), s, |r.Pairs()|) == Ok(ls) && RulePicks(accounts, chosen, on, r)
    requires |r.additional| <= 1 && (ppn ==> s.applies)
    requires (exists p :: p in r.additional && IsPpnPair(p)) <==> ppn
    ensures Moved(accounts, chosen, ls) == RuleMoves(r, ppn, ToCents(s.base), ToCents(s.tax), on)
  {
    LinesMove(accounts, chosen, on, r.Pairs(), s, |r.Pairs()|);
    PairsMoveAs(r, s, ppn, on);
  }

  /** On codes this needs nothing of the chart. */
  lemma MovesNamed(accounts: seq<Account>, req: CreateRequest, tx: Tx, codes: set<AccountCode>)
    requires Generates(accounts, req, tx)
    ensures GetJournalRule(tx.kind, tx.category).Some?
    ensures Moved(accounts, Named(codes), tx.lines)
         == CategoryMoves(tx.kind, tx.category, BaseCents(req, tx.category), TaxCents(req, tx.category), OneOf(codes))
  {
    GeneratedMoves(accounts, req, tx, Named(codes), OneOf(codes));
  }

  function InGroup(kind: AccountType): AccountCode -> bool { (c: AccountCode) => c.Std? && c.group == GroupOf(kind) }

  /** The chart after seeding first and then any operations at all. */
  function Seeded(ops: seq<ChartOp>): seq<Account> {
    Chart.ApplyAll(Chart.Apply([], Seed), ops)
  }

  lemma SeededType(ops: seq<ChartOp>, code: AccountCode, kind: AccountType)
    requires InTemplate(code) && Carries(Seeded(ops), EntryOf(DefaultTemplate(), code).value)
    ensures FindByCode(Seeded(ops), code).Some?
    ensures Seeded(ops)[FindByCode(Seeded(ops), code).value].kind == kind <==> InGroup(kind)(code)
  {
    TemplateNumbered();
    NumberedEntry(DefaultTemplate(), code);
    EntryOfCode(DefaultTemplate(), code);
  }

  /** On a seeded chart the first digit of a rule's codes tells the types. */
  lemma MovesOfType(ops: seq<ChartOp>, req: CreateRequest, tx: Tx, kind: AccountType)
    requires Generates(Seeded(ops), req, tx)
    ensures GetJournalRule(tx.kind, tx.category).Some?
    ensures Moved(Seeded(ops), IsKind(kind), tx.lines)
         == CategoryMoves(tx.kind, tx.category, BaseCents(req, tx.category), TaxCents(req, tx.category), InGroup(kind))
  {
    RuleLinesOf(Seeded(ops), req, tx);
    RuleExistsIff(tx.kind, tx.category);
    var r := GetJournalRule(tx.kind, tx.category).value;
    forall k | 0 <= k < |r.Pairs()| ensures Picks(Seeded(ops), IsKind(kind), InGroup(kind), r.Pairs()[k]) {
      RulesResolve(ops, tx.kind, tx.category, k);
      SeededType(ops, r.Pairs()[k].debit, kind);
      SeededType(ops, r.Pairs()[k].credit, kind);
    }
    GeneratedMoves(Seeded(ops), req, tx, IsKind(kind), InGroup(kind));
  }

  // ----- What each category means -----

  /** Up on one type, down on another. */
  function Shift(kind: AccountType, up: AccountType, down: AccountType): int {
    (if kind == up then 1 else 0) - (if kind == down then 1 else 0)
  }

  predicate IsIncome(c: Category) {
    c.PendapatanUsaha? || c.PendapatanJasa? || c.PendapatanBunga? || c.PendapatanLain?
  }

  predicate IsExpense(c: Category) {
    IsValidCategoryForType(c, CashOut)
    && !(c.PembelianBarang? || c.BayarHutang? || c.BayarPajak? || c.UangMukaBeli? || c.Prive?)
  }

  predicate IsCreditSale(c: Category) { c.PenjualanBarangKredit? || c.PenjualanJasaKredit? }

  predicate IsCreditPurchase(c: Category) { c.PembelianBarangKredit? || c.PembelianJasaKredit? }

  predicate SellsGoods(c: Category) { c.PenjualanBarangTunai? || c.PenjualanBarangKredit? }

  /** How often the base is added, debit less credit, to an account type. */
  function TypeEffect(c: Category, kind: AccountType): int {
    if IsIncome(c) then Shift(kind, Asset, Revenue)
    else if IsExpense(c) then Shift(kind, Expense, Asset)
    else if SellsGoods(c) then Shift(kind, Expense, Revenue)
    else match c
      case HutangDiterima => Shift(kind, Asset, Liability)
      case UangMukaDiterima => Shift(kind, Asset, Liability)
      case ModalDisetor => Shift(kind, Asset, Equity)
      case BayarHutang => Shift(kind, Liability, Asset)
      case BayarPajak => Shift(kind, Liability, Asset)
      case Prive => Shift(kind, Equity, Asset)
      case PenjualanJasaTunai => Shift(kind, Asset, Revenue)
      case PenjualanJasaKredit => Shift(kind, Asset, Revenue)
      case PenjualanDenganPpn => Shift(kind, Asset, Revenue)
      case PembelianBarangKredit => Shift(kind, Asset, Liability)
      case PembelianJasaTunai => Shift(kind, Expense, Asset)
      case PembelianJasaKredit => Shift(kind, Expense, Liability)
      case DiskonPenjualan => Shift(kind, Revenue, Asset)
      case ReturPenjualan => Shift(kind, Revenue, Expense)
      case ReturPembelian => Shift(kind, Liability, Expense)
      case _ => 0
  }

  datatype Place = Money | Bank | Receivable | Payable | Stock | CostOfSales

  function CodesAt(p: Place): set<AccountCode> {
    match p
    case Money => {KAS, BANK}
    case Bank => {BANK}
    case Receivable => {PIUTANG}
    case Payable => {HUTANG}
    case Stock => {PERSEDIAAN}
    case CostOfSales => {HPP}
  }

  /** The same for the accounts of trade. Money comes in on receipts and cash sales and goes out on
      payments and cash purchases, through the bank for interest earned and bank fees only;
      collections, discounts and returns lower what customers owe; what is owed to suppliers is a
      credit balance; goods sold leave the stock at cost. */
  function PlaceEffect(c: Category, p: Place): int {
    match p
    case Money =>
      if IsValidCategoryForType(c, CashIn) || (IsValidCategoryForType(c, Sales) && !IsCreditSale(c)) then 1
      else if IsValidCategoryForType(c, CashOut) || (IsValidCategoryForType(c, Purchase) && !IsCreditPurchase(c)) then -1
      else 0
    case Bank => if c.PendapatanBunga? then 1 else if c.BebanBank? then -1 else 0
    case Receivable =>
      if IsCreditSale(c) then 1 else if c.PiutangDibayar? || c.DiskonPenjualan? || c.ReturPenjualan? then -1 else 0
    case Payable =>
      if c.BayarHutang? || c.ReturPembelian? then 1 else if c.HutangDiterima? || IsCreditPurchase(c) then -1 else 0
    case Stock =>
      if BuysGoods(c) || c.ReturPenjualan? then 1 else if SellsGoods(c) then -1 else 0
    case CostOfSales =>
      if SellsGoods(c) then 1 else if c.ReturPenjualan? then -1 else 0
  }

  predicate BuysGoods(c: Category) {
    c.PembelianBarang? || c.PembelianBarangTunai? || c.PembelianBarangKredit? || c.PembelianDenganPpn?
  }

  function Multiple(n: int, x: int): int { if n == 1 then x else if n == -1 then -x else 0 }

  /** The base where the category moves it, and the tax of a PPN sale, due to the state. */
  function TypeMoves(c: Category, kind: AccountType, base: int, tax: int): int {
    Multiple(TypeEffect(c, kind), base) + if c.PenjualanDenganPpn? then Multiple(Shift(kind, Asset, Liability), tax) else 0
  }

  predicate MovesTypes(r: MultiJournalRule, c: Category, base: int, tax: int, kind: AccountType) {
    RuleMoves(r, IsPpnCategory(c), base, tax, InGroup(kind)) == TypeMoves(c, kind, base, tax)
  }

  /** Money moves with the tax of a PPN sale or purchase. */
  function PlaceMoves(c: Category, p: Place, base: int, tax: int): int {
    Multiple(PlaceEffect(c, p), if p == Money && IsPpnCategory(c) then base + tax else base)
  }

  predicate MovesPlace(r: MultiJournalRule, c: Category, base: int, tax: int, p: Place) {
    RuleMoves(r, IsPpnCategory(c), base, tax, OneOf(CodesAt(p))) == PlaceMoves(c, p, base, tax)
  }

  lemma ExpensePairs(c: Category)
    requires IsExpense(c)
    ensures CashOutRule(c).Some? && PaysExpense(CashOutRule(c).value, c.BebanBank?)
  {
  }

  predicate PaysExpense(p: JournalRule, fromBank: bool) {
    p.credit == (if fromBank then BANK else KAS) && p.debit.Std? && p.debit.group == 5 && p.debit != HPP
  }

  lemma CashInTypes(c: Category, base: int, tax: int, kind: AccountType)
    requires CashInRule(c).Some?
    ensures MovesTypes(Rule(CashInRule(c).value, []), c, base, tax, kind)
  {
  }

  lemma ExpenseTypes(pair: JournalRule, c: Category, base: int, tax: int, kind: AccountType)
    requires PaysExpense(pair, c.BebanBank?) && IsExpense(c)
    ensures MovesTypes(Rule(pair, []), c, base, tax, kind)
  {
  }

  lemma OtherPaymentTypes(c: Category, base: int, tax: int, kind: AccountType)
    requires CashOutRule(c).Some? && !IsExpense(c)
    ensures MovesTypes(Rule(CashOutRule(c).value, []), c, base, tax, kind)
  {
  }

  lemma CashOutTypes(c: Category, base: int, tax: int, kind: AccountType)
    requires CashOutRule(c).Some?
    ensures MovesTypes(Rule(CashOutRule(c).value, []), c, base, tax, kind)
  {
    if IsExpense(c) {
      ExpensePairs(c);
      ExpenseTypes(CashOutRule(c).value, c, base, tax, kind);
    } else {
      OtherPaymentTypes(c, base, tax, kind);
    }
  }

  lemma SalesTypes(c: Category, base: int, tax: int, kind: AccountType)
    requires SalesRule(c).Some?
    ensures MovesTypes(SalesRule(c).value, c, base, tax, kind)
  {
  }

  lemma PurchaseTypes(c: Category, base: int, tax: int, kind: AccountType)
    requires PurchaseRule(c).Some?
    ensures MovesTypes(PurchaseRule(c).value, c, base, tax, kind)
  {
  }

  lemma SpecialTypes(c: Category, base: int, tax: int, kind: AccountType)
    requires SpecialRule(c).Some?
    ensures MovesTypes(SpecialRule(c).value, c, base, tax, kind)
  {
  }

  lemma RuleTypes(t: TxType, c: Category, base: int, tax: int, kind: AccountType)
    requires GetJournalRule(t, c).Some?
    ensures MovesTypes(GetJournalRule(t, c).value, c, base, tax, kind)
  {
    if OwnRule(t, c).None? {
      SpecialTypes(c, base, tax, kind);
    } else {
      match t {
        case CashIn => CashInTypes(c, base, tax, kind);
        case CashOut => CashOutTypes(c, base, tax, kind);
        case Sales => SalesTypes(c, base, tax, kind);
        case Purchase => PurchaseTypes(c, base, tax, kind);
      }
    }
  }

  lemma CashInPlaces(c: Category, base: int, tax: int, p: Place)
    requires CashInRule(c).Some?
    ensures MovesPlace(Rule(CashInRule(c).value, []), c, base, tax, p)
  {
  }

  lemma ExpensePlaces(pair: JournalRule, c: Category, base: int, tax: int, p: Place)
    requires PaysExpense(pair, c.BebanBank?) && !IsPpnCategory(c)
    requires PlaceEffect(c, p) == if p == Money || (p == Bank && c.BebanBank?) then -1 else 0
    ensures MovesPlace(Rule(pair, []), c, base, tax, p)
  {
  }

  function OtherPayment(c: Category): AccountCode {
    if c.PembelianBarang? then PERSEDIAAN else if c.BayarHutang? then HUTANG
    else if c.BayarPajak? then Std(2, 1003) else if c.UangMukaBeli? then Std(1, 1007) else Std(3, 1002)
  }

  lemma OtherPaymentPlaces(c: Category, base: int, tax: int, p: Place)
    requires IsValidCategoryForType(c, CashOut) && !IsExpense(c)
    ensures MovesPlace(Rule(Pair(OtherPayment(c), KAS), []), c, base, tax, p)
  {
  }

  lemma CashOutPlaces(c: Category, base: int, tax: int, p: Place)
    requires CashOutRule(c).Some?
    ensures MovesPlace(Rule(CashOutRule(c).value, []), c, base, tax, p)
  {
    if IsExpense(c) {
      ExpensePairs(c);
      assert PlaceEffect(c, p) == if p == Money || (p == Bank && c.BebanBank?) then -1 else 0;
      ExpensePlaces(CashOutRule(c).value, c, base, tax, p);
    } else {
      assert CashOutRule(c).value == Pair(OtherPayment(c), KAS);
      OtherPaymentPlaces(c, base, tax, p);
    }
  }

  lemma SalesPlaces(c: Category, base: int, tax: int, p: Place)
    requires SalesRule(c).Some?
    ensures MovesPlace(SalesRule(c).value, c, base, tax, p)
  {
  }

  lemma PurchasePlaces(c: Category, base: int, tax: int, p: Place)
    requires PurchaseRule(c).Some?
    ensures MovesPlace(PurchaseRule(c).value, c, base, tax, p)
  {
  }

  lemma SpecialPlaces(c: Category, base: int, tax: int, p: Place)
    requires SpecialRule(c).Some?
    ensures MovesPlace(SpecialRule(c).value, c, base, tax, p)
  {
  }

  lemma RulePlaces(t: TxType, c: Category, base: int, tax: int, p: Place)
    requires GetJournalRule(t, c).Some?
    ensures MovesPlace(GetJournalRule(t, c).value, c, base, tax, p)
  {
    if OwnRule(t, c).None? {
      SpecialPlaces(c, base, tax, p);
    } else {
      match t {
        case CashIn => CashInPlaces(c, base, tax, p);
        case CashOut => CashOutPlaces(c, base, tax, p);
        case Sales => SalesPlaces(c, base, tax, p);
        case Purchase => PurchasePlaces(c, base, tax, p);
      }
    }
  }

  /** On any chart, a generated journal moves each place by its base as its category means. */
  lemma PlacesMoved(accounts: seq<Account>, req: CreateRequest, tx: Tx, p: Place)
    requires Generates(accounts, req, tx)
    ensures Moved(accounts, Named(CodesAt(p)), tx.lines)
         == PlaceMoves(tx.category, p, BaseCents(req, tx.category), TaxCents(req, tx.category))
  {
    MovesNamed(accounts, req, tx, CodesAt(p));
    RulePlaces(tx.kind, tx.category, BaseCents(req, tx.category), TaxCents(req, tx.category), p);
  }

  /** On a workspace seeded first, it moves the five account types as its category means: income up
      on revenue, expenses on expense, loans and advances on liabilities, capital on equity. */
  lemma TypesMoved(ops: seq<ChartOp>, req: CreateRequest, tx: Tx, kind: AccountType)
    requires Generates(Seeded(ops), req, tx)
    ensures Moved(Seeded(ops), IsKind(kind), tx.lines)
         == TypeMoves(tx.category, kind, BaseCents(req, tx.category), TaxCents(req, tx.category))
  {
    MovesOfType(ops, req, tx, kind);
    RuleTypes(tx.kind, tx.category, BaseCents(req, tx.category), TaxCents(req, tx.category), kind);
  }

  lemma CashOutDistinct(c: Category, d: Category)
    requires CashOutRule(c).Some? && CashOutRule(d).Some? && c != d
    ensures CashOutRule(c).value.debit != CashOutRule(d).value.debit
  {
  }

  lemma CashInDistinct(c: Category, d: Category)
    requires CashInRule(c).Some? && CashInRule(d).Some? && c != d
    ensures CashInRule(c).value.credit != CashInRule(d).value.credit
  {
  }

  /** The first two lines stand on the accounts of the rule's primary pair. */
  lemma PrimaryLines(accounts: seq<Account>, req: CreateRequest, tx: Tx)
    requires Generates(accounts, req, tx)
    ensures GetJournalRule(tx.kind, tx.category).Some? && |tx.lines| >= 2
    ensures FindByCode(accounts, GetJournalRule(tx.kind, tx.category).value.primary.debit) == Some(tx.lines[0].account)
    ensures FindByCode(accounts, GetJournalRule(tx.kind, tx.category).value.primary.credit) == Some(tx.lines[1].account)
  {
    RuleLinesOf(accounts, req, tx);
    PrimaryOfRule(accounts, GetJournalRule(tx.kind, tx.category).value, RequestSplit(req, tx.category), tx.lines);
  }

  lemma PrimaryOfRule(accounts: seq<Account>, r: MultiJournalRule, s: Split, ls: seq<Line>)
    requires RuleLines(accounts, r.Pairs(), s, |r.Pairs()|) == Ok(ls)
    ensures |ls| >= 2 && FindByCode(accounts, r.primary.debit) == Some(ls[0].account)
    ensures FindByCode(accounts, r.primary.credit) == Some(ls[1].account)
  {
    RuleLinesArePairs(accounts, r.Pairs(), s, |r.Pairs()|);
    assert r.Pairs()[0] == r.primary && ls[2 * 0] == ls[0] && ls[2 * 0 + 1] == ls[1];
  }

  /** Payments of different categories are told apart by what they debit. */
  lemma {:induction false} PaymentsDiffer(accounts: seq<Account>, req: CreateRequest, tx: Tx, req': CreateRequest, tx': Tx)
    requires Generates(accounts, req, tx) && Generates(accounts, req', tx') && tx.category != tx'.category
    requires tx.kind == CashOut && tx'.kind == CashOut && !IsSpecial(tx.category) && !IsSpecial(tx'.category)
    ensures |tx.lines| >= 2 && |tx'.lines| >= 2 && tx.lines[0].account != tx'.lines[0].account
  {
    PrimaryLines(accounts, req, tx);
    PrimaryLines(accounts, req', tx');
    RuleExistsIff(tx.kind, tx.category);
    RuleExistsIff(tx'.kind, tx'.category);
    OwnRuleIff(CashOut, tx.category);
    OwnRuleIff(CashOut, tx'.category);
    CashOutDistinct(tx.category, tx'.category);
  }

  /** And receipts by what they credit. */
  lemma {:induction false} ReceiptsDiffer(accounts: seq<Account>, req: CreateRequest, tx: Tx, req': CreateRequest, tx': Tx)
    requires Generates(accounts, req, tx) && Generates(accounts, req', tx') && tx.category != tx'.category
    requires tx.kind == CashIn && tx'.kind == CashIn && !IsSpecial(tx.category) && !IsSpecial(tx'.category)
    ensures |tx.lines| >= 2 && |tx'.lines| >= 2 && tx.lines[1].account != tx'.lines[1].account
  {
    PrimaryLines(accounts, req, tx);
    PrimaryLines(accounts, req', tx');
    RuleExistsIff(tx.kind, tx.category);
    RuleExistsIff(tx'.kind, tx'.category);
    OwnRuleIff(CashIn, tx.category);
    OwnRuleIff(CashIn, tx'.category);
    CashInDistinct(tx.category, tx'.category);
  }
}
