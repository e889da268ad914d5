/** What every run of seeding, creating and updating accounts keeps. */
module ChartRuns {
  import opened Prelude
  import opened Money
  import opened Rules
  import opened Chart

  function CodeKey(c: AccountCode): int {
    match c
    case Std(group, number) => 10000 * group + number
    case Custom(_) => -1
  }

  function EntryOf(entries: Template, code: AccountCode): Option<TemplateEntry>
    decreases entries
  {
    match entries
    case Nil => None
    case Cons(e, rest) => if e.code == code then Some(e) else EntryOf(rest, code)
  }

  function FirstKey(entries: Template, otherwise: int): int {
    if entries.Cons? then CodeKey(entries.head.code) else otherwise
  }

  /** A section of the template: ascending codes below `limit`, and each entry's parent is the
      latest entry one level up (`root` for level two, `mid` for level three). */
  predicate Sound(rest: Template, root: Option<AccountCode>, mid: Option<AccountCode>, limit: int)
    decreases rest
  {
    match rest
    case Nil => true
    case Cons(e, tail) =>
      && e.code.Std?
      && CodeKey(e.code) < FirstKey(tail, limit)
      && if e.level == 1 then e.parent.None? && Sound(tail, Some(e.code), None, limit)
         else if e.level == 2 then e.parent.Some? && e.parent == root && Sound(tail, root, Some(e.code), limit)
         else e.level == 3 && e.parent.Some? && e.parent == mid && Sound(tail, root, mid, limit)
  }

  lemma AssetsSound()
    ensures Sound(CurrentAssetEntries(), None, None, 12000)
    ensures Sound(FixedAssetEntries(), Some(Std(1, 0)), None, 20000)
  {
  }

  lemma LiabilitiesSound()
    ensures Sound(LiabilityEntries(), None, None, 30000)
  {
  }

  lemma EquityAndRevenueSound()
    ensures Sound(EquityEntries(), None, None, 40000)
    ensures Sound(RevenueEntries(), None, None, 50000)
  {
  }

  lemma OperatingExpensesSound()
    ensures Sound(OperatingExpenseEntries(), None, None, 52000)
  {
  }

  lemma OtherExpensesSound()
    ensures Sound(OtherExpenseEntries(), Some(Std(5, 0)), None, 60000)
  {
  }

  /** A root has level one and every other account is one level below its parent. */
  predicate Leveled(accounts: seq<Account>) {
    forall i :: 0 <= i < |accounts| ==> LeveledAt(accounts, i)
  }

  predicate LeveledAt(accounts: seq<Account>, i: nat)
    requires i < |accounts|
  {
    match accounts[i].parent
    case None => accounts[i].level == 1
    case Some(p) => p < |accounts| && accounts[p].level >= 1 && accounts[i].level == accounts[p].level + 1
  }

  predicate CodesUnique(accounts: seq<Account>) {
    forall i, j :: 0 <= i < j < |accounts| ==> accounts[i].code != accounts[j].code
  }

  predicate Carries(accounts: seq<Account>, e: TemplateEntry) {
    var at := FindByCode(accounts, e.code);
    at.Some? && accounts[at.value].(parent := None) == Account(e.code, e.kind, e.normal, e.level, None, true, true)
  }

  /** The accounts seeded so far: leveled system accounts whose codes all come before `next`,
      among them the latest root and the latest account of level two. */
  predicate Placed(accounts: seq<Account>, root: Option<AccountCode>, mid: Option<AccountCode>, next: int) {
    && Leveled(accounts)
    && (forall i :: 0 <= i < |accounts| ==> accounts[i].isSystem && accounts[i].level >= 1)
    && (forall i :: 0 <= i < |accounts| ==> CodeKey(accounts[i].code) < next)
    && CodesUnique(accounts)
    && (root.Some? ==> FoundAt(accounts, root.value, 1))
    && (mid.Some? ==> FoundAt(accounts, mid.value, 2))
  }

  predicate FoundAt(accounts: seq<Account>, code: AccountCode, level: int) {
    var at := FindByCode(accounts, code);
    at.Some? && accounts[at.value].level == level
  }

  /** `after` extends `accounts` by an account for each entry of `rest`. */
  ghost predicate GrowsBy(rest: Template, accounts: seq<Account>, after: seq<Account>, next: int) {
    && Placed(after, None, None, next)
    && accounts <= after
    && (forall c :: FindByCode(accounts, c).Some? ==> FindByCode(after, c) == FindByCode(accounts, c))
    && (forall c :: EntryOf(rest, c).Some? ==> Carries(after, EntryOf(rest, c).value))
  }

  /** Seeding `rest` succeeds and leaves an account for each of its entries. */
  ghost predicate SeedsWell(rest: Template, accounts: seq<Account>, next: int) {
    exists after :: SeedFrom(rest, accounts) == Ok(after) && GrowsBy(rest, accounts, after, next)
  }

  lemma {:induction false} PlacedStep(e: TemplateEntry, accounts: seq<Account>, root: Option<AccountCode>, mid: Option<AccountCode>, next: int)
    requires e.code.Std? && CodeKey(e.code) < next && 1 <= e.level <= 3
    requires if e.level == 1 then e.parent.None?
             else e.parent.Some? && e.parent == if e.level == 2 then root else mid
    requires Placed(accounts, root, mid, CodeKey(e.code))
    ensures SeedEntry(accounts, e).Ok?
    ensures var account := SeedEntry(accounts, e).value;
            Placed(accounts + [account], if e.level == 1 then Some(e.code) else root,
              if e.level == 1 then None else if e.level == 2 then Some(e.code) else mid, next)
  {
    assert FindByCode(accounts, e.code).None?;
    var account := SeedEntry(accounts, e).value;
    FindAfterAppend(accounts, account, e.code);
    if root.Some? {
      FindAfterAppend(accounts, account, root.value);
    }
    if mid.Some? {
      FindAfterAppend(accounts, account, mid.value);
    }
    GrowLeveled(accounts, account);
  }

  lemma GrowLeveled(before: seq<Account>, x: Account)
    requires Leveled(before)
    requires LeveledAt(before + [x], |before|)
    ensures Leveled(before + [x])
  {
    forall i | 0 <= i < |before + [x]| ensures LeveledAt(before + [x], i) {
      if i < |before| {
        assert LeveledAt(before, i);
      }
    }
  }

  /** A sound section seeds without error. */
  lemma {:induction false} SectionSeeds(rest: Template, accounts: seq<Account>,
      root: Option<AccountCode>, mid: Option<AccountCode>, limit: int)
    requires Sound(rest, root, mid, limit)
    requires Placed(accounts, root, mid, FirstKey(rest, limit))
    ensures SeedsWell(rest, accounts, limit)
    decreases rest
  {
    match rest
    case Nil => assert GrowsBy(rest, accounts, accounts, limit);
    case Cons(e, tail) =>
      PlacedStep(e, accounts, root, mid, FirstKey(tail, limit));
      var account := SeedEntry(accounts, e).value;
      var next := accounts + [account];
      if e.level == 1 {
        SectionSeeds(tail, next, Some(e.code), None, limit);
      } else if e.level == 2 {
        SectionSeeds(tail, next, root, Some(e.code), limit);
      } else {
        SectionSeeds(tail, next, root, mid, limit);
      }
      SeedsWellCons(e, tail, accounts, limit);
  }

  lemma SeedsWellCons(e: TemplateEntry, tail: Template, accounts: seq<Account>, limit: int)
    requires SeedEntry(accounts, e).Ok?
    requires SeedsWell(tail, accounts + [SeedEntry(accounts, e).value], limit)
    ensures SeedsWell(Cons(e, tail), accounts, limit)
  {
    var account := SeedEntry(accounts, e).value;
    forall c { FindAfterAppend(accounts, account, c); }
    assert FindByCode(accounts + [account], e.code) == Some(|accounts|);
    var last := SeedFrom(tail, accounts + [account]).value;
    assert last[|accounts|] == (accounts + [account])[|accounts|];
    assert GrowsBy(Cons(e, tail), accounts, last, limit);
  }

  lemma {:induction false} SeedAppend(a: Template, b: Template, accounts: seq<Account>)
    requires SeedFrom(a, accounts).Ok?
    ensures SeedFrom(Append(a, b), accounts) == SeedFrom(b, SeedFrom(a, accounts).value)
    decreases a
  {
    match a
    case Nil =>
    case Cons(e, rest) => SeedAppend(rest, b, accounts + [SeedEntry(accounts, e).value]);
  }

  lemma {:induction false} EntryAppend(a: Template, b: Template, c: AccountCode)
    ensures EntryOf(Append(a, b), c) == if EntryOf(a, c).Some? then EntryOf(a, c) else EntryOf(b, c)
    decreases a
  {
    if a.Cons? {
      EntryAppend(a.tail, b, c);
    }
  }

  /** Two parts that seed well, one after the other, seed well together. */
  lemma SeedsWellAppend(a: Template, b: Template, accounts: seq<Account>, mid: int, next: int)
    requires SeedsWell(a, accounts, mid)
    requires SeedsWell(b, SeedFrom(a, accounts).value, next)
    ensures SeedsWell(Append(a, b), accounts, next)
  {
    SeedAppend(a, b, accounts);
    var first := SeedFrom(a, accounts).value;
    var last := SeedFrom(b, first).value;
    forall c | EntryOf(Append(a, b), c).Some? ensures Carries(last, EntryOf(Append(a, b), c).value) {
      EntryAppend(a, b, c);
      if EntryOf(a, c).Some? {
        EntryOfCode(a, c);
        assert Carries(first, EntryOf(a, c).value);
      }
    }
    assert GrowsBy(Append(a, b), accounts, last, next);
  }

  lemma {:induction false} EntryOfCode(entries: Template, code: AccountCode)
    requires EntryOf(entries, code).Some?
    ensures EntryOf(entries, code).value.code == code
    decreases entries
  {
    if entries.head.code != code {
      EntryOfCode(entries.tail, code);
    }
  }

  lemma TemplateSeeds()
    ensures SeedsWell(DefaultTemplate(), [], 60000)
  {
    AssetsSound();
    SectionSeeds(CurrentAssetEntries(), [], None, None, 12000);
    var one := SeedFrom(CurrentAssetEntries(), []).value;
    assert EntryOf(CurrentAssetEntries(), Std(1, 0)) == Some(Entry(Std(1, 0), Asset, DebitNormal, 1, None));
    SectionSeeds(FixedAssetEntries(), one, Some(Std(1, 0)), None, 20000);
    var two := SeedFrom(FixedAssetEntries(), one).value;
    LiabilitiesSound();
    SectionSeeds(LiabilityEntries(), two, None, None, 30000);
    IncomeSeeds(SeedFrom(LiabilityEntries(), two).value);
    SeedsWellAppend(LiabilityEntries(), Append(EquityEntries(), IncomeEntries()), two, 30000, 60000);
    SeedsWellAppend(FixedAssetEntries(),
      Append(LiabilityEntries(), Append(EquityEntries(), IncomeEntries())), one, 20000, 60000);
    SeedsWellAppend(CurrentAssetEntries(), Append(FixedAssetEntries(),
      Append(LiabilityEntries(), Append(EquityEntries(), IncomeEntries()))), [], 12000, 60000);
  }

  function IncomeEntries(): Template {
    Append(RevenueEntries(), Append(OperatingExpenseEntries(), OtherExpenseEntries()))
  }

  lemma IncomeSeeds(accounts: seq<Account>)
    requires Placed(accounts, None, None, 30000)
    ensures SeedsWell(Append(EquityEntries(), IncomeEntries()), accounts, 60000)
  {
    EquityAndRevenueSound();
    SectionSeeds(EquityEntries(), accounts, None, None, 40000);
    var three := SeedFrom(EquityEntries(), accounts).value;
    SectionSeeds(RevenueEntries(), three, None, None, 50000);
    var four := SeedFrom(RevenueEntries(), three).value;
    OperatingExpensesSound();
    SectionSeeds(OperatingExpenseEntries(), four, None, None, 52000);
    var five := SeedFrom(OperatingExpenseEntries(), four).value;
    assert EntryOf(OperatingExpenseEntries(), Std(5, 0)) == Some(Entry(Std(5, 0), Expense, DebitNormal, 1, None));
    OtherExpensesSound();
    SectionSeeds(OtherExpenseEntries(), five, Some(Std(5, 0)), None, 60000);
    SeedsWellAppend(OperatingExpenseEntries(), OtherExpenseEntries(), four, 52000, 60000);
    SeedsWellAppend(RevenueEntries(), Append(OperatingExpenseEntries(), OtherExpenseEntries()), three, 50000, 60000);
    SeedsWellAppend(EquityEntries(), IncomeEntries(), accounts, 40000, 60000);
  }

  /** The seeded accounts are still there, at the front, untouched. */
  predicate Intact(accounts: seq<Account>) {
    SeedChart([]).Ok? && SeedChart([]).value <= accounts
  }

  lemma SeededChart()
    ensures SeedChart([]).Ok?
    ensures Intact(SeedChart([]).value) && Leveled(SeedChart([]).value) && CodesUnique(SeedChart([]).value)
    ensures SeedChart([]).value != []
    ensures forall i :: 0 <= i < |SeedChart([]).value| ==> SeedChart([]).value[i].isSystem
    ensures forall c :: InTemplate(c) ==> Carries(SeedChart([]).value, EntryOf(DefaultTemplate(), c).value)
  {
    TemplateSeeds();
    AssetCodes();
    assert Carries(SeedChart([]).value, EntryOf(DefaultTemplate(), KAS).value);
  }

  /** Seeding works exactly on an empty chart. */
  lemma SeedsIffEmpty(accounts: seq<Account>)
    ensures SeedChart(accounts).Ok? <==> accounts == []
    ensures accounts != [] ==> Apply(accounts, Seed) == accounts
  {
    SeededChart();
  }

  /** No operation changes a system account, removes an account, or reuses a code; codes and
      normal sides never change. */
  lemma {:induction false} OperationKeeps(accounts: seq<Account>, op: ChartOp)
    requires CodesUnique(accounts)
    ensures var after := Apply(accounts, op);
            && CodesUnique(after)
            && |accounts| <= |after|
            && (forall i :: 0 <= i < |accounts| ==>
                  && after[i].code == accounts[i].code
                  && after[i].normal == accounts[i].normal
                  && after[i].kind == accounts[i].kind
                  && (accounts[i].isSystem ==> after[i] == accounts[i]))
  {
    if op.Seed? {
      SeededChart();
    }
  }

  lemma {:induction false} SystemAccountsNeverChange(accounts: seq<Account>, ops: seq<ChartOp>)
    requires CodesUnique(accounts) && Intact(accounts)
    ensures Intact(ApplyAll(accounts, ops)) && CodesUnique(ApplyAll(accounts, ops))
  {
    if ops != [] {
      var front := ops[..|ops| - 1];
      SystemAccountsNeverChange(accounts, front);
      var before := ApplyAll(accounts, front);
      OperationKeeps(before, ops[|ops| - 1]);
      SeededChart();
      var after := ApplyAll(accounts, ops);
      var system := SeedChart([]).value;
      forall i | 0 <= i < |system| ensures system[i] == after[i] {
        assert system[i].isSystem;
        assert before[i] == system[i];
      }
    }
  }

  lemma FindFirst(accounts: seq<Account>, i: nat)
    requires CodesUnique(accounts) && i < |accounts|
    ensures FindByCode(accounts, accounts[i].code) == Some(i)
  {
    var r := FindByCode(accounts, accounts[i].code);
    assert r.Some?;
  }

  predicate InTemplate(code: AccountCode) {
    EntryOf(DefaultTemplate(), code).Some?
  }

  lemma InSection(code: AccountCode)
    requires EntryOf(CurrentAssetEntries(), code).Some? || EntryOf(LiabilityEntries(), code).Some?
      || EntryOf(EquityEntries(), code).Some? || EntryOf(RevenueEntries(), code).Some?
      || EntryOf(OperatingExpenseEntries(), code).Some? || EntryOf(OtherExpenseEntries(), code).Some?
    ensures InTemplate(code)
  {
    EntryAppend(OperatingExpenseEntries(), OtherExpenseEntries(), code);
    EntryAppend(RevenueEntries(), Append(OperatingExpenseEntries(), OtherExpenseEntries()), code);
    EntryAppend(EquityEntries(), IncomeEntries(), code);
    EntryAppend(LiabilityEntries(), Append(EquityEntries(), IncomeEntries()), code);
    EntryAppend(FixedAssetEntries(), Append(LiabilityEntries(), Append(EquityEntries(), IncomeEntries())), code);
    EntryAppend(CurrentAssetEntries(), Append(FixedAssetEntries(),
      Append(LiabilityEntries(), Append(EquityEntries(), IncomeEntries()))), code);
  }

  lemma InAssets(code: AccountCode)
    requires EntryOf(CurrentAssetEntries(), code).Some?
    ensures InTemplate(code)
  {
    InSection(code);
  }

  lemma InLiabilities(code: AccountCode)
    requires EntryOf(LiabilityEntries(), code).Some?
    ensures InTemplate(code)
  {
    InSection(code);
  }

  lemma InEquity(code: AccountCode)
    requires EntryOf(EquityEntries(), code).Some?
    ensures InTemplate(code)
  {
    InSection(code);
  }

  lemma InRevenue(code: AccountCode)
    requires EntryOf(RevenueEntries(), code).Some?
    ensures InTemplate(code)
  {
    InSection(code);
  }

  lemma InOperating(code: AccountCode)
    requires EntryOf(OperatingExpenseEntries(), code).Some?
    ensures InTemplate(code)
  {
    InSection(code);
  }

  lemma InOtherExpenses(code: AccountCode)
    requires EntryOf(OtherExpenseEntries(), code).Some?
    ensures InTemplate(code)
  {
    InSection(code);
  }

  lemma AssetCodes()
    ensures forall c :: c in {KAS, BANK, PIUTANG, PERSEDIAAN, Std(1, 1007), PPN_MASUKAN} ==> InTemplate(c)
  {
    InAssets(KAS);
    InAssets(BANK);
    InAssets(PIUTANG);
    InAssets(PERSEDIAAN);
    InAssets(Std(1, 1007));
    InAssets(PPN_MASUKAN);
  }

  lemma LiabilityCodes()
    ensures forall c :: c in {HUTANG, Std(2, 1003), PPN_KELUARAN, Std(2, 1006)} ==> InTemplate(c)
  {
    InLiabilities(HUTANG);
    InLiabilities(Std(2, 1003));
    InLiabilities(PPN_KELUARAN);
    InLiabilities(Std(2, 1006));
  }

  lemma EquityCodes()
    ensures forall c :: c in {Std(3, 1001), Std(3, 1002)} ==> InTemplate(c)
  {
    InEquity(Std(3, 1001));
    InEquity(Std(3, 1002));
  }

  lemma RevenueCodes()
    ensures forall c :: c in {Std(4, 1001), Std(4, 1002), Std(4, 1003), Std(4, 1004), Std(4, 2001), Std(4, 2002)} ==> InTemplate(c)
  {
    InRevenue(Std(4, 1001));
    InRevenue(Std(4, 1002));
    InRevenue(Std(4, 1003));
    InRevenue(Std(4, 1004));
    InRevenue(Std(4, 2001));
    InRevenue(Std(4, 2002));
  }

  lemma StaffAndUtilityCodes()
    ensures forall c :: c in {Std(5, 1001), Std(5, 1002), Std(5, 1003), Std(5, 1004), Std(5, 1005), Std(5, 1006)} ==> InTemplate(c)
  {
    InOperating(Std(5, 1001));
    InOperating(Std(5, 1002));
    InOperating(Std(5, 1003));
    InOperating(Std(5, 1004));
    InOperating(Std(5, 1005));
    InOperating(Std(5, 1006));
  }

  lemma GeneralExpenseCodes()
    ensures forall c :: c in {Std(5, 1007), Std(5, 1009), Std(5, 1010)} ==> InTemplate(c)
  {
    InOperating(Std(5, 1007));
    InOperating(Std(5, 1009));
    InOperating(Std(5, 1010));
  }

  lemma BankAndMarketingCodes()
    ensures forall c :: c in {Std(5, 1011), Std(5, 1012)} ==> InTemplate(c)
  {
    InOperating(Std(5, 1011));
    InOperating(Std(5, 1012));
  }

  lemma OtherExpenseCodes()
    ensures forall c :: c in {Std(5, 2001), Std(5, 2002), HPP, Std(5, 3002), Std(5, 9001)} ==> InTemplate(c)
  {
    InOtherExpenses(Std(5, 2001));
    InOtherExpenses(Std(5, 2002));
    InOtherExpenses(HPP);
    InOtherExpenses(Std(5, 3002));
    InOtherExpenses(Std(5, 9001));
  }

  predicate PairInTemplate(p: JournalRule) {
    InTemplate(p.debit) && InTemplate(p.credit)
  }

  lemma CashInCodes(c: Category)
    requires CashInRule(c).Some?
    ensures PairInTemplate(CashInRule(c).value)
  {
    AssetCodes();
    LiabilityCodes();
    EquityCodes();
    RevenueCodes();
  }

  lemma CashOutCodes(c: Category)
    requires CashOutRule(c).Some?
    ensures PairInTemplate(CashOutRule(c).value)
  {
    AssetCodes();
    LiabilityCodes();
    EquityCodes();
    StaffAndUtilityCodes();
    GeneralExpenseCodes();
    BankAndMarketingCodes();
    OtherExpenseCodes();
  }

  predicate RuleInTemplate(r: MultiJournalRule) {
    forall k :: 0 <= k < |r.Pairs()| ==> PairInTemplate(r.Pairs()[k])
  }

  lemma SalesCodes(c: Category)
    requires SalesRule(c).Some?
    ensures RuleInTemplate(SalesRule(c).value)
  {
    AssetCodes();
    LiabilityCodes();
    RevenueCodes();
    OtherExpenseCodes();
  }

  lemma PurchaseCodes(c: Category)
    requires PurchaseRule(c).Some?
    ensures RuleInTemplate(PurchaseRule(c).value)
  {
    AssetCodes();
    LiabilityCodes();
    RevenueCodes();
    OtherExpenseCodes();
  }

  lemma SpecialCodes(c: Category)
    requires SpecialRule(c).Some?
    ensures RuleInTemplate(SpecialRule(c).value)
  {
    AssetCodes();
    LiabilityCodes();
    RevenueCodes();
    OtherExpenseCodes();
  }

  /** Every account code of every rule is in the template. */
  lemma RuleCodesInTemplate(t: TxType, c: Category, k: nat)
    requires GetJournalRule(t, c).Some? && k < |GetJournalRule(t, c).value.Pairs()|
    ensures PairInTemplate(GetJournalRule(t, c).value.Pairs()[k])
  {
    var r := GetJournalRule(t, c).value;
    if OwnRule(t, c).None? {
      SpecialCodes(c);
    } else {
      match t {
        case CashIn => CashInCodes(c);
        case CashOut => CashOutCodes(c);
        case Sales => SalesCodes(c);
        case Purchase => PurchaseCodes(c);
      }
    }
    assert RuleInTemplate(r);
  }

  /** After seeding first and then any operations at all, each whitelisted category, and so each
      category the AI path can choose, has a rule whose codes all resolve to the template's own
      active accounts. */
  lemma {:induction false} RulesResolve(ops: seq<ChartOp>, t: TxType, c: Category, k: nat)
    requires IsValidCategoryForType(c, t) || IsSpecial(c)
    ensures GetJournalRule(t, c).Some?
    ensures k < |GetJournalRule(t, c).value.Pairs()| ==>
        var accounts := ApplyAll(Apply([], Seed), ops);
        var p := GetJournalRule(t, c).value.Pairs()[k];
        && FindByCode(accounts, p.debit).Some? && FindByCode(accounts, p.credit).Some?
        && InTemplate(p.debit) && Carries(accounts, EntryOf(DefaultTemplate(), p.debit).value)
        && InTemplate(p.credit) && Carries(accounts, EntryOf(DefaultTemplate(), p.credit).value)
  {
    RuleExistsIff(t, c);
    if k < |GetJournalRule(t, c).value.Pairs()| {
      RuleCodesInTemplate(t, c, k);
      var p := GetJournalRule(t, c).value.Pairs()[k];
      TemplateCodeResolves(ops, p.debit);
      TemplateCodeResolves(ops, p.credit);
    }
  }

  lemma TemplateCodeResolves(ops: seq<ChartOp>, code: AccountCode)
    requires EntryOf(DefaultTemplate(), code).Some?
    ensures EntryOf(DefaultTemplate(), code).value.code == code
    ensures Carries(ApplyAll(Apply([], Seed), ops), EntryOf(DefaultTemplate(), code).value)
  {
    SeededChart();
    EntryOfCode(DefaultTemplate(), code);
    var system := SeedChart([]).value;
    SystemAccountsNeverChange(system, ops);
    var at := FindByCode(system, code).value;
    assert ApplyAll(system, ops)[at] == system[at];
    FindFirst(ApplyAll(system, ops), at);
  }

  /** A custom account created before seeding blocks the seeding for good. */
  lemma {:induction false} EarlyAccountBlocksSeeding(accounts: seq<Account>, ops: seq<ChartOp>)
    requires accounts != [] && CodesUnique(accounts)
    ensures ApplyAll(accounts, ops) != [] && CodesUnique(ApplyAll(accounts, ops))
    ensures Apply(ApplyAll(accounts, ops), Seed) == ApplyAll(accounts, ops)
  {
    if ops != [] {
      EarlyAccountBlocksSeeding(accounts, ops[..|ops| - 1]);
      OperationKeeps(ApplyAll(accounts, ops[..|ops| - 1]), ops[|ops| - 1]);
    }
    SeedsIffEmpty(ApplyAll(accounts, ops));
  }

  /** The account reached by following `k` parent links. */
  function Ancestor(accounts: seq<Account>, i: nat, k: nat): Option<nat>
    requires i < |accounts|
    ensures Ancestor(accounts, i, k).Some? ==> Ancestor(accounts, i, k).value < |accounts|
    decreases k
  {
    if k == 0 then Some(i)
    else match accounts[i].parent
      case None => None
      case Some(p) => if p < |accounts| then Ancestor(accounts, p, k - 1) else None
  }

  /** In a leveled chart the parent links form a forest: from any account exactly `level - 1`
      links lead to a root. */
  lemma {:induction false} LevelIsDepth(accounts: seq<Account>, i: nat)
    requires Leveled(accounts) && i < |accounts|
    ensures accounts[i].level >= 1
    ensures var root := Ancestor(accounts, i, accounts[i].level - 1);
            root.Some? && accounts[root.value].parent.None?
    ensures Ancestor(accounts, i, accounts[i].level).None?
    decreases accounts[i].level
  {
    assert LeveledAt(accounts, i);
    if accounts[i].parent.Some? {
      LevelIsDepth(accounts, accounts[i].parent.value);
    }
  }

  /** Runs of seeding and creating, from an empty chart, keep the forest. */
  lemma {:induction false} CreationKeepsForest(ops: seq<ChartOp>)
    requires forall k :: 0 <= k < |ops| ==> !ops[k].UpdateAccount?
    ensures Leveled(ApplyAll([], ops))
  {
    if ops != [] {
      CreationKeepsForest(ops[..|ops| - 1]);
      var before, op := ApplyAll([], ops[..|ops| - 1]), ops[|ops| - 1];
      match op {
        case Seed => SeedsIffEmpty(before); SeededChart();
        case CreateAccount(code, kind, parent) =>
          if NewAccount(before, code, kind, parent).Ok? {
            if parent.ParentId? {
              LevelIsDepth(before, parent.id);
            }
            GrowLeveled(before, NewAccount(before, code, kind, parent).value);
          }
      }
    }
  }

  /** An update keeps the forest exactly when the new parent sits one level up, or there is none
      and the account was a root by level. Renaming a nested account without repeating its
      parent therefore breaks it. */
  lemma UpdateKeepsForestIff(accounts: seq<Account>, id: nat, parent: ParentField, active: Option<bool>)
    requires Leveled(accounts) && Updated(accounts, id, parent, active).Ok?
    ensures Leveled(Apply(accounts, UpdateAccount(id, parent, active))) <==>
        if parent.ParentId? then accounts[id].level == accounts[parent.id].level + 1 else accounts[id].level == 1
  {
    var after := Apply(accounts, UpdateAccount(id, parent, active));
    if parent.ParentId? {
      LevelIsDepth(accounts, parent.id);
    }
    if LeveledAt(after, id) {
      forall i | 0 <= i < |after| ensures LeveledAt(after, i) {
        assert LeveledAt(accounts, i);
      }
    }
  }

  /** A custom account can be made its own parent. */
  lemma {:induction false} UpdateCanMakeACycle(name: string)
    ensures var run := [CreateAccount(Custom(name), Some(Asset), NoParent), UpdateAccount(0, ParentId(0), None)];
            var after := ApplyAll([], run);
            |after| == 1 && after[0].parent == Some(0) && !Leveled(after)
  {
    var first := CreateAccount(Custom(name), Some(Asset), NoParent);
    var second := UpdateAccount(0, ParentId(0), None);
    assert [first, second][..1] == [first] && [first][..0] == [];
    assert ApplyAll([], [first]) == Apply([], first);
    var after := ApplyAll([], [first, second]);
    assert after == Apply(Apply([], first), second);
    assert !LeveledAt(after, 0);
  }
}
