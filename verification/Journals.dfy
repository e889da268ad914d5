/** What the journal-creating functions promise: exact pairs, the tax split, and how swapping
    the sides of a journal negates its effect. */
module Journals {
  import opened Prelude
  import opened Money
  import opened Rules
  import opened Chart
  import opened ChartRuns
  import opened Books

  lemma SumsAppend(ls: seq<Line>, l: Line, account: nat)
    ensures SumDebit(ls + [l]) == SumDebit(ls) + l.debit
    ensures SumCredit(ls + [l]) == SumCredit(ls) + l.credit
    ensures DebitOn(ls + [l], account) == DebitOn(ls, account) + if l.account == account then l.debit else 0
    ensures CreditOn(ls + [l], account) == CreditOn(ls, account) + if l.account == account then l.credit else 0
  {
    assert (ls + [l])[..|ls|] == ls;
  }

  /** Swapping the sides negates a journal's drift and its effect on every account. */
  lemma {:induction false} SwapNegates(ls: seq<Line>, account: nat)
    ensures SumDebit(SwapAll(ls)) == SumCredit(ls) && SumCredit(SwapAll(ls)) == SumDebit(ls)
    ensures DebitOn(SwapAll(ls), account) == CreditOn(ls, account)
    ensures CreditOn(SwapAll(ls), account) == DebitOn(ls, account)
  {
    if ls != [] {
      SwapNegates(ls[..|ls| - 1], account);
      assert SwapAll(ls)[..|ls| - 1] == SwapAll(ls[..|ls| - 1]);
    }
  }

  predicate AllStorable(ls: seq<Line>) {
    forall i :: 0 <= i < |ls| ==> ls[i].Storable()
  }

  /** The lines of a rule come in debit/credit pairs of equal, positive value on the two
      accounts of each pair. */
  predicate ArePairs(accounts: seq<Account>, pairs: seq<JournalRule>, s: Split, n: nat, ls: seq<Line>)
    requires n <= |pairs|
  {
    && |ls| == 2 * n
    && forall k :: 0 <= k < n ==>
        && FindByCode(accounts, pairs[k].debit).Some?
        && FindByCode(accounts, pairs[k].credit).Some?
        && PairCents(pairs, k, s) > 0
        && ls[2 * k] == Line(FindByCode(accounts, pairs[k].debit).value, PairCents(pairs, k, s), 0)
        && ls[2 * k + 1] == Line(FindByCode(accounts, pairs[k].credit).value, 0, PairCents(pairs, k, s))
  }

  /** A pair can be posted: both codes resolve and rounding leaves it at least a cent. */
  predicate PairWorks(accounts: seq<Account>, p: JournalRule, cents: int) {
    FindByCode(accounts, p.debit).Some? && FindByCode(accounts, p.credit).Some? && cents > 0
  }

  /** For any rule with any number of pairs, the loop succeeds exactly when every pair works. */
  lemma {:induction false} RuleLinesOkIff(accounts: seq<Account>, pairs: seq<JournalRule>, s: Split, n: nat)
    requires n <= |pairs|
    ensures RuleLines(accounts, pairs, s, n) != Err(DebitCreditMismatch)
    ensures RuleLines(accounts, pairs, s, n).Ok? <==>
        forall k :: 0 <= k < n ==> PairWorks(accounts, pairs[k], PairCents(pairs, k, s))
  {
    if n > 0 {
      RuleLinesOkIff(accounts, pairs, s, n - 1);
    }
  }

  lemma {:induction false} RuleLinesArePairs(accounts: seq<Account>, pairs: seq<JournalRule>, s: Split, n: nat)
    requires n <= |pairs| && RuleLines(accounts, pairs, s, n).Ok?
    ensures ArePairs(accounts, pairs, s, n, RuleLines(accounts, pairs, s, n).value)
  {
    if n > 0 {
      RuleLinesArePairs(accounts, pairs, s, n - 1);
      var before := RuleLines(accounts, pairs, s, n - 1).value;
      var ls := RuleLines(accounts, pairs, s, n).value;
      assert ls[..2 * (n - 1)] == before;
      forall k | 0 <= k < n - 1 ensures ls[2 * k] == before[2 * k] && ls[2 * k + 1] == before[2 * k + 1] {
      }
    }
  }

  /** Each pair is exact, so the whole journal is. */
  lemma {:induction false} PairsBalance(accounts: seq<Account>, pairs: seq<JournalRule>, s: Split, n: nat, ls: seq<Line>)
    requires n <= |pairs| && ArePairs(accounts, pairs, s, n, ls)
    ensures Drift(ls) == 0
  {
    if n > 0 {
      var before := ls[..2 * (n - 1)];
      PairsBalance(accounts, pairs, s, n - 1, before);
      SumsAppend(before, ls[2 * n - 2], 0);
      SumsAppend(before + [ls[2 * n - 2]], ls[2 * n - 1], 0);
      assert ls == before + [ls[2 * n - 2]] + [ls[2 * n - 1]];
    }
  }

  lemma PairsFit(accounts: seq<Account>, pairs: seq<JournalRule>, s: Split, n: nat, ls: seq<Line>)
    requires n <= |pairs| && ArePairs(accounts, pairs, s, n, ls)
    ensures AllStorable(ls) && Resolves(accounts, ls)
  {
    forall i | 0 <= i < |ls| ensures ls[i].Storable() && ls[i].account < |accounts| {
      var k := i / 2;
      assert 0 <= k < n && (i == 2 * k || i == 2 * k + 1);
      assert ls[2 * k] == Line(FindByCode(accounts, pairs[k].debit).value, PairCents(pairs, k, s), 0);
    }
  }

  /** A generated journal always balances exactly, so the create check never refuses it. */
  lemma {:induction false} AutoLinesExact(accounts: seq<Account>, kind: TxType, category: Category, s: Split)
    ensures var r := AutoLines(accounts, kind, category, s);
            r.Ok? ==> Drift(r.value) == 0 && |r.value| >= 2 && AllStorable(r.value) && Resolves(accounts, r.value)
  {
    var rule := GetJournalRule(kind, category);
    if rule.Some? {
      var pairs := rule.value.Pairs();
      var r := RuleLines(accounts, pairs, s, |pairs|);
      if r.Ok? {
        RuleLinesArePairs(accounts, pairs, s, |pairs|);
        PairsBalance(accounts, pairs, s, |pairs|, r.value);
        PairsFit(accounts, pairs, s, |pairs|, r.value);
      }
    }
  }

  lemma {:induction false} ManualLinesStorable(accounts: seq<Account>, entries: seq<ManualEntry>, n: nat)
    requires n <= |entries|
    ensures var r := ManualLines(accounts, entries, n);
            r.Ok? ==> |r.value| == n && AllStorable(r.value) && Resolves(accounts, r.value)
  {
    if n > 0 {
      ManualLinesStorable(accounts, entries, n - 1);
    }
  }

  /** Every transaction a request can create: a draft without a reversal link, whose journal
      fits the table, balances to a cent, and exactly unless it was entered by hand. It has no
      lines precisely when it is a JOURNAL request that gave none in ADVANCED mode. */
  lemma {:induction false} NewTxJournal(accounts: seq<Account>, req: CreateRequest)
    ensures var r := NewTx(accounts, req);
            r.Ok? ==>
              && r.value.status == Draft && r.value.reverses == None
              && AllStorable(r.value.lines) && Resolves(accounts, r.value.lines)
              && BalancesEqual(SumDebit(r.value.lines), SumCredit(r.value.lines))
              && (!UsesManualLines(req) ==> Drift(r.value.lines) == 0)
              && (r.value.lines == [] <==> req.kind == Some(Journal) && !UsesManualLines(req))
  {
    var r := NewTx(accounts, req);
    if r.Ok? {
      var category := ChosenCategory(req);
      assert RequestLines(accounts, req, category) == Ok(r.value.lines);
      if UsesManualLines(req) {
        ManualLinesStorable(accounts, req.entries, |req.entries|);
      } else if req.kind.value != Journal {
        AutoLinesExact(accounts, req.kind.value, category, RequestSplit(req, category));
      }
    }
  }

  /** A request whose journal is generated is never refused for debit and credit differing. */
  lemma GeneratedNeverMismatches(accounts: seq<Account>, req: CreateRequest)
    requires !UsesManualLines(req)
    ensures NewTx(accounts, req) != Err(DebitCreditMismatch)
  {
    if req.kind.Some? && req.kind.value != Journal {
      var s := RequestSplit(req, ChosenCategory(req));
      AutoLinesExact(accounts, req.kind.value, ChosenCategory(req), s);
      var rule := GetJournalRule(req.kind.value, ChosenCategory(req));
      if rule.Some? {
        RuleLinesOkIff(accounts, rule.value.Pairs(), s, |rule.value.Pairs()|);
      }
    }
  }

  /** A rule all of whose codes resolve, and whose one additional pair is the tax pair exactly
      when the category is a PPN category. */
  predicate RuleFits(accounts: seq<Account>, rule: MultiJournalRule, ppn: bool) {
    && (forall p :: p in rule.Pairs() ==> FindByCode(accounts, p.debit).Some? && FindByCode(accounts, p.credit).Some?)
    && (ppn ==> |rule.additional| == 1)
    && (forall p :: p in rule.additional ==> (IsPpnPair(p) <==> ppn))
  }

  lemma {:induction false} SeededPairsResolve(ops: seq<ChartOp>, kind: TxType, category: Category, pairs: seq<JournalRule>)
    requires GetJournalRule(kind, category).Some? && pairs == GetJournalRule(kind, category).value.Pairs()
    ensures var accounts := Chart.ApplyAll(Chart.Apply([], Seed), ops);
            forall p :: p in pairs ==> FindByCode(accounts, p.debit).Some? && FindByCode(accounts, p.credit).Some?
  {
    RuleExistsIff(kind, category);
    var accounts := Chart.ApplyAll(Chart.Apply([], Seed), ops);
    forall k | 0 <= k < |pairs|
      ensures FindByCode(accounts, pairs[k].debit).Some? && FindByCode(accounts, pairs[k].credit).Some?
    {
      RulesResolve(ops, kind, category, k);
    }
  }

  lemma AdditionalFits(rule: MultiJournalRule, ppn: bool)
    requires |rule.additional| <= 1 && (ppn ==> |rule.additional| == 1)
    requires (exists p :: p in rule.additional && IsPpnPair(p)) <==> ppn
    ensures forall p :: p in rule.additional ==> (IsPpnPair(p) <==> ppn)
  {
  }

  lemma {:induction false} SeededRuleFits(ops: seq<ChartOp>, kind: TxType, category: Category)
    requires GetJournalRule(kind, category).Some?
    ensures RuleFits(Chart.ApplyAll(Chart.Apply([], Seed), ops), GetJournalRule(kind, category).value, IsPpnCategory(category))
  {
    var rule := GetJournalRule(kind, category).value;
    PpnPairIff(kind, category);
    AdditionalFits(rule, IsPpnCategory(category));
    SeededPairsResolve(ops, kind, category, rule.Pairs());
  }

  /** Such a rule's journal is refused exactly when rounding leaves one of its pairs without a
      cent. */
  lemma FittingRuleWorksIff(accounts: seq<Account>, rule: MultiJournalRule, s: Split, ppn: bool)
    requires RuleFits(accounts, rule, ppn) && (ppn ==> s.applies)
    ensures LinesForRule(accounts, Some(rule), s).Ok? <==> ToCents(s.base) > 0 && (ppn ==> ToCents(s.tax) > 0)
  {
    var pairs := rule.Pairs();
    RuleLinesOkIff(accounts, pairs, s, |pairs|);
    forall k | 0 <= k < |pairs|
      ensures PairWorks(accounts, pairs[k], PairCents(pairs, k, s)) <==> ToCents(if k > 0 && ppn then s.tax else s.base) > 0
    {
      assert pairs[k] in pairs;
      if k > 0 {
        assert pairs[k] == rule.additional[k - 1] && pairs[k] in rule.additional;
      }
    }
    assert PairWorks(accounts, pairs[0], PairCents(pairs, 0, s)) <==> ToCents(s.base) > 0;
    if ppn {
      assert PairWorks(accounts, pairs[1], PairCents(pairs, 1, s)) <==> ToCents(s.tax) > 0;
    }
  }

  /** On a workspace seeded first, a SIMPLE request with a whitelisted type, a positive amount
      and nothing else wrong is refused exactly when rounding leaves a pair without a cent. */
  lemma {:induction false} SeededSimpleSucceedsIff(ops: seq<ChartOp>, req: CreateRequest)
    requires req.kind.Some? && HasWhitelist(req.kind.value) && EffectiveMode(req.mode) == Simple && !req.mode.Unknown?
    requires req.paymentMethodOk && req.period.Some? && req.amount > 0.0 && req.counterpartyOk
    requires req.category == NO_CATEGORY || IsValidCategoryForType(req.category, req.kind.value)
    ensures var category := ChosenCategory(req);
            var s := RequestSplit(req, category);
            NewTx(Chart.ApplyAll(Chart.Apply([], Seed), ops), req).Ok? <==>
              ToCents(s.base) > 0 && (IsPpnCategory(category) ==> ToCents(s.tax) > 0)
  {
    var category := ChosenCategory(req);
    CategorizeAlwaysListed(req.kind.value, req.ai);
    RuleExistsIff(req.kind.value, category);
    SeededRuleFits(ops, req.kind.value, category);
    FittingRuleWorksIff(Chart.ApplyAll(Chart.Apply([], Seed), ops), GetJournalRule(req.kind.value, category).value,
      RequestSplit(req, category), IsPpnCategory(category));
    AutoLinesExact(Chart.ApplyAll(Chart.Apply([], Seed), ops), req.kind.value, category, RequestSplit(req, category));
  }

  /** The account a code names, when there is one. */
  function AccountOf(accounts: seq<Account>, code: AccountCode): nat {
    var r := FindByCode(accounts, code);
    if r.Some? then r.value else |accounts|
  }

  lemma NetOfPairs(d1: nat, c1: nat, x: int, d2: nat, c2: nat, y: int, account: nat)
    ensures NetOn([Line(d1, x, 0), Line(c1, 0, x), Line(d2, y, 0), Line(c2, 0, y)], account)
         == (if d1 == account then x else 0) - (if c1 == account then x else 0)
          + (if d2 == account then y else 0) - (if c2 == account then y else 0)
  {
    var l1, l2, l3, l4 := Line(d1, x, 0), Line(c1, 0, x), Line(d2, y, 0), Line(c2, 0, y);
    SumsAppend([], l1, account);
    SumsAppend([l1], l2, account);
    SumsAppend([l1, l2], l3, account);
    SumsAppend([l1, l2, l3], l4, account);
    assert [] + [l1] == [l1] && [l1] + [l2] == [l1, l2] && [l1, l2] + [l3] == [l1, l2, l3];
    assert [l1, l2, l3] + [l4] == [l1, l2, l3, l4];
  }

  /** In the two PPN categories, at any rate and for any amount, the cash account moves by the
      sum of the two rounded parts, the tax account by the rounded tax, and that is also the
      tax stored with the transaction. */
  lemma {:induction false} PpnMovesCash(accounts: seq<Account>, req: CreateRequest)
    requires NewTx(accounts, req).Ok? && !UsesManualLines(req) && req.kind != Some(Journal)
    requires IsPpnCategory(ChosenCategory(req))
    ensures var tx := NewTx(accounts, req).value;
            var s := RequestSplit(req, ChosenCategory(req));
            && tx.tax == ToCents(s.tax)
            && (tx.kind == Sales ==>
                NetOn(tx.lines, AccountOf(accounts, KAS)) == ToCents(s.base) + ToCents(s.tax)
                && NetOn(tx.lines, AccountOf(accounts, PPN_KELUARAN)) == -tx.tax)
            && (tx.kind != Sales ==>
                NetOn(tx.lines, AccountOf(accounts, KAS)) == -(ToCents(s.base) + ToCents(s.tax))
                && NetOn(tx.lines, AccountOf(accounts, PPN_MASUKAN)) == tx.tax)
  {
    var tx, s := NewTx(accounts, req).value, RequestSplit(req, ChosenCategory(req));
    PpnJournal(accounts, req);
    PpnNets(accounts, GetJournalRule(tx.kind, ChosenCategory(req)).value.Pairs(), ToCents(s.base), ToCents(s.tax), tx.lines);
  }

  predicate IsPpnSalePairs(pairs: seq<JournalRule>) { pairs == [Pair(KAS, Std(4, 1001)), Pair(KAS, PPN_KELUARAN)] }

  predicate IsPpnPurchasePairs(pairs: seq<JournalRule>) { pairs == [Pair(PERSEDIAAN, KAS), Pair(PPN_MASUKAN, KAS)] }

  predicate AreFourLines(accounts: seq<Account>, pairs: seq<JournalRule>, x: int, y: int, ls: seq<Line>) {
    && |pairs| == 2
    && (forall k :: 0 <= k < 2 ==> FindByCode(accounts, pairs[k].debit).Some? && FindByCode(accounts, pairs[k].credit).Some?)
    && ls == [Line(AccountOf(accounts, pairs[0].debit), x, 0), Line(AccountOf(accounts, pairs[0].credit), 0, x),
              Line(AccountOf(accounts, pairs[1].debit), y, 0), Line(AccountOf(accounts, pairs[1].credit), 0, y)]
  }

  /** The four lines of a transaction in a PPN category. */
  lemma {:induction false} PpnJournal(accounts: seq<Account>, req: CreateRequest)
    requires NewTx(accounts, req).Ok? && !UsesManualLines(req) && req.kind != Some(Journal)
    requires IsPpnCategory(ChosenCategory(req))
    ensures var tx := NewTx(accounts, req).value;
            var s := RequestSplit(req, ChosenCategory(req));
            && tx.tax == ToCents(s.tax)
            && GetJournalRule(tx.kind, ChosenCategory(req)).Some?
            && var pairs := GetJournalRule(tx.kind, ChosenCategory(req)).value.Pairs();
               && (if tx.kind == Sales then IsPpnSalePairs(pairs) else IsPpnPurchasePairs(pairs))
               && AreFourLines(accounts, pairs, ToCents(s.base), ToCents(s.tax), tx.lines)
  {
    var tx, category := NewTx(accounts, req).value, ChosenCategory(req);
    assert AutoLines(accounts, tx.kind, category, RequestSplit(req, category)) == Ok(tx.lines);
    PpnRulePairs(tx.kind, category);
    PpnFourLines(accounts, GetJournalRule(tx.kind, category).value.Pairs(), RequestSplit(req, category), tx.lines);
  }

  lemma PpnRulePairs(kind: TxType, category: Category)
    requires IsPpnCategory(category) && GetJournalRule(kind, category).Some?
    ensures var pairs := GetJournalRule(kind, category).value.Pairs();
            if kind == Sales then IsPpnSalePairs(pairs) else IsPpnPurchasePairs(pairs)
  {
  }

  lemma PpnNets(accounts: seq<Account>, pairs: seq<JournalRule>, x: int, y: int, ls: seq<Line>)
    requires AreFourLines(accounts, pairs, x, y, ls)
    ensures IsPpnSalePairs(pairs) ==>
        NetOn(ls, AccountOf(accounts, KAS)) == x + y && NetOn(ls, AccountOf(accounts, PPN_KELUARAN)) == -y
    ensures IsPpnPurchasePairs(pairs) ==>
        NetOn(ls, AccountOf(accounts, KAS)) == -(x + y) && NetOn(ls, AccountOf(accounts, PPN_MASUKAN)) == y
  {
    var d1, c1 := AccountOf(accounts, pairs[0].debit), AccountOf(accounts, pairs[0].credit);
    var d2, c2 := AccountOf(accounts, pairs[1].debit), AccountOf(accounts, pairs[1].credit);
    NetOfPairs(d1, c1, x, d2, c2, y, AccountOf(accounts, KAS));
    NetOfPairs(d1, c1, x, d2, c2, y, AccountOf(accounts, PPN_KELUARAN));
    NetOfPairs(d1, c1, x, d2, c2, y, AccountOf(accounts, PPN_MASUKAN));
  }

  lemma PpnFourLines(accounts: seq<Account>, pairs: seq<JournalRule>, s: Split, ls: seq<Line>)
    requires |pairs| == 2 && s.applies && IsPpnPair(pairs[1]) && RuleLines(accounts, pairs, s, 2) == Ok(ls)
    ensures FindByCode(accounts, pairs[0].debit).Some? && FindByCode(accounts, pairs[0].credit).Some?
    ensures FindByCode(accounts, pairs[1].debit).Some? && FindByCode(accounts, pairs[1].credit).Some?
    ensures ls == [Line(AccountOf(accounts, pairs[0].debit), ToCents(s.base), 0),
                   Line(AccountOf(accounts, pairs[0].credit), 0, ToCents(s.base)),
                   Line(AccountOf(accounts, pairs[1].debit), ToCents(s.tax), 0),
                   Line(AccountOf(accounts, pairs[1].credit), 0, ToCents(s.tax))]
  {
    RuleLinesArePairs(accounts, pairs, s, 2);
    assert ls[2 * 0] == Line(FindByCode(accounts, pairs[0].debit).value, PairCents(pairs, 0, s), 0);
    assert ls[2 * 1] == Line(FindByCode(accounts, pairs[1].debit).value, PairCents(pairs, 1, s), 0);
  }

  /** So for a PPN sale or purchase of whole cents the cash account moves by exactly the full
      amount, except when the base falls on a half cent of an odd amount; at 11%, always. */
  lemma {:induction false} PpnMovesFullAmountIff(accounts: seq<Account>, req: CreateRequest, cents: int)
    requires NewTx(accounts, req).Ok? && !UsesManualLines(req) && req.kind != Some(Journal)
    requires IsPpnCategory(ChosenCategory(req)) && req.amount == cents as real
    ensures var tx := NewTx(accounts, req).value;
            var base := RequestSplit(req, ChosenCategory(req)).base;
            var moved := NetOn(tx.lines, AccountOf(accounts, KAS));
            && ((if tx.kind == Sales then moved else -moved) == cents <==> !HalfCent(base) || cents % 2 == 0)
            && (EffectiveRate(req.taxProfile) == PPN_RATE ==> (if tx.kind == Sales then moved else -moved) == cents)
  {
    PpnMovesCash(accounts, req);
    SplitExactIff(cents, EffectiveRate(req.taxProfile));
    SplitExactAtPpnRate(cents);
  }

  lemma BaseOnEveryLine(accounts: seq<Account>, pairs: seq<JournalRule>, s: Split, ls: seq<Line>, i: nat)
    requires RuleLines(accounts, pairs, s, |pairs|) == Ok(ls) && i < |ls|
    requires forall k :: 0 < k < |pairs| ==> !IsPpnPair(pairs[k])
    ensures ls[i].debit + ls[i].credit == ToCents(s.base)
  {
    RuleLinesArePairs(accounts, pairs, s, |pairs|);
    var k := i / 2;
    assert i == 2 * k || i == 2 * k + 1;
    assert ls[2 * k] == Line(FindByCode(accounts, pairs[k].debit).value, PairCents(pairs, k, s), 0);
  }

  /** A tax-inclusive request in any other category posts the base only: every line carries it,
      and no line carries the tax that is stored with the transaction. */
  lemma {:induction false} IncludesTaxPostsOnlyBase(accounts: seq<Account>, req: CreateRequest, i: nat)
    requires NewTx(accounts, req).Ok? && !UsesManualLines(req) && req.kind != Some(Journal)
    requires req.includesTax && !IsPpnCategory(ChosenCategory(req))
    requires i < |NewTx(accounts, req).value.lines|
    ensures var tx := NewTx(accounts, req).value;
            var (base, tax) := SplitTax(req.amount, EffectiveRate(req.taxProfile), true);
            tx.lines[i].debit + tx.lines[i].credit == ToCents(base) && tx.tax == ToCents(tax)
  {
    var tx, category := NewTx(accounts, req).value, ChosenCategory(req);
    PpnPairIff(tx.kind, category);
    var rule := GetJournalRule(tx.kind, category).value;
    forall k | 0 < k < |rule.Pairs()| ensures !IsPpnPair(rule.Pairs()[k]) {
      assert rule.Pairs()[k] == rule.additional[k - 1] && rule.Pairs()[k] in rule.additional;
    }
    BaseOnEveryLine(accounts, rule.Pairs(), RequestSplit(req, category), tx.lines, i);
  }
}
