/** What the books hold after a create request, said of the request itself: whether it is stored,
    with which fields, and with which lines. */
module Requests {
  import opened Prelude
  import opened Money
  import opened Rules
  import opened Chart
  import opened Books
  import opened Journals
  import Sums

  /** Nothing is wrong with the request by itself. */
  predicate Complete(req: CreateRequest) {
    && req.kind.Some? && !req.mode.Unknown? && req.paymentMethodOk
    && req.period.Some? && req.amount > 0.0 && req.counterpartyOk
  }

  /** It brings its own journal entries. */
  predicate ByHand(req: CreateRequest) {
    req.mode == Given(Advanced) && req.entries != []
  }

  // ----- Journals entered by hand -----

  predicate EntryWorks(accounts: seq<Account>, e: ManualEntry) {
    FindByCode(accounts, e.code).Some? && ((e.debit > 0 && e.credit == 0) || (e.debit == 0 && e.credit > 0))
  }

  /** Line for line, the entries: the account of each code, and each amount on its own side. */
  predicate AreEntries(accounts: seq<Account>, entries: seq<ManualEntry>, ls: seq<Line>) {
    && |ls| == |entries|
    && forall k :: 0 <= k < |ls| ==>
        FindByCode(accounts, entries[k].code) == Some(ls[k].account)
        && ls[k].debit == entries[k].debit && ls[k].credit == entries[k].credit
  }

  function Debits(entries: seq<ManualEntry>): nat -> int {
    (k: nat) => if k < |entries| then entries[k].debit else 0
  }

  function Credits(entries: seq<ManualEntry>): nat -> int {
    (k: nat) => if k < |entries| then entries[k].credit else 0
  }

  /** The entries' own sums differ by a cent at most. */
  predicate EntriesBalance(entries: seq<ManualEntry>) {
    -1 <= Sums.SumTo(Debits(entries), |entries|) - Sums.SumTo(Credits(entries), |entries|) <= 1
  }

  lemma {:induction false} ManualLinesAreEntries(accounts: seq<Account>, entries: seq<ManualEntry>, n: nat)
    requires n <= |entries|
    ensures ManualLines(accounts, entries, n).Ok? <==> forall k :: 0 <= k < n ==> EntryWorks(accounts, entries[k])
    ensures ManualLines(accounts, entries, n).Ok? ==> AreEntries(accounts, entries[..n], ManualLines(accounts, entries, n).value)
  {
    if n > 0 {
      ManualLinesAreEntries(accounts, entries, n - 1);
      assert entries[..n] == entries[..n - 1] + [entries[n - 1]];
    }
  }

  predicate SameAmounts(entries: seq<ManualEntry>, ls: seq<Line>) {
    && |ls| == |entries|
    && forall k :: 0 <= k < |ls| ==> ls[k].debit == entries[k].debit && ls[k].credit == entries[k].credit
  }

  lemma {:induction false} EntrySums(entries: seq<ManualEntry>, ls: seq<Line>, n: nat)
    requires SameAmounts(entries, ls) && n <= |ls|
    ensures SumDebit(ls[..n]) == Sums.SumTo(Debits(entries), n) && SumCredit(ls[..n]) == Sums.SumTo(Credits(entries), n)
  {
    if n > 0 {
      EntrySums(entries, ls, n - 1);
      assert ls[..n] == ls[..n - 1] + [ls[n - 1]];
      SumsAppend(ls[..n - 1], ls[n - 1], 0);
    }
  }

  lemma AddsOne(b: Books, req: CreateRequest)
    ensures Create(b, req) != b <==> NewTx(b.accounts, req).Ok?
  {
    if NewTx(b.accounts, req).Ok? {
      assert |Create(b, req).txs| == |b.txs| + 1;
    }
  }

  lemma {:induction false} EntriesPass(accounts: seq<Account>, entries: seq<ManualEntry>)
    ensures var made := ManualLines(accounts, entries, |entries|);
            (made.Ok? && BalancesEqual(SumDebit(made.value), SumCredit(made.value))) <==>
            (EntriesBalance(entries) && forall k :: 0 <= k < |entries| ==> EntryWorks(accounts, entries[k]))
  {
    var n := |entries|;
    ManualLinesAreEntries(accounts, entries, n);
    assert entries[..n] == entries;
    var made := ManualLines(accounts, entries, n);
    if made.Ok? {
      EntrySums(entries, made.value, n);
      assert made.value[..n] == made.value;
    }
  }

  lemma CompleteIff(req: CreateRequest)
    requires ByHand(req)
    ensures Validate(req).Ok? <==> Complete(req)
  {
  }

  /** A request with its own entries is stored exactly when it is complete, every code names an
      account, every entry has one positive side, and the entries balance to a cent. */
  lemma {:induction false} EntriesStoredIff(b: Books, req: CreateRequest)
    requires ByHand(req)
    ensures Create(b, req) != b <==>
            Complete(req) && EntriesBalance(req.entries) && forall k :: 0 <= k < |req.entries| ==> EntryWorks(b.accounts, req.entries[k])
  {
    AddsOne(b, req);
    CompleteIff(req);
    EntriesPass(b.accounts, req.entries);
  }

  /** And then its lines are its entries. */
  lemma {:induction false} EntriesStored(b: Books, req: CreateRequest)
    requires ByHand(req) && Create(b, req) != b
    ensures var txs := Create(b, req).txs;
            |txs| == |b.txs| + 1 && AreEntries(b.accounts, req.entries, txs[|b.txs|].lines)
  {
    AddsOne(b, req);
    ManualLinesAreEntries(b.accounts, req.entries, |req.entries|);
    assert req.entries[..|req.entries|] == req.entries;
  }

  // ----- Generated journals -----

  predicate Splits(req: CreateRequest, category: Category) {
    req.includesTax || category == PenjualanDenganPpn || category == PembelianDenganPpn
  }

  /** The cents of the amount without the tax it includes, and of the tax. */
  function BaseCents(req: CreateRequest, category: Category): int {
    ToCents(if Splits(req, category) then req.amount / (1.0 + EffectiveRate(req.taxProfile)) else req.amount)
  }

  function TaxCents(req: CreateRequest, category: Category): int {
    if Splits(req, category) then ToCents(req.amount - req.amount / (1.0 + EffectiveRate(req.taxProfile))) else 0
  }

  lemma SplitCents(req: CreateRequest, category: Category)
    ensures ToCents(RequestSplit(req, category).base) == BaseCents(req, category)
    ensures ToCents(RequestSplit(req, category).tax) == TaxCents(req, category)
  {
  }

  /** A pair posts the tax exactly when it is an additional one on a tax account. */
  function PairAmount(req: CreateRequest, category: Category, pairs: seq<JournalRule>, k: nat): int
    requires k < |pairs|
  {
    if k > 0 && Splits(req, category) && (pairs[k].debit == PPN_MASUKAN || pairs[k].credit == PPN_KELUARAN)
    then TaxCents(req, category) else BaseCents(req, category)
  }

  /** The tax accounts stand in no pair but the two of the PPN categories. */
  lemma TaxAccountPairs(kind: TxType, category: Category, k: nat)
    requires GetJournalRule(kind, category).Some? && 0 < k < |GetJournalRule(kind, category).value.Pairs()|
    ensures var p := GetJournalRule(kind, category).value.Pairs()[k];
            IsPpnPair(p) <==> p.debit == PPN_MASUKAN || p.credit == PPN_KELUARAN
  {
    PpnPairIff(kind, category);
  }

  lemma PairAmountIs(req: CreateRequest, kind: TxType, category: Category, k: nat)
    requires GetJournalRule(kind, category).Some? && k < |GetJournalRule(kind, category).value.Pairs()|
    ensures var pairs := GetJournalRule(kind, category).value.Pairs();
            PairCents(pairs, k, RequestSplit(req, category)) == PairAmount(req, category, pairs, k)
  {
    if k > 0 {
      TaxAccountPairs(kind, category, k);
    }
  }

  /** The rule of a category can be posted: each code names an account and no pair is left without
      a cent. */
  predicate RuleWorks(accounts: seq<Account>, req: CreateRequest, kind: TxType, category: Category) {
    && GetJournalRule(kind, category).Some?
    && var pairs := GetJournalRule(kind, category).value.Pairs();
       forall k :: 0 <= k < |pairs| ==>
         FindByCode(accounts, pairs[k].debit).Some? && FindByCode(accounts, pairs[k].credit).Some? && PairAmount(req, category, pairs, k) >= 1
  }

  lemma {:induction false} RuleWorksIff(accounts: seq<Account>, req: CreateRequest, kind: TxType, category: Category)
    ensures AutoLines(accounts, kind, category, RequestSplit(req, category)).Ok? <==> RuleWorks(accounts, req, kind, category)
  {
    var rule := GetJournalRule(kind, category);
    if rule.Some? {
      var pairs, s := rule.value.Pairs(), RequestSplit(req, category);
      RuleLinesOkIff(accounts, pairs, s, |pairs|);
      forall k | 0 <= k < |pairs| ensures PairCents(pairs, k, s) == PairAmount(req, category, pairs, k) {
        PairAmountIs(req, kind, category, k);
      }
    }
  }

  /** Any other request is stored exactly when it is complete, is a JOURNAL request or has a rule
      that works, and outside ADVANCED mode names or is given a category of its type. */
  lemma {:induction false} GeneratedStoredIff(b: Books, req: CreateRequest)
    requires !ByHand(req)
    ensures Create(b, req) != b <==>
            && Complete(req)
            && (req.kind != Some(Journal) ==>
                && RuleWorks(b.accounts, req, req.kind.value, ChosenCategory(req))
                && (req.mode != Given(Advanced) ==> IsValidCategoryForType(ChosenCategory(req), req.kind.value)))
  {
    AddsOne(b, req);
    if Complete(req) && req.kind != Some(Journal) {
      GeneratedNeverMismatches(b.accounts, req);
      RuleWorksIff(b.accounts, req, req.kind.value, ChosenCategory(req));
    }
  }

  // ----- The record -----

  /** The transaction says what the request said. */
  predicate Records(tx: Tx, req: CreateRequest) {
    && Some(tx.kind) == req.kind && Some(tx.period) == req.period
    && tx.mode == (if req.mode.Given? then req.mode.mode else Simple)
    && tx.status == Draft && tx.reverses == None
    && tx.amount as real - 0.5 <= req.amount < tx.amount as real + 0.5
    && tx.tax == TaxCents(req, tx.category)
    && (if tx.mode == Simple && tx.kind != Journal && req.category == Unlisted("")
        then tx.category == Categorize(tx.kind, req.ai).0 else tx.category == req.category)
  }

  lemma {:induction false} NewTxRecords(accounts: seq<Account>, req: CreateRequest)
    ensures NewTx(accounts, req).Ok? ==> Records(NewTx(accounts, req).value, req)
  {
  }

  /** What is stored is one draft that records the request, with its created event, and nothing
      else changes. */
  lemma {:induction false} RequestRecorded(b: Books, req: CreateRequest)
    requires Create(b, req) != b
    ensures var after := Create(b, req);
            && |after.txs| == |b.txs| + 1 && Records(after.txs[|b.txs|], req)
            && after == b.(txs := b.txs + [after.txs[|b.txs|]], outbox := b.outbox + [TransactionCreated(|b.txs|, false)])
  {
    AddsOne(b, req);
    NewTxRecords(b.accounts, req);
  }
}
