/** The stored books and the three operations that change them in place: the API's create and
    void, and the worker's posting. Each method body follows the handler step by step and is
    proved to commit exactly what the functions of module Books describe. */
module Accounting {
  import opened Prelude
  import opened Money
  import opened Rules
  import opened Chart
  import opened Books

  /** The journal of one rule, pair by pair; nothing is kept when a pair fails. */
  method CreateRuleEntries(accounts: seq<Account>, rule: MultiJournalRule, baseAmount: real, taxAmount: real,
      needsTaxSplit: bool) returns (r: Result<seq<Line>, CreateError>)
    ensures r == RuleLines(accounts, rule.Pairs(), Split(baseAmount, taxAmount, needsTaxSplit), |rule.Pairs()|)
  {
    ghost var pairs, s := rule.Pairs(), Split(baseAmount, taxAmount, needsTaxSplit);
    NextPair(accounts, pairs, s, 0, [], rule.primary, ToCents(baseAmount));
    var primary := PairLines(accounts, rule.primary, ToCents(baseAmount));
    if primary.Err? {
      return Err(primary.error);
    }
    assert [] + primary.value == primary.value;
    r := CreateAdditionalEntries(accounts, rule.additional, baseAmount, taxAmount, needsTaxSplit, primary.value, pairs);
  }

  /** One round of the loop below; pairs of the tax accounts carry the tax. */
  method CreatePair(accounts: seq<Account>, additional: JournalRule, baseAmount: real, taxAmount: real, needsTaxSplit: bool)
    returns (two: Result<seq<Line>, CreateError>)
    ensures two == PairLines(accounts, additional, AdditionalCents(additional, Split(baseAmount, taxAmount, needsTaxSplit)))
  {
    var addAmount := baseAmount;
    if needsTaxSplit && IsPpnPair(additional) {
      addAmount := taxAmount;
    }
    two := PairLines(accounts, additional, ToCents(addAmount));
  }

  function AdditionalCents(p: JournalRule, s: Split): int {
    ToCents(if s.applies && IsPpnPair(p) then s.tax else s.base)
  }

  /** The loop over the additional pairs, after the lines of the primary one. */
  method CreateAdditionalEntries(accounts: seq<Account>, additional: seq<JournalRule>, baseAmount: real, taxAmount: real,
      needsTaxSplit: bool, primaryLines: seq<Line>, ghost pairs: seq<JournalRule>) returns (r: Result<seq<Line>, CreateError>)
    requires |pairs| == |additional| + 1 && forall k :: 0 <= k < |additional| ==> pairs[k + 1] == additional[k]
    requires RuleLines(accounts, pairs, Split(baseAmount, taxAmount, needsTaxSplit), 1) == Ok(primaryLines)
    ensures r == RuleLines(accounts, pairs, Split(baseAmount, taxAmount, needsTaxSplit), |pairs|)
  {
    var lines := primaryLines;
    var k := 0;
    while k < |additional|
      invariant 0 <= k <= |additional|
      invariant RuleLines(accounts, pairs, Split(baseAmount, taxAmount, needsTaxSplit), k + 1) == Ok(lines)
    {
      var two := CreatePair(accounts, additional[k], baseAmount, taxAmount, needsTaxSplit);
      NextAdditional(accounts, pairs, Split(baseAmount, taxAmount, needsTaxSplit), k, lines, additional[k]);
      if two.Err? {
        return Err(two.error);
      }
      lines := lines + two.value;
      k := k + 1;
    }
    r := Ok(lines);
  }

  /** One round: a pair that works adds its lines, a failing one is the outcome of the whole rule. */
  lemma {:induction false} NextPair(accounts: seq<Account>, pairs: seq<JournalRule>, s: Split, k: nat, lines: seq<Line>,
      pair: JournalRule, cents: int)
    requires k < |pairs| && RuleLines(accounts, pairs, s, k) == Ok(lines)
    requires pairs[k] == pair && PairCents(pairs, k, s) == cents
    ensures var two := PairLines(accounts, pair, cents);
            && (two.Ok? ==> RuleLines(accounts, pairs, s, k + 1) == Ok(lines + two.value))
            && (two.Err? ==> RuleLines(accounts, pairs, s, |pairs|) == Err(two.error))
  {
    PairFails(accounts, pairs, s, k);
  }

  lemma NextAdditional(accounts: seq<Account>, pairs: seq<JournalRule>, s: Split, k: nat, lines: seq<Line>, pair: JournalRule)
    requires k + 1 < |pairs| && RuleLines(accounts, pairs, s, k + 1) == Ok(lines) && pairs[k + 1] == pair
    ensures var two := PairLines(accounts, pair, AdditionalCents(pair, s));
            if two.Ok? then RuleLines(accounts, pairs, s, k + 2) == Ok(lines + two.value)
            else RuleLines(accounts, pairs, s, |pairs|) == Err(two.error)
  {
    NextPair(accounts, pairs, s, k + 1, lines, pair, AdditionalCents(pair, s));
  }

  method CreateAutoJournalEntries(accounts: seq<Account>, rule: Option<MultiJournalRule>,
      amount: real, rate: real, needsTaxSplit: bool) returns (r: Result<seq<Line>, CreateError>)
    requires rate > 0.0
    ensures r == LinesForRule(accounts, rule, SplitFor(amount, rate, needsTaxSplit))
  {
    if rule.None? {
      return Err(InvalidCategory);
    }
    var baseAmount, taxAmount := amount, 0.0;
    if needsTaxSplit {
      baseAmount := amount / (1.0 + rate);
      taxAmount := amount - baseAmount;
    }
    r := CreateRuleEntries(accounts, rule.value, baseAmount, taxAmount, needsTaxSplit);
  }

  /** A failing pair is the outcome of the whole rule. */
  lemma {:induction false} PairFails(accounts: seq<Account>, pairs: seq<JournalRule>, s: Split, k: nat)
    requires k < |pairs| && RuleLines(accounts, pairs, s, k).Ok?
    ensures var two := PairLines(accounts, pairs[k], PairCents(pairs, k, s));
            two.Err? ==> RuleLines(accounts, pairs, s, |pairs|) == Err(two.error)
  {
    var two := PairLines(accounts, pairs[k], PairCents(pairs, k, s));
    if two.Err? {
      var n := k + 1;
      while n < |pairs|
        invariant k < n <= |pairs|
        invariant RuleLines(accounts, pairs, s, n) == Err(two.error)
      {
        n := n + 1;
      }
    }
  }

  method CreateManualJournalEntries(accounts: seq<Account>, entries: seq<ManualEntry>)
    returns (r: Result<seq<Line>, CreateError>)
    ensures r == ManualLines(accounts, entries, |entries|)
  {
    var lines: seq<Line> := [];
    var i := 0;
    while i < |entries|
      invariant 0 <= i <= |entries|
      invariant ManualLines(accounts, entries, i) == Ok(lines)
    {
      EntryFails(accounts, entries, i);
      var account := FindByCode(accounts, entries[i].code);
      if account.None? {
        return Err(AccountMissing(entries[i].code));
      }
      var line := Line(account.value, entries[i].debit, entries[i].credit);
      if !line.Storable() {
        return Err(LineRejected);
      }
      lines := lines + [line];
      i := i + 1;
    }
    r := Ok(lines);
  }

  lemma {:induction false} EntryFails(accounts: seq<Account>, entries: seq<ManualEntry>, k: nat)
    requires k < |entries|
    ensures ManualLines(accounts, entries, k + 1).Err? ==>
        ManualLines(accounts, entries, |entries|) == ManualLines(accounts, entries, k + 1)
  {
    var n := k + 1;
    while n < |entries|
      invariant k < n <= |entries|
      invariant ManualLines(accounts, entries, k + 1).Err? ==>
        ManualLines(accounts, entries, n) == ManualLines(accounts, entries, k + 1)
    {
      n := n + 1;
    }
  }

  /** The first of these that is wrong is the one reported. */
  predicate RefusedFor(req: CreateRequest, r: Result<Category, CreateError>) {
    && (r == Err(InvalidTransactionType) <==> req.kind == None)
    && (r == Err(InvalidInputMode) <==> req.kind.Some? && req.mode == Unknown)
    && (r == Err(InvalidPaymentMethod) <==> req.kind.Some? && req.mode != Unknown && !req.paymentMethodOk)
    && (r == Err(InvalidDate) <==> req.kind.Some? && req.mode != Unknown && req.paymentMethodOk && req.period == None)
    && (r == Err(AmountMustBePositive) <==>
        req.kind.Some? && req.mode != Unknown && req.paymentMethodOk && req.period.Some? && req.amount <= 0.0)
    && (r == Err(CounterpartyRejected) || r == Err(InvalidCategory) || r.Ok? <==>
        req.kind.Some? && req.mode != Unknown && req.paymentMethodOk && req.period.Some? && req.amount > 0.0)
    && (r == Err(InvalidCategory) || r.Ok? ==> req.counterpartyOk)
  }

  /** The checks of a create request, and the category it ends up with. */
  method CheckRequest(req: CreateRequest) returns (r: Result<Category, CreateError>)
    ensures r == Validate(req)
    ensures RefusedFor(req, r)
  {
    if req.kind.None? {
      return Err(InvalidTransactionType);
    }
    var kind := req.kind.value;
    if req.mode.Unknown? {
      return Err(InvalidInputMode);
    }
    var mode := if req.mode.Given? then req.mode.mode else Simple;
    if !req.paymentMethodOk {
      return Err(InvalidPaymentMethod);
    }
    if req.period.None? {
      return Err(InvalidDate);
    }
    if req.amount <= 0.0 {
      return Err(AmountMustBePositive);
    }
    if !req.counterpartyOk {
      return Err(CounterpartyRejected);
    }
    var category := req.category;
    if mode == Simple && category == NO_CATEGORY && kind != Journal {
      category := Categorize(kind, req.ai).0;
    }
    if mode != Advanced && kind != Journal {
      if !IsValidCategoryForType(category, kind) {
        return Err(InvalidCategory);
      }
    }
    r := Ok(category);
  }

  /** ADVANCED mode takes the given entries, every other non-JOURNAL request its rule. */
  method CreateJournals(accounts: seq<Account>, req: CreateRequest, category: Category)
    returns (r: Result<seq<Line>, CreateError>)
    requires req.kind.Some?
    ensures r == RequestLines(accounts, req, category)
  {
    if EffectiveMode(req.mode) == Advanced && |req.entries| > 0 {
      r := CreateManualJournalEntries(accounts, req.entries);
    } else if req.kind.value != Journal {
      r := CreateAutoJournalEntries(accounts, GetJournalRule(req.kind.value, category), req.amount,
        EffectiveRate(req.taxProfile), req.includesTax || IsPpnCategory(category));
    } else {
      r := Ok([]);
    }
  }

  /** One round of the worker's loop: read the last balance of the account, insert the ledger
      entry with the new one, fold it into its period. */
  method PostJournal(accounts: seq<Account>, w: Tables, t: nat, tx: Tx, i: nat, stamp: Stamp) returns (after: Tables)
    requires i < |tx.lines| && tx.lines[i].account < |accounts|
    ensures after == PostLine(accounts, w, t, tx, i, stamp)
  {
    var journal := tx.lines[i];
    var account := accounts[journal.account];
    var last := LastEntry(w.ledger, |w.ledger|, journal.account);
    var currentBalance := 0;
    if last.Some? {
      currentBalance := w.ledger[last.value].running;
    }
    var newBalance := ApplyNormal(currentBalance, journal.debit, journal.credit, account.normal);
    var entry := LedgerEntry(journal.account, t, i, tx.period, journal.debit, journal.credit,
                             newBalance, stamp.now, stamp.newId(i));
    after := Tables(w.ledger + [entry],
                    Upsert(w.rows, journal.account, tx.period, journal.debit, journal.credit, newBalance));
  }

  /** The worker's loop over the journal. `found` is false when an account is missing. */
  method PostJournals(accounts: seq<Account>, before: Tables, t: nat, tx: Tx, stamp: Stamp)
    returns (found: bool, after: Tables)
    ensures found <==> Resolves(accounts, tx.lines)
    ensures found ==> after == PostLines(accounts, before, t, tx, |tx.lines|, stamp)
  {
    found, after := true, before;
    var i := 0;
    while i < |tx.lines|
      invariant 0 <= i <= |tx.lines| && found
      invariant forall j :: 0 <= j < i ==> tx.lines[j].account < |accounts|
      invariant after == PostLines(accounts, before, t, tx, i, stamp)
    {
      if tx.lines[i].account >= |accounts| {
        found := false;
        return;
      }
      after := PostJournal(accounts, after, t, tx, i, stamp);
      i := i + 1;
    }
  }

  class AccountingStore {
    var accounts: seq<Account>
    var txs: seq<Tx>
    var ledger: seq<LedgerEntry>
    var rows: seq<Row>
    var outbox: seq<Event>

    function State(): Books
      reads this
    {
      Books(accounts, txs, ledger, rows, outbox)
    }

    constructor (accounts: seq<Account>)
      ensures State() == EMPTY.(accounts := accounts)
    {
      this.accounts := accounts;
      txs, ledger, rows, outbox := [], [], [], [];
    }

    method CreateTransaction(req: CreateRequest) returns (r: Result<nat, CreateError>)
      modifies this
      ensures State() == Create(old(State()), req)
      ensures r.Ok? <==> NewTx(old(accounts), req).Ok?
      ensures r.Ok? ==> r.value == |old(txs)| && txs == old(txs) + [NewTx(old(accounts), req).value]
      ensures r.Err? ==> NewTx(old(accounts), req) == Err(r.error)
    {
      var checked := CheckRequest(req);
      if checked.Err? {
        return Err(checked.error);
      }
      var category := checked.value;
      var rate := EffectiveRate(req.taxProfile);
      var tax := 0;
      if req.includesTax || IsPpnCategory(category) {
        var (_, part) := SplitTax(req.amount, rate, true);
        tax := ToCents(part);
      }
      var made := CreateJournals(accounts, req, category);
      if made.Err? {
        return Err(made.error);
      }
      var lines := made.value;
      if !BalancesEqual(SumDebit(lines), SumCredit(lines)) {
        return Err(DebitCreditMismatch);
      }
      var id := |txs|;
      txs := txs + [Tx(req.kind.value, EffectiveMode(req.mode), Draft, req.period.value, ToColumn(req.amount), category, tax, None, lines)];
      outbox := outbox + [TransactionCreated(id, false)];
      r := Ok(id);
    }

    method VoidTransaction(t: nat, period: int) returns (r: Result<nat, VoidError>)
      modifies this
      ensures State() == VoidTx(old(State()), t, period)
      ensures r.Ok? ==> r.value == |old(txs)|
      ensures r.Ok? <==> t < |old(txs)| && old(txs)[t].status == Posted
      ensures r == Err(VoidNotFound) <==> t >= |old(txs)|
      ensures r == Err(AlreadyVoid) <==> t < |old(txs)| && old(txs)[t].status == Voided
    {
      if t >= |txs| {
        return Err(VoidNotFound);
      }
      var original := txs[t];
      if original.status == Voided {
        return Err(AlreadyVoid);
      }
      if original.status != Posted {
        return Err(NotPosted);
      }
      var reversed: seq<Line> := [];
      var i := 0;
      while i < |original.lines|
        invariant 0 <= i <= |original.lines|
        invariant |reversed| == i
        invariant forall j :: 0 <= j < i ==> reversed[j] == original.lines[j].Swapped()
      {
        var j := original.lines[i];
        reversed := reversed + [Line(j.account, j.credit, j.debit)];
        i := i + 1;
      }
      assert reversed == SwapAll(original.lines);
      var id := |txs|;
      var reversal := Tx(Reversal, original.mode, Draft, period, original.amount, original.category,
                         original.tax, Some(t), reversed);
      txs := txs[t := original.(status := Voided)] + [reversal];
      outbox := outbox + [TransactionCreated(id, true)];
      r := Ok(id);
    }

    /** The worker. A skipped event is a success; a failed transaction is an error. */
    method HandleTransactionCreated(t: nat, isReversal: bool, stamp: Stamp) returns (r: Result<(), PostError>)
      modifies this
      ensures State() == Deliver(old(State()), t, isReversal, stamp)
      ensures r == Err(TransactionNotFound) <==> t >= |txs|
      ensures t < |txs| && old(txs)[t].status != Draft ==> r == Ok(()) && State() == old(State())
      ensures t < |txs| && old(txs)[t].status == Draft ==>
          && (r == Ok(()) <==> txs[t].status == Posted)
          && (r == Err(NoJournalEntries) <==> old(txs)[t].lines == [])
          && (r == Err(Mismatch) || r == Err(NoJournalEntries) <==> txs[t].status == Failed)
    {
      if t >= |txs| {
        return Err(TransactionNotFound);
      }
      var transaction := txs[t];
      if transaction.status != Draft {
        return Ok(());
      }
      var journals := transaction.lines;
      if |journals| == 0 {
        txs := txs[t := transaction.(status := Failed)];
        return Err(NoJournalEntries);
      }
      if !BalancesEqual(SumDebit(journals), SumCredit(journals)) {
        txs := txs[t := transaction.(status := Failed)];
        return Err(Mismatch);
      }
      var found, after := PostJournals(accounts, Tables(ledger, rows), t, transaction, stamp);
      if !found {
        return Err(PostError.AccountNotFound);
      }
      ledger := after.ledger;
      rows := after.rows;
      txs := txs[t := transaction.(status := Posted)];
      outbox := outbox + [LedgerPosted(t, isReversal || transaction.reverses.Some?)];
      r := Ok(());
    }
  }
}
