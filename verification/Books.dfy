/** The accounting tables of one workspace and, as functions on them, what the queries of
    internal/db/accounting.sql.go return and what each committed operation leaves behind
    (internal/accounting/service.go and ledger_worker.go). Row ids are positions. */
module Books {
  import opened Prelude
  import opened Money
  import opened Rules
  import opened Chart

  // ----- Rows -----

  /** A journal entry; amounts are whole cents. */
  datatype Line = Line(account: nat, debit: int, credit: int) {
    function Net(): int { debit - credit }
    function Swapped(): Line { Line(account, credit, debit) }
    /** The table's check: exactly one side, and positive. */
    predicate Storable() { (debit > 0 && credit == 0) || (debit == 0 && credit > 0) }
  }

  datatype Status = Draft | Posted | Voided | Failed

  datatype Tx = Tx(
    kind: TxType,
    mode: InputMode,
    status: Status,
    period: int,
    amount: int,
    category: Category,
    tax: int,
    reverses: Option<nat>,
    lines: seq<Line>)

  /** A ledger entry. `postedAt` is the handler's clock reading, `id` its random key. */
  datatype LedgerEntry = LedgerEntry(
    account: nat, tx: nat, line: nat, period: int,
    debit: int, credit: int, running: int,
    postedAt: int, id: int)

  /** A period summary of one account. */
  datatype Row = Row(account: nat, period: int, totalDebit: int, totalCredit: int, ending: int, count: nat)

  datatype Event = TransactionCreated(tx: nat, isReversal: bool) | LedgerPosted(tx: nat, isReversal: bool)

  datatype Books = Books(
    accounts: seq<Account>,
    txs: seq<Tx>,
    ledger: seq<LedgerEntry>,
    rows: seq<Row>,
    outbox: seq<Event>)

  const EMPTY := Books([], [], [], [], [])

  predicate HasPosted(s: Status) { s == Posted || s == Voided }

  // ----- Journal sums -----

  function SumDebit(ls: seq<Line>): int {
    if ls == [] then 0 else SumDebit(ls[..|ls| - 1]) + ls[|ls| - 1].debit
  }

  function SumCredit(ls: seq<Line>): int {
    if ls == [] then 0 else SumCredit(ls[..|ls| - 1]) + ls[|ls| - 1].credit
  }

  /** By how many cents the two sides of a journal differ. */
  function Drift(ls: seq<Line>): int { SumDebit(ls) - SumCredit(ls) }

  function DebitOn(ls: seq<Line>, account: nat): int {
    if ls == [] then 0
    else
      var last := ls[|ls| - 1];
      DebitOn(ls[..|ls| - 1], account) + if last.account == account then last.debit else 0
  }

  function CreditOn(ls: seq<Line>, account: nat): int {
    if ls == [] then 0
    else
      var last := ls[|ls| - 1];
      CreditOn(ls[..|ls| - 1], account) + if last.account == account then last.credit else 0
  }

  /** The effect of a journal on one account. */
  function NetOn(ls: seq<Line>, account: nat): int { DebitOn(ls, account) - CreditOn(ls, account) }

  function SwapAll(ls: seq<Line>): (r: seq<Line>)
    ensures |r| == |ls| && forall i :: 0 <= i < |ls| ==> r[i] == ls[i].Swapped()
  {
    seq(|ls|, i requires 0 <= i < |ls| => ls[i].Swapped())
  }

  predicate Resolves(accounts: seq<Account>, ls: seq<Line>) {
    forall i :: 0 <= i < |ls| ==> ls[i].account < |accounts|
  }

  // ----- Creating journals -----

  datatype CreateError =
    | InvalidTransactionType | InvalidInputMode | InvalidPaymentMethod | InvalidDate
    | AmountMustBePositive | CounterpartyRejected | InvalidCategory
    | AccountMissing(code: AccountCode) | LineRejected | DebitCreditMismatch

  /** A total split for posting: pairs of the tax accounts carry `tax`, all others `base`. */
  datatype Split = Split(base: real, tax: real, applies: bool)

  function SplitFor(amount: real, rate: real, needed: bool): Split
    requires rate > 0.0
  {
    if needed then
      var (base, tax) := SplitTax(amount, rate, true);
      Split(base, tax, true)
    else Split(amount, 0.0, false)
  }

  /** The cents posted by the k-th pair of a rule (the primary pair is number 0). */
  function PairCents(pairs: seq<JournalRule>, k: nat, s: Split): int
    requires k < |pairs|
  {
    ToCents(if k > 0 && s.applies && IsPpnPair(pairs[k]) then s.tax else s.base)
  }

  function PairLines(accounts: seq<Account>, p: JournalRule, cents: int): Result<seq<Line>, CreateError> {
    var debit, credit := FindByCode(accounts, p.debit), FindByCode(accounts, p.credit);
    if debit.None? then Err(AccountMissing(p.debit))
    else if credit.None? then Err(AccountMissing(p.credit))
    else if cents <= 0 then Err(LineRejected)
    else Ok([Line(debit.value, cents, 0), Line(credit.value, 0, cents)])
  }

  /** The lines of the first `n` pairs. */
  function RuleLines(accounts: seq<Account>, pairs: seq<JournalRule>, s: Split, n: nat): Result<seq<Line>, CreateError>
    requires n <= |pairs|
  {
    if n == 0 then Ok([])
    else
      match RuleLines(accounts, pairs, s, n - 1)
      case Err(e) => Err(e)
      case Ok(before) =>
        match PairLines(accounts, pairs[n - 1], PairCents(pairs, n - 1, s))
        case Err(e) => Err(e)
        case Ok(two) => Ok(before + two)
  }

  function LinesForRule(accounts: seq<Account>, rule: Option<MultiJournalRule>, s: Split): Result<seq<Line>, CreateError> {
    match rule
    case None => Err(InvalidCategory)
    case Some(r) => RuleLines(accounts, r.Pairs(), s, |r.Pairs()|)
  }

  function AutoLines(accounts: seq<Account>, kind: TxType, category: Category, s: Split): Result<seq<Line>, CreateError> {
    LinesForRule(accounts, GetJournalRule(kind, category), s)
  }

  datatype ManualEntry = ManualEntry(code: AccountCode, debit: int, credit: int)

  function ManualLines(accounts: seq<Account>, entries: seq<ManualEntry>, n: nat): Result<seq<Line>, CreateError>
    requires n <= |entries|
  {
    if n == 0 then Ok([])
    else
      match ManualLines(accounts, entries, n - 1)
      case Err(e) => Err(e)
      case Ok(before) =>
        var entry := entries[n - 1];
        var account := FindByCode(accounts, entry.code);
        if account.None? then Err(AccountMissing(entry.code))
        else
          var line := Line(account.value, entry.debit, entry.credit);
          if line.Storable() then Ok(before + [line]) else Err(LineRejected)
  }

  // ----- Creating transactions -----

  datatype ModeField = Omitted | Given(mode: InputMode) | Unknown

  /** A request, with the answers of everything outside: the AI, the tax profile, whether the
      counterparty is linked. `None` is a value the service does not
      recognise. */
  datatype CreateRequest = CreateRequest(
    kind: Option<TxType>,
    mode: ModeField,
    paymentMethodOk: bool,
    period: Option<int>,
    amount: real,
    counterpartyOk: bool,
    category: Category,
    ai: AiAnswer,
    includesTax: bool,
    entries: seq<ManualEntry>,
    taxProfile: Option<real>)

  const NO_CATEGORY := Unlisted("")

  function EffectiveMode(m: ModeField): InputMode {
    if m.Given? then m.mode else Simple
  }

  /** The request's category, or the categorizer's when SIMPLE mode leaves it empty. */
  function ChosenCategory(req: CreateRequest): Category
    requires req.kind.Some?
  {
    if EffectiveMode(req.mode) == Simple && req.category == NO_CATEGORY && req.kind.value != Journal
    then Categorize(req.kind.value, req.ai).0
    else req.category
  }

  function RequestSplit(req: CreateRequest, category: Category): Split {
    SplitFor(req.amount, EffectiveRate(req.taxProfile), req.includesTax || IsPpnCategory(category))
  }

  predicate UsesManualLines(req: CreateRequest) {
    EffectiveMode(req.mode) == Advanced && |req.entries| > 0
  }

  function RequestLines(accounts: seq<Account>, req: CreateRequest, category: Category): Result<seq<Line>, CreateError>
    requires req.kind.Some?
  {
    if UsesManualLines(req) then ManualLines(accounts, req.entries, |req.entries|)
    else if req.kind.value != Journal then AutoLines(accounts, req.kind.value, category, RequestSplit(req, category))
    else Ok([])
  }

  /** The checks before anything is stored, in order; their result is the chosen category. */
  function Validate(req: CreateRequest): (r: Result<Category, CreateError>)
    ensures r.Ok? ==> req.kind.Some? && req.period.Some? && req.amount > 0.0 && r.value == ChosenCategory(req)
  {
    if req.kind.None? then Err(InvalidTransactionType)
    else if req.mode.Unknown? then Err(InvalidInputMode)
    else if !req.paymentMethodOk then Err(InvalidPaymentMethod)
    else if req.period.None? then Err(InvalidDate)
    else if req.amount <= 0.0 then Err(AmountMustBePositive)
    else if !req.counterpartyOk then Err(CounterpartyRejected)
    else
      var category := ChosenCategory(req);
      if EffectiveMode(req.mode) != Advanced && req.kind.value != Journal
          && !IsValidCategoryForType(category, req.kind.value)
      then Err(InvalidCategory)
      else Ok(category)
  }

  /** The transaction a request creates, or its first error. */
  function NewTx(accounts: seq<Account>, req: CreateRequest): Result<Tx, CreateError> {
    match Validate(req)
    case Err(e) => Err(e)
    case Ok(category) =>
      match RequestLines(accounts, req, category)
      case Err(e) => Err(e)
      case Ok(lines) =>
        if !BalancesEqual(SumDebit(lines), SumCredit(lines)) then Err(DebitCreditMismatch)
        else
          var s := RequestSplit(req, category);
          Ok(Tx(req.kind.value, EffectiveMode(req.mode), Draft, req.period.value, ToColumn(req.amount), category,
                if s.applies then ToCents(s.tax) else 0, None, lines))
  }

  function Create(b: Books, req: CreateRequest): Books {
    match NewTx(b.accounts, req)
    case Err(_) => b
    case Ok(tx) => b.(txs := b.txs + [tx], outbox := b.outbox + [TransactionCreated(|b.txs|, false)])
  }

  // ----- Posting -----

  /** `x` comes after `y` in the order (posted_at, id). */
  predicate SortsAfter(x: LedgerEntry, y: LedgerEntry) {
    x.postedAt > y.postedAt || (x.postedAt == y.postedAt && x.id > y.id)
  }

  /** The entry that `ORDER BY posted_at DESC, id DESC LIMIT 1` picks among the first `n`
      entries for an account. Ids are keys, so ties do not occur in the table. */
  function LastEntry(ledger: seq<LedgerEntry>, n: nat, account: nat): (r: Option<nat>)
    requires n <= |ledger|
    ensures r.Some? ==> r.value < n && ledger[r.value].account == account
  {
    if n == 0 then None
    else
      var best := LastEntry(ledger, n - 1, account);
      if ledger[n - 1].account != account then best
      else if best.Some? && SortsAfter(ledger[best.value], ledger[n - 1]) then best
      else Some(n - 1)
  }

  /** It is the greatest in that order, and there is one whenever the account has an entry. */
  lemma {:induction false} LastEntryIsGreatest(ledger: seq<LedgerEntry>, n: nat, account: nat, j: nat)
    requires n <= |ledger| && j < n && ledger[j].account == account
    ensures var r := LastEntry(ledger, n, account);
            && r.Some?
            && !SortsAfter(ledger[j], ledger[r.value])
            && (j > r.value ==> SortsAfter(ledger[r.value], ledger[j]))
  {
    if j < n - 1 {
      LastEntryIsGreatest(ledger, n - 1, account, j);
    } else if LastEntry(ledger, n - 1, account).Some? {
      LastEntryIsGreatest(ledger, n - 1, account, LastEntry(ledger, n - 1, account).value);
    }
  }

  /** The balance the worker builds on; a missing one reads as zero. */
  function LastBalance(ledger: seq<LedgerEntry>, n: nat, account: nat): int
    requires n <= |ledger|
  {
    var last := LastEntry(ledger, n, account);
    if last.Some? then ledger[last.value].running else 0
  }

  /** The row of a (account, period) key among the first `n`. */
  function FindRow(rows: seq<Row>, n: nat, account: nat, period: int): (r: Option<nat>)
    requires n <= |rows|
    ensures r.Some? ==> r.value < n && rows[r.value].account == account && rows[r.value].period == period
  {
    if n == 0 then None
    else if rows[n - 1].account == account && rows[n - 1].period == period then Some(n - 1)
    else FindRow(rows, n - 1, account, period)
  }

  /** INSERT … ON CONFLICT DO UPDATE: totals accumulate, the ending balance is overwritten. */
  function Upsert(rows: seq<Row>, account: nat, period: int, debit: int, credit: int, ending: int): seq<Row> {
    var at := FindRow(rows, |rows|, account, period);
    if at.None? then rows + [Row(account, period, debit, credit, ending, 1)]
    else
      var r := rows[at.value];
      rows[at.value := Row(account, period, r.totalDebit + debit, r.totalCredit + credit, ending, r.count + 1)]
  }

  /** What one posting stamps on its entries: the clock and a fresh id per line. */
  datatype Stamp = Stamp(now: int, newId: nat -> int)

  function NormalOf(accounts: seq<Account>, account: nat): NormalBalance {
    if account < |accounts| then accounts[account].normal else DebitNormal
  }

  function NextEntry(accounts: seq<Account>, ledger: seq<LedgerEntry>, t: nat, tx: Tx, i: nat, stamp: Stamp): LedgerEntry
    requires i < |tx.lines|
  {
    var l := tx.lines[i];
    var running := ApplyNormal(LastBalance(ledger, |ledger|, l.account), l.debit, l.credit, NormalOf(accounts, l.account));
    LedgerEntry(l.account, t, i, tx.period, l.debit, l.credit, running, stamp.now, stamp.newId(i))
  }

  /** The two tables a posting writes. */
  datatype Tables = Tables(ledger: seq<LedgerEntry>, rows: seq<Row>)

  /** One round of the posting loop: a ledger entry, folded into its period. */
  function PostLine(accounts: seq<Account>, w: Tables, t: nat, tx: Tx, i: nat, stamp: Stamp): Tables
    requires i < |tx.lines|
  {
    var e := NextEntry(accounts, w.ledger, t, tx, i, stamp);
    Tables(w.ledger + [e], Upsert(w.rows, e.account, e.period, e.debit, e.credit, e.running))
  }

  /** The tables after the first `n` lines of a transaction. */
  function PostLines(accounts: seq<Account>, w: Tables, t: nat, tx: Tx, n: nat, stamp: Stamp): Tables
    requires n <= |tx.lines|
  {
    if n == 0 then w else PostLine(accounts, PostLines(accounts, w, t, tx, n - 1, stamp), t, tx, n - 1, stamp)
  }

  datatype PostError = TransactionNotFound | NoJournalEntries | Mismatch | AccountNotFound

  function SetStatus(txs: seq<Tx>, t: nat, s: Status): seq<Tx>
    requires t < |txs|
  {
    txs[t := txs[t].(status := s)]
  }

  /** The committed posting: ledger entries, summaries, status and event. */
  function PostTx(b: Books, t: nat, isReversal: bool, stamp: Stamp): Books
    requires t < |b.txs|
  {
    var tx := b.txs[t];
    var w := PostLines(b.accounts, Tables(b.ledger, b.rows), t, tx, |tx.lines|, stamp);
    b.(ledger := w.ledger,
       rows := w.rows,
       txs := SetStatus(b.txs, t, Posted),
       outbox := b.outbox + [LedgerPosted(t, isReversal || tx.reverses.Some?)])
  }

  datatype Outcome = Skip | Fail | Post

  /** What the worker does with a created event: it skips an unknown or settled transaction,
      fails an empty or unbalanced one, gives up on a missing account, and posts the rest. */
  function OutcomeOf(b: Books, t: nat): Outcome {
    if t >= |b.txs| || b.txs[t].status != Draft then Skip
    else if |b.txs[t].lines| == 0 || !BalancesEqual(SumDebit(b.txs[t].lines), SumCredit(b.txs[t].lines)) then Fail
    else if !Resolves(b.accounts, b.txs[t].lines) then Skip
    else Post
  }

  /** One delivery of a created event. */
  function Deliver(b: Books, t: nat, isReversal: bool, stamp: Stamp): Books {
    match OutcomeOf(b, t)
    case Skip => b
    case Fail => b.(txs := SetStatus(b.txs, t, Failed))
    case Post => PostTx(b, t, isReversal, stamp)
  }

  // ----- Voiding -----

  datatype VoidError = VoidNotFound | AlreadyVoid | NotPosted

  function VoidCheck(b: Books, t: nat): Option<VoidError> {
    if t >= |b.txs| then Some(VoidNotFound)
    else if b.txs[t].status == Voided then Some(AlreadyVoid)
    else if b.txs[t].status != Posted then Some(NotPosted)
    else None
  }

  /** The reversal: the same journal with the sides swapped, dated in the current period. */
  function ReversalOf(original: Tx, t: nat, period: int): Tx {
    Tx(Reversal, original.mode, Draft, period, original.amount, original.category, original.tax,
       Some(t), SwapAll(original.lines))
  }

  function VoidTx(b: Books, t: nat, period: int): Books {
    if VoidCheck(b, t).Some? then b
    else b.(txs := SetStatus(b.txs, t, Voided) + [ReversalOf(b.txs[t], t, period)],
            outbox := b.outbox + [TransactionCreated(|b.txs|, true)])
  }
}
