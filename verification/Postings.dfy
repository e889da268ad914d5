/** The ledger, the period summaries and the outbox against the posted journals: everything the
    worker writes is what the plain sum of the journals says. */
module Postings {
  import opened Prelude
  import opened Money
  import opened Chart
  import opened Books
  import opened Journals
  import opened LedgerRuns
  import Sums

  // ----- Sums over ledger entries -----

  function Fold(ledger: seq<LedgerEntry>, v: LedgerEntry -> int): int {
    if ledger == [] then 0 else Fold(ledger[..|ledger| - 1], v) + v(ledger[|ledger| - 1])
  }

  function DebitAt(account: nat, period: int): LedgerEntry -> int {
    (e: LedgerEntry) => if e.account == account && e.period == period then e.debit else 0
  }

  function CreditAt(account: nat, period: int): LedgerEntry -> int {
    (e: LedgerEntry) => if e.account == account && e.period == period then e.credit else 0
  }

  function NetAt(account: nat): LedgerEntry -> int {
    (e: LedgerEntry) => if e.account == account then e.debit - e.credit else 0
  }

  lemma FoldAppend(ledger: seq<LedgerEntry>, e: LedgerEntry, v: LedgerEntry -> int)
    ensures Fold(ledger + [e], v) == Fold(ledger, v) + v(e)
  {
    assert (ledger + [e])[..|ledger|] == ledger;
  }

  // ----- Amounts counted by period -----

  /** An entry of the account, with its debit counted d times and its credit c times, where both
      depend on its period. */
  function Counted(account: nat, d: int -> int, c: int -> int): LedgerEntry -> int {
    (e: LedgerEntry) => if e.account == account then d(e.period) * e.debit + c(e.period) * e.credit else 0
  }

  lemma {:induction false} FoldSame(ledger: seq<LedgerEntry>, v: LedgerEntry -> int, w: LedgerEntry -> int)
    requires forall k :: 0 <= k < |ledger| ==> v(ledger[k]) == w(ledger[k])
    ensures Fold(ledger, v) == Fold(ledger, w)
  {
    if ledger != [] {
      FoldSame(ledger[..|ledger| - 1], v, w);
    }
  }

  /** What a journal adds to an account, counted d and c times. */
  function CountedOn(ls: seq<Line>, account: nat, d: int, c: int): int {
    d * DebitOn(ls, account) + c * CreditOn(ls, account)
  }

  lemma CountedAppend(ls: seq<Line>, l: Line, account: nat, d: int, c: int)
    ensures CountedOn(ls + [l], account, d, c)
         == CountedOn(ls, account, d, c) + if l.account == account then d * l.debit + c * l.credit else 0
  {
    SumsAppend(ls, l, account);
    if l.account == account {
      assert d * (DebitOn(ls, account) + l.debit) == d * DebitOn(ls, account) + d * l.debit;
      assert c * (CreditOn(ls, account) + l.credit) == c * CreditOn(ls, account) + c * l.credit;
    }
  }

  lemma CountedEntry(accounts: seq<Account>, w: Tables, t: nat, tx: Tx, i: nat, stamp: Stamp,
      account: nat, d: int -> int, c: int -> int)
    requires i < |tx.lines|
    ensures Fold(PostLine(accounts, w, t, tx, i, stamp).ledger, Counted(account, d, c))
         == Fold(w.ledger, Counted(account, d, c))
          + if tx.lines[i].account == account then d(tx.period) * tx.lines[i].debit + c(tx.period) * tx.lines[i].credit else 0
  {
    FoldAppend(w.ledger, NextEntry(accounts, w.ledger, t, tx, i, stamp), Counted(account, d, c));
  }

  lemma PrefixCounts(ls: seq<Line>, n: nat, account: nat, d: int, c: int)
    requires 0 < n <= |ls|
    ensures CountedOn(ls[..n], account, d, c)
         == CountedOn(ls[..n - 1], account, d, c) + if ls[n - 1].account == account then d * ls[n - 1].debit + c * ls[n - 1].credit else 0
  {
    assert ls[..n] == ls[..n - 1] + [ls[n - 1]];
    CountedAppend(ls[..n - 1], ls[n - 1], account, d, c);
  }

  lemma {:induction false} PostLinesCount(accounts: seq<Account>, w: Tables, t: nat, tx: Tx, n: nat, stamp: Stamp,
      account: nat, d: int -> int, c: int -> int)
    requires n <= |tx.lines|
    ensures Fold(PostLines(accounts, w, t, tx, n, stamp).ledger, Counted(account, d, c))
         == Fold(w.ledger, Counted(account, d, c)) + CountedOn(tx.lines[..n], account, d(tx.period), c(tx.period))
  {
    if n > 0 {
      var before := PostLines(accounts, w, t, tx, n - 1, stamp);
      PostLinesCount(accounts, w, t, tx, n - 1, stamp, account, d, c);
      CountedEntry(accounts, before, t, tx, n - 1, stamp, account, d, c);
      assert PostLines(accounts, w, t, tx, n, stamp) == PostLine(accounts, before, t, tx, n - 1, stamp);
      PrefixCounts(tx.lines, n, account, d(tx.period), c(tx.period));
    }
  }

  lemma PostKeepsCounted(b: Books, t: nat, isReversal: bool, stamp: Stamp, account: nat, d: int -> int, c: int -> int)
    requires Fold(b.ledger, Counted(account, d, c)) == PostedSum(b.txs, CountedWeight(account, d, c))
    requires t < |b.txs| && b.txs[t].status == Draft
    ensures var after := PostTx(b, t, isReversal, stamp);
            Fold(after.ledger, Counted(account, d, c)) == PostedSum(after.txs, CountedWeight(account, d, c))
  {
    PostLinesCount(b.accounts, Tables(b.ledger, b.rows), t, b.txs[t], |b.txs[t].lines|, stamp, account, d, c);
    assert b.txs[t].lines[..|b.txs[t].lines|] == b.txs[t].lines;
    PostAddsToSums(b.txs, t, CountedWeight(account, d, c), 0);
  }

  lemma StepKeepsCounted(b: Books, s: Step, account: nat, d: int -> int, c: int -> int)
    requires Fold(b.ledger, Counted(account, d, c)) == PostedSum(b.txs, CountedWeight(account, d, c))
    ensures Fold(Next(b, s).ledger, Counted(account, d, c)) == PostedSum(Next(b, s).txs, CountedWeight(account, d, c))
  {
    var w := CountedWeight(account, d, c);
    match s
    case ChartStep(_) =>
    case CreateStep(req) =>
      if NewTx(b.accounts, req).Ok? {
        AppendKeepsSums(b.txs, NewTx(b.accounts, req).value, w, 0);
      }
    case DeliverStep(t, _, stamp) =>
      match OutcomeOf(b, t) {
        case Skip =>
        case Fail => StatusKeepsSums(b.txs, t, Failed, w, 0);
        case Post => PostKeepsCounted(b, t, false, stamp, account, d, c);
      }
    case VoidStep(t, p) =>
      if VoidCheck(b, t).None? {
        StatusKeepsSums(b.txs, t, Voided, w, 0);
        AppendKeepsSums(SetStatus(b.txs, t, Voided), ReversalOf(b.txs[t], t, p), w, 0);
      }
  }

  /** In every run, however amounts are counted by period, the ledger and the posted journals
      count the same. */
  lemma {:induction false} RunKeepsCounted(steps: seq<Step>, account: nat, d: int -> int, c: int -> int)
    ensures Fold(Final(steps).ledger, Counted(account, d, c)) == PostedSum(Final(steps).txs, CountedWeight(account, d, c))
  {
    if steps != [] {
      RunKeepsCounted(steps[..|steps| - 1], account, d, c);
      StepKeepsCounted(Final(steps[..|steps| - 1]), steps[|steps| - 1], account, d, c);
    }
  }

  // ----- The ledger as the posted journals -----

  function DebitOf(account: nat): LedgerEntry -> int {
    (e: LedgerEntry) => if e.account == account then e.debit else 0
  }

  function CreditOf(account: nat): LedgerEntry -> int {
    (e: LedgerEntry) => if e.account == account then e.credit else 0
  }

  function Never(): int -> int { (p: int) => 0 }

  function Once(): int -> int { (p: int) => 1 }

  lemma FoldsOnce(ledger: seq<LedgerEntry>, account: nat)
    ensures Fold(ledger, Counted(account, Once(), Never())) == Fold(ledger, DebitOf(account))
    ensures Fold(ledger, Counted(account, Never(), Once())) == Fold(ledger, CreditOf(account))
  {
    FoldSame(ledger, Counted(account, Once(), Never()), DebitOf(account));
    FoldSame(ledger, Counted(account, Never(), Once()), CreditOf(account));
  }

  lemma WeighsOnce(txs: seq<Tx>, account: nat)
    ensures PostedSum(txs, CountedWeight(account, Once(), Never())) == PostedSum(txs, DebitTotal(account))
    ensures PostedSum(txs, CountedWeight(account, Never(), Once())) == PostedSum(txs, CreditTotal(account))
  {
    SameWeights(txs, CountedWeight(account, Once(), Never()), DebitTotal(account));
    SameWeights(txs, CountedWeight(account, Never(), Once()), CreditTotal(account));
  }

  lemma LedgerDebits(steps: seq<Step>, account: nat)
    ensures Fold(Final(steps).ledger, DebitOf(account)) == PostedSum(Final(steps).txs, DebitTotal(account))
  {
    RunKeepsCounted(steps, account, Once(), Never());
    FoldsOnce(Final(steps).ledger, account);
    WeighsOnce(Final(steps).txs, account);
  }

  lemma LedgerCredits(steps: seq<Step>, account: nat)
    ensures Fold(Final(steps).ledger, CreditOf(account)) == PostedSum(Final(steps).txs, CreditTotal(account))
  {
    RunKeepsCounted(steps, account, Never(), Once());
    FoldsOnce(Final(steps).ledger, account);
    WeighsOnce(Final(steps).txs, account);
  }

  lemma SameWeights(txs: seq<Tx>, v: Tx -> int, w: Tx -> int)
    requires forall i :: 0 <= i < |txs| && HasPosted(txs[i].status) ==> v(txs[i]) == w(txs[i])
    ensures PostedSum(txs, v) == PostedSum(txs, w)
  {
    Sums.Same(PostedTerm(txs, v), PostedTerm(txs, w), |txs|);
  }

  lemma SidesNet(txs: seq<Tx>, account: nat)
    ensures PostedSum(txs, NetWeight(account)) == PostedSum(txs, DebitTotal(account)) - PostedSum(txs, CreditTotal(account))
  {
    Sums.Linear(PostedTerm(txs, DebitTotal(account)), PostedTerm(txs, CreditTotal(account)),
      PostedTerm(txs, NetWeight(account)), -1, |txs|);
  }

  function In(period: int): int -> int { (p: int) => if p == period then 1 else 0 }

  lemma FoldsIn(ledger: seq<LedgerEntry>, account: nat, period: int)
    ensures Fold(ledger, Counted(account, In(period), Never())) == Fold(ledger, DebitAt(account, period))
    ensures Fold(ledger, Counted(account, Never(), In(period))) == Fold(ledger, CreditAt(account, period))
  {
    FoldSame(ledger, Counted(account, In(period), Never()), DebitAt(account, period));
    FoldSame(ledger, Counted(account, Never(), In(period)), CreditAt(account, period));
  }

  lemma WeighsIn(txs: seq<Tx>, account: nat, period: int)
    ensures PostedSum(txs, CountedWeight(account, In(period), Never())) == PostedSum(txs, DebitWeight(account, period))
    ensures PostedSum(txs, CountedWeight(account, Never(), In(period))) == PostedSum(txs, CreditWeight(account, period))
  {
    SameWeights(txs, CountedWeight(account, In(period), Never()), DebitWeight(account, period));
    SameWeights(txs, CountedWeight(account, Never(), In(period)), CreditWeight(account, period));
  }

  lemma {:induction false} SidesFold(ledger: seq<LedgerEntry>, account: nat)
    ensures Fold(ledger, NetAt(account)) == Fold(ledger, DebitOf(account)) - Fold(ledger, CreditOf(account))
  {
    if ledger != [] {
      SidesFold(ledger[..|ledger| - 1], account);
    }
  }

  /** The ledger holds exactly the posted journals, summed per account and period and per account. */
  predicate LedgerIsPosted(b: Books, account: nat, period: int) {
    && Fold(b.ledger, DebitAt(account, period)) == PostedSum(b.txs, DebitWeight(account, period))
    && Fold(b.ledger, CreditAt(account, period)) == PostedSum(b.txs, CreditWeight(account, period))
    && Fold(b.ledger, NetAt(account)) == PostedSum(b.txs, NetWeight(account))
  }

  lemma RunKeepsLedgerIsPosted(steps: seq<Step>, account: nat, period: int)
    ensures LedgerIsPosted(Final(steps), account, period)
  {
    RunKeepsCounted(steps, account, In(period), Never());
    RunKeepsCounted(steps, account, Never(), In(period));
    FoldsIn(Final(steps).ledger, account, period);
    WeighsIn(Final(steps).txs, account, period);
    LedgerDebits(steps, account);
    LedgerCredits(steps, account);
    SidesFold(Final(steps).ledger, account);
    SidesNet(Final(steps).txs, account);
  }

  // ----- The effects on all accounts together -----

  function NetOnEach(ls: seq<Line>): nat -> int {
    (a: nat) => NetOn(ls, a)
  }

  /** A journal's effects on all accounts add up to its drift. */
  lemma {:induction false} JournalSpreads(ls: seq<Line>, n: nat)
    requires forall i :: 0 <= i < |ls| ==> ls[i].account < n
    ensures Sums.SumTo(NetOnEach(ls), n) == Drift(ls)
  {
    if ls == [] {
      Sums.Zero(NetOnEach(ls), n);
    } else {
      var front, l := ls[..|ls| - 1], ls[|ls| - 1];
      JournalSpreads(front, n);
      Sums.Change(NetOnEach(front), NetOnEach(ls), n, l.account);
    }
  }

  /** Per account, the journals of the first `k` transactions. */
  function TimesEach(txs: seq<Tx>, m: int -> int, k: nat): nat -> int {
    (a: nat) => Sums.SumTo(PostedTerm(txs, TimesWeight(a, m)), k)
  }

  lemma {:induction false} JournalsSpread(txs: seq<Tx>, m: int -> int, k: nat, n: nat)
    requires k <= |txs| && forall t, i :: 0 <= t < |txs| && 0 <= i < |txs[t].lines| ==> txs[t].lines[i].account < n
    ensures Sums.SumTo(TimesEach(txs, m, k), n) == Sums.SumTo(PostedTerm(txs, DriftTimes(m)), k)
  {
    if k == 0 {
      Sums.Zero(TimesEach(txs, m, 0), n);
    } else {
      JournalsSpread(txs, m, k - 1, n);
      var ls := txs[k - 1].lines;
      JournalSpreads(ls, n);
      Sums.Linear(TimesEach(txs, m, k - 1), NetOnEach(ls), TimesEach(txs, m, k),
        if HasPosted(txs[k - 1].status) then m(txs[k - 1].period) else 0, n);
    }
  }

  // ----- Period summaries -----

  /** The running balance of the entry inserted last for an account and period. */
  function LastRunning(ledger: seq<LedgerEntry>, account: nat, period: int): Option<int> {
    if ledger == [] then None
    else
      var e := ledger[|ledger| - 1];
      if e.account == account && e.period == period then Some(e.running)
      else LastRunning(ledger[..|ledger| - 1], account, period)
  }

  function EntryCount(ledger: seq<LedgerEntry>, account: nat, period: int): nat {
    if ledger == [] then 0
    else
      var e := ledger[|ledger| - 1];
      EntryCount(ledger[..|ledger| - 1], account, period) + if e.account == account && e.period == period then 1 else 0
  }

  /** What the summary of one account and period must say. */
  function Summary(ledger: seq<LedgerEntry>, account: nat, period: int): Option<Row> {
    match LastRunning(ledger, account, period)
    case None => None
    case Some(running) =>
      Some(Row(account, period, Fold(ledger, DebitAt(account, period)), Fold(ledger, CreditAt(account, period)), running,
               EntryCount(ledger, account, period)))
  }

  function StoredRow(rows: seq<Row>, account: nat, period: int): Option<Row> {
    var at := FindRow(rows, |rows|, account, period);
    if at.Some? then Some(rows[at.value]) else None
  }

  /** The summary table says just that: no row without an entry, and no entry without its row. */
  predicate RowAgrees(rows: seq<Row>, ledger: seq<LedgerEntry>, account: nat, period: int) {
    StoredRow(rows, account, period) == Summary(ledger, account, period)
  }

  predicate KeysUnique(rows: seq<Row>) {
    forall i, j :: 0 <= i < j < |rows| ==> !(rows[i].account == rows[j].account && rows[i].period == rows[j].period)
  }

  lemma {:induction false} FindRowFinds(rows: seq<Row>, n: nat, i: nat)
    requires KeysUnique(rows) && i < n <= |rows|
    ensures FindRow(rows, n, rows[i].account, rows[i].period) == Some(i)
  {
    if i < n - 1 {
      FindRowFinds(rows, n - 1, i);
    }
  }

  lemma {:induction false} FindRowMisses(rows: seq<Row>, n: nat, account: nat, period: int, i: nat)
    requires i < n <= |rows| && FindRow(rows, n, account, period).None?
    ensures !(rows[i].account == account && rows[i].period == period)
  {
    if i < n - 1 {
      FindRowMisses(rows, n - 1, account, period, i);
    }
  }

  lemma UpsertKeepsKeys(rows: seq<Row>, account: nat, period: int, debit: int, credit: int, ending: int)
    requires KeysUnique(rows)
    ensures KeysUnique(Upsert(rows, account, period, debit, credit, ending))
  {
    var at := FindRow(rows, |rows|, account, period);
    if at.None? {
      forall i: nat | i < |rows| ensures !(rows[i].account == account && rows[i].period == period) {
        FindRowMisses(rows, |rows|, account, period, i);
      }
    }
  }

  /** After an upsert a key finds its own row, and every other key what it found before. */
  lemma {:induction false} FindAfterUpsert(rows: seq<Row>, x: Row, n: nat, account: nat, period: int)
    requires n <= |rows|
    ensures FindRow(rows + [x], n, account, period) == FindRow(rows, n, account, period)
  {
    if n > 0 {
      FindAfterUpsert(rows, x, n - 1, account, period);
    }
  }

  lemma {:induction false} FindAfterUpdate(rows: seq<Row>, k: nat, x: Row, n: nat, account: nat, period: int)
    requires n <= |rows| && k < |rows| && x.account == rows[k].account && x.period == rows[k].period
    ensures FindRow(rows[k := x], n, account, period) == FindRow(rows, n, account, period)
  {
    if n > 0 {
      FindAfterUpdate(rows, k, x, n - 1, account, period);
    }
  }

  lemma CountAppend(ledger: seq<LedgerEntry>, e: LedgerEntry, account: nat, period: int)
    ensures EntryCount(ledger + [e], account, period)
         == EntryCount(ledger, account, period) + if e.account == account && e.period == period then 1 else 0
  {
    assert (ledger + [e])[..|ledger|] == ledger;
  }

  lemma LastRunningAppend(ledger: seq<LedgerEntry>, e: LedgerEntry, account: nat, period: int)
    ensures LastRunning(ledger + [e], account, period)
         == if e.account == account && e.period == period then Some(e.running) else LastRunning(ledger, account, period)
  {
    assert (ledger + [e])[..|ledger|] == ledger;
  }

  /** An account and period without entries sums to nothing. */
  lemma {:induction false} NoEntriesNoSums(ledger: seq<LedgerEntry>, account: nat, period: int)
    requires LastRunning(ledger, account, period).None?
    ensures Fold(ledger, DebitAt(account, period)) == 0
    ensures Fold(ledger, CreditAt(account, period)) == 0
    ensures EntryCount(ledger, account, period) == 0
  {
    if ledger != [] {
      NoEntriesNoSums(ledger[..|ledger| - 1], account, period);
    }
  }

  /** Folding a new entry into the table keeps it in agreement with the ledger. */
  lemma UpsertAgrees(rows: seq<Row>, ledger: seq<LedgerEntry>, e: LedgerEntry, account: nat, period: int)
    requires RowAgrees(rows, ledger, account, period)
    ensures RowAgrees(Upsert(rows, e.account, e.period, e.debit, e.credit, e.running), ledger + [e], account, period)
  {
    FoldAppend(ledger, e, DebitAt(account, period));
    FoldAppend(ledger, e, CreditAt(account, period));
    CountAppend(ledger, e, account, period);
    LastRunningAppend(ledger, e, account, period);
    var at := FindRow(rows, |rows|, e.account, e.period);
    var after := Upsert(rows, e.account, e.period, e.debit, e.credit, e.running);
    if at.None? {
      FindAfterUpsert(rows, after[|rows|], |rows|, account, period);
      if e.account == account && e.period == period {
        NoEntriesNoSums(ledger, account, period);
      }
    } else {
      FindAfterUpdate(rows, at.value, after[at.value], |rows|, account, period);
    }
  }

  lemma {:induction false} PostLinesAgree(accounts: seq<Account>, w: Tables, t: nat, tx: Tx, n: nat, stamp: Stamp,
      account: nat, period: int)
    requires n <= |tx.lines| && RowAgrees(w.rows, w.ledger, account, period) && KeysUnique(w.rows)
    ensures var after := PostLines(accounts, w, t, tx, n, stamp);
            RowAgrees(after.rows, after.ledger, account, period) && KeysUnique(after.rows)
  {
    if n > 0 {
      PostLinesAgree(accounts, w, t, tx, n - 1, stamp, account, period);
      var before := PostLines(accounts, w, t, tx, n - 1, stamp);
      var e := NextEntry(accounts, before.ledger, t, tx, n - 1, stamp);
      UpsertAgrees(before.rows, before.ledger, e, account, period);
      UpsertKeepsKeys(before.rows, e.account, e.period, e.debit, e.credit, e.running);
    }
  }

  /** Only a delivery that posts changes the tables. */
  lemma TablesAfter(b: Books, s: Step)
    ensures var w := Tables(b.ledger, b.rows);
            Tables(Next(b, s).ledger, Next(b, s).rows) ==
            if s.DeliverStep? && OutcomeOf(b, s.t) == Post
            then PostLines(b.accounts, w, s.t, b.txs[s.t], |b.txs[s.t].lines|, s.stamp) else w
  {
  }

  /** In every run, for every account and period, the stored summary has the debits, credits and
      entry count of the ledger, and so of the posted journals; its ending balance is the running
      balance of the entry inserted last; and there is no row without an entry. */
  lemma {:induction false} SummariesAgree(steps: seq<Step>, account: nat, period: int)
    ensures var b := Final(steps);
            RowAgrees(b.rows, b.ledger, account, period) && KeysUnique(b.rows)
  {
    if steps != [] {
      SummariesAgree(steps[..|steps| - 1], account, period);
      var b, s := Final(steps[..|steps| - 1]), steps[|steps| - 1];
      TablesAfter(b, s);
      if s.DeliverStep? && OutcomeOf(b, s.t) == Post {
        PostLinesAgree(b.accounts, Tables(b.ledger, b.rows), s.t, b.txs[s.t], |b.txs[s.t].lines|, s.stamp, account, period);
      }
    }
  }

  // ----- Period totals over periods -----

  function RowDebits(rows: seq<Row>, account: nat): nat -> int {
    (i: nat) => if i < |rows| && rows[i].account == account then rows[i].totalDebit else 0
  }

  function RowCredits(rows: seq<Row>, account: nat): nat -> int {
    (i: nat) => if i < |rows| && rows[i].account == account then rows[i].totalCredit else 0
  }

  /** An account's debit totals over all its summary rows. */
  function RowsDebit(rows: seq<Row>, account: nat): int {
    Sums.SumTo(RowDebits(rows, account), |rows|)
  }

  /** An account's credit totals over all its summary rows. */
  function RowsCredit(rows: seq<Row>, account: nat): int {
    Sums.SumTo(RowCredits(rows, account), |rows|)
  }

  lemma UpsertDebits(rows: seq<Row>, e: LedgerEntry, account: nat)
    ensures RowsDebit(Upsert(rows, e.account, e.period, e.debit, e.credit, e.running), account)
         == RowsDebit(rows, account) + DebitOf(account)(e)
  {
    var after := Upsert(rows, e.account, e.period, e.debit, e.credit, e.running);
    var at := FindRow(rows, |rows|, e.account, e.period);
    var f, g := RowDebits(rows, account), RowDebits(after, account);
    if at.None? {
      Sums.Same(f, g, |rows|);
    } else {
      Sums.Change(f, g, |rows|, at.value);
    }
  }

  lemma UpsertCredits(rows: seq<Row>, e: LedgerEntry, account: nat)
    ensures RowsCredit(Upsert(rows, e.account, e.period, e.debit, e.credit, e.running), account)
         == RowsCredit(rows, account) + CreditOf(account)(e)
  {
    var after := Upsert(rows, e.account, e.period, e.debit, e.credit, e.running);
    var at := FindRow(rows, |rows|, e.account, e.period);
    var f, g := RowCredits(rows, account), RowCredits(after, account);
    if at.None? {
      Sums.Same(f, g, |rows|);
    } else {
      Sums.Change(f, g, |rows|, at.value);
    }
  }

  predicate TotalsAgree(w: Tables, account: nat) {
    && RowsDebit(w.rows, account) == Fold(w.ledger, DebitOf(account))
    && RowsCredit(w.rows, account) == Fold(w.ledger, CreditOf(account))
  }

  lemma {:induction false} PostLinesTotal(accounts: seq<Account>, w: Tables, t: nat, tx: Tx, n: nat, stamp: Stamp, account: nat)
    requires n <= |tx.lines| && TotalsAgree(w, account)
    ensures TotalsAgree(PostLines(accounts, w, t, tx, n, stamp), account)
  {
    if n > 0 {
      PostLinesTotal(accounts, w, t, tx, n - 1, stamp, account);
      var before := PostLines(accounts, w, t, tx, n - 1, stamp);
      var e := NextEntry(accounts, before.ledger, t, tx, n - 1, stamp);
      UpsertDebits(before.rows, e, account);
      UpsertCredits(before.rows, e, account);
      FoldAppend(before.ledger, e, DebitOf(account));
      FoldAppend(before.ledger, e, CreditOf(account));
    }
  }

  lemma {:induction false} RunKeepsTotals(steps: seq<Step>, account: nat)
    ensures TotalsAgree(Tables(Final(steps).ledger, Final(steps).rows), account)
  {
    if steps != [] {
      RunKeepsTotals(steps[..|steps| - 1], account);
      var b, s := Final(steps[..|steps| - 1]), steps[|steps| - 1];
      TablesAfter(b, s);
      if s.DeliverStep? && OutcomeOf(b, s.t) == Post {
        PostLinesTotal(b.accounts, Tables(b.ledger, b.rows), s.t, b.txs[s.t], |b.txs[s.t].lines|, s.stamp, account);
      }
    }
  }

  /** In every run the debit totals of an account over all its periods add up to the debits of its
      ledger and of the posted journals, and the credit totals to the credits. */
  lemma PeriodsAddUp(steps: seq<Step>, account: nat)
    ensures RowsDebit(Final(steps).rows, account) == Fold(Final(steps).ledger, DebitOf(account))
    ensures RowsDebit(Final(steps).rows, account) == PostedSum(Final(steps).txs, DebitTotal(account))
    ensures RowsCredit(Final(steps).rows, account) == Fold(Final(steps).ledger, CreditOf(account))
    ensures RowsCredit(Final(steps).rows, account) == PostedSum(Final(steps).txs, CreditTotal(account))
    ensures RowsDebit(Final(steps).rows, account) - RowsCredit(Final(steps).rows, account)
         == PostedSum(Final(steps).txs, NetWeight(account))
  {
    RunKeepsTotals(steps, account);
    LedgerDebits(steps, account);
    LedgerCredits(steps, account);
    SidesNet(Final(steps).txs, account);
  }
}
