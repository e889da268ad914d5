/** Stored balances over whole runs, with whatever ids are drawn. A posting reads the clock after
    everything stored; then each account's stored balance is what the posted journals say, less the
    lines that postings lost because their ids sort before an earlier line's on the account. */
module Losses {
  import opened Prelude
  import opened Money
  import opened Rules
  import opened Chart
  import opened Books
  import opened Journals
  import opened LedgerRuns
  import opened Postings
  import opened Balances
  import Sums

  /** The step posts a transaction. */
  predicate Posts(b: Books, s: Step) {
    s.DeliverStep? && OutcomeOf(b, s.t) == Post
  }

  /** A posting's clock reading is later than everything stored. */
  predicate Later(b: Books, s: Step) {
    s.DeliverStep? ==> forall k :: 0 <= k < |b.ledger| ==> b.ledger[k].postedAt < s.stamp.now
  }

  ghost predicate Clocked(steps: seq<Step>) {
    steps != [] ==>
      && Clocked(steps[..|steps| - 1])
      && (Posts(Final(steps[..|steps| - 1]), steps[|steps| - 1]) ==> Later(Final(steps[..|steps| - 1]), steps[|steps| - 1]))
  }

  /** What a step loses on an account. */
  function LostInStep(b: Books, s: Step, account: nat): int {
    if Posts(b, s) then Lost(b.accounts, b.txs[s.t], |b.txs[s.t].lines|, s.stamp, account) else 0
  }

  ghost function LostInRun(steps: seq<Step>, account: nat): int {
    if steps == [] then 0
    else LostInRun(steps[..|steps| - 1], account) + LostInStep(Final(steps[..|steps| - 1]), steps[|steps| - 1], account)
  }

  /** What holds of one account's stored balance when `lost` cents have been lost. */
  predicate StoredLess(b: Books, account: nat, lost: int) {
    Stored(b.ledger, account) == SignOf(NormalOf(b.accounts, account)) * PostedSum(b.txs, NetWeight(account)) - lost
  }

  lemma PostKeepsStored(b: Books, t: nat, isReversal: bool, stamp: Stamp, account: nat, lost: int)
    requires StoredLess(b, account, lost) && t < |b.txs| && b.txs[t].status == Draft
    requires forall k :: 0 <= k < |b.ledger| ==> b.ledger[k].postedAt < stamp.now
    ensures StoredLess(PostTx(b, t, isReversal, stamp), account, lost + Lost(b.accounts, b.txs[t], |b.txs[t].lines|, stamp, account))
  {
    var w, tx := Tables(b.ledger, b.rows), b.txs[t];
    StoredMovesByRecords(b.accounts, w, t, tx, stamp, account);
    PostAddsNet(b.txs, t, account);
    SignAdds(NormalOf(b.accounts, account), PostedSum(b.txs, NetWeight(account)), NetOn(tx.lines, account));
  }

  lemma PostAddsNet(txs: seq<Tx>, t: nat, account: nat)
    requires t < |txs| && txs[t].status == Draft
    ensures PostedSum(SetStatus(txs, t, Posted), NetWeight(account)) == PostedSum(txs, NetWeight(account)) + NetOn(txs[t].lines, account)
  {
    WeightsOdd(account);
    PostAddsToSums(txs, t, NetWeight(account), 0);
  }

  lemma {:induction false} NoEntries(ledger: seq<LedgerEntry>, account: nat)
    requires forall k :: 0 <= k < |ledger| ==> ledger[k].account != account
    ensures Fold(ledger, NetAt(account)) == 0 && Stored(ledger, account) == 0
  {
    if ledger != [] {
      NoEntries(ledger[..|ledger| - 1], account);
      LastEntryPrefix(ledger[..|ledger| - 1], [ledger[|ledger| - 1]], |ledger| - 1, account);
      assert ledger[..|ledger| - 1] + [ledger[|ledger| - 1]] == ledger;
    }
  }

  /** Creating an account fixes its normal side before anything is posted to it. */
  lemma ChartKeepsStored(steps: seq<Step>, op: ChartOp, account: nat, lost: int)
    requires StoredLess(Final(steps), account, lost)
    ensures StoredLess(Final(steps).(accounts := Chart.Apply(Final(steps).accounts, op)), account, lost)
  {
    var b := Final(steps);
    RunKeepsTxs(steps);
    ChartRuns.OperationKeeps(b.accounts, op);
    if account >= |b.accounts| {
      RunKeepsEntries(steps);
      NoEntries(b.ledger, account);
      RunKeepsLedgerIsPosted(steps, account, 0);
    }
  }

  lemma OtherStepsKeepStored(b: Books, s: Step, account: nat, lost: int)
    requires StoredLess(b, account, lost) && !Posts(b, s) && !s.ChartStep?
    ensures StoredLess(Next(b, s), account, lost)
  {
    WeightsOdd(account);
    match s
    case CreateStep(req) =>
      if NewTx(b.accounts, req).Ok? {
        AppendKeepsSums(b.txs, NewTx(b.accounts, req).value, NetWeight(account), 0);
      }
    case DeliverStep(t, _, _) =>
      if OutcomeOf(b, t) == Fail {
        StatusKeepsSums(b.txs, t, Failed, NetWeight(account), 0);
      }
    case VoidStep(t, p) =>
      if VoidCheck(b, t).None? {
        StatusKeepsSums(b.txs, t, Voided, NetWeight(account), 0);
        AppendKeepsSums(SetStatus(b.txs, t, Voided), ReversalOf(b.txs[t], t, p), NetWeight(account), 0);
      }
  }

  /** In every clocked run, with arbitrary ids, for every account: the stored balance is the
      debit-minus-credit sum of the posted journals on the normal side, less what was lost. So it is
      right exactly when the losses cancel. */
  lemma {:induction false} StoredIsPostedLessLost(steps: seq<Step>, account: nat)
    requires Clocked(steps)
    ensures StoredLess(Final(steps), account, LostInRun(steps, account))
    ensures Stored(Final(steps).ledger, account)
              == SignOf(NormalOf(Final(steps).accounts, account)) * PostedSum(Final(steps).txs, NetWeight(account)) <==>
            LostInRun(steps, account) == 0
  {
    if steps != [] {
      var front, s := steps[..|steps| - 1], steps[|steps| - 1];
      var b, lost := Final(front), LostInRun(front, account);
      StoredIsPostedLessLost(front, account);
      if s.ChartStep? {
        ChartKeepsStored(front, s.op, account, lost);
      } else if Posts(b, s) {
        PostKeepsStored(b, s.t, s.isReversal, s.stamp, account, lost);
      } else {
        OtherStepsKeepStored(b, s, account, lost);
      }
    }
  }

  /** Where an account's keys ascend, nothing was lost on it. */
  lemma AscendingLosesNothing(steps: seq<Step>, account: nat)
    requires Clocked(steps) && KeysAscend(Final(steps).ledger, account)
    ensures LostInRun(steps, account) == 0
  {
    StoredIsPostedLessLost(steps, account);
    StoredIsPosted(steps, account);
  }

  // ----- Losses that cannot cancel -----

  lemma {:induction false} SingleHitLosesNothing(accounts: seq<Account>, tx: Tx, n: nat, stamp: Stamp, account: nat)
    requires n <= |tx.lines|
    requires forall i, j :: 0 <= i < j < n && tx.lines[i].account == account ==> tx.lines[j].account != account
    ensures Lost(accounts, tx, n, stamp, account) == 0
  {
    if n > 0 {
      SingleHitLosesNothing(accounts, tx, n - 1, stamp, account);
    }
  }

  predicate HitsOnce(tx: Tx, account: nat) {
    forall i, j :: 0 <= i < j < |tx.lines| && tx.lines[i].account == account ==> tx.lines[j].account != account
  }

  /** A journal that hits the account once at most, or debits it twice as a PPN sale does cash. */
  ghost predicate OnceOrPpnSale(tx: Tx, account: nat) {
    HitsOnce(tx, account) || exists x, y :: DebitsTwice(tx, account, x, y) && y > 0
  }

  /** The step posts a journal that hits the account more than once, and draws for the second hit an
      id that sorts before the first's. */
  predicate DrawsBackwards(b: Books, s: Step, account: nat) {
    Posts(b, s) && !HitsOnce(b.txs[s.t], account) && s.stamp.newId(2) < s.stamp.newId(0)
  }

  lemma StepLosesIff(b: Books, s: Step, account: nat)
    requires Posts(b, s) ==> OnceOrPpnSale(b.txs[s.t], account) && NormalOf(b.accounts, account) == DebitNormal
    ensures LostInStep(b, s, account) >= 0
    ensures LostInStep(b, s, account) > 0 <==> DrawsBackwards(b, s, account)
  {
    if Posts(b, s) {
      var tx := b.txs[s.t];
      if HitsOnce(tx, account) {
        SingleHitLosesNothing(b.accounts, tx, |tx.lines|, s.stamp, account);
      } else {
        var x, y :| DebitsTwice(tx, account, x, y) && y > 0;
        assert tx.lines[0].account == tx.lines[2].account;
        assert IsRecord(tx, 0, s.stamp);
        LostOf(b.accounts, tx, s.stamp, account, 0, 2);
      }
    }
  }

  /** All postings up to some point hit the account once or as a PPN sale does. */
  ghost predicate OnlySalesRepeat(steps: seq<Step>, account: nat) {
    steps != [] ==>
      && OnlySalesRepeat(steps[..|steps| - 1], account)
      && var b, s := Final(steps[..|steps| - 1]), steps[|steps| - 1];
         Posts(b, s) ==> OnceOrPpnSale(b.txs[s.t], account) && NormalOf(b.accounts, account) == DebitNormal
  }

  ghost predicate NeverBackwards(steps: seq<Step>, account: nat) {
    steps != [] ==>
      && NeverBackwards(steps[..|steps| - 1], account)
      && !DrawsBackwards(Final(steps[..|steps| - 1]), steps[|steps| - 1], account)
  }

  lemma {:induction false} LosesIffBackwards(steps: seq<Step>, account: nat)
    requires OnlySalesRepeat(steps, account)
    ensures LostInRun(steps, account) >= 0
    ensures LostInRun(steps, account) == 0 <==> NeverBackwards(steps, account)
  {
    if steps != [] {
      LosesIffBackwards(steps[..|steps| - 1], account);
      StepLosesIff(Final(steps[..|steps| - 1]), steps[|steps| - 1], account);
    }
  }

  /** With any number of PPN sales, in any clocked run whose other postings hit cash once at most:
      the stored cash balance is right exactly when no sale drew its second id before its first, and
      otherwise it is too low. */
  lemma PpnSalesKeptIff(steps: seq<Step>, cash: nat)
    requires Clocked(steps) && OnlySalesRepeat(steps, cash)
    ensures var right := SignOf(NormalOf(Final(steps).accounts, cash)) * PostedSum(Final(steps).txs, NetWeight(cash));
            && Stored(Final(steps).ledger, cash) <= right
            && (Stored(Final(steps).ledger, cash) == right <==> NeverBackwards(steps, cash))
  {
    StoredIsPostedLessLost(steps, cash);
    LosesIffBackwards(steps, cash);
  }
}
