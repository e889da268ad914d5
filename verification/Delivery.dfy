/** Deliveries commute: for a fixed set of created transactions the outcome does not depend on
    the order in which events arrive, on how often, or on the stamps drawn. */
module Delivery {
  import opened Prelude
  import opened Money
  import opened Books
  import opened LedgerRuns
  import opened Postings
  import opened Balances
  import opened Losses
  import opened Outbox

  predicate AllDeliveries(ds: seq<Step>) {
    forall k :: 0 <= k < |ds| ==> ds[k].DeliverStep?
  }

  ghost predicate Covers(ds: seq<Step>, t: nat) {
    exists k :: 0 <= k < |ds| && Delivers(ds[k], t)
  }

  /** What one delivery makes of a transaction. */
  function Settled(tx: Tx): Tx {
    if tx.status != Draft then tx else tx.(status := if tx.lines == [] then Failed else Posted)
  }

  lemma {:induction false} DeliverySettlesIt(b: Books, t: nat, isReversal: bool, stamp: Stamp, u: nat)
    requires JournalsOk(b.accounts, b.txs) && u < |b.txs|
    ensures var after := Deliver(b, t, isReversal, stamp);
            after.accounts == b.accounts && |after.txs| == |b.txs|
            && after.txs[u] == if t == u then Settled(b.txs[u]) else b.txs[u]
  {
  }

  /** After any deliveries, exactly the covered transactions are settled. */
  lemma {:induction false} DeliveriesSettle(pre: seq<Step>, ds: seq<Step>, u: nat)
    requires AllDeliveries(ds) && u < |Final(pre).txs|
    ensures var b, after := Final(pre), Final(pre + ds);
            && after.accounts == b.accounts && |after.txs| == |b.txs|
            && after.txs[u] == if Covers(ds, u) then Settled(b.txs[u]) else b.txs[u]
    decreases |ds|
  {
    if ds == [] {
      assert pre + ds == pre;
    } else {
      var front, d := ds[..|ds| - 1], ds[|ds| - 1];
      DeliveriesSettle(pre, front, u);
      RunKeepsTxs(pre + front);
      assert (pre + ds)[..|pre + ds| - 1] == pre + front;
      DeliverySettlesIt(Final(pre + front), d.t, d.isReversal, d.stamp, u);
      CoversLast(front, d, u);
      assert ds == front + [d];
    }
  }

  lemma CoversLast(front: seq<Step>, d: Step, u: nat)
    ensures Covers(front + [d], u) <==> Covers(front, u) || Delivers(d, u)
  {
    var ds := front + [d];
    if Covers(front, u) {
      var k :| 0 <= k < |front| && Delivers(front[k], u);
      assert Delivers(ds[k], u);
    }
    if Delivers(d, u) {
      assert Delivers(ds[|front|], u);
    }
  }

  /** The stored period totals; a missing row reads as zero. */
  function PeriodTotals(b: Books, account: nat, period: int): (int, int) {
    var at := FindRow(b.rows, |b.rows|, account, period);
    if at.Some? then (b.rows[at.value].totalDebit, b.rows[at.value].totalCredit) else (0, 0)
  }

  /** In every run the stored period totals are the sums of the posted journals of the period. */
  lemma {:induction false} TotalsArePosted(steps: seq<Step>, account: nat, period: int)
    ensures var b := Final(steps);
            PeriodTotals(b, account, period)
              == (PostedSum(b.txs, DebitWeight(account, period)), PostedSum(b.txs, CreditWeight(account, period)))
  {
    var b := Final(steps);
    SummariesAgree(steps, account, period);
    RunKeepsLedgerIsPosted(steps, account, period);
    if FindRow(b.rows, |b.rows|, account, period).None? {
      NoEntriesNoSums(b.ledger, account, period);
    }
  }

  /** Two series of deliveries that cover the same transactions, after the same run, end with the
      same transactions and statuses, the same debit-minus-credit balance of every account, and
      the same debit and credit total of every account and period. Where an account's keys ascend
      in both, its stored balances are the same; and whatever ids are drawn, they are the same exactly
      when both lost the same on the account. */
  lemma {:induction false} OrderDoesNotMatter(pre: seq<Step>, ds: seq<Step>, ds': seq<Step>, account: nat, period: int)
    requires AllDeliveries(ds) && AllDeliveries(ds')
    requires forall t :: Covers(ds, t) <==> Covers(ds', t)
    ensures var b, b' := Final(pre + ds), Final(pre + ds');
            && b.txs == b'.txs
            && Fold(b.ledger, NetAt(account)) == Fold(b'.ledger, NetAt(account))
            && PeriodTotals(b, account, period) == PeriodTotals(b', account, period)
            && (KeysAscend(b.ledger, account) && KeysAscend(b'.ledger, account) ==> Stored(b.ledger, account) == Stored(b'.ledger, account))
            && (Clocked(pre + ds) && Clocked(pre + ds') ==>
                (Stored(b.ledger, account) == Stored(b'.ledger, account) <==> LostInRun(pre + ds, account) == LostInRun(pre + ds', account)))
  {
    var b, b' := Final(pre + ds), Final(pre + ds');
    SameSettled(pre, ds, ds');
    RunKeepsLedgerIsPosted(pre + ds, account, period);
    RunKeepsLedgerIsPosted(pre + ds', account, period);
    TotalsArePosted(pre + ds, account, period);
    TotalsArePosted(pre + ds', account, period);
    if KeysAscend(b.ledger, account) && KeysAscend(b'.ledger, account) {
      StoredIsPosted(pre + ds, account);
      StoredIsPosted(pre + ds', account);
    }
    if Clocked(pre + ds) && Clocked(pre + ds') {
      StoredIsPostedLessLost(pre + ds, account);
      StoredIsPostedLessLost(pre + ds', account);
    }
  }

  lemma SameSettled(pre: seq<Step>, ds: seq<Step>, ds': seq<Step>)
    requires AllDeliveries(ds) && AllDeliveries(ds')
    requires forall t :: Covers(ds, t) <==> Covers(ds', t)
    ensures Final(pre + ds).txs == Final(pre + ds').txs
    ensures Final(pre + ds).accounts == Final(pre + ds').accounts
  {
    AccountsKept(pre, ds);
    AccountsKept(pre, ds');
    forall u: nat | u < |Final(pre).txs|
      ensures Final(pre + ds).txs[u] == Final(pre + ds').txs[u]
    {
      DeliveriesSettle(pre, ds, u);
      DeliveriesSettle(pre, ds', u);
    }
  }

  lemma {:induction false} AccountsKept(pre: seq<Step>, ds: seq<Step>)
    requires AllDeliveries(ds)
    ensures Final(pre + ds).accounts == Final(pre).accounts && |Final(pre + ds).txs| == |Final(pre).txs|
    decreases |ds|
  {
    if ds == [] {
      assert pre + ds == pre;
    } else {
      AccountsKept(pre, ds[..|ds| - 1]);
      assert (pre + ds)[..|pre + ds| - 1] == pre + ds[..|ds| - 1];
    }
  }
}
