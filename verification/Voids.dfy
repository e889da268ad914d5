/** Voiding succeeds on every posted transaction, reversals included, and so chains of reversals of
    any length exist. */
module Voids {
  import opened Prelude
  import opened Money
  import opened Rules
  import opened Chart
  import opened Books
  import opened Journals
  import opened LedgerRuns

  /** A draft with the same journal the other way round. */
  predicate Reverses(rev: Tx, original: Tx, t: nat, period: int) {
    && rev.kind == Reversal && rev.status == Draft && rev.reverses == Some(t) && rev.period == period
    && rev.mode == original.mode && rev.amount == original.amount && rev.category == original.category && rev.tax == original.tax
    && |rev.lines| == |original.lines|
    && forall k :: 0 <= k < |rev.lines| ==>
        rev.lines[k].account == original.lines[k].account
        && rev.lines[k].debit == original.lines[k].credit && rev.lines[k].credit == original.lines[k].debit
  }

  /** A void changes the books exactly when the transaction is posted, whatever it is. */
  lemma VoidsIff(b: Books, t: nat, period: int)
    ensures VoidTx(b, t, period) != b <==> t < |b.txs| && b.txs[t].status == Posted
  {
    assert VoidTx(b, t, period) != b ==> VoidCheck(b, t).None?;
    if VoidCheck(b, t).None? {
      assert |VoidTx(b, t, period).txs| == |b.txs| + 1;
    }
  }

  /** Then it is marked, its reversal is appended as a draft of the current period with the created
      event, and nothing else changes. */
  lemma VoidLeaves(b: Books, t: nat, period: int)
    requires t < |b.txs| && b.txs[t].status == Posted
    ensures var after := VoidTx(b, t, period);
            && |after.txs| == |b.txs| + 1 && Reverses(after.txs[|b.txs|], b.txs[t], t, period)
            && after == b.(txs := b.txs[t := b.txs[t].(status := Voided)] + [after.txs[|b.txs|]],
                           outbox := b.outbox + [TransactionCreated(|b.txs|, true)])
  {
  }

  /** The steps that void a transaction and deliver its reversal. */
  function VoidAndDeliver(steps: seq<Step>, t: nat, rev: nat, period: int, stamp: Stamp): seq<Step> {
    steps + [VoidStep(t, period)] + [DeliverStep(rev, true, stamp)]
  }

  lemma ReversalWillPost(b: Books, t: nat, period: int)
    requires TxsOk(b) && t < |b.txs| && b.txs[t].status == Posted && TxsOk(VoidTx(b, t, period))
    ensures OutcomeOf(VoidTx(b, t, period), |b.txs|) == Post
  {
    assert b.txs[t].lines != [];
    assert VoidTx(b, t, period).txs[|b.txs|] == ReversalOf(b.txs[t], t, period);
  }

  lemma ReversalPosts(b: Books, t: nat, period: int, stamp: Stamp)
    requires TxsOk(b) && t < |b.txs| && b.txs[t].status == Posted && TxsOk(VoidTx(b, t, period))
    ensures var after := Deliver(VoidTx(b, t, period), |b.txs|, true, stamp);
            && after.txs == SetStatus(b.txs, t, Voided) + [ReversalOf(b.txs[t], t, period).(status := Posted)]
            && Root(Links(after.txs), |b.txs|) == Root(Links(b.txs), t)
            && Depth(Links(after.txs), |b.txs|) == Depth(Links(b.txs), t) + 1
  {
    ReversalWillPost(b, t, period);
    AppendKeepsChains(SetStatus(b.txs, t, Voided), ReversalOf(b.txs[t], t, period).(status := Posted));
    assert Links(SetStatus(b.txs, t, Voided)) == Links(b.txs);
  }

  /** In every run a posted transaction can be voided and its reversal posted, at any time and with
      any stamp; and that reversal is posted in its turn, one deeper in the chain. */
  lemma {:induction false} VoidAndDeliverWorks(steps: seq<Step>, t: nat, period: int, stamp: Stamp)
    requires IsRun(steps) && t < |Final(steps).txs| && Final(steps).txs[t].status == Posted
    ensures var rev, longer := |Final(steps).txs|, VoidAndDeliver(steps, t, |Final(steps).txs|, period, stamp);
            && IsRun(longer)
            && |Final(longer).txs| == rev + 1 && Final(longer).txs[rev].status == Posted
            && Final(longer).txs[rev].reverses == Some(t)
            && Root(Links(Final(longer).txs), rev) == Root(Links(Final(steps).txs), t)
            && Depth(Links(Final(longer).txs), rev) == Depth(Links(Final(steps).txs), t) + 1
  {
    var b := Final(steps);
    RunKeepsTxs(steps);
    RunKeepsTxs(steps + [VoidStep(t, period)]);
    RunStep(steps, VoidStep(t, period));
    VoidLeaves(b, t, period);
    RunStep(steps + [VoidStep(t, period)], DeliverStep(|b.txs|, true, stamp));
    assert VoidTx(b, t, period).outbox[|b.outbox|] == TransactionCreated(|b.txs|, true);
    ReversalPosts(b, t, period, stamp);
  }

  /** So for every n every run with a posted transaction extends to one whose chain goes n deeper. */
  lemma {:induction false} ChainsOfAnyDepth(steps: seq<Step>, t: nat, n: nat, period: int, stamp: Stamp) returns (longer: seq<Step>, last: nat)
    requires IsRun(steps) && t < |Final(steps).txs| && Final(steps).txs[t].status == Posted
    ensures steps <= longer && IsRun(longer) && last < |Final(longer).txs| && Final(longer).txs[last].status == Posted
    ensures Root(Links(Final(longer).txs), last) == Root(Links(Final(steps).txs), t)
    ensures Depth(Links(Final(longer).txs), last) == Depth(Links(Final(steps).txs), t) + n
  {
    if n == 0 {
      longer, last := steps, t;
    } else {
      var before, u := ChainsOfAnyDepth(steps, t, n - 1, period, stamp);
      VoidAndDeliverWorks(before, u, period, stamp);
      longer, last := VoidAndDeliver(before, u, |Final(before).txs|, period, stamp), |Final(before).txs|;
    }
  }
}
