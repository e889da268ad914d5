/** The ending balances that the period summaries store. Each is the running balance of the entry
    inserted last for its account and period; these lemmas say exactly when that is the balance at
    the end of the period. */
module Endings {
  import opened Prelude
  import opened Chart
  import opened Books
  import opened LedgerRuns
  import opened Postings
  import opened Balances

  /** Signed contributions of entries lo..hi to an account, of periods after `period` (`later`)
      or up to it. */
  function Dated(accounts: seq<Account>, ledger: seq<LedgerEntry>, lo: nat, hi: nat, account: nat, period: int, later: bool): int
    requires lo <= hi <= |ledger|
    decreases hi
  {
    if lo == hi then 0
    else
      Dated(accounts, ledger, lo, hi - 1, account, period, later)
      + if (ledger[hi - 1].period > period) == later then Contribution(accounts, ledger[hi - 1], account) else 0
  }

  lemma {:induction false} PlainByDate(accounts: seq<Account>, ledger: seq<LedgerEntry>, n: nat, account: nat, period: int)
    requires n <= |ledger|
    ensures Plain(accounts, ledger, n, account)
         == Dated(accounts, ledger, 0, n, account, period, false) + Dated(accounts, ledger, 0, n, account, period, true)
  {
    if n > 0 {
      PlainByDate(accounts, ledger, n - 1, account, period);
    }
  }

  lemma {:induction false} DatedSplits(accounts: seq<Account>, ledger: seq<LedgerEntry>, mid: nat, hi: nat, account: nat,
      period: int, later: bool)
    requires mid <= hi <= |ledger|
    ensures Dated(accounts, ledger, 0, hi, account, period, later)
         == Dated(accounts, ledger, 0, mid, account, period, later) + Dated(accounts, ledger, mid, hi, account, period, later)
    decreases hi
  {
    if mid < hi {
      DatedSplits(accounts, ledger, mid, hi - 1, account, period, later);
    }
  }

  lemma {:induction false} DatedZero(accounts: seq<Account>, ledger: seq<LedgerEntry>, lo: nat, hi: nat, account: nat,
      period: int, later: bool)
    requires lo <= hi <= |ledger|
    requires forall i :: lo <= i < hi && ledger[i].account == account ==> (ledger[i].period > period) != later
    ensures Dated(accounts, ledger, lo, hi, account, period, later) == 0
    decreases hi
  {
    if lo < hi {
      DatedZero(accounts, ledger, lo, hi - 1, account, period, later);
    }
  }

  /** The balance of an account at the end of a period: all contributions dated up to it. */
  function CumulativeAt(accounts: seq<Account>, ledger: seq<LedgerEntry>, account: nat, period: int): int {
    Dated(accounts, ledger, 0, |ledger|, account, period, false)
  }

  /** Position of the entry inserted last for an account and period. */
  function LastAt(ledger: seq<LedgerEntry>, n: nat, account: nat, period: int): (r: Option<nat>)
    requires n <= |ledger|
    ensures r.Some? ==> r.value < n && ledger[r.value].account == account && ledger[r.value].period == period
  {
    if n == 0 then None
    else if ledger[n - 1].account == account && ledger[n - 1].period == period then Some(n - 1)
    else LastAt(ledger, n - 1, account, period)
  }

  lemma {:induction false} LastRunningAt(ledger: seq<LedgerEntry>, n: nat, account: nat, period: int)
    requires n <= |ledger|
    ensures var k := LastAt(ledger, n, account, period);
            LastRunning(ledger[..n], account, period) == if k.Some? then Some(ledger[k.value].running) else None
  {
    if n > 0 {
      assert ledger[..n][..n - 1] == ledger[..n - 1];
      LastRunningAt(ledger, n - 1, account, period);
    }
  }

  /** The ending balance the summary stores for a period. */
  function Ending(b: Books, account: nat, period: int): Option<int> {
    var at := FindRow(b.rows, |b.rows|, account, period);
    if at.Some? then Some(b.rows[at.value].ending) else None
  }

  /** By how much a period's stored ending balance is too low: by what was posted for earlier periods
      after the period's last entry, less what was posted for later periods before it, and by what
      that entry's running balance falls short. */
  function EndingError(b: Books, account: nat, period: int): int {
    match LastAt(b.ledger, |b.ledger|, account, period)
    case None => 0
    case Some(k) =>
      Dated(b.accounts, b.ledger, k + 1, |b.ledger|, account, period, false)
      - Dated(b.accounts, b.ledger, 0, k + 1, account, period, true)
      + Shortfall(b.accounts, b.ledger, k)
  }

  /** In every run the stored ending balance of a period misses the true one by just that; so it is
      right exactly when the three amounts cancel. */
  lemma {:induction false} EndingRightIff(steps: seq<Step>, account: nat, period: int)
    requires Ending(Final(steps), account, period).Some?
    ensures LastAt(Final(steps).ledger, |Final(steps).ledger|, account, period).Some?
    ensures Ending(Final(steps), account, period).value
         == CumulativeAt(Final(steps).accounts, Final(steps).ledger, account, period) - EndingError(Final(steps), account, period)
    ensures Ending(Final(steps), account, period).value
              == CumulativeAt(Final(steps).accounts, Final(steps).ledger, account, period) <==>
            EndingError(Final(steps), account, period) == 0
  {
    var b := Final(steps);
    SummariesAgree(steps, account, period);
    LastRunningAt(b.ledger, |b.ledger|, account, period);
    assert b.ledger[..|b.ledger|] == b.ledger;
    var k := LastAt(b.ledger, |b.ledger|, account, period).value;
    PlainByDate(b.accounts, b.ledger, k + 1, account, period);
    DatedSplits(b.accounts, b.ledger, k + 1, |b.ledger|, account, period, false);
  }

  lemma {:induction false} NoneAfterLast(ledger: seq<LedgerEntry>, n: nat, account: nat, period: int, i: nat)
    requires i < n <= |ledger| && ledger[i].account == account && ledger[i].period == period
    ensures LastAt(ledger, n, account, period).Some? && i <= LastAt(ledger, n, account, period).value
  {
    if i < n - 1 {
      NoneAfterLast(ledger, n - 1, account, period, i);
    }
  }

  predicate InPeriodOrder(ledger: seq<LedgerEntry>, account: nat) {
    forall i, j :: 0 <= i < j < |ledger| && ledger[i].account == account == ledger[j].account ==>
      ledger[i].period <= ledger[j].period
  }

  /** With an account's transactions posted in non-decreasing period order, an ending balance misses
      only what the running balance of its last entry does; so where the account's keys ascend as
      well, every ending balance is right. */
  lemma {:induction false} EndingRightInOrder(steps: seq<Step>, account: nat, period: int)
    requires Ending(Final(steps), account, period).Some? && InPeriodOrder(Final(steps).ledger, account)
    ensures LastAt(Final(steps).ledger, |Final(steps).ledger|, account, period).Some?
    ensures EndingError(Final(steps), account, period)
         == Shortfall(Final(steps).accounts, Final(steps).ledger, LastAt(Final(steps).ledger, |Final(steps).ledger|, account, period).value)
    ensures KeysAscend(Final(steps).ledger, account) ==>
              Ending(Final(steps), account, period) == Some(CumulativeAt(Final(steps).accounts, Final(steps).ledger, account, period))
              && EndingError(Final(steps), account, period) == 0
  {
    EndingRightIff(steps, account, period);
    var b := Final(steps);
    var k := LastAt(b.ledger, |b.ledger|, account, period).value;
    DatedZero(b.accounts, b.ledger, 0, k + 1, account, period, true);
    forall i | k + 1 <= i < |b.ledger| && b.ledger[i].account == account ensures b.ledger[i].period > period {
      if b.ledger[i].period == period {
        NoneAfterLast(b.ledger, |b.ledger|, account, period, i);
      }
    }
    DatedZero(b.accounts, b.ledger, k + 1, |b.ledger|, account, period, false);
    if KeysAscend(b.ledger, account) {
      RunKeepsEntries(steps);
      AscendingKeysExact(b.accounts, b.ledger, k);
    }
  }
}
