/** The stored running balances. The worker builds each balance on the entry that
    sorts last by (posted_at, id), which need not be the entry inserted last: within one posting
    all entries share the clock reading and the ids are random. These lemmas say exactly when the
    stored numbers are the plain sums. */
module Balances {
  import opened Prelude
  import opened Money
  import opened Rules
  import opened Chart
  import opened Books
  import opened Journals
  import opened LedgerRuns
  import opened Postings
  import Sums

  /** The signed contributions of the first `n` entries to an account: the plain balance. */
  function Plain(accounts: seq<Account>, ledger: seq<LedgerEntry>, n: nat, account: nat): int
    requires n <= |ledger|
  {
    if n == 0 then 0
    else Plain(accounts, ledger, n - 1, account) + Contribution(accounts, ledger[n - 1], account)
  }

  function Contribution(accounts: seq<Account>, e: LedgerEntry, account: nat): int {
    if e.account == account then Signed(e.debit, e.credit, NormalOf(accounts, account)) else 0
  }

  /** Entry k carries the plain balance of its account. */
  predicate ExactAt(accounts: seq<Account>, ledger: seq<LedgerEntry>, k: nat)
    requires k < |ledger|
  {
    ledger[k].running == Plain(accounts, ledger, k + 1, ledger[k].account)
  }

  /** By how much entry k's running balance falls short of the plain balance. */
  function Shortfall(accounts: seq<Account>, ledger: seq<LedgerEntry>, k: nat): int
    requires k < |ledger|
  {
    Plain(accounts, ledger, k + 1, ledger[k].account) - ledger[k].running
  }

  /** Whatever was inserted for the account after the entry that entry k builds on cancels out. */
  predicate NothingMissed(accounts: seq<Account>, ledger: seq<LedgerEntry>, k: nat)
    requires k < |ledger|
  {
    var a := ledger[k].account;
    var read := LastEntry(ledger, k, a);
    Plain(accounts, ledger, k, a) == if read.Some? then Plain(accounts, ledger, read.value + 1, a) else 0
  }

  /** How every entry was computed. */
  predicate Chained(accounts: seq<Account>, ledger: seq<LedgerEntry>) {
    forall k :: 0 <= k < |ledger| ==> ChainedAt(accounts, ledger, k)
  }

  predicate ChainedAt(accounts: seq<Account>, ledger: seq<LedgerEntry>, k: nat)
    requires k < |ledger|
  {
    var e := ledger[k];
    e.running == LastBalance(ledger, k, e.account) + Signed(e.debit, e.credit, NormalOf(accounts, e.account))
  }

  lemma {:induction false} LastEntryPrefix(ledger: seq<LedgerEntry>, tail: seq<LedgerEntry>, n: nat, account: nat)
    requires n <= |ledger|
    ensures LastEntry(ledger + tail, n, account) == LastEntry(ledger, n, account)
  {
    if n > 0 {
      LastEntryPrefix(ledger, tail, n - 1, account);
    }
  }

  lemma {:induction false} PostLinesChained(accounts: seq<Account>, w: Tables, t: nat, tx: Tx, n: nat, stamp: Stamp)
    requires n <= |tx.lines| && Chained(accounts, w.ledger)
    ensures Chained(accounts, PostLines(accounts, w, t, tx, n, stamp).ledger)
  {
    if n > 0 {
      PostLinesChained(accounts, w, t, tx, n - 1, stamp);
      var before := PostLines(accounts, w, t, tx, n - 1, stamp).ledger;
      var e := NextEntry(accounts, before, t, tx, n - 1, stamp);
      forall k | 0 <= k < |before + [e]| ensures ChainedAt(accounts, before + [e], k) {
        LastEntryPrefix(before, [e], k, (before + [e])[k].account);
        if k < |before| {
          assert ChainedAt(accounts, before, k);
        }
      }
    }
  }

  /** The normal sides of existing accounts never change, so old entries stay what they were. */
  lemma ChartKeepsChained(accounts: seq<Account>, after: seq<Account>, ledger: seq<LedgerEntry>)
    requires Chained(accounts, ledger)
    requires forall k :: 0 <= k < |ledger| ==>
        ledger[k].account < |accounts| && NormalOf(after, ledger[k].account) == NormalOf(accounts, ledger[k].account)
    ensures Chained(after, ledger)
  {
    forall k | 0 <= k < |ledger| ensures ChainedAt(after, ledger, k) {
      assert ChainedAt(accounts, ledger, k);
    }
  }

  predicate AccountsExist(accounts: seq<Account>, ledger: seq<LedgerEntry>) {
    forall k :: 0 <= k < |ledger| ==> ledger[k].account < |accounts|
  }

  lemma {:induction false} PostLinesExist(accounts: seq<Account>, w: Tables, t: nat, tx: Tx, n: nat, stamp: Stamp)
    requires n <= |tx.lines| && Resolves(accounts, tx.lines) && AccountsExist(accounts, w.ledger)
    ensures AccountsExist(accounts, PostLines(accounts, w, t, tx, n, stamp).ledger)
  {
    if n > 0 {
      PostLinesExist(accounts, w, t, tx, n - 1, stamp);
      var before := PostLines(accounts, w, t, tx, n - 1, stamp).ledger;
      var e := NextEntry(accounts, before, t, tx, n - 1, stamp);
      assert e.account == tx.lines[n - 1].account;
      assert PostLines(accounts, w, t, tx, n, stamp).ledger == before + [e];
    }
  }

  predicate EntriesOk(b: Books) {
    Chained(b.accounts, b.ledger) && AccountsExist(b.accounts, b.ledger)
  }

  lemma ChartKeepsEntries(b: Books, op: ChartOp)
    requires EntriesOk(b) && ChartRuns.CodesUnique(b.accounts)
    ensures EntriesOk(b.(accounts := Chart.Apply(b.accounts, op)))
  {
    ChartRuns.OperationKeeps(b.accounts, op);
    ChartKeepsChained(b.accounts, Chart.Apply(b.accounts, op), b.ledger);
  }

  lemma PostKeepsEntries(b: Books, t: nat, isReversal: bool, stamp: Stamp)
    requires EntriesOk(b) && OutcomeOf(b, t) == Post
    ensures EntriesOk(PostTx(b, t, isReversal, stamp))
  {
    PostLinesChained(b.accounts, Tables(b.ledger, b.rows), t, b.txs[t], |b.txs[t].lines|, stamp);
    PostLinesExist(b.accounts, Tables(b.ledger, b.rows), t, b.txs[t], |b.txs[t].lines|, stamp);
  }

  lemma {:induction false} RunKeepsEntries(steps: seq<Step>)
    ensures EntriesOk(Final(steps))
  {
    if steps != [] {
      var b, s := Final(steps[..|steps| - 1]), steps[|steps| - 1];
      RunKeepsEntries(steps[..|steps| - 1]);
      RunKeepsTxs(steps[..|steps| - 1]);
      if s.ChartStep? {
        ChartKeepsEntries(b, s.op);
      } else if s.DeliverStep? && OutcomeOf(b, s.t) == Post {
        PostKeepsEntries(b, s.t, s.isReversal, s.stamp);
      }
    }
  }

  /** The account's running balances among the first n entries are the plain balances exactly when
      none of its entries missed anything; the whole result for any ledger the worker can write. */
  lemma {:induction false} ExactIffNothingMissed(accounts: seq<Account>, ledger: seq<LedgerEntry>, account: nat, n: nat)
    requires Chained(accounts, ledger) && n <= |ledger|
    ensures (forall k :: 0 <= k < n && ledger[k].account == account ==> ExactAt(accounts, ledger, k))
        <==> (forall k :: 0 <= k < n && ledger[k].account == account ==> NothingMissed(accounts, ledger, k))
  {
    if n > 0 {
      ExactIffNothingMissed(accounts, ledger, account, n - 1);
      if ledger[n - 1].account == account && forall k :: 0 <= k < n - 1 && ledger[k].account == account ==> ExactAt(accounts, ledger, k) {
        var k := n - 1;
        assert ChainedAt(accounts, ledger, k);
        var read := LastEntry(ledger, k, account);
        if read.Some? {
          assert ExactAt(accounts, ledger, read.value);
        }
        assert ExactAt(accounts, ledger, k) <==> NothingMissed(accounts, ledger, k);
      }
    }
  }

  /** Ids and clock readings ascend along the entries of the account. */
  predicate KeysAscend(ledger: seq<LedgerEntry>, account: nat) {
    forall i, j :: 0 <= i < j < |ledger| && ledger[i].account == account == ledger[j].account ==> SortsAfter(ledger[j], ledger[i])
  }

  lemma {:induction false} PlainGap(accounts: seq<Account>, ledger: seq<LedgerEntry>, lo: nat, hi: nat, account: nat)
    requires lo <= hi <= |ledger| && forall i :: lo <= i < hi ==> ledger[i].account != account
    ensures Plain(accounts, ledger, hi, account) == Plain(accounts, ledger, lo, account)
    decreases hi
  {
    if lo < hi {
      PlainGap(accounts, ledger, lo, hi - 1, account);
    }
  }

  /** When they do, the entry read is the one inserted last, and every running balance of the
      account is plain, however often one transaction hits it and whatever happens on others. */
  lemma AscendingKeysExact(accounts: seq<Account>, ledger: seq<LedgerEntry>, k: nat)
    requires Chained(accounts, ledger) && k < |ledger| && KeysAscend(ledger, ledger[k].account)
    ensures ExactAt(accounts, ledger, k)
  {
    var account := ledger[k].account;
    forall k | 0 <= k < |ledger| && ledger[k].account == account ensures NothingMissed(accounts, ledger, k) {
      ReadsNewest(ledger, k, account);
      var read := LastEntry(ledger, k, account);
      PlainGap(accounts, ledger, if read.Some? then read.value + 1 else 0, k, account);
    }
    ExactIffNothingMissed(accounts, ledger, account, |ledger|);
  }

  lemma {:induction false} ReadsNewest(ledger: seq<LedgerEntry>, n: nat, account: nat)
    requires KeysAscend(ledger, account) && n <= |ledger|
    ensures var read := LastEntry(ledger, n, account);
            forall i :: (if read.Some? then read.value + 1 else 0) <= i < n ==> ledger[i].account != account
  {
    var read := LastEntry(ledger, n, account);
    forall i | (if read.Some? then read.value + 1 else 0) <= i < n ensures ledger[i].account != account {
      if ledger[i].account == account {
        LastEntryIsGreatest(ledger, n, account, i);
      }
    }
  }

  /** The plain balance is the debit-minus-credit sum, turned to the account's normal side. */
  lemma {:induction false} PlainIsSignedNet(accounts: seq<Account>, ledger: seq<LedgerEntry>, account: nat)
    ensures Plain(accounts, ledger, |ledger|, account)
         == SignOf(NormalOf(accounts, account)) * Fold(ledger, NetAt(account))
    decreases |ledger|
  {
    if ledger != [] {
      var front := ledger[..|ledger| - 1];
      PlainIsSignedNet(accounts, front, account);
      PlainOfPrefix(accounts, ledger, |front|, account);
      assert ledger[..|front|] == front;
      var e := ledger[|front|];
      SignedIsDebitMinusCredit(e.debit, e.credit, NormalOf(accounts, account));
    }
  }

  lemma {:induction false} PlainOfPrefix(accounts: seq<Account>, ledger: seq<LedgerEntry>, n: nat, account: nat)
    requires n <= |ledger|
    ensures Plain(accounts, ledger[..n], n, account) == Plain(accounts, ledger, n, account)
  {
    PlainPrefixes(accounts, ledger, n, n, account);
  }

  lemma {:induction false} PlainPrefixes(accounts: seq<Account>, ledger: seq<LedgerEntry>, n: nat, k: nat, account: nat)
    requires k <= n <= |ledger|
    ensures Plain(accounts, ledger[..n], k, account) == Plain(accounts, ledger, k, account)
    decreases k
  {
    if k > 0 {
      PlainPrefixes(accounts, ledger, n, k - 1, account);
    }
  }

  /** The stored balance of an account: what the next posting would build on. */
  function Stored(ledger: seq<LedgerEntry>, account: nat): int {
    LastBalance(ledger, |ledger|, account)
  }

  lemma StoredIsPlain(accounts: seq<Account>, ledger: seq<LedgerEntry>, account: nat)
    requires Chained(accounts, ledger) && KeysAscend(ledger, account)
    ensures Stored(ledger, account) == Plain(accounts, ledger, |ledger|, account)
  {
    var read := LastEntry(ledger, |ledger|, account);
    ReadsNewest(ledger, |ledger|, account);
    if read.Some? {
      AscendingKeysExact(accounts, ledger, read.value);
      PlainGap(accounts, ledger, read.value + 1, |ledger|, account);
    } else {
      PlainGap(accounts, ledger, 0, |ledger|, account);
    }
  }

  /** In a run in which an account's keys ascend, each of its entries carries the prefix sum, and its
      stored balance is the debit-minus-credit sum of the posted journals on the normal side. */
  lemma {:induction false} StoredIsPosted(steps: seq<Step>, account: nat)
    requires KeysAscend(Final(steps).ledger, account)
    ensures var b := Final(steps);
            && (forall k :: 0 <= k < |b.ledger| && b.ledger[k].account == account ==> ExactAt(b.accounts, b.ledger, k))
            && Stored(b.ledger, account) == SignOf(NormalOf(b.accounts, account)) * PostedSum(b.txs, NetWeight(account))
  {
    var b := Final(steps);
    RunKeepsEntries(steps);
    forall k | 0 <= k < |b.ledger| && b.ledger[k].account == account ensures ExactAt(b.accounts, b.ledger, k) {
      AscendingKeysExact(b.accounts, b.ledger, k);
    }
    StoredIsPlain(b.accounts, b.ledger, account);
    PlainIsSignedNet(b.accounts, b.ledger, account);
    RunKeepsLedgerIsPosted(steps, account, 0);
  }

  // ----- When a posting keeps the keys ascending -----

  /** On an account, the stamp of a posting sorts after everything stored, and the ids of its lines
      ascend. */
  predicate StampAscends(ledger: seq<LedgerEntry>, tx: Tx, n: nat, stamp: Stamp, account: nat)
    requires n <= |tx.lines|
  {
    && (forall k, i :: 0 <= k < |ledger| && 0 <= i < n && ledger[k].account == account == tx.lines[i].account ==>
        stamp.now > ledger[k].postedAt || (stamp.now == ledger[k].postedAt && stamp.newId(i) > ledger[k].id))
    && (forall i, j :: 0 <= i < j < n && tx.lines[i].account == account == tx.lines[j].account ==> stamp.newId(i) < stamp.newId(j))
  }

  lemma {:induction false} PostedEntry(accounts: seq<Account>, w: Tables, t: nat, tx: Tx, n: nat, stamp: Stamp, k: nat)
    requires n <= |tx.lines| && k < |w.ledger| + n
    ensures var after := PostLines(accounts, w, t, tx, n, stamp).ledger;
            && |after| == |w.ledger| + n
            && (k < |w.ledger| ==> after[k] == w.ledger[k])
            && (k >= |w.ledger| ==>
                var i := k - |w.ledger|;
                after[k] == LedgerEntry(tx.lines[i].account, t, i, tx.period, tx.lines[i].debit, tx.lines[i].credit,
                                        after[k].running, stamp.now, stamp.newId(i)))
  {
    if n > 0 {
      if k < |w.ledger| + n - 1 {
        PostedEntry(accounts, w, t, tx, n - 1, stamp, k);
      } else if k > 0 {
        PostedEntry(accounts, w, t, tx, n - 1, stamp, k - 1);
      }
    }
  }

  /** A posting keeps an account's keys ascending exactly when its stamp ascends there. */
  lemma PostAscendsIff(accounts: seq<Account>, w: Tables, t: nat, tx: Tx, n: nat, stamp: Stamp, account: nat)
    requires n <= |tx.lines| && KeysAscend(w.ledger, account)
    ensures KeysAscend(PostLines(accounts, w, t, tx, n, stamp).ledger, account) <==> StampAscends(w.ledger, tx, n, stamp, account)
  {
    var after := PostLines(accounts, w, t, tx, n, stamp).ledger;
    var m := |w.ledger|;
    if n == 0 {
      assert after == w.ledger;
    } else {
      PostedEntry(accounts, w, t, tx, n, stamp, 0);
      forall k: nat | k < m + n
        ensures k < m ==> after[k] == w.ledger[k]
        ensures k >= m ==> after[k].account == tx.lines[k - m].account && after[k].postedAt == stamp.now
                           && after[k].id == stamp.newId(k - m)
      {
        PostedEntry(accounts, w, t, tx, n, stamp, k);
      }
      AscendsIff(w.ledger, after, tx, n, stamp, account);
    }
  }

  lemma AscendsIff(ledger: seq<LedgerEntry>, after: seq<LedgerEntry>, tx: Tx, n: nat, stamp: Stamp, account: nat)
    requires n <= |tx.lines| && |after| == |ledger| + n && KeysAscend(ledger, account)
    requires forall k :: 0 <= k < |ledger| ==> after[k] == ledger[k]
    requires forall k :: |ledger| <= k < |after| ==>
        after[k].account == tx.lines[k - |ledger|].account && after[k].postedAt == stamp.now
        && after[k].id == stamp.newId(k - |ledger|)
    ensures KeysAscend(after, account) <==> StampAscends(ledger, tx, n, stamp, account)
  {
    if KeysAscend(after, account) {
      forall k, i | 0 <= k < |ledger| && 0 <= i < n && ledger[k].account == account == tx.lines[i].account
        ensures stamp.now > ledger[k].postedAt || (stamp.now == ledger[k].postedAt && stamp.newId(i) > ledger[k].id)
      {
        assert SortsAfter(after[|ledger| + i], after[k]);
      }
      forall i, j | 0 <= i < j < n && tx.lines[i].account == account == tx.lines[j].account
        ensures stamp.newId(i) < stamp.newId(j)
      {
        assert SortsAfter(after[|ledger| + j], after[|ledger| + i]);
      }
    }
  }

  // ----- A posting that hits one account more than once -----

  lemma {:induction false} LastAfterOther(ledger: seq<LedgerEntry>, e: LedgerEntry, account: nat)
    ensures var before := LastEntry(ledger, |ledger|, account);
            LastEntry(ledger + [e], |ledger| + 1, account)
              == if e.account != account then before
                 else if before.Some? && SortsAfter(ledger[before.value], e) then before else Some(|ledger|)
  {
    LastEntryPrefix(ledger, [e], |ledger|, account);
  }

  /** The id drawn for line i sorts before none of the ids of earlier lines on its account. */
  predicate IsRecord(tx: Tx, i: nat, stamp: Stamp)
    requires i < |tx.lines|
  {
    forall j :: 0 <= j < i && tx.lines[j].account == tx.lines[i].account ==> stamp.newId(j) <= stamp.newId(i)
  }

  function LineOn(accounts: seq<Account>, l: Line, account: nat): int {
    if l.account == account then Signed(l.debit, l.credit, NormalOf(accounts, account)) else 0
  }

  /** What the first `n` lines add to an account in all. */
  function Added(accounts: seq<Account>, tx: Tx, n: nat, account: nat): int
    requires n <= |tx.lines|
  {
    if n == 0 then 0 else Added(accounts, tx, n - 1, account) + LineOn(accounts, tx.lines[n - 1], account)
  }

  /** What those lines add whose ids are no records. */
  function Lost(accounts: seq<Account>, tx: Tx, n: nat, stamp: Stamp, account: nat): int
    requires n <= |tx.lines|
  {
    if n == 0 then 0
    else
      Lost(accounts, tx, n - 1, stamp, account)
      + if IsRecord(tx, n - 1, stamp) then 0 else LineOn(accounts, tx.lines[n - 1], account)
  }

  /** After the first `n` lines the entry read for an account is the latest record among them, or
      the old one when none of them is on the account. */
  predicate ReadsRecord(ledger: seq<LedgerEntry>, after: seq<LedgerEntry>, tx: Tx, n: nat, stamp: Stamp, account: nat)
    requires n <= |tx.lines| && |after| == |ledger| + n
  {
    var read := LastEntry(after, |after|, account);
    if forall i :: 0 <= i < n ==> tx.lines[i].account != account then
      read == LastEntry(ledger, |ledger|, account)
    else
      && read.Some? && |ledger| <= read.value
      && after[read.value].postedAt == stamp.now && after[read.value].id == stamp.newId(read.value - |ledger|)
      && tx.lines[read.value - |ledger|].account == account
      && forall j :: 0 <= j < n && tx.lines[j].account == account ==> stamp.newId(j) <= stamp.newId(read.value - |ledger|)
  }

  lemma ReadsRecordStep(ledger: seq<LedgerEntry>, before: seq<LedgerEntry>, e: LedgerEntry, tx: Tx, n: nat, stamp: Stamp,
      account: nat)
    requires n < |tx.lines| && |before| == |ledger| + n && ledger <= before && ReadsRecord(ledger, before, tx, n, stamp, account)
    requires forall k :: 0 <= k < |ledger| ==> ledger[k].postedAt < stamp.now
    requires e.account == tx.lines[n].account && e.postedAt == stamp.now && e.id == stamp.newId(n)
    ensures ReadsRecord(ledger, before + [e], tx, n + 1, stamp, account)
    ensures var read := LastEntry(before + [e], |before| + 1, account);
            e.account == account ==> (if IsRecord(tx, n, stamp) then read == Some(|before|) else read == LastEntry(before, |before|, account))
    ensures e.account != account ==> LastEntry(before + [e], |before| + 1, account) == LastEntry(before, |before|, account)
  {
    LastAfterOther(before, e, account);
  }

  lemma PostedOne(accounts: seq<Account>, w: Tables, t: nat, tx: Tx, i: nat, stamp: Stamp)
    requires i < |tx.lines|
    ensures var e := NextEntry(accounts, w.ledger, t, tx, i, stamp);
            && PostLine(accounts, w, t, tx, i, stamp).ledger == w.ledger + [e]
            && e.account == tx.lines[i].account && e.postedAt == stamp.now && e.id == stamp.newId(i)
            && e.running == Stored(w.ledger, e.account) + LineOn(accounts, tx.lines[i], e.account)
  {
  }

  /** The state of the posting after the first `n` lines: which entry is read, and what it holds. */
  predicate RecordsRead(accounts: seq<Account>, ledger: seq<LedgerEntry>, after: seq<LedgerEntry>, tx: Tx, n: nat, stamp: Stamp,
      account: nat)
    requires n <= |tx.lines|
  {
    && |after| == |ledger| + n && ledger <= after
    && ReadsRecord(ledger, after, tx, n, stamp, account)
    && Stored(after, account) == Stored(ledger, account) + Added(accounts, tx, n, account) - Lost(accounts, tx, n, stamp, account)
  }

  lemma NextRecord(accounts: seq<Account>, ledger: seq<LedgerEntry>, w: Tables, t: nat, tx: Tx, n: nat, stamp: Stamp, account: nat)
    requires n < |tx.lines| && RecordsRead(accounts, ledger, w.ledger, tx, n, stamp, account)
    requires forall k :: 0 <= k < |ledger| ==> ledger[k].postedAt < stamp.now
    ensures RecordsRead(accounts, ledger, PostLine(accounts, w, t, tx, n, stamp).ledger, tx, n + 1, stamp, account)
  {
    PostedOne(accounts, w, t, tx, n, stamp);
    ReadsRecordStep(ledger, w.ledger, NextEntry(accounts, w.ledger, t, tx, n, stamp), tx, n, stamp, account);
  }

  lemma {:induction false} RecordsAreRead(accounts: seq<Account>, w: Tables, t: nat, tx: Tx, n: nat, stamp: Stamp, account: nat)
    requires n <= |tx.lines| && forall k :: 0 <= k < |w.ledger| ==> w.ledger[k].postedAt < stamp.now
    ensures RecordsRead(accounts, w.ledger, PostLines(accounts, w, t, tx, n, stamp).ledger, tx, n, stamp, account)
  {
    if n > 0 {
      RecordsAreRead(accounts, w, t, tx, n - 1, stamp, account);
      NextRecord(accounts, w.ledger, PostLines(accounts, w, t, tx, n - 1, stamp), t, tx, n - 1, stamp, account);
    }
  }

  lemma {:induction false} AddedIsSignedNet(accounts: seq<Account>, tx: Tx, n: nat, account: nat)
    requires n <= |tx.lines|
    ensures Added(accounts, tx, n, account) == SignOf(NormalOf(accounts, account)) * NetOn(tx.lines[..n], account)
  {
    if n > 0 {
      AddedIsSignedNet(accounts, tx, n - 1, account);
      var l := tx.lines[n - 1];
      assert tx.lines[..n] == tx.lines[..n - 1] + [l];
      SumsAppend(tx.lines[..n - 1], l, account);
      SignedIsDebitMinusCredit(l.debit, l.credit, NormalOf(accounts, account));
    }
  }

  /** Posted later than everything stored, a journal with any number of lines on an account moves
      its stored balance by the lines whose ids are records. So the balance the next posting builds
      on is right exactly when the other lines cancel. */
  lemma StoredMovesByRecords(accounts: seq<Account>, w: Tables, t: nat, tx: Tx, stamp: Stamp, account: nat)
    requires forall k :: 0 <= k < |w.ledger| ==> w.ledger[k].postedAt < stamp.now
    ensures Stored(PostLines(accounts, w, t, tx, |tx.lines|, stamp).ledger, account)
         == Stored(w.ledger, account) + SignOf(NormalOf(accounts, account)) * NetOn(tx.lines, account)
          - Lost(accounts, tx, |tx.lines|, stamp, account)
  {
    RecordsAreRead(accounts, w, t, tx, |tx.lines|, stamp, account);
    AddedIsSignedNet(accounts, tx, |tx.lines|, account);
    assert tx.lines[..|tx.lines|] == tx.lines;
  }

  /** The journal has four lines, of which just line i and the later line j are on the account. */
  predicate HitsTwice(tx: Tx, account: nat, i: nat, j: nat) {
    && |tx.lines| == 4 && i < j < 4
    && forall k :: 0 <= k < 4 ==> (tx.lines[k].account == account <==> k == i || k == j)
  }

  /** Posted later than everything stored, such a journal leaves the right balance for the next
      posting exactly when the id drawn for the second line does not sort before the id of the
      first. Otherwise the second amount is lost from every balance built on it. */
  lemma SecondHitKeptIff(accounts: seq<Account>, w: Tables, t: nat, tx: Tx, stamp: Stamp, account: nat, i: nat, j: nat)
    requires HitsTwice(tx, account, i, j) && LineOn(accounts, tx.lines[j], account) != 0
    requires forall k :: 0 <= k < |w.ledger| ==> w.ledger[k].postedAt < stamp.now
    ensures Lost(accounts, tx, 4, stamp, account)
         == if stamp.newId(j) >= stamp.newId(i) then 0 else LineOn(accounts, tx.lines[j], account)
    ensures (Stored(PostLines(accounts, w, t, tx, 4, stamp).ledger, account)
              == Stored(w.ledger, account) + SignOf(NormalOf(accounts, account)) * NetOn(tx.lines, account)) <==>
            stamp.newId(j) >= stamp.newId(i)
  {
    StoredMovesByRecords(accounts, w, t, tx, stamp, account);
    assert IsRecord(tx, i, stamp);
    assert IsRecord(tx, j, stamp) <==> stamp.newId(i) <= stamp.newId(j);
    LostOf(accounts, tx, stamp, account, i, j);
  }

  lemma LostOf(accounts: seq<Account>, tx: Tx, stamp: Stamp, account: nat, i: nat, j: nat)
    requires HitsTwice(tx, account, i, j) && IsRecord(tx, i, stamp)
    ensures Lost(accounts, tx, 4, stamp, account) == if IsRecord(tx, j, stamp) then 0 else LineOn(accounts, tx.lines[j], account)
  {
    assert Lost(accounts, tx, 0, stamp, account) == 0;
    assert Lost(accounts, tx, 1, stamp, account) == 0;
    assert Lost(accounts, tx, 2, stamp, account) == if j == 1 && !IsRecord(tx, 1, stamp) then LineOn(accounts, tx.lines[1], account) else 0;
    assert Lost(accounts, tx, 3, stamp, account)
        == if j <= 2 && !IsRecord(tx, j, stamp) then LineOn(accounts, tx.lines[j], account) else 0;
  }

  /** A journal of four lines that debits `cash` first by x and then by y, as a PPN sale does. */
  predicate DebitsTwice(tx: Tx, cash: nat, x: int, y: int) {
    && |tx.lines| == 4
    && tx.lines[0] == Line(cash, x, 0) && tx.lines[2] == Line(cash, y, 0)
    && tx.lines[1].account != cash && tx.lines[3].account != cash
  }

  /** A journal of four lines that credits `cash` first by x and then by y, as a PPN purchase does. */
  predicate CreditsTwice(tx: Tx, cash: nat, x: int, y: int) {
    && |tx.lines| == 4
    && tx.lines[1] == Line(cash, 0, x) && tx.lines[3] == Line(cash, 0, y)
    && tx.lines[0].account != cash && tx.lines[2].account != cash
  }

  /** For a PPN sale: the second amount stays in the stored balance exactly when its id does not
      sort before the first. */
  lemma {:induction false} SecondDebitKeptIff(accounts: seq<Account>, w: Tables, t: nat, tx: Tx, stamp: Stamp, cash: nat, x: int, y: int)
    requires DebitsTwice(tx, cash, x, y) && y > 0 && NormalOf(accounts, cash) == DebitNormal
    requires forall k :: 0 <= k < |w.ledger| ==> w.ledger[k].postedAt < stamp.now
    ensures var after := PostLines(accounts, w, t, tx, 4, stamp).ledger;
            && Stored(after, cash) == Stored(w.ledger, cash) + x + (if stamp.newId(2) >= stamp.newId(0) then y else 0)
            && (Stored(after, cash) == Stored(w.ledger, cash) + x + y <==> stamp.newId(2) >= stamp.newId(0))
  {
    SecondHitKeptIff(accounts, w, t, tx, stamp, cash, 0, 2);
    RecordsAreRead(accounts, w, t, tx, 4, stamp, cash);
    assert Added(accounts, tx, 1, cash) == x;
    assert Added(accounts, tx, 2, cash) == x;
    assert Added(accounts, tx, 3, cash) == x + y;
  }

  /** The same for a PPN purchase, which takes both amounts out. */
  lemma {:induction false} SecondCreditKeptIff(accounts: seq<Account>, w: Tables, t: nat, tx: Tx, stamp: Stamp, cash: nat, x: int, y: int)
    requires CreditsTwice(tx, cash, x, y) && y > 0 && NormalOf(accounts, cash) == DebitNormal
    requires forall k :: 0 <= k < |w.ledger| ==> w.ledger[k].postedAt < stamp.now
    ensures var after := PostLines(accounts, w, t, tx, 4, stamp).ledger;
            && Stored(after, cash) == Stored(w.ledger, cash) - x - (if stamp.newId(3) >= stamp.newId(1) then y else 0)
            && (Stored(after, cash) == Stored(w.ledger, cash) - x - y <==> stamp.newId(3) >= stamp.newId(1))
  {
    SecondHitKeptIff(accounts, w, t, tx, stamp, cash, 1, 3);
    RecordsAreRead(accounts, w, t, tx, 4, stamp, cash);
    assert Added(accounts, tx, 1, cash) == 0;
    assert Added(accounts, tx, 2, cash) == -x;
    assert Added(accounts, tx, 3, cash) == -x;
  }

  /** A PPN sale is such a journal. */
  lemma {:induction false} PpnSaleDebitsTwice(accounts: seq<Account>, req: CreateRequest)
    requires NewTx(accounts, req).Ok? && !UsesManualLines(req) && req.kind == Some(Sales)
    requires ChosenCategory(req) == PenjualanDenganPpn
    ensures var s := RequestSplit(req, PenjualanDenganPpn);
            DebitsTwice(NewTx(accounts, req).value, AccountOf(accounts, KAS), ToCents(s.base), ToCents(s.tax))
            && ToCents(s.tax) > 0
  {
    var tx := NewTx(accounts, req).value;
    var s := RequestSplit(req, PenjualanDenganPpn);
    var pairs := GetJournalRule(Sales, PenjualanDenganPpn).value.Pairs();
    assert RuleLines(accounts, pairs, s, 2) == Ok(tx.lines);
    PpnFourLines(accounts, pairs, s, tx.lines);
    RuleLinesOkIff(accounts, pairs, s, 2);
    assert PairWorks(accounts, pairs[1], PairCents(pairs, 1, s));
  }

  /** A PPN purchase credits cash twice. */
  lemma {:induction false} PpnPurchaseCreditsTwice(accounts: seq<Account>, req: CreateRequest)
    requires NewTx(accounts, req).Ok? && !UsesManualLines(req) && req.kind == Some(Purchase)
    requires ChosenCategory(req) == PembelianDenganPpn
    ensures var s := RequestSplit(req, PembelianDenganPpn);
            CreditsTwice(NewTx(accounts, req).value, AccountOf(accounts, KAS), ToCents(s.base), ToCents(s.tax))
            && ToCents(s.tax) > 0
  {
    var tx := NewTx(accounts, req).value;
    var s := RequestSplit(req, PembelianDenganPpn);
    var pairs := GetJournalRule(Purchase, PembelianDenganPpn).value.Pairs();
    assert RuleLines(accounts, pairs, s, 2) == Ok(tx.lines);
    PpnFourLines(accounts, pairs, s, tx.lines);
    RuleLinesOkIff(accounts, pairs, s, 2);
    assert PairWorks(accounts, pairs[1], PairCents(pairs, 1, s));
  }
}
