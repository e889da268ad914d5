/** What the figures of the balance sheet and the income statement really are: an account's stored
    ending balances added up over the periods of the range. These lemmas trace each figure back to
    the posted journals and say exactly when it is what was moved in the range. */
module Figures {
  import opened Prelude
  import opened Money
  import opened Rules
  import opened Chart
  import opened Books
  import opened LedgerRuns
  import opened Postings
  import opened Balances
  import opened Endings
  import opened Reports
  import Sums

  // ----- Amounts counted by period, as debit minus credit -----

  function TimesAt(account: nat, m: int -> int): LedgerEntry -> int {
    (e: LedgerEntry) => if e.account == account then m(e.period) * (e.debit - e.credit) else 0
  }

  function Negated(m: int -> int): int -> int { (p: int) => -m(p) }

  lemma RunKeepsTimes(steps: seq<Step>, account: nat, m: int -> int)
    ensures Fold(Final(steps).ledger, TimesAt(account, m)) == PostedSum(Final(steps).txs, TimesWeight(account, m))
  {
    RunKeepsCounted(steps, account, m, Negated(m));
    FoldsNet(Final(steps).ledger, account, m);
    WeighsNet(Final(steps).txs, account, m);
  }

  lemma FoldsNet(ledger: seq<LedgerEntry>, account: nat, m: int -> int)
    ensures Fold(ledger, Counted(account, m, Negated(m))) == Fold(ledger, TimesAt(account, m))
  {
    forall k | 0 <= k < |ledger| ensures Counted(account, m, Negated(m))(ledger[k]) == TimesAt(account, m)(ledger[k]) {
      var n, d, c := m(ledger[k].period), ledger[k].debit, ledger[k].credit;
      assert n * (d - c) == n * d + -n * c;
    }
    FoldSame(ledger, Counted(account, m, Negated(m)), TimesAt(account, m));
  }

  lemma WeighsNet(txs: seq<Tx>, account: nat, m: int -> int)
    ensures PostedSum(txs, CountedWeight(account, m, Negated(m))) == PostedSum(txs, TimesWeight(account, m))
  {
    forall i | 0 <= i < |txs| && HasPosted(txs[i].status)
      ensures CountedWeight(account, m, Negated(m))(txs[i]) == TimesWeight(account, m)(txs[i])
    {
      var n, d, c := m(txs[i].period), DebitOn(txs[i].lines, account), CreditOn(txs[i].lines, account);
      assert n * (d - c) == n * d + -n * c;
    }
    SameWeights(txs, CountedWeight(account, m, Negated(m)), TimesWeight(account, m));
  }

  lemma {:induction false} TimesAdd(ledger: seq<LedgerEntry>, account: nat, m: int -> int, n: int -> int, sum: int -> int)
    requires forall p :: sum(p) == m(p) + n(p)
    ensures Fold(ledger, TimesAt(account, sum)) == Fold(ledger, TimesAt(account, m)) + Fold(ledger, TimesAt(account, n))
  {
    if ledger != [] {
      TimesAdd(ledger[..|ledger| - 1], account, m, n, sum);
      var e := ledger[|ledger| - 1];
      assert (m(e.period) + n(e.period)) * (e.debit - e.credit) == m(e.period) * (e.debit - e.credit) + n(e.period) * (e.debit - e.credit);
    }
  }

  // ----- A figure as the sum of cumulative balances -----

  function UpTo(p: int): int -> int { (q: int) => if q <= p then 1 else 0 }

  /** Once for a period of the range, otherwise not at all. */
  function Within(from: Option<int>, upTo: int): int -> int {
    (q: int) => if InRange(from, upTo, q) then 1 else 0
  }

  lemma {:induction false} CumulativeOfPrefix(accounts: seq<Account>, ledger: seq<LedgerEntry>, n: nat, account: nat, period: int)
    requires n <= |ledger|
    ensures Dated(accounts, ledger, 0, n, account, period, false)
         == SignOf(NormalOf(accounts, account)) * Fold(ledger[..n], TimesAt(account, UpTo(period)))
  {
    if n > 0 {
      CumulativeOfPrefix(accounts, ledger, n - 1, account, period);
      var e := ledger[n - 1];
      assert ledger[..n] == ledger[..n - 1] + [e];
      FoldAppend(ledger[..n - 1], e, TimesAt(account, UpTo(period)));
      SignedIsDebitMinusCredit(e.debit, e.credit, NormalOf(accounts, account));
    }
  }

  function CumulativeTerm(b: Books, from: Option<int>, upTo: int, account: nat): nat -> int {
    (i: nat) =>
      if i < |b.rows| && b.rows[i].account == account && InRange(from, upTo, b.rows[i].period)
      then CumulativeAt(b.accounts, b.ledger, account, b.rows[i].period) else 0
  }

  function ErrorTerm(b: Books, from: Option<int>, upTo: int, account: nat): nat -> int {
    (i: nat) =>
      if i < |b.rows| && b.rows[i].account == account && InRange(from, upTo, b.rows[i].period)
      then EndingError(b, account, b.rows[i].period) else 0
  }

  /** By how much the account's stored ending balances in the range are too low together. */
  function ErrorSum(b: Books, from: Option<int>, upTo: int, account: nat): int {
    Sums.SumTo(ErrorTerm(b, from, upTo, account), |b.rows|)
  }

  /** In every run an account's figure over any range is the sum, over the periods of the range in
      which it has entries, of its cumulative balance at each of them, less the errors of the stored
      ending balances. */
  lemma {:induction false} FigureSumsBalances(steps: seq<Step>, from: Option<int>, upTo: int, account: nat)
    ensures EndingSum(Final(steps).rows, from, upTo, account)
         == Sums.SumTo(CumulativeTerm(Final(steps), from, upTo, account), |Final(steps).rows|)
          - ErrorSum(Final(steps), from, upTo, account)
  {
    var b := Final(steps);
    SummariesAgree(steps, account, 0);
    var f, g, h := CumulativeTerm(b, from, upTo, account), ErrorTerm(b, from, upTo, account), EndingTerm(b.rows, from, upTo, account);
    forall i: nat | i < |b.rows| ensures h(i) == f(i) + -1 * g(i) {
      if b.rows[i].account == account {
        FindRowFinds(b.rows, |b.rows|, i);
        EndingRightIff(steps, account, b.rows[i].period);
      }
    }
    Sums.Linear(f, g, h, -1, |b.rows|);
  }

  /** There are none where the account is posted in period order and its keys ascend. */
  lemma NoErrors(steps: seq<Step>, from: Option<int>, upTo: int, account: nat)
    requires KeysAscend(Final(steps).ledger, account) && InPeriodOrder(Final(steps).ledger, account)
    ensures ErrorSum(Final(steps), from, upTo, account) == 0
  {
    var b := Final(steps);
    SummariesAgree(steps, account, 0);
    forall i: nat | i < |b.rows| ensures ErrorTerm(b, from, upTo, account)(i) == 0 {
      if b.rows[i].account == account {
        FindRowFinds(b.rows, |b.rows|, i);
        EndingRightInOrder(steps, account, b.rows[i].period);
      }
    }
    Sums.Zero(ErrorTerm(b, from, upTo, account), |b.rows|);
  }

  /** How many of the first `n` rows are the account's, in the range and dated `p` or later. */
  function TimesOf(rows: seq<Row>, n: nat, from: Option<int>, upTo: int, account: nat, p: int): nat
    requires n <= |rows|
  {
    if n == 0 then 0
    else
      TimesOf(rows, n - 1, from, upTo, account, p)
      + if rows[n - 1].account == account && InRange(from, upTo, rows[n - 1].period) && p <= rows[n - 1].period then 1 else 0
  }

  function Times(rows: seq<Row>, n: nat, from: Option<int>, upTo: int, account: nat): int -> int
    requires n <= |rows|
  {
    (p: int) => TimesOf(rows, n, from, upTo, account, p)
  }

  lemma {:induction false} NoTimes(ledger: seq<LedgerEntry>, account: nat, m: int -> int)
    requires forall p :: m(p) == 0
    ensures Fold(ledger, TimesAt(account, m)) == 0
  {
    if ledger != [] {
      NoTimes(ledger[..|ledger| - 1], account, m);
    }
  }

  /** One more row counts the entries up to its period once more. */
  lemma RowCountsEntries(b: Books, n: nat, from: Option<int>, upTo: int, account: nat)
    requires 0 < n <= |b.rows|
    ensures CumulativeTerm(b, from, upTo, account)(n - 1)
         == SignOf(NormalOf(b.accounts, account))
          * (Fold(b.ledger, TimesAt(account, Times(b.rows, n, from, upTo, account)))
             - Fold(b.ledger, TimesAt(account, Times(b.rows, n - 1, from, upTo, account))))
  {
    var before, m, r := Times(b.rows, n - 1, from, upTo, account), Times(b.rows, n, from, upTo, account), b.rows[n - 1];
    if r.account == account && InRange(from, upTo, r.period) {
      TimesAdd(b.ledger, account, before, UpTo(r.period), m);
      CumulativeOfPrefix(b.accounts, b.ledger, |b.ledger|, account, r.period);
      assert b.ledger[..|b.ledger|] == b.ledger;
    } else {
      FoldSame(b.ledger, TimesAt(account, before), TimesAt(account, m));
    }
  }

  lemma {:induction false} BalancesCountEntries(b: Books, n: nat, from: Option<int>, upTo: int, account: nat)
    requires n <= |b.rows|
    ensures Sums.SumTo(CumulativeTerm(b, from, upTo, account), n)
         == SignOf(NormalOf(b.accounts, account)) * Fold(b.ledger, TimesAt(account, Times(b.rows, n, from, upTo, account)))
  {
    var m := Times(b.rows, n, from, upTo, account);
    if n == 0 {
      NoTimes(b.ledger, account, m);
    } else {
      BalancesCountEntries(b, n - 1, from, upTo, account);
      RowCountsEntries(b, n, from, upTo, account);
      var s := SignOf(NormalOf(b.accounts, account));
      var before := Fold(b.ledger, TimesAt(account, Times(b.rows, n - 1, from, upTo, account)));
      assert s * (Fold(b.ledger, TimesAt(account, m)) - before) == s * Fold(b.ledger, TimesAt(account, m)) - s * before;
    }
  }

  /** So each posted journal counts in the figure once for every period of the range, from its own
      on, in which the account has entries; less the errors. */
  lemma FigureCountsJournals(steps: seq<Step>, from: Option<int>, upTo: int, account: nat)
    ensures EndingSum(Final(steps).rows, from, upTo, account)
         == SignOf(NormalOf(Final(steps).accounts, account))
            * PostedSum(Final(steps).txs, TimesWeight(account, Times(Final(steps).rows, |Final(steps).rows|, from, upTo, account)))
          - ErrorSum(Final(steps), from, upTo, account)
  {
    var b := Final(steps);
    FigureSumsBalances(steps, from, upTo, account);
    BalancesCountEntries(b, |b.rows|, from, upTo, account);
    RunKeepsTimes(steps, account, Times(b.rows, |b.rows|, from, upTo, account));
  }

  // ----- When a figure is right -----

  /** Debit minus credit of what the posted journals dated in the range move on an account. */
  function MovedNet(b: Books, from: Option<int>, upTo: int, account: nat): int {
    PostedSum(b.txs, TimesWeight(account, Within(from, upTo)))
  }

  /** The figure a statement over the range should show. */
  function Movement(b: Books, from: Option<int>, upTo: int, account: nat): int {
    SignOf(NormalOf(b.accounts, account)) * MovedNet(b, from, upTo, account)
  }

  /** How many times too often a journal of a period counts. */
  function Surplus(rows: seq<Row>, from: Option<int>, upTo: int, account: nat): int -> int {
    (p: int) => TimesOf(rows, |rows|, from, upTo, account, p) - Within(from, upTo)(p)
  }

  lemma SurplusSplits(txs: seq<Tx>, rows: seq<Row>, from: Option<int>, upTo: int, account: nat)
    ensures PostedSum(txs, TimesWeight(account, Surplus(rows, from, upTo, account)))
         == PostedSum(txs, TimesWeight(account, Times(rows, |rows|, from, upTo, account)))
          - PostedSum(txs, TimesWeight(account, Within(from, upTo)))
  {
    var f := PostedTerm(txs, TimesWeight(account, Times(rows, |rows|, from, upTo, account)));
    var g := PostedTerm(txs, TimesWeight(account, Within(from, upTo)));
    var h := PostedTerm(txs, TimesWeight(account, Surplus(rows, from, upTo, account)));
    forall i: nat | i < |txs| ensures h(i) == f(i) + -1 * g(i) {
      var p, x := txs[i].period, NetOn(txs[i].lines, account);
      var k, w := TimesOf(rows, |rows|, from, upTo, account, p), Within(from, upTo)(p);
      assert (k - w) * x == k * x - w * x;
    }
    Sums.Linear(f, g, h, -1, |txs|);
  }

  lemma SurplusMoves(b: Books, from: Option<int>, upTo: int, account: nat)
    ensures SignOf(NormalOf(b.accounts, account))
              * PostedSum(b.txs, TimesWeight(account, Times(b.rows, |b.rows|, from, upTo, account)))
         == Movement(b, from, upTo, account)
          + SignOf(NormalOf(b.accounts, account)) * PostedSum(b.txs, TimesWeight(account, Surplus(b.rows, from, upTo, account)))
  {
    SurplusSplits(b.txs, b.rows, from, upTo, account);
    SignAdds(NormalOf(b.accounts, account),
      PostedSum(b.txs, TimesWeight(account, Within(from, upTo))),
      PostedSum(b.txs, TimesWeight(account, Surplus(b.rows, from, upTo, account))));
  }

  /** In every run a figure is off by what the journals count too often, less the errors; so it is
      what was moved in the range exactly when the surplus counts come to the errors. */
  lemma FigureRightIff(steps: seq<Step>, from: Option<int>, upTo: int, account: nat)
    ensures EndingSum(Final(steps).rows, from, upTo, account)
         == Movement(Final(steps), from, upTo, account)
          + SignOf(NormalOf(Final(steps).accounts, account))
            * PostedSum(Final(steps).txs, TimesWeight(account, Surplus(Final(steps).rows, from, upTo, account)))
          - ErrorSum(Final(steps), from, upTo, account)
    ensures EndingSum(Final(steps).rows, from, upTo, account) == Movement(Final(steps), from, upTo, account) <==>
            SignOf(NormalOf(Final(steps).accounts, account))
              * PostedSum(Final(steps).txs, TimesWeight(account, Surplus(Final(steps).rows, from, upTo, account)))
              == ErrorSum(Final(steps), from, upTo, account)
  {
    FigureCountsJournals(steps, from, upTo, account);
    SurplusMoves(Final(steps), from, upTo, account);
  }

  /** Over a range without a beginning, what a figure should show is the cumulative balance. */
  lemma MovementIsCumulative(steps: seq<Step>, period: int, account: nat)
    ensures Movement(Final(steps), None, period, account)
         == CumulativeAt(Final(steps).accounts, Final(steps).ledger, account, period)
  {
    var b := Final(steps);
    RunKeepsTimes(steps, account, Within(None, period));
    CumulativeOfPrefix(b.accounts, b.ledger, |b.ledger|, account, period);
    assert b.ledger[..|b.ledger|] == b.ledger;
    FoldSame(b.ledger, TimesAt(account, Within(None, period)), TimesAt(account, UpTo(period)));
  }

  /** An entry has a summary row for its account and period. */
  lemma {:induction false} EntryHasRow(steps: seq<Step>, k: nat)
    requires k < |Final(steps).ledger|
    ensures var b := Final(steps);
            Ending(b, b.ledger[k].account, b.ledger[k].period).Some?
  {
    var b := Final(steps);
    var e := b.ledger[k];
    SummariesAgree(steps, e.account, e.period);
    NoneAfterLast(b.ledger, |b.ledger|, e.account, e.period, k);
    LastRunningAt(b.ledger, |b.ledger|, e.account, e.period);
    assert b.ledger[..|b.ledger|] == b.ledger;
  }

  lemma {:induction false} DatedSame(accounts: seq<Account>, ledger: seq<LedgerEntry>, n: nat, account: nat, p: int, q: int)
    requires n <= |ledger| && q <= p
    requires forall k :: 0 <= k < n && ledger[k].account == account && ledger[k].period <= p ==> ledger[k].period <= q
    ensures Dated(accounts, ledger, 0, n, account, p, false) == Dated(accounts, ledger, 0, n, account, q, false)
  {
    if n > 0 {
      DatedSame(accounts, ledger, n - 1, account, p, q);
    }
  }

  /** The balance sheet's figure for an account, which sums its ending balances, is its cumulative
      balance exactly when the ending balances of all periods before its latest one come to the
      latest one's error: so, in general, only with a single period of activity. */
  lemma {:induction false} SheetFigureRightIff(steps: seq<Step>, account: nat, period: int, latest: int)
    requires latest <= period && Ending(Final(steps), account, latest).Some?
    requires var rows := Final(steps).rows;
             forall i :: 0 <= i < |rows| && rows[i].account == account && rows[i].period <= period ==> rows[i].period <= latest
    ensures var b := Final(steps);
            EndingSum(b.rows, None, period, account) == CumulativeAt(b.accounts, b.ledger, account, period) <==>
            EndingSum(b.rows, None, latest - 1, account) == EndingError(b, account, latest)
  {
    var b := Final(steps);
    EndingRightIff(steps, account, latest);
    SummariesAgree(steps, account, latest);
    forall k | 0 <= k < |b.ledger| && b.ledger[k].account == account && b.ledger[k].period <= period
      ensures b.ledger[k].period <= latest
    {
      EntryHasRow(steps, k);
      var at := FindRow(b.rows, |b.rows|, account, b.ledger[k].period).value;
      assert b.rows[at].account == account && b.rows[at].period <= period;
    }
    DatedSame(b.accounts, b.ledger, |b.ledger|, account, period, latest);
    var i := FindRow(b.rows, |b.rows|, account, latest).value;
    var f, g := EndingTerm(b.rows, None, latest - 1, account), EndingTerm(b.rows, None, period, account);
    forall j: nat | j < |b.rows| && j != i ensures f(j) == g(j) {
      assert !(b.rows[j].account == account && b.rows[j].period == latest);
    }
    Sums.Change(f, g, |b.rows|, i);
  }

  // ----- Which journals count too often -----

  /** None of the account's rows in the range, among the first `n`, is dated after `p`. */
  predicate NoneAfter(rows: seq<Row>, n: nat, from: Option<int>, upTo: int, account: nat, p: int)
    requires n <= |rows|
  {
    forall i :: 0 <= i < n && rows[i].account == account && InRange(from, upTo, rows[i].period) ==> rows[i].period <= p
  }

  lemma {:induction false} TimesZeroIff(rows: seq<Row>, n: nat, from: Option<int>, upTo: int, account: nat, p: int)
    requires n <= |rows|
    ensures TimesOf(rows, n, from, upTo, account, p + 1) == 0 <==> NoneAfter(rows, n, from, upTo, account, p)
  {
    if n > 0 {
      TimesZeroIff(rows, n - 1, from, upTo, account, p);
    }
  }

  lemma {:induction false} TimesStep(rows: seq<Row>, n: nat, from: Option<int>, upTo: int, account: nat, p: int)
    requires n <= |rows| && KeysUnique(rows)
    ensures TimesOf(rows, n, from, upTo, account, p)
         == TimesOf(rows, n, from, upTo, account, p + 1)
          + if InRange(from, upTo, p) && FindRow(rows, n, account, p).Some? then 1 else 0
  {
    if n > 0 {
      TimesStep(rows, n - 1, from, upTo, account, p);
    }
  }

  /** The journals of a period count too often exactly when the account has entries in a later
      period of the range. */
  lemma SurplusSign(rows: seq<Row>, from: Option<int>, upTo: int, account: nat, p: int)
    requires KeysUnique(rows) && FindRow(rows, |rows|, account, p).Some?
    ensures Surplus(rows, from, upTo, account)(p) >= 0
    ensures Surplus(rows, from, upTo, account)(p) == 0 <==> NoneAfter(rows, |rows|, from, upTo, account, p)
  {
    TimesStep(rows, |rows|, from, upTo, account, p);
    TimesZeroIff(rows, |rows|, from, upTo, account, p);
    assert Within(from, upTo)(p) == if InRange(from, upTo, p) then 1 else 0;
    var now := TimesOf(rows, |rows|, from, upTo, account, p);
    assert Surplus(rows, from, upTo, account)(p) == now - Within(from, upTo)(p);
  }

  lemma {:induction false} SidesNonNegative(ls: seq<Line>, account: nat)
    requires Journals.AllStorable(ls)
    ensures DebitOn(ls, account) >= 0 && CreditOn(ls, account) >= 0
  {
    if ls != [] {
      SidesNonNegative(ls[..|ls| - 1], account);
      assert ls[|ls| - 1].Storable();
    }
  }

  /** A posted journal that moves an account has left it a summary row for its period. */
  lemma JournalHasRow(steps: seq<Step>, account: nat, t: nat)
    requires t < |Final(steps).txs| && HasPosted(Final(steps).txs[t].status) && NetOn(Final(steps).txs[t].lines, account) != 0
    ensures FindRow(Final(steps).rows, |Final(steps).rows|, account, Final(steps).txs[t].period).Some?
  {
    var b, period := Final(steps), Final(steps).txs[t].period;
    if FindRow(b.rows, |b.rows|, account, period).None? {
      SummariesAgree(steps, account, period);
      NoEntriesNoSums(b.ledger, account, period);
      RunKeepsLedgerIsPosted(steps, account, period);
      RunKeepsTxs(steps);
      NothingPosted(b.txs, account, period, t);
    }
  }

  lemma NothingPosted(txs: seq<Tx>, account: nat, period: int, t: nat)
    requires forall i :: 0 <= i < |txs| ==> Journals.AllStorable(txs[i].lines)
    requires PostedSum(txs, DebitWeight(account, period)) == 0 && PostedSum(txs, CreditWeight(account, period)) == 0
    requires t < |txs| && HasPosted(txs[t].status) && txs[t].period == period
    ensures NetOn(txs[t].lines, account) == 0
  {
    var d, c := PostedTerm(txs, DebitWeight(account, period)), PostedTerm(txs, CreditWeight(account, period));
    forall i: nat | i < |txs| ensures d(i) >= 0 && c(i) >= 0 {
      SidesNonNegative(txs[i].lines, account);
    }
    Sums.ZeroIffEachZero(d, |txs|);
    Sums.ZeroIffEachZero(c, |txs|);
    assert d(t) == 0 && c(t) == 0;
  }

  /** Every posted journal moves the account to its normal side, as on a revenue account without
      refunds. */
  predicate OneSided(b: Books, account: nat) {
    forall t :: 0 <= t < |b.txs| && HasPosted(b.txs[t].status) ==>
      SignOf(NormalOf(b.accounts, account)) * NetOn(b.txs[t].lines, account) >= 0
  }

  /** No posted journal that moves the account is dated before a period of the range in which the
      account has entries. */
  predicate NoneRepeats(b: Books, from: Option<int>, upTo: int, account: nat) {
    forall t :: 0 <= t < |b.txs| && HasPosted(b.txs[t].status) && NetOn(b.txs[t].lines, account) != 0 ==>
      NoneAfter(b.rows, |b.rows|, from, upTo, account, b.txs[t].period)
  }

  function SurplusTerm(b: Books, from: Option<int>, upTo: int, account: nat): nat -> int {
    PostedTerm(b.txs, TimesWeight(account, Surplus(b.rows, from, upTo, account)))
  }

  lemma SurplusTermSign(steps: seq<Step>, from: Option<int>, upTo: int, account: nat, t: nat)
    requires t < |Final(steps).txs| && OneSided(Final(steps), account)
    ensures var b := Final(steps);
            var s, term := SignOf(NormalOf(b.accounts, account)), SurplusTerm(b, from, upTo, account)(t);
            && s * term >= 0
            && (HasPosted(b.txs[t].status) && NetOn(b.txs[t].lines, account) != 0 ==>
                (term == 0 <==> Surplus(b.rows, from, upTo, account)(b.txs[t].period) == 0)
                && FindRow(b.rows, |b.rows|, account, b.txs[t].period).Some?)
            && (!HasPosted(b.txs[t].status) || NetOn(b.txs[t].lines, account) == 0 ==> term == 0)
  {
    var b := Final(steps);
    if HasPosted(b.txs[t].status) && NetOn(b.txs[t].lines, account) != 0 {
      JournalHasRow(steps, account, t);
      SummariesAgree(steps, account, 0);
      SurplusSign(b.rows, from, upTo, account, b.txs[t].period);
      ProductSign(SignOf(NormalOf(b.accounts, account)), Surplus(b.rows, from, upTo, account)(b.txs[t].period),
        NetOn(b.txs[t].lines, account));
    }
  }

  lemma ProductSign(s: int, k: int, x: int)
    requires (s == 1 || s == -1) && k >= 0 && s * x >= 0 && x != 0
    ensures s * (k * x) >= 0
    ensures k * x == 0 <==> k == 0
  {
    assert s * (k * x) == k * (s * x);
  }

  /** The figure of such an account is right exactly when nothing that moves it is dated before a
      period of the range in which it has entries: so only with all its movements up to the end of
      the range in one period of the range. */
  lemma {:induction false} OneSidedFigureRightIff(steps: seq<Step>, from: Option<int>, upTo: int, account: nat)
    requires KeysAscend(Final(steps).ledger, account) && InPeriodOrder(Final(steps).ledger, account)
    requires OneSided(Final(steps), account)
    ensures EndingSum(Final(steps).rows, from, upTo, account) == Movement(Final(steps), from, upTo, account) <==>
            NoneRepeats(Final(steps), from, upTo, account)
  {
    var b := Final(steps);
    FigureRightIff(steps, from, upTo, account);
    NoErrors(steps, from, upTo, account);
    var s, f := SignOf(NormalOf(b.accounts, account)), SurplusTerm(b, from, upTo, account);
    var g := (i: nat) => s * f(i);
    forall t: nat | t < |b.txs| ensures g(t) >= 0 {
      SurplusTermSign(steps, from, upTo, account, t);
    }
    Sums.Scaled(f, g, s, |b.txs|);
    Sums.ZeroIffEachZero(g, |b.txs|);
    EachTermZeroIff(steps, from, upTo, account);
  }

  lemma EachTermZeroIff(steps: seq<Step>, from: Option<int>, upTo: int, account: nat)
    requires OneSided(Final(steps), account)
    ensures (forall t: nat :: t < |Final(steps).txs| ==> SurplusTerm(Final(steps), from, upTo, account)(t) == 0) <==>
            NoneRepeats(Final(steps), from, upTo, account)
  {
    var b := Final(steps);
    SummariesAgree(steps, account, 0);
    forall t: nat | t < |b.txs|
      ensures HasPosted(b.txs[t].status) && NetOn(b.txs[t].lines, account) != 0 ==>
        (SurplusTerm(b, from, upTo, account)(t) == 0 <==> NoneAfter(b.rows, |b.rows|, from, upTo, account, b.txs[t].period))
      ensures !HasPosted(b.txs[t].status) || NetOn(b.txs[t].lines, account) == 0 ==> SurplusTerm(b, from, upTo, account)(t) == 0
    {
      SurplusTermSign(steps, from, upTo, account, t);
      if HasPosted(b.txs[t].status) && NetOn(b.txs[t].lines, account) != 0 {
        SurplusSign(b.rows, from, upTo, account, b.txs[t].period);
      }
    }
  }

  // ----- A single period of activity -----

  lemma {:induction false} RowHasEntry(steps: seq<Step>, i: nat)
    requires i < |Final(steps).rows|
    ensures LastAt(Final(steps).ledger, |Final(steps).ledger|, Final(steps).rows[i].account, Final(steps).rows[i].period).Some?
  {
    var b, r := Final(steps), Final(steps).rows[i];
    SummariesAgree(steps, r.account, r.period);
    FindRowFinds(b.rows, |b.rows|, i);
    LastRunningAt(b.ledger, |b.ledger|, r.account, r.period);
    assert b.ledger[..|b.ledger|] == b.ledger;
  }

  predicate OnlyIn(ledger: seq<LedgerEntry>, account: nat, p: int) {
    forall k :: 0 <= k < |ledger| && ledger[k].account == account ==> ledger[k].period == p
  }

  lemma OnePeriodNoSurplus(steps: seq<Step>, p: int, from: Option<int>, upTo: int, account: nat)
    requires OnlyIn(Final(steps).ledger, account, p)
    ensures PostedSum(Final(steps).txs, TimesWeight(account, Surplus(Final(steps).rows, from, upTo, account))) == 0
  {
    var b := Final(steps);
    SummariesAgree(steps, account, 0);
    OnlyRow(steps, account, p);
    forall t: nat | t < |b.txs| ensures SurplusTerm(b, from, upTo, account)(t) == 0 {
      if HasPosted(b.txs[t].status) && NetOn(b.txs[t].lines, account) != 0 {
        JournalHasRow(steps, account, t);
        SurplusSign(b.rows, from, upTo, account, b.txs[t].period);
        assert NoneAfter(b.rows, |b.rows|, from, upTo, account, b.txs[t].period);
      }
    }
    Sums.Zero(SurplusTerm(b, from, upTo, account), |b.txs|);
  }

  /** With all of an account's entries in one period of the range, its figure is what was moved in
      the range, and all that was ever moved, less the errors; there are none where its keys ascend. */
  lemma OnePeriodFigure(steps: seq<Step>, p: int, from: Option<int>, upTo: int, account: nat)
    requires OnlyIn(Final(steps).ledger, account, p) && InRange(from, upTo, p)
    ensures EndingSum(Final(steps).rows, from, upTo, account)
         == Movement(Final(steps), from, upTo, account) - ErrorSum(Final(steps), from, upTo, account)
    ensures KeysAscend(Final(steps).ledger, account) ==> ErrorSum(Final(steps), from, upTo, account) == 0
    ensures MovedNet(Final(steps), from, upTo, account) == Net(Final(steps), account)
  {
    OnePeriodNoSurplus(steps, p, from, upTo, account);
    FigureRightIff(steps, from, upTo, account);
    RunKeepsTimes(steps, account, Within(from, upTo));
    FoldSame(Final(steps).ledger, TimesAt(account, Within(from, upTo)), NetAt(account));
    if KeysAscend(Final(steps).ledger, account) {
      NoErrors(steps, from, upTo, account);
    }
  }

  lemma OnlyRow(steps: seq<Step>, account: nat, p: int)
    requires OnlyIn(Final(steps).ledger, account, p)
    ensures forall i :: 0 <= i < |Final(steps).rows| && Final(steps).rows[i].account == account ==> Final(steps).rows[i].period == p
  {
    forall i | 0 <= i < |Final(steps).rows| && Final(steps).rows[i].account == account
      ensures Final(steps).rows[i].period == p
    {
      RowHasEntry(steps, i);
    }
  }
}
