/** What the balance sheet's balanced flag and the reported net income say, of the reports themselves:
    the exact conditions for every run, and what they come to where the figures are right one by one
    (see Figures), as on a run with a single period of activity. */
module Statements {
  import opened Prelude
  import opened Money
  import opened Rules
  import opened Chart
  import opened Books
  import opened Journals
  import opened LedgerRuns
  import opened Postings
  import opened Balances
  import opened Endings
  import opened Reports
  import opened Figures
  import Sums

  // ----- The equation over a range -----

  function MovedNets(b: Books, from: Option<int>, upTo: int): nat -> int {
    (a: nat) => MovedNet(b, from, upTo, a)
  }

  /** Debit minus credit that the posted journals of the range move on one account type. */
  function KindMoved(b: Books, from: Option<int>, upTo: int, kind: AccountType): int {
    Over(b.accounts, IsKind(kind), MovedNets(b, from, upTo))
  }

  /** Revenue less expense of the range. */
  function IncomeIn(b: Books, from: Option<int>, upTo: int): int {
    -KindMoved(b, from, upTo, Revenue) - KindMoved(b, from, upTo, Expense)
  }

  /** The posted journals dated in the range balance exactly. */
  predicate ExactIn(b: Books, from: Option<int>, upTo: int) {
    forall t :: 0 <= t < |b.txs| && HasPosted(b.txs[t].status) && InRange(from, upTo, b.txs[t].period) ==>
      Drift(b.txs[t].lines) == 0
  }

  /** By how much the posted journals dated in the range do not balance. */
  function DriftIn(b: Books, from: Option<int>, upTo: int): int {
    PostedSum(b.txs, DriftTimes(Within(from, upTo)))
  }

  /** In every run, over every range: what was moved on assets, liabilities and equity, as debit minus
      credit, comes to the net income of the range and the drift of its journals; so where these are
      exact, to the net income. */
  lemma RangeEquation(steps: seq<Step>, from: Option<int>, upTo: int)
    ensures KindMoved(Final(steps), from, upTo, Asset) + KindMoved(Final(steps), from, upTo, Liability)
          + KindMoved(Final(steps), from, upTo, Equity)
         == IncomeIn(Final(steps), from, upTo) + DriftIn(Final(steps), from, upTo)
    ensures ExactIn(Final(steps), from, upTo) ==> DriftIn(Final(steps), from, upTo) == 0
  {
    var b, m := Final(steps), Within(from, upTo);
    RunKeepsTxs(steps);
    JournalsSpread(b.txs, m, |b.txs|, |b.accounts|);
    if ExactIn(b, from, upTo) {
      Sums.Zero(PostedTerm(b.txs, DriftTimes(m)), |b.txs|);
    }
    Sums.Same(TimesEach(b.txs, m, |b.txs|), Chosen(b.accounts, Every(), MovedNets(b, from, upTo)), |b.accounts|);
    KindsPartition(b.accounts, MovedNets(b, from, upTo));
  }

  // ----- From the figures to the totals -----

  /** What a statement adds up: its active accounts, each with the sign the code gives its type. */
  function Shown(accounts: seq<Account>, wanted: AccountType -> bool, value: nat -> int): nat -> int {
    (a: nat) => if a < |accounts| && accounts[a].isActive && wanted(accounts[a].kind) then CheckSign(accounts[a].kind) * value(a) else 0
  }

  function Wanted(wanted: AccountType -> bool): Account -> bool {
    (a: Account) => wanted(a.kind)
  }

  /** The statement's accounts that are switched off and so missing from it. */
  function Hidden(wanted: AccountType -> bool): Account -> bool {
    (a: Account) => wanted(a.kind) && !a.isActive
  }

  /** The statement's active accounts that it takes with the wrong sign: contra accounts, and
      revenue, which the statement takes for debit minus credit. */
  function MisreadOf(wanted: AccountType -> bool): Account -> bool {
    (a: Account) => wanted(a.kind) && a.isActive && CheckSign(a.kind) * SignOf(a.normal) == -1
  }

  /** Each active account's value is its net on its normal side, less an error. */
  predicate Carry(accounts: seq<Account>, value: nat -> int, net: nat -> int, error: nat -> int) {
    forall a :: 0 <= a < |accounts| && accounts[a].isActive ==> value(a) == SignOf(accounts[a].normal) * net(a) - error(a)
  }

  lemma ShownAccount(accounts: seq<Account>, wanted: AccountType -> bool, value: nat -> int, net: nat -> int, error: nat -> int, a: nat)
    requires a < |accounts| && Carry(accounts, value, net, error)
    ensures Shown(accounts, wanted, value)(a)
         == Chosen(accounts, Wanted(wanted), net)(a) - Chosen(accounts, Hidden(wanted), net)(a)
          - 2 * Chosen(accounts, MisreadOf(wanted), net)(a) - Shown(accounts, wanted, error)(a)
  {
    if accounts[a].isActive {
      var c, x := CheckSign(accounts[a].kind), SignOf(accounts[a].normal) * net(a);
      SignCases(c, SignOf(accounts[a].normal), net(a));
      assert c * (x - error(a)) == c * x - c * error(a);
    }
  }

  lemma {:induction false} ShownTotal(accounts: seq<Account>, wanted: AccountType -> bool, value: nat -> int, net: nat -> int,
      error: nat -> int, n: nat)
    requires n <= |accounts| && Carry(accounts, value, net, error)
    ensures Sums.SumTo(Shown(accounts, wanted, value), n)
         == Sums.SumTo(Chosen(accounts, Wanted(wanted), net), n) - Sums.SumTo(Chosen(accounts, Hidden(wanted), net), n)
          - 2 * Sums.SumTo(Chosen(accounts, MisreadOf(wanted), net), n) - Sums.SumTo(Shown(accounts, wanted, error), n)
  {
    if n > 0 {
      ShownTotal(accounts, wanted, value, net, error, n - 1);
      ShownAccount(accounts, wanted, value, net, error, n - 1);
    }
  }

  lemma {:induction false} SheetKinds(accounts: seq<Account>, value: nat -> int, net: nat -> int, n: nat)
    requires n <= |accounts|
    ensures Sums.SumTo(Shown(accounts, OnSheet(), value), n)
         == Sums.SumTo(Chosen(accounts, ActiveKind(Asset), value), n) - Sums.SumTo(Chosen(accounts, ActiveKind(Liability), value), n)
          - Sums.SumTo(Chosen(accounts, ActiveKind(Equity), value), n)
    ensures Sums.SumTo(Chosen(accounts, Wanted(OnSheet()), net), n)
         == Sums.SumTo(Chosen(accounts, IsKind(Asset), net), n) + Sums.SumTo(Chosen(accounts, IsKind(Liability), net), n)
          + Sums.SumTo(Chosen(accounts, IsKind(Equity), net), n)
  {
    if n > 0 {
      SheetKinds(accounts, value, net, n - 1);
    }
  }

  lemma {:induction false} IncomeKinds(accounts: seq<Account>, value: nat -> int, net: nat -> int, n: nat)
    requires n <= |accounts|
    ensures Sums.SumTo(Shown(accounts, OnIncome(), value), n)
         == Sums.SumTo(Chosen(accounts, ActiveKind(Revenue), value), n) + Sums.SumTo(Chosen(accounts, ActiveKind(Expense), value), n)
    ensures Sums.SumTo(Chosen(accounts, Wanted(OnIncome()), net), n)
         == Sums.SumTo(Chosen(accounts, IsKind(Revenue), net), n) + Sums.SumTo(Chosen(accounts, IsKind(Expense), net), n)
  {
    if n > 0 {
      IncomeKinds(accounts, value, net, n - 1);
    }
  }

  // ----- The reports in any run -----

  /** What the journals move on each account when each counts as often as its figure counts it. */
  function CountedEach(b: Books, from: Option<int>, upTo: int): nat -> int {
    (a: nat) => PostedSum(b.txs, TimesWeight(a, Times(b.rows, |b.rows|, from, upTo, a)))
  }

  /** And when each counts as often as that is too often. */
  function SurplusEach(b: Books, from: Option<int>, upTo: int): nat -> int {
    (a: nat) => PostedSum(b.txs, TimesWeight(a, Surplus(b.rows, from, upTo, a)))
  }

  function ErrorEach(b: Books, from: Option<int>, upTo: int): nat -> int {
    (a: nat) => ErrorSum(b, from, upTo, a)
  }

  /** What the errors of the stored ending balances come to on a statement, as it signs them. */
  function ShownErrors(b: Books, wanted: AccountType -> bool, from: Option<int>, upTo: int): int {
    Sums.SumTo(Shown(b.accounts, wanted, ErrorEach(b, from, upTo)), |b.accounts|)
  }

  lemma FiguresCarry(steps: seq<Step>, from: Option<int>, upTo: int)
    ensures Carry(Final(steps).accounts, EndingSums(Final(steps).rows, from, upTo), CountedEach(Final(steps), from, upTo),
              ErrorEach(Final(steps), from, upTo))
  {
    forall a: nat | a < |Final(steps).accounts| {
      FigureCountsJournals(steps, from, upTo, a);
    }
  }

  lemma CountedIsMovedAndSurplus(b: Books, chosen: Account -> bool, from: Option<int>, upTo: int)
    ensures Over(b.accounts, chosen, CountedEach(b, from, upTo))
         == Over(b.accounts, chosen, MovedNets(b, from, upTo)) + Over(b.accounts, chosen, SurplusEach(b, from, upTo))
  {
    forall a: nat | a < |b.accounts| {
      SurplusSplits(b.txs, b.rows, from, upTo, a);
    }
    Sums.Linear(Chosen(b.accounts, chosen, MovedNets(b, from, upTo)), Chosen(b.accounts, chosen, SurplusEach(b, from, upTo)),
      Chosen(b.accounts, chosen, CountedEach(b, from, upTo)), 1, |b.accounts|);
  }

  /** In every run the balance sheet's flag is set exactly when the net income up to its period, the
      drift of the journals and what the figures count too often come to what the sheet hides in
      switched-off accounts, twice what it misreads in contra accounts, and the errors of the stored
      ending balances. */
  lemma SheetFlagIff(steps: seq<Step>, period: int)
    ensures BalanceSheetOf(Final(steps).accounts, Final(steps).rows, period).isBalanced <==>
            IncomeIn(Final(steps), None, period) + DriftIn(Final(steps), None, period)
              + Over(Final(steps).accounts, Wanted(OnSheet()), SurplusEach(Final(steps), None, period))
              == Over(Final(steps).accounts, Hidden(OnSheet()), CountedEach(Final(steps), None, period))
               + 2 * Over(Final(steps).accounts, MisreadOf(OnSheet()), CountedEach(Final(steps), None, period))
               + ShownErrors(Final(steps), OnSheet(), None, period)
  {
    var b := Final(steps);
    var value, counted := EndingSums(b.rows, None, period), CountedEach(b, None, period);
    FiguresCarry(steps, None, period);
    ShownTotal(b.accounts, OnSheet(), value, counted, ErrorEach(b, None, period), |b.accounts|);
    SheetKinds(b.accounts, value, MovedNets(b, None, period), |b.accounts|);
    CountedIsMovedAndSurplus(b, Wanted(OnSheet()), None, period);
    RangeEquation(steps, None, period);
  }

  /** In every run the reported net income is the true one, less what the figures count too often, plus
      what the statement hides and twice what it misreads, and the errors of the stored ending
      balances. */
  lemma ReportedIncome(steps: seq<Step>, from: int, upTo: int)
    ensures IncomeStatementOf(Final(steps).accounts, Final(steps).rows, from, upTo).netIncome
         == IncomeIn(Final(steps), Some(from), upTo)
          - Over(Final(steps).accounts, Wanted(OnIncome()), SurplusEach(Final(steps), Some(from), upTo))
          + Over(Final(steps).accounts, Hidden(OnIncome()), CountedEach(Final(steps), Some(from), upTo))
          + 2 * Over(Final(steps).accounts, MisreadOf(OnIncome()), CountedEach(Final(steps), Some(from), upTo))
          + ShownErrors(Final(steps), OnIncome(), Some(from), upTo)
  {
    var b := Final(steps);
    var value, counted := EndingSums(b.rows, Some(from), upTo), CountedEach(b, Some(from), upTo);
    FiguresCarry(steps, Some(from), upTo);
    ShownTotal(b.accounts, OnIncome(), value, counted, ErrorEach(b, Some(from), upTo), |b.accounts|);
    IncomeKinds(b.accounts, value, MovedNets(b, Some(from), upTo), |b.accounts|);
    CountedIsMovedAndSurplus(b, Wanted(OnIncome()), Some(from), upTo);
  }

  /** There are no errors where the active accounts' keys ascend and they are posted in period order. */
  lemma NoErrorsShown(steps: seq<Step>, wanted: AccountType -> bool, from: Option<int>, upTo: int)
    requires forall a :: 0 <= a < |Final(steps).accounts| && Final(steps).accounts[a].isActive ==>
        KeysAscend(Final(steps).ledger, a) && InPeriodOrder(Final(steps).ledger, a)
    ensures ShownErrors(Final(steps), wanted, from, upTo) == 0
  {
    var b := Final(steps);
    var shown := Shown(b.accounts, wanted, ErrorEach(b, from, upTo));
    forall a: nat | a < |b.accounts| ensures shown(a) == 0 {
      if b.accounts[a].isActive {
        NoErrors(steps, from, upTo, a);
      }
    }
    Sums.Zero(shown, |b.accounts|);
  }

  // ----- With the figures right -----

  /** Every active account's figure is what was moved on it in the range. */
  predicate FiguresRight(b: Books, from: Option<int>, upTo: int) {
    forall a :: 0 <= a < |b.accounts| && b.accounts[a].isActive ==>
      EndingSum(b.rows, from, upTo, a) == Movement(b, from, upTo, a)
  }

  /** That is so exactly when for each active account the journals that count too often come to the
      errors of its stored ending balances. */
  lemma FiguresRightIff(steps: seq<Step>, from: Option<int>, upTo: int)
    ensures FiguresRight(Final(steps), from, upTo) <==>
            forall a :: 0 <= a < |Final(steps).accounts| && Final(steps).accounts[a].isActive ==>
              SignOf(Final(steps).accounts[a].normal)
                * PostedSum(Final(steps).txs, TimesWeight(a, Surplus(Final(steps).rows, from, upTo, a)))
                == ErrorSum(Final(steps), from, upTo, a)
  {
    forall a: nat | a < |Final(steps).accounts| {
      FigureRightIff(steps, from, upTo, a);
    }
  }

  /** It is so whenever all entries lie in one period of the range and the active accounts' keys
      ascend; then the figures are also all that was ever moved. */
  lemma OnePeriodFiguresRight(steps: seq<Step>, p: int, from: Option<int>, upTo: int)
    requires InRange(from, upTo, p) && forall k :: 0 <= k < |Final(steps).ledger| ==> Final(steps).ledger[k].period == p
    requires forall a :: 0 <= a < |Final(steps).accounts| && Final(steps).accounts[a].isActive ==> KeysAscend(Final(steps).ledger, a)
    ensures FiguresRight(Final(steps), from, upTo)
    ensures forall a: nat :: MovedNet(Final(steps), from, upTo, a) == Net(Final(steps), a)
  {
    forall a: nat
      ensures KeysAscend(Final(steps).ledger, a) ==> EndingSum(Final(steps).rows, from, upTo, a) == Movement(Final(steps), from, upTo, a)
      ensures MovedNet(Final(steps), from, upTo, a) == Net(Final(steps), a)
    {
      OnePeriodFigure(steps, p, from, upTo, a);
    }
  }

  /** With the figures right and the journals exact, the balance sheet's flag is set exactly when the
      net income up to its period equals what it hides in switched-off accounts and twice what it
      misreads in contra accounts; so not, in general, while there is unclosed income. */
  lemma SheetBalancedIff(steps: seq<Step>, period: int)
    requires FiguresRight(Final(steps), None, period) && ExactIn(Final(steps), None, period)
    ensures BalanceSheetOf(Final(steps).accounts, Final(steps).rows, period).isBalanced <==>
            IncomeIn(Final(steps), None, period)
              == Over(Final(steps).accounts, Hidden(OnSheet()), MovedNets(Final(steps), None, period))
               + 2 * Over(Final(steps).accounts, MisreadOf(OnSheet()), MovedNets(Final(steps), None, period))
  {
    var b := Final(steps);
    var value, net, none := EndingSums(b.rows, None, period), MovedNets(b, None, period), (a: nat) => 0;
    assert Carry(b.accounts, value, net, none);
    ShownTotal(b.accounts, OnSheet(), value, net, none, |b.accounts|);
    Sums.Zero(Shown(b.accounts, OnSheet(), none), |b.accounts|);
    SheetKinds(b.accounts, value, net, |b.accounts|);
    RangeEquation(steps, None, period);
  }

  /** With the figures right, the reported net income is off by what the statement hides in
      switched-off accounts and twice what it misreads in credit-normal ones; so it is right exactly
      when these cancel. */
  lemma IncomeRightIff(b: Books, from: int, upTo: int)
    requires FiguresRight(b, Some(from), upTo)
    ensures IncomeStatementOf(b.accounts, b.rows, from, upTo).netIncome
         == IncomeIn(b, Some(from), upTo)
          + Over(b.accounts, Hidden(OnIncome()), MovedNets(b, Some(from), upTo))
          + 2 * Over(b.accounts, MisreadOf(OnIncome()), MovedNets(b, Some(from), upTo))
    ensures IncomeStatementOf(b.accounts, b.rows, from, upTo).netIncome == IncomeIn(b, Some(from), upTo) <==>
            Over(b.accounts, Hidden(OnIncome()), MovedNets(b, Some(from), upTo))
              + 2 * Over(b.accounts, MisreadOf(OnIncome()), MovedNets(b, Some(from), upTo)) == 0
  {
    var value, net, none := EndingSums(b.rows, Some(from), upTo), MovedNets(b, Some(from), upTo), (a: nat) => 0;
    assert Carry(b.accounts, value, net, none);
    ShownTotal(b.accounts, OnIncome(), value, net, none, |b.accounts|);
    Sums.Zero(Shown(b.accounts, OnIncome(), none), |b.accounts|);
    IncomeKinds(b.accounts, value, net, |b.accounts|);
  }

  /** So in a run with a single period of activity and exact journals, a statement over that period
      is right in these exact cases. */
  lemma OnePeriodStatements(steps: seq<Step>, p: int, from: int, upTo: int)
    requires InRange(Some(from), upTo, p) && ExactIn(Final(steps), None, upTo)
    requires forall a :: 0 <= a < |Final(steps).accounts| && Final(steps).accounts[a].isActive ==> KeysAscend(Final(steps).ledger, a)
    requires forall k :: 0 <= k < |Final(steps).ledger| ==> Final(steps).ledger[k].period == p
    ensures BalanceSheetOf(Final(steps).accounts, Final(steps).rows, upTo).isBalanced <==>
            NetIncome(Final(steps))
              == Over(Final(steps).accounts, Hidden(OnSheet()), NetOf(Final(steps)))
               + 2 * Over(Final(steps).accounts, MisreadOf(OnSheet()), NetOf(Final(steps)))
    ensures IncomeStatementOf(Final(steps).accounts, Final(steps).rows, from, upTo).netIncome
         == NetIncome(Final(steps)) + Over(Final(steps).accounts, Hidden(OnIncome()), NetOf(Final(steps)))
          + 2 * Over(Final(steps).accounts, MisreadOf(OnIncome()), NetOf(Final(steps)))
  {
    var b := Final(steps);
    OnePeriodFiguresRight(steps, p, None, upTo);
    OnePeriodFiguresRight(steps, p, Some(from), upTo);
    SheetBalancedIff(steps, upTo);
    IncomeRightIff(b, from, upTo);
    SameOver(b.accounts, MovedNets(b, None, upTo), NetOf(b));
    SameOver(b.accounts, MovedNets(b, Some(from), upTo), NetOf(b));
  }

  lemma SameOver(accounts: seq<Account>, f: nat -> int, g: nat -> int)
    requires forall a: nat :: f(a) == g(a)
    ensures forall chosen: Account -> bool :: Over(accounts, chosen, f) == Over(accounts, chosen, g)
  {
    forall chosen: Account -> bool ensures Over(accounts, chosen, f) == Over(accounts, chosen, g) {
      Sums.Same(Chosen(accounts, chosen, f), Chosen(accounts, chosen, g), |accounts|);
    }
  }
}
