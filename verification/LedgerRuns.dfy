/** Runs of the accounting books: any interleaving of chart operations, creates, deliveries and
    redeliveries of created events, and voids, including voids of reversals. */
module LedgerRuns {
  import opened Prelude
  import opened Money
  import opened Rules
  import opened Chart
  import opened Books
  import opened Journals
  import Sums

  datatype Step =
    | ChartStep(op: ChartOp)
    | CreateStep(req: CreateRequest)
    | DeliverStep(t: nat, isReversal: bool, stamp: Stamp)
    | VoidStep(t: nat, period: int)

  function Next(b: Books, s: Step): Books {
    match s
    case ChartStep(op) => b.(accounts := Chart.Apply(b.accounts, op))
    case CreateStep(req) => Create(b, req)
    case DeliverStep(t, isReversal, stamp) => Deliver(b, t, isReversal, stamp)
    case VoidStep(t, period) => VoidTx(b, t, period)
  }

  /** The bus delivers only what the outbox holds, as often and in whatever order it likes. */
  predicate Enabled(b: Books, s: Step) {
    s.DeliverStep? ==> TransactionCreated(s.t, s.isReversal) in b.outbox
  }

  ghost function Final(steps: seq<Step>): Books {
    if steps == [] then EMPTY else Next(Final(steps[..|steps| - 1]), steps[|steps| - 1])
  }

  ghost predicate IsRun(steps: seq<Step>) {
    steps != [] ==> IsRun(steps[..|steps| - 1]) && Enabled(Final(steps[..|steps| - 1]), steps[|steps| - 1])
  }

  lemma RunStep(steps: seq<Step>, s: Step)
    ensures Final(steps + [s]) == Next(Final(steps), s)
    ensures IsRun(steps + [s]) <==> IsRun(steps) && Enabled(Final(steps), s)
  {
    assert (steps + [s])[..|steps|] == steps;
  }

  // ----- Reversal chains -----

  function Links(txs: seq<Tx>): (r: seq<Option<nat>>)
    ensures |r| == |txs| && forall i :: 0 <= i < |txs| ==> r[i] == txs[i].reverses
  {
    seq(|txs|, i requires 0 <= i < |txs| => txs[i].reverses)
  }

  /** The transaction a chain of reversals starts from. */
  function Root(links: seq<Option<nat>>, t: nat): (r: nat)
    ensures r <= t
  {
    if t < |links| && links[t].Some? && links[t].value < t then Root(links, links[t].value) else t
  }

  /** How many reversals lead from there. */
  function Depth(links: seq<Option<nat>>, t: nat): nat {
    if t < |links| && links[t].Some? && links[t].value < t then Depth(links, links[t].value) + 1 else 0
  }

  lemma {:induction false} ChainOfPrefix(links: seq<Option<nat>>, tail: seq<Option<nat>>, t: nat)
    requires t < |links|
    ensures Root(links + tail, t) == Root(links, t) && Depth(links + tail, t) == Depth(links, t)
  {
    if links[t].Some? && links[t].value < t {
      ChainOfPrefix(links, tail, links[t].value);
    }
  }

  lemma {:induction false} RootIsRoot(links: seq<Option<nat>>, t: nat)
    requires t < |links|
    ensures Root(links, Root(links, t)) == Root(links, t) && Depth(links, Root(links, t)) == 0
  {
    if links[t].Some? && links[t].value < t {
      RootIsRoot(links, links[t].value);
    }
  }

  // ----- Sums over posted transactions -----

  /** A quantity that does not depend on the status. */
  ghost predicate StatusFree(w: Tx -> int) {
    forall x: Tx, y: Tx :: OnlyStatusDiffers(x, y) ==> w(x) == w(y)
  }

  predicate OnlyStatusDiffers(x: Tx, y: Tx) { x == y.(status := x.status) }

  /** A quantity that a reversal negates. */
  ghost predicate Odd(w: Tx -> int) {
    forall tx: Tx, rev: Tx :: Swaps(rev, tx) ==> w(rev) == -w(tx)
  }

  predicate Swaps(rev: Tx, tx: Tx) { rev.lines == SwapAll(tx.lines) }

  function One(): Tx -> int { (tx: Tx) => 1 }

  function NetWeight(account: nat): Tx -> int { (tx: Tx) => NetOn(tx.lines, account) }

  function DriftWeight(): Tx -> int { (tx: Tx) => Drift(tx.lines) }

  function DebitWeight(account: nat, period: int): Tx -> int {
    (tx: Tx) => if tx.period == period then DebitOn(tx.lines, account) else 0
  }

  function CreditWeight(account: nat, period: int): Tx -> int {
    (tx: Tx) => if tx.period == period then CreditOn(tx.lines, account) else 0
  }

  function DebitTotal(account: nat): Tx -> int { (tx: Tx) => DebitOn(tx.lines, account) }

  function CreditTotal(account: nat): Tx -> int { (tx: Tx) => CreditOn(tx.lines, account) }

  /** A journal's effect on an account with its debits counted d times and its credits c times,
      where both depend on its period. */
  function CountedWeight(account: nat, d: int -> int, c: int -> int): Tx -> int {
    (tx: Tx) => d(tx.period) * DebitOn(tx.lines, account) + c(tx.period) * CreditOn(tx.lines, account)
  }

  /** A journal's effect on an account, counted m times, as its period says. */
  function TimesWeight(account: nat, m: int -> int): Tx -> int {
    (tx: Tx) => m(tx.period) * NetOn(tx.lines, account)
  }

  function DriftTimes(m: int -> int): Tx -> int {
    (tx: Tx) => m(tx.period) * Drift(tx.lines)
  }

  lemma WeightsOdd(account: nat)
    ensures Odd(NetWeight(account)) && Odd(DriftWeight())
    ensures StatusFree(NetWeight(account)) && StatusFree(DriftWeight()) && StatusFree(One())
  {
    forall tx: Tx, rev: Tx | Swaps(rev, tx)
      ensures NetWeight(account)(rev) == -NetWeight(account)(tx) && DriftWeight()(rev) == -DriftWeight()(tx)
    {
      SwapNegates(tx.lines, account);
    }
  }

  function PostedTerm(txs: seq<Tx>, w: Tx -> int): nat -> int {
    (i: nat) => if i < |txs| && HasPosted(txs[i].status) then w(txs[i]) else 0
  }

  /** `w` summed over every transaction that has reached the ledger. */
  function PostedSum(txs: seq<Tx>, w: Tx -> int): int {
    Sums.SumTo(PostedTerm(txs, w), |txs|)
  }

  function RootOf(links: seq<Option<nat>>): nat -> nat {
    (i: nat) => Root(links, i)
  }

  /** The same over one chain. */
  function ChainSum(txs: seq<Tx>, w: Tx -> int, r: nat): int {
    Sums.SumTo(Sums.Fiber(PostedTerm(txs, w), RootOf(Links(txs)), r), |txs|)
  }

  /** How many members of a chain have reached the ledger. */
  function PostedCount(txs: seq<Tx>, r: nat): int {
    ChainSum(txs, One(), r)
  }

  /** Changing one status without changing whether it has posted changes no sum. */
  lemma StatusKeepsSums(txs: seq<Tx>, t: nat, s: Status, w: Tx -> int, r: nat)
    requires t < |txs| && HasPosted(txs[t].status) == HasPosted(s) && StatusFree(w)
    ensures PostedSum(SetStatus(txs, t, s), w) == PostedSum(txs, w)
    ensures ChainSum(SetStatus(txs, t, s), w, r) == ChainSum(txs, w, r)
  {
    var after := SetStatus(txs, t, s);
    assert Links(after) == Links(txs);
    var f, g := PostedTerm(txs, w), PostedTerm(after, w);
    forall i: nat ensures f(i) == g(i) {
      if i < |txs| {
        assert OnlyStatusDiffers(after[i], txs[i]);
      }
    }
    Sums.Same(f, g, |txs|);
    var root := RootOf(Links(txs));
    Sums.Same(Sums.Fiber(f, root, r), Sums.Fiber(g, root, r), |txs|);
  }

  /** Posting a draft adds its quantity to the whole sum and to its own chain. */
  lemma PostAddsToSums(txs: seq<Tx>, t: nat, w: Tx -> int, r: nat)
    requires t < |txs| && !HasPosted(txs[t].status) && StatusFree(w)
    ensures PostedSum(SetStatus(txs, t, Posted), w) == PostedSum(txs, w) + w(txs[t])
    ensures ChainSum(SetStatus(txs, t, Posted), w, r)
         == ChainSum(txs, w, r) + if Root(Links(txs), t) == r then w(txs[t]) else 0
  {
    var after := SetStatus(txs, t, Posted);
    assert Links(after) == Links(txs);
    assert OnlyStatusDiffers(after[t], txs[t]);
    var f, g := PostedTerm(txs, w), PostedTerm(after, w);
    Sums.Change(f, g, |txs|, t);
    var root := RootOf(Links(txs));
    Sums.Change(Sums.Fiber(f, root, r), Sums.Fiber(g, root, r), |txs|, t);
  }

  /** A new draft adds nothing. */
  lemma AppendKeepsSums(txs: seq<Tx>, x: Tx, w: Tx -> int, r: nat)
    requires !HasPosted(x.status)
    ensures PostedSum(txs + [x], w) == PostedSum(txs, w)
    ensures ChainSum(txs + [x], w, r) == ChainSum(txs, w, r)
  {
    var after := txs + [x];
    assert Links(after) == Links(txs) + [x.reverses];
    var f, g := PostedTerm(txs, w), PostedTerm(after, w);
    Sums.Same(f, g, |txs|);
    var root, root' := RootOf(Links(txs)), RootOf(Links(after));
    forall i: nat | i < |txs| ensures root(i) == root'(i) {
      ChainOfPrefix(Links(txs), [x.reverses], i);
    }
    Sums.Same(Sums.Fiber(f, root, r), Sums.Fiber(g, root', r), |txs|);
  }

  // ----- The invariant on transactions -----

  /** A reversal points back to a voided transaction whose journal it swaps; nothing else
      carries a link. */
  predicate LinksOk(txs: seq<Tx>) {
    forall t :: 0 <= t < |txs| && txs[t].reverses.Some? ==>
      var o := txs[t].reverses.value;
      && o < t
      && txs[o].status == Voided
      && txs[t].lines == SwapAll(txs[o].lines)
      && txs[t].mode == txs[o].mode
  }

  /** Within a chain, later members are deeper, and only the last can be anything but voided. */
  predicate LiveIsLast(txs: seq<Tx>) {
    forall s, t :: 0 <= s < t < |txs| && Root(Links(txs), s) == Root(Links(txs), t) ==>
      Depth(Links(txs), s) < Depth(Links(txs), t) && txs[s].status == Voided
  }

  predicate CountOk(txs: seq<Tx>, t: nat)
    requires t < |txs|
  {
    PostedCount(txs, Root(Links(txs), t)) == Depth(Links(txs), t) + if txs[t].status == Posted then 1 else 0
  }

  /** Every member before a draft or failed transaction has posted, every member up to a posted
      one has. */
  predicate CountsOk(txs: seq<Tx>) {
    forall t :: 0 <= t < |txs| && txs[t].status != Voided ==> CountOk(txs, t)
  }

  /** Journals fit the table and balance to a cent; what has posted has lines, and what has failed
      has none. */
  predicate JournalsOk(accounts: seq<Account>, txs: seq<Tx>) {
    forall t :: 0 <= t < |txs| ==>
      && AllStorable(txs[t].lines)
      && Resolves(accounts, txs[t].lines)
      && BalancesEqual(SumDebit(txs[t].lines), SumCredit(txs[t].lines))
      && (HasPosted(txs[t].status) ==> txs[t].lines != [])
      && (txs[t].status == Failed ==> txs[t].lines == [])
      && (txs[t].lines == [] ==> txs[t].reverses == None)
  }

  ghost predicate TxsOk(b: Books) {
    LinksOk(b.txs) && LiveIsLast(b.txs) && CountsOk(b.txs) && JournalsOk(b.accounts, b.txs)
    && ChartRuns.CodesUnique(b.accounts)
  }

  lemma {:induction false} CreateKeepsTxs(b: Books, req: CreateRequest)
    requires TxsOk(b)
    ensures TxsOk(Create(b, req))
  {
    NewTxJournal(b.accounts, req);
    if NewTx(b.accounts, req).Ok? {
      var tx := NewTx(b.accounts, req).value;
      DraftKeepsLinks(b.txs, tx);
      CreateKeepsCounts(b.txs, tx);
    }
  }

  lemma DraftKeepsLinks(txs: seq<Tx>, tx: Tx)
    requires LinksOk(txs) && LiveIsLast(txs) && tx.status == Draft && tx.reverses.None?
    ensures LinksOk(txs + [tx]) && LiveIsLast(txs + [tx])
  {
    AppendKeepsChains(txs, tx);
  }

  lemma CreateKeepsCounts(txs: seq<Tx>, tx: Tx)
    requires CountsOk(txs) && tx.status == Draft && tx.reverses.None?
    ensures CountsOk(txs + [tx])
  {
    var after := txs + [tx];
    AppendKeepsChains(txs, tx);
    forall t | 0 <= t < |after| && after[t].status != Voided ensures CountOk(after, t) {
      AppendKeepsSums(txs, tx, One(), Root(Links(after), t));
      if t < |txs| {
        assert CountOk(txs, t);
      } else {
        NothingBeyond(txs, One(), |txs|);
      }
    }
  }

  /** Roots and depths of the old members stay; a new transaction without a link starts its own
      chain, and one with a link joins the chain of the one it reverses. */
  lemma {:induction false} AppendKeepsChains(txs: seq<Tx>, x: Tx)
    ensures var links, after := Links(txs), Links(txs + [x]);
            && (forall t :: 0 <= t < |txs| ==> Root(after, t) == Root(links, t) && Depth(after, t) == Depth(links, t))
            && (x.reverses.None? ==> Root(after, |txs|) == |txs| && Depth(after, |txs|) == 0)
            && (x.reverses.Some? && x.reverses.value < |txs| ==>
                Root(after, |txs|) == Root(links, x.reverses.value)
                && Depth(after, |txs|) == Depth(links, x.reverses.value) + 1)
  {
    assert Links(txs + [x]) == Links(txs) + [x.reverses];
    forall t | 0 <= t < |txs|
      ensures Root(Links(txs + [x]), t) == Root(Links(txs), t) && Depth(Links(txs + [x]), t) == Depth(Links(txs), t)
    {
      ChainOfPrefix(Links(txs), [x.reverses], t);
    }
  }

  /** No transaction belongs to a chain whose root does not exist yet. */
  lemma NothingBeyond(txs: seq<Tx>, w: Tx -> int, r: nat)
    requires r >= |txs|
    ensures ChainSum(txs, w, r) == 0
  {
    Sums.Zero(Sums.Fiber(PostedTerm(txs, w), RootOf(Links(txs)), r), |txs|);
  }

  /** A draft that fails or posts leaves the links and the order of the chains alone. */
  lemma {:induction false} DraftMovesKeepChains(txs: seq<Tx>, t: nat, s: Status)
    requires LinksOk(txs) && LiveIsLast(txs) && t < |txs| && txs[t].status == Draft
    ensures LinksOk(SetStatus(txs, t, s)) && LiveIsLast(SetStatus(txs, t, s))
  {
    DraftMovesKeepOrder(txs, t, s);
  }

  lemma {:induction false} DraftMovesKeepOrder(txs: seq<Tx>, t: nat, s: Status)
    requires LiveIsLast(txs) && t < |txs| && txs[t].status == Draft
    ensures LiveIsLast(SetStatus(txs, t, s))
  {
    var after := SetStatus(txs, t, s);
    assert Links(after) == Links(txs);
    forall u, v | 0 <= u < v < |txs| && Root(Links(txs), u) == Root(Links(txs), v)
      ensures Depth(Links(txs), u) < Depth(Links(txs), v) && after[u].status == Voided
    {
      assert txs[u].status == Voided;
    }
  }

  lemma FailKeepsCounts(txs: seq<Tx>, t: nat)
    requires CountsOk(txs) && t < |txs| && txs[t].status == Draft
    ensures CountsOk(SetStatus(txs, t, Failed))
  {
    var after := SetStatus(txs, t, Failed);
    assert Links(after) == Links(txs);
    forall u | 0 <= u < |after| && after[u].status != Voided ensures CountOk(after, u) {
      StatusKeepsSums(txs, t, Failed, One(), Root(Links(after), u));
      assert CountOk(txs, u);
    }
  }

  lemma PostKeepsCounts(txs: seq<Tx>, t: nat)
    requires CountsOk(txs) && LiveIsLast(txs) && t < |txs| && txs[t].status == Draft
    ensures CountsOk(SetStatus(txs, t, Posted))
  {
    var after := SetStatus(txs, t, Posted);
    assert Links(after) == Links(txs);
    forall u | 0 <= u < |after| && after[u].status != Voided ensures CountOk(after, u) {
      PostAddsToSums(txs, t, One(), Root(Links(after), u));
      assert CountOk(txs, u);
      assert u != t ==> Root(Links(txs), t) != Root(Links(txs), u);
    }
  }

  lemma {:induction false} DraftMovesKeepTxs(b: Books, t: nat)
    requires TxsOk(b) && t < |b.txs| && b.txs[t].status == Draft
    ensures TxsOk(b.(txs := SetStatus(b.txs, t, if b.txs[t].lines == [] then Failed else Posted)))
  {
    if b.txs[t].lines == [] {
      DraftMovesKeepChains(b.txs, t, Failed);
      FailKeepsCounts(b.txs, t);
    } else {
      DraftMovesKeepChains(b.txs, t, Posted);
      PostKeepsCounts(b.txs, t);
    }
  }

  lemma {:induction false} VoidKeepsTxs(b: Books, t: nat, period: int)
    requires TxsOk(b) && VoidCheck(b, t).None?
    ensures TxsOk(VoidTx(b, t, period))
  {
    var rev := ReversalOf(b.txs[t], t, period);
    VoidKeepsLinks(b.txs, t, rev);
    VoidKeepsOrder(b.txs, t, rev);
    VoidKeepsCounts(b.txs, t, rev);
    VoidKeepsJournals(b, t, period);
  }

  lemma VoidKeepsLinks(txs: seq<Tx>, t: nat, rev: Tx)
    requires LinksOk(txs) && t < |txs|
    requires rev.reverses == Some(t) && rev.lines == SwapAll(txs[t].lines) && rev.mode == txs[t].mode
    ensures LinksOk(SetStatus(txs, t, Voided) + [rev])
  {
  }

  lemma VoidKeepsCounts(txs: seq<Tx>, t: nat, rev: Tx)
    requires CountsOk(txs) && t < |txs| && txs[t].status == Posted
    requires rev.reverses == Some(t) && rev.status == Draft
    ensures CountsOk(SetStatus(txs, t, Voided) + [rev])
  {
    var voided := SetStatus(txs, t, Voided);
    var after := voided + [rev];
    assert Links(voided) == Links(txs);
    AppendKeepsChains(voided, rev);
    forall u | 0 <= u < |after| && after[u].status != Voided ensures CountOk(after, u) {
      var r := Root(Links(after), u);
      AppendKeepsSums(voided, rev, One(), r);
      StatusKeepsSums(txs, t, Voided, One(), r);
      assert CountOk(txs, if u < |txs| then u else t);
    }
  }

  lemma VoidKeepsJournals(b: Books, t: nat, period: int)
    requires JournalsOk(b.accounts, b.txs) && VoidCheck(b, t).None?
    ensures JournalsOk(b.accounts, VoidTx(b, t, period).txs)
  {
    SwapNegates(b.txs[t].lines, 0);
    var rev := ReversalOf(b.txs[t], t, period);
    forall i | 0 <= i < |rev.lines| ensures rev.lines[i].Storable() && rev.lines[i].account < |b.accounts| {
      assert b.txs[t].lines[i].Storable();
    }
  }

  lemma VoidKeepsOrder(txs: seq<Tx>, t: nat, rev: Tx)
    requires LiveIsLast(txs) && t < |txs| && txs[t].status == Posted
    requires rev.reverses == Some(t)
    ensures LiveIsLast(SetStatus(txs, t, Voided) + [rev])
  {
    var voided := SetStatus(txs, t, Voided);
    var after := voided + [rev];
    assert Links(voided) == Links(txs);
    AppendKeepsChains(voided, rev);
    forall u, v | 0 <= u < v < |after| && Root(Links(after), u) == Root(Links(after), v)
      ensures Depth(Links(after), u) < Depth(Links(after), v) && after[u].status == Voided
    {
      if v == |txs| && u != t {
        assert u < t;
      }
    }
  }

  lemma {:induction false} StepKeepsTxs(b: Books, s: Step)
    requires TxsOk(b)
    ensures TxsOk(Next(b, s))
  {
    match s
    case ChartStep(op) => ChartRuns.OperationKeeps(b.accounts, op);
    case CreateStep(req) => CreateKeepsTxs(b, req);
    case DeliverStep(t, isReversal, stamp) =>
      if t < |b.txs| && b.txs[t].status == Draft {
        DraftMovesKeepTxs(b, t);
      }
    case VoidStep(t, period) =>
      if VoidCheck(b, t).None? {
        VoidKeepsTxs(b, t, period);
      }
  }

  lemma {:induction false} RunKeepsTxs(steps: seq<Step>)
    ensures TxsOk(Final(steps))
  {
    if steps != [] {
      RunKeepsTxs(steps[..|steps| - 1]);
      StepKeepsTxs(Final(steps[..|steps| - 1]), steps[|steps| - 1]);
    }
  }
}
