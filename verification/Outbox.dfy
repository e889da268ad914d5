/** Exactly-once: the ledger is the posted journals laid end to end in the order of their posted
    events, and a draft is a transaction whose created event nobody has handled yet. */
module Outbox {
  import opened Prelude
  import opened Chart
  import opened Books
  import opened Journals
  import opened LedgerRuns

  /** What a ledger entry says about the journal line it came from. */
  datatype Posting = Posting(account: nat, tx: nat, line: nat, period: int, debit: int, credit: int)

  function Strip(e: LedgerEntry): Posting {
    Posting(e.account, e.tx, e.line, e.period, e.debit, e.credit)
  }

  function Strips(ledger: seq<LedgerEntry>): seq<Posting> {
    if ledger == [] then [] else Strips(ledger[..|ledger| - 1]) + [Strip(ledger[|ledger| - 1])]
  }

  function LinePosting(tx: Tx, t: nat, i: nat): Posting
    requires i < |tx.lines|
  {
    Posting(tx.lines[i].account, t, i, tx.period, tx.lines[i].debit, tx.lines[i].credit)
  }

  /** The first `n` journal lines of transaction `t`, in order. */
  function Block(txs: seq<Tx>, t: nat, n: nat): seq<Posting>
    requires t < |txs| && n <= |txs[t].lines|
  {
    if n == 0 then [] else Block(txs, t, n - 1) + [LinePosting(txs[t], t, n - 1)]
  }

  function Blocks(txs: seq<Tx>, order: seq<nat>): seq<Posting>
    requires forall i :: 0 <= i < |order| ==> order[i] < |txs|
  {
    if order == [] then []
    else
      var t := order[|order| - 1];
      Blocks(txs, order[..|order| - 1]) + Block(txs, t, |txs[t].lines|)
  }

  /** The transactions announced as posted, in order. */
  function PostOrder(outbox: seq<Event>): seq<nat> {
    if outbox == [] then []
    else
      var e := outbox[|outbox| - 1];
      PostOrder(outbox[..|outbox| - 1]) + if e.LedgerPosted? then [e.tx] else []
  }

  /** The transactions announced as created, in order. */
  function CreateOrder(outbox: seq<Event>): seq<nat> {
    if outbox == [] then []
    else
      var e := outbox[|outbox| - 1];
      CreateOrder(outbox[..|outbox| - 1]) + if e.TransactionCreated? then [e.tx] else []
  }

  /** One created event per transaction, in order of creation; and every event flagged as a
      reversal exactly when its transaction is one. */
  ghost predicate CreatedOk(txs: seq<Tx>, outbox: seq<Event>) {
    && CreateOrder(outbox) == seq(|txs|, (i: nat) => i)
    && forall e :: e in outbox ==> e.tx < |txs| && e.isReversal == txs[e.tx].reverses.Some?
  }

  /** One posted event per posted or voided transaction, none for the others. */
  predicate OrderOk(txs: seq<Tx>, order: seq<nat>) {
    && (forall i :: 0 <= i < |order| ==> order[i] < |txs|)
    && (forall i, j :: 0 <= i < j < |order| ==> order[i] != order[j])
    && (forall t :: 0 <= t < |txs| ==> (t in order <==> HasPosted(txs[t].status)))
  }

  /** The ledger laid out accordingly. */
  ghost predicate ExactlyOnce(b: Books) {
    && CreatedOk(b.txs, b.outbox)
    && OrderOk(b.txs, PostOrder(b.outbox))
    && Strips(b.ledger) == Blocks(b.txs, PostOrder(b.outbox))
  }

  lemma OrdersAppend(outbox: seq<Event>, e: Event)
    ensures PostOrder(outbox + [e]) == if e.LedgerPosted? then PostOrder(outbox) + [e.tx] else PostOrder(outbox)
    ensures CreateOrder(outbox + [e]) == if e.TransactionCreated? then CreateOrder(outbox) + [e.tx] else CreateOrder(outbox)
  {
    assert (outbox + [e])[..|outbox|] == outbox;
  }

  lemma StripsAppend(ledger: seq<LedgerEntry>, e: LedgerEntry)
    ensures Strips(ledger + [e]) == Strips(ledger) + [Strip(e)]
  {
    assert (ledger + [e])[..|ledger|] == ledger;
  }

  lemma LineStrips(accounts: seq<Account>, w: Tables, tx: Tx, t: nat, i: nat, stamp: Stamp, start: seq<Posting>, block: seq<Posting>)
    requires i < |tx.lines| && Strips(w.ledger) == start + block
    ensures Strips(PostLine(accounts, w, t, tx, i, stamp).ledger) == start + (block + [LinePosting(tx, t, i)])
  {
    StripsAppend(w.ledger, NextEntry(accounts, w.ledger, t, tx, i, stamp));
  }

  lemma {:induction false} PostLinesStrips(accounts: seq<Account>, w: Tables, txs: seq<Tx>, t: nat, n: nat, stamp: Stamp)
    requires t < |txs| && n <= |txs[t].lines|
    ensures Strips(PostLines(accounts, w, t, txs[t], n, stamp).ledger) == Strips(w.ledger) + Block(txs, t, n)
  {
    if n == 0 {
      assert Strips(w.ledger) + [] == Strips(w.ledger);
    } else {
      PostLinesStrips(accounts, w, txs, t, n - 1, stamp);
      var before := PostLines(accounts, w, t, txs[t], n - 1, stamp);
      LineStrips(accounts, before, txs[t], t, n - 1, stamp, Strips(w.ledger), Block(txs, t, n - 1));
      assert PostLines(accounts, w, t, txs[t], n, stamp) == PostLine(accounts, before, t, txs[t], n - 1, stamp);
    }
  }

  predicate SameJournal(x: Tx, y: Tx) { x.lines == y.lines && x.period == y.period }

  lemma {:induction false} SameBlock(txs: seq<Tx>, after: seq<Tx>, t: nat, n: nat)
    requires t < |txs| && t < |after| && SameJournal(txs[t], after[t]) && n <= |txs[t].lines|
    ensures Block(txs, t, n) == Block(after, t, n)
  {
    if n > 0 {
      SameBlock(txs, after, t, n - 1);
    }
  }

  lemma {:induction false} SameBlocks(txs: seq<Tx>, after: seq<Tx>, order: seq<nat>)
    requires |txs| <= |after| && forall t :: 0 <= t < |txs| ==> SameJournal(txs[t], after[t])
    requires forall i :: 0 <= i < |order| ==> order[i] < |txs|
    ensures Blocks(txs, order) == Blocks(after, order)
  {
    if order != [] {
      SameBlocks(txs, after, order[..|order| - 1]);
      var t := order[|order| - 1];
      SameBlock(txs, after, t, |txs[t].lines|);
    }
  }

  /** The same transactions, perhaps with other statuses, but posted just where they were. */
  predicate SameButStatus(txs: seq<Tx>, after: seq<Tx>) {
    |txs| == |after| && forall t :: 0 <= t < |txs| ==>
        SameJournal(txs[t], after[t]) && txs[t].reverses == after[t].reverses
        && HasPosted(txs[t].status) == HasPosted(after[t].status)
  }

  lemma CreatedKept(txs: seq<Tx>, after: seq<Tx>, outbox: seq<Event>)
    requires CreatedOk(txs, outbox) && SameButStatus(txs, after)
    ensures CreatedOk(after, outbox)
  {
  }

  lemma CreatedAppend(txs: seq<Tx>, after: seq<Tx>, outbox: seq<Event>, x: Tx)
    requires CreatedOk(txs, outbox) && SameButStatus(txs, after)
    ensures CreatedOk(after + [x], outbox + [TransactionCreated(|txs|, x.reverses.Some?)])
  {
    var e := TransactionCreated(|txs|, x.reverses.Some?);
    OrdersAppend(outbox, e);
    assert seq(|txs| + 1, (i: nat) => i) == seq(|txs|, (i: nat) => i) + [|txs|];
  }

  lemma OrderSame(txs: seq<Tx>, after: seq<Tx>, x: Tx, order: seq<nat>)
    requires OrderOk(txs, order) && SameButStatus(txs, after) && x.status == Draft
    ensures OrderOk(after + [x], order)
  {
    forall u | 0 <= u < |after + [x]| ensures u in order <==> HasPosted((after + [x])[u].status) {
      if u == |txs| {
        assert u !in order;
      }
    }
  }

  lemma {:induction false} BlocksKept(txs: seq<Tx>, after: seq<Tx>, x: Tx, order: seq<nat>)
    requires SameButStatus(txs, after) && forall i :: 0 <= i < |order| ==> order[i] < |txs|
    ensures Blocks(txs, order) == Blocks(after + [x], order)
  {
    SameBlocks(txs, after + [x], order);
  }

  /** Adding a draft and its created event. */
  lemma AnnounceKeeps(b: Books, txs: seq<Tx>, x: Tx)
    requires ExactlyOnce(b) && x.status == Draft && SameButStatus(b.txs, txs)
    ensures ExactlyOnce(b.(txs := txs + [x],
                           outbox := b.outbox + [TransactionCreated(|b.txs|, x.reverses.Some?)]))
  {
    OrdersAppend(b.outbox, TransactionCreated(|b.txs|, x.reverses.Some?));
    OrderSame(b.txs, txs, x, PostOrder(b.outbox));
    BlocksKept(b.txs, txs, x, PostOrder(b.outbox));
    CreatedAppend(b.txs, txs, b.outbox, x);
  }

  lemma FailKeeps(b: Books, t: nat)
    requires ExactlyOnce(b) && t < |b.txs| && b.txs[t].status == Draft
    ensures ExactlyOnce(b.(txs := SetStatus(b.txs, t, Failed)))
  {
    SameBlocks(b.txs, SetStatus(b.txs, t, Failed), PostOrder(b.outbox));
    CreatedKept(b.txs, SetStatus(b.txs, t, Failed), b.outbox);
  }

  lemma PostCreated(txs: seq<Tx>, outbox: seq<Event>, t: nat, isReversal: bool)
    requires CreatedOk(txs, outbox) && t < |txs| && TransactionCreated(t, isReversal) in outbox
    ensures CreatedOk(SetStatus(txs, t, Posted), outbox + [LedgerPosted(t, isReversal || txs[t].reverses.Some?)])
  {
    var e := LedgerPosted(t, isReversal || txs[t].reverses.Some?);
    OrdersAppend(outbox, e);
    assert TransactionCreated(t, isReversal).isReversal == txs[t].reverses.Some?;
  }

  lemma PostOrdered(txs: seq<Tx>, order: seq<nat>, t: nat)
    requires OrderOk(txs, order) && t < |txs| && !HasPosted(txs[t].status)
    ensures OrderOk(SetStatus(txs, t, Posted), order + [t])
  {
    var after := order + [t];
    forall i, j | 0 <= i < j < |after| ensures after[i] != after[j] {
      assert order[i] in order;
    }
    assert after[|order|] == t;
    forall u | 0 <= u < |txs| ensures u in after <==> HasPosted(SetStatus(txs, t, Posted)[u].status) {
      assert u in after <==> u in order || u == t;
    }
  }

  lemma PostKeeps(b: Books, t: nat, isReversal: bool, stamp: Stamp)
    requires ExactlyOnce(b) && t < |b.txs| && b.txs[t].status == Draft
    requires TransactionCreated(t, isReversal) in b.outbox
    ensures ExactlyOnce(PostTx(b, t, isReversal, stamp))
  {
    var order := PostOrder(b.outbox);
    OrdersAppend(b.outbox, LedgerPosted(t, isReversal || b.txs[t].reverses.Some?));
    PostCreated(b.txs, b.outbox, t, isReversal);
    PostOrdered(b.txs, order, t);
    PostLaidOut(b, t, stamp, order);
  }

  lemma {:induction false} PostLaidOut(b: Books, t: nat, stamp: Stamp, order: seq<nat>)
    requires t < |b.txs| && (forall i :: 0 <= i < |order| ==> order[i] < |b.txs|)
    requires Strips(b.ledger) == Blocks(b.txs, order)
    ensures Strips(PostLines(b.accounts, Tables(b.ledger, b.rows), t, b.txs[t], |b.txs[t].lines|, stamp).ledger)
         == Blocks(SetStatus(b.txs, t, Posted), order + [t])
  {
    PostLinesStrips(b.accounts, Tables(b.ledger, b.rows), b.txs, t, |b.txs[t].lines|, stamp);
    assert (order + [t])[..|order|] == order;
    SameBlocks(b.txs, SetStatus(b.txs, t, Posted), order + [t]);
  }

  lemma {:induction false} CreateKeepsExactlyOnce(b: Books, req: CreateRequest)
    requires ExactlyOnce(b)
    ensures ExactlyOnce(Create(b, req))
  {
    NewTxJournal(b.accounts, req);
    if NewTx(b.accounts, req).Ok? {
      AnnounceKeeps(b, b.txs, NewTx(b.accounts, req).value);
    }
  }

  lemma VoidKeepsExactlyOnce(b: Books, t: nat, period: int)
    requires ExactlyOnce(b) && VoidCheck(b, t).None?
    ensures ExactlyOnce(VoidTx(b, t, period))
  {
    AnnounceKeeps(b, SetStatus(b.txs, t, Voided), ReversalOf(b.txs[t], t, period));
  }

  lemma {:induction false} StepKeepsExactlyOnce(b: Books, s: Step)
    requires ExactlyOnce(b) && Enabled(b, s)
    ensures ExactlyOnce(Next(b, s))
  {
    match s
    case ChartStep(_) =>
    case CreateStep(req) => CreateKeepsExactlyOnce(b, req);
    case DeliverStep(t, isReversal, stamp) =>
      match OutcomeOf(b, t) {
        case Skip =>
        case Fail => FailKeeps(b, t);
        case Post => PostKeeps(b, t, isReversal, stamp);
      }
    case VoidStep(t, period) =>
      if VoidCheck(b, t).None? {
        VoidKeepsExactlyOnce(b, t, period);
      }
  }

  /** In every run each transaction is announced once when created and once when posted, and the
      ledger is precisely the journals of the posted and voided transactions, each once and whole,
      one entry per line, in posting order. Draft and failed transactions have neither. */
  lemma {:induction false} RunsPostExactlyOnce(steps: seq<Step>)
    requires IsRun(steps)
    ensures ExactlyOnce(Final(steps))
  {
    if steps == [] {
      assert CreateOrder(EMPTY.outbox) == seq(0, (i: nat) => i);
    } else {
      RunsPostExactlyOnce(steps[..|steps| - 1]);
      StepKeepsExactlyOnce(Final(steps[..|steps| - 1]), steps[|steps| - 1]);
    }
  }

  predicate Delivers(s: Step, t: nat) {
    s.DeliverStep? && s.t == t
  }

  /** A draft at the end of a run has a created event in the outbox that was never delivered. */
  lemma {:induction false} DraftIsUndelivered(steps: seq<Step>, t: nat)
    requires IsRun(steps) && t < |Final(steps).txs| && Final(steps).txs[t].status == Draft
    ensures TransactionCreated(t, Final(steps).txs[t].reverses.Some?) in Final(steps).outbox
    ensures forall k :: 0 <= k < |steps| ==> !Delivers(steps[k], t)
  {
    RunsPostExactlyOnce(steps);
    assert CreateOrder(Final(steps).outbox)[t] == t;
    Announced(Final(steps).outbox, t);
    NeverDelivered(steps, t);
  }

  lemma {:induction false} Announced(outbox: seq<Event>, t: nat)
    requires t in CreateOrder(outbox)
    ensures exists e :: e in outbox && e.TransactionCreated? && e.tx == t
  {
    var e := outbox[|outbox| - 1];
    if e.TransactionCreated? && e.tx == t {
      assert e in outbox;
    } else {
      Announced(outbox[..|outbox| - 1], t);
    }
  }

  /** No step brings a transaction back to draft. */
  lemma StaysSettled(b: Books, s: Step, t: nat)
    requires t < |b.txs| && b.txs[t].status != Draft
    ensures t < |Next(b, s).txs| && Next(b, s).txs[t].status != Draft
  {
  }

  /** Delivering a transaction's event leaves it something other than a draft. */
  lemma DeliverySettles(b: Books, t: nat, isReversal: bool, stamp: Stamp)
    requires JournalsOk(b.accounts, b.txs) && t < |b.txs|
    ensures Deliver(b, t, isReversal, stamp).txs[t].status != Draft
  {
  }

  lemma DraftBefore(b: Books, s: Step, t: nat)
    requires TxsOk(b) && ExactlyOnce(b) && Enabled(b, s)
    requires t < |Next(b, s).txs| ==> Next(b, s).txs[t].status == Draft
    ensures !Delivers(s, t) && (t < |b.txs| ==> b.txs[t].status == Draft)
  {
    if Delivers(s, t) {
      assert TransactionCreated(t, s.isReversal).tx < |b.txs|;
      DeliverySettles(b, t, s.isReversal, s.stamp);
    } else if t < |b.txs| && b.txs[t].status != Draft {
      StaysSettled(b, s, t);
    }
  }

  lemma {:induction false} DraftBeforeLast(steps: seq<Step>, t: nat)
    requires steps != [] && IsRun(steps) && (t < |Final(steps).txs| ==> Final(steps).txs[t].status == Draft)
    ensures var before := Final(steps[..|steps| - 1]);
            !Delivers(steps[|steps| - 1], t) && (t < |before.txs| ==> before.txs[t].status == Draft)
  {
    var front := steps[..|steps| - 1];
    RunsPostExactlyOnce(front);
    RunKeepsTxs(front);
    DraftBefore(Final(front), steps[|steps| - 1], t);
  }

  lemma {:induction false} NeverDelivered(steps: seq<Step>, t: nat)
    requires IsRun(steps) && (t < |Final(steps).txs| ==> Final(steps).txs[t].status == Draft)
    ensures forall k :: 0 <= k < |steps| ==> !Delivers(steps[k], t)
  {
    if steps != [] {
      var front, s := steps[..|steps| - 1], steps[|steps| - 1];
      DraftBeforeLast(steps, t);
      NeverDelivered(front, t);
      assert steps == front + [s];
    }
  }

  /** So once every created event has been delivered at least once, no draft is left. */
  lemma {:induction false} AllDeliveredNoDraft(steps: seq<Step>, t: nat)
    requires IsRun(steps) && t < |Final(steps).txs|
    requires exists k :: 0 <= k < |steps| && Delivers(steps[k], t)
    ensures Final(steps).txs[t].status != Draft
  {
    if Final(steps).txs[t].status == Draft {
      DraftIsUndelivered(steps, t);
    }
  }

  /** A delivered transaction fails exactly when it has no lines, which only a JOURNAL request
      without ADVANCED entries produces; every other one posts. */
  lemma {:induction false} FailsIffEmpty(steps: seq<Step>, t: nat)
    requires t < |Final(steps).txs|
    ensures var tx := Final(steps).txs[t];
            tx.status != Draft ==> (tx.status == Failed <==> tx.lines == [])
  {
    RunKeepsTxs(steps);
  }
}
