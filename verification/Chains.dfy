/** What voiding adds up to: along a chain of reversals only the parity counts, and the whole
    ledger is out of balance by the drift of the hand-entered originals that still stand. */
module Chains {
  import opened Prelude
  import opened Rules
  import opened Books
  import opened Journals
  import opened LedgerRuns
  import Sums

  /** Every second member of a chain repeats the original, the others negate it. */
  lemma {:induction false} MemberEffect(txs: seq<Tx>, w: Tx -> int, t: nat)
    requires LinksOk(txs) && Odd(w) && t < |txs|
    ensures var root := Root(Links(txs), t);
            w(txs[t]) == if Depth(Links(txs), t) % 2 == 0 then w(txs[root]) else -w(txs[root])
  {
    if txs[t].reverses.Some? {
      var o := txs[t].reverses.value;
      MemberEffect(txs, w, o);
      assert Swaps(txs[t], txs[o]);
    }
  }

  /** The posted members of a chain together have the original's effect when their number is
      odd, and none when it is even. */
  predicate ChainEffect(txs: seq<Tx>, w: Tx -> int, r: nat)
    requires r < |txs|
  {
    ChainSum(txs, w, r) == if PostedCount(txs, r) % 2 == 1 then w(txs[r]) else 0
  }

  ghost predicate EffectsOk(txs: seq<Tx>, w: Tx -> int) {
    forall r :: 0 <= r < |txs| && txs[r].reverses.None? ==> ChainEffect(txs, w, r)
  }

  lemma ParityStep(count: int, original: int, before: int, member: int)
    requires count >= 0
    requires before == if count % 2 == 1 then original else 0
    requires member == if count % 2 == 0 then original else -original
    ensures before + member == if (count + 1) % 2 == 1 then original else 0
  {
  }

  lemma PostElsewhere(txs: seq<Tx>, w: Tx -> int, t: nat, r: nat)
    requires StatusFree(w) && t < |txs| && txs[t].status == Draft
    requires r < |txs| && Root(Links(txs), t) != r && ChainEffect(txs, w, r)
    ensures ChainEffect(SetStatus(txs, t, Posted), w, r)
  {
    PostAddsToSums(txs, t, w, r);
    PostAddsToSums(txs, t, One(), r);
    assert OnlyStatusDiffers(SetStatus(txs, t, Posted)[r], txs[r]);
  }

  lemma PostCounts(txs: seq<Tx>, t: nat)
    requires CountsOk(txs) && t < |txs| && txs[t].status == Draft
    ensures var r, depth := Root(Links(txs), t), Depth(Links(txs), t);
            PostedCount(txs, r) == depth && PostedCount(SetStatus(txs, t, Posted), r) == depth + 1
  {
    assert CountOk(txs, t);
    PostAddsToSums(txs, t, One(), Root(Links(txs), t));
  }

  lemma PostInChain(txs: seq<Tx>, w: Tx -> int, t: nat)
    requires LinksOk(txs) && CountsOk(txs) && Odd(w) && StatusFree(w)
    requires t < |txs| && txs[t].status == Draft && ChainEffect(txs, w, Root(Links(txs), t))
    ensures ChainEffect(SetStatus(txs, t, Posted), w, Root(Links(txs), t))
  {
    var r := Root(Links(txs), t);
    PostCounts(txs, t);
    MemberEffect(txs, w, t);
    PostAddsToSums(txs, t, w, r);
    assert OnlyStatusDiffers(SetStatus(txs, t, Posted)[r], txs[r]);
    ParityStep(Depth(Links(txs), t), w(txs[r]), ChainSum(txs, w, r), w(txs[t]));
  }

  lemma PostKeepsEffect(txs: seq<Tx>, w: Tx -> int, t: nat, r: nat)
    requires LinksOk(txs) && CountsOk(txs) && Odd(w) && StatusFree(w)
    requires t < |txs| && txs[t].status == Draft && r < |txs| && ChainEffect(txs, w, r)
    ensures ChainEffect(SetStatus(txs, t, Posted), w, r)
  {
    if Root(Links(txs), t) == r {
      PostInChain(txs, w, t);
    } else {
      PostElsewhere(txs, w, t, r);
    }
  }

  lemma SameStatusKeepsEffect(txs: seq<Tx>, w: Tx -> int, t: nat, s: Status, r: nat)
    requires StatusFree(w) && t < |txs| && HasPosted(s) == HasPosted(txs[t].status)
    requires r < |txs| && ChainEffect(txs, w, r)
    ensures ChainEffect(SetStatus(txs, t, s), w, r)
  {
    StatusKeepsSums(txs, t, s, w, r);
    StatusKeepsSums(txs, t, s, One(), r);
    assert OnlyStatusDiffers(SetStatus(txs, t, s)[r], txs[r]);
  }

  lemma AppendKeepsEffect(txs: seq<Tx>, w: Tx -> int, x: Tx, r: nat)
    requires x.status == Draft && r <= |txs| && (r < |txs| ==> ChainEffect(txs, w, r))
    ensures ChainEffect(txs + [x], w, r)
  {
    AppendKeepsSums(txs, x, w, r);
    AppendKeepsSums(txs, x, One(), r);
    if r == |txs| {
      NothingBeyond(txs, w, r);
      NothingBeyond(txs, One(), r);
    }
  }

  lemma {:induction false} DeliveryKeepsEffect(b: Books, t: nat, w: Tx -> int, r: nat)
    requires TxsOk(b) && Odd(w) && StatusFree(w) && t < |b.txs| && b.txs[t].status == Draft
    requires r < |b.txs| && ChainEffect(b.txs, w, r)
    ensures ChainEffect(SetStatus(b.txs, t, Posted), w, r)
    ensures ChainEffect(SetStatus(b.txs, t, Failed), w, r)
  {
    PostKeepsEffect(b.txs, w, t, r);
    SameStatusKeepsEffect(b.txs, w, t, Failed, r);
  }

  lemma VoidKeepsEffect(txs: seq<Tx>, t: nat, rev: Tx, w: Tx -> int, r: nat)
    requires StatusFree(w) && t < |txs| && txs[t].status == Posted && rev.status == Draft
    requires r <= |txs| && (r < |txs| ==> ChainEffect(txs, w, r))
    ensures ChainEffect(SetStatus(txs, t, Voided) + [rev], w, r)
  {
    if r < |txs| {
      SameStatusKeepsEffect(txs, w, t, Voided, r);
    }
    AppendKeepsEffect(SetStatus(txs, t, Voided), w, rev, r);
  }

  lemma {:induction false} CreateKeepsEffect(b: Books, req: CreateRequest, w: Tx -> int, r: nat)
    requires r < |Create(b, req).txs| && (r < |b.txs| ==> ChainEffect(b.txs, w, r))
    ensures ChainEffect(Create(b, req).txs, w, r)
  {
    NewTxJournal(b.accounts, req);
    if NewTx(b.accounts, req).Ok? {
      AppendKeepsEffect(b.txs, w, NewTx(b.accounts, req).value, r);
    }
  }

  lemma {:induction false} StepKeepsEffect(b: Books, s: Step, w: Tx -> int, r: nat)
    requires TxsOk(b) && Odd(w) && StatusFree(w)
    requires r < |Next(b, s).txs| && (r < |b.txs| ==> ChainEffect(b.txs, w, r))
    ensures ChainEffect(Next(b, s).txs, w, r)
  {
    match s
    case ChartStep(_) =>
    case CreateStep(req) => CreateKeepsEffect(b, req, w, r);
    case DeliverStep(t, _, _) =>
      if OutcomeOf(b, t) != Skip {
        DeliveryKeepsEffect(b, t, w, r);
      }
    case VoidStep(t, period) =>
      if VoidCheck(b, t).None? {
        VoidKeepsEffect(b.txs, t, ReversalOf(b.txs[t], t, period), w, r);
      }
  }

  lemma {:induction false} StepKeepsEffects(b: Books, s: Step, w: Tx -> int)
    requires TxsOk(b) && Odd(w) && StatusFree(w) && EffectsOk(b.txs, w)
    ensures EffectsOk(Next(b, s).txs, w)
  {
    forall r | 0 <= r < |Next(b, s).txs| && Next(b, s).txs[r].reverses.None? ensures ChainEffect(Next(b, s).txs, w, r) {
      assert r < |b.txs| ==> b.txs[r].reverses.None?;
      StepKeepsEffect(b, s, w, r);
    }
  }

  lemma {:induction false} RunKeepsEffects(steps: seq<Step>, w: Tx -> int)
    requires Odd(w) && StatusFree(w)
    ensures EffectsOk(Final(steps).txs, w)
  {
    if steps != [] {
      var front := steps[..|steps| - 1];
      RunKeepsEffects(front, w);
      RunKeepsTxs(front);
      StepKeepsEffects(Final(front), steps[|steps| - 1], w);
    }
  }

  lemma OneReversalEach(txs: seq<Tx>, s: nat, t: nat)
    requires LinksOk(txs) && LiveIsLast(txs) && s < t < |txs| && txs[s].reverses.Some?
    ensures txs[s].reverses != txs[t].reverses
  {
    var links := Links(txs);
    assert Root(links, s) == Root(links, links[s].value) && Depth(links, s) == Depth(links, links[s].value) + 1;
    if txs[t].reverses.Some? {
      assert Root(links, t) == Root(links, links[t].value) && Depth(links, t) == Depth(links, links[t].value) + 1;
    }
  }

  /** In every run reversals point back along disjoint simple chains whose members but the last
      are voided. */
  lemma {:induction false} ReversalChains(steps: seq<Step>)
    ensures LinksOk(Final(steps).txs) && LiveIsLast(Final(steps).txs)
    ensures forall s, t :: 0 <= s < t < |Final(steps).txs| && Final(steps).txs[s].reverses.Some? ==>
        Final(steps).txs[s].reverses != Final(steps).txs[t].reverses
  {
    RunKeepsTxs(steps);
    var txs := Final(steps).txs;
    forall s, t | 0 <= s < t < |txs| && txs[s].reverses.Some?
      ensures txs[s].reverses != txs[t].reverses
    {
      OneReversalEach(txs, s, t);
    }
  }

  /** In every run the net effect of a chain on any account is its original's when an odd number of
      members have posted and zero otherwise, whatever else was posted between. */
  lemma {:induction false} ChainsNetToOriginal(steps: seq<Step>, account: nat, r: nat)
    requires r < |Final(steps).txs| && Final(steps).txs[r].reverses.None?
    ensures ChainSum(Final(steps).txs, NetWeight(account), r)
         == if PostedCount(Final(steps).txs, r) % 2 == 1 then NetOn(Final(steps).txs[r].lines, account) else 0
  {
    WeightsOdd(account);
    RunKeepsEffects(steps, NetWeight(account));
    assert ChainEffect(Final(steps).txs, NetWeight(account), r);
  }

  /** The originals that an odd number of postings leaves standing. */
  predicate Stands(txs: seq<Tx>, r: nat)
    requires r < |txs|
  {
    txs[r].reverses.None? && PostedCount(txs, r) % 2 == 1
  }

  function StandingTerm(txs: seq<Tx>, w: Tx -> int): nat -> int {
    (r: nat) => if r < |txs| && Stands(txs, r) then w(txs[r]) else 0
  }

  /** The transactions of a run whose journal the request gave entry by entry. An ADVANCED request
      without entries is not among them: its journal is generated. */
  ghost function HandEntered(steps: seq<Step>): set<nat> {
    if steps == [] then {}
    else
      var b, s := Final(steps[..|steps| - 1]), steps[|steps| - 1];
      HandEntered(steps[..|steps| - 1])
      + if s.CreateStep? && NewTx(b.accounts, s.req).Ok? && UsesManualLines(s.req) then {|b.txs|} else {}
  }

  function StandingManual(txs: seq<Tx>, hand: set<nat>): nat -> int {
    (r: nat) => if r < |txs| && Stands(txs, r) && r in hand then 1 else 0
  }

  /** Every other original is exact. */
  predicate GeneratedExact(txs: seq<Tx>, hand: set<nat>) {
    forall t :: 0 <= t < |txs| && txs[t].reverses.None? && t !in hand ==> Drift(txs[t].lines) == 0
  }

  lemma StepKeepsGenerated(b: Books, s: Step, hand: set<nat>)
    requires GeneratedExact(b.txs, hand)
    ensures GeneratedExact(Next(b, s).txs,
      hand + if s.CreateStep? && NewTx(b.accounts, s.req).Ok? && UsesManualLines(s.req) then {|b.txs|} else {})
  {
    if s.CreateStep? {
      NewTxJournal(b.accounts, s.req);
    }
  }

  lemma {:induction false} RunKeepsGenerated(steps: seq<Step>)
    ensures GeneratedExact(Final(steps).txs, HandEntered(steps))
  {
    if steps != [] {
      RunKeepsGenerated(steps[..|steps| - 1]);
      StepKeepsGenerated(Final(steps[..|steps| - 1]), steps[|steps| - 1], HandEntered(steps[..|steps| - 1]));
    }
  }

  /** Over all transactions, what has posted adds up to what the standing originals add up to. */
  lemma PostedIsStanding(steps: seq<Step>, w: Tx -> int)
    requires Odd(w) && StatusFree(w)
    ensures PostedSum(Final(steps).txs, w) == Sums.SumTo(StandingTerm(Final(steps).txs, w), |Final(steps).txs|)
  {
    var txs := Final(steps).txs;
    RunKeepsTxs(steps);
    RunKeepsEffects(steps, w);
    var f, root := PostedTerm(txs, w), RootOf(Links(txs));
    Sums.ByFibers(f, root, |txs|, |txs|);
    forall r: nat | r < |txs| ensures Sums.FiberSum(f, root, |txs|)(r) == StandingTerm(txs, w)(r) {
      if txs[r].reverses.None? {
        assert ChainEffect(txs, w, r);
      } else {
        InnerMemberHasNoFiber(txs, w, r);
      }
    }
    Sums.Same(Sums.FiberSum(f, root, |txs|), StandingTerm(txs, w), |txs|);
  }

  /** No chain starts at a reversal. */
  lemma InnerMemberHasNoFiber(txs: seq<Tx>, w: Tx -> int, r: nat)
    requires LinksOk(txs) && r < |txs| && txs[r].reverses.Some?
    ensures ChainSum(txs, w, r) == 0
  {
    var links := Links(txs);
    forall i: nat | i < |txs| ensures Root(links, i) != r {
      RootIsRoot(links, i);
    }
    Sums.Zero(Sums.Fiber(PostedTerm(txs, w), RootOf(links), r), |txs|);
  }

  /** The posted journals of every run together are out of balance by exactly the drift of the
      standing originals: at most one cent for each one entered by hand, nothing otherwise. */
  lemma {:induction false} DriftOfARun(steps: seq<Step>)
    ensures var txs := Final(steps).txs;
            var total := PostedSum(txs, DriftWeight());
            var manual := Sums.SumTo(StandingManual(txs, HandEntered(steps)), |txs|);
            && total == Sums.SumTo(StandingTerm(txs, DriftWeight()), |txs|)
            && -manual <= total <= manual
            && (HandEntered(steps) == {} ==> total == 0)
  {
    var txs := Final(steps).txs;
    RunKeepsTxs(steps);
    WeightsOdd(0);
    PostedIsStanding(steps, DriftWeight());
    RunKeepsGenerated(steps);
    Sums.Bounded(StandingTerm(txs, DriftWeight()), StandingManual(txs, HandEntered(steps)), |txs|);
    if HandEntered(steps) == {} {
      Sums.Zero(StandingManual(txs, HandEntered(steps)), |txs|);
    }
  }
}
