/** When a gateway callback acts, what it leaves, and what it takes for an invoice to be paid and a
    subscription to be active, in any run of the billing machine. */
module Settlements {
  import opened Prelude
  import opened Billing

  /** The callback carries the gateway's id of payment `p`. */
  predicate Names(s: BillingState, payload: Payload, p: nat) {
    payload.gatewayId != "" && p < |s.payments| && s.payments[p].gatewayId == payload.gatewayId
  }

  /** The amount it says was paid, or else the one it says was due. */
  function Offered(payload: Payload): real {
    if payload.paidAmount == 0.0 then payload.amount else payload.paidAmount
  }

  /** It may settle payment `p`: a given external id is that of the payment's invoice, and an amount
      above zero is the invoice's. */
  predicate MaySettle(s: BillingState, payload: Payload, p: nat) {
    && Names(s, payload, p)
    && var inv := s.payments[p].invoice;
       && inv < |s.invoices|
       && (payload.externalId.Some? ==> payload.externalId.value == inv)
       && (Offered(payload) > 0.0 ==> Offered(payload) == s.invoices[inv].amount)
  }

  /** A callback for a named payment is refused for exactly one reason, or may settle it. */
  lemma RefusedIff(s: BillingState, payload: Payload, p: nat)
    requires Names(s, payload, p)
    ensures var inv, r := s.payments[p].invoice, CallbackCheck(s, payload, p);
            && (r == Err(InvoiceNotFound) <==> inv >= |s.invoices|)
            && (r == Err(ExternalIdMismatch) <==> inv < |s.invoices| && payload.externalId.Some? && payload.externalId != Some(inv))
            && (r == Err(AmountMismatch) <==>
                inv < |s.invoices| && (payload.externalId.Some? ==> payload.externalId == Some(inv))
                && Offered(payload) > 0.0 && Offered(payload) != s.invoices[inv].amount)
            && (r == Ok(p) <==> MaySettle(s, payload, p)) && (r.Ok? ==> r == Ok(p))
  {
  }

  /** One that names no payment changes nothing. */
  lemma UnnamedIsRefused(s: BillingState, payload: Payload, row: nat, writes: nat)
    requires forall p: nat :: !Names(s, payload, p)
    ensures Callback(s, payload, row, writes) == s
    ensures CallbackCheck(s, payload, row) == Err(if payload.gatewayId == "" then InvalidPayload else PaymentNotFound)
  {
    var found := FindByGatewayId(s.payments, payload.gatewayId, row);
    if payload.gatewayId != "" && found.Some? {
      assert Names(s, payload, found.value);
    }
  }

  /** What a status word makes of the payment and its invoice. */
  function Outcome(c: CallbackStatus): Status {
    if c == PaidOrSettled then Paid else if c == ExpiredCallback then Expired else Failed
  }

  /** The tables once the first `writes` of the three writes are done: the payment, its invoice, and
      for a paid one the subscription. */
  predicate Settled(s: BillingState, t: BillingState, p: nat, c: CallbackStatus, writes: nat)
    requires p < |s.payments| && s.payments[p].invoice < |s.invoices|
  {
    var inv := s.payments[p].invoice;
    && t.payments == (if writes == 0 then s.payments else s.payments[p := s.payments[p].(status := Outcome(c))])
    && t.invoices == (if writes <= 1 then s.invoices else s.invoices[inv := s.invoices[inv].(status := Outcome(c))])
    && t.active == (if writes >= 3 && c == PaidOrSettled then s.active + {s.invoices[inv].subscription} else s.active)
  }

  /** A callback that names payment `row` settles it when it may and has a status the code knows, and
      otherwise changes nothing. */
  lemma CallbackLeaves(s: BillingState, payload: Payload, row: nat, writes: nat)
    requires Names(s, payload, row)
    ensures if MaySettle(s, payload, row) && payload.status != OtherCallback
            then Settled(s, Callback(s, payload, row, writes), row, payload.status, writes)
            else Callback(s, payload, row, writes) == s
  {
    RefusedIff(s, payload, row);
  }

  /** The payment a callback is about. */
  predicate About(s: BillingState, step: Step, p: nat) {
    step.CallbackStep? && FindByGatewayId(s.payments, step.payload.gatewayId, step.row) == Some(p)
  }

  /** A callback for a payment of the invoice that says PAID or SETTLED, may settle it, and gets as
      far as the invoice. */
  predicate Pays(s: BillingState, e: Timed, p: nat, inv: nat) {
    && About(s, e.step, p) && MaySettle(s, e.step.payload, p) && s.payments[p].invoice == inv
    && e.step.payload.status == PaidOrSettled && e.step.writes >= 2
  }

  lemma SameRow(s: BillingState, payload: Payload, row: nat, p: nat, writes: nat)
    requires payload.gatewayId != "" && FindByGatewayId(s.payments, payload.gatewayId, row) == Some(p)
    ensures Names(s, payload, p) && Callback(s, payload, row, writes) == Callback(s, payload, p, writes)
  {
  }

  lemma PayingCallbackIff(s: BillingState, e: Timed, inv: nat)
    requires inv < |s.invoices| && s.invoices[inv].status != Paid && e.step.CallbackStep?
    ensures Next(s, e).invoices[inv].status == Paid <==> exists p :: Pays(s, e, p, inv)
  {
    var found := FindByGatewayId(s.payments, e.step.payload.gatewayId, e.step.row);
    if e.step.payload.gatewayId != "" && found.Some? {
      SameRow(s, e.step.payload, e.step.row, found.value, e.step.writes);
      CallbackLeaves(s, e.step.payload, found.value, e.step.writes);
      assert Pays(s, e, found.value, inv) <==> exists p :: Pays(s, e, p, inv);
    }
  }

  /** A step makes an unpaid invoice paid if and only if it is such a callback. */
  lemma TurnsPaidIff(s: BillingState, e: Timed, inv: nat)
    requires inv < |s.invoices| && s.invoices[inv].status != Paid
    ensures inv < |Next(s, e).invoices|
    ensures Next(s, e).invoices[inv].status == Paid <==> exists p :: Pays(s, e, p, inv)
  {
    if e.step.CallbackStep? {
      PayingCallbackIff(s, e, inv);
    }
  }

  /** In every run each paid invoice was paid by such a callback. */
  lemma {:induction false} PaidByCallback(steps: seq<Timed>, inv: nat)
    requires inv < |After(steps).invoices| && After(steps).invoices[inv].status == Paid
    ensures exists k, p :: 0 <= k < |steps| && Pays(After(steps[..k]), steps[k], p, inv)
  {
    var front, e := steps[..|steps| - 1], steps[|steps| - 1];
    var s := After(front);
    if inv < |s.invoices| && s.invoices[inv].status == Paid {
      PaidByCallback(front, inv);
      var k, p :| 0 <= k < |front| && Pays(After(front[..k]), front[k], p, inv);
      assert front[..k] == steps[..k] && Pays(After(steps[..k]), steps[k], p, inv);
    } else {
      assert inv < |s.invoices|;
      TurnsPaidIff(s, e, inv);
      var p :| Pays(s, e, p, inv);
      assert Pays(After(steps[..|steps| - 1]), steps[|steps| - 1], p, inv);
    }
  }

  /** Such a callback whose third write is done, for an invoice of the subscription. */
  predicate Activates(s: BillingState, e: Timed, sub: nat) {
    exists p :: 0 <= p < |s.payments| && Pays(s, e, p, s.payments[p].invoice) && e.step.writes >= 3
                && s.invoices[s.payments[p].invoice].subscription == sub
  }

  lemma ActiveStep(s: BillingState, e: Timed, sub: nat)
    ensures sub in Next(s, e).active <==> sub in s.active || Activates(s, e, sub)
  {
    if e.step.CallbackStep? && e.step.payload.gatewayId != "" {
      var found := FindByGatewayId(s.payments, e.step.payload.gatewayId, e.step.row);
      if found.Some? {
        SameRow(s, e.step.payload, e.step.row, found.value, e.step.writes);
        CallbackLeaves(s, e.step.payload, found.value, e.step.writes);
      }
    }
  }

  /** One of the steps does so. */
  predicate EverActivated(steps: seq<Timed>, sub: nat) {
    exists k :: 0 <= k < |steps| && Activates(After(steps[..k]), steps[k], sub)
  }

  lemma ActivatedStep(steps: seq<Timed>, sub: nat)
    requires steps != []
    ensures var front := steps[..|steps| - 1];
            EverActivated(steps, sub) <==> EverActivated(front, sub) || Activates(After(front), steps[|steps| - 1], sub)
  {
    var front := steps[..|steps| - 1];
    forall k | 0 <= k <= |front| ensures steps[..k] == front[..k] {
    }
    forall k | 0 <= k < |front|
      ensures Activates(After(steps[..k]), steps[k], sub) <==> Activates(After(front[..k]), front[k], sub)
    {
    }
  }

  /** In every run a subscription is active if and only if one of its invoices was paid to the end. */
  lemma {:induction false} ActiveIff(steps: seq<Timed>, sub: nat)
    ensures sub in After(steps).active <==> EverActivated(steps, sub)
  {
    if steps != [] {
      ActiveIff(steps[..|steps| - 1], sub);
      ActiveStep(After(steps[..|steps| - 1]), steps[|steps| - 1], sub);
      ActivatedStep(steps, sub);
    }
  }

  /** What paying creates: a pending payment of the invoice's amount that runs for 24 hours. */
  lemma PaymentCreated(s: BillingState, workspace: nat, inv: nat, now: int, gateway: Option<string>, stored: bool)
    requires Pay(s, workspace, inv, now, gateway, stored) != s
    ensures gateway.Some? && inv < |s.invoices| && s.invoices[inv].workspace == workspace
    ensures var t := Pay(s, workspace, inv, now, gateway, stored);
            t == s.(payments := s.payments
              + [Payment(inv, gateway.value, s.invoices[inv].amount, Pending, now, Some(now + 86_400_000_000))])
  {
  }

  /** The sweep expires exactly the pending payments whose time is over. */
  lemma SweptIff(payments: seq<Payment>, now: int, p: nat)
    requires p < |payments|
    ensures |Swept(payments, now)| == |payments|
    ensures Swept(payments, now)[p] != payments[p] <==>
            payments[p].status == Pending && payments[p].expiredAt.Some? && payments[p].expiredAt.value < now
    ensures Swept(payments, now)[p] in {payments[p], payments[p].(status := Expired)}
  {
  }

  // ----- Whether a paid invoice stays paid -----

  /** A callback that may settle a payment of the invoice, says EXPIRED or FAILED, and gets as far as
      the invoice. The code does not look at the invoice's status first. */
  predicate Unpays(s: BillingState, e: Timed, p: nat, inv: nat) {
    && About(s, e.step, p) && MaySettle(s, e.step.payload, p) && s.payments[p].invoice == inv
    && e.step.payload.status in {ExpiredCallback, FailedCallback} && e.step.writes >= 2
  }

  predicate TakesBack(s: BillingState, e: Timed, inv: nat) {
    exists p :: 0 <= p < |s.payments| && Unpays(s, e, p, inv)
  }

  lemma PaidLostIff(s: BillingState, e: Timed, inv: nat)
    requires inv < |s.invoices| && s.invoices[inv].status == Paid
    ensures inv < |Next(s, e).invoices|
    ensures Next(s, e).invoices[inv].status == Paid <==> !TakesBack(s, e, inv)
  {
    if e.step.CallbackStep? && e.step.payload.gatewayId != "" {
      var found := FindByGatewayId(s.payments, e.step.payload.gatewayId, e.step.row);
      if found.Some? {
        SameRow(s, e.step.payload, e.step.row, found.value, e.step.writes);
        CallbackLeaves(s, e.step.payload, found.value, e.step.writes);
        assert TakesBack(s, e, inv) <==> Unpays(s, e, found.value, inv);
      }
    }
  }

  predicate PaidThroughout(steps: seq<Timed>, from: nat, inv: nat) {
    forall k :: from <= k <= |steps| ==> inv < |After(steps[..k]).invoices| && After(steps[..k]).invoices[inv].status == Paid
  }

  /** No step of the rest takes it back. */
  predicate NeverTakenBack(steps: seq<Timed>, from: nat, inv: nat) {
    forall k :: from <= k < |steps| ==> !TakesBack(After(steps[..k]), steps[k], inv)
  }

  lemma ThroughoutStep(steps: seq<Timed>, from: nat, inv: nat)
    requires from < |steps| && inv < |After(steps[..from]).invoices| && After(steps[..from]).invoices[inv].status == Paid
    ensures PaidThroughout(steps, from, inv) <==> PaidThroughout(steps, from + 1, inv)
    ensures NeverTakenBack(steps, from, inv) <==>
            !TakesBack(After(steps[..from]), steps[from], inv) && NeverTakenBack(steps, from + 1, inv)
  {
  }

  lemma NotThroughout(steps: seq<Timed>, from: nat, inv: nat)
    requires from <= |steps| && inv < |After(steps[..from]).invoices| && After(steps[..from]).invoices[inv].status != Paid
    ensures !PaidThroughout(steps, from, inv)
  {
  }

  lemma NextStaysPaid(steps: seq<Timed>, from: nat, inv: nat)
    requires from < |steps| && inv < |After(steps[..from]).invoices| && After(steps[..from]).invoices[inv].status == Paid
    ensures inv < |After(steps[..from + 1]).invoices|
    ensures After(steps[..from + 1]).invoices[inv].status == Paid <==> !TakesBack(After(steps[..from]), steps[from], inv)
  {
    assert steps[..from + 1][..from] == steps[..from];
    PaidLostIff(After(steps[..from]), steps[from], inv);
  }

  /** A paid invoice stays paid for the rest of a run if and only if no step of the rest takes it
      back. */
  lemma {:induction false} PaidStaysIff(steps: seq<Timed>, from: nat, inv: nat)
    requires from <= |steps| && inv < |After(steps[..from]).invoices| && After(steps[..from]).invoices[inv].status == Paid
    ensures PaidThroughout(steps, from, inv) <==> NeverTakenBack(steps, from, inv)
    decreases |steps| - from
  {
    if from < |steps| {
      ThroughoutStep(steps, from, inv);
      NextStaysPaid(steps, from, inv);
      if TakesBack(After(steps[..from]), steps[from], inv) {
        NotThroughout(steps, from + 1, inv);
      } else {
        PaidStaysIff(steps, from + 1, inv);
      }
    }
  }

  /** An invoice is paid through its second payment, once the first has run out; then the late
      callback for the first arrives. */
  function LateCallback(now: int): seq<Timed> {
    [Timed(now, Bill(7, 1, 100.0)),
     Timed(now, PayStep(7, 0, Some("a"), true)),
     Timed(now + INVOICE_DURATION, PayStep(7, 0, Some("b"), true)),
     Timed(now + INVOICE_DURATION, CallbackStep(Payload("b", Some(0), PaidOrSettled, 100.0, 100.0), 1, 3)),
     Timed(now + INVOICE_DURATION, CallbackStep(Payload("a", Some(0), ExpiredCallback, 100.0, 0.0), 0, 2))]
  }

  lemma LateCallbackOpens(now: int)
    ensures After(LateCallback(now)[..2]) ==
      BillingState([Invoice(7, 1, 100.0, Pending)], [Payment(0, "a", 100.0, Pending, now, Some(now + INVOICE_DURATION))], {})
  {
    var steps := LateCallback(now);
    assert steps[..2][..1] == steps[..1] && steps[..1][..0] == [];
    assert After(steps[..1]) == BillingState([Invoice(7, 1, 100.0, Pending)], [], {});
  }

  lemma LateCallbackBegins(now: int)
    ensures After(LateCallback(now)[..3]) ==
      BillingState([Invoice(7, 1, 100.0, Pending)],
        [Payment(0, "a", 100.0, Pending, now, Some(now + INVOICE_DURATION)),
         Payment(0, "b", 100.0, Pending, now + INVOICE_DURATION, Some(now + INVOICE_DURATION + INVOICE_DURATION))], {})
  {
    LateCallbackOpens(now);
    assert LateCallback(now)[..3][..2] == LateCallback(now)[..2];
  }

  /** The state of the story once the second payment is paid. */
  function SecondPaid(now: int): BillingState {
    BillingState([Invoice(7, 1, 100.0, Paid)],
      [Payment(0, "a", 100.0, Pending, now, Some(now + INVOICE_DURATION)),
       Payment(0, "b", 100.0, Paid, now + INVOICE_DURATION, Some(now + INVOICE_DURATION + INVOICE_DURATION))], {1})
  }

  lemma SecondIsPaid(now: int)
    ensures After(LateCallback(now)[..4]) == SecondPaid(now)
  {
    var steps := LateCallback(now);
    LateCallbackBegins(now);
    var s3 := After(steps[..3]);
    assert steps[..4][..3] == steps[..3];
    assert CallbackCheck(s3, steps[3].step.payload, 1) == Ok(1);
    assert Settle(s3, 1, Paid, 3) == SecondPaid(now);
  }

  lemma {:induction false} LateCallbackTakesBack(now: int, e: Timed)
    requires e.step == CallbackStep(Payload("a", Some(0), ExpiredCallback, 100.0, 0.0), 0, 2)
    ensures var s := Next(SecondPaid(now), e);
            && s.invoices == [Invoice(7, 1, 100.0, Expired)]
            && |s.payments| == 2 && s.payments[0].status == Expired && s.payments[1] == SecondPaid(now).payments[1]
  {
    var s := SecondPaid(now);
    assert CallbackCheck(s, e.step.payload, 0) == Ok(0);
    assert Next(s, e) == Settle(s, 0, Expired, 2);
  }

  /** The paid invoice is expired by the late callback and can then be charged a third time. */
  lemma {:induction false} PaidInvoiceCanBeChargedAgain(now: int)
    ensures After(LateCallback(now)[..4]).invoices == [Invoice(7, 1, 100.0, Paid)]
    ensures var s := After(LateCallback(now));
            && s.invoices == [Invoice(7, 1, 100.0, Expired)]
            && |s.payments| == 2 && s.payments[1].status == Paid
            && Pay(s, 7, 0, now + INVOICE_DURATION, Some("c"), true) != s
  {
    var steps := LateCallback(now);
    SecondIsPaid(now);
    LateCallbackTakesBack(now, steps[4]);
    assert steps[..|steps| - 1] == steps[..4];
  }
}
