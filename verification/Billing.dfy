/** Invoice payments (internal/billing/service.go): paying reuses the pending payment while it is
    alive, and the gateway's callbacks settle payments, invoices and subscriptions. */
module Billing {
  import opened Prelude

  datatype Status = Pending | Paid | Failed | Expired

  datatype Invoice = Invoice(workspace: nat, subscription: nat, amount: real, status: Status)

  datatype Payment = Payment(invoice: nat, gatewayId: string, amount: real, status: Status, createdAt: int, expiredAt: Option<int>)

  datatype BillingState = BillingState(invoices: seq<Invoice>, payments: seq<Payment>, active: set<nat>)

  const NOTHING := BillingState([], [], {})

  /** Twenty-four hours, in microseconds. */
  const INVOICE_DURATION := 24 * 3600 * 1_000_000

  datatype BillingError =
    | InvoiceNotFound | AlreadyPaid | GatewayFailed | NotStored
    | InvalidPayload | PaymentNotFound | ExternalIdMismatch | AmountMismatch | Interrupted

  predicate PendingFor(p: Payment, inv: nat) {
    p.invoice == inv && p.status == Pending
  }

  /** Not expired: a payment without an expiry never is. */
  predicate Alive(p: Payment, now: int) {
    p.expiredAt.None? || p.expiredAt.value > now
  }

  /** GetPendingPaymentByInvoice: the newest pending payment. */
  function NewestPending(payments: seq<Payment>, inv: nat): (r: Option<nat>)
    ensures r.None? <==> forall p :: 0 <= p < |payments| ==> !PendingFor(payments[p], inv)
    ensures r.Some? ==>
      && r.value < |payments| && PendingFor(payments[r.value], inv)
      && forall p :: 0 <= p < |payments| && PendingFor(payments[p], inv) ==> payments[p].createdAt <= payments[r.value].createdAt
  {
    if payments == [] then None
    else
      var last := payments[|payments| - 1];
      var rest := NewestPending(payments[..|payments| - 1], inv);
      if PendingFor(last, inv) && (rest.None? || payments[rest.value].createdAt <= last.createdAt)
      then Some(|payments| - 1) else rest
  }

  // ----- Paying -----

  function PayCheck(s: BillingState, workspace: nat, inv: nat): Option<BillingError> {
    if inv >= |s.invoices| || s.invoices[inv].workspace != workspace then Some(InvoiceNotFound)
    else if s.invoices[inv].status == Paid then Some(AlreadyPaid)
    else None
  }

  /** The pending payment that paying would hand out again. */
  function Reusable(s: BillingState, inv: nat, now: int): Option<nat> {
    match NewestPending(s.payments, inv)
    case Some(p) => if Alive(s.payments[p], now) then Some(p) else None
    case None => None
  }

  /** `gateway` is the gateway's answer, and `stored` says whether the payment row was written. */
  function Pay(s: BillingState, workspace: nat, inv: nat, now: int, gateway: Option<string>, stored: bool): BillingState {
    if PayCheck(s, workspace, inv).Some? || Reusable(s, inv, now).Some? || gateway.None? || !stored then s
    else s.(payments := s.payments
      + [Payment(inv, gateway.value, s.invoices[inv].amount, Pending, now, Some(now + INVOICE_DURATION))])
  }

  // ----- Callbacks -----

  datatype CallbackStatus = PaidOrSettled | ExpiredCallback | FailedCallback | OtherCallback

  /** An empty external id is `None`; one that names no invoice matches none. */
  datatype Payload = Payload(gatewayId: string, externalId: Option<nat>, status: CallbackStatus, amount: real, paidAmount: real)

  /** GetPaymentByXenditID: a payment with the gateway's id, `row` where several have it. */
  function FindByGatewayId(payments: seq<Payment>, id: string, row: nat): (r: Option<nat>)
    ensures r.None? <==> forall p :: 0 <= p < |payments| ==> payments[p].gatewayId != id
    ensures r.Some? ==> r.value < |payments| && payments[r.value].gatewayId == id
    ensures row < |payments| && payments[row].gatewayId == id ==> r == Some(row)
  {
    if row < |payments| && payments[row].gatewayId == id then Some(row)
    else if payments == [] then None
    else if payments[|payments| - 1].gatewayId == id then Some(|payments| - 1)
    else FindByGatewayId(payments[..|payments| - 1], id, row)
  }

  function CallbackCheck(s: BillingState, payload: Payload, row: nat): (r: Result<nat, BillingError>)
    ensures r.Ok? ==> r.value < |s.payments| && s.payments[r.value].invoice < |s.invoices|
  {
    if payload.gatewayId == "" then Err(InvalidPayload)
    else
      match FindByGatewayId(s.payments, payload.gatewayId, row)
      case None => Err(PaymentNotFound)
      case Some(p) =>
        var inv := s.payments[p].invoice;
        var paid := if payload.paidAmount == 0.0 then payload.amount else payload.paidAmount;
        if inv >= |s.invoices| then Err(InvoiceNotFound)
        else if payload.externalId.Some? && payload.externalId.value != inv then Err(ExternalIdMismatch)
        else if paid > 0.0 && paid != s.invoices[inv].amount then Err(AmountMismatch)
        else Ok(p)
  }

  function StatusOf(c: CallbackStatus): Option<Status> {
    match c
    case PaidOrSettled => Some(Paid)
    case ExpiredCallback => Some(Expired)
    case FailedCallback => Some(Failed)
    case OtherCallback => None
  }

  /** The writes for payment, invoice and subscription are separate: only the first `writes` of
      them take effect. */
  function Settle(s: BillingState, p: nat, to: Status, writes: nat): BillingState
    requires p < |s.payments| && s.payments[p].invoice < |s.invoices|
  {
    var inv := s.payments[p].invoice;
    s.(payments := if writes >= 1 then s.payments[p := s.payments[p].(status := to)] else s.payments,
       invoices := if writes >= 2 then s.invoices[inv := s.invoices[inv].(status := to)] else s.invoices,
       active := if writes >= 3 && to == Paid then s.active + {s.invoices[inv].subscription} else s.active)
  }

  function Callback(s: BillingState, payload: Payload, row: nat, writes: nat): BillingState {
    var target, to := CallbackCheck(s, payload, row), StatusOf(payload.status);
    if target.Ok? && to.Some? then Settle(s, target.value, to.value, writes) else s
  }

  /** UpdatePaymentExpired. */
  function Swept(payments: seq<Payment>, now: int): seq<Payment> {
    seq(|payments|, i requires 0 <= i < |payments| =>
      if payments[i].status == Pending && payments[i].expiredAt.Some? && payments[i].expiredAt.value < now
      then payments[i].(status := Expired) else payments[i])
  }

  // ----- The stored form -----

  class BillingStore {
    var invoices: seq<Invoice>
    var payments: seq<Payment>
    var active: set<nat>

    function State(): BillingState
      reads this
    {
      BillingState(invoices, payments, active)
    }

    constructor ()
      ensures State() == NOTHING
    {
      invoices, payments, active := [], [], {};
    }

    method PayInvoice(workspace: nat, inv: nat, now: int, gateway: Option<string>, stored: bool)
        returns (r: Result<nat, BillingError>)
      modifies this`payments
      ensures State() == Pay(old(State()), workspace, inv, now, gateway, stored)
      ensures r == Err(InvoiceNotFound) <==> inv >= |invoices| || invoices[inv].workspace != workspace
      ensures r == Err(AlreadyPaid) <==> inv < |invoices| && invoices[inv].workspace == workspace && invoices[inv].status == Paid
      ensures r.Ok? ==> r.value < |payments| && PendingFor(payments[r.value], inv) && Alive(payments[r.value], now)
    {
      if inv >= |invoices| {
        return Err(InvoiceNotFound);
      }
      var invoice := invoices[inv];
      if invoice.workspace != workspace {
        return Err(InvoiceNotFound);
      }
      if invoice.status == Paid {
        return Err(AlreadyPaid);
      }
      var existing := NewestPending(payments, inv);
      if existing.Some? {
        var p := payments[existing.value];
        if p.expiredAt.None? || p.expiredAt.value > now {
          return Ok(existing.value);
        }
      }
      var expiresAt := now + INVOICE_DURATION;
      if gateway.None? {
        return Err(GatewayFailed);
      }
      if !stored {
        return Err(NotStored);
      }
      payments := payments + [Payment(inv, gateway.value, invoice.amount, Pending, now, Some(expiresAt))];
      r := Ok(|payments| - 1);
    }

    method HandleWebhook(payload: Payload, row: nat, writes: nat) returns (r: Result<(), BillingError>)
      modifies this
      ensures State() == Callback(old(State()), payload, row, writes)
      ensures CallbackCheck(old(State()), payload, row).Err? ==> r == Err(CallbackCheck(old(State()), payload, row).error)
      ensures CallbackCheck(old(State()), payload, row).Ok? ==>
          r == if payload.status == OtherCallback || writes >= (if payload.status == PaidOrSettled then 3 else 1)
               then Ok(()) else Err(Interrupted)
    {
      if payload.gatewayId == "" {
        return Err(InvalidPayload);
      }
      var found := FindByGatewayId(payments, payload.gatewayId, row);
      if found.None? {
        return Err(PaymentNotFound);
      }
      var payment := payments[found.value];
      if payment.invoice >= |invoices| {
        return Err(InvoiceNotFound);
      }
      var invoice := invoices[payment.invoice];
      if payload.externalId.Some? && payload.externalId.value != payment.invoice {
        return Err(ExternalIdMismatch);
      }
      var paidAmount := payload.paidAmount;
      if paidAmount == 0.0 {
        paidAmount := payload.amount;
      }
      if paidAmount > 0.0 && paidAmount != invoice.amount {
        return Err(AmountMismatch);
      }
      match payload.status
      case PaidOrSettled =>
        if writes < 1 { return Err(Interrupted); }
        payments := payments[found.value := payment.(status := Paid)];
        if writes < 2 { return Err(Interrupted); }
        invoices := invoices[payment.invoice := invoice.(status := Paid)];
        if writes < 3 { return Err(Interrupted); }
        active := active + {invoice.subscription};
        r := Ok(());
      case ExpiredCallback =>
        if writes < 1 { return Err(Interrupted); }
        payments := payments[found.value := payment.(status := Expired)];
        if writes >= 2 {
          invoices := invoices[payment.invoice := invoice.(status := Expired)];
        }
        r := Ok(());
      case FailedCallback =>
        if writes < 1 { return Err(Interrupted); }
        payments := payments[found.value := payment.(status := Failed)];
        if writes >= 2 {
          invoices := invoices[payment.invoice := invoice.(status := Failed)];
        }
        r := Ok(());
      case OtherCallback =>
        r := Ok(());
    }
  }

  // ----- Runs under a monotone clock -----

  datatype Step =
    | Bill(workspace: nat, subscription: nat, amount: real)
    | PayStep(workspace: nat, invoice: nat, gateway: Option<string>, stored: bool)
    | CallbackStep(payload: Payload, row: nat, writes: nat)
    | SweepStep

  datatype Timed = Timed(now: int, step: Step)

  function Next(s: BillingState, e: Timed): BillingState {
    match e.step
    case Bill(w, sub, amount) => s.(invoices := s.invoices + [Invoice(w, sub, amount, Pending)])
    case PayStep(w, inv, gateway, stored) => Pay(s, w, inv, e.now, gateway, stored)
    case CallbackStep(payload, row, writes) => Callback(s, payload, row, writes)
    case SweepStep => s.(payments := Swept(s.payments, e.now))
  }

  function After(steps: seq<Timed>): BillingState {
    if steps == [] then NOTHING else Next(After(steps[..|steps| - 1]), steps[|steps| - 1])
  }

  predicate Monotone(steps: seq<Timed>) {
    forall i, j :: 0 <= i < j < |steps| ==> steps[i].now <= steps[j].now
  }

  /** A pending payment had expired before any later payment of its invoice was created. */
  predicate Ordered(payments: seq<Payment>, now: int) {
    && (forall p :: 0 <= p < |payments| ==> payments[p].createdAt <= now && payments[p].expiredAt == Some(payments[p].createdAt + INVOICE_DURATION))
    && (forall p, q :: 0 <= p < q < |payments| && payments[p].invoice == payments[q].invoice && payments[p].status == Pending ==>
         payments[p].createdAt + INVOICE_DURATION <= payments[q].createdAt)
  }

  lemma PayKeepsOrder(s: BillingState, now: int, workspace: nat, inv: nat, at: int, gateway: Option<string>, stored: bool)
    requires Ordered(s.payments, now) && now <= at
    ensures Ordered(Pay(s, workspace, inv, at, gateway, stored).payments, at)
  {
    var newest := NewestPending(s.payments, inv);
    if Reusable(s, inv, at).None? {
      forall p | 0 <= p < |s.payments| && PendingFor(s.payments[p], inv)
        ensures s.payments[p].createdAt + INVOICE_DURATION <= at
      {
        assert s.payments[p].createdAt <= s.payments[newest.value].createdAt;
      }
    }
  }

  lemma SettleKeepsOrder(s: BillingState, now: int, at: int, p: nat, to: Status, writes: nat)
    requires Ordered(s.payments, now) && now <= at && to != Pending
    requires p < |s.payments| && s.payments[p].invoice < |s.invoices|
    ensures Ordered(Settle(s, p, to, writes).payments, at)
  {
  }

  lemma CallbackKeepsOrder(s: BillingState, now: int, at: int, payload: Payload, row: nat, writes: nat)
    requires Ordered(s.payments, now) && now <= at
    ensures Ordered(Callback(s, payload, row, writes).payments, at)
  {
    var target, to := CallbackCheck(s, payload, row), StatusOf(payload.status);
    if target.Ok? && to.Some? {
      SettleKeepsOrder(s, now, at, target.value, to.value, writes);
    }
  }

  lemma SweepKeepsOrder(payments: seq<Payment>, now: int, at: int)
    requires Ordered(payments, now) && now <= at
    ensures Ordered(Swept(payments, at), at)
  {
  }

  lemma StepKeepsOrder(s: BillingState, now: int, e: Timed)
    requires Ordered(s.payments, now) && now <= e.now
    ensures Ordered(Next(s, e).payments, e.now)
  {
    match e.step
    case Bill(_, _, _) =>
    case PayStep(w, inv, gateway, stored) => PayKeepsOrder(s, now, w, inv, e.now, gateway, stored);
    case CallbackStep(payload, row, writes) => CallbackKeepsOrder(s, now, e.now, payload, row, writes);
    case SweepStep => SweepKeepsOrder(s.payments, now, e.now);
  }

  lemma {:induction false} RunKeepsOrder(steps: seq<Timed>, now: int)
    requires Monotone(steps) && forall i :: 0 <= i < |steps| ==> steps[i].now <= now
    ensures Ordered(After(steps).payments, now)
  {
    if steps != [] {
      var last := steps[|steps| - 1];
      RunKeepsOrder(steps[..|steps| - 1], last.now);
      StepKeepsOrder(After(steps[..|steps| - 1]), last.now, last);
    }
  }

  /** In every run and at every later moment, an invoice has at most one payment that is pending
      and alive. It is the newest pending one, whose creation no other pending one outlived. */
  lemma {:induction false} AtMostOneAlive(steps: seq<Timed>, now: int, p: nat, q: nat)
    requires Monotone(steps) && forall i :: 0 <= i < |steps| ==> steps[i].now <= now
    requires var payments := After(steps).payments;
             p < |payments| && q < |payments| && payments[p].invoice == payments[q].invoice
             && payments[p].status == Pending && payments[q].status == Pending
    ensures var payments := After(steps).payments;
            && (Alive(payments[p], now) && Alive(payments[q], now) ==> p == q)
            && (NewestPending(payments, payments[p].invoice) == Some(q) && p != q ==>
                 && payments[p].expiredAt.Some? && payments[q].expiredAt.Some?
                 && payments[p].expiredAt.value <= payments[q].createdAt < payments[q].expiredAt.value)
  {
    RunKeepsOrder(steps, now);
  }

  /** Some payment of the invoice is pending and alive: how long ago it was created, and how many
      others there are, does not matter. */
  predicate HasLive(s: BillingState, inv: nat, now: int) {
    exists p :: 0 <= p < |s.payments| && PendingFor(s.payments[p], inv) && Alive(s.payments[p], now)
  }

  /** Paying asks the gateway for a new payment exactly when the invoice is payable and none of its
      payments is pending and alive; so paying again while one is alive changes nothing. */
  lemma {:induction false} PayCreatesIff(steps: seq<Timed>, now: int, workspace: nat, inv: nat, gateway: Option<string>, stored: bool)
    requires Monotone(steps) && forall i :: 0 <= i < |steps| ==> steps[i].now <= now
    ensures var s := After(steps);
            Pay(s, workspace, inv, now, gateway, stored) != s <==>
            (inv < |s.invoices| && s.invoices[inv].workspace == workspace && s.invoices[inv].status != Paid
             && !HasLive(s, inv, now) && gateway.Some? && stored)
  {
    RunKeepsOrder(steps, now);
    var s := After(steps);
    var newest := NewestPending(s.payments, inv);
    if HasLive(s, inv, now) {
      var p :| 0 <= p < |s.payments| && PendingFor(s.payments[p], inv) && Alive(s.payments[p], now);
      assert s.payments[p].createdAt <= s.payments[newest.value].createdAt;
    }
    var t := Pay(s, workspace, inv, now, gateway, stored);
    assert t != s ==> |t.payments| == |s.payments| + 1;
  }

  /** A callback that was cut short and is delivered again leaves what an undisturbed one would. */
  lemma RetryCompletes(s: BillingState, payload: Payload, row: nat, writes: nat)
    ensures Callback(Callback(s, payload, row, writes), payload, row, 3) == Callback(s, payload, row, 3)
  {
    var target := CallbackCheck(s, payload, row);
    var t := Callback(s, payload, row, writes);
    if target.Ok? && StatusOf(payload.status).Some? {
      SameTarget(s.payments, t.payments, payload.gatewayId, row);
      var u := Callback(s, payload, row, 3);
      assert Callback(t, payload, row, 3).payments == u.payments;
      assert Callback(t, payload, row, 3).invoices == u.invoices;
    }
  }

  lemma {:induction false} SameTarget(before: seq<Payment>, after: seq<Payment>, id: string, row: nat)
    requires |after| == |before| && forall p :: 0 <= p < |before| ==> after[p].gatewayId == before[p].gatewayId
    ensures FindByGatewayId(after, id, row) == FindByGatewayId(before, id, row)
  {
    if before != [] && !(row < |before| && before[row].gatewayId == id) {
      SameTarget(before[..|before| - 1], after[..|before| - 1], id, row);
    }
  }
}
