/**
 * What the pay handler and the webhook handler of server/node/routes.js decide, as pure
 * functions of the order store, the request and the processor's answers. The handlers in
 * module Routes are proved to behave exactly as these functions say.
 */
module Reconcile {
  import opened Wrappers
  import opened Orders
  import opened Gateway

  // ---------------------------------------------------------------------------
  // Inputs and replies

  /** The payment source a client posts to `/orders/:id/pay`. */
  datatype Source = Source(id: string, status: Option<string>)

  /** The pay handler's reply: status code and the order in the body, plus its effects. */
  datatype PayReply = PayReply(
    code: int,
    order: Option<Order>,
    charged: Option<ChargeRequest>,
    write: Option<Write>)

  /** The source embedded in a charge object (`object.source`), reduced to its `metadata.order`. */
  datatype EmbeddedSource = EmbeddedSource(orderRef: Option<string>)

  /**
   * The object an event carries (`data.object`): its kind (`object.object`), id, status,
   * `metadata.order`, embedded source, and the id of `last_payment_error.source` when that
   * path exists.
   */
  datatype EventObject = EventObject(
    kind: string,
    id: string,
    status: Option<string>,
    orderRef: Option<string>,
    source: Option<EmbeddedSource>,
    lastErrorSourceId: Option<string>)

  datatype Event = Event(eventType: string, data: EventObject)

  /** What `stripe.webhooks.constructEvent` made of the raw body and its signature header. */
  datatype Verification = Verified(event: Event) | Invalid

  /** `res.sendStatus(code)`, or no response at all when the handler throws. */
  datatype Response = Status(code: int) | NoResponse

  datatype WebhookReply = WebhookReply(
    response: Response,
    charged: Option<ChargeRequest>,
    write: Option<Write>)

  const IntentSucceeded := "payment_intent.succeeded"
  const IntentPaymentFailed := "payment_intent.payment_failed"

  // ---------------------------------------------------------------------------
  // Guards and classification

  /** `metadata.order` is truthy: present and not the empty string. */
  predicate HasOrder(ref: Option<string>)
  {
    ref.Some? && ref.value != ""
  }

  /** The pay handler refuses orders that are already being paid or are paid. */
  predicate PayGuardRefuses(status: string)
  {
    status == Pending || status == Paid
  }

  /** The `source.chargeable` branch refuses failed orders as well. */
  predicate WebhookGuardRefuses(status: string)
  {
    status == Pending || status == Paid || status == Failed
  }

  predicate IsPaymentIntentEvent(obj: EventObject)
  {
    obj.kind == "payment_intent" && HasOrder(obj.orderRef)
  }

  predicate IsChargeableSource(obj: EventObject)
  {
    obj.kind == "source" && obj.status == Some(Chargeable) && HasOrder(obj.orderRef)
  }

  /** The part of the `charge.succeeded` test evaluated before `object.source.metadata.order`. */
  predicate IsSucceededCharge(obj: EventObject)
  {
    obj.kind == "charge" && obj.status == Some(Succeeded)
  }

  predicate IsFailedSourceOrCharge(obj: EventObject)
  {
    (obj.kind == "source" || obj.kind == "charge") &&
    (obj.status == Some(Failed) || obj.status == Some(Canceled))
  }

  datatype Route = PaymentIntentRoute | ChargeableRoute | ChargeSucceededRoute | FailureRoute | NoRoute

  /** Which of the webhook's four branches an event object enters. */
  function Classify(obj: EventObject): (r: Route)
    ensures r == PaymentIntentRoute <==> IsPaymentIntentEvent(obj)
    ensures r == ChargeableRoute <==> IsChargeableSource(obj)
    ensures r == ChargeSucceededRoute <==> IsSucceededCharge(obj)
    ensures r == FailureRoute <==> IsFailedSourceOrCharge(obj)
    ensures r == NoRoute <==>
      !IsPaymentIntentEvent(obj) && !IsChargeableSource(obj) && !IsSucceededCharge(obj) && !IsFailedSourceOrCharge(obj)
  {
    if IsPaymentIntentEvent(obj) then PaymentIntentRoute
    else if IsChargeableSource(obj) then ChargeableRoute
    else if IsSucceededCharge(obj) then ChargeSucceededRoute
    else if IsFailedSourceOrCharge(obj) then FailureRoute
    else NoRoute
  }

  /** The failure branch reads the order from `object.source` when there is one, else from the object. */
  function FailureRef(obj: EventObject): Option<string>
  {
    if obj.source.Some? then obj.source.value.orderRef else obj.orderRef
  }

  // ---------------------------------------------------------------------------
  // The pay handler

  function PayResult(orders: map<OrderId, Order>, id: OrderId, source: Option<Source>, gateway: ChargeOutcome): (r: PayReply)
    ensures r.code == 200 || r.code == 403 || r.code == 500
    ensures r.charged.Some? <==> r.write.Some?
    ensures r.write.Some? ==> r.write.value.id == id && id in orders
    ensures r.charged.Some? ==> r.charged.value.idempotencyKey == id
  {
    if id !in orders then PayReply(500, None, None, None)
    else
      var order := orders[id];
      if PayGuardRefuses(order.status) then PayReply(403, Some(order), None, None)
      else if source.Some? && source.value.status == Some(Chargeable) then
        var status := StatusAfterCharge(gateway);
        PayReply(200, Some(order.(status := status)), Some(ChargeFor(id, order, source.value.id)), Some(Write(id, status)))
      else PayReply(200, Some(order), None, None)
  }

  // ---------------------------------------------------------------------------
  // The webhook handler

  const Ack := WebhookReply(Status(200), None, None)

  /** Set the order a reference names to `status`, as the last two branches do. */
  function MarkOrder(orders: map<OrderId, Order>, ref: Option<string>, status: string): (r: WebhookReply)
    ensures r.charged.None?
    ensures r.write.Some? ==> HasOrder(ref) && r.write.value == Write(ref.value, status) && ref.value in orders
  {
    if !HasOrder(ref) then Ack
    else if ref.value !in orders then WebhookReply(NoResponse, None, None)
    else WebhookReply(Status(200), None, Some(Write(ref.value, status)))
  }

  /** Everything after authentication: classify the object and run its branch. */
  function Dispatch(orders: map<OrderId, Order>, event: Event, gateway: ChargeOutcome): (r: WebhookReply)
    ensures r.write.Some? ==> r.write.value.id in orders
    ensures r.charged.Some? ==> r.write.Some? && r.charged.value.idempotencyKey == r.write.value.id
  {
    var obj := event.data;
    match Classify(obj)
    case PaymentIntentRoute =>
      var id := obj.orderRef.value;
      if id !in orders then WebhookReply(NoResponse, None, None)
      else if event.eventType == IntentSucceeded then WebhookReply(Status(200), None, Some(Write(id, Paid)))
      else if event.eventType == IntentPaymentFailed && obj.lastErrorSourceId.None? then WebhookReply(NoResponse, None, None)
      else Ack
    case ChargeableRoute =>
      var id := obj.orderRef.value;
      if id !in orders then WebhookReply(NoResponse, None, None)
      else if WebhookGuardRefuses(orders[id].status) then WebhookReply(Status(403), None, None)
      else WebhookReply(Status(200), Some(ChargeFor(id, orders[id], obj.id)), Some(Write(id, StatusAfterCharge(gateway))))
    case ChargeSucceededRoute =>
      if obj.source.None? then WebhookReply(NoResponse, None, None)
      else MarkOrder(orders, obj.source.value.orderRef, Paid)
    case FailureRoute =>
      MarkOrder(orders, FailureRef(obj), Failed)
    case NoRoute =>
      Ack
  }

  /** The whole webhook: the event is verified when a secret is configured, read from the body otherwise. */
  function WebhookResult(
    orders: map<OrderId, Order>, secretConfigured: bool, verification: Verification, body: Event, gateway: ChargeOutcome): (r: WebhookReply)
    ensures r.write.Some? ==> r.write.value.id in orders
    ensures r.charged.Some? ==> r.write.Some? && r.charged.value.idempotencyKey == r.write.value.id
  {
    if secretConfigured then
      match verification
      case Invalid => WebhookReply(Status(400), None, None)
      case Verified(event) => Dispatch(orders, event, gateway)
    else Dispatch(orders, body, gateway)
  }

  // ---------------------------------------------------------------------------
  // Properties of the pay handler

  /** The pay handler answers 403 exactly when the order is pending or paid, and then does nothing. */
  lemma PayGuard(orders: map<OrderId, Order>, id: OrderId, source: Option<Source>, gateway: ChargeOutcome)
    ensures var r := PayResult(orders, id, source, gateway);
      r.code == 403 <==> id in orders && PayGuardRefuses(orders[id].status)
    ensures var r := PayResult(orders, id, source, gateway);
      r.code == 403 ==> r.order == Some(orders[id]) && r.charged.None? && r.write.None?
  {
  }

  /** An unknown order is a server error (the retrieve call throws), with no charge and no update. */
  lemma PayUnknownOrder(orders: map<OrderId, Order>, id: OrderId, source: Option<Source>, gateway: ChargeOutcome)
    requires id !in orders
    ensures PayResult(orders, id, source, gateway) == PayReply(500, None, None, None)
  {
  }

  /** Without a chargeable source, an order past the guard is returned unchanged with 200. */
  lemma PayWithoutChargeableSource(orders: map<OrderId, Order>, id: OrderId, source: Option<Source>, gateway: ChargeOutcome)
    requires id in orders && !PayGuardRefuses(orders[id].status)
    requires source.None? || source.value.status != Some(Chargeable)
    ensures PayResult(orders, id, source, gateway) == PayReply(200, Some(orders[id]), None, None)
  {
  }

  /**
   * With a chargeable source, an order past the guard is charged once, with its own terms and
   * its id as idempotency key, and the mapped status is written to that order alone.
   */
  lemma PayCharges(orders: map<OrderId, Order>, id: OrderId, source: Option<Source>, gateway: ChargeOutcome)
    requires id in orders && !PayGuardRefuses(orders[id].status)
    requires source.Some? && source.value.status == Some(Chargeable)
    ensures var r := PayResult(orders, id, source, gateway);
      && r.code == 200
      && r.charged.Some?
      && r.charged.value.source == source.value.id
      && r.charged.value.idempotencyKey == id
      && r.charged.value.amount == orders[id].amount
      && r.charged.value.currency == orders[id].currency
      && r.charged.value.receiptEmail == orders[id].email
      && r.write == Some(Write(id, StatusAfterCharge(gateway)))
      && r.order == Some(ApplyWrite(orders, r.write)[id])
  {
  }

  /**
   * The pay guard lets failed and canceled orders through: a chargeable source charges them,
   * unlike the webhook guard, which also refuses `failed`.
   */
  lemma PayChargesFailedOrCanceledOrder(orders: map<OrderId, Order>, id: OrderId, source: Source, gateway: ChargeOutcome)
    requires id in orders && (orders[id].status == Failed || orders[id].status == Canceled)
    requires source.status == Some(Chargeable)
    ensures PayResult(orders, id, Some(source), gateway).charged.Some?
  {
  }

  // ---------------------------------------------------------------------------
  // Properties of the webhook handler

  /** The four branch conditions of the webhook exclude each other, so at most one branch runs. */
  lemma RoutesExclusive(obj: EventObject)
    ensures (if IsPaymentIntentEvent(obj) then 1 else 0) + (if IsChargeableSource(obj) then 1 else 0)
          + (if IsSucceededCharge(obj) then 1 else 0) + (if IsFailedSourceOrCharge(obj) then 1 else 0) <= 1
  {
  }

  /** The webhook guard is the pay guard plus `failed`. */
  lemma GuardsDifferOnlyOnFailed(status: string)
    ensures WebhookGuardRefuses(status) <==> PayGuardRefuses(status) || status == Failed
  {
  }

  /** With a secret configured, a bad signature is answered 400 and nothing else happens. */
  lemma WebhookRejectsBadSignature(orders: map<OrderId, Order>, body: Event, gateway: ChargeOutcome)
    ensures WebhookResult(orders, true, Invalid, body, gateway) == WebhookReply(Status(400), None, None)
  {
  }

  /** Signed mode ignores the unsigned body; unsigned mode ignores the verification result. */
  lemma WebhookEventSource(
    orders: map<OrderId, Order>, v1: Verification, v2: Verification, b1: Event, b2: Event, gateway: ChargeOutcome)
    ensures WebhookResult(orders, true, v1, b1, gateway) == WebhookResult(orders, true, v1, b2, gateway)
    ensures WebhookResult(orders, false, v1, b1, gateway) == WebhookResult(orders, false, v2, b1, gateway)
  {
  }

  /**
   * Every response the webhook sends is 200, except 400 for a bad signature and 403 from the
   * `source.chargeable` guard.
   */
  lemma WebhookResponseCodes(
    orders: map<OrderId, Order>, secretConfigured: bool, verification: Verification, body: Event, gateway: ChargeOutcome)
    ensures var r := WebhookResult(orders, secretConfigured, verification, body, gateway);
      r.response.Status? ==> r.response.code in {200, 400, 403}
    ensures var r := WebhookResult(orders, secretConfigured, verification, body, gateway);
      r.response == Status(400) <==> secretConfigured && verification.Invalid?
    ensures var r := WebhookResult(orders, secretConfigured, verification, body, gateway);
      var event := if secretConfigured && verification.Verified? then verification.event else body;
      r.response == Status(403) <==>
        && (!secretConfigured || verification.Verified?)
        && IsChargeableSource(event.data)
        && event.data.orderRef.value in orders
        && WebhookGuardRefuses(orders[event.data.orderRef.value].status)
  {
  }

  /** `payment_intent.succeeded` marks the referenced order paid whatever its status was. */
  lemma IntentSucceededMarksPaid(orders: map<OrderId, Order>, event: Event, gateway: ChargeOutcome)
    requires IsPaymentIntentEvent(event.data) && event.eventType == IntentSucceeded
    requires event.data.orderRef.value in orders
    ensures Dispatch(orders, event, gateway) == WebhookReply(Status(200), None, Some(Write(event.data.orderRef.value, Paid)))
  {
  }

  /** `payment_intent.payment_failed` changes no order. */
  lemma IntentFailedWritesNothing(orders: map<OrderId, Order>, event: Event, gateway: ChargeOutcome)
    requires event.data.kind == "payment_intent" && event.eventType == IntentPaymentFailed
    ensures Dispatch(orders, event, gateway).write.None?
    ensures Dispatch(orders, event, gateway).charged.None?
  {
  }

  /**
   * `source.chargeable`: a pending, paid or failed order gets 403 and nothing else; any other
   * order is charged once with its id as key and gets exactly one update with the mapped status.
   */
  lemma ChargeableSourceFlow(orders: map<OrderId, Order>, event: Event, gateway: ChargeOutcome)
    requires IsChargeableSource(event.data) && event.data.orderRef.value in orders
    ensures var id := event.data.orderRef.value;
      var r := Dispatch(orders, event, gateway);
      if WebhookGuardRefuses(orders[id].status) then
        r == WebhookReply(Status(403), None, None)
      else
        && r.response == Status(200)
        && r.charged == Some(ChargeRequest(event.data.id, orders[id].amount, orders[id].currency, orders[id].email, id))
        && r.write == Some(Write(id, StatusAfterCharge(gateway)))
  {
  }

  /** A canceled order is not refused by the webhook guard either: its chargeable source is charged. */
  lemma WebhookChargesCanceledOrder(orders: map<OrderId, Order>, event: Event, gateway: ChargeOutcome)
    requires IsChargeableSource(event.data) && event.data.orderRef.value in orders
    requires orders[event.data.orderRef.value].status == Canceled
    ensures Dispatch(orders, event, gateway).charged.Some?
  {
  }

  /**
   * Both charge paths agree: for the same order, source id and processor answer they make the
   * same charge request and the same update.
   */
  lemma BothPathsChargeAlike(orders: map<OrderId, Order>, id: OrderId, source: Source, event: Event, gateway: ChargeOutcome)
    requires id in orders && !WebhookGuardRefuses(orders[id].status)
    requires source.status == Some(Chargeable)
    requires IsChargeableSource(event.data) && event.data.orderRef == Some(id) && event.data.id == source.id
    ensures var p := PayResult(orders, id, Some(source), gateway);
      var w := Dispatch(orders, event, gateway);
      p.charged == w.charged && p.write == w.write && p.charged.Some?
  {
  }

  /** `charge.succeeded` marks the order named by the charge's source paid. */
  lemma ChargeSucceededMarksPaid(orders: map<OrderId, Order>, event: Event, gateway: ChargeOutcome)
    requires IsSucceededCharge(event.data) && event.data.source.Some?
    requires var ref := event.data.source.value.orderRef; HasOrder(ref) && ref.value in orders
    ensures Dispatch(orders, event, gateway) ==
      WebhookReply(Status(200), None, Some(Write(event.data.source.value.orderRef.value, Paid)))
  {
  }

  /**
   * A failed or canceled source or charge marks the referenced order failed, reading the
   * reference from the embedded source when there is one.
   */
  lemma FailureMarksFailed(orders: map<OrderId, Order>, event: Event, gateway: ChargeOutcome)
    requires IsFailedSourceOrCharge(event.data)
    requires HasOrder(FailureRef(event.data)) && FailureRef(event.data).value in orders
    ensures Dispatch(orders, event, gateway) ==
      WebhookReply(Status(200), None, Some(Write(FailureRef(event.data).value, Failed)))
  {
  }

  /** An event whose object references no order is acknowledged and changes nothing. */
  lemma NoOrderReferenceIgnored(orders: map<OrderId, Order>, event: Event, gateway: ChargeOutcome)
    requires !HasOrder(event.data.orderRef)
    requires event.data.source.Some? ==> !HasOrder(event.data.source.value.orderRef)
    requires event.data.source.None? ==> !IsSucceededCharge(event.data)
    ensures Dispatch(orders, event, gateway) == Ack
  {
  }
}
