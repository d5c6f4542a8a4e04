/**
 * The two calls into the payment processor, taken as inputs: what `stripe.charges.create`
 * returned or threw, and what `stripe.webhooks.constructEvent` made of a signed payload.
 */
module Gateway {
  import opened Orders

  const Chargeable := "chargeable"
  const Succeeded := "succeeded"

  /** The result of `stripe.charges.create`: it throws (a decline or any API error) or returns a charge. */
  datatype ChargeOutcome = ChargeError | Charged(status: string)

  /** The arguments of one `stripe.charges.create` call, idempotency key included. */
  datatype ChargeRequest = ChargeRequest(
    source: string,
    amount: nat,
    currency: string,
    receiptEmail: string,
    idempotencyKey: OrderId)

  /** The charge both handlers ask for: the order's terms, the source's id, and the order id as key. */
  function ChargeFor(id: OrderId, order: Order, sourceId: string): ChargeRequest
  {
    ChargeRequest(sourceId, order.amount, order.currency, order.email, id)
  }

  /**
   * The order status a charge attempt leads to: a thrown error fails the order, a succeeded
   * charge pays it, and any other charge status is stored as it is.
   */
  function StatusAfterCharge(outcome: ChargeOutcome): (s: string)
    ensures s != Succeeded
    ensures s == Paid <==> outcome.Charged? && (outcome.status == Succeeded || outcome.status == Paid)
    ensures outcome.ChargeError? ==> s == Failed
    ensures outcome.Charged? && outcome.status != Succeeded ==> s == outcome.status
  {
    match outcome
    case ChargeError => Failed
    case Charged(status) => if status == Succeeded then Paid else status
  }
}
