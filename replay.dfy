/**
 * Handler runs one after another. Each run is taken as a whole: the guard read and the
 * update write of two runs for the same order may interleave in the server, and such
 * interleavings are not modelled. Over any such history the reconciliation code only ever rewrites statuses, so
 * every charge request that carries an order's id as idempotency key also carries that
 * order's original amount, currency and receipt email: requests the processor collapses by
 * key never disagree on amount, currency or receipt email. Their source ids may differ, as
 * when two sources of one order become chargeable.
 */
module Replay {
  import opened Wrappers
  import opened Orders
  import opened Gateway
  import opened Reconcile

  /** One handler run: a pay request or a webhook delivery, with the processor's answers. */
  datatype Trigger =
    | PayRequest(id: OrderId, source: Option<Source>, gateway: ChargeOutcome)
    | Delivery(secretConfigured: bool, verification: Verification, body: Event, gateway: ChargeOutcome)

  /** The store after a history of runs, and every charge request made, in order. */
  datatype History = History(orders: map<OrderId, Order>, charges: seq<ChargeRequest>)

  /** The charge request and the store update one run makes. */
  function Effect(orders: map<OrderId, Order>, t: Trigger): (e: (Option<ChargeRequest>, Option<Write>))
    ensures e.1.Some? ==> e.1.value.id in orders
    ensures e.0.Some? ==> e.1.Some? && e.0.value.idempotencyKey == e.1.value.id
  {
    match t
    case PayRequest(id, source, gateway) =>
      var r := PayResult(orders, id, source, gateway);
      (r.charged, r.write)
    case Delivery(secretConfigured, verification, body, gateway) =>
      var r := WebhookResult(orders, secretConfigured, verification, body, gateway);
      (r.charged, r.write)
  }

  function Run(orders: map<OrderId, Order>, ts: seq<Trigger>): History
    decreases |ts|
  {
    if ts == [] then History(orders, [])
    else
      var e := Effect(orders, ts[0]);
      var rest := Run(ApplyWrite(orders, e.1), ts[1..]);
      History(rest.orders, OptionToSeq(e.0) + rest.charges)
  }

  /** A charge request carries the terms of the order its key names. */
  predicate Matches(orders: map<OrderId, Order>, c: ChargeRequest)
  {
    c.idempotencyKey in orders &&
    c.amount == orders[c.idempotencyKey].amount &&
    c.currency == orders[c.idempotencyKey].currency &&
    c.receiptEmail == orders[c.idempotencyKey].email
  }

  /** Every charge one run requests is built from the order its key names. */
  lemma EffectChargesMatch(orders: map<OrderId, Order>, t: Trigger)
    ensures var e := Effect(orders, t); e.0.Some? ==> Matches(orders, e.0.value)
  {
  }

  /** No history adds or removes an order, or changes an order's amount, currency or email. */
  lemma {:induction false} RunKeepsTerms(orders: map<OrderId, Order>, ts: seq<Trigger>)
    ensures Run(orders, ts).orders.Keys == orders.Keys
    ensures forall id :: id in orders ==> SameTerms(Run(orders, ts).orders[id], orders[id])
    decreases |ts|
  {
    if ts != [] {
      var e := Effect(orders, ts[0]);
      RunKeepsTerms(ApplyWrite(orders, e.1), ts[1..]);
    }
  }

  /** Every charge request of a history carries the original terms of the order its key names. */
  lemma {:induction false} RunChargesMatch(orders: map<OrderId, Order>, ts: seq<Trigger>)
    ensures forall c :: c in Run(orders, ts).charges ==> Matches(orders, c)
    decreases |ts|
  {
    if ts != [] {
      var e := Effect(orders, ts[0]);
      var next := ApplyWrite(orders, e.1);
      EffectChargesMatch(orders, ts[0]);
      RunChargesMatch(next, ts[1..]);
      forall c | c in Run(next, ts[1..]).charges
        ensures Matches(orders, c)
      {
        assert Matches(next, c);
      }
    }
  }

  /**
   * Two charge requests of a history with the same idempotency key ask for the same amount,
   * currency and receipt email, whichever handler made them.
   */
  lemma SameKeySameTerms(orders: map<OrderId, Order>, ts: seq<Trigger>, i: nat, j: nat)
    requires i < |Run(orders, ts).charges| && j < |Run(orders, ts).charges|
    requires Run(orders, ts).charges[i].idempotencyKey == Run(orders, ts).charges[j].idempotencyKey
    ensures var cs := Run(orders, ts).charges;
      cs[i].amount == cs[j].amount && cs[i].currency == cs[j].currency && cs[i].receiptEmail == cs[j].receiptEmail
  {
    RunChargesMatch(orders, ts);
    var cs := Run(orders, ts).charges;
    assert Matches(orders, cs[i]) && Matches(orders, cs[j]);
  }
}
