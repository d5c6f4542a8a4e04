/**
 * The order store behind `orders.retrieve` and `orders.update` (the `./inventory` module,
 * itself not part of this model). An order is keyed by its id; the reconciliation code only
 * ever reads an order and overwrites `metadata.status`.
 */
module Orders {
  import opened Wrappers

  type OrderId = string

  const Created := "created"
  const Pending := "pending"
  const Paid := "paid"
  const Failed := "failed"
  const Canceled := "canceled"

  /** An order as the handlers see it: the fields a charge is built from, and its status. */
  datatype Order = Order(amount: nat, currency: string, email: string, status: string)

  /** One `orders.update(id, {metadata: {status}})` call. */
  datatype Write = Write(id: OrderId, status: string)

  /** Two orders agree on everything a charge is built from. */
  predicate SameTerms(a: Order, b: Order)
  {
    a.amount == b.amount && a.currency == b.currency && a.email == b.email
  }

  /** The store after an optional write; a write to an unknown id changes nothing. */
  function ApplyWrite(orders: map<OrderId, Order>, w: Option<Write>): (r: map<OrderId, Order>)
    ensures r.Keys == orders.Keys
    ensures forall k :: k in orders && (w.None? || k != w.value.id) ==> r[k] == orders[k]
    ensures w.Some? && w.value.id in orders ==>
              r[w.value.id].status == w.value.status && SameTerms(r[w.value.id], orders[w.value.id])
  {
    match w
    case None => orders
    case Some(Write(id, status)) =>
      if id in orders then orders[id := orders[id].(status := status)] else orders
  }

  class OrderStore {
    /** The stored orders, by id. */
    var orders: map<OrderId, Order>
    /** Every successful update call, oldest first. */
    var updates: seq<Write>

    constructor (initial: map<OrderId, Order>)
      ensures orders == initial && updates == []
    {
      orders := initial;
      updates := [];
    }

    /** `orders.retrieve(id)`: the stored order, or nothing (the call rejects) when the id is unknown. */
    method Retrieve(id: OrderId) returns (order: Option<Order>)
      ensures order.Some? <==> id in orders
      ensures order.Some? ==> order.value == orders[id]
    {
      if id in orders {
        order := Some(orders[id]);
      } else {
        order := None;
      }
    }

    /** `orders.update(id, {metadata: {status}})`: merges the new status into the stored order and returns it. */
    method Update(id: OrderId, status: string) returns (updated: Option<Order>)
      modifies this
      ensures updated.Some? <==> id in old(orders)
      ensures orders == ApplyWrite(old(orders), Some(Write(id, status)))
      ensures updated.Some? ==> updated.value == orders[id]
      ensures updates == old(updates) + (if updated.Some? then [Write(id, status)] else [])
    {
      if id in orders {
        var order := orders[id].(status := status);
        orders := orders[id := order];
        updates := updates + [Write(id, status)];
        updated := Some(order);
      } else {
        updated := None;
      }
    }
  }
}
