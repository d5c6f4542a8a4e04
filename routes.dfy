/**
 * The two order-reconciling endpoints of server/node/routes.js as imperative code over the
 * order store: `POST /orders/:id/pay` and `POST /webhook`. Each is proved to reply and to
 * change the store exactly as module Reconcile specifies.
 */
module Routes {
  import opened Wrappers
  import opened Orders
  import opened Gateway
  import opened Reconcile

  /**
   * The status one `stripe.charges.create` call leads to, given what the call did: the charge,
   * when the call returns one, and the status are assigned step by step across the try/catch.
   * The call's arguments are the `ChargeRequest` the handler records.
   */
  method CreateCharge(gateway: ChargeOutcome) returns (status: string)
    ensures status == StatusAfterCharge(gateway)
  {
    var charge: Option<string> := None;
    match gateway {
      case ChargeError =>
        status := Failed;
      case Charged(chargeStatus) =>
        charge := Some(chargeStatus);
    }
    if charge.Some? && charge.value == Succeeded {
      status := Paid;
    } else if charge.Some? {
      status := charge.value;
    } else {
      status := Failed;
    }
  }

  /** `POST /orders/:id/pay` with body `{source}`. */
  method Pay(store: OrderStore, id: OrderId, source: Option<Source>, gateway: ChargeOutcome)
    returns (code: int, order: Option<Order>, charged: Option<ChargeRequest>)
    modifies store
    ensures var r := PayResult(old(store.orders), id, source, gateway);
      && code == r.code && order == r.order && charged == r.charged
      && store.orders == ApplyWrite(old(store.orders), r.write)
      && store.updates == old(store.updates) + OptionToSeq(r.write)
  {
    charged := None;
    order := store.Retrieve(id);
    if order.None? {
      code := 500;
      return;
    }
    if PayGuardRefuses(order.value.status) {
      code := 403;
      return;
    }
    if source.Some? && source.value.status == Some(Chargeable) {
      var request := ChargeFor(id, order.value, source.value.id);
      charged := Some(request);
      var status := CreateCharge(gateway);
      order := store.Update(id, status);
    }
    code := 200;
  }

  /** `POST /webhook`: authenticate the event, then handle it. */
  method Webhook(store: OrderStore, secretConfigured: bool, verification: Verification, body: Event, gateway: ChargeOutcome)
    returns (response: Response, charged: Option<ChargeRequest>)
    modifies store
    ensures var r := WebhookResult(old(store.orders), secretConfigured, verification, body, gateway);
      && response == r.response && charged == r.charged
      && store.orders == ApplyWrite(old(store.orders), r.write)
      && store.updates == old(store.updates) + OptionToSeq(r.write)
  {
    var event: Event;
    if secretConfigured {
      match verification {
        case Invalid =>
          response, charged := Status(400), None;
          return;
        case Verified(verified) =>
          event := verified;
      }
    } else {
      event := body;
    }
    response, charged := HandleEvent(store, event, gateway);
  }

  /** The webhook after authentication: the four branch tests run one after the other. */
  method HandleEvent(store: OrderStore, event: Event, gateway: ChargeOutcome)
    returns (response: Response, charged: Option<ChargeRequest>)
    modifies store
    ensures var r := Dispatch(old(store.orders), event, gateway);
      && response == r.response && charged == r.charged
      && store.orders == ApplyWrite(old(store.orders), r.write)
      && store.updates == old(store.updates) + OptionToSeq(r.write)
  {
    charged := None;
    var obj := event.data;
    RoutesExclusive(obj);

    // payment_intent.succeeded and payment_intent.payment_failed
    if IsPaymentIntentEvent(obj) {
      var order := store.Retrieve(obj.orderRef.value);
      if order.None? {
        response := NoResponse;
        return;
      }
      if event.eventType == IntentSucceeded {
        var _ := store.Update(obj.orderRef.value, Paid);
      } else if event.eventType == IntentPaymentFailed {
        // The log line reads `last_payment_error.source.id`, which throws when it is absent.
        if obj.lastErrorSourceId.None? {
          response := NoResponse;
          return;
        }
      }
    }

    // source.chargeable
    if IsChargeableSource(obj) {
      var order := store.Retrieve(obj.orderRef.value);
      if order.None? {
        response := NoResponse;
        return;
      }
      if WebhookGuardRefuses(order.value.status) {
        response := Status(403);
        return;
      }
      var request := ChargeFor(obj.orderRef.value, order.value, obj.id);
      charged := Some(request);
      var status := CreateCharge(gateway);
      var _ := store.Update(obj.orderRef.value, status);
    }

    // charge.succeeded: reading `object.source.metadata.order` throws when there is no source
    if IsSucceededCharge(obj) {
      if obj.source.None? {
        response := NoResponse;
        return;
      }
      var ref := obj.source.value.orderRef;
      if HasOrder(ref) {
        var order := store.Retrieve(ref.value);
        if order.None? {
          response := NoResponse;
          return;
        }
        var _ := store.Update(ref.value, Paid);
      }
    }

    // source.failed, source.canceled, charge.failed
    if IsFailedSourceOrCharge(obj) {
      var ref := FailureRef(obj);
      if HasOrder(ref) {
        var order := store.Retrieve(ref.value);
        if order.None? {
          response := NoResponse;
          return;
        }
        var _ := store.Update(ref.value, Failed);
      }
    }

    response := Status(200);
  }
}
