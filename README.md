# Order reconciliation of the Stripe payments demo, in Dafny

This project models the order-status reconciliation of `server/node/routes.js` in the Stripe
payments demo server, and proves properties of it. Two handlers move an order's
`metadata.status` through `created`, `pending`, `paid`, `failed` and whatever status a charge
comes back with:

- `POST /orders/:id/pay` is the synchronous path. It retrieves the order, refuses it with 403
  when it is `pending` or `paid`, and charges a `chargeable` source. The order id is the
  idempotency key. The charge outcome is mapped to a status and written back to the order.
- `POST /webhook` is the asynchronous path. It authenticates the event with the signing
  secret when one is configured, and reads it from the body otherwise. It then runs at most
  one of four branches: `payment_intent`, `source.chargeable` (the same charge flow with a
  stricter guard that answers 403), `charge.succeeded`, and a failed or canceled source or
  charge.
- `GET /fpx/banks` sorts the module-level FPX bank list in place by upper-cased display name.

Module layout:

- `Orders` (orders.dfy): the order store as a class. It holds a map from order id to order and
  a log of update calls. `Retrieve` and `Update` stand for `orders.retrieve` and
  `orders.update`.
- `Gateway` (gateway.dfy): what the payment processor is asked for and what it answers, and
  the outcome-to-status mapping.
- `Reconcile` (reconcile.dfy): pure functions stating what each handler replies, charges and
  writes, with the properties of the two paths proved as lemmas.
- `Routes` (routes.dfy): the handlers as imperative code over an `OrderStore`. Each one is
  proved to do exactly what `Reconcile` states.
- `Replay` (replay.dfy): handler runs one after another. Over any such history, requests that
  share an idempotency key ask for the same amount, currency and receipt email.
- `Banks` (banks.dfy): the comparator and an in-place sort of an `array`.

The processor is not modelled. The outcome of `stripe.charges.create` (a thrown error, or a
charge with a status) and of `stripe.webhooks.constructEvent` (an event, or a signature
failure) are parameters. Whether a signing secret is configured is a boolean parameter. An
exception that escapes the webhook handler leaves the request without a response; the model
calls this `NoResponse`. It happens on a `retrieve` of an unknown order, on a
`charge.succeeded` object without an embedded source, and on a `payment_intent.payment_failed`
object without `last_payment_error.source`, whose id the log line reads.

The guards and status writes have consequences that the comments in `routes.js` do not
spell out. The model proves them as the code has them:

- The pay handler's check "Verify that this order actually needs to be paid" (routes.js:143)
  refuses only `pending` and `paid`. A `failed` or `canceled` order is charged
  (`PayChargesFailedOrCanceledOrder`). The same check on the webhook path (routes.js:248-253)
  adds `failed` but still lets `canceled` through (`WebhookChargesCanceledOrder`).
- "Return a 200 success code to Stripe" (routes.js:326) is not reached when the
  `source.chargeable` guard refuses. The webhook then answers 403 (`WebhookResponseCodes`).
- The pay handler answers an unknown order id with 500 from its catch block (routes.js:183-184),
  not with the 404 that `GET /orders/:id` uses (routes.js:349) (`PayUnknownOrder`).
- `payment_intent.payment_failed` only logs and changes no order (`IntentFailedWritesNothing`).
- Of the four webhook branches, only `source.chargeable` checks the order's prior status; the
  other three never do. A `payment_intent.succeeded` event sets any order to `paid`
  (`IntentSucceededMarksPaid`). So does a `charge.succeeded` event
  (`ChargeSucceededMarksPaid`). A `charge.failed` or `source.canceled` event sets even a
  `paid` order to `failed` (`FailureMarksFailed`).

## Model

| member | source | states |
|---|---|---|
| `Orders.ApplyWrite` | server/node/routes.js:180 | an update keeps the set of orders, changes only the named order, and changes only its status |
| `Orders.OrderStore.Retrieve` | server/node/routes.js:142 | returns the stored order, or nothing when the id is unknown |
| `Orders.OrderStore.Update` | server/node/routes.js:180 | merges the new status into the named order only, returns the updated order, and logs exactly one update when the order exists |
| `Gateway.StatusAfterCharge` | server/node/routes.js:167-178 | a thrown charge error gives `failed`; a `succeeded` charge gives `paid`; any other charge status passes through unchanged; the stored status is never `succeeded` |
| `Reconcile.HasOrder` | server/node/routes.js:222 | defines when `metadata.order` is truthy: present and not the empty string |
| `Reconcile.PayGuardRefuses` | server/node/routes.js:144-147 | defines the pay handler's refusal: the order's status is `pending` or `paid` |
| `Reconcile.WebhookGuardRefuses` | server/node/routes.js:249-253 | defines the `source.chargeable` refusal: the order's status is `pending`, `paid` or `failed` |
| `Reconcile.IsPaymentIntentEvent` | server/node/routes.js:220-223 | defines the `payment_intent` branch test: the object is a payment intent and names an order |
| `Reconcile.IsChargeableSource` | server/node/routes.js:239-243 | defines the `source.chargeable` branch test: a source, status `chargeable`, naming an order |
| `Reconcile.IsSucceededCharge` | server/node/routes.js:298-300 | defines the part of the `charge.succeeded` test read before the embedded source: a charge with status `succeeded` |
| `Reconcile.IsFailedSourceOrCharge` | server/node/routes.js:312-315 | defines the failure branch test: a source or charge whose status is `failed` or `canceled` |
| `Reconcile.Classify` | server/node/routes.js:220-315 | names the branch an object enters; each branch is chosen exactly when its own test holds, and no branch is chosen exactly when none holds |
| `Reconcile.FailureRef` | server/node/routes.js:316 | defines where the failure branch reads the order: the embedded source when there is one, else the object |
| `Gateway.ChargeFor` | server/node/routes.js:154-166 | defines the `charges.create` arguments on both paths (also lines 268-280): the source's id, the order's amount, currency and email, and the order id as idempotency key |
| `Reconcile.PayResult` | server/node/routes.js:138-186 | the pay reply is 200, 403 or 500; a charge is made exactly when an update is made; both concern only the requested order, and the charge's idempotency key is its id |
| `Reconcile.MarkOrder` | server/node/routes.js:318-323 | makes no charge, and writes the given status only to an order that the reference names and that exists |
| `Reconcile.Dispatch` | server/node/routes.js:216-327 | after authentication, a webhook writes at most one order, and only an existing one; a charge comes with a write to the order named by its idempotency key |
| `Reconcile.WebhookResult` | server/node/routes.js:189-215 | the same for the whole webhook, authentication included |
| `Reconcile.PayGuard` | server/node/routes.js:144-149 | the pay handler answers 403 exactly when the order exists and is `pending` or `paid`; it then returns the order as stored, without charging or updating |
| `Reconcile.PayUnknownOrder` | server/node/routes.js:140-185 | an unknown order id gives 500 with no charge and no update |
| `Reconcile.PayWithoutChargeableSource` | server/node/routes.js:150-182 | past the guard, a missing or non-chargeable source gives 200 with the order unchanged, no charge and no update |
| `Reconcile.PayCharges` | server/node/routes.js:151-180 | past the guard, a chargeable source causes one charge. The charge carries that source, the order's amount, currency and email, and the order id as key. The mapped status is written to that order alone and returned |
| `Reconcile.PayChargesFailedOrCanceledOrder` | server/node/routes.js:144-149 | the pay guard does not refuse `failed` or `canceled` orders: a chargeable source charges them |
| `Reconcile.RoutesExclusive` | server/node/routes.js:220-315 | at most one of the four branch conditions of the webhook holds for any event object |
| `Reconcile.GuardsDifferOnlyOnFailed` | server/node/routes.js:249-253 | the webhook guard refuses exactly what the pay guard refuses, plus `failed` |
| `Reconcile.WebhookRejectsBadSignature` | server/node/routes.js:193-206 | with a secret configured, a failed verification gives 400 with no charge and no update |
| `Reconcile.WebhookEventSource` | server/node/routes.js:193-215 | with a secret, the outcome does not depend on the unsigned body; without a secret, it does not depend on the verification result |
| `Reconcile.WebhookResponseCodes` | server/node/routes.js:189-327 | every response sent is 200, 400 or 403. It is 400 exactly for a bad signature. It is 403 exactly when a chargeable-source event names an existing `pending`, `paid` or `failed` order |
| `Reconcile.IntentSucceededMarksPaid` | server/node/routes.js:220-230 | `payment_intent.succeeded` with an order reference writes `paid` to that order, whatever its prior status, and answers 200 |
| `Reconcile.IntentFailedWritesNothing` | server/node/routes.js:231-235 | `payment_intent.payment_failed` makes no charge and no update |
| `Reconcile.ChargeableSourceFlow` | server/node/routes.js:239-295 | `source.chargeable` gives 403 with nothing else for a `pending`, `paid` or `failed` order. Any other order gets 200, one charge with the order's terms keyed by its id, and one update with the mapped status |
| `Reconcile.WebhookChargesCanceledOrder` | server/node/routes.js:249-255 | the webhook guard does not refuse a `canceled` order: its chargeable source is charged |
| `Reconcile.BothPathsChargeAlike` | server/node/routes.js:266-294 | for the same order, source and processor answer, the webhook makes the same charge request and the same update as the pay path (lines 151-180) |
| `Reconcile.ChargeSucceededMarksPaid` | server/node/routes.js:298-309 | `charge.succeeded` writes `paid` to the order named in the embedded source's metadata |
| `Reconcile.FailureMarksFailed` | server/node/routes.js:312-324 | a failed or canceled source or charge writes `failed` to the order it references. The reference comes from the embedded source when there is one, else from the object |
| `Reconcile.NoOrderReferenceIgnored` | server/node/routes.js:216-327 | an event whose object and embedded source reference no order is answered 200 with no charge and no update |
| `Routes.CreateCharge` | server/node/routes.js:152-178 | the status computed step by step across the try/catch equals the outcome mapping |
| `Routes.Pay` | server/node/routes.js:138-186 | the imperative pay handler replies, charges, leaves the store and logs updates exactly as `PayResult` states |
| `Routes.Webhook` | server/node/routes.js:189-215 | the imperative webhook replies, charges, leaves the store and logs updates exactly as `WebhookResult` states |
| `Routes.HandleEvent` | server/node/routes.js:216-328 | the four sequential branch tests, early returns included, reply and write exactly as `Dispatch` states |
| `Replay.Effect` | server/node/routes.js:154-180 | one handler run writes only an existing order; its charge, if any, comes with a write to the order its key names |
| `Replay.EffectChargesMatch` | server/node/routes.js:154-166 | a charge made by either handler carries the amount, currency and email of the order its key names |
| `Replay.RunKeepsTerms` | server/node/routes.js:180 | across any sequence of handler runs, no order is added or removed, and no amount, currency or email changes |
| `Replay.RunChargesMatch` | server/node/routes.js:268-280 | across any sequence of handler runs, every charge request carries the original terms of the order its key names |
| `Replay.SameKeySameTerms` | server/node/routes.js:161-165 | two charge requests with the same idempotency key ask for the same amount, currency and receipt email, whichever path made them |
| `Banks.Upper` | server/node/routes.js:99-100 | upper-casing keeps the length, moves each lower-case ASCII letter 32 code points down, keeps every other character, and leaves no lower-case letter |
| `Banks.UpperIgnoresCase` | server/node/routes.js:99-100 | two strings equal up to ASCII letter case upper-case to the same string |
| `Banks.LexLess` | server/node/routes.js:101-106 | defines JavaScript's `<` on strings: compare character by character, and a proper prefix comes first |
| `Banks.LexLessAsymmetric` | server/node/routes.js:101-106 | string `<` never holds both ways |
| `Banks.LexLessTotal` | server/node/routes.js:101-109 | two strings are equal or one is `<` the other |
| `Banks.LexLessTransitive` | server/node/routes.js:101-102 | string `<` is transitive |
| `Banks.CompareBanks` | server/node/routes.js:98-110 | the comparator returns -1, 1 or 0 exactly when the upper-cased display names are less, greater or equal |
| `Banks.CompareAntisymmetric` | server/node/routes.js:98-110 | swapping the comparator's arguments negates its answer |
| `Banks.CompareIgnoresCase` | server/node/routes.js:99-100 | banks whose display names are equal up to letter case compare equal, and compare alike with every other bank |
| `Banks.InOrderTotal` | server/node/routes.js:98-110 | of any two banks, one may stand before the other |
| `Banks.InOrderTransitive` | server/node/routes.js:98-110 | the comparator's order is transitive |
| `Banks.InsertAt` | server/node/routes.js:98-110 | moving one element down into a sorted prefix leaves the prefix one longer, still sorted, and the array a permutation of what it was |
| `Banks.SortByDisplayName` | server/node/routes.js:98-110 | after the in-place sort, the array is in non-decreasing comparator order and is a permutation of its previous contents |
| `Banks.GetBanks` | server/node/routes.js:97-113 | the route answers 200 with the array as sorted in place: ordered and a permutation of the previous list |

## Left out

- Express routing, HTML rendering, `/config`, the product routes and `GET /orders/:id` are request plumbing. Responses are modelled as status codes and, for the pay handler, the order in the body.
- Order creation (`POST /orders`) and everything in `./inventory` is not part of this model. The store's `retrieve` and `update` are modelled by their observable effect.
- `server/node/setup.js` (fixture creation and the single-flight `running` flag) is not part of this model. It is foreign I/O and concurrency with no reconciliation logic.
- The `/fpx/source` stub returns fixed JSON and is not modelled. The contents of the 22-entry bank list are not modelled; the sort is proved for any list.
- Concurrency: each handler is one sequential run. Interleavings of two handlers for the same order (guard read, then a later update) are not modelled.
- The processor's deduplication of requests by idempotency key is not modelled. The model records the key and the terms of each request.
- Console logging is not modelled, except for the one log read that can throw (`last_payment_error.source.id`).
- A failing `orders.update` (store unavailable) is not modelled. The pay handler's 500 covers only an unknown order id.
- Every event object is assumed to carry `metadata`; a missing `metadata` throws in JavaScript and is not modelled. An embedded `object.source` is either an object with `metadata` or absent.
- `data.object` missing from an event is not modelled.
- An order's id is its key in the store; the `order.id` field is not modelled separately.
- Banks.Upper: upper-cases ASCII letters only, because JavaScript's full Unicode case mapping (which can change a string's length) is not modelled.
- Banks.LexLess: compares characters by code point, whereas JavaScript compares UTF-16 code units; the two differ only for characters outside the Basic Multilingual Plane.
- Banks.SortByDisplayName: is insertion sort. It is proved sorted and a permutation of its input. `Array.prototype.sort` also promises stability (ECMAScript 2019 and later), meaning equal names keep their relative order. Stability is not proved here, and neither is the engine's own algorithm.
- Banks.GetBanks: the same as for `Banks.SortByDisplayName`: the listed banks are proved ordered and a permutation of the old list, not stable.
