# Order processing, before and after refactoring — a Dafny model

The repository contrasts two designs for the same toy workflow: take an order,
total its line items, adjust the total for the payment type, charge it, then
save, notify, track and back it up, moving the order from `new` through
`processing` to `done`.

* The **monolithic** design (`sample_design_violations.py`) has one
  `OrderProcessor` class that does everything. It also has hidden state:
  * a global `CONFIG` dictionary, whose `discount` entry a `promo` constructor
    call overwrites;
  * a singleton whose every constructor call re-initialises the one shared
    object;
  * a hard-coded country whitelist;
  * a 1.39 tariff above 1000;
  * an analytics step that swallows errors and logs "posted" regardless.
* The **refactored** design (`refactored_design.py`) has a coordinator
  `OrderProcessor`. It totals the items, applies an injected `DiscountPolicy`
  (four pure variants), and calls five injected collaborators in a fixed order.

The model is functional:

* Prices are exact `real`s.
* A run is a pure function. It returns the order afterwards, the returned total
  or the raised error, and the trace of collaborator calls it started:
  `Charge(t)`, `Save(t)`, `Notify(t)`, `Track` and `Backup`.
* Which collaborators raise is an input, `faults: set<Step>`.
* The monolithic design's hidden state is an explicit `Store`. The store holds
  the `CONFIG` discount, the number of objects `__new__` allocated, and the
  shared instance's fields (customer id, payment type, counter, log).

Files:

* `orders.dfy` (module `Orders`): shared vocabulary.
  * Items, orders, status, steps, events.
  * The reference sum Σ price × quantity and the accumulating loop both designs
    use.
  * The fixed pipeline and the "call in order, stop at the first raise"
    dispatcher.
* `violations.dfy` (module `Violations`): the monolithic design.
* `refactored.dfy` (module `Refactored`): the refactored design.
* `comparison.dfy` (module `Comparison`): relates the two designs.
  * Both compute the same item total.
  * They diverge on the tariff, the country whitelist, unknown payment types
    and which failures stop a run.

## Model

| member | source | states |
|---|---|---|
| Orders.SumFrom | sample_design_violations_and_solution/sample_design_violations.py:63-66 | The loop adds each line's price × quantity to the running sum, with a missing quantity counting as 1. The final value is the start value plus the reference sum Σ price × quantity. |
| Orders.ItemsTotal | sample_design_violations_and_solution/refactored_design.py:106 | The generator sum starting at 0 equals the reference item total Σ price × quantity. |
| Orders.SubtotalAppend | sample_design_violations_and_solution/refactored_design.py:106 | The item total is additive: the total of two concatenated item lists is the sum of their totals. |
| Orders.SubtotalNonNegative | sample_design_violations_and_solution/sample_design_violations.py:62-66 | Non-negative prices and quantities give a non-negative item total. |
| Orders.Pipeline | sample_design_violations_and_solution/refactored_design.py:109-113 | The collaborator calls of a full run are five calls in the fixed order charge, save, notify, track, backup, with each step exactly once. Charge, save and notify receive the total. |
| Orders.Dispatch | sample_design_violations_and_solution/refactored_design.py:109-113 | The dispatcher calls collaborators strictly in the given order. It stops at the first faulty step, which is its last call, with every earlier call fault-free. It completes all calls exactly when none is faulty. |
| Orders.DispatchPipeline | sample_design_violations_and_solution/refactored_design.py:109-115 | The charge → save → notify → track → backup pipeline completes if and only if no step is faulty. Otherwise the trace stops right after the earliest faulty step. |
| Refactored.DiscountPolicy.Apply | sample_design_violations_and_solution/refactored_design.py:25-36 | `NoDiscount` is the identity. On a positive total, `PaypalDiscount` lowers it and `CreditCardFee` raises it. `PromoDiscount(r)` with r in [0,1] keeps a non-negative total within [0, total]. Every policy maps 0 to 0. The adjustment is exact: `PaypalDiscount` takes off 2 % of the total, `CreditCardFee` adds 2 %, and `PromoDiscount(r)` takes off r × total. |
| Refactored.ApplyIsLinear | sample_design_violations_and_solution/refactored_design.py:25-36 | Every policy is a pure linear map of the total: it is additive and commutes with scaling. |
| Refactored.DiscountOfSplitOrder | sample_design_violations_and_solution/refactored_design.py:106-107 | Discounting the total of an order equals the sum of the discounted totals of its two parts. |
| Refactored.PolicyExamples | sample_design_violations_and_solution/refactored_design.py:25-36 | For one line of price 10 and quantity 2, the item total is 20. The four policies give 20, 19.6, 20.4 and 18 (rate 0.1). |
| Refactored.NewOrder | sample_design_violations_and_solution/refactored_design.py:9-15 | A new order has status `new`, and its id, email, items and country are the constructor arguments. |
| Refactored.Process | sample_design_violations_and_solution/refactored_design.py:102-116 | Only the status changes. The run succeeds if and only if no collaborator faults. On success it returns the policy applied to Σ price × quantity, the trace is the full pipeline on that total, and the status is `done`. On failure the error names the earliest faulty step, the trace stops right after that step, and the status stays `processing`. |
| Refactored.CallsInPipelineOrder | sample_design_violations_and_solution/refactored_design.py:109-113 | Each collaborator is called at most once, in pipeline order, and all five are called on success. Charge, save and notify each receive the returned total. |
| Refactored.ProcessIgnoresCountry | sample_design_violations_and_solution/refactored_design.py:106-116 | There is no country check: the country has no effect on the result or the calls. |
| Refactored.FreshOrderLifecycle | sample_design_violations_and_solution/refactored_design.py:9-15 | A freshly built order starts `new`. After one run it is `done` exactly when no collaborator fails, otherwise `processing`, and never `new` again. No other field changes. |
| Violations.Allocate | sample_design_violations_and_solution/sample_design_violations.py:26-29 | `__new__` allocates an object only while the singleton slot is empty. Otherwise it returns the store unchanged. |
| Violations.Construct | sample_design_violations_and_solution/sample_design_violations.py:26-37 | A constructor call leaves the shared instance with the given customer and payment type, a zero counter and an empty log. The global discount becomes 0.6 for `promo` and is unchanged otherwise. A new object is allocated only if none existed. |
| Violations.ConstructDefault | sample_design_violations_and_solution/sample_design_violations.py:32-37 | A constructor call without a payment type gives the shared instance the payment type `credit-card`, a zero counter and an empty log, and leaves the global discount unchanged. |
| Violations.DiscountPersists | sample_design_violations_and_solution/sample_design_violations.py:8-37 | After any sequence of constructor calls, the global discount is 0.6 if any call was `promo`, and its earlier value otherwise. No later call restores it. |
| Violations.SingleInstance | sample_design_violations_and_solution/sample_design_violations.py:24-36 | Any number of constructor calls allocates at most one object. The instance then holds the most recent call's customer and payment type, with the counter and log reset. |
| Violations.AtMostOneObject | sample_design_violations_and_solution/sample_design_violations.py:24-29 | From program start, the allocation count is 1 after any constructor call and 0 before. |
| Violations.SupportedCountry | sample_design_violations_and_solution/sample_design_violations.py:43 | An order's country passes the check exactly when it is present and is one of CH, DE, AT, EU or Worldwide. A missing country never passes. |
| Violations.CalcTotal | sample_design_violations_and_solution/sample_design_violations.py:62-69 | The result is Σ price × quantity, multiplied by 1.39 when that sum is strictly greater than 1000. |
| Violations.TariffAppliedIff | sample_design_violations_and_solution/sample_design_violations.py:67-68 | The tariff changes the total if and only if the item total exceeds 1000. It never lowers a non-negative total. |
| Violations.ApplyDiscount | sample_design_violations_and_solution/sample_design_violations.py:72-80 | An unknown payment type leaves the total unchanged. On a positive total, `paypal` lowers it and `credit-card` raises it. `promo` with a discount in [0,1] keeps a non-negative total within [0, total]. The adjustment is exact: `paypal` takes off 2 % of the total, `credit-card` adds 2 %, and `promo` takes off the global discount × total. |
| Violations.ChargePayment | sample_design_violations_and_solution/sample_design_violations.py:84-92 | The charge succeeds exactly for `paypal`, `promo` and `credit-card`, logging the charged total. The log entry is a card charge exactly for `credit-card`. Any other type raises the unknown-payment-type error. |
| Violations.PostAnalytics | sample_design_violations_and_solution/sample_design_violations.py:111-118 | Analytics only appends to the log, and its last entry is always "Analytics posted". That entry is preceded by a failure note exactly when the post raised. It appends two entries when the post raised and one otherwise. |
| Violations.Process | sample_design_violations_and_solution/sample_design_violations.py:40-57 | Only the status changes on the order; the global discount and the allocation count never change. An unlisted or missing country fails with no calls and no state change, and so does an unknown payment type. Otherwise every failure is a collaborator failure: it fails at the earliest faulty save, email or backup step, with the trace stopping there, the status `processing` and the log kept. On success it returns the discounted tariffed total, calls the full pipeline with it, increments the counter by exactly 1 and ends `done`. |
| Violations.AnalyticsFailureSwallowed | sample_design_violations_and_solution/sample_design_violations.py:111-118 | A failing analytics post does not stop the run. The log then records the failure followed by "Analytics posted". |
| Violations.PromoPaysFortyPercent | sample_design_violations_and_solution/sample_design_violations.py:32-80 | A processor constructed as `promo` charges 0.4 times the tariffed total, whatever the earlier global state. |
| Violations.LaterConstructionRebindsInstance | sample_design_violations_and_solution/sample_design_violations.py:24-37 | After a `promo` and then a `credit-card` constructor call, the shared instance charges by card with the 2 % fee and its counter restarts. The promo discount 0.6 stays in the global configuration. |
| Comparison.PolicyFor | sample_design_violations_and_solution/refactored_design.py:25-36 | The payment-type string selects the identity policy exactly for unknown types. It selects the promo policy exactly for `promo`, with the global discount as its rate. |
| Comparison.DiscountRulesAgree | sample_design_violations_and_solution/sample_design_violations.py:72-80 | For every payment type, discount and total, the hard-coded discount branch equals the strategy that replaced it. |
| Comparison.AgreeUpToThreshold | sample_design_violations_and_solution/refactored_design.py:102-116 | Take a whitelisted country, a known payment type and an item total of at most 1000. Then both designs produce the same order, result and trace, given the save, email and backup failures. |
| Comparison.TariffAboveThreshold | sample_design_violations_and_solution/sample_design_violations.py:67-68 | Above 1000, both designs succeed or fail alike and call the same collaborators. The monolithic total is 1.39 times the refactored one. |
| Comparison.CountryCheckOnlyInMonolith | sample_design_violations_and_solution/sample_design_violations.py:43-44 | For an order outside the whitelist, the monolithic design fails before any call. The refactored design completes all five calls. |
| Comparison.UnknownPaymentTypeOnlyFailsInMonolith | sample_design_violations_and_solution/sample_design_violations.py:84-92 | An unknown payment type is refused at the monolithic charge, before any save. Its refactored counterpart, the identity policy, completes with the plain item total. |

## Left out

- Floating-point rounding: prices and totals are exact reals, so `0.98`, `1.02`, `1.39` and `1 - discount` are exact products.
- Conversions: `float(price)` and `int(quantity)` on strings, and the `KeyError` raised by a dictionary order missing `items`, `price`, `id` or `email`. Items carry a real price and an optional integer quantity.
- Quantities are not checked to be at least 1, because the code does not check them either.
- Database, SMTP, HTTP and CSV bodies: each is an event in the trace, and its failure is a member of `faults`. The rows written to the database and the CSV file (which carry the status `processing`) are not modelled.
- The `print` in the payment gateways: a charge is only a `Charge(t)` event. The gateway variant does not affect anything the model observes, so `OrderProcessor` in `Refactored` holds only the discount policy.
- `AppConfig`, the abstract base classes and `BaseOrderProcessor`: these are plain data or declarations, unused by `process`. The `CONFIG` entries `db_path` and `email_host` feed only the I/O bodies.
- Concurrency and thread-safety of the singleton: the shared state is modelled only as a sequential store.
- In the monolithic design the charge is a log append and analytics errors are caught. A `ChargeStep` or `TrackStep` in `faults` therefore does not stop that run.
- Violations.Process: the contract states the log only as an append-only extension that ends in "Backup CSV updated" on success. It does not list every entry written in between. `PostAnalytics` and `AnalyticsFailureSwallowed` state the analytics entries.
