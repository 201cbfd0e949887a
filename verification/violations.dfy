/** The monolithic design. Its hidden process-wide state is made explicit as a
    `Store`: the global configuration's discount entry, how many objects the
    class's `__new__` has allocated, and the fields of the one shared instance.
    Database, mail, HTTP and CSV work are abstract collaborator calls recorded as
    events; `faults` says which of them raise.
 */
module Violations {
  import opened Orders

  const SupportedCountries: set<string> := {"CH", "DE", "AT", "EU", "Worldwide"}
  const KnownPaymentTypes: set<string> := {"paypal", "credit-card", "promo"}
  const DefaultPaymentType: string := "credit-card"
  /** Initial value of the global configuration's discount entry. */
  const InitialDiscount: real := 0.8
  /** The discount a `promo` construction writes into the global configuration. */
  const PromoDiscountRate: real := 0.6
  const TariffThreshold: real := 1000.0
  const TariffFactor: real := 1.39

  /** The processor's in-memory log. */
  datatype LogEntry =
    | ChargedViaPayPal(amount: real)
    | ChargedViaCC(amount: real)
    | EmailSent
    | AnalyticsFailed
    | AnalyticsPosted
    | BackupUpdated

  /** The instance fields of the processor. */
  datatype Processor = Processor(customerId: string, paymentType: string, totalProcessed: nat, logs: seq<LogEntry>)

  /** Process-wide state. `instance` is the class-level singleton slot;
      `allocations` counts how many objects were ever allocated for it. */
  datatype Store = Store(discount: real, allocations: nat, instance: Option<Processor>)

  const InitialStore: Store := Store(InitialDiscount, 0, None)

  /** `__new__`: allocates an object only when the slot is empty. The fresh
      object carries no attributes yet; its placeholder fields are overwritten
      by `__init__` before anything reads them. */
  function Allocate(s: Store): (s': Store)
    ensures s'.instance.Some? && s'.discount == s.discount
    ensures s.instance.Some? ==> s' == s
    ensures s.instance.None? ==> s'.allocations == s.allocations + 1
  {
    if s.instance.Some? then s
    else s.(allocations := s.allocations + 1, instance := Some(Processor("", "", 0, [])))
  }

  /** A constructor call `OrderProcessor(customerId, paymentType)`: `__new__`,
      then `__init__` on the shared instance, which overwrites its fields, resets
      the counter and the log, and writes 0.6 into the global discount for a
      `promo` type. */
  function Construct(s: Store, customerId: string, paymentType: string): (s': Store)
    ensures s'.instance == Some(Processor(customerId, paymentType, 0, []))
    ensures paymentType == "promo" ==> s'.discount == PromoDiscountRate
    ensures paymentType != "promo" ==> s'.discount == s.discount
    ensures s'.allocations == (if s.instance.Some? then s.allocations else s.allocations + 1)
  {
    var created := Allocate(s);
    created.(instance := Some(Processor(customerId, paymentType, 0, [])),
             discount := if paymentType == "promo" then PromoDiscountRate else created.discount)
  }

  /** A constructor call without a payment type, which defaults to `credit-card`. */
  function ConstructDefault(s: Store, customerId: string): (s': Store)
    ensures s'.instance.Some? && s'.instance.value.paymentType == DefaultPaymentType
    ensures s'.instance.value.customerId == customerId
    ensures s'.instance.value.totalProcessed == 0 && s'.instance.value.logs == []
    ensures s'.discount == s.discount
  {
    Construct(s, customerId, DefaultPaymentType)
  }

  datatype Construction = Construction(customerId: string, paymentType: string)

  /** A sequence of constructor calls, in program order. */
  function ConstructAll(s: Store, cs: seq<Construction>): Store
    decreases |cs|
  {
    if |cs| == 0 then s else ConstructAll(Construct(s, cs[0].customerId, cs[0].paymentType), cs[1..])
  }

  ghost predicate AnyPromo(cs: seq<Construction>)
  {
    exists i :: 0 <= i < |cs| && cs[i].paymentType == "promo"
  }

  /** The global discount is 0.6 after any `promo` construction, and no later
      construction puts it back. */
  lemma {:induction false} DiscountPersists(s: Store, cs: seq<Construction>)
    ensures ConstructAll(s, cs).discount == (if AnyPromo(cs) then PromoDiscountRate else s.discount)
    decreases |cs|
  {
    if |cs| > 0 {
      var s1 := Construct(s, cs[0].customerId, cs[0].paymentType);
      DiscountPersists(s1, cs[1..]);
      if AnyPromo(cs[1..]) {
        var i :| 0 <= i < |cs[1..]| && cs[1..][i].paymentType == "promo";
        assert cs[i + 1].paymentType == "promo";
      }
      if cs[0].paymentType != "promo" && AnyPromo(cs) {
        var i :| 0 <= i < |cs| && cs[i].paymentType == "promo";
        assert cs[1..][i - 1].paymentType == "promo";
      }
    }
  }

  /** Every construction yields the one shared object: however many constructor
      calls run, at most one object is ever allocated, and the instance holds the
      fields of the most recent call with a zero counter and an empty log. */
  lemma {:induction false} SingleInstance(s: Store, cs: seq<Construction>)
    ensures ConstructAll(s, cs).allocations == (if s.instance.None? && |cs| > 0 then s.allocations + 1 else s.allocations)
    ensures |cs| > 0 ==> ConstructAll(s, cs).instance == Some(Processor(cs[|cs| - 1].customerId, cs[|cs| - 1].paymentType, 0, []))
    ensures |cs| == 0 ==> ConstructAll(s, cs) == s
    decreases |cs|
  {
    if |cs| > 0 {
      var s1 := Construct(s, cs[0].customerId, cs[0].paymentType);
      SingleInstance(s1, cs[1..]);
      if |cs| > 1 {
        assert cs[1..][|cs[1..]| - 1] == cs[|cs| - 1];
      }
    }
  }

  /** From program start, the number of allocated objects never exceeds one. */
  lemma AtMostOneObject(cs: seq<Construction>)
    ensures ConstructAll(InitialStore, cs).allocations == (if |cs| > 0 then 1 else 0)
  {
    SingleInstance(InitialStore, cs);
  }

  /** The hard-coded whitelist test; a missing country is never supported. */
  function SupportedCountry(country: Option<string>): (r: bool)
    ensures r <==> country in {Some("CH"), Some("DE"), Some("AT"), Some("EU"), Some("Worldwide")}
  {
    country.Some? && country.value in SupportedCountries
  }

  /** `_calc_total`: the accumulated item total, times 1.39 when it exceeds 1000. */
  function CalcTotal(items: seq<Item>): (r: real)
    ensures Subtotal(items) > TariffThreshold ==> r == Subtotal(items) * TariffFactor
    ensures Subtotal(items) <= TariffThreshold ==> r == Subtotal(items)
  {
    var subtotal := ItemsTotal(items);
    if subtotal > TariffThreshold then subtotal * TariffFactor else subtotal
  }

  /** The tariff changes the total exactly when the item total exceeds 1000. */
  lemma TariffAppliedIff(items: seq<Item>)
    ensures CalcTotal(items) != Subtotal(items) <==> Subtotal(items) > TariffThreshold
    ensures Subtotal(items) >= 0.0 ==> CalcTotal(items) >= Subtotal(items)
  {
  }

  /** `_apply_discounts`: the adjustment chosen by the payment-type string. */
  function ApplyDiscount(paymentType: string, discount: real, total: real): (r: real)
    ensures paymentType !in KnownPaymentTypes ==> r == total
    ensures paymentType == "paypal" && total > 0.0 ==> r < total
    ensures paymentType == "credit-card" && total > 0.0 ==> r > total
    ensures paymentType == "promo" && 0.0 <= discount <= 1.0 && total >= 0.0 ==> 0.0 <= r <= total
    ensures paymentType == "paypal" ==> total - r == 0.02 * total
    ensures paymentType == "credit-card" ==> r - total == 0.02 * total
    ensures paymentType == "promo" ==> total - r == discount * total
  {
    if paymentType == "paypal" then total * 0.98
    else if paymentType == "credit-card" then total * 1.02
    else if paymentType == "promo" then
      assert total * (1.0 - discount) == total - discount * total;
      assert 0.0 <= discount <= 1.0 && total >= 0.0 ==> 0.0 <= total * discount <= total * 1.0;
      total * (1.0 - discount)
    else total
  }

  /** `_charge_payment`: the log entry of a charge, or the error for an unknown type. */
  function ChargePayment(paymentType: string, total: real): (r: Result<LogEntry, Failure>)
    ensures r.Ok? <==> paymentType in KnownPaymentTypes
    ensures r.Ok? ==> (r.value.ChargedViaPayPal? || r.value.ChargedViaCC?) && r.value.amount == total
    ensures r.Ok? ==> (r.value.ChargedViaCC? <==> paymentType == "credit-card")
    ensures r.Err? ==> r.error == UnknownPaymentType
  {
    if paymentType == "paypal" || paymentType == "promo" then Ok(ChargedViaPayPal(total))
    else if paymentType == "credit-card" then Ok(ChargedViaCC(total))
    else Err(UnknownPaymentType)
  }

  /** `_post_analytics` on the log: a failed post is noted, and "posted" is
      appended whatever happened. */
  function PostAnalytics(logs: seq<LogEntry>, postFails: bool): (r: seq<LogEntry>)
    ensures |r| > |logs| && r[..|logs|] == logs
    ensures r[|r| - 1] == AnalyticsPosted
    ensures |r| == |logs| + (if postFails then 2 else 1)
    ensures postFails ==> r[|r| - 2] == AnalyticsFailed
  {
    (if postFails then logs + [AnalyticsFailed] else logs) + [AnalyticsPosted]
  }

  /** The store, order and run when a collaborator raises: the log so far is kept,
      the counter is not incremented and the status stays `processing`. */
  function Abort(s: Store, proc: Processor, logs: seq<LogEntry>, order: Order, step: Step, trace: seq<Event>): Outcome
  {
    Outcome(s.(instance := Some(proc.(logs := logs))), Run(order, Err(CollaboratorFailed(step)), trace))
  }

  datatype Outcome = Outcome(store: Store, run: Run)

  /** `process` on the shared instance. */
  function Process(s: Store, order: Order, faults: set<Step>): (o: Outcome)
    requires s.instance.Some?
    ensures o.run.order == order.(status := if o.run.result.Ok? then Done else Processing)
    ensures o.store.discount == s.discount && o.store.allocations == s.allocations
    ensures o.store.instance.Some?
    ensures var proc := s.instance.value; var proc' := o.store.instance.value;
            && proc'.customerId == proc.customerId
            && proc'.paymentType == proc.paymentType
            && |proc'.logs| >= |proc.logs| && proc'.logs[..|proc.logs|] == proc.logs
            && proc'.totalProcessed == proc.totalProcessed + (if o.run.result.Ok? then 1 else 0)
    ensures !SupportedCountry(order.country) ==>
              o.run.result == Err(UnsupportedCountry) && o.run.trace == [] && o.store == s
    ensures SupportedCountry(order.country) && s.instance.value.paymentType !in KnownPaymentTypes ==>
              o.run.result == Err(UnknownPaymentType) && o.run.trace == [] && o.store == s
    ensures o.run.result.Ok? <==>
              && SupportedCountry(order.country)
              && s.instance.value.paymentType in KnownPaymentTypes
              && SaveStep !in faults && NotifyStep !in faults && BackupStep !in faults
    ensures o.run.result.Ok? ==>
              && o.run.result.value == ApplyDiscount(s.instance.value.paymentType, s.discount, CalcTotal(order.items))
              && o.run.trace == Pipeline(o.run.result.value)
              && |o.store.instance.value.logs| > 0
              && o.store.instance.value.logs[|o.store.instance.value.logs| - 1] == BackupUpdated
    ensures SupportedCountry(order.country) && s.instance.value.paymentType in KnownPaymentTypes && o.run.result.Err? ==>
              o.run.result.error.CollaboratorFailed?
    ensures o.run.result.Err? && o.run.result.error.CollaboratorFailed? ==>
              var step := o.run.result.error.step;
              && step in {SaveStep, NotifyStep, BackupStep}
              && FirstFault(faults * {SaveStep, NotifyStep, BackupStep}, step)
              && o.run.trace == Pipeline(ApplyDiscount(s.instance.value.paymentType, s.discount, CalcTotal(order.items)))[..StepIndex(step) + 1]
  {
    var proc := s.instance.value;
    var processing := order.(status := Processing);
    if !SupportedCountry(order.country) then
      Outcome(s, Run(processing, Err(UnsupportedCountry), []))
    else
      var total := ApplyDiscount(proc.paymentType, s.discount, CalcTotal(order.items));
      match ChargePayment(proc.paymentType, total)
      case Err(e) => Outcome(s, Run(processing, Err(e), []))
      case Ok(chargeLog) =>
        var logs := proc.logs + [chargeLog];
        if SaveStep in faults then
          Abort(s, proc, logs, processing, SaveStep, [Charge(total), Save(total)])
        else if NotifyStep in faults then
          Abort(s, proc, logs, processing, NotifyStep, [Charge(total), Save(total), Notify(total)])
        else
          var logs' := PostAnalytics(logs + [EmailSent], TrackStep in faults);
          if BackupStep in faults then
            Abort(s, proc, logs', processing, BackupStep, Pipeline(total))
          else
            var proc' := proc.(totalProcessed := proc.totalProcessed + 1, logs := logs' + [BackupUpdated]);
            Outcome(s.(instance := Some(proc')), Run(processing.(status := Done), Ok(total), Pipeline(total)))
  }

  /** A failing analytics post does not stop the run, and the log still reports
      the post as done, right after noting its failure. */
  lemma AnalyticsFailureSwallowed(s: Store, order: Order, faults: set<Step>)
    requires s.instance.Some?
    requires SupportedCountry(order.country) && s.instance.value.paymentType in KnownPaymentTypes
    requires TrackStep in faults && SaveStep !in faults && NotifyStep !in faults && BackupStep !in faults
    ensures var o := Process(s, order, faults);
            var logs := o.store.instance.value.logs;
            && o.run.result.Ok?
            && |logs| >= 3
            && logs[|logs| - 3] == AnalyticsFailed
            && logs[|logs| - 2] == AnalyticsPosted
  {
  }

  /** A `promo` processor always pays 40 % of the tariffed total, since its own
      construction set the global discount to 0.6. */
  lemma PromoPaysFortyPercent(s: Store, customerId: string, order: Order)
    requires SupportedCountry(order.country)
    ensures Process(Construct(s, customerId, "promo"), order, {}).run.result == Ok(CalcTotal(order.items) * 0.4)
  {
  }

  /** The singleton is shared: after a `promo` processor is built, building a
      `credit-card` one re-binds the object the first caller holds, so that
      caller's next order is charged by card with the 2 % fee and the counter
      restarts, while the promo discount stays in the global configuration. */
  lemma LaterConstructionRebindsInstance(s: Store, c1: string, c2: string, order: Order)
    requires SupportedCountry(order.country)
    ensures var s2 := Construct(Construct(s, c1, "promo"), c2, "credit-card");
            var o := Process(s2, order, {});
            && s2.discount == PromoDiscountRate
            && o.run.result == Ok(CalcTotal(order.items) * 1.02)
            && o.store.instance.value.logs[0] == ChargedViaCC(CalcTotal(order.items) * 1.02)
            && o.store.instance.value.totalProcessed == 1
  {
  }
}
