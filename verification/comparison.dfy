/** How the refactoring changes behaviour. The hard-coded payment-type rules map
    onto the injected discount policies; with that mapping both variants agree
    on the item total, the collaborator calls and the status, and differ only in
    the tariff above 1000, the country whitelist, the unknown payment type and
    which collaborator failures stop a run.
 */
module Comparison {
  import opened Orders
  import V = Violations
  import R = Refactored

  /** The policy the refactored design injects for a payment-type string of the
      monolithic design, given the global discount it would read. */
  function PolicyFor(paymentType: string, discount: real): (p: R.DiscountPolicy)
    ensures paymentType !in V.KnownPaymentTypes <==> p == R.NoDiscount
    ensures p.PromoDiscount? <==> paymentType == "promo"
    ensures p.PromoDiscount? ==> p.rate == discount
  {
    if paymentType == "paypal" then R.PaypalDiscount
    else if paymentType == "credit-card" then R.CreditCardFee
    else if paymentType == "promo" then R.PromoDiscount(discount)
    else R.NoDiscount
  }

  /** The hard-coded discount branch and the strategy it was replaced by agree
      on every payment type, global discount and total. */
  lemma DiscountRulesAgree(paymentType: string, discount: real, total: real)
    ensures V.ApplyDiscount(paymentType, discount, total) == PolicyFor(paymentType, discount).Apply(total)
  {
  }

  /** The collaborator failures the monolithic design lets through: its charge
      is a log append and its analytics errors are swallowed. */
  function Propagating(faults: set<Step>): (f: set<Step>)
    ensures forall s :: s in f <==> s in faults && !s.ChargeStep? && !s.TrackStep?
  {
    faults * {SaveStep, NotifyStep, BackupStep}
  }

  /** Up to 1000, for a whitelisted country and a known payment type, the two
      variants produce the same run: same order afterwards, same result, same
      collaborator calls, once charge and analytics failures are discounted. */
  lemma AgreeUpToThreshold(s: V.Store, order: Order, faults: set<Step>)
    requires s.instance.Some?
    requires V.SupportedCountry(order.country)
    requires s.instance.value.paymentType in V.KnownPaymentTypes
    requires Subtotal(order.items) <= V.TariffThreshold
    ensures V.Process(s, order, faults).run
         == R.Process(R.OrderProcessor(PolicyFor(s.instance.value.paymentType, s.discount)), order, Propagating(faults))
  {
    var pt := s.instance.value.paymentType;
    var v := V.Process(s, order, faults).run;
    var w := R.Process(R.OrderProcessor(PolicyFor(pt, s.discount)), order, Propagating(faults));
    DiscountRulesAgree(pt, s.discount, Subtotal(order.items));
    assert v.result == w.result;
  }

  /** Above 1000 the monolithic design charges 1.39 times what the refactored one
      does, in the same calls, and succeeds or fails alike. */
  lemma TariffAboveThreshold(s: V.Store, order: Order, faults: set<Step>)
    requires s.instance.Some?
    requires V.SupportedCountry(order.country)
    requires s.instance.value.paymentType in V.KnownPaymentTypes
    requires Subtotal(order.items) > V.TariffThreshold
    ensures var v := V.Process(s, order, faults).run;
            var w := R.Process(R.OrderProcessor(PolicyFor(s.instance.value.paymentType, s.discount)), order, Propagating(faults));
            && v.order == w.order
            && (v.result.Ok? <==> w.result.Ok?)
            && (v.result.Ok? ==> v.result.value == V.TariffFactor * w.result.value)
            && |v.trace| == |w.trace|
            && (forall i :: 0 <= i < |v.trace| ==> StepOf(v.trace[i]) == StepOf(w.trace[i]))
  {
    var pt := s.instance.value.paymentType;
    var p := PolicyFor(pt, s.discount);
    var t := Subtotal(order.items);
    DiscountRulesAgree(pt, s.discount, t * V.TariffFactor);
    R.ApplyIsLinear(p, t, 0.0, V.TariffFactor);
    assert t * V.TariffFactor == V.TariffFactor * t;
    var v := V.Process(s, order, faults).run;
    var w := R.Process(R.OrderProcessor(p), order, Propagating(faults));
    var big := Pipeline(V.ApplyDiscount(pt, s.discount, V.CalcTotal(order.items)));
    var small := Pipeline(p.Apply(t));
    assert v.result.Ok? <==> w.result.Ok?;
    if v.result.Err? {
      assert v.result.error == w.result.error by {
        var a := v.result.error.step;
        var b := w.result.error.step;
        assert FirstFault(Propagating(faults), a) && FirstFault(Propagating(faults), b);
        assert StepIndex(a) == StepIndex(b);
      }
    }
    assert |v.trace| == |w.trace|;
    forall i | 0 <= i < |v.trace|
      ensures StepOf(v.trace[i]) == StepOf(w.trace[i])
    {
      assert v.trace[i] == big[i] && w.trace[i] == small[i];
      assert StepIndex(StepOf(big[i])) == i == StepIndex(StepOf(small[i]));
    }
  }

  /** Only the monolithic design checks the country: an order outside the
      whitelist is refused there before any collaborator call, while the
      refactored coordinator completes it. */
  lemma CountryCheckOnlyInMonolith(s: V.Store, order: Order, p: R.OrderProcessor)
    requires s.instance.Some?
    requires !V.SupportedCountry(order.country)
    ensures V.Process(s, order, {}).run.result == Err(UnsupportedCountry)
    ensures V.Process(s, order, {}).run.trace == []
    ensures R.Process(p, order, {}).result.Ok?
    ensures |R.Process(p, order, {}).trace| == 5
  {
  }

  /** An unknown payment type leaves the total unchanged in the monolithic
      discount step but is then refused at the charge, before anything is saved;
      its refactored counterpart is the identity policy, which completes. */
  lemma UnknownPaymentTypeOnlyFailsInMonolith(s: V.Store, order: Order)
    requires s.instance.Some?
    requires V.SupportedCountry(order.country)
    requires s.instance.value.paymentType !in V.KnownPaymentTypes
    ensures V.Process(s, order, {}).run.result == Err(UnknownPaymentType)
    ensures V.Process(s, order, {}).run.trace == []
    ensures PolicyFor(s.instance.value.paymentType, s.discount) == R.NoDiscount
    ensures R.Process(R.OrderProcessor(R.NoDiscount), order, {}).result == Ok(Subtotal(order.items))
  {
  }
}
