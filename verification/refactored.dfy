/** The refactored design: an `Order` entity, four interchangeable discount
    policies, and a coordinator that totals the items, applies the injected
    policy and calls five injected collaborators in a fixed order.
    Collaborators are abstract: a run is told which of them raise (`faults`)
    and records the calls it starts as events.
 */
module Refactored {
  import opened Orders

  /** The discount strategies; each is a pure function of the total. */
  datatype DiscountPolicy = NoDiscount | PaypalDiscount | CreditCardFee | PromoDiscount(rate: real)
  {
    function Apply(total: real): (r: real)
      ensures NoDiscount? ==> r == total
      ensures PaypalDiscount? && total > 0.0 ==> r < total
      ensures CreditCardFee? && total > 0.0 ==> r > total
      ensures PromoDiscount? && 0.0 <= rate <= 1.0 && total >= 0.0 ==> 0.0 <= r <= total
      ensures total == 0.0 ==> r == 0.0
      ensures PaypalDiscount? ==> total - r == 0.02 * total
      ensures CreditCardFee? ==> r - total == 0.02 * total
      ensures PromoDiscount? ==> total - r == rate * total
    {
      match this
      case NoDiscount => total
      case PaypalDiscount => total * 0.98
      case CreditCardFee => total * 1.02
      case PromoDiscount(rate) =>
        assert total * (1.0 - rate) == total - rate * total;
        assert 0.0 <= rate <= 1.0 && total >= 0.0 ==> 0.0 <= rate * total <= total * 1.0;
        total * (1.0 - rate)
    }
  }

  /** Every policy is linear: discounting a sum is summing the discounts, and
      scaling before or after the policy is the same. */
  lemma ApplyIsLinear(p: DiscountPolicy, a: real, b: real, k: real)
    ensures p.Apply(a + b) == p.Apply(a) + p.Apply(b)
    ensures p.Apply(k * a) == k * p.Apply(a)
  {
  }

  /** Discounting a whole order equals discounting its two halves separately. */
  lemma DiscountOfSplitOrder(p: DiscountPolicy, a: seq<Item>, b: seq<Item>)
    ensures p.Apply(Subtotal(a + b)) == p.Apply(Subtotal(a)) + p.Apply(Subtotal(b))
  {
    SubtotalAppend(a, b);
    ApplyIsLinear(p, Subtotal(a), Subtotal(b), 1.0);
  }

  /** The worked example: one line of price 10 and quantity 2 under each policy. */
  lemma PolicyExamples()
    ensures var t := Subtotal([Item(10.0, Some(2))]);
            && t == 20.0
            && NoDiscount.Apply(t) == 20.0
            && PaypalDiscount.Apply(t) == 19.6
            && CreditCardFee.Apply(t) == 20.4
            && PromoDiscount(0.1).Apply(t) == 18.0
  {
  }

  /** A new order: status `new`, every other field as given. */
  function NewOrder(id: string, email: string, items: seq<Item>, country: Option<string>): (o: Order)
    ensures o.status == New
    ensures o.id == id && o.email == email && o.items == items && o.country == country
  {
    Order(id, email, items, country, New)
  }

  /** The coordinator. Its collaborators hold no state the model can see; only
      the discount policy influences the result. */
  datatype OrderProcessor = OrderProcessor(discountPolicy: DiscountPolicy)

  /** One call of `process`. The status is `processing` from the start; it
      becomes `done` only when all five collaborators have returned. The first
      collaborator that raises stops the run, its error propagates, no later
      collaborator is called and nothing is rolled back. */
  function Process(p: OrderProcessor, order: Order, faults: set<Step>): (r: Run)
    ensures r.order == order.(status := if r.result.Ok? then Done else Processing)
    ensures r.result.Ok? <==> faults == {}
    ensures r.result.Ok? ==>
              && r.result.value == p.discountPolicy.Apply(Subtotal(order.items))
              && r.trace == Pipeline(r.result.value)
    ensures r.result.Err? ==>
              && r.result.error.CollaboratorFailed?
              && FirstFault(faults, r.result.error.step)
              && r.trace == Pipeline(p.discountPolicy.Apply(Subtotal(order.items)))[..StepIndex(r.result.error.step) + 1]
  {
    var processing := order.(status := Processing);
    var total := p.discountPolicy.Apply(ItemsTotal(order.items));
    var d := Dispatch(Pipeline(total), faults);
    DispatchPipeline(total, faults);
    match d.failed
    case None => Run(processing.(status := Done), Ok(total), d.trace)
    case Some(s) => Run(processing, Err(CollaboratorFailed(s)), d.trace)
  }

  /** Each collaborator is called at most once and in pipeline order; on
      success all five are called, and charge, save and notify receive the
      returned total. */
  lemma CallsInPipelineOrder(p: OrderProcessor, order: Order, faults: set<Step>)
    ensures var r := Process(p, order, faults);
            && (forall i, j :: 0 <= i < j < |r.trace| ==> StepIndex(StepOf(r.trace[i])) < StepIndex(StepOf(r.trace[j])))
            && (r.result.Ok? ==> |r.trace| == 5)
            && (forall i :: 0 <= i < |r.trace| && !r.trace[i].Track? && !r.trace[i].Backup? ==>
                  r.trace[i].amount == p.discountPolicy.Apply(Subtotal(order.items)))
  {
    var r := Process(p, order, faults);
    var calls := Pipeline(p.discountPolicy.Apply(Subtotal(order.items)));
    assert |r.trace| <= |calls|;
    assert forall i :: 0 <= i < |r.trace| ==> r.trace[i] == calls[i];
  }

  /** The result depends only on the items, the policy and the faults: there is
      no country check, so changing the country changes nothing but that field. */
  lemma ProcessIgnoresCountry(p: OrderProcessor, order: Order, country: Option<string>, faults: set<Step>)
    ensures Process(p, order.(country := country), faults).result == Process(p, order, faults).result
    ensures Process(p, order.(country := country), faults).trace == Process(p, order, faults).trace
  {
  }

  /** A freshly built order goes `new -> processing -> done` in one call when no
      collaborator fails, and otherwise stays `processing`; it never returns to `new`. */
  lemma FreshOrderLifecycle(p: OrderProcessor, id: string, email: string, items: seq<Item>,
                            country: Option<string>, faults: set<Step>)
    ensures var o := NewOrder(id, email, items, country);
            var r := Process(p, o, faults);
            && o.status == New
            && r.order.status != New
            && (r.order.status == Done <==> faults == {})
            && r.order.(status := New) == o
  {
  }
}
