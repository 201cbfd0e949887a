/** Shared vocabulary of both order-processing variants: line items, orders and
    their status, the five collaborator steps, the events a run emits, and the
    item total Σ price × quantity.
 */
module Orders {

  datatype Option<+T> = None | Some(value: T)

  datatype Result<+T, +E> = Ok(value: T) | Err(error: E)

  /** A line item; a missing quantity counts as 1. Prices are exact reals. */
  datatype Item = Item(price: real, quantity: Option<int>)

  /** The linear order life cycle `new -> processing -> done`. */
  datatype Status = New | Processing | Done

  /** An order; `country` is optional because the dictionary form of an order may lack the key. */
  datatype Order = Order(id: string, email: string, items: seq<Item>, country: Option<string>, status: Status)

  /** The five collaborator steps of a run. */
  datatype Step = ChargeStep | SaveStep | NotifyStep | TrackStep | BackupStep

  /** A collaborator call that was started, with the total it was handed. */
  datatype Event = Charge(amount: real) | Save(amount: real) | Notify(amount: real) | Track | Backup

  /** Why a run stopped early. */
  datatype Failure = UnsupportedCountry | UnknownPaymentType | CollaboratorFailed(step: Step)

  /** What one call of `process` leaves behind: the order after the call, the
      returned total or the raised error, and the collaborator calls made. */
  datatype Run = Run(order: Order, result: Result<real, Failure>, trace: seq<Event>)

  function Quantity(it: Item): int
  {
    match it.quantity
    case Some(n) => n
    case None => 1
  }

  function LineTotal(it: Item): real
  {
    it.price * Quantity(it) as real
  }

  /** Reference definition of the item total: Σ price × quantity. */
  function Subtotal(items: seq<Item>): real
  {
    if |items| == 0 then 0.0 else LineTotal(items[0]) + Subtotal(items[1..])
  }

  /** The left-to-right accumulation both variants perform: start from `acc` and
      add each line total in turn. */
  function SumFrom(items: seq<Item>, acc: real): (r: real)
    ensures r == acc + Subtotal(items)
    decreases |items|
  {
    if |items| == 0 then acc else SumFrom(items[1..], acc + LineTotal(items[0]))
  }

  /** The accumulation started from zero. */
  function ItemsTotal(items: seq<Item>): (r: real)
    ensures r == Subtotal(items)
  {
    SumFrom(items, 0.0)
  }

  lemma {:induction false} SubtotalAppend(a: seq<Item>, b: seq<Item>)
    ensures Subtotal(a + b) == Subtotal(a) + Subtotal(b)
  {
    if |a| == 0 {
      assert a + b == b;
    } else {
      assert (a + b)[1..] == a[1..] + b;
      SubtotalAppend(a[1..], b);
    }
  }

  lemma {:induction false} SubtotalNonNegative(items: seq<Item>)
    requires forall i :: 0 <= i < |items| ==> items[i].price >= 0.0 && Quantity(items[i]) >= 0
    ensures Subtotal(items) >= 0.0
  {
    if |items| > 0 {
      var it := items[0];
      assert it.price * Quantity(it) as real >= 0.0;
      SubtotalNonNegative(items[1..]);
    }
  }

  function StepOf(e: Event): Step
  {
    match e
    case Charge(_) => ChargeStep
    case Save(_) => SaveStep
    case Notify(_) => NotifyStep
    case Track => TrackStep
    case Backup => BackupStep
  }

  /** Position of a step in the fixed order charge, save, notify, track, backup. */
  function StepIndex(s: Step): (i: nat)
    ensures i < 5
  {
    match s
    case ChargeStep => 0
    case SaveStep => 1
    case NotifyStep => 2
    case TrackStep => 3
    case BackupStep => 4
  }

  /** The full sequence of collaborator calls for a run that charges `total`. */
  function Pipeline(total: real): (calls: seq<Event>)
    ensures |calls| == 5
    ensures forall i :: 0 <= i < |calls| ==> StepIndex(StepOf(calls[i])) == i
    ensures forall s :: StepOf(calls[StepIndex(s)]) == s
    ensures forall i :: 0 <= i < |calls| && !calls[i].Track? && !calls[i].Backup? ==> calls[i].amount == total
  {
    [Charge(total), Save(total), Notify(total), Track, Backup]
  }

  /** `s` is the earliest step of the pipeline that fails. */
  ghost predicate FirstFault(faults: set<Step>, s: Step)
  {
    s in faults && forall s' :: StepIndex(s') < StepIndex(s) ==> s' !in faults
  }

  datatype Dispatched = Dispatched(trace: seq<Event>, failed: Option<Step>)

  /** Starts the calls in order; the first call whose step is faulty raises, and
      no later call is started. */
  function Dispatch(calls: seq<Event>, faults: set<Step>): (d: Dispatched)
    ensures |d.trace| <= |calls| && d.trace == calls[..|d.trace|]
    ensures d.failed.None? <==> forall i :: 0 <= i < |calls| ==> StepOf(calls[i]) !in faults
    ensures d.failed.None? ==> d.trace == calls
    ensures d.failed.Some? ==>
              && |d.trace| > 0
              && StepOf(d.trace[|d.trace| - 1]) == d.failed.value
              && d.failed.value in faults
              && forall i :: 0 <= i < |d.trace| - 1 ==> StepOf(d.trace[i]) !in faults
    decreases |calls|
  {
    if |calls| == 0 then Dispatched([], None)
    else if StepOf(calls[0]) in faults then Dispatched([calls[0]], Some(StepOf(calls[0])))
    else
      var rest := Dispatch(calls[1..], faults);
      Dispatched([calls[0]] + rest.trace, rest.failed)
  }

  /** Dispatching the full pipeline: it completes exactly when no step is faulty,
      and otherwise stops right after the earliest faulty step. */
  lemma DispatchPipeline(total: real, faults: set<Step>)
    ensures Dispatch(Pipeline(total), faults).failed.None? <==> faults == {}
    ensures Dispatch(Pipeline(total), faults).failed.None? ==> Dispatch(Pipeline(total), faults).trace == Pipeline(total)
    ensures Dispatch(Pipeline(total), faults).failed.Some? ==>
              var s := Dispatch(Pipeline(total), faults).failed.value;
              && FirstFault(faults, s)
              && Dispatch(Pipeline(total), faults).trace == Pipeline(total)[..StepIndex(s) + 1]
  {
    var calls := Pipeline(total);
    var d := Dispatch(calls, faults);
    if d.failed.None? {
      forall s
        ensures s !in faults
      {
        assert StepOf(calls[StepIndex(s)]) == s;
      }
    } else {
      var s := d.failed.value;
      var n := |d.trace|;
      assert d.trace[n - 1] == calls[n - 1];
      assert StepIndex(s) == n - 1;
      forall s' | StepIndex(s') < StepIndex(s)
        ensures s' !in faults
      {
        assert d.trace[StepIndex(s')] == calls[StepIndex(s')];
      }
    }
  }
}
