/**
 * The customer's order-tracking page (frontend/src/pages/OrderTracking.tsx): the four-step
 * tracker, which steps are lit, the cash-at-counter panel, and the socket handler that patches
 * the loaded order's status.
 */
module Tracking {
  import opened Wrappers
  import opened Money
  import opened Models
  import opened Kitchen

  /** The tracker's steps, in order. */
  const STEPS: seq<string> := ["PAID", "PREPARING", "READY", "SERVED"]

  /** `steps.findIndex`: the position of `status` among the steps, or -1. */
  function StepIndex(steps: seq<string>, status: string): (i: int)
    ensures -1 <= i < |steps|
    ensures i >= 0 ==> steps[i] == status && forall j :: 0 <= j < i ==> steps[j] != status
    ensures i == -1 <==> status !in steps
  {
    if steps == [] then -1
    else if steps[0] == status then 0
    else
      var k := StepIndex(steps[1..], status);
      if k == -1 then -1 else k + 1
  }

  function CurrentIdx(status: string): int {
    StepIndex(STEPS, status)
  }

  /** Step `i` is lit when `i <= currentIdx`. */
  function Done(status: string): (d: seq<bool>)
    ensures |d| == |STEPS|
  {
    seq(|STEPS|, i => i <= CurrentIdx(status))
  }

  /** The lit steps are a prefix as long as the status's position plus one; a status off the tracker lights none. */
  lemma DonePrefix(status: string)
    ensures forall i :: 0 <= i < |STEPS| ==> (Done(status)[i] <==> i < CurrentIdx(status) + 1)
    ensures status !in STEPS ==> forall i :: 0 <= i < |STEPS| ==> !Done(status)[i]
    ensures status in STEPS ==> STEPS[CurrentIdx(status)] == status && Done(status)[CurrentIdx(status)]
  {
  }

  /** A freshly created order shows nothing lit; a served one shows everything lit. */
  lemma CreatedAndServed()
    ensures forall i :: 0 <= i < |STEPS| ==> !Done("CREATED")[i]
    ensures forall i :: 0 <= i < |STEPS| ==> Done("SERVED")[i]
  {
    assert CurrentIdx("SERVED") == 3;
  }

  /** The kitchen's advance button moves an order exactly one step along the customer's tracker. */
  lemma KitchenAdvancesOneStep(s: string)
    requires GetNext(s).Some?
    ensures CurrentIdx(GetNext(s).value) == CurrentIdx(s) + 1
  {
  }

  datatype TrackerView = CounterPanel | StepTracker(done: seq<bool>)

  /** PENDING_CASH shows the pay-at-counter panel instead of the tracker. */
  function View(status: string): (v: TrackerView)
    ensures v.CounterPanel? <==> status == "PENDING_CASH"
    ensures v.StepTracker? ==> v.done == Done(status)
  {
    if status == "PENDING_CASH" then CounterPanel else StepTracker(Done(status))
  }

  /** The parts of the loaded order the page shows. */
  datatype TrackedOrder = TrackedOrder(status: string, totalAmount: Paise, createdAt: Time, items: seq<OrderItem>)

  /** The page's state: the order id from the address and the loaded order, if any. */
  class TrackingPage {
    const orderId: string
    var order: Option<TrackedOrder>

    constructor(orderId: string, loaded: Option<TrackedOrder>)
      ensures this.orderId == orderId && order == loaded
    {
      this.orderId := orderId;
      order := loaded;
    }

    /** `order:statusUpdate`: applied only to this page's order and only when one is loaded; only the status changes. */
    method OnStatusUpdate(eventOrderId: string, status: string)
      modifies this
      ensures eventOrderId == orderId && old(order).Some? ==> order == Some(old(order).value.(status := status))
      ensures eventOrderId != orderId || old(order).None? ==> order == old(order)
    {
      if eventOrderId == orderId && order.Some? {
        order := Some(order.value.(status := status));
      }
    }
  }
}
