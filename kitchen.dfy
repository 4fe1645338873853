/**
 * The kitchen dashboard's order list (frontend/src/pages/kitchen/Dashboard.tsx): the next status
 * of the advance button, the socket-event reducers that replace the list, the local removal after
 * serving, and the per-status counters.
 */
module Kitchen {
  import opened Wrappers
  import opened Collections
  import opened Models

  /** An order as the dashboard holds it; the status is the string the server sent. */
  datatype KitchenOrder = KitchenOrder(id: string, tableNumber: Option<int>, items: seq<OrderItem>, status: string, createdAt: Time)

  /** `getNext`: PAID, PREPARING and READY each advance one step; nothing else has a successor, so no button is shown. */
  function GetNext(s: string): (r: Option<string>)
    ensures r.Some? <==> s in ["PAID", "PREPARING", "READY"]
    ensures r.Some? ==> ParseStatus(r.value).Some? && ParseStatus(s).Some?
  {
    if s == "PAID" then Some("PREPARING")
    else if s == "PREPARING" then Some("READY")
    else if s == "READY" then Some("SERVED")
    else None
  }

  /** Three presses of the advance button take a new order to SERVED, which ends the chain. */
  lemma NextChain()
    ensures GetNext("PAID") == Some("PREPARING")
    ensures GetNext("PREPARING") == Some("READY")
    ensures GetNext("READY") == Some("SERVED")
    ensures GetNext("SERVED") == None
  {
  }

  // ----- List reducers -----

  /** `order:new`: the new order goes first. */
  function OrderArrived(prev: seq<KitchenOrder>, o: KitchenOrder): (r: seq<KitchenOrder>)
    ensures |r| == |prev| + 1 && r[0] == o && r[1..] == prev
  {
    [o] + prev
  }

  function Relabeled(o: KitchenOrder, id: string, status: string): KitchenOrder {
    if o.id == id then o.(status := status) else o
  }

  /** The orders of `prev` with the one named `id` given `status`, in the same order. */
  function Relabel(prev: seq<KitchenOrder>, id: string, status: string): (r: seq<KitchenOrder>)
    ensures |r| == |prev|
    ensures forall i :: 0 <= i < |prev| ==> r[i] == Relabeled(prev[i], id, status)
  {
    if prev == [] then [] else [Relabeled(prev[0], id, status)] + Relabel(prev[1..], id, status)
  }

  predicate Unserved(o: KitchenOrder) {
    o.status != "SERVED"
  }

  /** `order:statusUpdate`: the matching order takes the new status, then every SERVED order leaves the list; the rest keep their order. */
  function StatusUpdated(prev: seq<KitchenOrder>, id: string, status: string): (r: seq<KitchenOrder>)
    ensures forall o :: o in r ==> o.status != "SERVED"
    ensures forall i :: 0 <= i < |prev| && Unserved(Relabeled(prev[i], id, status)) ==> Relabeled(prev[i], id, status) in r
    ensures forall o :: o in r ==> exists i :: 0 <= i < |prev| && o == Relabeled(prev[i], id, status)
    ensures status == "SERVED" ==> forall o :: o in r ==> o.id != id
    ensures IsSubsequence(r, Relabel(prev, id, status))
  {
    var relabeled := Relabel(prev, id, status);
    assert forall i :: 0 <= i < |prev| ==> relabeled[i] == Relabeled(prev[i], id, status);
    FilterIsSubsequence(relabeled, Unserved);
    Filter(relabeled, Unserved)
  }

  function OtherId(id: string): KitchenOrder -> bool {
    (o: KitchenOrder) => o.id != id
  }

  /** `handleUpdate` after the server call: SERVED removes that order locally; any other status leaves the list as it is. */
  function AfterHandleUpdate(prev: seq<KitchenOrder>, id: string, status: string): (r: seq<KitchenOrder>)
    ensures status != "SERVED" ==> r == prev
    ensures status == "SERVED" ==> (forall o :: o in r <==> o in prev && o.id != id) && IsSubsequence(r, prev)
  {
    if status == "SERVED" then
      FilterIsSubsequence(prev, OtherId(id));
      Filter(prev, OtherId(id))
    else prev
  }

  /**
   * Serving an order removes it locally and the server then broadcasts the SERVED update to the
   * same room; applying that echo to the already-shortened list gives what the echo alone gives.
   */
  lemma {:induction false} ServedEchoAgrees(prev: seq<KitchenOrder>, id: string)
    ensures StatusUpdated(AfterHandleUpdate(prev, id, "SERVED"), id, "SERVED") == StatusUpdated(prev, id, "SERVED")
  {
    if prev != [] {
      var p, rest := prev[0], prev[1..];
      ServedEchoAgrees(rest, id);
      var h := Filter(rest, OtherId(id));
      assert Relabel(prev, id, "SERVED") == [Relabeled(p, id, "SERVED")] + Relabel(rest, id, "SERVED");
      assert Filter(prev, OtherId(id)) == (if p.id != id then [p] else []) + h;
      if p.id == id {
        assert Filter(prev, OtherId(id)) == h;
        assert StatusUpdated(prev, id, "SERVED") == StatusUpdated(rest, id, "SERVED");
      } else {
        assert Filter(prev, OtherId(id)) == [p] + h;
        assert Relabel([p] + h, id, "SERVED") == [p] + Relabel(h, id, "SERVED");
        assert ([p] + h)[1..] == h;
        assert StatusUpdated([p] + h, id, "SERVED") ==
          (if Unserved(p) then [p] else []) + StatusUpdated(h, id, "SERVED");
        assert StatusUpdated(prev, id, "SERVED") ==
          (if Unserved(p) then [p] else []) + StatusUpdated(rest, id, "SERVED");
      }
    }
  }

  // ----- Counters -----

  /** The number of orders with status `s`, as each counter shows it. */
  function StatusCount(orders: seq<KitchenOrder>, s: string): (n: nat)
    ensures n <= |orders|
  {
    Count(orders, HasStatus(s))
  }

  function HasStatus(s: string): KitchenOrder -> bool {
    (o: KitchenOrder) => o.status == s
  }

  /** The three counters: new (PAID), cooking (PREPARING) and ready (READY). */
  function Stats(orders: seq<KitchenOrder>): (r: seq<nat>)
    ensures |r| == 3
  {
    [StatusCount(orders, "PAID"), StatusCount(orders, "PREPARING"), StatusCount(orders, "READY")]
  }

  /** On a list of kitchen statuses only, the three counters add up to the number of cards. */
  lemma {:induction false} StatsCoverList(orders: seq<KitchenOrder>)
    requires forall i :: 0 <= i < |orders| ==> orders[i].status in ["PAID", "PREPARING", "READY"]
    ensures Stats(orders)[0] + Stats(orders)[1] + Stats(orders)[2] == |orders|
  {
    if orders != [] {
      StatsCoverList(orders[1..]);
      FilterCons(orders[0], orders[1..], HasStatus("PAID"));
      FilterCons(orders[0], orders[1..], HasStatus("PREPARING"));
      FilterCons(orders[0], orders[1..], HasStatus("READY"));
      assert [orders[0]] + orders[1..] == orders;
    }
  }

  /** A new order adds one to its own status's counter and leaves the others. */
  lemma ArrivalCounts(prev: seq<KitchenOrder>, o: KitchenOrder, s: string)
    ensures StatusCount(OrderArrived(prev, o), s) == StatusCount(prev, s) + (if o.status == s then 1 else 0)
  {
    FilterCons(o, prev, HasStatus(s));
  }

  /** The dashboard's list state. */
  class KitchenBoard {
    var orders: seq<KitchenOrder>

    /** The list starts as the kitchen listing fetched from the server. */
    constructor(fetched: seq<KitchenOrder>)
      ensures orders == fetched
    {
      orders := fetched;
    }

    method OnOrderNew(o: KitchenOrder)
      modifies this
      ensures orders == OrderArrived(old(orders), o)
    {
      orders := OrderArrived(orders, o);
    }

    method OnStatusUpdate(id: string, status: string)
      modifies this
      ensures orders == StatusUpdated(old(orders), id, status)
    {
      orders := StatusUpdated(orders, id, status);
    }

    /** The local part of `handleUpdate`; the server call itself is the status route. */
    method HandleUpdate(id: string, status: string)
      modifies this
      ensures orders == AfterHandleUpdate(old(orders), id, status)
    {
      orders := AfterHandleUpdate(orders, id, status);
    }

    /** The button press followed by the server's echo leaves the list the echo alone would. */
    method ServeThenEcho(id: string)
      modifies this
      ensures orders == StatusUpdated(old(orders), id, "SERVED")
    {
      ghost var before := orders;
      HandleUpdate(id, "SERVED");
      OnStatusUpdate(id, "SERVED");
      ServedEchoAgrees(before, id);
    }
  }
}
