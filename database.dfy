/**
 * The backend's five collections held in memory. Every document gets a fresh id from one
 * counter, so the keys below `nextId` listed in increasing order are the collection's
 * natural (insertion) order. `Valid` collects the facts the route handlers rely on and keep.
 */
module Database {
  import opened Wrappers
  import opened Models
  import opened Pricing

  /** A real-time notification: `order:new` to the kitchen room, `order:statusUpdate` to the kitchen and the order's room. */
  datatype Event = OrderNew(orderId: Id) | StatusUpdate(orderId: Id, status: OrderStatus)

  ghost predicate IdsBelow<V>(m: map<Id, V>, n: Id) {
    forall k :: k in m ==> k < n
  }

  /** The unique index on `tableNumber`. */
  ghost predicate UniqueTableNumbers(tables: map<Id, Table>) {
    forall a, b :: a in tables && b in tables && tables[a].tableNumber == tables[b].tableNumber ==> a == b
  }

  /** The unique index on `sessionToken`. */
  ghost predicate UniqueTokens(sessions: map<Id, TableSession>) {
    forall a, b :: a in sessions && b in sessions && sessions[a].sessionToken == sessions[b].sessionToken ==> a == b
  }

  /** Sessions are only ever upserted by table, so a table has at most one. */
  ghost predicate OneSessionPerTable(sessions: map<Id, TableSession>) {
    forall a, b :: a in sessions && b in sessions && sessions[a].tableId == sessions[b].tableId ==> a == b
  }

  ghost predicate TokensGenerated(sessions: map<Id, TableSession>) {
    forall k :: k in sessions ==> IsSessionToken(sessions[k].sessionToken)
  }

  /** The one-unpaid-order-per-table rule. */
  ghost predicate OneCreatedPerTable(orders: map<Id, Order>) {
    forall a, b ::
      (a in orders && b in orders && orders[a].status == Created && orders[b].status == Created
       && orders[a].tableId == orders[b].tableId) ==> a == b
  }

  /** What order creation guarantees of every stored order: sanitised lines and server-side amounts. */
  ghost predicate WellFormedOrder(o: Order) {
    && o.items != []
    && (forall i :: 0 <= i < |o.items| ==> 1 <= o.items[i].quantity <= 99 && |o.items[i].specialInstructions| <= 500)
    && |o.customerName| <= 100
    && |o.customerPhone| <= 20
    && PricedFromLines(o)
  }

  /** PENDING_CASH is declared by the schema but no route writes it. */
  ghost predicate NoPendingCash(orders: map<Id, Order>) {
    forall k :: k in orders ==> orders[k].status != PendingCash
  }

  ghost predicate OrdersWellFormed(orders: map<Id, Order>) {
    forall k :: k in orders ==> WellFormedOrder(orders[k])
  }

  /** Every payment belongs to a stored order and charges that order's total. */
  ghost predicate PaymentsMatchOrders(payments: map<Id, Payment>, orders: map<Id, Order>) {
    forall k :: k in payments ==> payments[k].orderId in orders && payments[k].amount == orders[payments[k].orderId].totalAmount
  }

  /** `/create` reuses a pending payment, so an order has at most one. */
  ghost predicate OnePendingPerOrder(payments: map<Id, Payment>) {
    forall a, b ::
      (a in payments && b in payments && payments[a].status == Pending && payments[b].status == Pending
       && payments[a].orderId == payments[b].orderId) ==> a == b
  }

  /** The routes write PENDING and SUCCESS, never FAILED. */
  ghost predicate NoFailedPayments(payments: map<Id, Payment>) {
    forall k :: k in payments ==> payments[k].status != Failed
  }

  class Store {
    var tables: map<Id, Table>
    var sessions: map<Id, TableSession>
    var menu: map<Id, MenuItem>
    var orders: map<Id, Order>
    var payments: map<Id, Payment>
    /** The next fresh document id. */
    var nextId: Id
    /** The notifications emitted so far. */
    ghost var events: seq<Event>

    ghost predicate Valid()
      reads this
    {
      && IdsBelow(tables, nextId) && IdsBelow(sessions, nextId) && IdsBelow(menu, nextId)
      && IdsBelow(orders, nextId) && IdsBelow(payments, nextId)
      && UniqueTableNumbers(tables)
      && UniqueTokens(sessions) && OneSessionPerTable(sessions) && TokensGenerated(sessions)
      && OneCreatedPerTable(orders) && OrdersWellFormed(orders) && NoPendingCash(orders)
      && PaymentsMatchOrders(payments, orders) && OnePendingPerOrder(payments) && NoFailedPayments(payments)
    }

    /** An empty database. */
    constructor()
      ensures Valid()
      ensures tables == map[] && sessions == map[] && menu == map[] && orders == map[] && payments == map[]
      ensures events == []
    {
      tables, sessions, menu, orders, payments := map[], map[], map[], map[], map[];
      nextId := 0;
      events := [];
    }

    /** Hands out a fresh id. */
    method FreshId() returns (id: Id)
      modifies this
      ensures id == old(nextId) && nextId == id + 1
      ensures tables == old(tables) && sessions == old(sessions) && menu == old(menu)
      ensures orders == old(orders) && payments == old(payments) && events == old(events)
    {
      id := nextId;
      nextId := nextId + 1;
    }

    /**
     * `Order.create` followed by `session.save()`: stores a CREATED order under a fresh id and
     * extends the session it was placed in.
     */
    method SaveNewOrder(o: Order, sid: Id, now: Time) returns (id: Id)
      requires Valid() && WellFormedOrder(o) && o.status == Created && sid in sessions
      requires forall k :: k in orders ==> !(orders[k].status == Created && orders[k].tableId == o.tableId)
      modifies this
      ensures Valid()
      ensures id == old(nextId) && nextId == id + 1
      ensures orders == old(orders)[id := o]
      ensures sessions == old(sessions)[sid := old(sessions)[sid].(lastActivityAt := now, expiresAt := now + SESSION_DURATION)]
      ensures tables == old(tables) && menu == old(menu) && payments == old(payments) && events == old(events)
    {
      id := nextId;
      assert id !in orders && id !in payments;
      orders := orders[id := o];
      sessions := sessions[sid := sessions[sid].(lastActivityAt := now, expiresAt := now + SESSION_DURATION)];
      nextId := nextId + 1;
    }
  }

  /**
   * Changing an order's status to one that is neither CREATED nor PENDING_CASH, together with
   * its payment fields, keeps every order and payment invariant.
   */
  lemma OrderUpdateKeepsInvariants(orders: map<Id, Order>, payments: map<Id, Payment>, n: Id, id: Id,
                                   status: OrderStatus, paymentId: Option<Id>, paymentMethod: PaymentMethod)
    requires id in orders && status != Created && status != PendingCash
    requires IdsBelow(orders, n) && OneCreatedPerTable(orders) && OrdersWellFormed(orders) && NoPendingCash(orders)
    requires PaymentsMatchOrders(payments, orders)
    ensures var o' := orders[id := orders[id].(status := status, paymentId := paymentId, paymentMethod := paymentMethod)];
      IdsBelow(o', n) && OneCreatedPerTable(o') && OrdersWellFormed(o') && NoPendingCash(o')
      && PaymentsMatchOrders(payments, o')
  {
    var o' := orders[id := orders[id].(status := status, paymentId := paymentId, paymentMethod := paymentMethod)];
    assert forall k :: k in o' ==> o'[k].totalAmount == orders[k].totalAmount;
  }

  /** Marking a payment SUCCESS keeps every payment invariant. */
  lemma PaymentSucceededKeepsInvariants(payments: map<Id, Payment>, orders: map<Id, Order>, n: Id, pid: Id,
                                        paymentId: string, signature: string)
    requires pid in payments
    requires IdsBelow(payments, n) && PaymentsMatchOrders(payments, orders) && OnePendingPerOrder(payments)
    requires NoFailedPayments(payments)
    ensures var p' := payments[pid := payments[pid].(razorpayPaymentId := Some(paymentId),
                                                     razorpaySignature := Some(signature), status := Success)];
      IdsBelow(p', n) && PaymentsMatchOrders(p', orders) && OnePendingPerOrder(p') && NoFailedPayments(p')
  {
  }
}
