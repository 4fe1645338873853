/**
 * The payments route (backend/src/routes/payments.ts): creating a gateway payment for an
 * unpaid order (reusing a pending one), verifying a gateway payment, and confirming an order
 * for cash. The gateway's order id and the signature check come in as parameters.
 */
module PaymentsRoute {
  import opened Wrappers
  import opened Collections
  import opened Models
  import opened Money
  import opened Database

  /** The pending payment of an order, first in insertion order. */
  function PendingPayment(payments: map<Id, Payment>, n: Id, orderId: Id): (r: Option<Id>)
    requires IdsBelow(payments, n)
    ensures r.Some? ==> r.value in payments && payments[r.value].orderId == orderId && payments[r.value].status == Pending
    ensures r.None? <==> forall k :: k in payments ==> !(payments[k].orderId == orderId && payments[k].status == Pending)
  {
    FirstKey(payments, n, (p: Payment) => p.orderId == orderId && p.status == Pending)
  }

  /** The payment the gateway order id names, first in insertion order. */
  function PaymentByGatewayOrder(payments: map<Id, Payment>, n: Id, razorpayOrderId: string): (r: Option<Id>)
    requires IdsBelow(payments, n)
    ensures r.Some? ==> r.value in payments && payments[r.value].razorpayOrderId == razorpayOrderId
    ensures r.None? <==> forall k :: k in payments ==> payments[k].razorpayOrderId != razorpayOrderId
  {
    FirstKey(payments, n, (p: Payment) => p.razorpayOrderId == razorpayOrderId)
  }

  /** What the client is given to open the gateway's checkout. */
  datatype Checkout = Checkout(razorpayOrderId: string, amount: Paise, currency: string)

  /**
   * POST /payments/create. An unknown order is 404 and an order that is not CREATED is 400.
   * A pending payment of the order is handed out again; otherwise the gateway order
   * (`gatewayOrderId`, `None` when the gateway call fails) is recorded as one new PENDING
   * payment of the order's total. Amounts are already in paise, so `Math.round(amount * 100)`
   * is the stored amount itself.
   */
  method CreatePayment(store: Store, orderId: Id, gatewayOrderId: Option<string>) returns (code: int, checkout: Option<Checkout>)
    requires store.Valid()
    modifies store
    ensures store.Valid()
    ensures orderId !in old(store.orders) ==> code == 404 && checkout == None && unchanged(store)
    ensures orderId in old(store.orders) && old(store.orders)[orderId].status != Created ==>
      code == 400 && checkout == None && unchanged(store)
    ensures (orderId in old(store.orders) && old(store.orders)[orderId].status == Created
             && PendingPayment(old(store.payments), old(store.nextId), orderId).Some?) ==>
      var p := old(store.payments)[PendingPayment(old(store.payments), old(store.nextId), orderId).value];
      code == 200 && checkout == Some(Checkout(p.razorpayOrderId, p.amount, "INR")) && unchanged(store)
    ensures (orderId in old(store.orders) && old(store.orders)[orderId].status == Created
             && PendingPayment(old(store.payments), old(store.nextId), orderId).None?) ==>
      if gatewayOrderId.None? then code == 500 && checkout == None && unchanged(store)
      else
        && code == 200
        && checkout == Some(Checkout(gatewayOrderId.value, old(store.orders)[orderId].totalAmount, "INR"))
        && store.payments == old(store.payments)[old(store.nextId) :=
             NewPayment(orderId, gatewayOrderId.value, old(store.orders)[orderId].totalAmount, Pending)]
        && store.nextId == old(store.nextId) + 1
        && store.orders == old(store.orders) && store.sessions == old(store.sessions)
        && store.tables == old(store.tables) && store.menu == old(store.menu) && store.events == old(store.events)
  {
    if orderId !in store.orders {
      return 404, None;
    }
    var order := store.orders[orderId];
    if order.status != Created {
      return 400, None;
    }
    var existing := PendingPayment(store.payments, store.nextId, orderId);
    if existing.Some? {
      var p := store.payments[existing.value];
      return 200, Some(Checkout(p.razorpayOrderId, p.amount, "INR"));
    }
    if gatewayOrderId.None? {
      return 500, None;
    }
    var id := store.FreshId();
    store.payments := store.payments[id := NewPayment(orderId, gatewayOrderId.value, order.totalAmount, Pending)];
    return 200, Some(Checkout(gatewayOrderId.value, order.totalAmount, "INR"));
  }

  /**
   * POST /payments/verify. A bad signature is 400. The payment found by the gateway order id
   * alone becomes SUCCESS with the gateway's payment id and signature (404 if there is none).
   * Then the order named in the request, whatever its status and whichever order the payment
   * belongs to, is set PAID with that payment, and the kitchen is told; an unknown order id
   * still answers 200.
   */
  method VerifyPayment(store: Store, orderId: Id, razorpayOrderId: string, razorpayPaymentId: string,
                       razorpaySignature: string, signatureValid: bool)
    returns (code: int, paymentId: Option<Id>)
    requires store.Valid()
    modifies store
    ensures store.Valid()
    ensures !signatureValid ==> code == 400 && paymentId == None && unchanged(store)
    ensures signatureValid && PaymentByGatewayOrder(old(store.payments), old(store.nextId), razorpayOrderId).None? ==>
      code == 404 && paymentId == None && unchanged(store)
    ensures signatureValid && PaymentByGatewayOrder(old(store.payments), old(store.nextId), razorpayOrderId).Some? ==>
      var pid := PaymentByGatewayOrder(old(store.payments), old(store.nextId), razorpayOrderId).value;
      && code == 200 && paymentId == Some(pid)
      && store.payments == old(store.payments)[pid := old(store.payments)[pid].(
           razorpayPaymentId := Some(razorpayPaymentId), razorpaySignature := Some(razorpaySignature), status := Success)]
      && (orderId in old(store.orders) ==>
            && store.orders == old(store.orders)[orderId := old(store.orders)[orderId].(status := Paid, paymentId := Some(pid))]
            && store.events == old(store.events) + [OrderNew(orderId), StatusUpdate(orderId, Paid)])
      && (orderId !in old(store.orders) ==> store.orders == old(store.orders) && store.events == old(store.events))
      && store.sessions == old(store.sessions) && store.tables == old(store.tables)
      && store.menu == old(store.menu) && store.nextId == old(store.nextId)
  {
    if !signatureValid {
      return 400, None;
    }
    var found := PaymentByGatewayOrder(store.payments, store.nextId, razorpayOrderId);
    if found.None? {
      return 404, None;
    }
    var pid := found.value;
    PaymentSucceededKeepsInvariants(store.payments, store.orders, store.nextId, pid, razorpayPaymentId, razorpaySignature);
    store.payments := store.payments[pid := store.payments[pid].(
      razorpayPaymentId := Some(razorpayPaymentId), razorpaySignature := Some(razorpaySignature), status := Success)];
    if orderId in store.orders {
      var o := store.orders[orderId];
      OrderUpdateKeepsInvariants(store.orders, store.payments, store.nextId, orderId, Paid, Some(pid), o.paymentMethod);
      assert o.(status := Paid, paymentId := Some(pid), paymentMethod := o.paymentMethod) == o.(status := Paid, paymentId := Some(pid));
      store.orders := store.orders[orderId := o.(status := Paid, paymentId := Some(pid))];
      store.events := store.events + [OrderNew(orderId), StatusUpdate(orderId, Paid)];
    }
    return 200, Some(pid);
  }

  /**
   * POST /payments/cash. An unknown order is 404 and an order that is not CREATED is 400.
   * Otherwise the order is set PAID with method CASH (PENDING_CASH is never written) and the
   * kitchen is told.
   */
  method ConfirmCash(store: Store, orderId: Id) returns (code: int)
    requires store.Valid()
    modifies store
    ensures store.Valid()
    ensures orderId !in old(store.orders) ==> code == 404 && unchanged(store)
    ensures orderId in old(store.orders) && old(store.orders)[orderId].status != Created ==> code == 400 && unchanged(store)
    ensures orderId in old(store.orders) && old(store.orders)[orderId].status == Created ==>
      && code == 200
      && store.orders == old(store.orders)[orderId := old(store.orders)[orderId].(status := Paid, paymentMethod := Cash)]
      && store.events == old(store.events) + [OrderNew(orderId), StatusUpdate(orderId, Paid)]
      && store.payments == old(store.payments) && store.sessions == old(store.sessions)
      && store.tables == old(store.tables) && store.menu == old(store.menu) && store.nextId == old(store.nextId)
  {
    if orderId !in store.orders {
      return 404;
    }
    if store.orders[orderId].status != Created {
      return 400;
    }
    var o := store.orders[orderId];
    OrderUpdateKeepsInvariants(store.orders, store.payments, store.nextId, orderId, Paid, o.paymentId, Cash);
    assert o.(status := Paid, paymentId := o.paymentId, paymentMethod := Cash) == o.(status := Paid, paymentMethod := Cash);
    store.orders := store.orders[orderId := o.(status := Paid, paymentMethod := Cash)];
    store.events := store.events + [OrderNew(orderId), StatusUpdate(orderId, Paid)];
    return 200;
  }

  /** A second cash confirmation of the same order is refused: the first one left it PAID. */
  method ConfirmCashTwice(store: Store, orderId: Id) returns (first: int, second: int)
    requires store.Valid()
    modifies store
    ensures store.Valid()
    ensures first == 200 ==> second == 400
    ensures first != 200 ==> second == first
    ensures store.events == old(store.events) + (if first == 200 then [OrderNew(orderId), StatusUpdate(orderId, Paid)] else [])
  {
    first := ConfirmCash(store, orderId);
    second := ConfirmCash(store, orderId);
  }
}
