/**
 * The cleanup job (backend/src/jobs/cleanup.ts): one sweep expires the ACTIVE sessions whose
 * expiry has passed and cancels the CREATED orders older than 15 minutes. The clock reading
 * is a parameter; the five-minute timer is not modelled.
 */
module Cleanup {
  import opened Models
  import opened Database
  import opened OrdersRoute

  const ORDER_TIMEOUT: int := 15 * MINUTE

  predicate SessionLapsed(s: TableSession, now: Time) {
    s.status == Active && s.expiresAt < now
  }

  predicate OrderAbandoned(o: Order, now: Time) {
    o.status == Created && o.createdAt < now - ORDER_TIMEOUT
  }

  /** Step 1: every lapsed session becomes EXPIRED; every other session is unchanged. */
  function ExpireSessions(sessions: map<Id, TableSession>, now: Time): (r: map<Id, TableSession>)
    ensures r.Keys == sessions.Keys
    ensures forall k :: k in sessions && SessionLapsed(sessions[k], now) ==> r[k] == sessions[k].(status := Expired)
    ensures forall k :: k in sessions && !SessionLapsed(sessions[k], now) ==> r[k] == sessions[k]
  {
    map k | k in sessions :: if SessionLapsed(sessions[k], now) then sessions[k].(status := Expired) else sessions[k]
  }

  /** Step 2: every abandoned order becomes CANCELLED; orders in other statuses, and younger ones, are unchanged. */
  function CancelAbandoned(orders: map<Id, Order>, now: Time): (r: map<Id, Order>)
    ensures r.Keys == orders.Keys
    ensures forall k :: k in orders && OrderAbandoned(orders[k], now) ==> r[k] == orders[k].(status := Cancelled)
    ensures forall k :: k in orders && !OrderAbandoned(orders[k], now) ==> r[k] == orders[k]
  {
    map k | k in orders :: if OrderAbandoned(orders[k], now) then orders[k].(status := Cancelled) else orders[k]
  }

  /** After a sweep no session is lapsed and no order is abandoned, so a second sweep at the same time changes nothing. */
  lemma SweepIdempotent(sessions: map<Id, TableSession>, orders: map<Id, Order>, now: Time)
    ensures ExpireSessions(ExpireSessions(sessions, now), now) == ExpireSessions(sessions, now)
    ensures CancelAbandoned(CancelAbandoned(orders, now), now) == CancelAbandoned(orders, now)
  {
    var s1 := ExpireSessions(sessions, now);
    assert forall k :: k in s1 ==> !SessionLapsed(s1[k], now);
    var o1 := CancelAbandoned(orders, now);
    assert forall k :: k in o1 ==> !OrderAbandoned(o1[k], now);
  }

  /**
   * A session expiring exactly now is left ACTIVE by the sweep, yet order creation and
   * session validation already refuse it, since they want an expiry strictly after now.
   */
  lemma ExpiryBoundary(s: TableSession, now: Time, tableId: Id, token: string)
    requires s.status == Active && s.expiresAt == now
    ensures !SessionLapsed(s, now)
    ensures !SessionMatches(s, tableId, token, now)
  {
  }

  /** `runCleanup`: both steps, with `now` the sweep's clock reading. */
  method RunCleanup(store: Store, now: Time)
    requires store.Valid()
    modifies store
    ensures store.Valid()
    ensures store.sessions == ExpireSessions(old(store.sessions), now)
    ensures store.orders == CancelAbandoned(old(store.orders), now)
    ensures store.tables == old(store.tables) && store.menu == old(store.menu)
    ensures store.payments == old(store.payments) && store.nextId == old(store.nextId) && store.events == old(store.events)
  {
    ExpireKeepsInvariants(store.sessions, store.nextId, now);
    CancelKeepsInvariants(store.orders, store.payments, store.nextId, now);
    store.sessions := ExpireSessions(store.sessions, now);
    store.orders := CancelAbandoned(store.orders, now);
  }

  /** Expiring sessions changes only statuses, so tokens and tables stay unique. */
  lemma ExpireKeepsInvariants(sessions: map<Id, TableSession>, n: Id, now: Time)
    requires IdsBelow(sessions, n) && UniqueTokens(sessions) && OneSessionPerTable(sessions) && TokensGenerated(sessions)
    ensures var r := ExpireSessions(sessions, now);
      IdsBelow(r, n) && UniqueTokens(r) && OneSessionPerTable(r) && TokensGenerated(r)
  {
    var r := ExpireSessions(sessions, now);
    assert forall k :: k in r ==> r[k].sessionToken == sessions[k].sessionToken && r[k].tableId == sessions[k].tableId;
  }

  /** Cancelling only turns CREATED orders into CANCELLED ones and keeps their amounts. */
  lemma CancelKeepsInvariants(orders: map<Id, Order>, payments: map<Id, Payment>, n: Id, now: Time)
    requires IdsBelow(orders, n) && OneCreatedPerTable(orders) && OrdersWellFormed(orders) && NoPendingCash(orders)
    requires PaymentsMatchOrders(payments, orders)
    ensures var r := CancelAbandoned(orders, now);
      IdsBelow(r, n) && OneCreatedPerTable(r) && OrdersWellFormed(r) && NoPendingCash(r) && PaymentsMatchOrders(payments, r)
  {
    var r := CancelAbandoned(orders, now);
    assert forall k :: k in r ==> r[k] == orders[k].(status := r[k].status);
    assert forall k :: k in r && r[k].status == Created ==> orders[k].status == Created;
    assert forall k :: k in r ==> WellFormedOrder(r[k]);
  }

  /** Sweeping twice with the same clock reading leaves the state of one sweep. */
  method RunCleanupTwice(store: Store, now: Time)
    requires store.Valid()
    modifies store
    ensures store.Valid()
    ensures store.sessions == ExpireSessions(old(store.sessions), now)
    ensures store.orders == CancelAbandoned(old(store.orders), now)
    ensures store.tables == old(store.tables) && store.menu == old(store.menu)
    ensures store.payments == old(store.payments) && store.nextId == old(store.nextId) && store.events == old(store.events)
  {
    RunCleanup(store, now);
    RunCleanup(store, now);
    SweepIdempotent(old(store.sessions), old(store.orders), now);
  }
}
