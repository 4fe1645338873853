/**
 * The orders route (backend/src/routes/orders.ts): the per-table attempt limiter, the
 * order-creation pipeline with its guards, line sanitising and server-side pricing, the
 * staff status update, and the kitchen and admin listings.
 */
module OrdersRoute {
  import opened Wrappers
  import opened Strings
  import opened Collections
  import opened Models
  import opened Pricing
  import opened Money
  import opened Database

  // ----- The per-table attempt limiter -----

  const MAX_ATTEMPTS: nat := 5
  const WINDOW: int := 10 * MINUTE

  /** A table's attempt record: attempts counted in the current window and when the window ends. */
  datatype Attempt = Attempt(count: nat, resetAt: Time)

  datatype Decision = Decision(allowed: bool, record: Attempt)

  /**
   * One call of `checkTableRateLimit` on a table's record: no record or a window that is over
   * starts a new window holding this attempt; a full window refuses and leaves the record;
   * otherwise the attempt is counted.
   */
  function RateLimit(record: Option<Attempt>, now: Time): (d: Decision)
    ensures record.None? || now > record.value.resetAt ==> d == Decision(true, Attempt(1, now + WINDOW))
    ensures record.Some? && now <= record.value.resetAt ==>
      && d.record.resetAt == record.value.resetAt
      && (d.allowed <==> record.value.count < MAX_ATTEMPTS)
      && d.record.count == if d.allowed then record.value.count + 1 else record.value.count
  {
    if record.None? || now > record.value.resetAt then Decision(true, Attempt(1, now + WINDOW))
    else if record.value.count >= MAX_ATTEMPTS then Decision(false, record.value)
    else Decision(true, record.value.(count := record.value.count + 1))
  }

  /** The number of attempts allowed, and the final record, after a series of attempts on one table. */
  function Replay(record: Option<Attempt>, times: seq<Time>): (nat, Option<Attempt>)
    decreases |times|
  {
    if times == [] then (0, record)
    else
      var d := RateLimit(record, times[0]);
      var (n, last) := Replay(Some(d.record), times[1..]);
      (if d.allowed then n + 1 else n, last)
  }

  function Min(a: int, b: int): int {
    if a <= b then a else b
  }

  /**
   * Attempts that all fall inside an open window: exactly as many are allowed as the window
   * still has room for, the count never passes the maximum, and the window keeps its end.
   */
  lemma {:induction false} WindowCap(a: Attempt, times: seq<Time>)
    requires 1 <= a.count <= MAX_ATTEMPTS
    requires forall i :: 0 <= i < |times| ==> times[i] <= a.resetAt
    ensures Replay(Some(a), times).0 == Min(|times|, MAX_ATTEMPTS - a.count)
    ensures Replay(Some(a), times).1 == Some(Attempt(a.count + Min(|times|, MAX_ATTEMPTS - a.count), a.resetAt))
    decreases |times|
  {
    if times != [] {
      var d := RateLimit(Some(a), times[0]);
      WindowCap(d.record, times[1..]);
    }
  }

  /**
   * A window opened by a fresh attempt at `start` admits at most five attempts, however many
   * are made before it ends; the sixth and later are refused.
   */
  lemma AtMostFivePerWindow(record: Option<Attempt>, start: Time, later: seq<Time>)
    requires record.None? || start > record.value.resetAt
    requires forall i :: 0 <= i < |later| ==> later[i] <= start + WINDOW
    ensures Replay(record, [start] + later).0 == Min(1 + |later|, MAX_ATTEMPTS)
    ensures Replay(record, [start] + later).0 <= MAX_ATTEMPTS
  {
    assert ([start] + later)[1..] == later;
    WindowCap(Attempt(1, start + WINDOW), later);
  }

  /** The in-memory `tableAttempts` map and the handlers that use it. */
  class OrderRouter {
    var tableAttempts: map<Id, Attempt>

    /** Every record counts between one and the maximum attempts. */
    ghost predicate Valid()
      reads this
    {
      forall k :: k in tableAttempts ==> 1 <= tableAttempts[k].count <= MAX_ATTEMPTS
    }

    constructor()
      ensures Valid() && tableAttempts == map[]
    {
      tableAttempts := map[];
    }

    function Record(tableId: Id): Option<Attempt>
      reads this
    {
      if tableId in tableAttempts then Some(tableAttempts[tableId]) else None
    }

    /** `checkTableRateLimit`: decides one attempt and stores the table's updated record. */
    method CheckTableRateLimit(tableId: Id, now: Time) returns (allowed: bool)
      requires Valid()
      modifies this
      ensures Valid()
      ensures allowed == RateLimit(old(Record(tableId)), now).allowed
      ensures tableAttempts == old(tableAttempts)[tableId := RateLimit(old(Record(tableId)), now).record]
    {
      var d := RateLimit(Record(tableId), now);
      tableAttempts := tableAttempts[tableId := d.record];
      allowed := d.allowed;
    }

    /**
     * POST /orders. The guards run in source order, each answering with its status code and
     * leaving everything as it was, except that an attempt counted by the limiter stays
     * counted. On success the new order is CREATED with sanitised lines and server prices,
     * and the session is extended.
     */
    method CreateOrder(store: Store, tableId: Id, items: seq<LineRequest>, sessionToken: string,
                       customerName: Option<string>, customerPhone: Option<string>, now: Time)
      returns (code: int, orderId: Option<Id>)
      requires Valid() && store.Valid()
      modifies this, store
      ensures Valid() && store.Valid()
      // 1. the table must exist and be active
      ensures !TableOpen(old(store.tables), tableId) ==>
        code == 400 && orderId == None && unchanged(this) && unchanged(store)
      // 2. a session token is required
      ensures TableOpen(old(store.tables), tableId) && sessionToken == "" ==>
        code == 401 && orderId == None && unchanged(this) && unchanged(store)
      // 3. it must name an ACTIVE, unexpired session of this table
      ensures (TableOpen(old(store.tables), tableId) && sessionToken != ""
               && MatchingSession(old(store.sessions), old(store.nextId), tableId, sessionToken, now).None?) ==>
        code == 401 && orderId == None && unchanged(this) && unchanged(store)
      // 4. from here on the attempt is counted
      ensures PassesSessionGuards(old(store.tables), old(store.sessions), old(store.nextId), tableId, sessionToken, now) ==>
        tableAttempts == old(tableAttempts)[tableId := RateLimit(old(Record(tableId)), now).record]
      ensures (PassesSessionGuards(old(store.tables), old(store.sessions), old(store.nextId), tableId, sessionToken, now)
               && !RateLimit(old(Record(tableId)), now).allowed) ==>
        code == 429 && orderId == None && unchanged(store)
      // 5. an unpaid order of this table blocks a new one, and its id is returned
      ensures (PassesSessionGuards(old(store.tables), old(store.sessions), old(store.nextId), tableId, sessionToken, now)
               && RateLimit(old(Record(tableId)), now).allowed
               && UnpaidOrder(old(store.orders), old(store.nextId), tableId).Some?) ==>
        code == 400 && orderId == UnpaidOrder(old(store.orders), old(store.nextId), tableId) && unchanged(store)
      // 6. and 7. at least one line, each naming a distinct available menu item
      ensures (PassesSessionGuards(old(store.tables), old(store.sessions), old(store.nextId), tableId, sessionToken, now)
               && RateLimit(old(Record(tableId)), now).allowed
               && UnpaidOrder(old(store.orders), old(store.nextId), tableId).None?
               && (items == [] || !AllAvailable(old(store.menu), items))) ==>
        code == 400 && orderId == None && unchanged(store)
      // the success path
      ensures code == 201 ==>
        && PassesSessionGuards(old(store.tables), old(store.sessions), old(store.nextId), tableId, sessionToken, now)
        && RateLimit(old(Record(tableId)), now).allowed
        && UnpaidOrder(old(store.orders), old(store.nextId), tableId).None?
        && items != [] && AllAvailable(old(store.menu), items)
        && orderId == Some(old(store.nextId)) && store.nextId == old(store.nextId) + 1
        && store.orders == old(store.orders)[old(store.nextId) :=
             PlacedOrder(old(store.menu), tableId, items, sessionToken, customerName, customerPhone, now)]
        && var sid := MatchingSession(old(store.sessions), old(store.nextId), tableId, sessionToken, now).value;
           store.sessions == old(store.sessions)[sid := old(store.sessions)[sid].(lastActivityAt := now, expiresAt := now + SESSION_DURATION)]
      ensures code == 201 ==>
        store.tables == old(store.tables) && store.menu == old(store.menu) && store.payments == old(store.payments)
        && store.events == old(store.events)
      // past every guard the order is stored, unless a catalogue name is empty, which the schema rejects
      ensures (PassesSessionGuards(old(store.tables), old(store.sessions), old(store.nextId), tableId, sessionToken, now)
               && RateLimit(old(Record(tableId)), now).allowed
               && UnpaidOrder(old(store.orders), old(store.nextId), tableId).None?
               && items != [] && AllAvailable(old(store.menu), items)) ==>
        code == (if NamesPresent(old(store.menu), items) then 201 else 500)
      ensures code == 500 ==> orderId == None && unchanged(store)
      ensures code in {201, 400, 401, 429, 500}
    {
      if !TableOpen(store.tables, tableId) {
        return 400, None;
      }
      if sessionToken == "" {
        return 401, None;
      }
      var sid := MatchingSession(store.sessions, store.nextId, tableId, sessionToken, now);
      if sid.None? {
        return 401, None;
      }
      var allowed := CheckTableRateLimit(tableId, now);
      if !allowed {
        return 429, None;
      }
      var existing := UnpaidOrder(store.orders, store.nextId, tableId);
      if existing.Some? {
        return 400, existing;
      }
      if items == [] {
        return 400, None;
      }
      if |AvailableMatches(store.menu, items)| != |items| {
        AvailableCountCheck(store.menu, items);
        return 400, None;
      }
      AvailableCountCheck(store.menu, items);
      if !NamesPresent(store.menu, items) {
        return 500, None;
      }
      var order := PlacedOrder(store.menu, tableId, items, store.sessions[sid.value].sessionToken,
                               customerName, customerPhone, now);
      var id := store.SaveNewOrder(order, sid.value, now);
      return 201, Some(id);
    }
  }

  // ----- Create-order guards -----

  predicate TableOpen(tables: map<Id, Table>, tableId: Id) {
    tableId in tables && tables[tableId].isActive
  }

  /** The session query: this table, this token, ACTIVE and expiring strictly after now. */
  predicate SessionMatches(s: TableSession, tableId: Id, token: string, now: Time) {
    s.tableId == tableId && s.sessionToken == token && s.status == Active && s.expiresAt > now
  }

  function MatchingSession(sessions: map<Id, TableSession>, n: Id, tableId: Id, token: string, now: Time): (r: Option<Id>)
    requires IdsBelow(sessions, n)
    ensures r.Some? ==> r.value in sessions && SessionMatches(sessions[r.value], tableId, token, now)
    ensures r.None? <==> forall k :: k in sessions ==> !SessionMatches(sessions[k], tableId, token, now)
  {
    FirstKey(sessions, n, (s: TableSession) => SessionMatches(s, tableId, token, now))
  }

  ghost predicate PassesSessionGuards(tables: map<Id, Table>, sessions: map<Id, TableSession>, n: Id,
                                      tableId: Id, token: string, now: Time)
    requires IdsBelow(sessions, n)
  {
    TableOpen(tables, tableId) && token != "" && MatchingSession(sessions, n, tableId, token, now).Some?
  }

  /** The existing unpaid order of a table, first in insertion order. */
  function UnpaidOrder(orders: map<Id, Order>, n: Id, tableId: Id): (r: Option<Id>)
    requires IdsBelow(orders, n)
    ensures r.Some? ==> r.value in orders && orders[r.value].status == Created && orders[r.value].tableId == tableId
    ensures r.None? <==> forall k :: k in orders ==> !(orders[k].status == Created && orders[k].tableId == tableId)
  {
    FirstKey(orders, n, (o: Order) => o.status == Created && o.tableId == tableId)
  }

  // ----- Order lines -----

  /**
   * A line as the client sends it. Only the id, quantity and instructions are read; the
   * client's price and name are carried to show that they are ignored. `quantity` is what
   * `parseInt` makes of the client's value, `None` standing for NaN.
   */
  datatype LineRequest = LineRequest(
    menuItemId: Id,
    quantity: Option<int>,
    specialInstructions: Option<string>,
    price: Option<Paise>,
    name: Option<string>)

  /** `Math.max(1, Math.min(99, parseInt(q) || 1))`. */
  function ClampQuantity(q: Option<int>): (r: int)
    ensures 1 <= r <= 99
    ensures q.Some? && 1 <= q.value <= 99 ==> r == q.value
    ensures q.Some? && q.value > 99 ==> r == 99
    ensures q.None? || q.value < 1 ==> r == 1
  {
    var v := if q.None? || q.value == 0 then 1 else q.value;
    if v > 99 then 99 else if v < 1 then 1 else v
  }

  /** The stored line for a request line and its catalogue item. */
  function BuildLine(req: LineRequest, item: MenuItem): OrderItem {
    OrderItem(req.menuItemId, item.name, ClampQuantity(req.quantity), item.price,
              Truncate(req.specialInstructions.GetOr(""), 500))
  }

  function BuildLines(reqs: seq<LineRequest>, menu: map<Id, MenuItem>): (lines: seq<OrderItem>)
    requires forall i :: 0 <= i < |reqs| ==> reqs[i].menuItemId in menu
    ensures |lines| == |reqs|
    ensures forall i :: 0 <= i < |reqs| ==> lines[i] == BuildLine(reqs[i], menu[reqs[i].menuItemId])
  {
    seq(|reqs|, i requires 0 <= i < |reqs| => BuildLine(reqs[i], menu[reqs[i].menuItemId]))
  }

  /**
   * Each stored line takes its name and price from the catalogue, keeps the requested id,
   * clamps the quantity into [1, 99] and cuts the instructions to 500 characters.
   */
  lemma BuiltLinesSanitised(reqs: seq<LineRequest>, menu: map<Id, MenuItem>, i: int)
    requires forall j :: 0 <= j < |reqs| ==> reqs[j].menuItemId in menu
    requires 0 <= i < |reqs|
    ensures var line := BuildLines(reqs, menu)[i];
      && line.menuItemId == reqs[i].menuItemId
      && line.name == menu[reqs[i].menuItemId].name
      && line.price == menu[reqs[i].menuItemId].price
      && 1 <= line.quantity <= 99
      && line.specialInstructions == Truncate(reqs[i].specialInstructions.GetOr(""), 500)
      && |line.specialInstructions| <= 500
  {
  }

  /** Whatever price and name the client sends, the stored line is the same. */
  lemma ClientPriceIgnored(req: LineRequest, item: MenuItem, price: Option<Paise>, name: Option<string>)
    ensures BuildLine(req.(price := price, name := name), item) == BuildLine(req, item)
  {
  }

  function LineIds(reqs: seq<LineRequest>): seq<Id> {
    seq(|reqs|, i requires 0 <= i < |reqs| => reqs[i].menuItemId)
  }

  /** The menu query `{_id: {$in: ids}, isAvailable: true}`: each matching item once. */
  function AvailableMatches(menu: map<Id, MenuItem>, reqs: seq<LineRequest>): set<Id> {
    set id | id in menu && menu[id].isAvailable && id in LineIds(reqs)
  }

  /** Every line names an available item, and no item twice. */
  ghost predicate AllAvailable(menu: map<Id, MenuItem>, reqs: seq<LineRequest>) {
    && (forall i :: 0 <= i < |reqs| ==> reqs[i].menuItemId in menu && menu[reqs[i].menuItemId].isAvailable)
    && Distinct(LineIds(reqs))
  }

  /**
   * The count comparison accepts exactly the requests whose lines name distinct available
   * items: a repeated item counts once, so repeating one is refused like an unavailable one.
   */
  lemma AvailableCountCheck(menu: map<Id, MenuItem>, reqs: seq<LineRequest>)
    ensures |AvailableMatches(menu, reqs)| == |reqs| <==> AllAvailable(menu, reqs)
  {
    var ids := LineIds(reqs);
    var requested := set x | x in ids;
    var found := AvailableMatches(menu, reqs);
    SetOfSeqCard(ids);
    assert found <= requested;
    SubsetCard(found, requested);
    if |found| == |reqs| {
      SubsetSameCard(found, requested);
      forall i | 0 <= i < |reqs| ensures reqs[i].menuItemId in menu && menu[reqs[i].menuItemId].isAvailable {
        assert ids[i] == reqs[i].menuItemId;
        assert ids[i] in requested;
      }
    }
    if AllAvailable(menu, reqs) {
      forall x | x in requested ensures x in found {
        var i :| 0 <= i < |ids| && ids[i] == x;
        assert reqs[i].menuItemId == x;
      }
      assert found == requested;
      DistinctSetCard(ids);
    }
  }

  /** A sequence of distinct elements has as many elements as its set. */
  lemma {:induction false} DistinctSetCard<T>(s: seq<T>)
    requires Distinct(s)
    ensures |set x | x in s| == |s|
  {
    if s != [] {
      DistinctSetCard(s[1..]);
      assert (set x | x in s) == (set x | x in s[1..]) + {s[0]};
      assert s[0] !in s[1..] by {
        forall j | 0 <= j < |s[1..]| ensures s[1..][j] != s[0] {
          assert s[1..][j] == s[j + 1];
        }
      }
    }
  }

  /** Mongoose's `required` check on the line names taken from the catalogue. */
  predicate NamesPresent(menu: map<Id, MenuItem>, reqs: seq<LineRequest>)
    requires forall i :: 0 <= i < |reqs| ==> reqs[i].menuItemId in menu
  {
    forall i :: 0 <= i < |reqs| ==> menu[reqs[i].menuItemId].name != ""
  }

  /**
   * The order stored by a successful creation: CREATED, lines rebuilt from the catalogue,
   * amounts computed on the server, customer fields cut to 100 and 20 characters.
   */
  function PlacedOrder(menu: map<Id, MenuItem>, tableId: Id, items: seq<LineRequest>, token: string,
                       customerName: Option<string>, customerPhone: Option<string>, now: Time): (o: Order)
    requires items != [] && AllAvailable(menu, items)
    ensures o.status == Created && o.tableId == tableId && o.sessionId == token && o.createdAt == now
    ensures o.items == BuildLines(items, menu)
    ensures o.customerName == Truncate(customerName.GetOr(""), 100)
    ensures o.customerPhone == Truncate(customerPhone.GetOr(""), 20)
    ensures WellFormedOrder(o)
  {
    var lines := BuildLines(items, menu);
    var subtotal := Subtotal(lines);
    NewOrder(tableId, lines, subtotal, Tax(subtotal), ServiceCharge(subtotal), Total(subtotal),
             token, Truncate(customerName.GetOr(""), 100), Truncate(customerPhone.GetOr(""), 20), now)
  }

  // ----- GET /orders/:id -----

  /** The order with that id (200), or 404. */
  function FindOrder(orders: map<Id, Order>, id: Id): (r: (int, Option<Order>))
    ensures r.0 == 404 <==> id !in orders
    ensures r.0 == 200 <==> id in orders
    ensures r.0 == 200 ==> r.1 == Some(orders[id])
    ensures r.0 == 404 ==> r.1 == None
  {
    if id in orders then (200, Some(orders[id])) else (404, None)
  }

  // ----- PATCH /orders/:id/status -----

  /** The statuses staff may write: PAID, PREPARING, READY and SERVED, and no other string. */
  function PatchStatus(s: string): (r: Option<OrderStatus>)
    ensures r.Some? <==> s in ["PAID", "PREPARING", "READY", "SERVED"]
    ensures r.Some? ==> StatusName(r.value) == s && r.value in {Paid, Preparing, Ready, Served}
  {
    var st := ParseStatus(s);
    if st.Some? && st.value in {Paid, Preparing, Ready, Served} then st else None
  }

  /**
   * `TableSession.updateMany({tableId, status: 'ACTIVE'}, {status: 'COMPLETED'})`: afterwards
   * the table has no ACTIVE session, the sessions of other tables and the non-active ones are
   * as they were, and only statuses change.
   */
  function CompleteTableSessions(sessions: map<Id, TableSession>, tableId: Id): (r: map<Id, TableSession>)
    ensures r.Keys == sessions.Keys
    ensures forall k :: k in r ==> !(r[k].tableId == tableId && r[k].status == Active)
    ensures forall k :: k in sessions && !(sessions[k].tableId == tableId && sessions[k].status == Active) ==> r[k] == sessions[k]
    ensures forall k :: k in sessions ==> r[k] == sessions[k].(status := r[k].status)
    ensures forall k :: k in sessions && sessions[k].tableId == tableId && sessions[k].status == Active ==> r[k].status == Completed
  {
    map k | k in sessions ::
      if sessions[k].tableId == tableId && sessions[k].status == Active then sessions[k].(status := Completed)
      else sessions[k]
  }

  /**
   * PATCH /orders/:id/status: an unknown status is refused with 400 and an unknown order with
   * 404. Otherwise the status is written whatever the order's current status is, a status
   * event is emitted, and SERVED also completes the table's active sessions.
   */
  method UpdateStatus(store: Store, id: Id, status: string) returns (code: int)
    requires store.Valid()
    modifies store
    ensures store.Valid()
    ensures PatchStatus(status).None? ==> code == 400 && unchanged(store)
    ensures PatchStatus(status).Some? && id !in old(store.orders) ==> code == 404 && unchanged(store)
    ensures PatchStatus(status).Some? && id in old(store.orders) ==>
      var st := PatchStatus(status).value;
      && code == 200
      && store.orders == old(store.orders)[id := old(store.orders)[id].(status := st)]
      && store.events == old(store.events) + [StatusUpdate(id, st)]
      && store.sessions == (if st == Served then CompleteTableSessions(old(store.sessions), old(store.orders)[id].tableId)
                            else old(store.sessions))
      && store.tables == old(store.tables) && store.menu == old(store.menu)
      && store.payments == old(store.payments) && store.nextId == old(store.nextId)
  {
    var st := PatchStatus(status);
    if st.None? {
      return 400;
    }
    if id !in store.orders {
      return 404;
    }
    var order := store.orders[id].(status := st.value);
    OrderUpdateKeepsInvariants(store.orders, store.payments, store.nextId, id, st.value,
                               store.orders[id].paymentId, store.orders[id].paymentMethod);
    assert order == store.orders[id].(status := st.value, paymentId := store.orders[id].paymentId,
                                      paymentMethod := store.orders[id].paymentMethod);
    store.orders := store.orders[id := order];
    store.events := store.events + [StatusUpdate(id, st.value)];
    if st.value == Served {
      CompletingKeepsSessions(store.sessions, store.nextId, order.tableId);
      store.sessions := CompleteTableSessions(store.sessions, order.tableId);
    }
    return 200;
  }

  /** Completing sessions changes only statuses, so the session indexes still hold. */
  lemma CompletingKeepsSessions(sessions: map<Id, TableSession>, n: Id, tableId: Id)
    requires IdsBelow(sessions, n) && UniqueTokens(sessions) && OneSessionPerTable(sessions) && TokensGenerated(sessions)
    ensures var r := CompleteTableSessions(sessions, tableId);
      IdsBelow(r, n) && UniqueTokens(r) && OneSessionPerTable(r) && TokensGenerated(r)
  {
  }

  // ----- Listings -----

  function CreatedAt(orders: map<Id, Order>, id: Id): Time {
    if id in orders then orders[id].createdAt else 0
  }

  /** `sort({createdAt: 1})` and `sort({createdAt: -1})` on order ids. */
  function CreatedAsc(orders: map<Id, Order>): (Id, Id) -> bool {
    (a: Id, b: Id) => CreatedAt(orders, a) <= CreatedAt(orders, b)
  }

  function CreatedDesc(orders: map<Id, Order>): (Id, Id) -> bool {
    (a: Id, b: Id) => CreatedAt(orders, a) >= CreatedAt(orders, b)
  }

  lemma CreatedOrdersArePreorders(orders: map<Id, Order>)
    ensures TotalOrder(CreatedAsc(orders)) && Transitive(CreatedAsc(orders))
    ensures TotalOrder(CreatedDesc(orders)) && Transitive(CreatedDesc(orders))
  {
  }

  /** The statuses the kitchen sees: paid and not yet served. */
  predicate InKitchen(o: Order) {
    o.status == Paid || o.status == Preparing || o.status == Ready
  }

  /** GET /orders/kitchen/active: exactly the PAID, PREPARING and READY orders, each once, oldest first. */
  function KitchenOrders(orders: map<Id, Order>, n: Id): (r: seq<Id>)
    requires IdsBelow(orders, n)
    ensures forall id :: id in r <==> id in orders && InKitchen(orders[id])
    ensures forall i, j :: 0 <= i < j < |r| ==> orders[r[i]].createdAt <= orders[r[j]].createdAt
    ensures Distinct(r)
  {
    var ids := KeysBelow(orders, n);
    var keep := (id: Id) => id in orders && InKitchen(orders[id]);
    var active := Filter(ids, keep);
    IncreasingDistinct(ids);
    FilterDistinct(ids, keep);
    CreatedOrdersArePreorders(orders);
    var r := SortBy(active, CreatedAsc(orders));
    SortBySorted(active, CreatedAsc(orders));
    SortByMembers(active, CreatedAsc(orders));
    SortByDistinct(active, CreatedAsc(orders));
    SortedByCreated(orders, r);
    r
  }

  /** Ids of stored orders sorted by either comparator are ordered by their creation times. */
  lemma SortedByCreated(orders: map<Id, Order>, r: seq<Id>)
    requires forall id :: id in r ==> id in orders
    ensures Sorted(r, CreatedAsc(orders)) ==>
      forall i, j :: 0 <= i < j < |r| ==> orders[r[i]].createdAt <= orders[r[j]].createdAt
    ensures Sorted(r, CreatedDesc(orders)) ==>
      forall i, j :: 0 <= i < j < |r| ==> orders[r[i]].createdAt >= orders[r[j]].createdAt
  {
    forall i, j | 0 <= i < j < |r|
      ensures CreatedAt(orders, r[i]) == orders[r[i]].createdAt && CreatedAt(orders, r[j]) == orders[r[j]].createdAt
    {
      assert r[i] in r && r[j] in r;
    }
  }

  /** The admin query: every order, or those whose status has the given name. */
  predicate StatusFilter(status: string, o: Order) {
    status == "" || StatusName(o.status) == status
  }

  /** The matching orders newest first, before paging. */
  function AdminSorted(orders: map<Id, Order>, n: Id, status: string): (r: seq<Id>)
    requires IdsBelow(orders, n)
    ensures forall id :: id in r <==> id in orders && StatusFilter(status, orders[id])
    ensures forall i, j :: 0 <= i < j < |r| ==> orders[r[i]].createdAt >= orders[r[j]].createdAt
    ensures Distinct(r)
  {
    var ids := KeysBelow(orders, n);
    var keep := (id: Id) => id in orders && StatusFilter(status, orders[id]);
    var matching := Filter(ids, keep);
    IncreasingDistinct(ids);
    FilterDistinct(ids, keep);
    CreatedOrdersArePreorders(orders);
    var r := SortBy(matching, CreatedDesc(orders));
    SortBySorted(matching, CreatedDesc(orders));
    SortByMembers(matching, CreatedDesc(orders));
    SortByDistinct(matching, CreatedDesc(orders));
    SortedByCreated(orders, r);
    r
  }

  /** `Math.ceil(total / limit)`. */
  function CeilDiv(total: nat, limit: nat): (pages: nat)
    requires limit > 0
    ensures total <= pages * limit
    ensures pages == 0 || (pages - 1) * limit < total
  {
    (total + limit - 1) / limit
  }

  datatype OrderPage = OrderPage(orders: seq<Id>, page: int, limit: int, total: nat, pages: nat)

  /** `(page - 1) * limit`, the number of records skipped. */
  function Skip(page: int, limit: int): (skip: nat)
    requires page >= 1 && limit >= 1
    ensures skip == (page - 1) * limit
  {
    MulNonNegative(page - 1, limit);
    (page - 1) * limit
  }

  lemma MulNonNegative(a: int, b: int)
    requires a >= 0 && b >= 0
    ensures a * b >= 0
  {
  }

  /** `skip(skip).limit(limit)` on an already sorted list. */
  function Window(all: seq<Id>, skip: nat, limit: nat): (r: seq<Id>)
    ensures |r| <= limit
    ensures forall i :: 0 <= i < |r| ==> skip + i < |all| && r[i] == all[skip + i]
    ensures skip + limit <= |all| ==> |r| == limit
    ensures skip <= |all| < skip + limit ==> |r| == |all| - skip
    ensures |all| <= skip ==> r == []
  {
    if |all| <= skip then []
    else if skip + limit <= |all| then all[skip..skip + limit]
    else all[skip..]
  }

  /**
   * GET /orders (admin): skips (page - 1) * limit of the matching orders, newest first, returns
   * at most `limit` of them, and reports their total and the number of pages.
   */
  function AdminOrders(orders: map<Id, Order>, n: Id, status: string, page: int, limit: int): (r: OrderPage)
    requires IdsBelow(orders, n) && page >= 1 && limit >= 1
    ensures r.total == |AdminSorted(orders, n, status)| && r.pages == CeilDiv(r.total, limit)
    ensures r.page == page && r.limit == limit
    ensures |r.orders| <= limit
    ensures forall i :: 0 <= i < |r.orders| ==>
      Skip(page, limit) + i < r.total && r.orders[i] == AdminSorted(orders, n, status)[Skip(page, limit) + i]
    ensures Skip(page, limit) + limit <= r.total ==> |r.orders| == limit
    ensures Skip(page, limit) <= r.total < Skip(page, limit) + limit ==> |r.orders| == r.total - Skip(page, limit)
    ensures r.total <= Skip(page, limit) ==> r.orders == []
  {
    var all := AdminSorted(orders, n, status);
    OrderPage(Window(all, Skip(page, limit), limit), page, limit, |all|, CeilDiv(|all|, limit))
  }

  const DEFAULT_PAGE: int := 1
  const DEFAULT_LIMIT: int := 20

  /**
   * The query as the handler reads it: an absent `page` is 1 and an absent `limit` is 20. With
   * neither given, the answer is the first 20 matching orders, newest first.
   */
  function AdminOrdersQuery(orders: map<Id, Order>, n: Id, status: string, page: Option<int>, limit: Option<int>): (r: OrderPage)
    requires IdsBelow(orders, n) && page.GetOr(DEFAULT_PAGE) >= 1 && limit.GetOr(DEFAULT_LIMIT) >= 1
    ensures r.total == |AdminSorted(orders, n, status)|
    ensures page.None? ==> r.page == 1
    ensures limit.None? ==> r.limit == 20 && |r.orders| <= 20
    ensures page.None? && limit.None? ==>
      && |r.orders| == Min(r.total, 20)
      && forall i :: 0 <= i < |r.orders| ==> r.orders[i] == AdminSorted(orders, n, status)[i]
  {
    AdminOrders(orders, n, status, page.GetOr(DEFAULT_PAGE), limit.GetOr(DEFAULT_LIMIT))
  }

  /** Page i / limit + 1 starts at the multiple of `limit` just below i. */
  lemma SkipOfIndex(i: nat, limit: int)
    requires limit >= 1
    ensures Skip(i / limit + 1, limit) + i % limit == i
    ensures i % limit < limit
  {
    assert Skip(i / limit + 1, limit) == (i / limit) * limit;
  }

  /**
   * Paging loses nothing: position `pos` of page `page` is the matching order at index
   * (page - 1) * limit + pos, and by `SkipOfIndex` every index has such a page and position.
   */
  lemma PageHolds(orders: map<Id, Order>, n: Id, status: string, page: int, limit: int, pos: int)
    requires IdsBelow(orders, n) && page >= 1 && limit >= 1 && 0 <= pos < limit
    requires Skip(page, limit) + pos < |AdminSorted(orders, n, status)|
    ensures var p := AdminOrders(orders, n, status, page, limit);
      pos < |p.orders| && p.orders[pos] == AdminSorted(orders, n, status)[Skip(page, limit) + pos]
  {
  }
}
