/**
 * The tables route (backend/src/routes/tables.ts): the admin table list, the customer's QR
 * scan that issues a session token, session validation, and table create, update, delete and
 * QR regeneration. The random token bytes, the QR base URL and the QR image renderer are
 * parameters.
 */
module TablesRoute {
  import opened Wrappers
  import opened Strings
  import opened Collections
  import opened Models
  import opened Database
  import opened OrdersRoute

  /** `sort({tableNumber: 1})` on table ids. */
  function NumberAsc(tables: map<Id, Table>): (Id, Id) -> bool {
    (a: Id, b: Id) => NumberOf(tables, a) <= NumberOf(tables, b)
  }

  function NumberOf(tables: map<Id, Table>, id: Id): int {
    if id in tables then tables[id].tableNumber else 0
  }

  /** GET /tables: every table once, by increasing table number. */
  function AllTables(tables: map<Id, Table>, n: Id): (r: seq<Id>)
    requires IdsBelow(tables, n)
    ensures forall id :: id in r <==> id in tables
    ensures forall i, j :: 0 <= i < j < |r| ==> tables[r[i]].tableNumber <= tables[r[j]].tableNumber
    ensures Distinct(r)
  {
    var ids := KeysBelow(tables, n);
    IncreasingDistinct(ids);
    assert TotalOrder(NumberAsc(tables)) && Transitive(NumberAsc(tables));
    SortBySorted(ids, NumberAsc(tables));
    SortByMembers(ids, NumberAsc(tables));
    SortByDistinct(ids, NumberAsc(tables));
    SortBy(ids, NumberAsc(tables))
  }

  /** The session of a table, if it has one. */
  function TableSessionOf(sessions: map<Id, TableSession>, n: Id, tableId: Id): (r: Option<Id>)
    requires IdsBelow(sessions, n)
    ensures r.Some? ==> r.value in sessions && sessions[r.value].tableId == tableId
    ensures r.None? <==> forall k :: k in sessions ==> sessions[k].tableId != tableId
  {
    FirstKey(sessions, n, (s: TableSession) => s.tableId == tableId)
  }

  /** Some session other than `except` already holds the token: the unique index rejects the write. */
  predicate TokenTaken(sessions: map<Id, TableSession>, token: string, except: Option<Id>) {
    exists k :: k in sessions && sessions[k].sessionToken == token && Some(k) != except
  }

  /** The session fields a scan sets. */
  function Refreshed(s: TableSession, token: string, now: Time): TableSession {
    s.(sessionToken := token, status := Active, expiresAt := now + SESSION_DURATION, lastActivityAt := now)
  }

  /**
   * GET /tables/:id, the QR scan. An unknown table is 404 and an inactive one 400. Otherwise
   * the table's session is upserted with a token made from `random`, ACTIVE, expiring in 30
   * minutes; a token some other session already holds fails the unique index with 500.
   * Afterwards the new token is the only one the table has, so an earlier token no longer matches.
   */
  method ScanTable(store: Store, tableId: Id, random: seq<Byte>, now: Time) returns (code: int, token: Option<string>)
    requires store.Valid() && |random| == 32
    modifies store
    ensures store.Valid()
    ensures tableId !in old(store.tables) ==> code == 404 && token == None && unchanged(store)
    ensures tableId in old(store.tables) && !old(store.tables)[tableId].isActive ==> code == 400 && token == None && unchanged(store)
    ensures code == 500 ==> token == None && unchanged(store)
    ensures code == 200 ==>
      && tableId in store.tables && store.tables[tableId].isActive
      && token == Some(GenerateSessionToken(random))
      && (forall k :: k in store.sessions && store.sessions[k].tableId == tableId ==>
            store.sessions[k] == Refreshed(store.sessions[k], token.value, now))
      && (exists k :: k in store.sessions && store.sessions[k].tableId == tableId)
      && (forall k :: k in old(store.sessions) && old(store.sessions)[k].tableId != tableId ==>
            k in store.sessions && store.sessions[k] == old(store.sessions)[k])
      && store.tables == old(store.tables) && store.orders == old(store.orders)
      && store.payments == old(store.payments) && store.menu == old(store.menu) && store.events == old(store.events)
    // any token issued to this table before the scan no longer matches
    ensures code == 200 ==> forall tok, t :: tok != token.value ==>
      MatchingSession(store.sessions, store.nextId, tableId, tok, t).None?
    ensures code == 200 ==>
      match TableSessionOf(old(store.sessions), old(store.nextId), tableId)
      case Some(sid) =>
        store.sessions == old(store.sessions)[sid := Refreshed(old(store.sessions)[sid], token.value, now)]
        && store.nextId == old(store.nextId)
      case None =>
        store.sessions == old(store.sessions)[old(store.nextId) := NewSession(tableId, token.value, now + SESSION_DURATION, now)]
        && store.nextId == old(store.nextId) + 1
    ensures tableId in old(store.tables) && old(store.tables)[tableId].isActive ==>
      code == (if TokenTaken(old(store.sessions), GenerateSessionToken(random),
                             TableSessionOf(old(store.sessions), old(store.nextId), tableId)) then 500 else 200)
  {
    if tableId !in store.tables {
      return 404, None;
    }
    if !store.tables[tableId].isActive {
      return 400, None;
    }
    var t := GenerateSessionToken(random);
    var existing := TableSessionOf(store.sessions, store.nextId, tableId);
    if TokenTaken(store.sessions, t, existing) {
      return 500, None;
    }
    if existing.Some? {
      var sid := existing.value;
      var s := Refreshed(store.sessions[sid], t, now);
      SessionUpserted(store.sessions, store.nextId, store.nextId, tableId, sid, s);
      store.sessions := store.sessions[sid := s];
      assert store.sessions[sid].tableId == tableId;
    } else {
      var id := store.FreshId();
      var s := NewSession(tableId, t, now + SESSION_DURATION, now);
      SessionUpserted(store.sessions, id, store.nextId, tableId, id, s);
      store.sessions := store.sessions[id := s];
      assert store.sessions[id].tableId == tableId;
    }
    return 200, Some(t);
  }

  /** Upserting the one session of a table under `key` keeps the session indexes, and only its token matches afterwards. */
  lemma SessionUpserted(sessions: map<Id, TableSession>, n: Id, n2: Id, tableId: Id, key: Id, s: TableSession)
    requires IdsBelow(sessions, n) && n <= n2 && key < n2
    requires UniqueTokens(sessions) && OneSessionPerTable(sessions) && TokensGenerated(sessions)
    requires s.tableId == tableId && IsSessionToken(s.sessionToken)
    requires !TokenTaken(sessions, s.sessionToken, Some(key))
    requires forall k :: k in sessions && sessions[k].tableId == tableId ==> k == key
    ensures var ns := sessions[key := s];
      && IdsBelow(ns, n2) && UniqueTokens(ns) && OneSessionPerTable(ns) && TokensGenerated(ns)
      && (forall k :: k in ns && ns[k].tableId == tableId ==> k == key)
      && (forall tok, t :: tok != s.sessionToken ==> MatchingSession(ns, n2, tableId, tok, t).None?)
  {
  }

  /**
   * POST /tables/:id/validate-session. A missing token is 400. The token is valid exactly when
   * an ACTIVE session of this table holds it and expires after now; then it is extended by 30
   * minutes (200), otherwise 401.
   */
  method ValidateSession(store: Store, tableId: Id, token: string, now: Time) returns (code: int, expiresAt: Option<Time>)
    requires store.Valid()
    modifies store
    ensures store.Valid()
    ensures token == "" ==> code == 400 && unchanged(store)
    ensures token != "" ==>
      (code == 200 <==> exists k :: k in old(store.sessions) && SessionMatches(old(store.sessions)[k], tableId, token, now))
    ensures token != "" && code != 200 ==> code == 401 && expiresAt == None && unchanged(store)
    ensures code == 200 ==>
      var sid := MatchingSession(old(store.sessions), old(store.nextId), tableId, token, now).value;
      && expiresAt == Some(now + SESSION_DURATION)
      && store.sessions == old(store.sessions)[sid := old(store.sessions)[sid].(lastActivityAt := now, expiresAt := now + SESSION_DURATION)]
      && store.tables == old(store.tables) && store.orders == old(store.orders)
      && store.payments == old(store.payments) && store.menu == old(store.menu) && store.nextId == old(store.nextId)
      && store.events == old(store.events)
  {
    if token == "" {
      return 400, None;
    }
    var sid := MatchingSession(store.sessions, store.nextId, tableId, token, now);
    if sid.None? {
      return 401, None;
    }
    var s := store.sessions[sid.value];
    store.sessions := store.sessions[sid.value := s.(lastActivityAt := now, expiresAt := now + SESSION_DURATION)];
    return 200, Some(now + SESSION_DURATION);
  }

  /** `generateTableQRUrl`: the customer link the QR code encodes. */
  function QrData(baseUrl: string, tableId: Id): (data: string)
    ensures StartsWith(data, baseUrl + "/t/")
  {
    baseUrl + "/t/" + NatToString(tableId)
  }

  /** Different tables get different QR links. */
  lemma QrDataInjective(baseUrl: string, a: Id, b: Id)
    requires QrData(baseUrl, a) == QrData(baseUrl, b)
    ensures a == b
  {
    var prefix := baseUrl + "/t/";
    assert QrData(baseUrl, a)[|prefix|..] == NatToString(a);
    assert QrData(baseUrl, b)[|prefix|..] == NatToString(b);
    NatToStringInjective(a, b);
  }

  /** The zod schema: a positive integer table number and, if given, a positive integer capacity. */
  predicate ValidTableRequest(tableNumber: int, capacity: Option<int>) {
    tableNumber > 0 && (capacity.None? || capacity.value > 0)
  }

  /**
   * POST /tables. A request failing the schema is 400, a table number already in use is 400;
   * otherwise the table is created with its QR link and image (201).
   */
  method CreateTable(store: Store, tableNumber: int, capacity: Option<int>, baseUrl: string, qrImage: string -> string)
    returns (code: int, id: Option<Id>)
    requires store.Valid()
    modifies store
    ensures store.Valid()
    ensures !ValidTableRequest(tableNumber, capacity) ==> code == 400 && id == None && unchanged(store)
    ensures (ValidTableRequest(tableNumber, capacity)
             && exists k :: k in old(store.tables) && old(store.tables)[k].tableNumber == tableNumber) ==>
      code == 400 && id == None && unchanged(store)
    ensures (ValidTableRequest(tableNumber, capacity)
             && forall k :: k in old(store.tables) ==> old(store.tables)[k].tableNumber != tableNumber) ==>
      && code == 201 && id == Some(old(store.nextId)) && store.nextId == old(store.nextId) + 1
      && store.tables == old(store.tables)[id.value := NewTable(tableNumber, capacity).(
           qrCodeUrl := qrImage(QrData(baseUrl, id.value)), qrCodeData := QrData(baseUrl, id.value))]
      && store.sessions == old(store.sessions) && store.orders == old(store.orders)
      && store.payments == old(store.payments) && store.menu == old(store.menu) && store.events == old(store.events)
  {
    if !ValidTableRequest(tableNumber, capacity) {
      return 400, None;
    }
    if exists k :: k in store.tables && store.tables[k].tableNumber == tableNumber {
      return 400, None;
    }
    var tid := store.FreshId();
    var table := NewTable(tableNumber, capacity);
    var data := QrData(baseUrl, tid);
    table := table.(qrCodeUrl := qrImage(data), qrCodeData := data);
    store.tables := store.tables[tid := table];
    return 201, Some(tid);
  }

  /** The fields a PATCH body may carry. */
  datatype TablePatch = TablePatch(
    tableNumber: Option<int>,
    qrCodeUrl: Option<string>,
    qrCodeData: Option<string>,
    isActive: Option<bool>,
    capacity: Option<int>)

  function ApplyTablePatch(t: Table, p: TablePatch): (r: Table)
    ensures r.tableNumber == p.tableNumber.GetOr(t.tableNumber) && r.isActive == p.isActive.GetOr(t.isActive)
    ensures r.capacity == p.capacity.GetOr(t.capacity)
    ensures r.qrCodeUrl == p.qrCodeUrl.GetOr(t.qrCodeUrl) && r.qrCodeData == p.qrCodeData.GetOr(t.qrCodeData)
  {
    Table(p.tableNumber.GetOr(t.tableNumber), p.qrCodeUrl.GetOr(t.qrCodeUrl), p.qrCodeData.GetOr(t.qrCodeData),
          p.isActive.GetOr(t.isActive), p.capacity.GetOr(t.capacity))
  }

  /**
   * PATCH /tables/:id: the body's fields overwrite the table's, without the schema's checks.
   * An unknown table is 404; a table number another table has fails the unique index (500).
   */
  method UpdateTable(store: Store, tableId: Id, patch: TablePatch) returns (code: int)
    requires store.Valid()
    modifies store
    ensures store.Valid()
    ensures tableId !in old(store.tables) ==> code == 404 && unchanged(store)
    ensures tableId in old(store.tables) ==>
      var t' := ApplyTablePatch(old(store.tables)[tableId], patch);
      if exists k :: k in old(store.tables) && k != tableId && old(store.tables)[k].tableNumber == t'.tableNumber
      then code == 500 && unchanged(store)
      else
        (code == 200 && store.tables == old(store.tables)[tableId := t']
         && store.sessions == old(store.sessions) && store.orders == old(store.orders)
         && store.payments == old(store.payments) && store.menu == old(store.menu) && store.nextId == old(store.nextId)
         && store.events == old(store.events))
  {
    if tableId !in store.tables {
      return 404;
    }
    var t' := ApplyTablePatch(store.tables[tableId], patch);
    if exists k :: k in store.tables && k != tableId && store.tables[k].tableNumber == t'.tableNumber {
      return 500;
    }
    store.tables := store.tables[tableId := t'];
    return 200;
  }

  /**
   * DELETE /tables/:id: an unknown table is 404; otherwise the table and every session of it
   * are removed. Orders of the table stay.
   */
  method DeleteTable(store: Store, tableId: Id) returns (code: int)
    requires store.Valid()
    modifies store
    ensures store.Valid()
    ensures tableId !in old(store.tables) ==> code == 404 && unchanged(store)
    ensures tableId in old(store.tables) ==>
      && code == 200
      && store.tables == old(store.tables) - {tableId}
      && (forall k :: k in store.sessions <==> k in old(store.sessions) && old(store.sessions)[k].tableId != tableId)
      && (forall k :: k in store.sessions ==> store.sessions[k] == old(store.sessions)[k])
      && store.orders == old(store.orders) && store.payments == old(store.payments)
      && store.menu == old(store.menu) && store.nextId == old(store.nextId) && store.events == old(store.events)
  {
    if tableId !in store.tables {
      return 404;
    }
    store.tables := store.tables - {tableId};
    store.sessions := map k | k in store.sessions && store.sessions[k].tableId != tableId :: store.sessions[k];
    return 200;
  }

  /** `TableSession.updateMany({tableId}, {status: 'EXPIRED'})`. */
  function ExpireTableSessions(sessions: map<Id, TableSession>, tableId: Id): (r: map<Id, TableSession>)
    ensures r.Keys == sessions.Keys
    ensures forall k :: k in r && r[k].tableId == tableId ==> r[k].status == Expired
    ensures forall k :: k in sessions ==> r[k] == sessions[k].(status := r[k].status)
    ensures forall k :: k in sessions && sessions[k].tableId != tableId ==> r[k] == sessions[k]
  {
    map k | k in sessions :: if sessions[k].tableId == tableId then sessions[k].(status := Expired) else sessions[k]
  }

  /**
   * POST /tables/:id/regenerate-qr: an unknown table is 404; otherwise the table gets a new QR
   * image and link and every session of it is EXPIRED, so no token issued before validates.
   */
  method RegenerateQr(store: Store, tableId: Id, baseUrl: string, qrImage: string -> string) returns (code: int)
    requires store.Valid()
    modifies store
    ensures store.Valid()
    ensures tableId !in old(store.tables) ==> code == 404 && unchanged(store)
    ensures tableId in old(store.tables) ==>
      && code == 200
      && store.tables == old(store.tables)[tableId := old(store.tables)[tableId].(
           qrCodeUrl := qrImage(QrData(baseUrl, tableId)), qrCodeData := QrData(baseUrl, tableId))]
      && store.sessions == ExpireTableSessions(old(store.sessions), tableId)
      && store.orders == old(store.orders) && store.payments == old(store.payments)
      && store.menu == old(store.menu) && store.nextId == old(store.nextId) && store.events == old(store.events)
    ensures code == 200 ==> forall token, now :: MatchingSession(store.sessions, store.nextId, tableId, token, now).None?
  {
    if tableId !in store.tables {
      return 404;
    }
    var data := QrData(baseUrl, tableId);
    store.tables := store.tables[tableId := store.tables[tableId].(qrCodeUrl := qrImage(data), qrCodeData := data)];
    store.sessions := ExpireTableSessions(store.sessions, tableId);
    return 200;
  }
}
