/**
 * Client helpers (frontend/src/lib/utils.ts): the relative-time label, the status text and badge
 * colour, and the per-tab storage of session tokens and legacy session ids.
 */
module ClientUtils {
  import opened Wrappers
  import opened Strings
  import opened Models

  // ----- timeAgo -----

  datatype Unit = Minutes | Hours | Days

  function Suffix(u: Unit): (s: string)
    ensures |s| == 5
  {
    match u
    case Minutes => "m ago"
    case Hours => "h ago"
    case Days => "d ago"
  }

  /** A label such as "5m ago". */
  function Label(n: nat, u: Unit): string {
    NatToString(n) + Suffix(u)
  }

  /** `timeAgo`: whole minutes elapsed (rounded down, so a future date reads "Just now"), then hours, then days. */
  function TimeAgo(date: Time, now: Time): string {
    var mins := (now - date) / 60000;
    if mins < 1 then "Just now"
    else if mins < 60 then Label(mins, Minutes)
    else
      var hrs := mins / 60;
      if hrs < 24 then Label(hrs, Hours) else Label(hrs / 24, Days)
  }

  /** The elapsed time `e` lies in the bucket that `n` units of `u` name. */
  predicate InBucket(e: int, n: nat, u: Unit) {
    match u
    case Minutes => 1 <= n < 60 && n * 60000 <= e < n * 60000 + 60000
    case Hours => 1 <= n < 24 && n * 3600000 <= e < n * 3600000 + 3600000
    case Days => n >= 1 && n * 86400000 <= e < n * 86400000 + 86400000
  }

  /** Different counts or units never print the same label, and no label reads "Just now". */
  lemma LabelInjective(a: nat, u: Unit, b: nat, v: Unit)
    ensures Label(a, u) == Label(b, v) ==> a == b && u == v
    ensures Label(a, u) != "Just now"
  {
    var r := Label(a, u);
    assert r[|r| - 5] == Suffix(u)[0];
    if |r| == 8 {
      assert "Just now"[3] == 't';
    }
    if r == Label(b, v) {
      assert r[|r| - 5] == Suffix(v)[0];
      assert u == v;
      assert r[..|r| - 5] == NatToString(a);
      assert r[..|r| - 5] == NatToString(b);
      NatToStringInjective(a, b);
    }
  }

  /** "Just now" exactly when less than a whole minute has elapsed, including a date in the future. */
  lemma JustNow(date: Time, now: Time)
    ensures TimeAgo(date, now) == "Just now" <==> now - date < 60000
  {
    var mins := (now - date) / 60000;
    if mins >= 1 {
      if mins < 60 {
        LabelInjective(mins, Minutes, 0, Minutes);
      } else if mins / 60 < 24 {
        LabelInjective(mins / 60, Hours, 0, Minutes);
      } else {
        LabelInjective(mins / 60 / 24, Days, 0, Minutes);
      }
    }
  }

  /** The label `timeAgo` picks, with the bucket its count lies in. */
  lemma TimeAgoBucket(e: int) returns (n: nat, u: Unit)
    requires e >= 60000
    ensures InBucket(e, n, u)
    ensures TimeAgo(0, e) == Label(n, u)
  {
    var mins := e / 60000;
    if mins < 60 {
      n, u := mins, Minutes;
    } else {
      var hrs := mins / 60;
      assert hrs * 3600000 <= e < hrs * 3600000 + 3600000;
      if hrs < 24 {
        n, u := hrs, Hours;
      } else {
        n, u := hrs / 24, Days;
        assert n * 86400000 <= e < n * 86400000 + 86400000;
      }
    }
  }

  /** A bucket holds one count of one unit. */
  lemma BucketUnique(e: int, n: nat, u: Unit, m: nat, v: Unit)
    requires InBucket(e, n, u) && InBucket(e, m, v)
    ensures n == m && u == v
  {
  }

  /** `timeAgo` prints `n` units of `u` exactly when the elapsed time falls in that bucket. */
  lemma TimeAgoLabel(date: Time, now: Time, n: nat, u: Unit)
    ensures TimeAgo(date, now) == Label(n, u) <==> InBucket(now - date, n, u)
  {
    var e := now - date;
    assert TimeAgo(date, now) == TimeAgo(0, e);
    if e < 60000 {
      JustNow(date, now);
      LabelInjective(n, u, 0, Minutes);
    } else {
      var m, v := TimeAgoBucket(e);
      LabelInjective(m, v, n, u);
      if InBucket(e, n, u) {
        BucketUnique(e, n, u, m, v);
      }
    }
  }

  // ----- Status text and colour -----

  const STATUS_TEXT: map<string, string> := map[
    "CREATED" := "Pending Payment", "PENDING_CASH" := "Pay at Counter", "PAID" := "Order Received",
    "PREPARING" := "Preparing", "READY" := "Ready", "SERVED" := "Served", "CANCELLED" := "Cancelled"]

  const STATUS_COLOR: map<string, string> := map[
    "CREATED" := "badge-warning", "PENDING_CASH" := "badge-warning", "PAID" := "badge-primary",
    "PREPARING" := "badge-warning", "READY" := "badge-success", "SERVED" := "badge-success",
    "CANCELLED" := "badge-error"]

  /** `getStatusText`: the customer-facing wording; an unknown status is shown as it is. */
  function StatusText(status: string): (r: string)
    ensures ParseStatus(status).None? ==> r == status
  {
    if status in STATUS_TEXT then STATUS_TEXT[status] else status
  }

  /** `getStatusColor`: the badge class; an unknown status gets the primary badge. */
  function StatusColor(status: string): (r: string)
    ensures ParseStatus(status).None? ==> r == "badge-primary"
  {
    if status in STATUS_COLOR then STATUS_COLOR[status] else "badge-primary"
  }

  /** Every order status has its own wording, different from the raw status name. */
  lemma StatusTextDistinct(a: OrderStatus, b: OrderStatus)
    ensures StatusText(StatusName(a)) != StatusName(a)
    ensures StatusText(StatusName(a)) == StatusText(StatusName(b)) ==> a == b
  {
  }

  /** The badge colours group the statuses: waiting, received, done, cancelled. */
  lemma StatusColorGroups(st: OrderStatus)
    ensures StatusColor(StatusName(st)) == "badge-warning" <==> st in {Created, PendingCash, Preparing}
    ensures StatusColor(StatusName(st)) == "badge-success" <==> st in {Ready, Served}
    ensures StatusColor(StatusName(st)) == "badge-error" <==> st == Cancelled
    ensures StatusColor(StatusName(st)) == "badge-primary" <==> st == Paid
  {
  }

  // ----- Session storage -----

  /** The storage key of a table's session token. */
  function TokenKey(tableId: string): string {
    "session_" + tableId
  }

  /** The storage key of a table's legacy session id. */
  function SessionIdKey(tableId: string): string {
    "sessionId_" + tableId
  }

  /** Token keys and session-id keys never collide, and each kind is one key per table. */
  lemma KeysDistinct(t: string, u: string)
    ensures TokenKey(t) != SessionIdKey(u)
    ensures TokenKey(t) == TokenKey(u) ==> t == u
    ensures SessionIdKey(t) == SessionIdKey(u) ==> t == u
  {
    assert TokenKey(t)[7] == '_' && SessionIdKey(u)[7] == 'I';
    if TokenKey(t) == TokenKey(u) {
      assert t == TokenKey(t)[8..] && u == TokenKey(u)[8..];
    }
    if SessionIdKey(t) == SessionIdKey(u) {
      assert t == SessionIdKey(t)[10..] && u == SessionIdKey(u)[10..];
    }
  }

  function Lookup(entries: map<string, string>, key: string): Option<string> {
    if key in entries then Some(entries[key]) else None
  }

  /** After storing a token for `t`, reading `t` gives it back and every other table reads as before. */
  lemma SetThenGet(entries: map<string, string>, t: string, x: string, u: string)
    ensures Lookup(entries[TokenKey(t) := x], TokenKey(u)) == if u == t then Some(x) else Lookup(entries, TokenKey(u))
    ensures Lookup(entries[TokenKey(t) := x], SessionIdKey(u)) == Lookup(entries, SessionIdKey(u))
  {
    KeysDistinct(t, u);
    KeysDistinct(u, t);
  }

  /** After clearing `t`, reading `t` gives nothing and every other table reads as before. */
  lemma ClearThenGet(entries: map<string, string>, t: string, u: string)
    ensures Lookup(entries - {TokenKey(t)}, TokenKey(u)) == if u == t then None else Lookup(entries, TokenKey(u))
    ensures Lookup(entries - {TokenKey(t)}, SessionIdKey(u)) == Lookup(entries, SessionIdKey(u))
  {
    KeysDistinct(t, u);
    KeysDistinct(u, t);
  }

  /** The legacy session id of a table, when one is stored and non-empty (an empty string is falsy). */
  function StoredId(entries: map<string, string>, tableId: string): (r: Option<string>)
    ensures r.Some? <==> SessionIdKey(tableId) in entries && entries[SessionIdKey(tableId)] != ""
    ensures r.Some? ==> r.value == entries[SessionIdKey(tableId)]
  {
    match Lookup(entries, SessionIdKey(tableId))
    case Some(v) => if v != "" then Some(v) else None
    case None => None
  }

  /** The browser tab's `sessionStorage`. */
  class SessionStorage {
    var entries: map<string, string>

    constructor()
      ensures entries == map[]
    {
      entries := map[];
    }

    /** `getSessionToken`: the stored token, or null. */
    method GetSessionToken(tableId: string) returns (token: Option<string>)
      ensures token == Lookup(entries, TokenKey(tableId))
    {
      token := Lookup(entries, TokenKey(tableId));
    }

    method SetSessionToken(tableId: string, token: string)
      modifies this
      ensures entries == old(entries)[TokenKey(tableId) := token]
    {
      entries := entries[TokenKey(tableId) := token];
    }

    method ClearSessionToken(tableId: string)
      modifies this
      ensures entries == old(entries) - {TokenKey(tableId)}
    {
      entries := entries - {TokenKey(tableId)};
    }

    /**
     * `getSessionId`: the stored id when there is a non-empty one; otherwise `generated` (the
     * output of `generateSessionId`, which always holds a '-') is stored and returned.
     */
    method GetSessionId(tableId: string, generated: string) returns (id: string)
      requires generated != ""
      modifies this
      ensures id != ""
      ensures old(StoredId(entries, tableId)).Some? ==> id == old(StoredId(entries, tableId)).value && entries == old(entries)
      ensures old(StoredId(entries, tableId)).None? ==>
        id == generated && entries == old(entries)[SessionIdKey(tableId) := generated]
      ensures Lookup(entries, SessionIdKey(tableId)) == Some(id)
    {
      var key := SessionIdKey(tableId);
      if key in entries && entries[key] != "" {
        id := entries[key];
      } else {
        id := generated;
        entries := entries[key := id];
      }
    }

    /** Two calls in a row return the same id, whatever the second generator would have produced. */
    method GetSessionIdTwice(tableId: string, g1: string, g2: string) returns (first: string, second: string)
      requires g1 != "" && g2 != ""
      modifies this
      ensures first == second
    {
      first := GetSessionId(tableId, g1);
      second := GetSessionId(tableId, g2);
    }
  }
}
