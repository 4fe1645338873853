/**
 * The document types of the backend's collections (tables, table sessions, menu items,
 * orders, payments) with the defaults their schemas supply, the status enumerations, and
 * the session-token generator.
 */
module Models {
  import opened Wrappers
  import opened Money

  /** A database id; the ids handed out are fresh across all collections. */
  type Id = nat

  /** Milliseconds since the epoch. */
  type Time = int

  const MINUTE: int := 60 * 1000

  // ----- Orders (backend/src/models/Order.ts) -----

  /**
   * The status of an order. The schema's enum has the first six; `Cancelled` is written by
   * the cleanup job all the same, so the model includes it.
   */
  datatype OrderStatus = Created | PendingCash | Paid | Preparing | Ready | Served | Cancelled

  function StatusName(s: OrderStatus): string {
    match s
    case Created => "CREATED"
    case PendingCash => "PENDING_CASH"
    case Paid => "PAID"
    case Preparing => "PREPARING"
    case Ready => "READY"
    case Served => "SERVED"
    case Cancelled => "CANCELLED"
  }

  /** The status a status string names, if any. */
  function ParseStatus(s: string): (r: Option<OrderStatus>)
    ensures r.Some? ==> StatusName(r.value) == s
  {
    if s == "CREATED" then Some(Created)
    else if s == "PENDING_CASH" then Some(PendingCash)
    else if s == "PAID" then Some(Paid)
    else if s == "PREPARING" then Some(Preparing)
    else if s == "READY" then Some(Ready)
    else if s == "SERVED" then Some(Served)
    else if s == "CANCELLED" then Some(Cancelled)
    else None
  }

  /** Every status is read back from its name, so the names are distinct. */
  lemma {:induction false} ParseStatusName(st: OrderStatus)
    ensures ParseStatus(StatusName(st)) == Some(st)
  {
    match st
    case Created =>
    case PendingCash =>
    case Paid =>
    case Preparing =>
    case Ready =>
    case Served =>
    case Cancelled =>
  }

  /** The values the order schema's `status` enum admits. */
  const OrderStatusEnum: seq<string> := ["CREATED", "PENDING_CASH", "PAID", "PREPARING", "READY", "SERVED"]

  /** The schema enum covers every status except the one the cleanup job writes. */
  lemma SchemaEnumOmitsCancelled(st: OrderStatus)
    ensures StatusName(st) in OrderStatusEnum <==> st != Cancelled
  {
    match st
    case Cancelled =>
      assert StatusName(st)[1] == 'A';
      assert forall i :: 0 <= i < |OrderStatusEnum| ==> OrderStatusEnum[i] != "CANCELLED";
    case _ =>
  }

  datatype PaymentMethod = Online | Cash

  datatype OrderItem = OrderItem(
    menuItemId: Id,
    name: string,
    quantity: int,
    price: Paise,
    specialInstructions: string)

  datatype Order = Order(
    tableId: Id,
    items: seq<OrderItem>,
    subtotal: Paise,
    tax: Paise,
    serviceCharge: Paise,
    totalAmount: Paise,
    status: OrderStatus,
    paymentId: Option<Id>,
    sessionId: string,
    customerName: string,
    customerPhone: string,
    paymentMethod: PaymentMethod,
    createdAt: Time)

  /** The line-item schema's constraint: `quantity` is at least 1. */
  predicate ValidOrderItem(item: OrderItem) {
    item.quantity >= 1
  }

  /** An order as `Order.create` stores it: the schema fills in status CREATED, method ONLINE and no payment. */
  function NewOrder(tableId: Id, items: seq<OrderItem>, subtotal: Paise, tax: Paise, serviceCharge: Paise,
                    totalAmount: Paise, sessionId: string, customerName: string, customerPhone: string,
                    now: Time): (o: Order)
    ensures o.status == Created && o.paymentMethod == Online && o.paymentId == None
    ensures o.tableId == tableId && o.items == items && o.sessionId == sessionId && o.createdAt == now
  {
    Order(tableId, items, subtotal, tax, serviceCharge, totalAmount, Created, None, sessionId,
          customerName, customerPhone, Online, now)
  }

  // ----- Table sessions (backend/src/models/TableSession.ts) -----

  datatype SessionStatus = Active | Expired | Completed

  /** A scan, a validation and an order each extend the session to 30 minutes from now. */
  const SESSION_DURATION: int := 30 * MINUTE

  datatype TableSession = TableSession(
    tableId: Id,
    sessionToken: string,
    status: SessionStatus,
    createdAt: Time,
    expiresAt: Time,
    lastActivityAt: Time)

  /** A session as the schema completes it when only table, token and expiry are given. */
  function NewSession(tableId: Id, token: string, expiresAt: Time, now: Time): (s: TableSession)
    ensures s.status == Active && s.lastActivityAt == now && s.createdAt == now
    ensures s.tableId == tableId && s.sessionToken == token && s.expiresAt == expiresAt
  {
    TableSession(tableId, token, Active, now, expiresAt, now)
  }

  /** A byte of randomness. */
  type Byte = b: int | 0 <= b < 256

  predicate IsHexChar(c: char) {
    '0' <= c <= '9' || 'a' <= c <= 'f'
  }

  /** The lower-case hex digit of a nibble. */
  function HexDigit(v: int): (c: char)
    requires 0 <= v < 16
    ensures IsHexChar(c)
  {
    if v < 10 then ('0' as int + v) as char else ('a' as int + v - 10) as char
  }

  /** `buffer.toString('hex')`: two lower-case hex digits per byte, high nibble first. */
  function ToHex(bytes: seq<Byte>): (s: string)
    ensures |s| == 2 * |bytes|
    ensures forall i :: 0 <= i < |s| ==> IsHexChar(s[i])
  {
    if bytes == [] then []
    else [HexDigit(bytes[0] / 16), HexDigit(bytes[0] % 16)] + ToHex(bytes[1..])
  }

  function HexValue(c: char): (v: int)
    requires IsHexChar(c)
    ensures 0 <= v < 16 && HexDigit(v) == c
  {
    if c <= '9' then c as int - '0' as int else c as int - 'a' as int + 10
  }

  /** Reads back two hex digits per byte. */
  function FromHex(s: string): seq<Byte>
    requires |s| % 2 == 0
    requires forall i :: 0 <= i < |s| ==> IsHexChar(s[i])
  {
    if s == [] then [] else [16 * HexValue(s[0]) + HexValue(s[1])] + FromHex(s[2..])
  }

  /** Hex encoding loses nothing: different random bytes give different tokens. */
  lemma {:induction false} FromHexToHex(bytes: seq<Byte>)
    ensures FromHex(ToHex(bytes)) == bytes
  {
    if bytes != [] {
      var b := bytes[0];
      var s := ToHex(bytes);
      var rest := ToHex(bytes[1..]);
      assert s[0] == HexDigit(b / 16) && s[1] == HexDigit(b % 16);
      assert s[2..] == rest;
      FromHexToHex(bytes[1..]);
      assert bytes == [b] + bytes[1..];
    }
  }

  /** What `generateSessionToken` produces: 64 lower-case hex characters. */
  predicate IsSessionToken(s: string) {
    |s| == 64 && forall i :: 0 <= i < |s| ==> IsHexChar(s[i])
  }

  /** `crypto.randomBytes(32).toString('hex')`, the 32 random bytes coming in as a parameter. */
  function GenerateSessionToken(random: seq<Byte>): (token: string)
    requires |random| == 32
    ensures IsSessionToken(token)
  {
    ToHex(random)
  }

  // ----- Payments (backend/src/models/Payment.ts) -----

  /** The payment statuses. `Failed` is declared by the schema and never written by the routes. */
  datatype PaymentStatus = Pending | Success | Failed

  datatype Payment = Payment(
    orderId: Id,
    gateway: string,
    razorpayOrderId: string,
    razorpayPaymentId: Option<string>,
    razorpaySignature: Option<string>,
    amount: Paise,
    currency: string,
    status: PaymentStatus)

  /** A payment as `Payment.create` stores it: gateway razorpay, currency INR, no gateway payment yet. */
  function NewPayment(orderId: Id, razorpayOrderId: string, amount: Paise, status: PaymentStatus): (p: Payment)
    ensures p.gateway == "razorpay" && p.currency == "INR"
    ensures p.razorpayPaymentId == None && p.razorpaySignature == None
    ensures p.orderId == orderId && p.razorpayOrderId == razorpayOrderId && p.amount == amount && p.status == status
  {
    Payment(orderId, "razorpay", razorpayOrderId, None, None, amount, "INR", status)
  }

  // ----- Tables (backend/src/models/Table.ts) -----

  datatype Table = Table(tableNumber: int, qrCodeUrl: string, qrCodeData: string, isActive: bool, capacity: int)

  /** A table as `Table.create` stores it: active, no QR yet, capacity 4 unless one is given. */
  function NewTable(tableNumber: int, capacity: Option<int>): (t: Table)
    ensures t.isActive && t.qrCodeUrl == "" && t.qrCodeData == ""
    ensures t.tableNumber == tableNumber
    ensures t.capacity == if capacity.Some? then capacity.value else 4
  {
    Table(tableNumber, "", "", true, capacity.GetOr(4))
  }

  // ----- Menu items (backend/src/models/MenuItem.ts) -----

  datatype MenuItem = MenuItem(
    name: string,
    description: string,
    category: string,
    price: Paise,
    imageUrl: string,
    isAvailable: bool,
    preparationTime: int,
    tags: seq<string>)

  /** A menu item as `MenuItem.create` stores it: the optional fields take their schema defaults. */
  function NewMenuItem(name: string, category: string, price: Paise, description: Option<string>,
                       imageUrl: Option<string>, isAvailable: Option<bool>, preparationTime: Option<int>,
                       tags: Option<seq<string>>): (m: MenuItem)
    ensures m.name == name && m.category == category && m.price == price
    ensures m.description == (if description.Some? then description.value else "")
    ensures m.imageUrl == (if imageUrl.Some? then imageUrl.value else "")
    ensures m.isAvailable == (isAvailable.None? || isAvailable.value)
    ensures m.preparationTime == (if preparationTime.Some? then preparationTime.value else 15)
    ensures m.tags == (if tags.Some? then tags.value else [])
  {
    MenuItem(name, description.GetOr(""), category, price, imageUrl.GetOr(""), isAvailable.GetOr(true),
             preparationTime.GetOr(15), tags.GetOr([]))
  }
}
