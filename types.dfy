/**
 * The domain vocabulary of the delivery platform: the enumerations and
 * records declared in src/types.ts, the rows of the server's tables, and the
 * JSON bodies that the clients send to the server.
 *
 * Every value that JavaScript can leave `undefined` (and SQLite store as NULL)
 * is an `Option`; time is integer milliseconds; money, weight, distance and
 * coordinates are `real`.
 */
module Types {

  datatype Option<+T> = None | Some(value: T)

  datatype Result<+T, +E> = Ok(value: T) | Err(error: E)

  // ---------------------------------------------------------------------------
  // Enumerations
  // ---------------------------------------------------------------------------

  datatype UserRole = Admin | Merchant | Rider | Customer

  datatype OrderStatus = Pending | Accepted | PickedUp | Delivered | Cancelled | Transferring

  datatype OrderType = Instant | Scheduled

  datatype ChatKind = Text | Voice | Photo | Video

  datatype ReportStatus = ReportPending | Approved | Rejected

  /** The statuses in which an order is waiting for a rider ("pending" or "transferring"). */
  predicate InDispatchPool(s: OrderStatus)
  {
    s == Pending || s == Transferring
  }

  // ---------------------------------------------------------------------------
  // The enumerations as the strings the database and the JSON bodies carry
  // ---------------------------------------------------------------------------

  function RoleName(r: UserRole): string
  {
    match r
    case Admin => "admin"
    case Merchant => "merchant"
    case Rider => "rider"
    case Customer => "customer"
  }

  /** Reading a role string: exactly the four role names are accepted. */
  function ParseRole(s: string): (r: Option<UserRole>)
    ensures r.Some? <==> s in {"admin", "merchant", "rider", "customer"}
    ensures r.Some? ==> RoleName(r.value) == s
  {
    if s == "admin" then Some(Admin)
    else if s == "merchant" then Some(Merchant)
    else if s == "rider" then Some(Rider)
    else if s == "customer" then Some(Customer)
    else None
  }

  function StatusName(s: OrderStatus): string
  {
    match s
    case Pending => "pending"
    case Accepted => "accepted"
    case PickedUp => "picked_up"
    case Delivered => "delivered"
    case Cancelled => "cancelled"
    case Transferring => "transferring"
  }

  /** Reading a status column: exactly the six status names are accepted. */
  function ParseStatus(s: string): (r: Option<OrderStatus>)
    ensures r.Some? <==> s in {"pending", "accepted", "picked_up", "delivered", "cancelled", "transferring"}
    ensures r.Some? ==> StatusName(r.value) == s
  {
    if s == "pending" then Some(Pending)
    else if s == "accepted" then Some(Accepted)
    else if s == "picked_up" then Some(PickedUp)
    else if s == "delivered" then Some(Delivered)
    else if s == "cancelled" then Some(Cancelled)
    else if s == "transferring" then Some(Transferring)
    else None
  }

  function OrderTypeName(t: OrderType): string
  {
    match t
    case Instant => "instant"
    case Scheduled => "scheduled"
  }

  function ParseOrderType(s: string): (r: Option<OrderType>)
    ensures r.Some? <==> s in {"instant", "scheduled"}
    ensures r.Some? ==> OrderTypeName(r.value) == s
  {
    if s == "instant" then Some(Instant)
    else if s == "scheduled" then Some(Scheduled)
    else None
  }

  function ChatKindName(k: ChatKind): string
  {
    match k
    case Text => "text"
    case Voice => "voice"
    case Photo => "photo"
    case Video => "video"
  }

  function ParseChatKind(s: string): (r: Option<ChatKind>)
    ensures r.Some? <==> s in {"text", "voice", "photo", "video"}
    ensures r.Some? ==> ChatKindName(r.value) == s
  {
    if s == "text" then Some(Text)
    else if s == "voice" then Some(Voice)
    else if s == "photo" then Some(Photo)
    else if s == "video" then Some(Video)
    else None
  }

  function ReportStatusName(s: ReportStatus): string
  {
    match s
    case ReportPending => "pending"
    case Approved => "approved"
    case Rejected => "rejected"
  }

  function ParseReportStatus(s: string): (r: Option<ReportStatus>)
    ensures r.Some? <==> s in {"pending", "approved", "rejected"}
    ensures r.Some? ==> ReportStatusName(r.value) == s
  {
    if s == "pending" then Some(ReportPending)
    else if s == "approved" then Some(Approved)
    else if s == "rejected" then Some(Rejected)
    else None
  }

  /** Each enumeration is stored as a distinct string and read back as itself. */
  lemma NamesRoundTrip(r: UserRole, s: OrderStatus, t: OrderType, k: ChatKind, p: ReportStatus)
    ensures ParseRole(RoleName(r)) == Some(r)
    ensures ParseStatus(StatusName(s)) == Some(s)
    ensures ParseOrderType(OrderTypeName(t)) == Some(t)
    ensures ParseChatKind(ChatKindName(k)) == Some(k)
    ensures ParseReportStatus(ReportStatusName(p)) == Some(p)
  {
  }

  // ---------------------------------------------------------------------------
  // Records
  // ---------------------------------------------------------------------------

  /** A user as the clients see it: the users row without its password column. */
  datatype User = User(
    id: nat,
    username: string,
    role: UserRole,
    name: string,
    phone: string,
    balance: real,
    status: string,
    idCardUrl: Option<string>,
    age: Option<int>,
    gender: Option<string>,
    merchantName: Option<string>,
    merchantAddress: Option<string>)

  /** A row of the users table: the public record plus the stored password hash. */
  datatype UserRow = UserRow(user: User, passwordHash: string)

  /**
   * An order. `riderId`, `acceptedAt` and `transferDeadline` are absent until an
   * accept sets them; `merchantName` and `merchantAddress` are filled only by the
   * hall query's join with the merchant's users row.
   */
  datatype Order = Order(
    id: nat,
    orderNumber: string,
    merchantId: Option<nat>,
    riderId: Option<nat>,
    customerId: Option<nat>,
    customerName: string,
    customerPhone: string,
    destinationAddress: string,
    destinationLat: real,
    destinationLng: real,
    weight: real,
    distance: real,
    price: real,
    status: OrderStatus,
    orderType: OrderType,
    scheduledTime: Option<string>,
    remarks: Option<string>,
    createdAt: int,
    acceptedAt: Option<int>,
    pickedUpAt: Option<int>,
    deliveredAt: Option<int>,
    transferDeadline: Option<int>,
    merchantName: Option<string>,
    merchantAddress: Option<string>)

  datatype ChatMessage = ChatMessage(
    id: nat,
    orderId: nat,
    senderId: Option<nat>,
    message: string,
    kind: ChatKind,
    url: Option<string>,
    createdAt: int)

  datatype Report = Report(
    id: nat,
    orderId: nat,
    riderId: nat,
    kind: string,
    content: string,
    photoUrl: Option<string>,
    lat: real,
    lng: real,
    status: ReportStatus,
    createdAt: int)

  // ---------------------------------------------------------------------------
  // Request bodies shared by the clients and the server
  // ---------------------------------------------------------------------------

  /** The body of POST /api/orders/create. */
  datatype CreateOrderRequest = CreateOrderRequest(
    orderNumber: string,
    merchantId: Option<nat>,
    customerName: string,
    customerPhone: string,
    destinationAddress: string,
    destinationLat: real,
    destinationLng: real,
    weight: real,
    distance: real,
    price: real,
    orderType: OrderType,
    scheduledTime: Option<string>,
    remarks: Option<string>)

  /** The body of POST /api/auth/register, before validation: the role is still a string. */
  datatype RegisterBody = RegisterBody(
    username: string,
    password: string,
    role: string,
    name: string,
    phone: string)

  /** The body of POST /api/auth/login. */
  datatype LoginBody = LoginBody(username: string, password: string)

  /** The payload of the `chat:send` socket event. */
  datatype ChatSendRequest = ChatSendRequest(
    orderId: nat,
    senderId: Option<nat>,
    message: string,
    kind: ChatKind,
    url: Option<string>)

  /** The payload of the `order:accept` socket event. */
  datatype AcceptRequest = AcceptRequest(orderId: nat, riderId: Option<nat>)
}
