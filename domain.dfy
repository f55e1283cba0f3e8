/**
 * The persisted entities (users, suppliers, orders, balance logs), the two
 * database enums (Role, OrderStatus) and the session and HTTP error shapes
 * the route handlers exchange.
 */
module Domain {
  import opened Wrappers

  /** Database identifiers: generated cuids, never empty. */
  type Id = s: string | |s| > 0 witness "x"

  /** An instant as integer milliseconds since the epoch (`Date.getTime()`). */
  type Time = int

  const DAY_MS: int := 24 * 60 * 60 * 1000
  const WEEK_MS: int := 7 * DAY_MS

  datatype Role = ADMIN | SUPPLIER | VIEWER

  /** The enum's member names, as `nativeEnum(Role)` accepts them. */
  function RoleName(r: Role): string {
    match r
    case ADMIN => "ADMIN"
    case SUPPLIER => "SUPPLIER"
    case VIEWER => "VIEWER"
  }

  function ParseRole(s: string): (r: Option<Role>)
    ensures r.Some? <==> s in {"ADMIN", "SUPPLIER", "VIEWER"}
    ensures r.Some? ==> RoleName(r.value) == s
  {
    if s == "ADMIN" then Some(ADMIN)
    else if s == "SUPPLIER" then Some(SUPPLIER)
    else if s == "VIEWER" then Some(VIEWER)
    else None
  }

  datatype OrderStatus = PENDING | FOLLOWED | READY_FOR_GIFTING | COMPLETED | FAILED | REFUNDED

  /** REFUNDED and FAILED: the statuses under which an order's price is not held. */
  predicate IsReleasing(s: OrderStatus) {
    s == REFUNDED || s == FAILED
  }

  datatype User = User(id: Id, email: string, name: string, role: Role, passwordHash: string)

  datatype Supplier = Supplier(
    id: Id,
    userId: Id,
    name: string,
    diamondBalance: int,
    lowBalanceThreshold: int,
    googleSheetId: Option<string>,
    googleSyncEnabled: bool,
    createdAt: Time)

  datatype Order = Order(
    id: Id,
    mlbbId: string,
    serverId: string,
    ign: string,
    skinName: string,
    diamondPrice: int,
    supplierId: Id,
    assignedById: Id,
    status: OrderStatus,
    readyForGifting: bool,
    notes: Option<string>,
    releaseDate: Option<Time>,
    followedAt: Option<Time>,
    completedAt: Option<Time>,
    balanceDeductedAt: Option<Time>,
    createdAt: Time)

  /** One row of the append-only balance ledger. */
  datatype BalanceLog = BalanceLog(
    supplierId: Id,
    changeAmount: int,
    reason: string,
    orderId: Option<Id>,
    createdAt: Time)

  /** The signed-in user as the session carries it. */
  datatype SessionUser = SessionUser(id: Id, role: Role)

  /** A non-2xx JSON or text response of a route handler. */
  datatype HttpError = HttpError(status: int, message: string)

  /** The framework's own 500 for an exception the handler does not catch; it carries no message. */
  const UncaughtError := HttpError(500, "")
}
