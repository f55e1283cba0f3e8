/**
 * The admin orders page's own logic: the countdown of days left in an
 * order's seven-day follow period, and the query string the page sends to
 * the orders list.
 */
module AdminOrdersClient {
  import opened Wrappers
  import opened Domain
  import opened Store
  import opened Constants
  import opened OrdersRoute
  import Orders

  // ---------------------------------------------------------------------------
  // getDaysLeft
  // ---------------------------------------------------------------------------

  /** `Math.ceil(a / b)` for a positive divisor, on whole numbers. */
  function CeilDiv(a: int, b: int): (q: int)
    requires b > 0
    ensures (q - 1) * b < a <= q * b
  {
    -((-a) / b)
  }

  /**
   * `getDaysLeft`: whole days, rounded up, until seven days after the
   * follow time, and 0 once that moment has passed; `now` is the clock
   * reading.
   */
  function GetDaysLeft(followedAt: Time, now: Time): (r: nat)
    ensures r == 0 <==> now >= followedAt + WEEK_MS
    ensures r > 0 ==> (r - 1) * DAY_MS < followedAt + WEEK_MS - now <= r * DAY_MS
    ensures now == followedAt ==> r == 7
    ensures now >= followedAt ==> r <= 7
  {
    var days := CeilDiv(followedAt + WEEK_MS - now, DAY_MS);
    if days < 0 then 0 else days
  }

  /** As the clock moves on, the countdown never goes up. */
  lemma DaysLeftNonIncreasing(followedAt: Time, now1: Time, now2: Time)
    requires now1 <= now2
    ensures GetDaysLeft(followedAt, now2) <= GetDaysLeft(followedAt, now1)
  {
  }

  /**
   * The page's countdown and the server's sweep agree: a FOLLOWED order is
   * promoted to READY_FOR_GIFTING exactly when its countdown shows 0.
   */
  lemma SweepWhenCountdownEnds(o: Order, now: Time)
    requires o.status == FOLLOWED && o.followedAt.Some?
    ensures Orders.IsStale(o, now) <==> GetDaysLeft(o.followedAt.value, now) == 0
  {
  }

  // ---------------------------------------------------------------------------
  // queryUrl
  // ---------------------------------------------------------------------------

  /** The parameter names the page sets. */
  datatype Key = Limit | Status | ExcludeStatus | SupplierId | Search | Sort | SortOrder

  function KeyName(k: Key): string {
    match k
    case Limit => "limit"
    case Status => "status"
    case ExcludeStatus => "excludeStatus"
    case SupplierId => "supplierId"
    case Search => "search"
    case Sort => "sort"
    case SortOrder => "order"
  }

  datatype Param = Param(key: Key, value: string)

  /** `URLSearchParams.get`: the first value under `key`. */
  function Lookup(params: seq<Param>, key: Key): (r: Option<string>) {
    if params == [] then None
    else if params[0].key == key then Some(params[0].value)
    else Lookup(params[1..], key)
  }

  /** The parameters with every entry under `key` removed. */
  function Without(params: seq<Param>, key: Key): (r: seq<Param>)
    ensures Lookup(r, key).None?
    ensures forall k :: k != key ==> Lookup(r, k) == Lookup(params, k)
  {
    if params == [] then []
    else if params[0].key == key then Without(params[1..], key)
    else [params[0]] + Without(params[1..], key)
  }

  /**
   * `URLSearchParams.set`: the first entry under `key` takes the value and
   * later ones are dropped; without one, the entry is appended.
   */
  function SetParam(params: seq<Param>, key: Key, value: string): (r: seq<Param>)
    ensures Lookup(r, key) == Some(value)
    ensures forall k :: k != key ==> Lookup(r, k) == Lookup(params, k)
  {
    if params == [] then [Param(key, value)]
    else if params[0].key == key then [Param(key, value)] + Without(params[1..], key)
    else [params[0]] + SetParam(params[1..], key, value)
  }

  /** One `params.set(key, value)` call. */
  method Set(params: seq<Param>, key: Key, value: string) returns (r: seq<Param>)
    ensures Lookup(r, key) == Some(value)
    ensures forall k :: k != key ==> Lookup(r, k) == Lookup(params, k)
  {
    r := SetParam(params, key, value);
  }

  /** The query the page's filters become, set parameter by parameter as the page does. */
  method QueryParams(search: string, statusFilter: string, supplierFilter: string, sort: string, order: string)
    returns (params: seq<Param>)
    ensures Lookup(params, Limit) == Some("300")
    ensures statusFilter != "ALL" ==> Lookup(params, Status) == Some(statusFilter) && Lookup(params, ExcludeStatus).None?
    ensures statusFilter == "ALL" ==> Lookup(params, ExcludeStatus) == Some("REFUNDED") && Lookup(params, Status).None?
    ensures Lookup(params, SupplierId) == if supplierFilter != "ALL" then Some(supplierFilter) else None
    ensures Lookup(params, Search) == if search != [] then Some(search) else None
    ensures Lookup(params, Sort) == Some(sort) && Lookup(params, SortOrder) == Some(order)
  {
    params := [];
    params := Set(params, Limit, "300");
    if statusFilter != "ALL" {
      params := Set(params, Status, statusFilter);
    } else {
      params := Set(params, ExcludeStatus, "REFUNDED");
    }
    if supplierFilter != "ALL" {
      params := Set(params, SupplierId, supplierFilter);
    }
    if search != [] {
      params := Set(params, Search, search);
    }
    params := Set(params, Sort, sort);
    params := Set(params, SortOrder, order);
  }

  /** `searchParams.get` for each parameter the orders list reads; `limit` is `Number` of its text. */
  function ReadQuery(params: seq<Param>, limit: Option<NumberParam>): OrdersQuery {
    OrdersQuery(Lookup(params, Status), Lookup(params, ExcludeStatus), Lookup(params, SupplierId), Lookup(params, Search), limit)
  }

  /**
   * The page's query, as the orders list reads it for an ADMIN: 300 rows at
   * most; the "ALL" filter hides REFUNDED orders and any other valid filter
   * selects that status; the supplier filter applies unless it is "ALL".
   */
  lemma AdminQueryPlan(
    sups: map<Id, Supplier>, admin: SessionUser, params: seq<Param>, search: string, statusFilter: string, supplierFilter: string)
    requires UniqueOwners(sups) && admin.role == ADMIN
    requires statusFilter != "ALL" ==> Lookup(params, Status) == Some(statusFilter)
    requires statusFilter == "ALL" ==> Lookup(params, ExcludeStatus) == Some("REFUNDED") && Lookup(params, Status).None?
    requires Lookup(params, SupplierId) == if supplierFilter != "ALL" then Some(supplierFilter) else None
    requires Lookup(params, Search) == if search != [] then Some(search) else None
    ensures var plan := PlanOrders(sups, admin, ReadQuery(params, Some(Whole(300))));
      && plan.FindOrders? && plan.take == 300
      && (statusFilter == "ALL" ==> plan.where.status == StatusNot(REFUNDED))
      && (statusFilter in ORDER_STATUS_VALUES ==> plan.where.status.StatusIs? && StatusName(plan.where.status.status) == statusFilter)
      && plan.where.supplierId == (if supplierFilter != "ALL" && supplierFilter != [] then Some(supplierFilter) else None)
      && plan.where.search == (if search != [] then Some(search) else None)
  {
    StatusValues();
    assert StatusName(REFUNDED) == "REFUNDED";
    assert "ALL" !in ORDER_STATUS_VALUES;
  }
}
