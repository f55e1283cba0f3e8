/**
 * The `/api/orders` handlers. GET runs the ready-for-gifting sweep and then
 * derives the query it sends to the database (status filter, search,
 * supplier scope, row limit). POST creates an order and, unless its status
 * is REFUNDED or FAILED, takes the price from the supplier's balance with
 * a matching ledger entry.
 */
module OrdersRoute {
  import opened Wrappers
  import opened Domain
  import opened Strings
  import opened Ledger
  import opened Store
  import opened Constants
  import opened Validators
  import opened Orders

  // ---------------------------------------------------------------------------
  // GET
  // ---------------------------------------------------------------------------

  /** `Number(text)` for a query parameter: NaN, or a whole number. */
  datatype NumberParam = NaN | Whole(n: int)

  /** `Number(param ?? "200")`, then 200 on NaN and clamped to [1, 500] otherwise. */
  function QueryLimit(param: Option<NumberParam>): (r: int)
    ensures 1 <= r <= 500
    ensures param.None? || param == Some(NaN) ==> r == 200
    ensures param.Some? && param.value.Whole? ==>
      r == (if param.value.n < 1 then 1 else if param.value.n > 500 then 500 else param.value.n)
  {
    var n := match param
      case None => 200
      case Some(NaN) => 200
      case Some(Whole(n)) => n;
    if n < 1 then 1 else if n > 500 then 500 else n
  }

  /** Query-string parameters; `None` is a parameter that is not present. */
  datatype OrdersQuery = OrdersQuery(
    status: Option<string>, excludeStatus: Option<string>, supplierId: Option<string>,
    search: Option<string>, limit: Option<NumberParam>)

  datatype StatusFilter = AnyStatus | StatusIs(status: OrderStatus) | StatusNot(status: OrderStatus)

  /** `where.status`: a valid `status` wins over a valid `excludeStatus`; invalid values are ignored. */
  function StatusFilterOf(status: Option<string>, excludeStatus: Option<string>): (r: StatusFilter)
    ensures r.StatusIs? <==> status.Some? && status.value in ORDER_STATUS_VALUES
    ensures r.StatusIs? ==> StatusName(r.status) == status.value
    ensures r.StatusNot? <==> !(status.Some? && status.value in ORDER_STATUS_VALUES) && excludeStatus.Some? && excludeStatus.value in ORDER_STATUS_VALUES
    ensures r.StatusNot? ==> StatusName(r.status) == excludeStatus.value
  {
    if status.Some? && ParseStatus(status.value).Some? then StatusIs(ParseStatus(status.value).value)
    else if excludeStatus.Some? && ParseStatus(excludeStatus.value).Some? then StatusNot(ParseStatus(excludeStatus.value).value)
    else AnyStatus
  }

  /** A query parameter as a JavaScript condition sees it: present and non-empty. */
  function Truthy(param: Option<string>): (r: Option<string>)
    ensures r.Some? <==> param.Some? && param.value != []
    ensures r.Some? ==> r == param
  {
    if param.Some? && param.value != [] then param else None
  }

  datatype OrderWhere = OrderWhere(status: StatusFilter, search: Option<string>, supplierId: Option<string>)

  /** The query sent to `order.findMany`, or the early empty answer. */
  datatype OrderPlan = NoOrders | FindOrders(where: OrderWhere, take: int)

  /** `contains` with `mode: "insensitive"`: an exact occurrence counts, and the empty text is in every field. */
  predicate ContainsInsensitive(field: string, text: string)
    ensures Contains(field, text) ==> ContainsInsensitive(field, text)
    ensures text == [] ==> ContainsInsensitive(field, text)
  {
    if Contains(field, text) then LowerKeepsContains(field, text); true
    else Contains(ToLower(field), ToLower(text))
  }

  /** The where-clause: every filter it carries holds of the order; without filters every order matches. */
  predicate MatchesWhere(w: OrderWhere, o: Order)
    ensures w == OrderWhere(AnyStatus, None, None) ==> MatchesWhere(w, o)
    ensures MatchesWhere(w, o) && w.status.StatusIs? ==> o.status == w.status.status
    ensures MatchesWhere(w, o) && w.status.StatusNot? ==> o.status != w.status.status
    ensures MatchesWhere(w, o) && w.supplierId.Some? ==> o.supplierId == w.supplierId.value
    ensures w.status == AnyStatus && w.supplierId.None? && w.search.Some? && Contains(o.skinName, w.search.value) ==> MatchesWhere(w, o)
  {
    && (match w.status
        case AnyStatus => true
        case StatusIs(s) => o.status == s
        case StatusNot(s) => o.status != s)
    && (w.search.Some? ==>
          ContainsInsensitive(o.mlbbId, w.search.value) || ContainsInsensitive(o.ign, w.search.value)
          || ContainsInsensitive(o.skinName, w.search.value) || ContainsInsensitive(o.serverId, w.search.value))
    && (w.supplierId.Some? ==> o.supplierId == w.supplierId.value)
  }

  /** The orders a where-clause selects, before ordering and `take`. */
  function SelectedOrders(orders: map<Id, Order>, w: OrderWhere): (r: set<Id>)
    ensures r <= orders.Keys
    ensures forall id :: id in r <==> id in orders && MatchesWhere(w, orders[id])
  {
    set id | id in orders && MatchesWhere(w, orders[id])
  }

  /**
   * The query a signed-in user's request becomes. A SUPPLIER is always
   * scoped to the supplier they own, whatever `supplierId` says, and gets
   * the empty answer when they own none; other roles may pass `supplierId`.
   */
  function PlanOrders(sups: map<Id, Supplier>, user: SessionUser, q: OrdersQuery): (r: OrderPlan)
    requires UniqueOwners(sups)
    ensures user.role == SUPPLIER ==> (r.NoOrders? <==> SupplierOfUser(sups, user.id).None?)
    ensures user.role == SUPPLIER && r.FindOrders? ==> r.where.supplierId == Some(SupplierOfUser(sups, user.id).value)
    ensures user.role != SUPPLIER ==> r.FindOrders? && r.where.supplierId == Truthy(q.supplierId)
    ensures r.FindOrders? ==>
      && r.where.status == StatusFilterOf(q.status, q.excludeStatus)
      && r.where.search == Truthy(q.search)
      && r.take == QueryLimit(q.limit)
  {
    var status := StatusFilterOf(q.status, q.excludeStatus);
    var search := Truthy(q.search);
    var take := QueryLimit(q.limit);
    if user.role == SUPPLIER then
      match SupplierOfUser(sups, user.id)
      case None => NoOrders
      case Some(sid) => FindOrders(OrderWhere(status, search, Some(sid)), take)
    else FindOrders(OrderWhere(status, search, Truthy(q.supplierId)), take)
  }

  /** Every order a SUPPLIER can list belongs to the supplier their own user owns. */
  lemma SupplierSeesOwnOrders(sups: map<Id, Supplier>, orders: map<Id, Order>, user: SessionUser, q: OrdersQuery, id: Id)
    requires UniqueOwners(sups) && user.role == SUPPLIER
    requires PlanOrders(sups, user, q).FindOrders?
    requires id in SelectedOrders(orders, PlanOrders(sups, user, q).where)
    ensures orders[id].supplierId in sups && sups[orders[id].supplierId].userId == user.id
  {
  }

  /**
   * A valid `status` parameter selects exactly that status, whatever
   * `excludeStatus` says; otherwise a valid `excludeStatus` removes that
   * status; invalid values select nothing away.
   */
  lemma StatusParamsSelect(orders: map<Id, Order>, w: OrderWhere, q: OrdersQuery, id: Id)
    requires w.status == StatusFilterOf(q.status, q.excludeStatus) && id in SelectedOrders(orders, w)
    ensures q.status.Some? && q.status.value in ORDER_STATUS_VALUES ==> StatusName(orders[id].status) == q.status.value
    ensures !(q.status.Some? && q.status.value in ORDER_STATUS_VALUES) && q.excludeStatus.Some? && q.excludeStatus.value in ORDER_STATUS_VALUES ==>
      StatusName(orders[id].status) != q.excludeStatus.value
  {
    StatusValues();
  }

  /**
   * GET: without a session 401 and nothing changes; otherwise the sweep runs
   * first and the query is planned against the swept store.
   */
  method ListOrders(db: Store, session: Option<SessionUser>, q: OrdersQuery, now: Time) returns (r: Result<OrderPlan, HttpError>)
    requires db.Valid() && db.Balanced()
    modifies db
    ensures db.Valid() && db.Balanced()
    ensures db.suppliers == old(db.suppliers) && db.logs == old(db.logs) && db.users == old(db.users)
    ensures session.None? ==> r == Failure(HttpError(401, "Unauthorized")) && db.orders == old(db.orders)
    ensures session.Some? ==> db.orders == Swept(old(db.orders), now) && r == Success(PlanOrders(db.suppliers, session.value, q))
  {
    if session.None? {
      return Failure(HttpError(401, "Unauthorized"));
    }
    var _ := CheckAndMarkReadyOrders(db, now);
    r := Success(PlanOrders(db.suppliers, session.value, q));
  }

  // ---------------------------------------------------------------------------
  // POST
  // ---------------------------------------------------------------------------

  /** The row `order.create` writes for a validated payload. */
  function NewOrder(x: CreateOrderInput, id: Id, assignedById: Id, now: Time): (o: Order)
    requires x.supplierId != []
    ensures o.id == id && o.supplierId == x.supplierId && o.assignedById == assignedById
    ensures o.mlbbId == x.mlbbId && o.serverId == x.serverId && o.ign == x.ign && o.skinName == x.skinName
    ensures o.diamondPrice == x.diamondPrice && o.status == x.status && o.notes == x.notes && o.releaseDate == x.releaseDate
    ensures o.readyForGifting <==> x.status == READY_FOR_GIFTING || x.status == COMPLETED
    ensures o.completedAt.Some? <==> x.status == COMPLETED
    ensures o.balanceDeductedAt.Some? <==> !IsReleasing(x.status)
    ensures o.completedAt.Some? ==> o.completedAt.value == now
    ensures o.balanceDeductedAt.Some? ==> o.balanceDeductedAt.value == now
    ensures o.followedAt.None? && o.createdAt == now
  {
    var shouldComplete := x.status == COMPLETED;
    var shouldDeduct := x.status != REFUNDED && x.status != FAILED;
    Order(
      id, x.mlbbId, x.serverId, x.ign, x.skinName, x.diamondPrice, x.supplierId, assignedById, x.status,
      x.status == READY_FOR_GIFTING || shouldComplete, x.notes, x.releaseDate, None,
      if shouldComplete then Some(now) else None,
      if shouldDeduct then Some(now) else None,
      now)
  }

  /** The ledger entry a created order brings: its price taken from its supplier, when deducted. */
  function CreationLogs(o: Order, now: Time): (r: seq<BalanceLog>)
    ensures |r| <= 1 && (r == [] <==> o.balanceDeductedAt.None?)
    ensures forall i :: 0 <= i < |r| ==>
      r[i].supplierId == o.supplierId && r[i].changeAmount == -o.diamondPrice && r[i].orderId == Some(o.id) && r[i].createdAt == now
  {
    if o.balanceDeductedAt.Some? then [BalanceLog(o.supplierId, -o.diamondPrice, "Order assigned: " + o.skinName, Some(o.id), now)]
    else []
  }

  /** The entries of a created order net, for every supplier, to what the order holds from it. */
  lemma CreationNet(o: Order, now: Time, s: Id)
    ensures SupplierTotal(CreationLogs(o, now), s) == Outstanding(o, s)
    ensures OrderTotal(CreationLogs(o, now), o.id, s) == Outstanding(o, s)
  {
    var e := CreationLogs(o, now);
    if e != [] {
      ShortTotals(e[0], e[0], o.id, s);
    }
  }

  lemma AddOrderKeepsWellFormed(
    users: map<Id, User>, sups: map<Id, Supplier>, orders: map<Id, Order>, logs: seq<BalanceLog>, n: Order)
    requires WellFormed(users, sups, orders, logs)
    requires n.id !in orders && n.supplierId in sups && n.assignedById in users
    ensures WellFormed(users, sups, orders[n.id := n], logs)
  {
  }

  /** The new order's entries are recorded against it alone, and nothing earlier names it. */
  lemma CreationRecorded(orders: map<Id, Order>, logs: seq<BalanceLog>, n: Order, now: Time)
    requires DeductionsRecorded(orders, logs) && n.id !in orders
    requires forall i :: 0 <= i < |logs| ==> logs[i].orderId.Some? ==> logs[i].orderId.value in orders
    ensures DeductionsRecorded(orders[n.id := n], logs + CreationLogs(n, now))
  {
    var e := CreationLogs(n, now);
    var orders' := orders[n.id := n];
    forall o2, s | o2 in orders' ensures OrderTotal(logs + e, o2, s) == Outstanding(orders'[o2], s) {
      OrderTotalConcat(logs, e, o2, s);
      if o2 == n.id {
        OrderTotalAbsent(logs, n.id, s);
        CreationNet(n, now, s);
      } else {
        OrderTotalAbsent(e, o2, s);
      }
    }
  }

  lemma CreationNonZero(logs: seq<BalanceLog>, n: Order, now: Time)
    requires NoZeroEntries(logs) && n.diamondPrice > 0
    ensures NoZeroEntries(logs + CreationLogs(n, now))
  {
    var logs' := logs + CreationLogs(n, now);
    assert forall i :: 0 <= i < |logs| ==> logs'[i] == logs[i];
  }

  /** Creating an order with a positive price keeps the tables well formed and the ledger balanced. */
  lemma CreationKeepsInvariants(
    users: map<Id, User>, sups: map<Id, Supplier>, orders: map<Id, Order>, logs: seq<BalanceLog>, n: Order, now: Time)
    requires WellFormed(users, sups, orders, logs) && Balanced(sups, orders, logs)
    requires n.id !in orders && n.supplierId in sups && n.assignedById in users
    requires n.diamondPrice > 0 && (n.balanceDeductedAt.Some? <==> !IsReleasing(n.status))
    ensures EntriesAt(sups, CreationLogs(n, now))
    ensures WellFormed(users, Credited(sups, CreationLogs(n, now)), orders[n.id := n], logs + CreationLogs(n, now))
    ensures Balanced(Credited(sups, CreationLogs(n, now)), orders[n.id := n], logs + CreationLogs(n, now))
  {
    var e := CreationLogs(n, now);
    AddOrderKeepsWellFormed(users, sups, orders, logs, n);
    CreditKeepsWellFormed(users, sups, orders[n.id := n], logs, e);
    AppendKeepsBalancesMatched(sups, logs, e);
    CreationRecorded(orders, logs, n, now);
    CreationNonZero(logs, n, now);
  }

  /** The ledger half of the creation transaction: the deduction and its entry, when the order holds its price. */
  method RecordCreation(db: Store, order: Order, now: Time)
    requires order.supplierId in db.suppliers
    modifies db
    ensures EntriesAt(old(db.suppliers), CreationLogs(order, now))
    ensures db.logs == old(db.logs) + CreationLogs(order, now)
    ensures db.suppliers == Credited(old(db.suppliers), CreationLogs(order, now))
    ensures db.users == old(db.users) && db.orders == old(db.orders)
  {
    ghost var sups0, logs0 := db.suppliers, db.logs;
    if order.balanceDeductedAt.Some? {
      var entry := BalanceLog(order.supplierId, -order.diamondPrice, "Order assigned: " + order.skinName, Some(order.id), now);
      assert CreationLogs(order, now) == [entry];
      CreditedShort(sups0, entry, entry);
      db.ApplyDelta(order.supplierId, -order.diamondPrice, "Order assigned: " + order.skinName, Some(order.id), now);
    } else {
      assert CreationLogs(order, now) == [];
      assert logs0 + [] == logs0;
    }
  }

  /**
   * POST: 401 without a session, 403 for a non-ADMIN, the framework's
   * uncaught 500 for a body (`None`) that is not JSON, since it is read
   * before the `try`, 400 for an invalid payload, 404 for an unknown
   * supplier and the caught 500 when the insert fails (the generated id is
   * taken, or the session's user is gone); the store is then unchanged. Otherwise the order is created and, unless its status is
   * REFUNDED or FAILED, its price is taken from the supplier with one entry.
   */
  method CreateOrder(db: Store, session: Option<SessionUser>, body: Option<CreateOrderBody>, c: Coercions, newId: Id, now: Time)
    returns (r: Result<Order, HttpError>)
    requires db.Valid() && db.Balanced()
    modifies db
    ensures db.Valid() && db.Balanced()
    ensures db.users == old(db.users)
    ensures session.None? ==> r == Failure(HttpError(401, "Unauthorized"))
    ensures session.Some? && session.value.role != ADMIN ==> r == Failure(HttpError(403, "Forbidden"))
    ensures session.Some? && session.value.role == ADMIN && body.None? ==> r == Failure(UncaughtError)
    ensures session.Some? && session.value.role == ADMIN && body.Some? && ParseCreateOrder(body.value, c).None? ==>
      r == Failure(HttpError(400, "Invalid payload"))
    ensures session.Some? && session.value.role == ADMIN && body.Some? && ParseCreateOrder(body.value, c).Some? ==>
      (ParseCreateOrder(body.value, c).value.supplierId !in old(db.suppliers) ==> r == Failure(HttpError(404, "Supplier not found")))
    ensures (session.Some? && session.value.role == ADMIN && body.Some? && ParseCreateOrder(body.value, c).Some?
             && ParseCreateOrder(body.value, c).value.supplierId in old(db.suppliers)) ==>
      (r.Success? <==> newId !in old(db.orders) && session.value.id in old(db.users))
    ensures r.Failure? && r.error.status == 500 && body.Some? ==> r == Failure(HttpError(500, "Internal server error"))
    ensures r.Failure? ==> db.orders == old(db.orders) && db.suppliers == old(db.suppliers) && db.logs == old(db.logs)
    ensures r.Success? ==>
      && session.Some? && session.value.role == ADMIN && body.Some? && ParseCreateOrder(body.value, c).Some?
      && newId !in old(db.orders)
      && var x := ParseCreateOrder(body.value, c).value;
         x.supplierId in old(db.suppliers)
         && r.value == NewOrder(x, newId, session.value.id, now)
         && db.orders == old(db.orders)[newId := r.value]
         && db.logs == old(db.logs) + CreationLogs(r.value, now)
         && db.suppliers == Credited(old(db.suppliers), CreationLogs(r.value, now))
  {
    if session.None? {
      return Failure(HttpError(401, "Unauthorized"));
    }
    if session.value.role != ADMIN {
      return Failure(HttpError(403, "Forbidden"));
    }
    if body.None? {
      return Failure(UncaughtError);
    }
    var parsed := ParseCreateOrder(body.value, c);
    if parsed.None? {
      return Failure(HttpError(400, "Invalid payload"));
    }
    var x := parsed.value;
    if x.supplierId !in db.suppliers {
      return Failure(HttpError(404, "Supplier not found"));
    }
    if newId in db.orders || session.value.id !in db.users {
      return Failure(HttpError(500, "Internal server error"));
    }
    ghost var users0, sups0, orders0, logs0 := db.users, db.suppliers, db.orders, db.logs;
    var order := NewOrder(x, newId, session.value.id, now);
    CreationKeepsInvariants(users0, sups0, orders0, logs0, order, now);
    db.orders := db.orders[newId := order];
    RecordCreation(db, order, now);
    r := Success(order);
  }
}
