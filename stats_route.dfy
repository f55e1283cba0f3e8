/**
 * The `/api/admin/stats` handler: for an ADMIN, how many orders there are,
 * how many are PENDING, and how many are ready for gifting but not yet
 * COMPLETED.
 */
module StatsRoute {
  import opened Wrappers
  import opened Domain

  datatype OrderCounts = OrderCounts(totalOrders: nat, pendingOrders: nat, readyOrders: nat)

  /** `where: { status: PENDING }`. */
  function PendingIds(orders: map<Id, Order>): (r: set<Id>)
    ensures forall id :: id in r <==> id in orders && orders[id].status == PENDING
  {
    set id | id in orders && orders[id].status == PENDING
  }

  /** `where: { readyForGifting: true, status: { notIn: [COMPLETED] } }`. */
  function ReadyIds(orders: map<Id, Order>): (r: set<Id>)
    ensures forall id :: id in r <==> id in orders && orders[id].readyForGifting && orders[id].status != COMPLETED
  {
    set id | id in orders && orders[id].readyForGifting && orders[id].status != COMPLETED
  }

  /**
   * GET: 401 unless an ADMIN is signed in; otherwise the three counts, each
   * of a subset of the orders.
   */
  function Stats(orders: map<Id, Order>, session: Option<SessionUser>): (r: Result<OrderCounts, HttpError>)
    ensures session.None? || session.value.role != ADMIN <==> r == Failure(HttpError(401, "Unauthorized"))
    ensures r.Success? ==>
      && r.value.totalOrders == |orders|
      && r.value.pendingOrders == |PendingIds(orders)|
      && r.value.readyOrders == |ReadyIds(orders)|
  {
    if session.None? || session.value.role != ADMIN then Failure(HttpError(401, "Unauthorized"))
    else Success(OrderCounts(|orders|, |PendingIds(orders)|, |ReadyIds(orders)|))
  }

  /** Neither the pending nor the ready count can exceed the total. */
  lemma CountsBounded(orders: map<Id, Order>, session: Option<SessionUser>)
    requires Stats(orders, session).Success?
    ensures Stats(orders, session).value.pendingOrders <= Stats(orders, session).value.totalOrders
    ensures Stats(orders, session).value.readyOrders <= Stats(orders, session).value.totalOrders
  {
    SubsetCount(PendingIds(orders), orders.Keys);
    SubsetCount(ReadyIds(orders), orders.Keys);
  }

  lemma {:induction false} SubsetCount(a: set<Id>, b: set<Id>)
    requires a <= b
    ensures |a| <= |b|
    decreases |b|
  {
    if a != {} {
      var x :| x in a;
      SubsetCount(a - {x}, b - {x});
    }
  }
}
