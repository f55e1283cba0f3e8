/**
 * src/lib/orders.ts: the balance-effect engine that updates one order and
 * deducts, refunds or transfers its price between supplier balances, and the
 * sweep that promotes orders followed for at least seven days.
 */
module Orders {
  import opened Wrappers
  import opened Domain
  import opened Ledger
  import opened Store

  /** `UpdateOrderParams`: every field but the order id may be left undefined. */
  datatype UpdateParams = UpdateParams(
    orderId: Id,
    status: Option<OrderStatus>,
    supplierId: Option<string>,
    readyForGifting: Option<bool>,
    notes: Option<string>,
    releaseDate: Option<Time>)

  /** Why the engine's transaction did not commit. */
  datatype UpdateFailure =
    | OrderNotFound     // the engine's own "Order not found" error
    | SupplierNotFound  // the store rejects a write to a supplier that does not exist

  // ---------------------------------------------------------------------------
  // The decisions of the engine, as functions of the loaded order
  // ---------------------------------------------------------------------------

  /** `params.status ?? order.status`. */
  function NextStatus(o: Order, p: UpdateParams): (r: OrderStatus)
    ensures p.status.Some? ==> r == p.status.value
    ensures p.status.None? ==> r == o.status
  {
    p.status.GetOr(o.status)
  }

  /** `params.supplierId ?? order.supplierId`: an empty string is kept, and no supplier has it. */
  function TargetSupplierId(o: Order, p: UpdateParams): (r: string)
    ensures p.supplierId.Some? ==> r == p.supplierId.value
    ensures p.supplierId.None? ==> r == o.supplierId
  {
    if p.supplierId.Some? then p.supplierId.value else o.supplierId
  }

  /**
   * `params.supplierId && params.supplierId !== order.supplierId`: an empty
   * string is falsy, so the target is then "" although nothing changes.
   */
  predicate IsSupplierChanging(o: Order, p: UpdateParams)
    ensures IsSupplierChanging(o, p) <==> TargetSupplierId(o, p) != o.supplierId && TargetSupplierId(o, p) != ""
  {
    p.supplierId.Some? && p.supplierId.value != "" && p.supplierId.value != o.supplierId
  }

  /** Case 1: the order holds no deduction and the next status is neither REFUNDED nor FAILED. */
  predicate ShouldDeduct(o: Order, p: UpdateParams)
    ensures ShouldDeduct(o, p) <==>
      o.balanceDeductedAt.None? && NextStatus(o, p) != REFUNDED && NextStatus(o, p) != FAILED
  {
    !IsReleasing(NextStatus(o, p)) && o.balanceDeductedAt.None?
  }

  /** Case 2: the order holds a deduction and the next status is REFUNDED or FAILED. */
  predicate ShouldRefund(o: Order, p: UpdateParams)
    ensures ShouldRefund(o, p) <==>
      o.balanceDeductedAt.Some? && (NextStatus(o, p) == REFUNDED || NextStatus(o, p) == FAILED)
  {
    IsReleasing(NextStatus(o, p)) && o.balanceDeductedAt.Some?
  }

  /** Case 3: already deducted, supplier changed, not refunding; so the order stays open. */
  predicate ShouldTransfer(o: Order, p: UpdateParams)
    ensures ShouldTransfer(o, p) <==>
      IsSupplierChanging(o, p) && o.balanceDeductedAt.Some? && NextStatus(o, p) != REFUNDED && NextStatus(o, p) != FAILED
  {
    IsSupplierChanging(o, p) && o.balanceDeductedAt.Some? && !ShouldRefund(o, p)
  }

  /**
   * The transaction aborts when it must write to a supplier that does not
   * exist: connecting the order to a new supplier, or deducting from the
   * target supplier. A deduction with `supplierId` "" always aborts.
   */
  predicate Aborts(o: Order, p: UpdateParams, sups: map<Id, Supplier>)
    ensures Aborts(o, p, sups) ==> (IsSupplierChanging(o, p) || ShouldDeduct(o, p)) && TargetSupplierId(o, p) !in sups
    ensures p.supplierId == Some("") && ShouldDeduct(o, p) ==> Aborts(o, p, sups)
    ensures !IsSupplierChanging(o, p) && o.balanceDeductedAt.Some? ==> !Aborts(o, p, sups)
  {
    (IsSupplierChanging(o, p) || ShouldDeduct(o, p)) && TargetSupplierId(o, p) !in sups
  }

  /** The order row after the update: `updateData` applied to the loaded order. */
  function NextOrder(o: Order, p: UpdateParams, now: Time): (r: Order)
    ensures r.balanceDeductedAt.Some? <==> !IsReleasing(r.status)
    ensures r.status == NextStatus(o, p)
    ensures r == o.(status := r.status, supplierId := r.supplierId, readyForGifting := r.readyForGifting,
                    notes := r.notes, releaseDate := r.releaseDate, followedAt := r.followedAt,
                    completedAt := r.completedAt, balanceDeductedAt := r.balanceDeductedAt)
    ensures r.supplierId != o.supplierId ==> IsSupplierChanging(o, p) && r.supplierId == p.supplierId.value
    ensures IsSupplierChanging(o, p) ==> r.supplierId == p.supplierId.value
    ensures r.followedAt != o.followedAt ==> r.status == FOLLOWED && o.followedAt.None? && r.followedAt == Some(now)
    ensures r.status == FOLLOWED && o.followedAt.None? ==> r.followedAt == Some(now)
    ensures r.completedAt != o.completedAt ==> r.status == COMPLETED && o.completedAt.None? && r.completedAt == Some(now)
    ensures r.status == COMPLETED && o.completedAt.None? ==> r.completedAt == Some(now)
    ensures ShouldDeduct(o, p) ==> r.balanceDeductedAt == Some(now)
    ensures !ShouldDeduct(o, p) && !ShouldRefund(o, p) ==> r.balanceDeductedAt == o.balanceDeductedAt
    ensures r.releaseDate == (if p.releaseDate.Some? then p.releaseDate else o.releaseDate)
    ensures r.notes == (if p.notes.Some? then p.notes else o.notes)
    ensures p.readyForGifting.Some? ==> r.readyForGifting == p.readyForGifting.value
    ensures p.readyForGifting.None? && r.status == READY_FOR_GIFTING ==> r.readyForGifting
    ensures p.readyForGifting.None? && r.status != READY_FOR_GIFTING ==> r.readyForGifting == o.readyForGifting
  {
    var status := NextStatus(o, p);
    o.(
      status := status,
      supplierId := if IsSupplierChanging(o, p) then p.supplierId.value else o.supplierId,
      readyForGifting :=
        if p.readyForGifting.Some? then p.readyForGifting.value
        else if status == READY_FOR_GIFTING then true
        else o.readyForGifting,
      notes := if p.notes.Some? then p.notes else o.notes,
      releaseDate := if p.releaseDate.Some? then p.releaseDate else o.releaseDate,
      followedAt := if status == FOLLOWED && o.followedAt.None? then Some(now) else o.followedAt,
      completedAt := if status == COMPLETED && o.completedAt.None? then Some(now) else o.completedAt,
      balanceDeductedAt := NextDeductedAt(o, p, now))
  }

  /** The deduction stamp after an update: set when the balance is taken, cleared when it is given back. */
  function NextDeductedAt(o: Order, p: UpdateParams, now: Time): (r: Option<Time>)
    ensures r.Some? <==> !IsReleasing(NextStatus(o, p))
    ensures ShouldDeduct(o, p) ==> r == Some(now)
    ensures ShouldRefund(o, p) ==> r == None
    ensures !ShouldDeduct(o, p) && !ShouldRefund(o, p) ==> r == o.balanceDeductedAt
  {
    if ShouldDeduct(o, p) then Some(now)
    else if ShouldRefund(o, p) then None
    else o.balanceDeductedAt
  }

  /** The ledger entries the engine appends, in the order it writes them. */
  function EffectLogs(o: Order, p: UpdateParams, now: Time): (r: seq<BalanceLog>)
    requires ShouldDeduct(o, p) ==> TargetSupplierId(o, p) != ""
    ensures forall i :: 0 <= i < |r| ==> r[i].orderId == Some(o.id) && r[i].createdAt == now
    ensures forall i :: 0 <= i < |r| ==> r[i].changeAmount == o.diamondPrice || r[i].changeAmount == -o.diamondPrice
  {
    var target := TargetSupplierId(o, p);
    var price := o.diamondPrice;
    (if ShouldDeduct(o, p) then [BalanceLog(target, -price, "Order assigned: " + o.skinName, Some(o.id), now)] else [])
    + (if ShouldRefund(o, p) then [BalanceLog(o.supplierId, price, "Order refunded: " + o.skinName, Some(o.id), now)] else [])
    + (if ShouldTransfer(o, p) then
         [BalanceLog(o.supplierId, price, "Order reassigned (out): " + o.skinName, Some(o.id), now),
          BalanceLog(target, -price, "Order reassigned (in): " + o.skinName, Some(o.id), now)]
       else [])
  }

  // ---------------------------------------------------------------------------
  // Properties of the decisions
  // ---------------------------------------------------------------------------

  /** At most one of the three balance cases applies to an update. */
  lemma CasesExclusive(o: Order, p: UpdateParams)
    ensures !(ShouldDeduct(o, p) && ShouldRefund(o, p))
    ensures !(ShouldDeduct(o, p) && ShouldTransfer(o, p))
    ensures !(ShouldRefund(o, p) && ShouldTransfer(o, p))
  {
  }

  /** Case 1: one entry of minus the price against the target supplier, and the flag is stamped. */
  lemma DeductCase(o: Order, p: UpdateParams, now: Time)
    requires ShouldDeduct(o, p) && TargetSupplierId(o, p) != ""
    ensures EffectLogs(o, p, now) == [BalanceLog(TargetSupplierId(o, p), -o.diamondPrice, "Order assigned: " + o.skinName, Some(o.id), now)]
    ensures NextOrder(o, p, now).balanceDeductedAt == Some(now)
  {
  }

  /** Case 2: one entry of plus the price against the order's original supplier, and the flag is cleared. */
  lemma RefundCase(o: Order, p: UpdateParams, now: Time)
    requires ShouldRefund(o, p)
    ensures EffectLogs(o, p, now) == [BalanceLog(o.supplierId, o.diamondPrice, "Order refunded: " + o.skinName, Some(o.id), now)]
    ensures NextOrder(o, p, now).balanceDeductedAt.None?
  {
  }

  /**
   * Case 3: plus the price back to the old supplier, then minus the price at
   * the new one; the deduction stays recorded, now against the new supplier.
   */
  lemma TransferCase(o: Order, p: UpdateParams, now: Time)
    requires ShouldTransfer(o, p)
    ensures EffectLogs(o, p, now) ==
      [BalanceLog(o.supplierId, o.diamondPrice, "Order reassigned (out): " + o.skinName, Some(o.id), now),
       BalanceLog(p.supplierId.value, -o.diamondPrice, "Order reassigned (in): " + o.skinName, Some(o.id), now)]
    ensures NextOrder(o, p, now).balanceDeductedAt == o.balanceDeductedAt
    ensures NextOrder(o, p, now).supplierId == p.supplierId.value
  {
  }

  /** An order already deducted, kept open and left at its supplier, moves no balance. */
  lemma NoDoubleDeduction(o: Order, p: UpdateParams, now: Time)
    requires o.balanceDeductedAt.Some? && !IsReleasing(NextStatus(o, p)) && !IsSupplierChanging(o, p)
    ensures EffectLogs(o, p, now) == []
    ensures NextOrder(o, p, now).balanceDeductedAt == o.balanceDeductedAt
  {
  }

  /** In every case the target of a deduction is the order's supplier after the update. */
  lemma DeductTargetIsNewSupplier(o: Order, p: UpdateParams, now: Time)
    requires ShouldDeduct(o, p) && TargetSupplierId(o, p) != ""
    ensures TargetSupplierId(o, p) == NextOrder(o, p, now).supplierId
  {
  }

  /**
   * The entries appended for the order net, at every supplier, to the change
   * in what the order holds from that supplier; every entry names the order,
   * so the supplier's own total moves by the same amount.
   */
  lemma EffectNetForOrder(o: Order, p: UpdateParams, now: Time, s: Id)
    requires ShouldDeduct(o, p) ==> TargetSupplierId(o, p) != ""
    ensures OrderTotal(EffectLogs(o, p, now), o.id, s) == Outstanding(NextOrder(o, p, now), s) - Outstanding(o, s)
    ensures SupplierTotal(EffectLogs(o, p, now), s) == OrderTotal(EffectLogs(o, p, now), o.id, s)
  {
    var e := EffectLogs(o, p, now);
    CasesExclusive(o, p);
    if ShouldDeduct(o, p) {
      DeductTargetIsNewSupplier(o, p, now);
      assert e == [e[0]];
      ShortTotals(e[0], e[0], o.id, s);
    } else if ShouldRefund(o, p) {
      assert e == [e[0]];
      ShortTotals(e[0], e[0], o.id, s);
    } else if ShouldTransfer(o, p) {
      assert e == [e[0], e[1]];
      ShortTotals(e[0], e[1], o.id, s);
    } else {
      assert e == [];
    }
  }

  /** The entries appended name only the updated order. */
  lemma EffectNetForOthers(o: Order, p: UpdateParams, now: Time, other: Id, s: Id)
    requires ShouldDeduct(o, p) ==> TargetSupplierId(o, p) != ""
    requires other != o.id
    ensures OrderTotal(EffectLogs(o, p, now), other, s) == 0
  {
    OrderTotalAbsent(EffectLogs(o, p, now), other, s);
  }

  /**
   * Repeating an update is harmless: applying the same parameters to the
   * updated order changes nothing and appends no entry.
   */
  lemma RepeatedUpdateIsNoOp(o: Order, p: UpdateParams, t1: Time, t2: Time)
    requires ShouldDeduct(o, p) ==> TargetSupplierId(o, p) != ""
    ensures var n := NextOrder(o, p, t1);
      && !IsSupplierChanging(n, p) && !ShouldDeduct(n, p) && !ShouldRefund(n, p)
      && EffectLogs(n, p, t2) == []
      && NextOrder(n, p, t2) == n
  {
  }

  /**
   * When the transaction does not abort, every entry it writes is against an
   * existing supplier (so in particular a deduction never targets "").
   */
  lemma EffectEntriesAt(sups: map<Id, Supplier>, o: Order, p: UpdateParams, now: Time)
    requires o.supplierId in sups && !Aborts(o, p, sups)
    ensures ShouldDeduct(o, p) ==> TargetSupplierId(o, p) != ""
    ensures EntriesAt(sups, EffectLogs(o, p, now))
  {
    CasesExclusive(o, p);
    if ShouldDeduct(o, p) {
      var t := TargetSupplierId(o, p);
      assert t in sups;
    }
  }

  lemma EffectRecorded(orders: map<Id, Order>, logs: seq<BalanceLog>, o: Order, p: UpdateParams, now: Time)
    requires DeductionsRecorded(orders, logs)
    requires o.id in orders && orders[o.id] == o
    requires ShouldDeduct(o, p) ==> TargetSupplierId(o, p) != ""
    ensures DeductionsRecorded(orders[o.id := NextOrder(o, p, now)], logs + EffectLogs(o, p, now))
  {
    var e := EffectLogs(o, p, now);
    var orders' := orders[o.id := NextOrder(o, p, now)];
    forall o2, s | o2 in orders' ensures OrderTotal(logs + e, o2, s) == Outstanding(orders'[o2], s) {
      OrderTotalConcat(logs, e, o2, s);
      if o2 == o.id {
        EffectNetForOrder(o, p, now, s);
      } else {
        EffectNetForOthers(o, p, now, o2, s);
      }
    }
  }

  lemma EffectNonZero(logs: seq<BalanceLog>, o: Order, p: UpdateParams, now: Time)
    requires NoZeroEntries(logs) && o.diamondPrice > 0
    requires ShouldDeduct(o, p) ==> TargetSupplierId(o, p) != ""
    ensures NoZeroEntries(logs + EffectLogs(o, p, now))
  {
    var logs' := logs + EffectLogs(o, p, now);
    assert forall i :: 0 <= i < |logs| ==> logs'[i] == logs[i];
  }

  /** The update keeps every invariant of the ledger. */
  lemma UpdateKeepsBalanced(
    users: map<Id, User>, sups: map<Id, Supplier>, orders: map<Id, Order>, logs: seq<BalanceLog>,
    p: UpdateParams, now: Time)
    requires WellFormed(users, sups, orders, logs) && Balanced(sups, orders, logs)
    requires p.orderId in orders && !Aborts(orders[p.orderId], p, sups)
    ensures ShouldDeduct(orders[p.orderId], p) ==> TargetSupplierId(orders[p.orderId], p) != ""
    ensures EntriesAt(sups, EffectLogs(orders[p.orderId], p, now))
    ensures
      var o := orders[p.orderId];
      var e := EffectLogs(o, p, now);
      Balanced(Credited(sups, e), orders[p.orderId := NextOrder(o, p, now)], logs + e)
  {
    var o := orders[p.orderId];
    assert o.id == p.orderId && o.supplierId in sups && o.diamondPrice > 0;
    EffectEntriesAt(sups, o, p, now);
    AppendKeepsBalancesMatched(sups, logs, EffectLogs(o, p, now));
    EffectRecorded(orders, logs, o, p, now);
    EffectNonZero(logs, o, p, now);
  }

  /** The update keeps the tables well formed. */
  lemma UpdateKeepsWellFormed(
    users: map<Id, User>, sups: map<Id, Supplier>, orders: map<Id, Order>, logs: seq<BalanceLog>,
    p: UpdateParams, now: Time)
    requires WellFormed(users, sups, orders, logs)
    requires p.orderId in orders && !Aborts(orders[p.orderId], p, sups)
    ensures ShouldDeduct(orders[p.orderId], p) ==> TargetSupplierId(orders[p.orderId], p) != ""
    ensures EntriesAt(sups, EffectLogs(orders[p.orderId], p, now))
    ensures
      var o := orders[p.orderId];
      var e := EffectLogs(o, p, now);
      WellFormed(users, Credited(sups, e), orders[p.orderId := NextOrder(o, p, now)], logs + e)
  {
    var o := orders[p.orderId];
    var n := NextOrder(o, p, now);
    assert o.id == p.orderId && o.supplierId in sups;
    EffectEntriesAt(sups, o, p, now);
    ReplaceOrderKeepsWellFormed(users, sups, orders, logs, n);
    CreditKeepsWellFormed(users, sups, orders[o.id := n], logs, EffectLogs(o, p, now));
  }

  lemma ReplaceOrderKeepsWellFormed(
    users: map<Id, User>, sups: map<Id, Supplier>, orders: map<Id, Order>, logs: seq<BalanceLog>, n: Order)
    requires WellFormed(users, sups, orders, logs)
    requires n.id in orders && n.supplierId in sups && n.assignedById == orders[n.id].assignedById
    ensures WellFormed(users, sups, orders[n.id := n], logs)
  {
  }

  // ---------------------------------------------------------------------------
  // updateOrderWithBalanceEffects
  // ---------------------------------------------------------------------------

  /** Case 3's pair of entries: the price back to the old supplier, then taken from the new one. */
  function TransferEntries(order: Order, target: Id, now: Time): seq<BalanceLog> {
    [BalanceLog(order.supplierId, order.diamondPrice, "Order reassigned (out): " + order.skinName, Some(order.id), now),
     BalanceLog(target, -order.diamondPrice, "Order reassigned (in): " + order.skinName, Some(order.id), now)]
  }

  /** Move an order's outstanding deduction from its current supplier to `target`. */
  method TransferDeduction(db: Store, order: Order, target: Id, now: Time)
    requires order.supplierId in db.suppliers && target in db.suppliers
    modifies db
    ensures EntriesAt(old(db.suppliers), TransferEntries(order, target, now))
    ensures db.logs == old(db.logs) + TransferEntries(order, target, now)
    ensures db.suppliers == Credited(old(db.suppliers), TransferEntries(order, target, now))
    ensures db.users == old(db.users) && db.orders == old(db.orders)
  {
    ghost var sups0, logs0 := db.suppliers, db.logs;
    var out := BalanceLog(order.supplierId, order.diamondPrice, "Order reassigned (out): " + order.skinName, Some(order.id), now);
    var in_ := BalanceLog(target, -order.diamondPrice, "Order reassigned (in): " + order.skinName, Some(order.id), now);
    CreditedShort(sups0, out, in_);
    db.ApplyDelta(out.supplierId, out.changeAmount, out.reason, out.orderId, now);
    db.ApplyDelta(in_.supplierId, in_.changeAmount, in_.reason, in_.orderId, now);
    AppendTwo(logs0, out, in_);
  }

  /**
   * The three balance cases of the engine, each written as a balance change
   * plus its log entry.
   */
  method ApplyBalanceEffects(db: Store, order: Order, p: UpdateParams, now: Time)
    requires order.supplierId in db.suppliers
    requires !Aborts(order, p, db.suppliers)
    modifies db
    ensures ShouldDeduct(order, p) ==> TargetSupplierId(order, p) != ""
    ensures EntriesAt(old(db.suppliers), EffectLogs(order, p, now))
    ensures db.logs == old(db.logs) + EffectLogs(order, p, now)
    ensures db.suppliers == Credited(old(db.suppliers), EffectLogs(order, p, now))
    ensures db.users == old(db.users) && db.orders == old(db.orders)
  {
    EffectEntriesAt(db.suppliers, order, p, now);
    ghost var sups0, logs0 := db.suppliers, db.logs;
    ghost var applied: seq<BalanceLog> := [];
    var targetSupplierId := TargetSupplierId(order, p);
    // The three cases exclude one another (CasesExclusive), so at most one branch runs.
    CasesExclusive(order, p);
    if ShouldDeduct(order, p) {
      // Case 1: deducting from the new supplier (or the current one if not changing)
      var e := BalanceLog(targetSupplierId, -order.diamondPrice, "Order assigned: " + order.skinName, Some(order.id), now);
      CreditedShort(sups0, e, e);
      db.ApplyDelta(e.supplierId, e.changeAmount, e.reason, e.orderId, now);
      applied := [e];
      assert db.suppliers == Credited(sups0, applied) && db.logs == logs0 + applied;
    } else if ShouldRefund(order, p) {
      // Case 2: refunding the original supplier
      var e := BalanceLog(order.supplierId, order.diamondPrice, "Order refunded: " + order.skinName, Some(order.id), now);
      CreditedShort(sups0, e, e);
      db.ApplyDelta(e.supplierId, e.changeAmount, e.reason, e.orderId, now);
      applied := [e];
      assert db.suppliers == Credited(sups0, applied) && db.logs == logs0 + applied;
    } else if ShouldTransfer(order, p) {
      // Case 3: transferring an outstanding deduction to the new supplier
      TransferDeduction(db, order, targetSupplierId, now);
      applied := TransferEntries(order, targetSupplierId, now);
    }
    assert applied == EffectLogs(order, p, now);
  }

  /**
   * Update one order's status, supplier, readiness, notes and release date,
   * and apply the balance effect the change implies, as one transaction: on
   * failure nothing changes.
   */
  method UpdateOrderWithBalanceEffects(db: Store, p: UpdateParams, now: Time) returns (r: Result<Order, UpdateFailure>)
    requires db.Valid() && db.Balanced()
    modifies db
    ensures db.Valid() && db.Balanced()
    ensures p.orderId !in old(db.orders) ==>
      r == Failure(OrderNotFound)
      && db.orders == old(db.orders) && db.suppliers == old(db.suppliers) && db.logs == old(db.logs)
    ensures p.orderId in old(db.orders) && Aborts(old(db.orders)[p.orderId], p, old(db.suppliers)) ==>
      r == Failure(SupplierNotFound)
      && db.orders == old(db.orders) && db.suppliers == old(db.suppliers) && db.logs == old(db.logs)
    ensures p.orderId in old(db.orders) && !Aborts(old(db.orders)[p.orderId], p, old(db.suppliers)) ==>
      var o := old(db.orders)[p.orderId];
      && (ShouldDeduct(o, p) ==> TargetSupplierId(o, p) != "")
      && r == Success(NextOrder(o, p, now))
      && db.orders == old(db.orders)[p.orderId := NextOrder(o, p, now)]
      && db.logs == old(db.logs) + EffectLogs(o, p, now)
      && db.suppliers == Credited(old(db.suppliers), EffectLogs(o, p, now))
    ensures db.users == old(db.users)
  {
    if p.orderId !in db.orders {
      return Failure(OrderNotFound);
    }
    var order := db.orders[p.orderId];
    // A write to a missing supplier makes the store throw and the transaction roll back.
    if Aborts(order, p, db.suppliers) {
      return Failure(SupplierNotFound);
    }
    ghost var users0, sups0, orders0, logs0 := db.users, db.suppliers, db.orders, db.logs;
    assert order.id == p.orderId && order.supplierId in db.suppliers;
    var updateData := NextOrder(order, p, now);
    db.orders := db.orders[order.id := updateData];
    ApplyBalanceEffects(db, order, p, now);
    UpdateKeepsWellFormed(users0, sups0, orders0, logs0, p, now);
    UpdateKeepsBalanced(users0, sups0, orders0, logs0, p, now);
    r := Success(db.orders[order.id]);
  }

  // ---------------------------------------------------------------------------
  // checkAndMarkReadyOrders
  // ---------------------------------------------------------------------------

  /** FOLLOWED, with `followedAt` at or before seven days before `now`. */
  predicate IsStale(o: Order, now: Time)
    ensures IsStale(o, now) ==> o.status == FOLLOWED && o.followedAt.Some? && now - o.followedAt.value >= WEEK_MS
    ensures o.status == FOLLOWED && o.followedAt.Some? && now >= o.followedAt.value + WEEK_MS ==> IsStale(o, now)
  {
    o.status == FOLLOWED && o.followedAt.Some? && o.followedAt.value <= now - WEEK_MS
  }

  /** An order that is stale stays stale as the clock moves on. */
  lemma StaleStaysStale(o: Order, now: Time, later: Time)
    requires IsStale(o, now) && now <= later
    ensures IsStale(o, later)
  {
  }

  function Promote(o: Order): Order {
    o.(status := READY_FOR_GIFTING, readyForGifting := true)
  }

  /** The order table after the sweep. */
  function Swept(orders: map<Id, Order>, now: Time): map<Id, Order> {
    map id | id in orders :: if IsStale(orders[id], now) then Promote(orders[id]) else orders[id]
  }

  /** The orders the sweep promotes. */
  function StaleIds(orders: map<Id, Order>, now: Time): (r: set<Id>)
    ensures r <= orders.Keys
  {
    set id | id in orders && IsStale(orders[id], now)
  }

  /**
   * The sweep promotes exactly the stale orders to READY_FOR_GIFTING with
   * `readyForGifting` set, and leaves every other field and order alone.
   */
  lemma SweptOrders(orders: map<Id, Order>, now: Time, id: Id)
    requires id in orders
    ensures id in Swept(orders, now)
    ensures IsStale(orders[id], now) ==>
      Swept(orders, now)[id] == orders[id].(status := READY_FOR_GIFTING, readyForGifting := true)
    ensures !IsStale(orders[id], now) ==> Swept(orders, now)[id] == orders[id]
  {
  }

  /** A second sweep at the same instant finds nothing and changes nothing. */
  lemma SweepIdempotent(orders: map<Id, Order>, now: Time)
    ensures StaleIds(Swept(orders, now), now) == {}
    ensures Swept(Swept(orders, now), now) == Swept(orders, now)
  {
  }

  /** The sweep keeps the tables well formed and the ledger balanced. */
  lemma SweepKeepsInvariants(
    users: map<Id, User>, sups: map<Id, Supplier>, orders: map<Id, Order>, logs: seq<BalanceLog>, now: Time)
    requires WellFormed(users, sups, orders, logs) && Balanced(sups, orders, logs)
    ensures WellFormed(users, sups, Swept(orders, now), logs) && Balanced(sups, Swept(orders, now), logs)
  {
    var m := Swept(orders, now);
    forall o, s | o in m ensures OrderTotal(logs, o, s) == Outstanding(m[o], s) {
      assert Outstanding(m[o], s) == Outstanding(orders[o], s);
    }
  }

  /** The stale orders among `ids`. */
  ghost function StaleAmong(orders: map<Id, Order>, now: Time, ids: set<Id>): set<Id> {
    set id | id in ids && id in orders && IsStale(orders[id], now)
  }

  /** The order table with the stale orders among `ids` promoted. */
  ghost function SweptOn(orders: map<Id, Order>, now: Time, ids: set<Id>): map<Id, Order> {
    map id | id in orders :: if id in ids && IsStale(orders[id], now) then Promote(orders[id]) else orders[id]
  }

  /** Visiting one more order: promote it if stale, and count it. */
  lemma SweepStep(orders: map<Id, Order>, now: Time, ids: set<Id>, id: Id)
    requires id !in ids && id in orders
    ensures SweptOn(orders, now, ids)[id] == orders[id]
    ensures IsStale(orders[id], now) ==>
      && SweptOn(orders, now, ids + {id}) == SweptOn(orders, now, ids)[id := Promote(orders[id])]
      && |StaleAmong(orders, now, ids + {id})| == |StaleAmong(orders, now, ids)| + 1
    ensures !IsStale(orders[id], now) ==>
      && SweptOn(orders, now, ids + {id}) == SweptOn(orders, now, ids)
      && StaleAmong(orders, now, ids + {id}) == StaleAmong(orders, now, ids)
  {
    if IsStale(orders[id], now) {
      assert StaleAmong(orders, now, ids + {id}) == StaleAmong(orders, now, ids) + {id};
    }
  }

  /** The loop of the sweep over the order table: promote each stale order, counting them. */
  method SweepOrders(before: map<Id, Order>, now: Time) returns (orders: map<Id, Order>, count: nat)
    ensures orders == Swept(before, now)
    ensures count == |StaleIds(before, now)|
  {
    orders := before;
    var todo := before.Keys;
    ghost var done: set<Id> := {};
    assert orders == SweptOn(before, now, done);
    count := 0;
    while todo != {}
      invariant todo !! done && todo + done == before.Keys
      invariant orders == SweptOn(before, now, done)
      invariant count == |StaleAmong(before, now, done)|
      decreases todo
    {
      var id :| id in todo;
      SweepStep(before, now, done, id);
      if IsStale(orders[id], now) {
        orders := orders[id := orders[id].(status := READY_FOR_GIFTING, readyForGifting := true)];
        count := count + 1;
      }
      todo := todo - {id};
      done := done + {id};
    }
    assert StaleAmong(before, now, done) == StaleIds(before, now);
    assert SweptOn(before, now, done) == Swept(before, now);
  }

  /**
   * `checkAndMarkReadyOrders`: promote every stale order; the count is the
   * number promoted, and no balance or ledger entry changes.
   */
  method CheckAndMarkReadyOrders(db: Store, now: Time) returns (count: nat)
    requires db.Valid() && db.Balanced()
    modifies db
    ensures db.Valid() && db.Balanced()
    ensures db.orders == Swept(old(db.orders), now)
    ensures count == |StaleIds(old(db.orders), now)|
    ensures db.suppliers == old(db.suppliers) && db.logs == old(db.logs) && db.users == old(db.users)
  {
    SweepKeepsInvariants(db.users, db.suppliers, db.orders, db.logs, now);
    var swept;
    swept, count := SweepOrders(db.orders, now);
    db.orders := swept;
  }
}
