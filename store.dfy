/**
 * The database the route handlers and the order engine work on: the user,
 * supplier and order tables, keyed by id, and the append-only balance log.
 * Each handler call is one atomic, sequential step over it.
 */
module Store {
  import opened Wrappers
  import opened Domain
  import opened Ledger

  ghost predicate UniqueEmails(users: map<Id, User>) {
    forall a, b :: a in users && b in users && users[a].email == users[b].email ==> a == b
  }

  /** `Supplier.userId` is a unique column: a user owns at most one supplier. */
  ghost predicate UniqueOwners(sups: map<Id, Supplier>) {
    forall a, b :: a in sups && b in sups && sups[a].userId == sups[b].userId ==> a == b
  }

  /** Keys match the rows' ids, unique columns are unique, foreign keys resolve. */
  ghost predicate WellFormed(users: map<Id, User>, sups: map<Id, Supplier>, orders: map<Id, Order>, logs: seq<BalanceLog>) {
    && (forall id :: id in users ==> users[id].id == id)
    && UniqueEmails(users)
    && (forall id :: id in sups ==> sups[id].id == id && sups[id].userId in users)
    && UniqueOwners(sups)
    && (forall id :: id in orders ==> orders[id].id == id && orders[id].supplierId in sups && orders[id].assignedById in users)
    && (forall i :: 0 <= i < |logs| ==> logs[i].supplierId in sups && (logs[i].orderId.Some? ==> logs[i].orderId.value in orders))
  }

  /** `user.findUnique({ where: { email } })`: the id of the user with that email. */
  function UserByEmail(users: map<Id, User>, email: string): (r: Option<Id>)
    requires UniqueEmails(users)
    ensures r.Some? ==> r.value in users && users[r.value].email == email
    ensures r.None? ==> forall id :: id in users ==> users[id].email != email
  {
    if exists id :: id in users && users[id].email == email then
      var id :| id in users && users[id].email == email; Some(id)
    else None
  }

  /**
   * Crediting entries against existing suppliers and orders, and appending
   * them to the log, keeps the tables well formed: only balances change.
   */
  lemma CreditKeepsWellFormed(
    users: map<Id, User>, sups: map<Id, Supplier>, orders: map<Id, Order>, logs: seq<BalanceLog>,
    entries: seq<BalanceLog>)
    requires WellFormed(users, sups, orders, logs)
    requires EntriesAt(sups, entries)
    requires forall i :: 0 <= i < |entries| ==> entries[i].orderId.Some? ==> entries[i].orderId.value in orders
    ensures WellFormed(users, Credited(sups, entries), orders, logs + entries)
  {
    var sups' := Credited(sups, entries);
    var logs' := logs + entries;
    forall id | id in sups ensures sups'[id].id == sups[id].id && sups'[id].userId == sups[id].userId {
      CreditedBalance(sups, entries, id);
    }
    assert forall i :: 0 <= i < |logs| ==> logs'[i] == logs[i];
    assert forall i :: 0 <= i < |entries| ==> logs'[|logs| + i] == entries[i];
    assert UniqueOwners(sups') by {
      forall a, b | a in sups' && b in sups' && sups'[a].userId == sups'[b].userId ensures a == b {
        assert sups[a].userId == sups[b].userId;
      }
    }
  }

  /** `supplier.findUnique({ where: { userId } })`: the supplier a user owns. */
  function SupplierOfUser(sups: map<Id, Supplier>, userId: Id): (r: Option<Id>)
    requires UniqueOwners(sups)
    ensures r.Some? ==> r.value in sups && sups[r.value].userId == userId
    ensures r.None? ==> forall id :: id in sups ==> sups[id].userId != userId
  {
    if exists id :: id in sups && sups[id].userId == userId then
      var id :| id in sups && sups[id].userId == userId; Some(id)
    else None
  }

  class Store {
    var users: map<Id, User>
    var suppliers: map<Id, Supplier>
    var orders: map<Id, Order>
    var logs: seq<BalanceLog>

    ghost predicate Valid()
      reads this
    {
      WellFormed(users, suppliers, orders, logs)
    }

    ghost predicate Balanced()
      reads this
    {
      Ledger.Balanced(suppliers, orders, logs)
    }

    constructor ()
      ensures Valid() && Balanced()
      ensures users == map[] && suppliers == map[] && orders == map[] && logs == []
    {
      users, suppliers, orders, logs := map[], map[], map[], [];
    }

    /**
     * The one balance-changing step that every ledger write goes through:
     * move supplier `supplierId`'s balance by `amount` and append the
     * matching log entry.
     */
    method ApplyDelta(supplierId: Id, amount: int, reason: string, orderId: Option<Id>, now: Time)
      requires supplierId in suppliers
      modifies this
      ensures logs == old(logs) + [BalanceLog(supplierId, amount, reason, orderId, now)]
      ensures suppliers == Credit(old(suppliers), BalanceLog(supplierId, amount, reason, orderId, now))
      ensures users == old(users) && orders == old(orders)
    {
      var entry := BalanceLog(supplierId, amount, reason, orderId, now);
      suppliers := Credit(suppliers, entry);
      logs := logs + [entry];
    }
  }
}
