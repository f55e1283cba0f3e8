/**
 * The `/api/suppliers` handlers. GET lists suppliers: a SUPPLIER sees only
 * the supplier they own, other roles every supplier matching the search.
 * POST lets an ADMIN create a supplier account (a user with role SUPPLIER
 * and its supplier row) and records a positive starting balance in the
 * ledger.
 */
module SuppliersRoute {
  import opened Wrappers
  import opened Domain
  import opened Strings
  import opened Ledger
  import opened Store
  import opened Validators
  import opened OrdersRoute

  // ---------------------------------------------------------------------------
  // GET
  // ---------------------------------------------------------------------------

  /** `where.OR`: the supplier's name or its user's e-mail contains the search, ignoring case. */
  predicate MatchesSearch(users: map<Id, User>, s: Supplier, search: string)
    ensures Contains(s.name, search) ==> MatchesSearch(users, s, search)
    ensures search == [] ==> MatchesSearch(users, s, search)
  {
    ContainsInsensitive(s.name, search) || (s.userId in users && ContainsInsensitive(users[s.userId].email, search))
  }

  /**
   * The suppliers a signed-in user's GET returns (before ordering): a
   * SUPPLIER's own supplier, if any; for other roles every supplier, narrowed
   * by a non-empty `search`.
   */
  function ListedSuppliers(users: map<Id, User>, sups: map<Id, Supplier>, user: SessionUser, search: Option<string>): (r: set<Id>)
    requires UniqueOwners(sups)
    ensures r <= sups.Keys
    ensures user.role == SUPPLIER ==> (forall id :: id in r <==> id in sups && sups[id].userId == user.id)
    ensures user.role != SUPPLIER ==>
      (forall id :: id in r <==> id in sups && (Truthy(search).Some? ==> MatchesSearch(users, sups[id], search.value)))
  {
    if user.role == SUPPLIER then
      match SupplierOfUser(sups, user.id)
      case None => {}
      case Some(sid) => {sid}
    else if Truthy(search).Some? then set id | id in sups && MatchesSearch(users, sups[id], search.value)
    else sups.Keys
  }

  /** GET: 401 without a session, otherwise the listed suppliers. */
  function ListSuppliers(users: map<Id, User>, sups: map<Id, Supplier>, session: Option<SessionUser>, search: Option<string>): (r: Result<set<Id>, HttpError>)
    requires UniqueOwners(sups)
    ensures session.None? <==> r == Failure(HttpError(401, "Unauthorized"))
    ensures session.Some? ==> r == Success(ListedSuppliers(users, sups, session.value, search))
  {
    if session.None? then Failure(HttpError(401, "Unauthorized"))
    else Success(ListedSuppliers(users, sups, session.value, search))
  }

  /** A SUPPLIER's list has at most one entry, the supplier owned by their own user, and has it whenever one exists. */
  lemma {:induction false} SupplierSeesOnlyOwn(users: map<Id, User>, sups: map<Id, Supplier>, user: SessionUser, search: Option<string>)
    requires UniqueOwners(sups) && user.role == SUPPLIER
    ensures |ListedSuppliers(users, sups, user, search)| <= 1
    ensures ListedSuppliers(users, sups, user, search) == {} <==> SupplierOfUser(sups, user.id).None?
  {
    var r := ListedSuppliers(users, sups, user, search);
    match SupplierOfUser(sups, user.id) {
      case None =>
        assert r == {};
      case Some(sid) =>
        assert r == {sid};
    }
  }

  // ---------------------------------------------------------------------------
  // POST
  // ---------------------------------------------------------------------------

  /** The user row the transaction creates: lower-cased e-mail, role SUPPLIER, the hashed password. */
  function NewSupplierUser(x: CreateSupplierInput, id: Id, passwordHash: string): (u: User)
    ensures u.id == id && u.email == ToLower(x.email) && u.name == x.name && u.role == SUPPLIER && u.passwordHash == passwordHash
  {
    User(id, ToLower(x.email), x.name, SUPPLIER, passwordHash)
  }

  /** The supplier row: the payload's name, balance and threshold, sheet sync off. */
  function NewSupplier(x: CreateSupplierInput, id: Id, userId: Id, now: Time): (s: Supplier)
    ensures s.id == id && s.userId == userId && s.name == x.name
    ensures s.diamondBalance == x.diamondBalance && s.lowBalanceThreshold == x.lowBalanceThreshold
    ensures s.googleSheetId.None? && !s.googleSyncEnabled && s.createdAt == now
  {
    Supplier(id, userId, x.name, x.diamondBalance, x.lowBalanceThreshold, None, false, now)
  }

  /** The ledger entry for a new supplier: its starting balance, when positive, with no order. */
  function InitialLogs(s: Supplier, now: Time): (r: seq<BalanceLog>)
    ensures |r| <= 1 && (r == [] <==> s.diamondBalance <= 0)
    ensures forall i :: 0 <= i < |r| ==>
      r[i].supplierId == s.id && r[i].changeAmount == s.diamondBalance && r[i].reason == "Initial balance"
      && r[i].orderId.None? && r[i].createdAt == now
  {
    if s.diamondBalance > 0 then [BalanceLog(s.id, s.diamondBalance, "Initial balance", None, now)] else []
  }

  /** The new supplier's ledger sums to its starting balance, and names no order. */
  lemma InitialBalanceLogged(s: Supplier, now: Time, o: Id, t: Id)
    requires s.diamondBalance >= 0
    ensures SupplierTotal(InitialLogs(s, now), s.id) == s.diamondBalance
    ensures t != s.id ==> SupplierTotal(InitialLogs(s, now), t) == 0
    ensures OrderTotal(InitialLogs(s, now), o, t) == 0
  {
    var e := InitialLogs(s, now);
    if e != [] {
      ShortTotals(e[0], e[0], o, t);
      ShortTotals(e[0], e[0], o, s.id);
    }
  }

  /** Adding an account whose id and lower-cased e-mail are new keeps the tables well formed. */
  lemma AddSupplierKeepsWellFormed(
    users: map<Id, User>, sups: map<Id, Supplier>, orders: map<Id, Order>, logs: seq<BalanceLog>, u: User, s: Supplier, now: Time)
    requires WellFormed(users, sups, orders, logs)
    requires u.id !in users && (forall id :: id in users ==> users[id].email != u.email)
    requires s.id !in sups && s.userId == u.id
    ensures WellFormed(users[u.id := u], sups[s.id := s], orders, logs + InitialLogs(s, now))
  {
    var users', sups', logs' := users[u.id := u], sups[s.id := s], logs + InitialLogs(s, now);
    assert UniqueOwners(sups') by {
      forall a, b | a in sups' && b in sups' && sups'[a].userId == sups'[b].userId ensures a == b {
        if a != s.id && b != s.id {
          assert sups[a].userId == sups[b].userId;
        }
      }
    }
    assert forall i :: 0 <= i < |logs| ==> logs'[i] == logs[i];
  }

  /** Adding a supplier with its initial entry keeps balances equal to the ledger and the rest of the ledger invariants. */
  lemma AddSupplierKeepsBalanced(sups: map<Id, Supplier>, orders: map<Id, Order>, logs: seq<BalanceLog>, s: Supplier, now: Time)
    requires Balanced(sups, orders, logs) && EntriesAt(sups, logs)
    requires s.id !in sups && s.diamondBalance >= 0
    ensures Balanced(sups[s.id := s], orders, logs + InitialLogs(s, now))
  {
    var e := InitialLogs(s, now);
    var sups', logs' := sups[s.id := s], logs + e;
    forall t | t in sups' ensures sups'[t].diamondBalance == SupplierTotal(logs', t) {
      SupplierTotalConcat(logs, e, t);
      InitialBalanceLogged(s, now, t, t);
      if t == s.id {
        SupplierTotalAbsent(logs, s.id);
      }
    }
    forall o, t | o in orders ensures OrderTotal(logs', o, t) == Outstanding(orders[o], t) {
      OrderTotalConcat(logs, e, o, t);
      InitialBalanceLogged(s, now, o, t);
    }
    assert forall i :: 0 <= i < |logs| ==> logs'[i] == logs[i];
  }

  /** The ledger half of supplier creation: the initial-balance entry, when the balance is positive. */
  method RecordInitialBalance(db: Store, s: Supplier, now: Time)
    modifies db
    ensures db.logs == old(db.logs) + InitialLogs(s, now)
    ensures db.users == old(db.users) && db.suppliers == old(db.suppliers) && db.orders == old(db.orders)
  {
    if s.diamondBalance > 0 {
      db.logs := db.logs + [BalanceLog(s.id, s.diamondBalance, "Initial balance", None, now)];
    } else {
      assert db.logs + [] == db.logs;
    }
  }

  /**
   * POST: 401 without a session, 403 for a non-ADMIN, 400 for an invalid
   * payload or a role other than SUPPLIER, 409 when the lower-cased e-mail
   * is taken; the store is then unchanged. The handler catches nothing, so
   * a body (`None`) that is not JSON and a generated id that is taken both
   * end in the framework's uncaught 500, again with the store unchanged.
   * Otherwise the user and the supplier are created, and a positive
   * starting balance is logged as "Initial balance".
   */
  method CreateSupplier(
    db: Store, session: Option<SessionUser>, body: Option<CreateSupplierBody>, c: Coercions, hash: string -> string,
    newUserId: Id, newSupplierId: Id, now: Time)
    returns (r: Result<Supplier, HttpError>)
    requires db.Valid() && db.Balanced()
    modifies db
    ensures db.Valid() && db.Balanced()
    ensures db.orders == old(db.orders)
    ensures session.None? ==> r == Failure(HttpError(401, "Unauthorized"))
    ensures session.Some? && session.value.role != ADMIN ==> r == Failure(HttpError(403, "Forbidden"))
    ensures session.Some? && session.value.role == ADMIN && body.None? ==> r == Failure(UncaughtError)
    ensures session.Some? && session.value.role == ADMIN && body.Some? && ParseCreateSupplier(body.value, c).None? ==>
      r == Failure(HttpError(400, "Invalid payload"))
    ensures session.Some? && session.value.role == ADMIN && body.Some? && ParseCreateSupplier(body.value, c).Some? ==>
      (ParseCreateSupplier(body.value, c).value.role != SUPPLIER ==> r == Failure(HttpError(400, "Supplier role must be SUPPLIER")))
    ensures session.Some? && session.value.role == ADMIN && body.Some? && ParseCreateSupplier(body.value, c).Some? ==>
      (ParseCreateSupplier(body.value, c).value.role == SUPPLIER
       && UserByEmail(old(db.users), ToLower(ParseCreateSupplier(body.value, c).value.email)).Some? ==>
         r == Failure(HttpError(409, "Email already exists")))
    ensures (session.Some? && session.value.role == ADMIN && body.Some? && ParseCreateSupplier(body.value, c).Some?
             && ParseCreateSupplier(body.value, c).value.role == SUPPLIER
             && UserByEmail(old(db.users), ToLower(ParseCreateSupplier(body.value, c).value.email)).None?) ==>
      (r.Success? <==> newUserId !in old(db.users) && newSupplierId !in old(db.suppliers))
    ensures r.Failure? && r.error.status == 500 ==> r == Failure(UncaughtError)
    ensures r.Failure? ==> db.users == old(db.users) && db.suppliers == old(db.suppliers) && db.logs == old(db.logs)
    ensures r.Success? ==>
      && session.Some? && session.value.role == ADMIN && body.Some? && ParseCreateSupplier(body.value, c).Some?
      && var x := ParseCreateSupplier(body.value, c).value;
         x.role == SUPPLIER
         && UserByEmail(old(db.users), ToLower(x.email)).None?
         && newUserId !in old(db.users) && newSupplierId !in old(db.suppliers)
         && r.value == NewSupplier(x, newSupplierId, newUserId, now)
         && db.users == old(db.users)[newUserId := NewSupplierUser(x, newUserId, hash(x.password))]
         && db.suppliers == old(db.suppliers)[newSupplierId := r.value]
         && db.logs == old(db.logs) + InitialLogs(r.value, now)
  {
    if session.None? {
      return Failure(HttpError(401, "Unauthorized"));
    }
    if session.value.role != ADMIN {
      return Failure(HttpError(403, "Forbidden"));
    }
    if body.None? {
      return Failure(UncaughtError);
    }
    var parsed := ParseCreateSupplier(body.value, c);
    if parsed.None? {
      return Failure(HttpError(400, "Invalid payload"));
    }
    var x := parsed.value;
    if x.role != SUPPLIER {
      return Failure(HttpError(400, "Supplier role must be SUPPLIER"));
    }
    if UserByEmail(db.users, ToLower(x.email)).Some? {
      return Failure(HttpError(409, "Email already exists"));
    }
    if newUserId in db.users || newSupplierId in db.suppliers {
      return Failure(UncaughtError);
    }
    var user := NewSupplierUser(x, newUserId, hash(x.password));
    var supplier := NewSupplier(x, newSupplierId, newUserId, now);
    AddSupplierKeepsWellFormed(db.users, db.suppliers, db.orders, db.logs, user, supplier, now);
    AddSupplierKeepsBalanced(db.suppliers, db.orders, db.logs, supplier, now);
    db.users := db.users[newUserId := user];
    db.suppliers := db.suppliers[newSupplierId := supplier];
    RecordInitialBalance(db, supplier, now);
    r := Success(supplier);
  }
}
