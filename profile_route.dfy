/**
 * The `/api/user/profile` handlers. GET shows the signed-in user's name,
 * e-mail, role and linked supplier's name. PATCH renames the user, replaces
 * the password hash when a new password is given, and renames the linked
 * supplier when a supplier name is given.
 */
module ProfileRoute {
  import opened Wrappers
  import opened Domain
  import opened Strings
  import opened Ledger
  import opened Store
  import opened Validators
  import opened OrdersRoute

  // ---------------------------------------------------------------------------
  // GET
  // ---------------------------------------------------------------------------

  datatype ProfileView = ProfileView(name: string, email: string, role: Role, supplier: Option<string>)

  /** GET: 401 without a session, 404 when the user is gone, otherwise the user's profile. */
  function Profile(users: map<Id, User>, sups: map<Id, Supplier>, session: Option<SessionUser>): (r: Result<ProfileView, HttpError>)
    requires UniqueOwners(sups)
    ensures session.None? <==> r == Failure(HttpError(401, "Unauthorized"))
    ensures session.Some? ==> (session.value.id !in users <==> r == Failure(HttpError(404, "User not found")))
    ensures r.Success? ==>
      && session.Some? && session.value.id in users
      && var u := users[session.value.id];
         r.value.name == u.name && r.value.email == u.email && r.value.role == u.role
         && (r.value.supplier.None? <==> forall id :: id in sups ==> sups[id].userId != u.id)
         && (r.value.supplier.Some? ==> exists id :: id in sups && sups[id].userId == u.id && sups[id].name == r.value.supplier.value)
  {
    if session.None? then Failure(HttpError(401, "Unauthorized"))
    else if session.value.id !in users then Failure(HttpError(404, "User not found"))
    else
      var u := users[session.value.id];
      var supplier := match SupplierOfUser(sups, u.id)
        case None => None
        case Some(sid) => Some(sups[sid].name);
      Success(ProfileView(u.name, u.email, u.role, supplier))
  }

  // ---------------------------------------------------------------------------
  // PATCH
  // ---------------------------------------------------------------------------

  datatype ProfileBody = ProfileBody(name: Value, password: Value, supplierName: Value)
  datatype ProfileInput = ProfileInput(name: string, password: Option<string>, supplierName: Option<string>)

  /** `z.string().min(6).optional().or(z.literal(""))`. */
  function PasswordField(v: Value): (r: Option<Option<string>>)
    ensures r.Some? <==> v.Absent? || (v.Text? && (Utf16Length(v.s) >= 6 || v.s == []))
    ensures r == Some(None) <==> v.Absent?
    ensures r.Some? && r.value.Some? ==> r.value.value == v.s
  {
    match v
    case Absent => Some(None)
    case Text(s) => if Utf16Length(s) >= 6 || s == [] then Some(Some(s)) else None
    case _ => None
  }

  /** `updateProfileSchema`: a name of at least 2 characters, an optional password, an optional supplier name. */
  function ParseProfile(b: ProfileBody): (r: Option<ProfileInput>)
    ensures r.Some? <==> MinString(b.name, 2).Some? && PasswordField(b.password).Some? && OptionalString(b.supplierName).Some?
    ensures r.Some? ==> Utf16Length(r.value.name) >= 2 && r.value.name == b.name.s
    ensures r.Some? ==> (r.value.password.None? <==> b.password.Absent?) && (r.value.supplierName.None? <==> b.supplierName.Absent?)
    ensures r.Some? && b.password.Text? ==> r.value.password == Some(b.password.s)
    ensures r.Some? && b.supplierName.Text? ==> r.value.supplierName == Some(b.supplierName.s)
    ensures r.Some? && r.value.password.Some? && r.value.password.value != [] ==> Utf16Length(r.value.password.value) >= 6
  {
    match (MinString(b.name, 2), PasswordField(b.password), OptionalString(b.supplierName))
    case (Some(name), Some(password), Some(supplierName)) => Some(ProfileInput(name, password, supplierName))
    case _ => None
  }

  /** `if (password)`: the password to hash, when one is given and non-empty. */
  function NewPassword(x: ProfileInput): (r: Option<string>)
    ensures r.Some? <==> x.password.Some? && x.password.value != []
    ensures r.Some? ==> r == x.password
  {
    if x.password.Some? && x.password.value != [] then x.password else None
  }

  /** `updateData`: the name always, the password hash only for a new password; nothing else. */
  function ProfiledUser(u: User, x: ProfileInput, hash: string -> string): (r: User)
    ensures r.id == u.id && r.email == u.email && r.role == u.role
    ensures r.name == x.name
    ensures NewPassword(x).Some? ==> r.passwordHash == hash(NewPassword(x).value)
    ensures NewPassword(x).None? ==> r.passwordHash == u.passwordHash
  {
    var named := u.(name := x.name);
    match NewPassword(x)
    case None => named
    case Some(p) => named.(passwordHash := hash(p))
  }

  /** The supplier rename: only the user's own supplier, only for a non-empty supplier name, only its name. */
  function RenamedSuppliers(sups: map<Id, Supplier>, userId: Id, supplierName: Option<string>): (r: map<Id, Supplier>)
    requires UniqueOwners(sups)
    ensures r.Keys == sups.Keys
    ensures forall id :: id in sups ==> r[id] == sups[id].(name := r[id].name)
    ensures forall id :: id in sups && r[id].name != sups[id].name ==> sups[id].userId == userId && Truthy(supplierName).Some?
    ensures forall id :: id in sups && sups[id].userId == userId && Truthy(supplierName).Some? ==> r[id].name == supplierName.value
  {
    match SupplierOfUser(sups, userId)
    case None => sups
    case Some(sid) =>
      if Truthy(supplierName).Some? then sups[sid := sups[sid].(name := supplierName.value)] else sups
  }

  /** A profile update touches no id, e-mail, owner or balance, so the invariants survive it. */
  lemma ProfileKeepsInvariants(
    users: map<Id, User>, sups: map<Id, Supplier>, orders: map<Id, Order>, logs: seq<BalanceLog>,
    userId: Id, x: ProfileInput, hash: string -> string)
    requires WellFormed(users, sups, orders, logs) && Balanced(sups, orders, logs) && userId in users
    ensures WellFormed(users[userId := ProfiledUser(users[userId], x, hash)], RenamedSuppliers(sups, userId, x.supplierName), orders, logs)
    ensures Balanced(RenamedSuppliers(sups, userId, x.supplierName), orders, logs)
  {
    var users' := users[userId := ProfiledUser(users[userId], x, hash)];
    var sups' := RenamedSuppliers(sups, userId, x.supplierName);
    assert UniqueEmails(users') by {
      forall a, b | a in users' && b in users' && users'[a].email == users'[b].email ensures a == b {
        assert users[a].email == users[b].email;
      }
    }
    assert UniqueOwners(sups') by {
      forall a, b | a in sups' && b in sups' && sups'[a].userId == sups'[b].userId ensures a == b {
        assert sups[a].userId == sups[b].userId;
      }
    }
  }

  /** The supplier half of the update. */
  method RenameSupplier(db: Store, userId: Id, supplierName: Option<string>)
    requires UniqueOwners(db.suppliers)
    modifies db
    ensures db.suppliers == RenamedSuppliers(old(db.suppliers), userId, supplierName)
    ensures db.users == old(db.users) && db.orders == old(db.orders) && db.logs == old(db.logs)
  {
    match SupplierOfUser(db.suppliers, userId) {
      case None =>
      case Some(sid) =>
        if supplierName.Some? && supplierName.value != [] {
          db.suppliers := db.suppliers[sid := db.suppliers[sid].(name := supplierName.value)];
        }
    }
  }

  /**
   * PATCH: 401 without a session, 500 for a body (`None`) that is not JSON,
   * which is read inside the `try`, 422 when the payload fails the schema,
   * 500 when the user is gone; the store is then unchanged. Otherwise the
   * user and possibly their supplier are updated and nothing else changes.
   */
  method UpdateProfile(db: Store, session: Option<SessionUser>, body: Option<ProfileBody>, hash: string -> string)
    returns (r: Result<string, HttpError>)
    requires db.Valid() && db.Balanced()
    modifies db
    ensures db.Valid() && db.Balanced()
    ensures db.orders == old(db.orders) && db.logs == old(db.logs)
    ensures session.None? ==> r == Failure(HttpError(401, "Unauthorized"))
    ensures session.Some? && body.None? ==> r == Failure(HttpError(500, "Internal Server Error"))
    ensures session.Some? && body.Some? && ParseProfile(body.value).None? ==> r == Failure(HttpError(422, "Invalid request data"))
    ensures session.Some? && body.Some? && ParseProfile(body.value).Some? && session.value.id !in old(db.users) ==>
      r == Failure(HttpError(500, "Internal Server Error"))
    ensures session.Some? && body.Some? && ParseProfile(body.value).Some? && session.value.id in old(db.users) ==>
      r == Success("Profile updated")
    ensures r.Failure? ==> db.users == old(db.users) && db.suppliers == old(db.suppliers)
    ensures r.Success? ==>
      && r.value == "Profile updated"
      && session.Some? && body.Some? && ParseProfile(body.value).Some? && session.value.id in old(db.users)
      && var x, id := ParseProfile(body.value).value, session.value.id;
         db.users == old(db.users)[id := ProfiledUser(old(db.users)[id], x, hash)]
         && db.suppliers == RenamedSuppliers(old(db.suppliers), id, x.supplierName)
  {
    if session.None? {
      return Failure(HttpError(401, "Unauthorized"));
    }
    if body.None? {
      return Failure(HttpError(500, "Internal Server Error"));
    }
    var parsed := ParseProfile(body.value);
    if parsed.None? {
      return Failure(HttpError(422, "Invalid request data"));
    }
    var x, id := parsed.value, session.value.id;
    if id !in db.users {
      return Failure(HttpError(500, "Internal Server Error"));
    }
    ProfileKeepsInvariants(db.users, db.suppliers, db.orders, db.logs, id, x, hash);
    db.users := db.users[id := ProfiledUser(db.users[id], x, hash)];
    RenameSupplier(db, id, x.supplierName);
    r := Success("Profile updated");
  }
}
