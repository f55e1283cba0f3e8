/**
 * The `/api/balance-logs` handler: the ledger rows a signed-in user may
 * read, newest first, at most `limit` of them. A SUPPLIER reads only their
 * own supplier's rows; other roles read one supplier's rows or all of them.
 */
module BalanceLogsRoute {
  import opened Wrappers
  import opened Domain
  import opened Store
  import opened OrdersRoute

  /** `orderBy: { createdAt: "desc" }`: no row is older than a row after it. */
  predicate NewestFirst(logs: seq<BalanceLog>) {
    forall i, j :: 0 <= i < j < |logs| ==> logs[i].createdAt >= logs[j].createdAt
  }

  /** `where: { supplierId }`: the rows against one supplier, in ledger order. */
  function RowsOf(logs: seq<BalanceLog>, sid: Id): (r: seq<BalanceLog>)
    ensures forall e :: multiset(r)[e] == if e.supplierId == sid then multiset(logs)[e] else 0
  {
    if logs == [] then []
    else
      var init := RowsOf(logs[..|logs| - 1], sid);
      var last := logs[|logs| - 1];
      assert logs == logs[..|logs| - 1] + [last];
      if last.supplierId == sid then init + [last] else init
  }

  /** The newest time among a row and the head of a sorted sequence. */
  function Top(x: BalanceLog, s: seq<BalanceLog>): int {
    if s == [] || s[0].createdAt <= x.createdAt then x.createdAt else s[0].createdAt
  }

  /** Puts a row in front of the first row that is not newer than it. */
  function InsertNewest(x: BalanceLog, s: seq<BalanceLog>): (r: seq<BalanceLog>)
    requires NewestFirst(s)
    ensures NewestFirst(r) && multiset(r) == multiset(s) + multiset{x}
    ensures forall k :: 0 <= k < |r| ==> r[k].createdAt <= Top(x, s)
  {
    if s == [] || s[0].createdAt <= x.createdAt then [x] + s
    else
      var t := InsertNewest(x, s[1..]);
      assert s == [s[0]] + s[1..];
      assert Top(x, s[1..]) <= s[0].createdAt;
      [s[0]] + t
  }

  /** The rows ordered newest first. */
  function SortNewest(s: seq<BalanceLog>): (r: seq<BalanceLog>)
    ensures NewestFirst(r) && multiset(r) == multiset(s)
  {
    if s == [] then []
    else
      assert s == [s[0]] + s[1..];
      InsertNewest(s[0], SortNewest(s[1..]))
  }

  /** The first `n` rows, or all of them when there are fewer. */
  function Take(s: seq<BalanceLog>, n: int): (r: seq<BalanceLog>)
    ensures |r| == if n < 0 then 0 else if n < |s| then n else |s|
    ensures forall i :: 0 <= i < |r| ==> r[i] == s[i]
  {
    if n < 0 then [] else if n < |s| then s[..n] else s
  }

  /**
   * The supplier whose rows a user reads: Some(None) is every row,
   * Some(Some(id)) one supplier's rows, None the early empty answer for a
   * SUPPLIER who owns no supplier.
   */
  function LogScope(sups: map<Id, Supplier>, user: SessionUser, requested: Option<string>): (r: Option<Option<Id>>)
    requires UniqueOwners(sups)
    ensures user.role == SUPPLIER ==> (r.None? <==> SupplierOfUser(sups, user.id).None?)
    ensures user.role == SUPPLIER && r.Some? ==> r.value == Some(SupplierOfUser(sups, user.id).value)
    ensures user.role != SUPPLIER ==> r.Some? && (r.value.Some? <==> Truthy(requested).Some?)
    ensures user.role != SUPPLIER && r.value.Some? ==> r.value.value == requested.value
  {
    if user.role == SUPPLIER then
      match SupplierOfUser(sups, user.id)
      case None => None
      case Some(sid) => Some(Some(sid))
    else if requested.Some? && requested.value != [] then Some(Some(requested.value))
    else Some(None)
  }

  /** The rows in scope, before ordering. */
  function Scoped(logs: seq<BalanceLog>, scope: Option<Id>): seq<BalanceLog> {
    match scope
    case None => logs
    case Some(sid) => RowsOf(logs, sid)
  }

  /**
   * GET: 401 without a session; the early empty list for a SUPPLIER who owns
   * no supplier; otherwise the rows in scope, newest first, at most the
   * clamped limit of them.
   */
  function ListLogs(sups: map<Id, Supplier>, logs: seq<BalanceLog>, session: Option<SessionUser>, requested: Option<string>, limit: Option<NumberParam>)
    : (r: Result<seq<BalanceLog>, HttpError>)
    requires UniqueOwners(sups)
    ensures session.None? <==> r == Failure(HttpError(401, "Unauthorized"))
    ensures session.Some? ==> r.Success?
    ensures session.Some? && LogScope(sups, session.value, requested).None? ==> r == Success([])
    ensures r.Success? ==> NewestFirst(r.value) && |r.value| <= QueryLimit(limit)
  {
    if session.None? then Failure(HttpError(401, "Unauthorized"))
    else match LogScope(sups, session.value, requested)
      case None => Success([])
      case Some(scope) => Success(Take(SortNewest(Scoped(logs, scope)), QueryLimit(limit)))
  }

  /**
   * The first `n` rows of a newest-first sequence are rows of it, and no row
   * after them is newer than any of them.
   */
  lemma TopRows(sorted: seq<BalanceLog>, n: nat, rows: seq<BalanceLog>)
    requires NewestFirst(sorted) && n <= |sorted| && rows == sorted[..n]
    ensures multiset(rows) <= multiset(sorted)
    ensures forall e: BalanceLog, i :: e in multiset(sorted) - multiset(rows) && 0 <= i < |rows| ==> e.createdAt <= rows[i].createdAt
  {
    assert sorted == rows + sorted[n..];
    assert multiset(sorted) - multiset(rows) == multiset(sorted[n..]);
    forall e: BalanceLog, i | e in multiset(sorted[n..]) && 0 <= i < n ensures e.createdAt <= sorted[i].createdAt {
      var j :| 0 <= j < |sorted[n..]| && sorted[n..][j] == e;
      assert sorted[n + j] == e;
    }
  }

  /**
   * What the rows in scope become: of the sorted rows, the first `limit`.
   * Every row listed is in scope; their number is the limit or, when fewer
   * rows are in scope, all of them; and no row left out is newer than a row
   * listed.
   */
  lemma ListedRows(
    sups: map<Id, Supplier>, logs: seq<BalanceLog>, user: SessionUser, requested: Option<string>, limit: Option<NumberParam>,
    scope: Option<Id>)
    requires UniqueOwners(sups) && LogScope(sups, user, requested) == Some(scope)
    ensures var rows := ListLogs(sups, logs, Some(user), requested, limit).value;
      && multiset(rows) <= multiset(Scoped(logs, scope))
      && |rows| == (if QueryLimit(limit) < |Scoped(logs, scope)| then QueryLimit(limit) else |Scoped(logs, scope)|)
      && forall e: BalanceLog, i :: e in multiset(Scoped(logs, scope)) - multiset(rows) && 0 <= i < |rows| ==> e.createdAt <= rows[i].createdAt
  {
    var sorted := SortNewest(Scoped(logs, scope));
    var k := QueryLimit(limit);
    var n := if k < |sorted| then k else |sorted|;
    var rows := Take(sorted, k);
    assert ListLogs(sups, logs, Some(user), requested, limit) == Success(rows);
    TopRows(sorted, n, rows);
  }

  /** A SUPPLIER reads only the rows of the supplier they own; another role asking for one supplier reads only its rows. */
  lemma ScopedRowsBelong(
    sups: map<Id, Supplier>, logs: seq<BalanceLog>, user: SessionUser, requested: Option<string>, limit: Option<NumberParam>, i: nat)
    requires UniqueOwners(sups) && LogScope(sups, user, requested).Some?
    requires i < |ListLogs(sups, logs, Some(user), requested, limit).value|
    ensures var row := ListLogs(sups, logs, Some(user), requested, limit).value[i];
      && multiset(logs)[row] > 0
      && (user.role == SUPPLIER ==> row.supplierId in sups && sups[row.supplierId].userId == user.id)
      && (user.role != SUPPLIER && Truthy(requested).Some? ==> row.supplierId == requested.value)
  {
    var scope := LogScope(sups, user, requested).value;
    ListedRows(sups, logs, user, requested, limit, scope);
    var rows := ListLogs(sups, logs, Some(user), requested, limit).value;
    assert rows[i] in multiset(rows);
  }
}
