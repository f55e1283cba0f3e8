/**
 * The supplier dashboard's own logic: the split of the supplier's orders
 * into active and history lists, the guard on the balance the supplier
 * types in, and which order actions the page offers. The page's day
 * countdown is `AdminOrdersClient.GetDaysLeft`: both pages define the same
 * function.
 */
module SupplierDashboardClient {
  import opened Wrappers
  import opened Domain
  import opened Strings
  import opened Validators
  import opened Orders
  import opened AdminOrdersClient

  // ---------------------------------------------------------------------------
  // The active / history partition
  // ---------------------------------------------------------------------------

  /** COMPLETED and FAILED orders are history; every other status, REFUNDED included, is active. */
  predicate InHistory(o: Order) {
    o.status == COMPLETED || o.status == FAILED
  }

  /** `orders.filter(...)` with the history test or its negation, in list order. */
  function FilterOrders(orders: seq<Order>, history: bool): (r: seq<Order>)
    ensures forall o :: multiset(r)[o] == if InHistory(o) == history then multiset(orders)[o] else 0
  {
    if orders == [] then []
    else
      var init := FilterOrders(orders[..|orders| - 1], history);
      var last := orders[|orders| - 1];
      assert orders == orders[..|orders| - 1] + [last];
      if InHistory(last) == history then init + [last] else init
  }

  function ActiveOrders(orders: seq<Order>): seq<Order> {
    FilterOrders(orders, false)
  }

  function HistoryOrders(orders: seq<Order>): seq<Order> {
    FilterOrders(orders, true)
  }

  /**
   * The two lists together hold every order exactly as often as the page's
   * list does, and each order is in exactly one of them.
   */
  lemma PartitionOrders(orders: seq<Order>)
    ensures multiset(ActiveOrders(orders)) + multiset(HistoryOrders(orders)) == multiset(orders)
    ensures forall o :: o in orders ==> (o in ActiveOrders(orders) <==> !InHistory(o)) && (o in HistoryOrders(orders) <==> InHistory(o))
  {
    var a, h := ActiveOrders(orders), HistoryOrders(orders);
    assert forall o :: (multiset(a) + multiset(h))[o] == multiset(orders)[o];
    forall o | o in orders ensures (o in a <==> !InHistory(o)) && (o in h <==> InHistory(o)) {
      assert o in multiset(orders);
      assert !InHistory(o) ==> o in multiset(a);
      assert InHistory(o) ==> o in multiset(h);
    }
  }

  // ---------------------------------------------------------------------------
  // The balance input
  // ---------------------------------------------------------------------------

  predicate IsDigit(c: char) {
    '0' <= c <= '9'
  }

  /** The number of decimal digits `s` starts with. */
  function DigitRun(s: string): (n: nat)
    ensures n <= |s| && (forall i :: 0 <= i < n ==> IsDigit(s[i]))
    ensures n < |s| ==> !IsDigit(s[n])
  {
    if s != [] && IsDigit(s[0]) then
      var m := DigitRun(s[1..]);
      assert forall i :: 1 <= i < 1 + m ==> s[i] == s[1..][i - 1];
      1 + m
    else 0
  }

  /** The value of a string of decimal digits. */
  function DigitsValue(s: string): nat
    requires forall i :: 0 <= i < |s| ==> IsDigit(s[i])
  {
    if s == [] then 0
    else
      assert IsDigit(s[|s| - 1]);
      DigitsValue(s[..|s| - 1]) * 10 + (s[|s| - 1] as int - '0' as int)
  }

  /** The length of the sign a text starts with: 1 for "-" or "+", else 0. */
  function SignLength(t: string): (k: nat)
    ensures k <= |t|
  {
    if t != [] && (t[0] == '-' || t[0] == '+') then 1 else 0
  }

  /** `parseInt` after the leading white space: an optional sign, then the longest run of digits. */
  function SignedDigits(t: string): (r: Num)
    ensures r.NotInt? <==> SignLength(t) == |t| || !IsDigit(t[SignLength(t)])
  {
    var body := t[SignLength(t)..];
    var n := DigitRun(body);
    if n == 0 then NotInt
    else
      var v: int := DigitsValue(body[..n]);
      Int(if t[0] == '-' then -v else v)
  }

  /** Where the digits `parseInt` reads begin: after the leading white space and at most one sign. */
  function DigitsStart(s: string): (k: nat)
    ensures LeadingSpace(s) <= k <= |s|
  {
    LeadingSpace(s) + SignLength(s[LeadingSpace(s)..])
  }

  /**
   * `parseInt(s, 10)`: leading white space skipped, an optional sign, then
   * the longest run of decimal digits; NaN when no digit follows the white
   * space and the sign.
   */
  function ParseInt(s: string): (r: Num)
    ensures r.NotInt? <==> DigitsStart(s) == |s| || !IsDigit(s[DigitsStart(s)])
  {
    var a := LeadingSpace(s);
    assert forall i :: 0 <= i < |s| - a ==> s[a..][i] == s[a + i];
    SignedDigits(s[a..])
  }

  /**
   * The value `parseInt` reads: white space, a run of digits and anything
   * not starting with a digit give the run's value.
   */
  lemma ParseIntValue(space: string, d: string, rest: string)
    requires AllSpace(space)
    requires d != [] && forall i :: 0 <= i < |d| ==> IsDigit(d[i])
    requires rest == [] || !IsDigit(rest[0])
    ensures ParseInt(space + d + rest) == Int(DigitsValue(d))
  {
    assert space + d + rest == space + (d + rest);
    assert (d + rest)[0] == d[0];
    ParseIntAfterSpace(space, d + rest);
    UnsignedValue(d, rest);
  }

  /** After the white space, a sign: "-" negates the run's value, "+" keeps it. */
  lemma ParseSignedValue(space: string, sign: char, d: string, rest: string)
    requires AllSpace(space) && (sign == '-' || sign == '+')
    requires d != [] && forall i :: 0 <= i < |d| ==> IsDigit(d[i])
    requires rest == [] || !IsDigit(rest[0])
    ensures ParseInt(space + [sign] + d + rest) == Int(if sign == '-' then -(DigitsValue(d) as int) else DigitsValue(d))
  {
    var t := [sign] + (d + rest);
    Regroup(space, [sign], d, rest);
    ParseIntAfterSpace(space, t);
    SignedValue(sign, d, rest);
  }

  lemma Regroup(a: string, b: string, c: string, e: string)
    ensures a + b + c + e == a + (b + (c + e))
  {
  }

  /** The leading white space is skipped. */
  lemma ParseIntAfterSpace(space: string, t: string)
    requires AllSpace(space) && t != [] && !IsJsSpace(t[0])
    ensures ParseInt(space + t) == SignedDigits(t)
  {
    LeadingSpaceOf(space, t);
    assert (space + t)[|space|..] == t;
  }

  /** A sign, then digits followed by a non-digit. */
  lemma SignedValue(sign: char, d: string, rest: string)
    requires sign == '-' || sign == '+'
    requires d != [] && forall i :: 0 <= i < |d| ==> IsDigit(d[i])
    requires rest == [] || !IsDigit(rest[0])
    ensures SignedDigits([sign] + (d + rest)) == Int(if sign == '-' then -(DigitsValue(d) as int) else DigitsValue(d))
  {
    var t := [sign] + (d + rest);
    assert SignLength(t) == 1;
    assert t[1..] == d + rest;
    DigitRunOf(d, rest);
  }

  /** Digits followed by a non-digit, with no sign, read as their value. */
  lemma UnsignedValue(d: string, rest: string)
    requires d != [] && forall i :: 0 <= i < |d| ==> IsDigit(d[i])
    requires rest == [] || !IsDigit(rest[0])
    ensures SignedDigits(d + rest) == Int(DigitsValue(d))
  {
    var t := d + rest;
    assert t[0] == d[0];
    assert t[0..] == t;
    DigitRunOf(d, rest);
  }

  /** White space followed by a text that does not start with white space is skipped exactly. */
  lemma LeadingSpaceOf(space: string, t: string)
    requires AllSpace(space) && t != [] && !IsJsSpace(t[0])
    ensures LeadingSpace(space + t) == |space|
  {
    var s := space + t;
    assert s[|space|] == t[0];
    assert forall i :: 0 <= i < |space| ==> s[i] == space[i];
    assert forall n :: |space| < n <= |s| ==> s[..n][|space|] == t[0];
  }

  /** The digit run of a digit string followed by a non-digit is exactly that string. */
  lemma {:induction false} DigitRunOf(d: string, rest: string)
    requires forall i :: 0 <= i < |d| ==> IsDigit(d[i])
    requires rest == [] || !IsDigit(rest[0])
    ensures DigitRun(d + rest) == |d| && (d + rest)[..|d|] == d
  {
    if d != [] {
      assert (d + rest)[1..] == d[1..] + rest;
      DigitRunOf(d[1..], rest);
    }
  }

  /** Reading a number's decimal text gives the number back. */
  lemma {:induction false} DigitsOfNat(n: nat)
    ensures DigitsValue(NatToString(n)) == n
  {
    if n >= 10 {
      var s := NatToString(n);
      assert s[..|s| - 1] == NatToString(n / 10);
      DigitsOfNat(n / 10);
    }
  }

  /** `parseInt` of a number's text, followed by anything not starting with a digit, is that number. */
  lemma ParseNatText(n: nat, rest: string)
    requires rest == [] || !IsDigit(rest[0])
    ensures ParseInt(NatToString(n) + rest) == Int(n)
  {
    var d := NatToString(n);
    var s := d + rest;
    assert s[0] == d[0];
    DigitRunOf(d, rest);
    DigitsOfNat(n);
  }

  /** `parseInt` of "-" and a number's text is the negated number; "-0" reads as 0. */
  lemma ParseNegatedText(n: nat)
    ensures ParseInt("-" + NatToString(n)) == Int(-(n as int))
  {
    var d := NatToString(n);
    var s := "-" + d;
    assert s[0] == '-' && !IsJsSpace(s[0]);
    assert LeadingSpace(s) == 0;
    assert s[1..] == d + [];
    DigitRunOf(d, []);
    DigitsOfNat(n);
  }

  const MANUAL_REASON: string := "Manual update by supplier"

  /** The body the page posts to the supplier's balance route. */
  datatype BalanceRequest = BalanceRequest(supplierId: Id, newBalance: nat, reason: string)

  /**
   * `handleUpdateBalance`'s guards: nothing is sent without a supplier, for
   * an empty input, or when the input does not read as a non-negative
   * whole number; otherwise the read value is sent as the new balance.
   */
  function BalanceRequestFor(supplier: Option<Id>, input: string): (r: Option<BalanceRequest>)
    ensures r.None? <==> supplier.None? || input == [] || ParseInt(input).NotInt? || ParseInt(input).i < 0
    ensures r.Some? ==> r.value == BalanceRequest(supplier.value, ParseInt(input).i, MANUAL_REASON)
  {
    if supplier.None? || input == [] then None
    else match ParseInt(input)
      case NotInt => None
      case Int(v) => if v < 0 then None else Some(BalanceRequest(supplier.value, v, MANUAL_REASON))
  }

  /** A typed whole number is sent as itself; a typed negative number is not sent, except "-0", sent as 0. */
  lemma TypedBalance(sid: Id, n: nat)
    ensures BalanceRequestFor(Some(sid), NatToString(n)) == Some(BalanceRequest(sid, n, MANUAL_REASON))
    ensures BalanceRequestFor(Some(sid), "-" + NatToString(n)).None? <==> n > 0
  {
    ParseNatText(n, []);
    assert NatToString(n) + [] == NatToString(n);
    ParseNegatedText(n);
  }

  /**
   * What the page sends passes the balance route's schema as an absolute
   * balance exactly when it is a safe integer; a longer run of digits is
   * answered 400 by the route.
   */
  lemma SentBalanceValid(supplier: Option<Id>, input: string, c: Coercions)
    requires BalanceRequestFor(supplier, input).Some?
    ensures var req := BalanceRequestFor(supplier, input).value;
      ParseUpdateBalance(UpdateBalanceBody(Absent, Number(Int(req.newBalance)), Text(req.reason)), c)
        == if req.newBalance <= MAX_SAFE_INTEGER then Some(UpdateBalanceInput(None, Some(req.newBalance), req.reason)) else None
  {
    var req := BalanceRequestFor(supplier, input).value;
    AbsoluteBalanceBody(req.newBalance, req.reason, c);
  }

  /** The body `{ newBalance, reason }` for a reason of two characters or more. */
  lemma AbsoluteBalanceBody(n: nat, reason: string, c: Coercions)
    requires |reason| >= 2
    ensures ParseUpdateBalance(UpdateBalanceBody(Absent, Number(Int(n)), Text(reason)), c)
      == if n <= MAX_SAFE_INTEGER then Some(UpdateBalanceInput(None, Some(n), reason)) else None
  {
    assert MinString(Text(reason), 2) == Some(reason);
  }

  // ---------------------------------------------------------------------------
  // Order actions
  // ---------------------------------------------------------------------------

  datatype Action = Follow | SentComplete | Complete

  /** The buttons an active order's card shows. */
  function OfferedActions(o: Order): (r: set<Action>)
    ensures Follow in r <==> o.status == PENDING
    ensures SentComplete in r <==> o.status == READY_FOR_GIFTING || o.readyForGifting
    ensures Complete in r <==>
      o.status !in {PENDING, FOLLOWED, READY_FOR_GIFTING, REFUNDED} && !o.readyForGifting
  {
    (if o.status == PENDING then {Follow} else {})
    + (if o.status == READY_FOR_GIFTING || o.readyForGifting then {SentComplete} else {})
    + (if o.status !in {PENDING, FOLLOWED, READY_FOR_GIFTING, REFUNDED} && !o.readyForGifting then {Complete} else {})
  }

  /** The plain "Complete" button can never show on an active order: every active status is excluded by its test. */
  lemma CompleteNeverActive(o: Order)
    requires !InHistory(o)
    ensures Complete !in OfferedActions(o)
  {
  }

  /** The update an action sends: `{ status: "FOLLOWED" }` or `{ status: "COMPLETED" }`. */
  function ActionUpdate(o: Order, a: Action): UpdateParams {
    UpdateParams(o.id, Some(if a == Follow then FOLLOWED else COMPLETED), None, None, None, None)
  }

  /**
   * Following a PENDING order, as the order engine applies it, moves it to
   * FOLLOWED, stamps the follow time if none is set, and touches no balance.
   */
  lemma FollowMovesNoBalance(o: Order, now: Time)
    requires Follow in OfferedActions(o)
    requires o.balanceDeductedAt.Some? <==> !IsReleasing(o.status)
    ensures var n := NextOrder(o, ActionUpdate(o, Follow), now);
      n.status == FOLLOWED && n.supplierId == o.supplierId && n.balanceDeductedAt == o.balanceDeductedAt
      && (o.followedAt.None? ==> n.followedAt == Some(now))
    ensures EffectLogs(o, ActionUpdate(o, Follow), now) == []
  {
  }

  /**
   * "Sent (Complete)" completes the order. It moves no balance unless the
   * order was REFUNDED or FAILED (a ready flag can outlive a refund): then
   * the price is taken from the order's supplier again.
   */
  lemma SentCompleteEffect(o: Order, now: Time)
    requires SentComplete in OfferedActions(o)
    requires o.balanceDeductedAt.Some? <==> !IsReleasing(o.status)
    ensures NextOrder(o, ActionUpdate(o, SentComplete), now).status == COMPLETED
    ensures !IsReleasing(o.status) ==> EffectLogs(o, ActionUpdate(o, SentComplete), now) == []
    ensures IsReleasing(o.status) ==>
      (EffectLogs(o, ActionUpdate(o, SentComplete), now)
         == [BalanceLog(o.supplierId, -o.diamondPrice, "Order assigned: " + o.skinName, Some(o.id), now)])
  {
    if IsReleasing(o.status) {
      DeductCase(o, ActionUpdate(o, SentComplete), now);
    }
  }

  /** The countdown a FOLLOWED order's card shows: the days left, or None for "Counting...". */
  function Countdown(o: Order, now: Time): (r: Option<nat>)
    requires o.status == FOLLOWED
    ensures r.Some? <==> o.followedAt.Some?
    ensures r.Some? ==> r.value <= 7 || now < o.followedAt.value
  {
    match o.followedAt
    case None => None
    case Some(t) => Some(GetDaysLeft(t, now))
  }
}
