/**
 * The request payload schemas as parse functions. A payload is an object
 * whose fields are JSON values; a schema either rejects it or yields the
 * typed record with defaults filled in. Number and date coercion and the
 * e-mail format are the library's and enter as the `Coercions` parameter.
 * String lengths are counted in UTF-16 code units, and `.int()` admits only
 * safe integers, as zod 4 does.
 */
module Validators {
  import opened Wrappers
  import opened Strings
  import opened Domain
  import opened Constants

  /**
   * The number a coercion yields: a whole number of any magnitude, or
   * anything else (NaN, an infinity, a fraction).
   */
  datatype Num = Int(i: int) | NotInt

  /** `Number.MAX_SAFE_INTEGER`, 2^53 - 1. */
  const MAX_SAFE_INTEGER: int := 0x1F_FFFF_FFFF_FFFF

  /** `Number.isSafeInteger` of a whole number. */
  predicate SafeInteger(i: int) {
    -MAX_SAFE_INTEGER <= i <= MAX_SAFE_INTEGER
  }

  /**
   * One field of a JSON payload; `Absent` is a missing key (`undefined`).
   * An array or an object is `Composite`, carrying its string conversion
   * `String(v)` (an array's elements joined with commas, "[object Object]"
   * for an object), which is what `Number(v)` reads.
   */
  datatype Value = Absent | Null | Text(s: string) | Number(n: Num) | Bool(b: bool) | Composite(text: string)

  /**
   * `Number(text)`, `new Date(value)` (None when it is an invalid date) and
   * the `z.email()` format check.
   */
  datatype Coercions = Coercions(numberOf: string -> Num, dateOf: Value -> Option<Time>, isEmail: string -> bool)

  /** `Number(v)` as `z.coerce.number()` applies it: an array or object is read through its string form. */
  function CoerceNumber(v: Value, c: Coercions): Num {
    match v
    case Absent => NotInt
    case Null => Int(0)
    case Text(s) => c.numberOf(s)
    case Number(n) => n
    case Bool(b) => Int(if b then 1 else 0)
    case Composite(t) => c.numberOf(t)
  }

  /** `z.string().min(n)`: at least `n` UTF-16 code units. */
  function MinString(v: Value, n: nat): (r: Option<string>)
    ensures r.Some? <==> v.Text? && Utf16Length(v.s) >= n
    ensures r.Some? ==> r.value == v.s
    ensures v.Text? && |v.s| >= n ==> r == Some(v.s)
  {
    if v.Text? && Utf16Length(v.s) >= n then Some(v.s) else None
  }

  /** `z.string().optional()`: the outer Option is acceptance. */
  function OptionalString(v: Value): (r: Option<Option<string>>)
    ensures r.Some? <==> v.Absent? || v.Text?
    ensures r == Some(None) <==> v.Absent?
  {
    match v
    case Absent => Some(None)
    case Text(s) => Some(Some(s))
    case _ => None
  }

  /** `z.coerce.number().int()`, with a lower bound when one is given: a safe integer, at or above the bound. */
  function CoercedInt(v: Value, c: Coercions, min: Option<int>): (r: Option<int>)
    ensures r.Some? <==>
      CoerceNumber(v, c).Int? && SafeInteger(CoerceNumber(v, c).i) && (min.Some? ==> CoerceNumber(v, c).i >= min.value)
    ensures r.Some? ==> r.value == CoerceNumber(v, c).i
    ensures r.Some? ==> -MAX_SAFE_INTEGER <= r.value <= MAX_SAFE_INTEGER
  {
    match CoerceNumber(v, c)
    case Int(i) => if !SafeInteger(i) || (min.Some? && i < min.value) then None else Some(i)
    case NotInt => None
  }

  /** `.optional()` or `.default(d)` around a coerced integer: a missing key gives `d`. */
  function DefaultInt(v: Value, c: Coercions, min: Option<int>, d: Option<int>): (r: Option<Option<int>>)
    ensures v.Absent? ==> r == Some(d)
    ensures !v.Absent? ==> (r.Some? <==> CoercedInt(v, c, min).Some?)
    ensures !v.Absent? && r.Some? ==> r.value == CoercedInt(v, c, min)
  {
    if v.Absent? then Some(d)
    else match CoercedInt(v, c, min)
      case Some(i) => Some(Some(i))
      case None => None
  }

  /** `z.enum(ORDER_STATUS_VALUES)`, with optional default. */
  function StatusField(v: Value, d: Option<OrderStatus>): (r: Option<Option<OrderStatus>>)
    ensures v.Absent? ==> r == Some(d)
    ensures !v.Absent? ==> (r.Some? <==> v.Text? && v.s in ORDER_STATUS_VALUES)
    ensures !v.Absent? && r.Some? ==> r.value.Some? && StatusName(r.value.value) == v.s
  {
    if v.Absent? then Some(d)
    else if v.Text? && ParseStatus(v.s).Some? then Some(ParseStatus(v.s))
    else None
  }

  /** `z.coerce.date().optional()`. */
  function OptionalDate(v: Value, c: Coercions): (r: Option<Option<Time>>)
    ensures v.Absent? ==> r == Some(None)
    ensures !v.Absent? ==> (r.Some? <==> c.dateOf(v).Some?)
    ensures !v.Absent? && r.Some? ==> r.value == c.dateOf(v)
  {
    if v.Absent? then Some(None)
    else match c.dateOf(v)
      case Some(t) => Some(Some(t))
      case None => None
  }

  // ---------------------------------------------------------------------------
  // loginSchema
  // ---------------------------------------------------------------------------

  datatype LoginBody = LoginBody(email: Value, password: Value)
  datatype LoginInput = LoginInput(email: string, password: string)

  function ParseLogin(b: LoginBody, c: Coercions): (r: Option<LoginInput>)
    ensures r.Some? <==> b.email.Text? && c.isEmail(b.email.s) && b.password.Text? && Utf16Length(b.password.s) >= 6
    ensures r.Some? ==> r.value == LoginInput(b.email.s, b.password.s)
  {
    if b.email.Text? && c.isEmail(b.email.s) && MinString(b.password, 6).Some? then
      Some(LoginInput(b.email.s, b.password.s))
    else None
  }

  // ---------------------------------------------------------------------------
  // createOrderSchema
  // ---------------------------------------------------------------------------

  datatype CreateOrderBody = CreateOrderBody(
    mlbbId: Value, serverId: Value, ign: Value, skinName: Value, diamondPrice: Value,
    supplierId: Value, status: Value, notes: Value, releaseDate: Value)

  datatype CreateOrderInput = CreateOrderInput(
    mlbbId: string, serverId: string, ign: string, skinName: string, diamondPrice: int,
    supplierId: string, status: OrderStatus, notes: Option<string>, releaseDate: Option<Time>)

  /** The constraints every accepted order payload meets. */
  predicate ValidOrderInput(x: CreateOrderInput) {
    && Utf16Length(x.mlbbId) >= 2 && |x.serverId| >= 1 && |x.ign| >= 1 && |x.skinName| >= 1
    && 0 < x.diamondPrice <= MAX_SAFE_INTEGER && |x.supplierId| >= 1
  }

  function ParseCreateOrder(b: CreateOrderBody, c: Coercions): (r: Option<CreateOrderInput>)
    ensures r.Some? <==>
      && MinString(b.mlbbId, 2).Some? && MinString(b.serverId, 1).Some? && MinString(b.ign, 1).Some?
      && MinString(b.skinName, 1).Some? && CoercedInt(b.diamondPrice, c, Some(1)).Some?
      && MinString(b.supplierId, 1).Some? && StatusField(b.status, Some(PENDING)).Some?
      && OptionalString(b.notes).Some? && OptionalDate(b.releaseDate, c).Some?
    ensures r.Some? ==> ValidOrderInput(r.value)
    ensures r.Some? ==> r.value.mlbbId == b.mlbbId.s && r.value.serverId == b.serverId.s && r.value.ign == b.ign.s
    ensures r.Some? ==> r.value.skinName == b.skinName.s && r.value.supplierId == b.supplierId.s
    ensures r.Some? ==> r.value.diamondPrice == CoerceNumber(b.diamondPrice, c).i
    ensures r.Some? && b.status.Absent? ==> r.value.status == PENDING
    ensures r.Some? && !b.status.Absent? ==> StatusName(r.value.status) == b.status.s
    ensures r.Some? ==> (r.value.notes.None? <==> b.notes.Absent?) && (r.value.releaseDate.None? <==> b.releaseDate.Absent?)
    ensures r.Some? && b.notes.Text? ==> r.value.notes == Some(b.notes.s)
    ensures r.Some? && !b.releaseDate.Absent? ==> r.value.releaseDate == c.dateOf(b.releaseDate)
  {
    var mlbbId := MinString(b.mlbbId, 2);
    var serverId := MinString(b.serverId, 1);
    var ign := MinString(b.ign, 1);
    var skinName := MinString(b.skinName, 1);
    var price := CoercedInt(b.diamondPrice, c, Some(1));
    var supplierId := MinString(b.supplierId, 1);
    var status := StatusField(b.status, Some(PENDING));
    var notes := OptionalString(b.notes);
    var releaseDate := OptionalDate(b.releaseDate, c);
    if mlbbId.Some? && serverId.Some? && ign.Some? && skinName.Some? && price.Some? && supplierId.Some?
      && status.Some? && notes.Some? && releaseDate.Some? then
      Some(CreateOrderInput(mlbbId.value, serverId.value, ign.value, skinName.value, price.value,
        supplierId.value, status.value.value, notes.value, releaseDate.value))
    else None
  }

  /** The payload a client sends for an order: strings as text, the price and the date as numbers. */
  function OrderBodyOf(x: CreateOrderInput): CreateOrderBody {
    CreateOrderBody(
      Text(x.mlbbId), Text(x.serverId), Text(x.ign), Text(x.skinName), Number(Int(x.diamondPrice)),
      Text(x.supplierId), Text(StatusName(x.status)),
      if x.notes.Some? then Text(x.notes.value) else Absent,
      if x.releaseDate.Some? then Number(Int(x.releaseDate.value)) else Absent)
  }

  /** Every order meeting the constraints is accepted back from its own payload. */
  lemma CreateOrderRoundTrip(x: CreateOrderInput, c: Coercions)
    requires ValidOrderInput(x)
    requires x.releaseDate.Some? ==> c.dateOf(Number(Int(x.releaseDate.value))) == Some(x.releaseDate.value)
    ensures ParseCreateOrder(OrderBodyOf(x), c) == Some(x)
  {
    StatusValues();
  }

  // ---------------------------------------------------------------------------
  // updateOrderSchema
  // ---------------------------------------------------------------------------

  datatype UpdateOrderBody = UpdateOrderBody(status: Value, supplierId: Value, readyForGifting: Value, notes: Value, releaseDate: Value)

  datatype UpdateOrderInput = UpdateOrderInput(
    status: Option<OrderStatus>, supplierId: Option<string>, readyForGifting: Option<bool>,
    notes: Option<string>, releaseDate: Option<Time>)

  /** `z.boolean().optional()`. */
  function OptionalBool(v: Value): (r: Option<Option<bool>>)
    ensures r.Some? <==> v.Absent? || v.Bool?
    ensures r == Some(None) <==> v.Absent?
  {
    match v
    case Absent => Some(None)
    case Bool(b) => Some(Some(b))
    case _ => None
  }

  function ParseUpdateOrder(b: UpdateOrderBody, c: Coercions): (r: Option<UpdateOrderInput>)
    ensures r.Some? <==>
      && StatusField(b.status, None).Some? && OptionalString(b.supplierId).Some?
      && OptionalBool(b.readyForGifting).Some? && OptionalString(b.notes).Some?
      && OptionalDate(b.releaseDate, c).Some?
    ensures r.Some? ==> (r.value.status.None? <==> b.status.Absent?) && (r.value.supplierId.None? <==> b.supplierId.Absent?)
    ensures r.Some? ==> (r.value.readyForGifting.None? <==> b.readyForGifting.Absent?) && (r.value.notes.None? <==> b.notes.Absent?)
    ensures r.Some? ==> (r.value.releaseDate.None? <==> b.releaseDate.Absent?)
    ensures r.Some? && !b.status.Absent? ==> r.value.status.Some? && StatusName(r.value.status.value) == b.status.s
    ensures r.Some? && b.supplierId.Text? ==> r.value.supplierId == Some(b.supplierId.s)
    ensures r.Some? && b.readyForGifting.Bool? ==> r.value.readyForGifting == Some(b.readyForGifting.b)
    ensures r.Some? && b.notes.Text? ==> r.value.notes == Some(b.notes.s)
    ensures r.Some? && !b.releaseDate.Absent? ==> r.value.releaseDate == c.dateOf(b.releaseDate)
  {
    var status := StatusField(b.status, None);
    var supplierId := OptionalString(b.supplierId);
    var ready := OptionalBool(b.readyForGifting);
    var notes := OptionalString(b.notes);
    var releaseDate := OptionalDate(b.releaseDate, c);
    if status.Some? && supplierId.Some? && ready.Some? && notes.Some? && releaseDate.Some? then
      Some(UpdateOrderInput(status.value, supplierId.value, ready.value, notes.value, releaseDate.value))
    else None
  }

  /** An empty object is a valid update that asks for no change. */
  lemma EmptyUpdateChangesNothing(c: Coercions)
    ensures ParseUpdateOrder(UpdateOrderBody(Absent, Absent, Absent, Absent, Absent), c) == Some(UpdateOrderInput(None, None, None, None, None))
  {
  }

  // ---------------------------------------------------------------------------
  // createSupplierSchema, updateSupplierSchema
  // ---------------------------------------------------------------------------

  datatype CreateSupplierBody = CreateSupplierBody(name: Value, email: Value, password: Value, role: Value, diamondBalance: Value, lowBalanceThreshold: Value)

  datatype CreateSupplierInput = CreateSupplierInput(name: string, email: string, password: string, role: Role, diamondBalance: nat, lowBalanceThreshold: nat)

  /** `z.nativeEnum(Role).default(Role.SUPPLIER)`. */
  function RoleField(v: Value): (r: Option<Role>)
    ensures v.Absent? ==> r == Some(SUPPLIER)
    ensures !v.Absent? ==> (r.Some? <==> v.Text? && v.s in {"ADMIN", "SUPPLIER", "VIEWER"})
    ensures !v.Absent? && r.Some? ==> RoleName(r.value) == v.s
  {
    if v.Absent? then Some(SUPPLIER)
    else if v.Text? then ParseRole(v.s)
    else None
  }

  predicate ValidSupplierInput(x: CreateSupplierInput, c: Coercions) {
    && Utf16Length(x.name) >= 2 && c.isEmail(x.email) && Utf16Length(x.password) >= 6
    && x.diamondBalance <= MAX_SAFE_INTEGER && x.lowBalanceThreshold <= MAX_SAFE_INTEGER
  }

  function ParseCreateSupplier(b: CreateSupplierBody, c: Coercions): (r: Option<CreateSupplierInput>)
    ensures r.Some? <==>
      && MinString(b.name, 2).Some? && b.email.Text? && c.isEmail(b.email.s) && MinString(b.password, 6).Some?
      && RoleField(b.role).Some?
      && DefaultInt(b.diamondBalance, c, Some(0), Some(0)).Some?
      && DefaultInt(b.lowBalanceThreshold, c, Some(0), Some(1000)).Some?
    ensures r.Some? ==> ValidSupplierInput(r.value, c) && r.value.name == b.name.s && r.value.email == b.email.s
    ensures r.Some? ==> r.value.password == b.password.s
    ensures r.Some? && b.role.Absent? ==> r.value.role == SUPPLIER
    ensures r.Some? && !b.role.Absent? ==> RoleName(r.value.role) == b.role.s
    ensures r.Some? && b.diamondBalance.Absent? ==> r.value.diamondBalance == 0
    ensures r.Some? && !b.diamondBalance.Absent? ==> r.value.diamondBalance == CoerceNumber(b.diamondBalance, c).i
    ensures r.Some? && b.lowBalanceThreshold.Absent? ==> r.value.lowBalanceThreshold == 1000
    ensures r.Some? && !b.lowBalanceThreshold.Absent? ==> r.value.lowBalanceThreshold == CoerceNumber(b.lowBalanceThreshold, c).i
  {
    var name := MinString(b.name, 2);
    var password := MinString(b.password, 6);
    var role := RoleField(b.role);
    var balance := DefaultInt(b.diamondBalance, c, Some(0), Some(0));
    var threshold := DefaultInt(b.lowBalanceThreshold, c, Some(0), Some(1000));
    if name.Some? && b.email.Text? && c.isEmail(b.email.s) && password.Some? && role.Some? && balance.Some? && threshold.Some? then
      Some(CreateSupplierInput(name.value, b.email.s, password.value, role.value, balance.value.value, threshold.value.value))
    else None
  }

  /** The payload a client sends for a supplier; the balance and the threshold as numbers. */
  function SupplierBodyOf(x: CreateSupplierInput): CreateSupplierBody {
    CreateSupplierBody(Text(x.name), Text(x.email), Text(x.password), Text(RoleName(x.role)),
      Number(Int(x.diamondBalance)), Number(Int(x.lowBalanceThreshold)))
  }

  lemma CreateSupplierRoundTrip(x: CreateSupplierInput, c: Coercions)
    requires ValidSupplierInput(x, c)
    ensures ParseCreateSupplier(SupplierBodyOf(x), c) == Some(x)
  {
    match x.role
    case ADMIN =>
    case SUPPLIER =>
    case VIEWER =>
  }

  datatype UpdateSupplierBody = UpdateSupplierBody(name: Value, lowBalanceThreshold: Value)
  datatype UpdateSupplierInput = UpdateSupplierInput(name: Option<string>, lowBalanceThreshold: Option<nat>)

  function ParseUpdateSupplier(b: UpdateSupplierBody, c: Coercions): (r: Option<UpdateSupplierInput>)
    ensures r.Some? <==>
      (b.name.Absent? || MinString(b.name, 2).Some?) && DefaultInt(b.lowBalanceThreshold, c, Some(0), None).Some?
    ensures r.Some? ==> (r.value.name.None? <==> b.name.Absent?) && (r.value.name.Some? ==> Utf16Length(r.value.name.value) >= 2)
    ensures r.Some? ==> (r.value.lowBalanceThreshold.None? <==> b.lowBalanceThreshold.Absent?)
    ensures r.Some? && r.value.name.Some? ==> r.value.name.value == b.name.s
    ensures r.Some? && !b.lowBalanceThreshold.Absent? ==>
      r.value.lowBalanceThreshold == Some(CoerceNumber(b.lowBalanceThreshold, c).i)
  {
    var threshold := DefaultInt(b.lowBalanceThreshold, c, Some(0), None);
    if (b.name.Absent? || MinString(b.name, 2).Some?) && threshold.Some? then
      var t: Option<nat> := if threshold.value.Some? then Some(threshold.value.value) else None;
      Some(UpdateSupplierInput(if b.name.Absent? then None else Some(b.name.s), t))
    else None
  }

  // ---------------------------------------------------------------------------
  // updateBalanceSchema
  // ---------------------------------------------------------------------------

  datatype UpdateBalanceBody = UpdateBalanceBody(changeAmount: Value, newBalance: Value, reason: Value)
  datatype UpdateBalanceInput = UpdateBalanceInput(changeAmount: Option<int>, newBalance: Option<nat>, reason: string)

  /** The object schema's field checks, before the cross-field refinement. */
  function ParseBalanceFields(b: UpdateBalanceBody, c: Coercions): (r: Option<UpdateBalanceInput>)
    ensures r.Some? <==>
      DefaultInt(b.changeAmount, c, None, None).Some? && DefaultInt(b.newBalance, c, Some(0), None).Some?
      && MinString(b.reason, 2).Some?
    ensures r.Some? ==> Utf16Length(r.value.reason) >= 2 && r.value.reason == b.reason.s
    ensures r.Some? ==> (r.value.changeAmount.None? <==> b.changeAmount.Absent?) && (r.value.newBalance.None? <==> b.newBalance.Absent?)
    ensures r.Some? && !b.changeAmount.Absent? ==> r.value.changeAmount == Some(CoerceNumber(b.changeAmount, c).i)
    ensures r.Some? && !b.newBalance.Absent? ==> r.value.newBalance == Some(CoerceNumber(b.newBalance, c).i)
  {
    var change := DefaultInt(b.changeAmount, c, None, None);
    var balance := DefaultInt(b.newBalance, c, Some(0), None);
    var reason := MinString(b.reason, 2);
    if change.Some? && balance.Some? && reason.Some? then
      var nb: Option<nat> := if balance.value.Some? then Some(balance.value.value) else None;
      Some(UpdateBalanceInput(change.value, nb, reason.value))
    else None
  }

  /** `updateBalanceSchema`: the fields check and at least one of the two amounts is given. */
  function ParseUpdateBalance(b: UpdateBalanceBody, c: Coercions): (r: Option<UpdateBalanceInput>)
    ensures r.Some? <==> ParseBalanceFields(b, c).Some? && (!b.changeAmount.Absent? || !b.newBalance.Absent?)
    ensures r.Some? ==> r.value.changeAmount.Some? || r.value.newBalance.Some?
    ensures r.Some? ==> r == ParseBalanceFields(b, c)
  {
    var fields := ParseBalanceFields(b, c);
    if fields.Some? && (fields.value.changeAmount.Some? || fields.value.newBalance.Some?) then fields else None
  }

  /** A reason alone, however well formed, is not a balance update. */
  lemma BalanceUpdateNeedsAmount(reason: Value, c: Coercions)
    ensures ParseUpdateBalance(UpdateBalanceBody(Absent, Absent, reason), c).None?
  {
  }
}
