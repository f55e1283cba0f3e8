/**
 * Shared constants and two pure helpers: the list of order status values,
 * the supplier balance health classification and the display form of a
 * status value.
 */
module Constants {
  import opened Wrappers
  import opened Domain
  import opened Strings

  /** `ORDER_STATUS_VALUES`, in declaration order. */
  const ORDER_STATUS_VALUES: seq<string> := ["PENDING", "FOLLOWED", "READY_FOR_GIFTING", "COMPLETED", "FAILED", "REFUNDED"]

  /** The database spelling of a status. */
  function StatusName(s: OrderStatus): (r: string)
    ensures r in ORDER_STATUS_VALUES
  {
    match s
    case PENDING => "PENDING"
    case FOLLOWED => "FOLLOWED"
    case READY_FOR_GIFTING => "READY_FOR_GIFTING"
    case COMPLETED => "COMPLETED"
    case FAILED => "FAILED"
    case REFUNDED => "REFUNDED"
  }

  /** Membership in the status enum (`z.enum(ORDER_STATUS_VALUES)`, `Object.values(OrderStatus).includes`). */
  function ParseStatus(text: string): (r: Option<OrderStatus>)
    ensures r.Some? <==> text in ORDER_STATUS_VALUES
    ensures r.Some? ==> StatusName(r.value) == text
  {
    if text == "PENDING" then Some(PENDING)
    else if text == "FOLLOWED" then Some(FOLLOWED)
    else if text == "READY_FOR_GIFTING" then Some(READY_FOR_GIFTING)
    else if text == "COMPLETED" then Some(COMPLETED)
    else if text == "FAILED" then Some(FAILED)
    else if text == "REFUNDED" then Some(REFUNDED)
    else None
  }

  /** There are exactly six status values, all distinct, one per enum member. */
  lemma StatusValues()
    ensures |ORDER_STATUS_VALUES| == 6
    ensures forall i, j :: 0 <= i < j < |ORDER_STATUS_VALUES| ==> ORDER_STATUS_VALUES[i] != ORDER_STATUS_VALUES[j]
    ensures forall s: OrderStatus :: ParseStatus(StatusName(s)) == Some(s)
    ensures forall s, t: OrderStatus :: StatusName(s) == StatusName(t) ==> s == t
  {
    forall s: OrderStatus ensures ParseStatus(StatusName(s)) == Some(s) {
      match s
      case PENDING =>
      case FOLLOWED =>
      case READY_FOR_GIFTING =>
      case COMPLETED =>
      case FAILED =>
      case REFUNDED =>
    }
  }

  // ---------------------------------------------------------------------------
  // Balance health
  // ---------------------------------------------------------------------------

  datatype HealthState = HEALTHY | LOW | CRITICAL

  /** The `HEALTH_STATE` strings. */
  function HealthName(h: HealthState): string {
    match h
    case HEALTHY => "healthy"
    case LOW => "low"
    case CRITICAL => "critical"
  }

  /**
   * `getBalanceHealthState`. The test `balance < threshold * 0.5` is exact
   * on integers as `2 * balance < threshold`.
   */
  function BalanceHealthState(balance: int, threshold: int): (r: HealthState)
    ensures threshold <= 0 ==> r == HEALTHY
    ensures r == CRITICAL <==> threshold > 0 && 2 * balance < threshold
    ensures r == LOW <==> threshold > 0 && threshold <= 2 * balance && balance < threshold
    ensures r == HEALTHY <==> threshold <= 0 || balance >= threshold
  {
    if threshold <= 0 then HEALTHY
    else if 2 * balance < threshold then CRITICAL
    else if balance < threshold then LOW
    else HEALTHY
  }

  /** How far a state is from CRITICAL. */
  function Rank(h: HealthState): nat {
    match h
    case CRITICAL => 0
    case LOW => 1
    case HEALTHY => 2
  }

  /** For a fixed threshold, a larger balance never moves the state towards CRITICAL. */
  lemma HealthMonotone(b1: int, b2: int, threshold: int)
    requires b1 <= b2
    ensures Rank(BalanceHealthState(b1, threshold)) <= Rank(BalanceHealthState(b2, threshold))
  {
  }

  // ---------------------------------------------------------------------------
  // Status display
  // ---------------------------------------------------------------------------

  /** `part.charAt(0).toUpperCase() + part.slice(1)`. */
  function Capitalize(part: string): (r: string)
    ensures |r| == |part|
    ensures r != [] ==> r[0] == UpperChar(part[0]) && r[1..] == part[1..]
  {
    if part == [] then [] else [UpperChar(part[0])] + part[1..]
  }

  /** `.map(Capitalize)`. */
  function Caps(parts: seq<string>): (r: seq<string>)
    ensures |r| == |parts|
    ensures forall k :: 0 <= k < |parts| ==> r[k] == Capitalize(parts[k])
  {
    if parts == [] then [] else [Capitalize(parts[0])] + Caps(parts[1..])
  }

  /** The capitalised pieces of `status` between underscores, before joining. */
  function StatusTokens(status: string): seq<string> {
    Caps(Split(ToLower(status), '_'))
  }

  /**
   * `formatOrderStatus`: lowercase, split on "_", capitalise each piece,
   * join with spaces. Each underscore becomes one space, so the length is kept.
   */
  function FormatOrderStatus(status: string): (r: string)
    ensures |r| == |status|
  {
    JoinSplit(ToLower(status), '_');
    JoinLengths(StatusTokens(status), Split(ToLower(status), '_'), ' ', '_');
    Join(StatusTokens(status), ' ')
  }

  /** Lowercasing neither creates nor removes a character that is not an ASCII letter. */
  lemma LowerKeeps(s: string, c: char)
    requires !IsUpperAscii(c) && !IsLowerAscii(c)
    ensures c in ToLower(s) ==> c in s
    ensures Count(ToLower(s), c) == Count(s, c)
  {
    if s != [] {
      LowerKeeps(s[1..], c);
      assert ToLower(s)[1..] == ToLower(s[1..]);
    }
  }

  /** Capitalising a piece adds no character that is not an ASCII letter. */
  lemma CapitalizeChars(part: string, c: char)
    requires !IsUpperAscii(c) && !IsLowerAscii(c)
    ensures c in Capitalize(part) ==> c in part
  {
    if part != [] && c in Capitalize(part) {
      if c == UpperChar(part[0]) {
        assert c == part[0];
      } else {
        assert c in part[1..];
      }
    }
  }

  /** The display form of a status has no underscore. */
  lemma FormatHasNoUnderscore(status: string)
    ensures '_' !in FormatOrderStatus(status)
  {
    var pieces := Split(ToLower(status), '_');
    SplitPiecesFree(ToLower(status), '_');
    forall k | 0 <= k < |pieces| ensures '_' !in StatusTokens(status)[k] {
      CapitalizeChars(pieces[k], '_');
    }
    JoinFree(StatusTokens(status), ' ', '_');
  }

  /** There is one token more than there are underscores in the status. */
  lemma FormatTokenCount(status: string)
    ensures |StatusTokens(status)| == Count(status, '_') + 1
  {
    SplitCount(ToLower(status), '_');
    LowerKeeps(status, '_');
  }

  /**
   * When the status has no space, splitting the display form on spaces gives
   * back exactly the tokens, so it has `Count(status, '_') + 1` words.
   */
  lemma FormatWords(status: string)
    requires ' ' !in status
    ensures Split(FormatOrderStatus(status), ' ') == StatusTokens(status)
    ensures |Split(FormatOrderStatus(status), ' ')| == Count(status, '_') + 1
  {
    var lowered := ToLower(status);
    var pieces := Split(lowered, '_');
    LowerKeeps(status, ' ');
    SplitPiecesWithin(lowered, '_');
    forall k | 0 <= k < |pieces| ensures ' ' !in StatusTokens(status)[k] {
      CapitalizeChars(pieces[k], ' ');
    }
    FormatTokenCount(status);
    SplitJoin(StatusTokens(status), ' ');
  }

  /** Only the first character of a token can be an upper-case letter. */
  lemma FormatTokensLowerTail(status: string)
    ensures forall k, j :: 0 <= k < |StatusTokens(status)| && 1 <= j < |StatusTokens(status)[k]| ==>
      !IsUpperAscii(StatusTokens(status)[k][j])
  {
    var lowered := ToLower(status);
    var pieces := Split(lowered, '_');
    SplitPiecesWithin(lowered, '_');
    forall k, j | 0 <= k < |pieces| && 1 <= j < |StatusTokens(status)[k]|
      ensures !IsUpperAscii(StatusTokens(status)[k][j])
    {
      assert StatusTokens(status)[k][j] == pieces[k][j];
      var c := pieces[k][j];
      assert c in lowered;
      var i :| 0 <= i < |lowered| && lowered[i] == c;
    }
  }
}
