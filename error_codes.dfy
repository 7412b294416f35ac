/**
 * The error taxonomy of Exceptions/ErrorCode.cs: every failing path of the
 * core raises an ECommerceException carrying one of these values.
 */
module ErrorCodes {

  /** The HTTP status attached to an error code. Only BadRequest is ever used by
      the core (it is the constructors' default); InternalServerError is the other
      status the service answers with. `Name` is what C# prints for the enum value. */
  datatype HttpStatusCode = BadRequest | InternalServerError {
    function Name(): string {
      match this
      case BadRequest => "BadRequest"
      case InternalServerError => "InternalServerError"
    }
  }

  datatype ErrorCode = ErrorCode(errorCodeName: string, message: string, statusCode: HttpStatusCode) {

    /** The `ToString` declared `new` (it hides, not overrides, the inherited one):
        "<Name>: StatusCode: '<code>', Message: '<msg>'." */
    function ToString(): (s: string)
      ensures |s| == |errorCodeName| + |statusCode.Name()| + |message| + 30
      ensures s[..|errorCodeName|] == errorCodeName
      ensures s[|errorCodeName|..|errorCodeName| + 15] == ": StatusCode: '"
      ensures s[|errorCodeName| + 15..|errorCodeName| + 15 + |statusCode.Name()|] == statusCode.Name()
      ensures s[|errorCodeName| + 15 + |statusCode.Name()|..|errorCodeName| + 28 + |statusCode.Name()|] == "', Message: '"
      ensures s[|s| - |message| - 2..] == message + "'."
    {
      errorCodeName + ": StatusCode: '" + statusCode.Name() + "', Message: '" + message + "'."
    }
  }

  /** The name-only constructor: the message is the name itself. */
  function FromName(errorCodeName: string, statusCode: HttpStatusCode): ErrorCode {
    ErrorCode(errorCodeName, errorCodeName, statusCode)
  }

  /** The named codes exposed as static factory properties. */
  datatype Code =
    | NoOrderItemAvailableToShip
    | OrderNotPaid
    | OrderNotShipped
    | OrderAlreadyCancelled
    | OrderAlreadyPaid
    | ShippingAddressMissing
    | NoOrderItemAvailableToPay
    | OrderAlreadyShipped
    | OrderAlreadyDelivered
    | ProductQuantityNotAvailable
  {
    /** `nameof(...)` of the property. */
    function Name(): string {
      match this
      case NoOrderItemAvailableToShip => "NoOrderItemAvailableToShip"
      case OrderNotPaid => "OrderNotPaid"
      case OrderNotShipped => "OrderNotShipped"
      case OrderAlreadyCancelled => "OrderAlreadyCancelled"
      case OrderAlreadyPaid => "OrderAlreadyPaid"
      case ShippingAddressMissing => "ShippingAddressMissing"
      case NoOrderItemAvailableToPay => "NoOrderItemAvailableToPay"
      case OrderAlreadyShipped => "OrderAlreadyShipped"
      case OrderAlreadyDelivered => "OrderAlreadyDelivered"
      case ProductQuantityNotAvailable => "ProductQuantityNotAvailable"
    }
  }

  /** The error a named factory property builds: name-only constructor, default status. */
  function Named(c: Code): (e: ErrorCode)
    ensures e.errorCodeName == c.Name()
    ensures e.message == e.errorCodeName
    ensures e.statusCode == BadRequest
  {
    FromName(c.Name(), BadRequest)
  }

  /** The entity types whose `typeof(T).Name` appears in a NotFound error. */
  datatype EntityType = OrderType | OrderItemType | ProductType {
    function Name(): string {
      match this
      case OrderType => "Order"
      case OrderItemType => "OrderItem"
      case ProductType => "Product"
    }
  }

  /** `ErrorCode.NotFound(type, id)`: name "<Type>NotFound", message "<Type> id: <id> not found". */
  function NotFound(t: EntityType, id: int): (e: ErrorCode)
    ensures e.statusCode == BadRequest
  {
    ErrorCode(t.Name() + "NotFound", t.Name() + " id: " + IntToString(id) + " not found", BadRequest)
  }

  // ---------------------------------------------------------------------------
  // Decimal rendering of an int, as C# interpolation prints it ("-" then digits).

  predicate IsDigit(c: char) {
    '0' <= c <= '9'
  }

  predicate AllDigits(s: string) {
    forall i :: 0 <= i < |s| ==> IsDigit(s[i])
  }

  function DigitChar(d: int): (c: char)
    requires 0 <= d < 10
    ensures IsDigit(c) && c as int - '0' as int == d
  {
    "0123456789"[d]
  }

  /** Decimal digits of n, most significant first, with no leading zero. */
  function NatToString(n: nat): (s: string)
    ensures |s| > 0 && AllDigits(s)
    ensures |s| > 1 ==> s[0] != '0'
    decreases n
  {
    if n < 10 then [DigitChar(n)] else NatToString(n / 10) + [DigitChar(n % 10)]
  }

  function IntToString(i: int): string {
    if i < 0 then "-" + NatToString(-i) else NatToString(i)
  }

  /** Reads back a string of decimal digits. */
  function ParseNat(s: string): nat
    requires AllDigits(s)
  {
    if s == [] then 0 else 10 * ParseNat(s[..|s| - 1]) + (s[|s| - 1] as int - '0' as int)
  }

  lemma {:induction false} ParseNatToString(n: nat)
    ensures ParseNat(NatToString(n)) == n
    decreases n
  {
    var s := NatToString(n);
    if n >= 10 {
      ParseNatToString(n / 10);
      assert s[..|s| - 1] == NatToString(n / 10);
    }
  }

  /** Reads back what IntToString prints. */
  function ParseInt(s: string): int {
    if |s| > 0 && s[0] == '-' && AllDigits(s[1..]) then 0 - ParseNat(s[1..])
    else if AllDigits(s) then ParseNat(s)
    else 0
  }

  lemma ParseIntToString(i: int)
    ensures ParseInt(IntToString(i)) == i
  {
    var s := IntToString(i);
    if i < 0 {
      assert s == "-" + NatToString(-i);
      assert s[1..] == NatToString(-i);
      assert ParseInt(s) == 0 - ParseNat(NatToString(-i));
      ParseNatToString(-i);
    } else {
      assert s == NatToString(i);
      assert IsDigit(s[0]);
      assert ParseInt(s) == ParseNat(s);
      ParseNatToString(i);
    }
  }

  /** Distinct ids print differently. */
  lemma IntToStringInjective(a: int, b: int)
    requires IntToString(a) == IntToString(b)
    ensures a == b
  {
    ParseIntToString(a);
    ParseIntToString(b);
  }

  /** The named codes have pairwise distinct names. */
  lemma NamedCodesDistinct(a: Code, b: Code)
    requires a != b
    ensures Named(a) != Named(b)
  {
  }

  lemma EntityNamesDistinct(a: EntityType, b: EntityType)
    requires a != b
    ensures a.Name() != b.Name()
  {
  }

  /** A NotFound error determines the entity type and the id it was raised for. */
  lemma NotFoundInjective(t1: EntityType, id1: int, t2: EntityType, id2: int)
    requires NotFound(t1, id1) == NotFound(t2, id2)
    ensures t1 == t2 && id1 == id2
  {
    var e1, e2 := NotFound(t1, id1), NotFound(t2, id2);
    var n1, n2 := t1.Name(), t2.Name();
    assert |n1| == |n2| by {
      assert |e1.errorCodeName| == |n1| + 8 && |e2.errorCodeName| == |n2| + 8;
    }
    assert n1 == e1.errorCodeName[..|n1|] == e2.errorCodeName[..|n2|] == n2;
    if t1 != t2 {
      EntityNamesDistinct(t1, t2);
    }
    var m1, m2 := e1.message, e2.message;
    assert m1[|n1| + 5..|m1| - 10] == IntToString(id1);
    assert m2[|n2| + 5..|m2| - 10] == IntToString(id2);
    IntToStringInjective(id1, id2);
  }

  /** A NotFound error is never one of the named codes. */
  lemma NotFoundIsNotNamed(t: EntityType, id: int, c: Code)
    ensures NotFound(t, id) != Named(c)
  {
    var n := NotFound(t, id).errorCodeName;
    assert n[|n| - 8..] == "NotFound";
    var m := Named(c).errorCodeName;
    assert |m| < 8 || m[|m| - 8..] != "NotFound";
  }
}
