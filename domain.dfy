/*
 * The records, the status enumeration and the error taxonomy shared by the
 * order-lifecycle core: Order.Domain/Models/Order.cs, the exception classes of
 * Order.Domain/Exceptions, and the string test the guards use.
 */
module Domain {

  /** A C# `int`: the type of `Quantity`. */
  newtype Int32 = x: int | -0x8000_0000 <= x < 0x8000_0000

  const Int32Max: int := 0x7fff_ffff

  /** A reference that may be null. */
  datatype Option<+T> = None | Some(value: T)

  /** The two lifecycle states the core uses; `Created` is the initial one. */
  datatype OrderStatus = Created | Processed

  /**
   * Order.Domain/Models/Order.cs. `decimal TotalAmount` is held in integer
   * cents and `DateTime CreatedAtUtc` as an integer tick count.
   */
  datatype Order = Order(
    id: string,
    customerName: string,
    productName: string,
    quantity: Int32,
    totalAmountCents: int,
    status: OrderStatus,
    createdAtUtc: int)

  /**
   * The checks whose failure raises a ValidationException: the creation
   * chain's five, in the order they run, then the lookup's blank-id check.
   */
  datatype Guard =
    | NullDto
    | BlankCustomerName
    | BlankProductName
    | NonPositiveQuantity
    | NonPositiveAmount
    | BlankOrderId

  /**
   * An exception as it reaches a caller. `Infrastructure(inner)` is an
   * InfrastructureException wrapping `inner`; `LibraryException` is anything
   * raised by the Cosmos, Event Grid, Event Hubs or JSON libraries;
   * `NullReference` is the runtime's NullReferenceException.
   */
  datatype Failure =
    | Validation(guard: Guard)
    | NotFound(id: string)
    | Infrastructure(inner: Failure)
    | LibraryException
    | NullReference

  /** A call that either returns a value or throws. */
  datatype Result<+T> = Ok(value: T) | Err(error: Failure)

  /** `char.IsWhiteSpace`: the Unicode space separators, U+0009..U+000D and U+0085. */
  predicate IsWhiteSpace(c: char)
  {
    var n := c as int;
    n == 0x20 || (0x09 <= n <= 0x0D) || n == 0x85 || n == 0xA0 || n == 0x1680
    || (0x2000 <= n <= 0x200A) || n == 0x2028 || n == 0x2029 || n == 0x202F
    || n == 0x205F || n == 0x3000
  }

  /** Every character of `s` is white space (vacuously so for ""). */
  predicate AllWhiteSpace(s: string)
  {
    forall i :: 0 <= i < |s| ==> IsWhiteSpace(s[i])
  }

  /** `string.IsNullOrWhiteSpace`. */
  predicate IsNullOrWhiteSpace(s: Option<string>)
  {
    s.None? || AllWhiteSpace(s.value)
  }
}
