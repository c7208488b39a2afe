/*
 * The two data-transfer records: the creation request with its validation
 * attributes (Order.Domain/DTOs/CreateOrderDto.cs) and the snapshot carried by
 * an `Order.Created` event (Order.Domain/DTOs/OrderCreatedDto.cs).
 */
module Dtos {
  import opened Domain

  /** A creation request. The names may be null; amounts are in cents. */
  datatype CreateOrderDto = CreateOrderDto(
    customerName: Option<string>,
    productName: Option<string>,
    quantity: Int32,
    totalAmountCents: int)

  /** The payload of an `Order.Created` event: every field of the order. */
  datatype OrderCreatedDto = OrderCreatedDto(
    id: string,
    customerName: string,
    productName: string,
    quantity: Int32,
    totalAmountCents: int,
    status: OrderStatus,
    createdAtUtc: int)

  /** The object mapping from an order to its event snapshot: a copy of each field. */
  function Snapshot(o: Order): OrderCreatedDto
  {
    OrderCreatedDto(o.id, o.customerName, o.productName, o.quantity,
                    o.totalAmountCents, o.status, o.createdAtUtc)
  }

  /** The order a snapshot describes. */
  function Described(d: OrderCreatedDto): Order
  {
    Order(d.id, d.customerName, d.productName, d.quantity,
          d.totalAmountCents, d.status, d.createdAtUtc)
  }

  /** The snapshot loses nothing: it carries the order's id, fields, status and timestamp. */
  lemma SnapshotRoundTrip(o: Order, d: OrderCreatedDto)
    ensures Described(Snapshot(o)) == o
    ensures Snapshot(Described(d)) == d
  {
  }

  // ---------------------------------------------------------------------------
  // The validation attributes on CreateOrderDto, as the framework applies them.

  /**
   * `[Required]` on a string. With empty strings disallowed (the default),
   * .NET's RequiredAttribute rejects null and every string that is empty or
   * white space only, which is `string.IsNullOrWhiteSpace`.
   */
  predicate RequiredValid(s: Option<string>)
  {
    !IsNullOrWhiteSpace(s)
  }

  /** `[StringLength(100, MinimumLength = 3)]`: null passes, otherwise 3 to 100 characters. */
  predicate StringLengthValid(s: Option<string>)
  {
    s.None? || 3 <= |s.value| <= 100
  }

  /** `[Range(1, int.MaxValue)]` on Quantity. */
  predicate QuantityInRange(q: Int32)
  {
    1 <= q as int <= Int32Max
  }

  /** `[Range(typeof(decimal), "0.01", "9999999")]` on TotalAmount, in cents. */
  predicate AmountInRange(cents: int)
  {
    1 <= cents <= 999_999_900
  }

  /** All attributes of the request hold. */
  predicate AnnotationsValid(d: CreateOrderDto)
  {
    && RequiredValid(d.customerName) && StringLengthValid(d.customerName)
    && RequiredValid(d.productName) && StringLengthValid(d.productName)
    && QuantityInRange(d.quantity)
    && AmountInRange(d.totalAmountCents)
  }

  /**
   * The length attribute alone lets through null and a name of three spaces,
   * both of which `string.IsNullOrWhiteSpace` flags.
   */
  lemma StringLengthAdmitsBlankNames()
    ensures StringLengthValid(None) && IsNullOrWhiteSpace(None)
    ensures StringLengthValid(Some("   ")) && IsNullOrWhiteSpace(Some("   "))
  {
    assert IsWhiteSpace(' ');
  }

  /** On a 32-bit quantity the range's upper end excludes nothing: it is exactly `Quantity > 0`. */
  lemma QuantityRangeIsPositivity(q: Int32)
    ensures QuantityInRange(q) <==> q > 0
  {
  }

  /**
   * The amount range implies `TotalAmount > 0`, but not the other way round:
   * ten million is positive and out of range.
   */
  lemma AmountRangeIsStricterThanPositivity(cents: int)
    ensures AmountInRange(cents) ==> cents > 0
    ensures 1_000_000_000 > 0 && !AmountInRange(1_000_000_000)
  {
  }
}
