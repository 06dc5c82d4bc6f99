/** The four document types of the warehouse. Every declared field is
    required; a document object may still hold no value in a field (None),
    and the store refuses to save it then. The store also refuses to write an
    integer that does not fit in 64 bits. A document may be saved exactly when
    it is complete and its integers fit. */
module Models {
  import opened Wrappers
  import opened Collection

  /** A UTC date-time, opaque: its value comes from the clock or from the
      date parser, neither of which is modelled. */
  datatype DateTime = DateTime(ticks: int)

  /** A stored floating-point number, kept as its bit pattern; nothing
      computes with it. */
  datatype Float = Float(bits: bv64)

  datatype Product = Product(
    name: Option<string>,
    price: Option<Float>,
    amount: Option<int>,
    createdAt: Option<DateTime>,
    updatedAt: Option<DateTime>)

  datatype Customer = Customer(
    firstName: Option<string>,
    lastName: Option<string>,
    street: Option<string>,
    postalCode: Option<string>,
    age: Option<int>,
    createdAt: Option<DateTime>,
    updatedAt: Option<DateTime>)

  datatype Staff = Staff(
    firstName: Option<string>,
    lastName: Option<string>,
    employeeSince: Option<DateTime>,
    age: Option<int>,
    createdAt: Option<DateTime>,
    updatedAt: Option<DateTime>)

  /** An order references one document of each of the other three
      collections by identifier. */
  datatype Order = Order(
    product: Option<Id>,
    customer: Option<Id>,
    staff: Option<Id>,
    createdAt: Option<DateTime>,
    updatedAt: Option<DateTime>)

  /** The store encodes an integer field as a signed 64-bit integer and
      refuses to write one outside that range. */
  predicate FitsInt64(x: int)
  {
    -0x8000_0000_0000_0000 <= x <= 0x7FFF_FFFF_FFFF_FFFF
  }

  predicate IntFits(x: Option<int>)
  {
    x.None? || FitsInt64(x.value)
  }

  predicate ProductEncodable(p: Product) { IntFits(p.amount) }

  predicate CustomerEncodable(c: Customer) { IntFits(c.age) }

  predicate StaffEncodable(s: Staff) { IntFits(s.age) }

  predicate ProductComplete(p: Product)
  {
    p.name.Some? && p.price.Some? && p.amount.Some? && p.createdAt.Some? && p.updatedAt.Some?
  }

  predicate CustomerComplete(c: Customer)
  {
    && c.firstName.Some? && c.lastName.Some? && c.street.Some? && c.postalCode.Some?
    && c.age.Some? && c.createdAt.Some? && c.updatedAt.Some?
  }

  predicate StaffComplete(s: Staff)
  {
    && s.firstName.Some? && s.lastName.Some? && s.employeeSince.Some? && s.age.Some?
    && s.createdAt.Some? && s.updatedAt.Some?
  }

  predicate OrderComplete(o: Order)
  {
    o.product.Some? && o.customer.Some? && o.staff.Some? && o.createdAt.Some? && o.updatedAt.Some?
  }
}
