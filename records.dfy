/** Entities without behaviour of their own (Customer, Product, User) as plain
    records, and the abstract clock that stands for `LocalDateTime.now()`. */
module Records {
  import opened Wrappers
  import opened Geo

  /** An instant read from the clock; only its identity matters to the model. */
  type Time = int

  datatype Customer = Customer(
    customerId: int,
    name: string,
    phone: Option<string>,
    address: Option<string>,
    location: Point)

  datatype Product = Product(
    productId: int,
    name: string,
    category: string,
    unitWeightKg: real,
    requiresVerification: bool,
    isActive: bool)

  datatype UserRole = CustomerRole | OwnerRole

  datatype User = User(
    userId: int,
    name: string,
    phone: Option<string>,
    address: Option<string>,
    location: Point,
    role: UserRole)

  /** The `@PrePersist` rule shared by every entity: stamp only when unset. */
  function StampIfUnset(stamp: Option<Time>, now: Time): (r: Option<Time>)
    ensures r.Some?
    ensures stamp.Some? ==> r == stamp
    ensures stamp.None? ==> r == Some(now)
  {
    if stamp.None? then Some(now) else stamp
  }
}
