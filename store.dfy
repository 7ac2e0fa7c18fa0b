/** The Store and StoreProduct entities. Fields the entity never changes after
    construction are `const`; fields it updates in place are `var`. */
module StoreEntities {
  import opened Wrappers
  import opened Geo
  import opened Records
  import opened Numerics

  datatype StoreType = Convenience | Pharmacy | Other {
    function Name(): string {
      match this
      case Convenience => "CONVENIENCE"
      case Pharmacy => "PHARMACY"
      case Other => "OTHER"
    }
  }

  const DefaultDeliveryRadiusKm: real := 2.00

  class Store {
    const storeId: int
    const name: string
    const storeType: StoreType
    const phone: Option<string>
    const address: Option<string>
    const location: Point
    const deliveryRadiusKm: real
    const isActive: bool
    var registeredAt: Option<Time>

    /** The builder: a missing radius becomes 2.00 km, a missing active flag true. */
    constructor (storeId: int, name: string, storeType: StoreType, phone: Option<string>,
                 address: Option<string>, location: Point,
                 deliveryRadiusKm: Option<real>, isActive: Option<bool>)
      ensures this.storeId == storeId && this.name == name && this.storeType == storeType
      ensures this.phone == phone && this.address == address && this.location == location
      ensures deliveryRadiusKm.None? ==> this.deliveryRadiusKm == DefaultDeliveryRadiusKm
      ensures deliveryRadiusKm.Some? ==> this.deliveryRadiusKm == deliveryRadiusKm.value
      ensures isActive.None? ==> this.isActive
      ensures isActive.Some? ==> this.isActive == isActive.value
      ensures registeredAt.None?
    {
      this.storeId := storeId;
      this.name := name;
      this.storeType := storeType;
      this.phone := phone;
      this.address := address;
      this.location := location;
      this.deliveryRadiusKm := deliveryRadiusKm.GetOr(DefaultDeliveryRadiusKm);
      this.isActive := isActive.GetOr(true);
      this.registeredAt := None;
    }

    /** `@PrePersist`: stamp `registeredAt` only when it is still unset. */
    method OnCreate(now: Time)
      modifies this`registeredAt
      ensures old(registeredAt).Some? ==> registeredAt == old(registeredAt)
      ensures old(registeredAt).None? ==> registeredAt == Some(now)
    {
      registeredAt := StampIfUnset(registeredAt, now);
    }
  }

  const DefaultMaxQtyPerOrder: int := 10

  class StoreProduct {
    const store: Store
    const product: Product
    const price: int
    var stockQty: Int32
    const maxQtyPerOrder: int
    const isActive: bool

    /** The builder: missing stock becomes 0, missing maximum 10, missing active flag true. */
    constructor (store: Store, product: Product, price: int,
                 stockQty: Option<Int32>, maxQtyPerOrder: Option<int>, isActive: Option<bool>)
      ensures this.store == store && this.product == product && this.price == price
      ensures stockQty.None? ==> this.stockQty == 0
      ensures stockQty.Some? ==> this.stockQty == stockQty.value
      ensures maxQtyPerOrder.None? ==> this.maxQtyPerOrder == DefaultMaxQtyPerOrder
      ensures maxQtyPerOrder.Some? ==> this.maxQtyPerOrder == maxQtyPerOrder.value
      ensures isActive.None? ==> this.isActive
      ensures isActive.Some? ==> this.isActive == isActive.value
    {
      this.store := store;
      this.product := product;
      this.price := price;
      this.stockQty := stockQty.GetOr(0);
      this.maxQtyPerOrder := maxQtyPerOrder.GetOr(DefaultMaxQtyPerOrder);
      this.isActive := isActive.GetOr(true);
    }

    /**
     * Subtracts `quantity` with no lower-bound check; the `Integer` field
     * wraps around below -2^31.
     */
    method DecreaseStock(quantity: int)
      modifies this`stockQty
      ensures stockQty == WrapInt32(old(stockQty) - quantity)
      ensures InInt32(old(stockQty) - quantity) ==> stockQty == old(stockQty) - quantity
    {
      stockQty := WrapInt32(stockQty - quantity);
    }
  }
}
