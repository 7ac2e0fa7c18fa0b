/** The line view of an order (`OrderItemResponse.from`), with its subtotal. */
module OrderItemResponses {
  import opened Numerics
  import opened OrderEntity

  datatype OrderItemResponse = OrderItemResponse(
    orderItemId: int,
    productId: int,
    productName: string,
    quantity: int,
    unitPrice: int,
    subtotal: int)
  {
    /**
     * The subtotal is quantity times unit price in Java `int` arithmetic: the
     * exact product when it fits in 32 bits, and otherwise the product
     * wrapped modulo 2^32. The other fields are copied from the item and its
     * product.
     */
    static function From(item: OrderItem): (r: OrderItemResponse)
      ensures r.orderItemId == item.orderItemId
      ensures r.productId == item.product.productId && r.productName == item.product.name
      ensures r.quantity == item.quantity && r.unitPrice == item.unitPrice
      ensures InInt32(r.subtotal)
      ensures (r.subtotal - item.quantity * item.unitPrice) % Int32Modulus == 0
      ensures InInt32(item.quantity * item.unitPrice) ==> r.subtotal == item.quantity * item.unitPrice
    {
      OrderItemResponse(item.orderItemId, item.product.productId, item.product.name,
                        item.quantity, item.unitPrice, WrapInt32(item.quantity * item.unitPrice))
    }
  }

  /** A subtotal the view can carry: the product wraps to a negative amount past 2^31 - 1. */
  lemma SubtotalWraps(item: OrderItem)
    requires item.quantity == 50_000 && item.unitPrice == 50_000
    ensures OrderItemResponse.From(item).subtotal == 2_500_000_000 - Int32Modulus < 0
  {
    assert item.quantity * item.unitPrice == 2_500_000_000;
  }
}
