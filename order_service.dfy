/**
 * Order placement (OrderService): the ordered validation chain, the order
 * totals, the delivery request with one item per line, and the stock
 * decrease. Repositories are maps passed in; the class-level transaction
 * means a rejected order changes nothing.
 */
module OrderService {
  import opened Wrappers
  import opened Numerics
  import opened Records
  import opened Errors
  import opened StoreEntities
  import opened DeliveryRequestEntity

  datatype OrderItemRequest = OrderItemRequest(productId: int, quantity: int)

  /** The order form; `items` is `None` when the client sent no list at all. */
  datatype OrderCreateRequest = OrderCreateRequest(
    storeId: int,
    customerId: int,
    items: Option<seq<OrderItemRequest>>,
    note: Option<string>)

  /**
   * Why an order is refused. A missing customer is reported as
   * CUSTOMER_NOT_FOUND, a code the error table does not define, so it is a
   * case of its own here.
   */
  datatype OrderFailure = Rejected(code: ErrorCode) | CustomerNotFound

  /** The composite key of the store-product table: (store id, product id). */
  type StoreProductKey = (int, int)

  function Lookup(storeProducts: map<StoreProductKey, StoreProduct>, storeId: int, productId: int): Option<StoreProduct> {
    if (storeId, productId) in storeProducts then Some(storeProducts[(storeId, productId)]) else None
  }

  /** The checks on one line, in their order: listed, active, in stock, within the per-order maximum. */
  function LineFailure(line: OrderItemRequest, storeProduct: Option<StoreProduct>): Option<ErrorCode>
    reads if storeProduct.Some? then {storeProduct.value} else {}
  {
    if storeProduct.None? then Some(ProductNotFound)
    else if !storeProduct.value.isActive then Some(ProductNotActive)
    else if storeProduct.value.stockQty < line.quantity then Some(ProductOutOfStock)
    else if line.quantity > storeProduct.value.maxQtyPerOrder then Some(ProductExceedMaxQuantity)
    else None
  }

  function LineFailureAt(storeId: int, items: seq<OrderItemRequest>, storeProducts: map<StoreProductKey, StoreProduct>,
                         k: nat): Option<ErrorCode>
    requires k < |items|
    reads storeProducts.Values
  {
    LineFailure(items[k], Lookup(storeProducts, storeId, items[k].productId))
  }

  /** The first failing line from `from` on, checked in list order. */
  function ItemsFailure(storeId: int, items: seq<OrderItemRequest>, storeProducts: map<StoreProductKey, StoreProduct>,
                        from: nat): Option<ErrorCode>
    reads storeProducts.Values
    decreases |items| - from
  {
    if from >= |items| then None
    else if LineFailureAt(storeId, items, storeProducts, from).Some? then LineFailureAt(storeId, items, storeProducts, from)
    else ItemsFailure(storeId, items, storeProducts, from + 1)
  }

  /** Why `req` is refused, if it is: the header checks in their order, then the lines. */
  function RejectionOf(req: OrderCreateRequest, stores: map<int, Store>, customers: map<int, Customer>,
                       storeProducts: map<StoreProductKey, StoreProduct>): Option<OrderFailure>
    reads storeProducts.Values
  {
    if req.storeId !in stores then Some(Rejected(StoreNotFound))
    else if !stores[req.storeId].isActive then Some(Rejected(StoreNotActive))
    else if req.customerId !in customers then Some(CustomerNotFound)
    else if req.items.None? || |req.items.value| == 0 then Some(Rejected(OrderItemsEmpty))
    else match ItemsFailure(req.storeId, req.items.value, storeProducts, 0)
      case Some(code) => Some(Rejected(code))
      case None => None
  }

  /** Every line names a product the store lists. */
  predicate AllListed(storeId: int, items: seq<OrderItemRequest>, storeProducts: map<StoreProductKey, StoreProduct>) {
    forall k :: 0 <= k < |items| ==> (storeId, items[k].productId) in storeProducts
  }

  /** Σ price × quantity over the lines, as a mathematical integer. */
  function AmountSum(storeId: int, items: seq<OrderItemRequest>, storeProducts: map<StoreProductKey, StoreProduct>): int
    requires AllListed(storeId, items, storeProducts)
  {
    if |items| == 0 then 0
    else
      var last := items[|items| - 1];
      AmountSum(storeId, items[..|items| - 1], storeProducts)
        + storeProducts[(storeId, last.productId)].price * last.quantity
  }

  /** Σ unit weight × quantity over the lines. */
  function WeightSum(storeId: int, items: seq<OrderItemRequest>, storeProducts: map<StoreProductKey, StoreProduct>): real
    requires AllListed(storeId, items, storeProducts)
  {
    if |items| == 0 then 0.0
    else
      var last := items[|items| - 1];
      WeightSum(storeId, items[..|items| - 1], storeProducts)
        + storeProducts[(storeId, last.productId)].product.unitWeightKg * last.quantity as real
  }

  /** The total quantity the lines take from `storeProduct`. */
  function Demand(storeProduct: StoreProduct, storeId: int, items: seq<OrderItemRequest>,
                  storeProducts: map<StoreProductKey, StoreProduct>): int
  {
    if |items| == 0 then 0
    else
      var last := items[|items| - 1];
      Demand(storeProduct, storeId, items[..|items| - 1], storeProducts)
        + (if Lookup(storeProducts, storeId, last.productId) == Some(storeProduct) then last.quantity else 0)
  }

  /**
   * Places an order: every check runs before anything is saved or any stock
   * moves; then the CREATED request is saved with its totals and one item
   * per line, and each line takes its quantity from its product's stock.
   */
  method CreateOrder(req: OrderCreateRequest, stores: map<int, Store>, customers: map<int, Customer>,
                     storeProducts: map<StoreProductKey, StoreProduct>, requestId: int, firstItemId: int, now: Time)
    returns (result: Result<DeliveryRequest, OrderFailure>)
    modifies storeProducts.Values`stockQty
    ensures result.Failure? ==> Some(result.error) == old(RejectionOf(req, stores, customers, storeProducts))
    ensures result.Failure? ==> forall sp :: sp in storeProducts.Values ==> sp.stockQty == old(sp.stockQty)
    ensures result.Success? ==> old(RejectionOf(req, stores, customers, storeProducts)).None?
    ensures result.Success? ==>
      var request := result.value;
      var items := req.items.value;
      && req.storeId in stores && req.customerId in customers
      && AllListed(req.storeId, items, storeProducts)
      && fresh(request) && request.requestId == requestId
      && request.store == stores[req.storeId] && request.customer == customers[req.customerId]
      && request.origin == stores[req.storeId].location && request.destination == customers[req.customerId].location
      && request.totalAmount == WrapInt32(AmountSum(req.storeId, items, storeProducts))
      && request.totalWeightKg == WeightSum(req.storeId, items, storeProducts)
      && request.itemCount == |items| && request.note == req.note
      && request.status == Created && request.createdAt == Some(now)
      && request.assignedAt.None? && request.completedAt.None?
      && |request.requestItems| == |items|
      && (forall k :: 0 <= k < |items| ==>
            var item := request.requestItems[k];
            var storeProduct := storeProducts[(req.storeId, items[k].productId)];
            && fresh(item) && item.requestItemId == firstItemId + k && item.deliveryRequest == request
            && item.product == storeProduct.product && item.quantity == items[k].quantity
            && item.unitPrice == storeProduct.price && item.unitWeightKg == storeProduct.product.unitWeightKg)
      && (forall sp :: sp in storeProducts.Values ==>
            sp.stockQty == WrapInt32(old(sp.stockQty) - Demand(sp, req.storeId, items, storeProducts)))
  {
    if req.storeId !in stores {
      return Failure(Rejected(StoreNotFound));
    }
    var store := stores[req.storeId];
    if !store.isActive {
      return Failure(Rejected(StoreNotActive));
    }
    if req.customerId !in customers {
      return Failure(CustomerNotFound);
    }
    var customer := customers[req.customerId];
    if req.items.None? || |req.items.value| == 0 {
      return Failure(Rejected(OrderItemsEmpty));
    }
    var items := req.items.value;
    var failure, totalAmount, totalWeightKg := CheckItems(req.storeId, items, storeProducts);
    if failure.Some? {
      return Failure(Rejected(failure.value));
    }
    var request := new DeliveryRequest(requestId, store, customer, store.location, customer.location,
                                       totalWeightKg, totalAmount, |items|, req.note);
    request.OnCreate(now);
    AddItems(request, req.storeId, items, storeProducts, firstItemId);
    result := Success(request);
  }

  /**
   * The line loop: checks each line in list order against the stock as it
   * stands, stopping at the first failure, and sums the amount (as a Java
   * `int`) and the weight.
   */
  method CheckItems(storeId: int, items: seq<OrderItemRequest>, storeProducts: map<StoreProductKey, StoreProduct>)
    returns (failure: Option<ErrorCode>, totalAmount: int, totalWeightKg: real)
    ensures failure == ItemsFailure(storeId, items, storeProducts, 0)
    ensures failure.None? ==> AllListed(storeId, items, storeProducts)
    ensures failure.None? ==> totalAmount == WrapInt32(AmountSum(storeId, items, storeProducts))
    ensures failure.None? ==> totalWeightKg == WeightSum(storeId, items, storeProducts)
  {
    totalAmount := 0;
    totalWeightKg := 0.0;
    for i := 0 to |items|
      invariant forall j :: 0 <= j < i ==> LineFailureAt(storeId, items, storeProducts, j).None?
      invariant AllListed(storeId, items[..i], storeProducts)
      invariant totalAmount == WrapInt32(AmountSum(storeId, items[..i], storeProducts))
      invariant totalWeightKg == WeightSum(storeId, items[..i], storeProducts)
    {
      failure := CheckLine(storeId, items, storeProducts, i);
      if failure.Some? {
        return;
      }
      var storeProduct := storeProducts[(storeId, items[i].productId)];
      AmountStep(storeId, items, storeProducts, i, totalAmount);
      totalAmount := WrapInt32(totalAmount + WrapInt32(storeProduct.price * items[i].quantity));
      assert items[..i + 1][..i] == items[..i];
      totalWeightKg := totalWeightKg + storeProduct.product.unitWeightKg * items[i].quantity as real;
    }
    assert items[..|items|] == items;
    ItemsPass(storeId, items, storeProducts, 0);
    failure := None;
  }

  /** Runs the checks on line `i`; the first failure found in list order is the one reported. */
  method CheckLine(storeId: int, items: seq<OrderItemRequest>, storeProducts: map<StoreProductKey, StoreProduct>, i: nat)
    returns (failure: Option<ErrorCode>)
    requires i < |items|
    requires forall j :: 0 <= j < i ==> LineFailureAt(storeId, items, storeProducts, j).None?
    ensures failure == LineFailureAt(storeId, items, storeProducts, i)
    ensures failure.Some? ==> ItemsFailure(storeId, items, storeProducts, 0) == failure
    ensures failure.None? ==> (storeId, items[i].productId) in storeProducts
  {
    var line := items[i];
    if (storeId, line.productId) !in storeProducts {
      failure := Some(ProductNotFound);
    } else {
      var storeProduct := storeProducts[(storeId, line.productId)];
      if !storeProduct.isActive {
        failure := Some(ProductNotActive);
      } else if storeProduct.stockQty < line.quantity {
        failure := Some(ProductOutOfStock);
      } else if line.quantity > storeProduct.maxQtyPerOrder {
        failure := Some(ProductExceedMaxQuantity);
      } else {
        failure := None;
      }
    }
    if failure.Some? {
      ItemsFailureFirst(storeId, items, storeProducts, 0, failure.value);
    }
  }

  /** The request items, one per line in line order, each taking its quantity from the stock. */
  method AddItems(request: DeliveryRequest, storeId: int, items: seq<OrderItemRequest>,
                  storeProducts: map<StoreProductKey, StoreProduct>, firstItemId: int)
    requires AllListed(storeId, items, storeProducts)
    requires request.requestItems == []
    modifies request`requestItems, storeProducts.Values`stockQty
    ensures |request.requestItems| == |items|
    ensures forall k :: 0 <= k < |items| ==>
      var item := request.requestItems[k];
      var storeProduct := storeProducts[(storeId, items[k].productId)];
      && fresh(item) && item.requestItemId == firstItemId + k && item.deliveryRequest == request
      && item.product == storeProduct.product && item.quantity == items[k].quantity
      && item.unitPrice == storeProduct.price && item.unitWeightKg == storeProduct.product.unitWeightKg
    ensures forall sp :: sp in storeProducts.Values ==>
      sp.stockQty == WrapInt32(old(sp.stockQty) - Demand(sp, storeId, items, storeProducts))
  {
    assert items[..0] == [];
    for i := 0 to |items|
      invariant |request.requestItems| == i
      invariant forall k :: 0 <= k < i ==> fresh(request.requestItems[k])
      invariant ItemsMade(request, storeId, items[..i], storeProducts, firstItemId) == true
      invariant forall sp :: sp in storeProducts.Values ==> sp.stockQty == old(sp.stockQty)
    {
      var storeProduct := storeProducts[(storeId, items[i].productId)];
      AddLine(request, storeProduct, items[i].quantity, firstItemId + i);
    }
    assert items[..|items|] == items;
    assert ItemsMade(request, storeId, items, storeProducts, firstItemId);
    TakeStock(storeId, items, storeProducts);
  }

  /** Each line's quantity taken from its product's stock, in line order. */
  method TakeStock(storeId: int, items: seq<OrderItemRequest>, storeProducts: map<StoreProductKey, StoreProduct>)
    requires AllListed(storeId, items, storeProducts)
    modifies storeProducts.Values`stockQty
    ensures forall sp :: sp in storeProducts.Values ==>
      sp.stockQty == WrapInt32(old(sp.stockQty) - Demand(sp, storeId, items, storeProducts))
  {
    ghost var before: map<StoreProduct, int> := map sp | sp in storeProducts.Values :: sp.stockQty;
    ghost var stock := before;
    assert items[..0] == [];
    for i := 0 to |items|
      invariant stock.Keys == storeProducts.Values
      invariant forall sp :: sp in stock ==> sp.stockQty == stock[sp]
      invariant StockLeft(stock, storeProducts, storeId, items[..i], before) == true
    {
      var storeProduct := storeProducts[(storeId, items[i].productId)];
      StockStep(stock, storeProducts, storeId, items, i, before, WrapInt32(stock[storeProduct] - items[i].quantity));
      stock := TakeLine(storeProduct, items[i].quantity, stock);
    }
    assert items[..|items|] == items;
    forall sp | sp in storeProducts.Values
      ensures sp.stockQty == WrapInt32(old(sp.stockQty) - Demand(sp, storeId, items, storeProducts))
    {
      assert sp in stock && sp in before;
    }
  }

  /** Takes one line's quantity from its stock entry; `stock` tracks every entry's level. */
  method TakeLine(storeProduct: StoreProduct, quantity: int, ghost stock: map<StoreProduct, int>)
    returns (ghost next: map<StoreProduct, int>)
    requires storeProduct in stock
    requires forall sp :: sp in stock ==> sp.stockQty == stock[sp]
    modifies storeProduct`stockQty
    ensures next == stock[storeProduct := WrapInt32(stock[storeProduct] - quantity)]
    ensures forall sp :: sp in next ==> sp.stockQty == next[sp]
  {
    storeProduct.DecreaseStock(quantity);
    next := stock[storeProduct := storeProduct.stockQty];
  }

  /** The request's items are the lines' items, in line order, priced and weighted from the stock entries. */
  ghost predicate ItemsMade(request: DeliveryRequest, storeId: int, items: seq<OrderItemRequest>,
                            storeProducts: map<StoreProductKey, StoreProduct>, firstItemId: int)
    requires AllListed(storeId, items, storeProducts)
    reads request, request.requestItems
  {
    && |request.requestItems| == |items|
    && forall k :: 0 <= k < |items| ==>
      var item := request.requestItems[k];
      var storeProduct := storeProducts[(storeId, items[k].productId)];
      && item.requestItemId == firstItemId + k && item.deliveryRequest == request
      && item.product == storeProduct.product && item.quantity == items[k].quantity
      && item.unitPrice == storeProduct.price && item.unitWeightKg == storeProduct.product.unitWeightKg
  }

  /** Every stock level in `stock` is its level in `before`, less what `items` take from it, as a Java `int`. */
  ghost predicate StockLeft(stock: map<StoreProduct, int>, storeProducts: map<StoreProductKey, StoreProduct>,
                            storeId: int, items: seq<OrderItemRequest>, before: map<StoreProduct, int>)
  {
    forall sp :: sp in stock ==>
      sp in before && stock[sp] == WrapInt32(before[sp] - Demand(sp, storeId, items, storeProducts))
  }

  /** Taking line `i` from the stock left after the lines before it leaves the stock after line `i`. */
  lemma StockStep(stock: map<StoreProduct, int>, storeProducts: map<StoreProductKey, StoreProduct>, storeId: int,
                  items: seq<OrderItemRequest>, i: nat, before: map<StoreProduct, int>, level: int)
    requires i < |items| && (storeId, items[i].productId) in storeProducts
    requires var taken := storeProducts[(storeId, items[i].productId)];
      taken in stock && level == WrapInt32(stock[taken] - items[i].quantity)
    requires StockLeft(stock, storeProducts, storeId, items[..i], before)
    ensures StockLeft(stock[storeProducts[(storeId, items[i].productId)] := level], storeProducts, storeId, items[..i + 1], before)
  {
    assert items[..i + 1][..i] == items[..i];
    var next := stock[storeProducts[(storeId, items[i].productId)] := level];
    forall sp | sp in next
      ensures sp in before && next[sp] == WrapInt32(before[sp] - Demand(sp, storeId, items[..i + 1], storeProducts))
    {
      WrapSubtract(before[sp] - Demand(sp, storeId, items[..i], storeProducts), items[i].quantity);
    }
  }

  /** The request item for one line, appended to the request. */
  method AddLine(request: DeliveryRequest, storeProduct: StoreProduct, quantity: int, itemId: int)
    modifies request`requestItems
    ensures |request.requestItems| == |old(request.requestItems)| + 1
    ensures request.requestItems[..|request.requestItems| - 1] == old(request.requestItems)
    ensures var item := request.requestItems[|request.requestItems| - 1];
      && fresh(item) && item.requestItemId == itemId && item.deliveryRequest == request
      && item.product == storeProduct.product && item.quantity == quantity
      && item.unitPrice == storeProduct.price && item.unitWeightKg == storeProduct.product.unitWeightKg
  {
    var product := storeProduct.product;
    var item := new RequestItem(itemId, request, product, quantity, storeProduct.price, product.unitWeightKg);
    request.AddRequestItem(item);
  }

  /** Wrapping each partial sum gives the wrapped total. */
  lemma AmountStep(storeId: int, items: seq<OrderItemRequest>, storeProducts: map<StoreProductKey, StoreProduct>,
                   i: nat, totalAmount: int)
    requires i < |items| && AllListed(storeId, items[..i], storeProducts)
    requires (storeId, items[i].productId) in storeProducts
    requires totalAmount == WrapInt32(AmountSum(storeId, items[..i], storeProducts))
    ensures AllListed(storeId, items[..i + 1], storeProducts)
    ensures WrapInt32(totalAmount + WrapInt32(storeProducts[(storeId, items[i].productId)].price * items[i].quantity))
         == WrapInt32(AmountSum(storeId, items[..i + 1], storeProducts))
  {
    var prefix := items[..i + 1];
    assert prefix[..i] == items[..i];
    var line := storeProducts[(storeId, items[i].productId)].price * items[i].quantity;
    WrapAdd(AmountSum(storeId, items[..i], storeProducts), line);
  }

  /** While the exact sum fits a Java `int`, the stored amount is the exact sum. */
  lemma AmountExactInRange(storeId: int, items: seq<OrderItemRequest>, storeProducts: map<StoreProductKey, StoreProduct>)
    requires AllListed(storeId, items, storeProducts)
    requires InInt32(AmountSum(storeId, items, storeProducts))
    ensures WrapInt32(AmountSum(storeId, items, storeProducts)) == AmountSum(storeId, items, storeProducts)
  {
  }

  /** The lines fail with `code` exactly when some line does and every line before it passes. */
  lemma {:induction false} ItemsFailureFirst(storeId: int, items: seq<OrderItemRequest>,
                                             storeProducts: map<StoreProductKey, StoreProduct>, from: nat, code: ErrorCode)
    ensures ItemsFailure(storeId, items, storeProducts, from) == Some(code) <==>
      exists k :: from <= k < |items| && LineFailureAt(storeId, items, storeProducts, k) == Some(code)
        && forall j :: from <= j < k ==> LineFailureAt(storeId, items, storeProducts, j).None?
    decreases |items| - from
  {
    if from < |items| {
      ItemsFailureFirst(storeId, items, storeProducts, from + 1, code);
      if LineFailureAt(storeId, items, storeProducts, from).None? {
        assert ItemsFailure(storeId, items, storeProducts, from) == ItemsFailure(storeId, items, storeProducts, from + 1);
        if ItemsFailure(storeId, items, storeProducts, from) == Some(code) {
          var k :| from + 1 <= k < |items| && LineFailureAt(storeId, items, storeProducts, k) == Some(code)
            && forall j :: from + 1 <= j < k ==> LineFailureAt(storeId, items, storeProducts, j).None?;
          assert forall j :: from <= j < k ==> LineFailureAt(storeId, items, storeProducts, j).None?;
        }
        if exists k :: from <= k < |items| && LineFailureAt(storeId, items, storeProducts, k) == Some(code)
            && forall j :: from <= j < k ==> LineFailureAt(storeId, items, storeProducts, j).None? {
          var k :| from <= k < |items| && LineFailureAt(storeId, items, storeProducts, k) == Some(code)
            && forall j :: from <= j < k ==> LineFailureAt(storeId, items, storeProducts, j).None?;
          assert from + 1 <= k;
        }
      } else {
        assert ItemsFailure(storeId, items, storeProducts, from) == LineFailureAt(storeId, items, storeProducts, from);
        forall k | from < k < |items| && LineFailureAt(storeId, items, storeProducts, k) == Some(code)
          ensures exists j :: from <= j < k && LineFailureAt(storeId, items, storeProducts, j).Some?
        {
          assert LineFailureAt(storeId, items, storeProducts, from).Some?;
        }
      }
    }
  }

  /** No line fails exactly when every line passes. */
  lemma {:induction false} ItemsPass(storeId: int, items: seq<OrderItemRequest>,
                                     storeProducts: map<StoreProductKey, StoreProduct>, from: nat)
    ensures ItemsFailure(storeId, items, storeProducts, from).None? <==>
      forall k :: from <= k < |items| ==> LineFailureAt(storeId, items, storeProducts, k).None?
    decreases |items| - from
  {
    if from < |items| {
      ItemsPass(storeId, items, storeProducts, from + 1);
    }
  }

  /**
   * An order is accepted exactly when the store exists and is active, the
   * customer exists, there is at least one line and every line passes.
   */
  lemma AcceptedExactly(req: OrderCreateRequest, stores: map<int, Store>, customers: map<int, Customer>,
                        storeProducts: map<StoreProductKey, StoreProduct>)
    ensures RejectionOf(req, stores, customers, storeProducts).None? <==>
      && req.storeId in stores && stores[req.storeId].isActive
      && req.customerId in customers
      && req.items.Some? && |req.items.value| > 0
      && forall k :: 0 <= k < |req.items.value| ==> LineFailureAt(req.storeId, req.items.value, storeProducts, k).None?
  {
    if req.items.Some? {
      ItemsPass(req.storeId, req.items.value, storeProducts, 0);
    }
  }

  /** A line that passes names a listed product, so accepted orders have all totals defined. */
  lemma PassingLinesListed(storeId: int, items: seq<OrderItemRequest>, storeProducts: map<StoreProductKey, StoreProduct>)
    requires forall k :: 0 <= k < |items| ==> LineFailureAt(storeId, items, storeProducts, k).None?
    ensures AllListed(storeId, items, storeProducts)
  {
    forall k | 0 <= k < |items|
      ensures (storeId, items[k].productId) in storeProducts
    {
      assert LineFailureAt(storeId, items, storeProducts, k).None?;
    }
  }

  /**
   * Lines are checked one by one against the stock as it was, so two lines
   * for the same product that each fit the stock pass together and take
   * twice as much.
   */
  lemma DuplicateLinesOversell(storeProduct: StoreProduct, storeId: int, productId: int, quantity: int,
                               storeProducts: map<StoreProductKey, StoreProduct>)
    requires storeProducts == map[(storeId, productId) := storeProduct]
    requires storeProduct.isActive && 0 < quantity <= storeProduct.maxQtyPerOrder && storeProduct.stockQty == quantity
    ensures var items := [OrderItemRequest(productId, quantity), OrderItemRequest(productId, quantity)];
      && ItemsFailure(storeId, items, storeProducts, 0).None?
      && WrapInt32(storeProduct.stockQty - Demand(storeProduct, storeId, items, storeProducts)) == -quantity
  {
    var items := [OrderItemRequest(productId, quantity), OrderItemRequest(productId, quantity)];
    assert items[..1][..0] == [];
    assert Demand(storeProduct, storeId, items[..1], storeProducts) == quantity;
    assert Demand(storeProduct, storeId, items, storeProducts) == 2 * quantity;
    assert ItemsFailure(storeId, items, storeProducts, 2).None?;
  }

  /**
   * The stock is a Java `Integer`: a full stock with the largest per-order
   * maximum accepts three maximal lines, and the stock wraps around to 2.
   */
  lemma StockWrapsAround(storeProduct: StoreProduct, storeId: int, productId: int,
                         storeProducts: map<StoreProductKey, StoreProduct>)
    requires storeProducts == map[(storeId, productId) := storeProduct]
    requires storeProduct.isActive && storeProduct.stockQty == Int32Max && storeProduct.maxQtyPerOrder == Int32Max
    ensures var line := OrderItemRequest(productId, Int32Max);
      var items := [line, line, line];
      && ItemsFailure(storeId, items, storeProducts, 0).None?
      && WrapInt32(storeProduct.stockQty - Demand(storeProduct, storeId, items, storeProducts)) == 2
  {
    var line := OrderItemRequest(productId, Int32Max);
    var items := [line, line, line];
    assert items[..1][..0] == [];
    assert items[..2][..1] == items[..1];
    assert items[..3][..2] == items[..2];
    assert Demand(storeProduct, storeId, items[..1], storeProducts) == Int32Max;
    assert Demand(storeProduct, storeId, items[..2], storeProducts) == 2 * Int32Max;
    assert items[..3] == items;
    assert Demand(storeProduct, storeId, items, storeProducts) == 3 * Int32Max;
    assert ItemsFailure(storeId, items, storeProducts, 3).None?;
    assert ItemsFailure(storeId, items, storeProducts, 2).None?;
    assert ItemsFailure(storeId, items, storeProducts, 1).None?;
  }

  /** Looking up an order: a missing id is ORDER_NOT_FOUND. */
  function GetOrder(requests: map<int, DeliveryRequest>, requestId: int): (r: Result<DeliveryRequest, OrderFailure>)
    ensures r.Failure? <==> requestId !in requests
    ensures r.Failure? ==> r.error == Rejected(OrderNotFound)
    ensures r.Success? ==> r.value == requests[requestId]
  {
    if requestId in requests then Success(requests[requestId]) else Failure(Rejected(OrderNotFound))
  }
}
