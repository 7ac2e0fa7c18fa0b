/**
 * Store queries (StoreService): nearby stores filtered by each store's own
 * delivery radius and ordered by distance, name search, the category and
 * product listings of an active store, and the delivery information shown
 * before ordering. Repository query results are passed in as sequences.
 */
module StoreService {
  import opened Wrappers
  import opened Geo
  import opened Records
  import opened Errors
  import opened StoreEntities
  import opened DroneEntity

  /** A store in a result list, with its distance from the user when one was computed. */
  datatype StoreHit = StoreHit(store: Store, distanceKm: Option<real>)

  /** The store behind `storeId`, provided it exists and is active; not-found is checked first. */
  function ActiveStore(stores: map<int, Store>, storeId: int): (r: Result<Store, ErrorCode>)
    ensures r.Success? <==> storeId in stores && stores[storeId].isActive
    ensures r.Success? ==> r.value == stores[storeId]
    ensures r.Failure? && storeId !in stores ==> r.error == StoreNotFound
    ensures r.Failure? && storeId in stores ==> r.error == StoreNotActive
  {
    if storeId !in stores then Failure(StoreNotFound)
    else if !stores[storeId].isActive then Failure(StoreNotActive)
    else Success(stores[storeId])
  }

  // ---------------------------------------------------------------------
  // Nearby stores and name search

  function Locate(stores: seq<Store>, user: Point, dist: Metric): seq<StoreHit> {
    seq(|stores|, i requires 0 <= i < |stores| => StoreHit(stores[i], Some(dist(user, stores[i].location))))
  }

  /** The user lies inside the store's own delivery radius. */
  predicate Deliverable(hit: StoreHit) {
    hit.distanceKm.Some? && hit.distanceKm.value <= hit.store.deliveryRadiusKm
  }

  function KeepDeliverable(hits: seq<StoreHit>): seq<StoreHit> {
    if |hits| == 0 then []
    else (if Deliverable(hits[0]) then [hits[0]] else []) + KeepDeliverable(hits[1..])
  }

  function Key(hit: StoreHit): real {
    hit.distanceKm.GetOr(0.0)
  }

  predicate SortedByDistance(hits: seq<StoreHit>) {
    forall i, j :: 0 <= i < j < |hits| ==> Key(hits[i]) <= Key(hits[j])
  }

  /** Puts `hit` before the first entry that is not closer, so equal distances keep their order. */
  function Insert(hit: StoreHit, sorted: seq<StoreHit>): seq<StoreHit> {
    if |sorted| == 0 then [hit]
    else if Key(hit) <= Key(sorted[0]) then [hit] + sorted
    else [sorted[0]] + Insert(hit, sorted[1..])
  }

  /** A stable sort by distance, standing for the stream's `sorted` with `Double.compare`. */
  function SortByDistance(hits: seq<StoreHit>): seq<StoreHit> {
    if |hits| == 0 then [] else Insert(hits[0], SortByDistance(hits[1..]))
  }

  /**
   * Stores near `user`: of the repository's candidates, those whose own
   * radius covers the user, closest first, each with its distance.
   */
  function StoresNearby(candidates: seq<Store>, user: Point, dist: Metric): seq<StoreHit> {
    SortByDistance(KeepDeliverable(Locate(candidates, user, dist)))
  }

  /**
   * Name search over the repository's matches: with both coordinates the
   * same filter and order as nearby stores; otherwise every match in
   * repository order with no distance.
   */
  function SearchStoresByName(matches: seq<Store>, userLat: Option<real>, userLng: Option<real>, dist: Metric)
    : seq<StoreHit>
  {
    if userLat.Some? && userLng.Some? then StoresNearby(matches, Point(userLat.value, userLng.value), dist)
    else seq(|matches|, i requires 0 <= i < |matches| => StoreHit(matches[i], None))
  }

  lemma {:induction false} KeepDeliverableExactly(hits: seq<StoreHit>)
    ensures forall h :: h in KeepDeliverable(hits) <==> h in hits && Deliverable(h)
  {
    if |hits| > 0 {
      KeepDeliverableExactly(hits[1..]);
      assert hits == [hits[0]] + hits[1..];
    }
  }

  lemma {:induction false} InsertSorted(hit: StoreHit, sorted: seq<StoreHit>)
    requires SortedByDistance(sorted)
    ensures SortedByDistance(Insert(hit, sorted))
    ensures multiset(Insert(hit, sorted)) == multiset(sorted) + multiset{hit}
  {
    if |sorted| == 0 {
      assert Insert(hit, sorted) == [hit];
    } else {
      var tail := sorted[1..];
      assert sorted == [sorted[0]] + tail;
      HeadBelowTail(sorted);
      if Key(hit) <= Key(sorted[0]) {
        assert Insert(hit, sorted) == [hit] + sorted;
        SortedCons(hit, sorted);
      } else {
        InsertSorted(hit, tail);
        var rest := Insert(hit, tail);
        assert Insert(hit, sorted) == [sorted[0]] + rest;
        forall x | x in rest
          ensures Key(sorted[0]) <= Key(x)
        {
          assert x in multiset(rest);
        }
        SortedCons(sorted[0], rest);
      }
    }
  }

  /** In a sorted list the head is closest, and the tail is sorted. */
  lemma HeadBelowTail(sorted: seq<StoreHit>)
    requires SortedByDistance(sorted) && |sorted| > 0
    ensures SortedByDistance(sorted[1..])
    ensures forall x :: x in sorted ==> Key(sorted[0]) <= Key(x)
  {
    forall x | x in sorted
      ensures Key(sorted[0]) <= Key(x)
    {
      var k :| 0 <= k < |sorted| && sorted[k] == x;
    }
  }

  lemma SortedCons(first: StoreHit, rest: seq<StoreHit>)
    requires SortedByDistance(rest)
    requires forall x :: x in rest ==> Key(first) <= Key(x)
    ensures SortedByDistance([first] + rest)
  {
    var s := [first] + rest;
    forall i, j | 0 <= i < j < |s|
      ensures Key(s[i]) <= Key(s[j])
    {
      assert s[j] == rest[j - 1];
      if i > 0 {
        assert s[i] == rest[i - 1];
      }
    }
  }

  lemma {:induction false} SortByDistanceCorrect(hits: seq<StoreHit>)
    ensures SortedByDistance(SortByDistance(hits))
    ensures multiset(SortByDistance(hits)) == multiset(hits)
  {
    if |hits| > 0 {
      SortByDistanceCorrect(hits[1..]);
      InsertSorted(hits[0], SortByDistance(hits[1..]));
      assert hits == [hits[0]] + hits[1..];
    }
  }

  /**
   * Nearby stores are ordered by distance, and a store appears, with its own
   * distance from the user, exactly when it is a candidate whose radius
   * covers the user.
   */
  lemma StoresNearbyExactly(candidates: seq<Store>, user: Point, dist: Metric)
    ensures SortedByDistance(StoresNearby(candidates, user, dist))
    ensures multiset(StoresNearby(candidates, user, dist)) == multiset(KeepDeliverable(Locate(candidates, user, dist)))
    ensures forall h :: h in StoresNearby(candidates, user, dist) <==>
      && h.store in candidates && h.distanceKm == Some(dist(user, h.store.location))
      && IsWithinRadius(dist, user, h.store.location, h.store.deliveryRadiusKm)
  {
    var located := Locate(candidates, user, dist);
    SortByDistanceCorrect(KeepDeliverable(located));
    KeepDeliverableExactly(located);
    var result := StoresNearby(candidates, user, dist);
    forall h
      ensures h in result <==> h in KeepDeliverable(located)
    {
      assert h in result <==> h in multiset(result);
    }
    forall h: StoreHit | h.store in candidates && h.distanceKm == Some(dist(user, h.store.location))
      ensures h in located
    {
      var i :| 0 <= i < |candidates| && candidates[i] == h.store;
      assert located[i] == h;
    }
  }

  /** Without both coordinates the search returns every match, in order, with no distance. */
  lemma SearchWithoutLocation(matches: seq<Store>, userLat: Option<real>, userLng: Option<real>, dist: Metric)
    requires userLat.None? || userLng.None?
    ensures |SearchStoresByName(matches, userLat, userLng, dist)| == |matches|
    ensures forall i :: 0 <= i < |matches| ==>
      SearchStoresByName(matches, userLat, userLng, dist)[i] == StoreHit(matches[i], None)
  {
  }

  // ---------------------------------------------------------------------
  // Categories and products of one store

  /** A listing the store offers: its own row, active, for an active product. */
  predicate OnSale(row: StoreProduct, storeId: int) {
    row.store.storeId == storeId && row.isActive && row.product.isActive
  }

  /** The rows on sale at `storeId`, in table order; with a category, only that category's. */
  function ProductsOnSale(table: seq<StoreProduct>, storeId: int, category: Option<string>): seq<StoreProduct> {
    if |table| == 0 then []
    else
      var row := table[0];
      (if OnSale(row, storeId) && (category.None? || row.product.category == category.value) then [row] else [])
      + ProductsOnSale(table[1..], storeId, category)
  }

  /** The distinct categories on sale at `storeId`, each at its first occurrence. */
  function CategoriesOnSale(table: seq<StoreProduct>, storeId: int): seq<string> {
    if |table| == 0 then []
    else
      var rest := CategoriesOnSale(table[..|table| - 1], storeId);
      var row := table[|table| - 1];
      if OnSale(row, storeId) && row.product.category !in rest then rest + [row.product.category] else rest
  }

  /** The characters `Character.isWhitespace` accepts in the ASCII range. */
  predicate IsWhitespace(c: char) {
    c == ' ' || c == '\t' || c == '\n' || c == '\U{000B}' || c == '\U{000C}' || c == '\r'
    || c == '\U{001C}' || c == '\U{001D}' || c == '\U{001E}' || c == '\U{001F}'
  }

  /** `String.isBlank`: empty or whitespace only. */
  predicate IsBlank(s: string) {
    forall i :: 0 <= i < |s| ==> IsWhitespace(s[i])
  }

  function GetCategories(stores: map<int, Store>, storeId: int, table: seq<StoreProduct>): Result<seq<string>, ErrorCode> {
    match ActiveStore(stores, storeId)
    case Failure(e) => Failure(e)
    case Success(_) => Success(CategoriesOnSale(table, storeId))
  }

  /** A missing or blank category lists every product on sale; any other lists that category only. */
  function GetProducts(stores: map<int, Store>, storeId: int, category: Option<string>, table: seq<StoreProduct>)
    : Result<seq<StoreProduct>, ErrorCode>
  {
    match ActiveStore(stores, storeId)
    case Failure(e) => Failure(e)
    case Success(_) =>
      if category.None? || IsBlank(category.value) then Success(ProductsOnSale(table, storeId, None))
      else Success(ProductsOnSale(table, storeId, category))
  }

  lemma {:induction false} ProductsOnSaleExactly(table: seq<StoreProduct>, storeId: int, category: Option<string>)
    ensures forall row :: row in ProductsOnSale(table, storeId, category) <==>
      row in table && OnSale(row, storeId) && (category.None? || row.product.category == category.value)
  {
    if |table| > 0 {
      ProductsOnSaleExactly(table[1..], storeId, category);
      assert table == [table[0]] + table[1..];
    }
  }

  lemma {:induction false} CategoriesOnSaleExactly(table: seq<StoreProduct>, storeId: int)
    ensures forall c :: c in CategoriesOnSale(table, storeId) <==>
      exists row :: row in table && OnSale(row, storeId) && row.product.category == c
    ensures forall i, j :: 0 <= i < j < |CategoriesOnSale(table, storeId)| ==>
      CategoriesOnSale(table, storeId)[i] != CategoriesOnSale(table, storeId)[j]
  {
    if |table| > 0 {
      var prefix := table[..|table| - 1];
      CategoriesOnSaleExactly(prefix, storeId);
      assert table == prefix + [table[|table| - 1]];
      forall c | exists row :: row in table && OnSale(row, storeId) && row.product.category == c
        ensures c in CategoriesOnSale(table, storeId)
      {
        var row :| row in table && OnSale(row, storeId) && row.product.category == c;
        if row in prefix {
          assert c in CategoriesOnSale(prefix, storeId);
        }
      }
    }
  }

  /**
   * The store checks come first; an active store lists everything on sale,
   * or one category of it, as the category asks.
   */
  lemma GetProductsExactly(stores: map<int, Store>, storeId: int, category: Option<string>, table: seq<StoreProduct>)
    ensures var r := GetProducts(stores, storeId, category, table);
      && (r.Failure? <==> ActiveStore(stores, storeId).Failure?)
      && (r.Failure? ==> r.error == ActiveStore(stores, storeId).error)
      && (r.Success? ==> forall row :: row in r.value <==>
            && row in table && OnSale(row, storeId)
            && (category.None? || IsBlank(category.value) || row.product.category == category.value))
  {
    if category.None? || IsBlank(category.value) {
      ProductsOnSaleExactly(table, storeId, None);
    } else {
      ProductsOnSaleExactly(table, storeId, category);
    }
  }

  /**
   * The store checks come first; an active store's categories are those of
   * its listings on sale, each once.
   */
  lemma GetCategoriesExactly(stores: map<int, Store>, storeId: int, table: seq<StoreProduct>)
    ensures var r := GetCategories(stores, storeId, table);
      && (r.Failure? <==> ActiveStore(stores, storeId).Failure?)
      && (r.Failure? ==> r.error == ActiveStore(stores, storeId).error)
      && (r.Success? ==> forall c :: c in r.value <==>
            exists row :: row in table && OnSale(row, storeId) && row.product.category == c)
      && (r.Success? ==> forall i, j :: 0 <= i < j < |r.value| ==> r.value[i] != r.value[j])
  {
    CategoriesOnSaleExactly(table, storeId);
  }

  // ---------------------------------------------------------------------
  // Delivery information

  /** The delivery payload cap used when no drone reports one. */
  const DefaultMaxWeightKg: real := 5.0

  datatype DeliveryInfo = DeliveryInfo(
    storeId: int,
    storeName: string,
    deliveryRadiusKm: real,
    maxWeightKg: real,
    isDeliverable: Option<bool>,
    distanceKm: Option<real>)

  /** `SELECT MIN(d.maxPayloadKg) FROM Drone d`: no row when there are no drones. */
  function MinPayload(drones: seq<Drone>): (m: Option<real>)
    ensures m.None? <==> |drones| == 0
    ensures m.Some? ==> exists d :: d in drones && d.maxPayloadKg == m.value
    ensures m.Some? ==> forall d :: d in drones ==> m.value <= d.maxPayloadKg
  {
    if |drones| == 0 then None
    else
      var rest := MinPayload(drones[1..]);
      assert forall d :: d in drones[1..] ==> d in drones;
      assert forall d :: d in drones ==> d == drones[0] || d in drones[1..];
      if rest.Some? && rest.value < drones[0].maxPayloadKg then rest else Some(drones[0].maxPayloadKg)
  }

  /**
   * Delivery information of an active store: the smallest drone payload (or
   * 5 kg), and, only when both coordinates are given, the distance from the
   * store to the user and whether it is within the store's radius.
   */
  function GetDeliveryInfo(stores: map<int, Store>, storeId: int, userLat: Option<real>, userLng: Option<real>,
                           drones: seq<Drone>, dist: Metric): Result<DeliveryInfo, ErrorCode>
  {
    match ActiveStore(stores, storeId)
    case Failure(e) => Failure(e)
    case Success(store) =>
      var maxWeightKg := MinPayload(drones).GetOr(DefaultMaxWeightKg);
      if userLat.Some? && userLng.Some? then
        var distance := dist(store.location, Point(userLat.value, userLng.value));
        Success(DeliveryInfo(store.storeId, store.name, store.deliveryRadiusKm, maxWeightKg,
                             Some(distance <= store.deliveryRadiusKm), Some(distance)))
      else
        Success(DeliveryInfo(store.storeId, store.name, store.deliveryRadiusKm, maxWeightKg, None, None))
  }

  /**
   * The store checks come first. An active store's information carries its
   * own id, name and radius and the smallest drone payload (5 kg without
   * drones); the distance from the store to the user and the deliverability
   * are present exactly when both coordinates are given.
   */
  lemma DeliveryInfoFacts(stores: map<int, Store>, storeId: int, userLat: Option<real>, userLng: Option<real>,
                          drones: seq<Drone>, dist: Metric)
    ensures var r := GetDeliveryInfo(stores, storeId, userLat, userLng, drones, dist);
      && (r.Failure? <==> ActiveStore(stores, storeId).Failure?)
      && (r.Failure? ==> r.error == ActiveStore(stores, storeId).error)
    ensures var r := GetDeliveryInfo(stores, storeId, userLat, userLng, drones, dist);
      r.Success? ==>
      var info, store := r.value, stores[storeId];
      && info.storeId == store.storeId && info.storeName == store.name
      && info.deliveryRadiusKm == store.deliveryRadiusKm
      && (info.distanceKm.Some? <==> userLat.Some? && userLng.Some?)
      && (info.isDeliverable.Some? <==> info.distanceKm.Some?)
      && (info.distanceKm.Some? ==>
            info.distanceKm.value == dist(store.location, Point(userLat.value, userLng.value)))
      && (info.isDeliverable.Some? ==>
            info.isDeliverable.value == IsWithinRadius(dist, store.location, Point(userLat.value, userLng.value),
                                                      store.deliveryRadiusKm))
      && (|drones| == 0 ==> info.maxWeightKg == DefaultMaxWeightKg)
      && (|drones| > 0 ==> exists d :: d in drones && info.maxWeightKg == d.maxPayloadKg)
      && (forall d :: d in drones ==> info.maxWeightKg <= d.maxPayloadKg)
  {
  }
}
