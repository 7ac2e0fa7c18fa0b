/**
 * The one repository method with logic of its own:
 * `RouteStopOrderRepository.findRouteIdsMapByOrderIds`, which turns the
 * `(orderId, routeId)` rows of the batch query into a map.
 */
module RouteStopOrderRepository {
  import opened Wrappers

  /** One stop-order link as the query projects it: the order's id and its route's id. */
  datatype RouteLink = RouteLink(orderId: int, routeId: int)

  /** `Collectors.toMap` throws on the first order id seen twice. */
  datatype DuplicateKey = DuplicateKey(orderId: int)

  /** The batch query `... WHERE rso.order.orderId IN :orderIds`, in table order. */
  function RowsFor(links: seq<RouteLink>, orderIds: seq<int>): (rows: seq<RouteLink>)
    ensures forall row :: row in rows <==> row in links && row.orderId in orderIds
  {
    if |links| == 0 then []
    else
      var rest := RowsFor(links[1..], orderIds);
      assert links == [links[0]] + links[1..];
      if links[0].orderId in orderIds then [links[0]] + rest else rest
  }

  /** `Collectors.toMap(orderId, routeId)` over rows in stream order. */
  function ToMap(rows: seq<RouteLink>): Result<map<int, int>, DuplicateKey> {
    if |rows| == 0 then Success(map[])
    else
      match ToMap(rows[..|rows| - 1])
      case Failure(e) => Failure(e)
      case Success(m) =>
        var row := rows[|rows| - 1];
        if row.orderId in m then Failure(DuplicateKey(row.orderId)) else Success(m[row.orderId := row.routeId])
  }

  /** No order id occurs in two rows. */
  predicate DistinctOrderIds(rows: seq<RouteLink>) {
    forall i, j :: 0 <= i < j < |rows| ==> rows[i].orderId != rows[j].orderId
  }

  /** A null or empty id list gives an empty map without running the query. */
  function FindRouteIdsMap(orderIds: Option<seq<int>>, links: seq<RouteLink>): Result<map<int, int>, DuplicateKey> {
    if orderIds.None? || |orderIds.value| == 0 then Success(map[])
    else ToMap(RowsFor(links, orderIds.value))
  }

  lemma DistinctSnoc(prefix: seq<RouteLink>, last: RouteLink)
    ensures DistinctOrderIds(prefix + [last]) <==>
      DistinctOrderIds(prefix) && forall row :: row in prefix ==> row.orderId != last.orderId
  {
    var rows := prefix + [last];
    if DistinctOrderIds(prefix) && forall row :: row in prefix ==> row.orderId != last.orderId {
      forall i, j | 0 <= i < j < |rows|
        ensures rows[i].orderId != rows[j].orderId
      {
        assert rows[i] == prefix[i];
        if j < |prefix| {
          assert rows[j] == prefix[j];
        }
      }
    }
    if DistinctOrderIds(rows) {
      forall row | row in prefix
        ensures row.orderId != last.orderId
      {
        var i :| 0 <= i < |prefix| && prefix[i] == row;
        assert rows[i] == row && rows[|prefix|] == last;
      }
      forall i, j | 0 <= i < j < |prefix|
        ensures prefix[i].orderId != prefix[j].orderId
      {
        assert rows[i] == prefix[i] && rows[j] == prefix[j];
      }
    }
  }

  /**
   * The map is built exactly when no order id repeats; it then holds one
   * entry per row, orderId to routeId, and no other key. A repeated id fails
   * with that id.
   */
  lemma {:induction false} ToMapExactly(rows: seq<RouteLink>)
    ensures ToMap(rows).Success? <==> DistinctOrderIds(rows)
    ensures ToMap(rows).Success? ==>
      && ToMap(rows).value.Keys == (set row | row in rows :: row.orderId)
      && forall row :: row in rows ==> ToMap(rows).value[row.orderId] == row.routeId
    ensures ToMap(rows).Failure? ==> exists row :: row in rows && row.orderId == ToMap(rows).error.orderId
  {
    if |rows| > 0 {
      var prefix := rows[..|rows| - 1];
      var last := rows[|rows| - 1];
      ToMapExactly(prefix);
      assert rows == prefix + [last];
      DistinctSnoc(prefix, last);
      match ToMap(prefix)
      case Failure(e) =>
      case Success(m) =>
        if last.orderId !in m {
          assert ToMap(rows) == Success(m[last.orderId := last.routeId]);
        }
    }
  }

  /**
   * With ids given, the lookup succeeds exactly when the matching rows carry
   * no order id twice, and maps each requested order that has a route link
   * to that link's route and nothing else.
   */
  lemma FindRouteIdsMapExactly(orderIds: Option<seq<int>>, links: seq<RouteLink>)
    ensures orderIds.None? || orderIds.value == [] ==> FindRouteIdsMap(orderIds, links) == Success(map[])
    ensures orderIds.Some? && orderIds.value != [] ==>
      var r := FindRouteIdsMap(orderIds, links);
      && (r.Success? <==> DistinctOrderIds(RowsFor(links, orderIds.value)))
      && (r.Success? ==>
            && r.value.Keys == (set link | link in links && link.orderId in orderIds.value :: link.orderId)
            && forall link :: link in links && link.orderId in orderIds.value ==> r.value[link.orderId] == link.routeId)
  {
    if orderIds.Some? && orderIds.value != [] {
      ToMapExactly(RowsFor(links, orderIds.value));
    }
  }
}
