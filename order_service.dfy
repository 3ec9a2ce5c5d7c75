/**
 * OrderService: order creation with product validation against the catalog, update,
 * delete and the read queries, over an order store.
 *
 * The store (OrderRepository) is a map from id to the stored state of an order, with
 * the counter that hands out identity ids. The catalog behind the HTTP call in
 * validateProductExists is an oracle: a function from product id to the reply the
 * Product Service gives.
 */
module OrderServiceModel {
  import opened Common
  import opened OrderModel

  /** The stored state of an OrderItem. Its total is never null once stored. */
  datatype ItemRecord = ItemRecord(productId: Option<int>, quantity: Option<int>, unitPrice: Option<real>, totalPrice: real)

  /** The stored state of an Order, its items included (they are saved and deleted with it). */
  datatype OrderRecord = OrderRecord(
    id: int,
    customerName: string,
    customerEmail: string,
    shippingAddress: string,
    status: OrderStatus,
    items: seq<ItemRecord>,
    totalPrice: real)

  /** The exceptions OrderService throws. */
  datatype OrderError =
    | EmptyOrder                                 // IllegalArgumentException: no items
    | ProductUnavailable(productId: Option<int>) // the catalog lookup failed, for whatever reason
    | MissingLineTotal                           // NullPointerException: an item total stayed null
    | OrderNotFound(id: int)                     // update or delete of an unknown id

  /** The body of a successful catalog reply (ProductResponse). */
  datatype ProductResponse = ProductResponse(
    id: Option<int>, name: string, description: string,
    price: Option<real>, quantity: Option<int>, sku: string)

  /**
   * What GET /products/{id} gives back: a status and a possibly empty body, or an
   * exception from the HTTP client (connection refused, time-out, error status).
   */
  datatype CatalogReply = Reply(status: int, body: Option<ProductResponse>) | ClientException

  /** The Product Service as the order service sees it: its reply for each product id (null included). */
  type Catalog = Option<int> -> CatalogReply

  predicate Is2xx(status: int)
  {
    200 <= status <= 299
  }

  /** The lookup succeeds only on a 2xx reply with a body. */
  predicate Available(reply: CatalogReply)
  {
    reply.Reply? && Is2xx(reply.status) && reply.body.Some?
  }

  /** The product ids of the items, in item order. */
  function ProductIds(list: seq<OrderItem>): seq<Option<int>>
    reads list
  {
    seq(|list|, k requires 0 <= k < |list| reads list => list[k].productId)
  }

  /** The position of the first item whose product is unavailable; |pids| if all are available. */
  function FirstUnavailable(pids: seq<Option<int>>, catalog: Catalog): (n: nat)
    ensures n <= |pids|
    ensures forall k :: 0 <= k < n ==> Available(catalog(pids[k]))
    ensures n < |pids| ==> !Available(catalog(pids[n]))
  {
    if pids == [] || !Available(catalog(pids[0])) then 0 else 1 + FirstUnavailable(pids[1..], catalog)
  }

  /** The item totals that createOrder's second loop leaves, computed from the items as they are. */
  function BoundTotals(list: seq<OrderItem>): seq<Option<real>>
    reads list
  {
    seq(|list|, k requires 0 <= k < |list| reads list => Recalculated(list[k].quantity, list[k].unitPrice, list[k].totalPrice))
  }

  /**
   * When every item is valid, createOrder's binding loop leaves every item total
   * present and equal to its line total, and the order total is above zero.
   */
  lemma ValidItemsPositiveTotal(list: seq<OrderItem>)
    requires list != []
    requires forall k :: 0 <= k < |list| ==> ValidItem(list[k].productId, list[k].quantity, list[k].unitPrice)
    ensures AllPresent(BoundTotals(list))
    ensures forall k :: 0 <= k < |list| ==>
              list[k].quantity.Some? && list[k].unitPrice.Some? &&
              BoundTotals(list)[k] == Some(LineTotal(list[k].quantity.value, list[k].unitPrice.value))
    ensures OrderTotal(BoundTotals(list)).Some? && OrderTotal(BoundTotals(list)).value > 0.0
  {
    var ts := BoundTotals(list);
    forall k | 0 <= k < |list|
      ensures list[k].quantity.Some? && list[k].unitPrice.Some?
      ensures ts[k] == Some(LineTotal(list[k].quantity.value, list[k].unitPrice.value))
      ensures Values(ts)[k] > 0.0
    {
      ValidLineTotalAtLeastUnitPrice(list[k].productId, list[k].quantity, list[k].unitPrice);
    }
    SumOfPositives(Values(ts));
  }

  /** The stored state of the items, once every total is set. */
  function ItemRecords(list: seq<OrderItem>): seq<ItemRecord>
    reads list
    requires forall k :: 0 <= k < |list| ==> list[k].totalPrice.Some?
  {
    seq(|list|, k requires 0 <= k < |list| && list[k].totalPrice.Some? reads list =>
      ItemRecord(list[k].productId, list[k].quantity, list[k].unitPrice, list[k].totalPrice.value))
  }

  function LineTotals(items: seq<ItemRecord>): seq<real>
  {
    seq(|items|, k requires 0 <= k < |items| => items[k].totalPrice)
  }

  /** A stored order's total is the sum of its items' totals. */
  predicate TotalConsistent(o: OrderRecord)
  {
    o.totalPrice == Sum(LineTotals(o.items))
  }

  /** OrderRepository.findByCustomerEmail. */
  function FindByCustomerEmail(orders: map<int, OrderRecord>, email: string): set<OrderRecord>
  {
    set id | id in orders && orders[id].customerEmail == email :: orders[id]
  }

  /** OrderRepository.findByStatus. */
  function FindByStatus(orders: map<int, OrderRecord>, status: OrderStatus): set<OrderRecord>
  {
    set id | id in orders && orders[id].status == status :: orders[id]
  }

  /** Every stored order is returned by exactly one of the five status queries. */
  lemma StatusQueriesPartition(orders: map<int, OrderRecord>)
    ensures forall id :: id in orders ==> orders[id] in FindByStatus(orders, orders[id].status)
    ensures forall s, t :: s != t ==> FindByStatus(orders, s) !! FindByStatus(orders, t)
    ensures FindByStatus(orders, Pending) + FindByStatus(orders, Confirmed) + FindByStatus(orders, Shipped)
          + FindByStatus(orders, Delivered) + FindByStatus(orders, Cancelled) == set id | id in orders :: orders[id]
  {
    var all := FindByStatus(orders, Pending) + FindByStatus(orders, Confirmed) + FindByStatus(orders, Shipped)
             + FindByStatus(orders, Delivered) + FindByStatus(orders, Cancelled);
    forall id | id in orders
      ensures orders[id] in all
    {
      assert orders[id] in FindByStatus(orders, orders[id].status);
    }
  }

  /** Rewriting one stored order moves it from the query of its old status to that of its new one. */
  lemma {:induction false} UpdateMovesBetweenStatusQueries(orders: map<int, OrderRecord>, id: int, updated: OrderRecord, s: OrderStatus)
    requires forall k :: k in orders ==> orders[k].id == k
    requires id in orders && updated.id == id
    ensures FindByStatus(orders[id := updated], s) ==
              (FindByStatus(orders, s) - {orders[id]}) + (if updated.status == s then {updated} else {})
  {
    var after := orders[id := updated];
    forall o | o in FindByStatus(after, s)
      ensures o in (FindByStatus(orders, s) - {orders[id]}) + (if updated.status == s then {updated} else {})
    {
      var k :| k in after && after[k].status == s && after[k] == o;
      if k != id {
        assert o in FindByStatus(orders, s);
        assert o.id == k;
      }
    }
    forall o | o in (FindByStatus(orders, s) - {orders[id]}) + (if updated.status == s then {updated} else {})
      ensures o in FindByStatus(after, s)
    {
      if o != updated || updated.status != s {
        var k :| k in orders && orders[k].status == s && orders[k] == o;
        assert k != id;
        assert after[k] == o;
      } else {
        assert after[id] == o;
      }
    }
  }

  /** After a delete, the customer-email query returns what it returned before, minus the deleted order. */
  lemma {:induction false} DeleteRemovesFromEmailQuery(orders: map<int, OrderRecord>, id: int, email: string)
    requires forall k :: k in orders ==> orders[k].id == k
    requires id in orders
    ensures FindByCustomerEmail(orders - {id}, email) == FindByCustomerEmail(orders, email) - {orders[id]}
  {
    var after := orders - {id};
    forall o | o in FindByCustomerEmail(orders, email) - {orders[id]}
      ensures o in FindByCustomerEmail(after, email)
    {
      var k :| k in orders && orders[k].customerEmail == email && orders[k] == o;
      assert k != id;
      assert k in after && after[k] == o;
    }
    forall o | o in FindByCustomerEmail(after, email)
      ensures o != orders[id]
    {
      var k :| k in after && after[k].customerEmail == email && after[k] == o;
      assert o.id == k;
    }
  }

  class OrderService {
    var orders: map<int, OrderRecord>
    var nextId: int

    /** Ids are the keys, come from the counter, and every stored total is consistent. */
    ghost predicate Valid()
      reads this
    {
      && nextId >= 1
      && forall id :: id in orders ==> 1 <= id < nextId && orders[id].id == id && TotalConsistent(orders[id])
    }

    constructor ()
      ensures Valid() && orders == map[] && nextId == 1
    {
      orders := map[];
      nextId := 1;
    }

    /** getAllOrders. */
    method GetAllOrders() returns (r: set<OrderRecord>)
      requires Valid()
      ensures r == set id | id in orders :: orders[id]
      ensures forall o :: o in r ==> TotalConsistent(o)
    {
      r := set id | id in orders :: orders[id];
    }

    /** getOrderById: the stored order, whose total is the sum of its items' totals, or empty. */
    method GetOrderById(id: int) returns (r: Option<OrderRecord>)
      requires Valid()
      ensures r.Some? <==> id in orders
      ensures r.Some? ==> r.value == orders[id] && r.value.id == id && TotalConsistent(r.value)
    {
      if id in orders {
        r := Some(orders[id]);
      } else {
        r := None;
      }
    }

    /** getOrdersByCustomerEmail. */
    method GetOrdersByCustomerEmail(email: string) returns (r: set<OrderRecord>)
      ensures r == FindByCustomerEmail(orders, email)
      ensures forall o :: o in r ==> o.customerEmail == email && exists id :: id in orders && orders[id] == o
    {
      r := set id | id in orders && orders[id].customerEmail == email :: orders[id];
    }

    /** getOrdersByStatus. */
    method GetOrdersByStatus(status: OrderStatus) returns (r: set<OrderRecord>)
      ensures r == FindByStatus(orders, status)
      ensures forall o :: o in r ==> o.status == status && exists id :: id in orders && orders[id] == o
    {
      r := set id | id in orders && orders[id].status == status :: orders[id];
    }

    /**
     * validateProductExists: asks the catalog for the product. A client exception, a
     * non-2xx status and an empty body all end in the same ProductUnavailable error:
     * the one thrown for a bad reply is caught and rethrown like any other.
     */
    method ValidateProductExists(productId: Option<int>, catalog: Catalog) returns (outcome: Outcome<OrderError>)
      ensures outcome.Pass? <==> Available(catalog(productId))
      ensures outcome.Fail? ==> outcome.error == ProductUnavailable(productId)
    {
      var reply := catalog(productId);
      var thrown: bool;
      match reply {
        case ClientException =>
          thrown := true;
        case Reply(status, body) =>
          thrown := !Is2xx(status) || body.None?;
      }
      outcome := if thrown then Fail(ProductUnavailable(productId)) else Pass;
    }

    /**
     * createOrder's first loop: validates the items' products in item order and stops at
     * the first failure. `queried` lists the lookups made.
     */
    method ValidateProducts(list: seq<OrderItem>, catalog: Catalog) returns (outcome: Outcome<OrderError>, ghost queried: seq<Option<int>>)
      ensures var pids := ProductIds(list); var n := FirstUnavailable(pids, catalog);
              outcome == (if n < |pids| then Fail(ProductUnavailable(pids[n])) else Pass)
      ensures var pids := ProductIds(list); var n := FirstUnavailable(pids, catalog);
              queried == (if n < |pids| then pids[..n + 1] else pids)
    {
      ghost var pids := ProductIds(list);
      queried := [];
      var i := 0;
      while i < |list|
        invariant 0 <= i <= |list|
        invariant forall k :: 0 <= k < i ==> Available(catalog(pids[k]))
        invariant queried == pids[..i]
      {
        assert pids[i] == list[i].productId;
        outcome := ValidateProductExists(list[i].productId, catalog);
        queried := queried + [list[i].productId];
        if outcome.Fail? {
          assert FirstUnavailable(pids, catalog) == i;
          assert queried == pids[..i + 1];
          return;
        }
        i := i + 1;
      }
      assert FirstUnavailable(pids, catalog) == |pids|;
      assert pids[..i] == pids;
      outcome := Pass;
    }

    /**
     * createOrder's second loop: points every item back at the order and recalculates its
     * total. An item listed twice is handled twice, to the same effect.
     */
    method BindItems(order: Order, list: seq<OrderItem>)
      modifies Objects(list)`order, Objects(list)`totalPrice
      ensures forall it :: it in list ==>
                it.order == order && it.totalPrice == Recalculated(it.quantity, it.unitPrice, old(it.totalPrice))
    {
      var i := 0;
      while i < |list|
        invariant 0 <= i <= |list|
        invariant forall it :: it in list ==>
                    if it in list[..i]
                    then it.order == order && it.totalPrice == Recalculated(it.quantity, it.unitPrice, old(it.totalPrice))
                    else it.order == old(it.order) && it.totalPrice == old(it.totalPrice)
      {
        list[i].order := order;
        list[i].CalculateTotalPrice();
        assert list[..i + 1] == list[..i] + [list[i]];
        i := i + 1;
      }
      assert list[..i] == list;
    }

    /**
     * createOrder's second loop and its total: binds and prices every item, then sums
     * the item totals into the order total, which throws if one of them is still null.
     */
    method PriceItems(order: Order) returns (ok: bool)
      modifies order`totalPrice, order.ItemObjects()`order, order.ItemObjects()`totalPrice
      ensures ok == AllPresent(old(BoundTotals(order.ItemList())))
      ensures forall it :: it in order.ItemList() ==> it.order == order
      ensures ok ==> CachedTotals(order.ItemList()) == old(BoundTotals(order.ItemList()))
      ensures ok ==> order.totalPrice == OrderTotal(old(BoundTotals(order.ItemList())))
      ensures !ok ==> order.totalPrice == old(order.totalPrice)
      ensures forall it :: it in order.ItemList() ==> it.totalPrice == Recalculated(it.quantity, it.unitPrice, old(it.totalPrice))
    {
      var list := order.ItemList();
      ghost var bound := BoundTotals(list);
      BindItems(order, list);
      assert forall k :: 0 <= k < |list| ==> list[k].totalPrice == bound[k];
      ghost var cached := CachedTotals(list);
      assert forall k :: 0 <= k < |list| ==> cached[k] == bound[k] by {
        forall k | 0 <= k < |list| ensures cached[k] == bound[k] {
          CachedAfterRecalculated(list[k].quantity, list[k].unitPrice, old(list[k].totalPrice));
        }
      }
      assert cached == bound;
      ok := order.CalculateTotalPrice();
      if ok {
        assert list[..FirstMissing(cached)] == list;
        assert CachedTotals(list) == bound;
      }
    }

    /**
     * orderRepository.save on a new order: @PrePersist recomputes the total, which throws
     * if an item total is null; otherwise the order gets the next id and is stored.
     */
    method Save(order: Order) returns (r: Result<OrderRecord, OrderError>)
      requires Valid()
      modifies this, order`id, order`totalPrice, order.ItemObjects()`totalPrice
      ensures Valid()
      ensures r.Ok? == AllPresent(old(CachedTotals(order.ItemList())))
      ensures r.Err? ==> r.error == MissingLineTotal && orders == old(orders) && nextId == old(nextId)
      ensures r.Ok? ==>
                var list := order.ItemList();
                var ts := old(CachedTotals(order.ItemList()));
                && r.value.id == old(nextId) && order.id == Some(old(nextId)) && nextId == old(nextId) + 1
                && r.value.customerName == order.customerName && r.value.customerEmail == order.customerEmail
                && r.value.shippingAddress == order.shippingAddress && r.value.status == order.status
                && |r.value.items| == |list|
                && (forall k :: 0 <= k < |list| ==>
                      r.value.items[k] == ItemRecord(list[k].productId, list[k].quantity, list[k].unitPrice, ts[k].value))
                && r.value.totalPrice == Sum(Values(ts)) == Sum(LineTotals(r.value.items))
                && orders == old(orders)[old(nextId) := r.value]
      ensures r.Ok? ==> order.totalPrice == Some(r.value.totalPrice)
      ensures r.Ok? ==> forall it :: it in order.ItemList() ==> it.totalPrice == old(it.CachedTotal())
    {
      ghost var ts := CachedTotals(order.ItemList());
      var ok := order.OnCreate();
      if !ok {
        return Err(MissingLineTotal);
      }
      var list := order.ItemList();
      assert list[..FirstMissing(ts)] == list;
      assert forall k :: 0 <= k < |list| ==> list[k].totalPrice == ts[k];
      var record := OrderRecord(nextId, order.customerName, order.customerEmail, order.shippingAddress,
                                order.status, ItemRecords(list), order.totalPrice.value);
      assert LineTotals(record.items) == Values(ts);
      order.id := Some(nextId);
      orders := orders[nextId := record];
      nextId := nextId + 1;
      r := Ok(record);
    }

    /**
     * createOrder after validation: binds and prices the items, sums the order total and
     * saves. A null item total throws before anything is stored.
     */
    method PriceAndSave(order: Order) returns (r: Result<OrderRecord, OrderError>)
      requires Valid()
      modifies this, order`id, order`totalPrice, order.ItemObjects()`order, order.ItemObjects()`totalPrice
      ensures Valid()
      ensures r.Ok? == AllPresent(old(BoundTotals(order.ItemList())))
      ensures r.Err? ==> r.error == MissingLineTotal && orders == old(orders) && nextId == old(nextId)
      ensures r.Ok? ==>
                var list := order.ItemList();
                var ts := old(BoundTotals(order.ItemList()));
                && orders == old(orders)[old(nextId) := r.value]
                && r.value.id == old(nextId) && order.id == Some(r.value.id)
                && r.value.customerName == order.customerName && r.value.customerEmail == order.customerEmail
                && r.value.shippingAddress == order.shippingAddress && r.value.status == order.status
                && |r.value.items| == |list|
                && (forall k :: 0 <= k < |list| ==>
                      && list[k].order == order
                      && r.value.items[k] == ItemRecord(old(list[k].productId), old(list[k].quantity), old(list[k].unitPrice), ts[k].value))
                && r.value.totalPrice == Sum(LineTotals(r.value.items))
      ensures r.Ok? ==> order.totalPrice == Some(r.value.totalPrice)
      ensures forall it :: it in order.ItemList() ==>
                it.order == order && it.totalPrice == Recalculated(it.quantity, it.unitPrice, old(it.totalPrice))
      ensures r.Err? ==> order.id == old(order.id) && order.totalPrice == old(order.totalPrice)
    {
      var ok := PriceItems(order);
      if !ok {
        return Err(MissingLineTotal);
      }
      r := Save(order);
      assert r.Ok?;
    }

    /**
     * createOrder: rejects an order without items before any lookup, validates every
     * product in item order, binds the items and computes the totals, then saves.
     * Every failure leaves the store as it was.
     */
    method CreateOrder(order: Order, catalog: Catalog) returns (r: Result<OrderRecord, OrderError>, ghost queried: seq<Option<int>>)
      requires Valid()
      modifies this, order`id, order`totalPrice, order.ItemObjects()`order, order.ItemObjects()`totalPrice
      ensures Valid()
      ensures r.Err? ==> orders == old(orders) && nextId == old(nextId)
      ensures old(order.ItemList()) == [] ==> r == Err(EmptyOrder) && queried == []
      ensures old(order.ItemList()) != [] ==>
                var pids := old(ProductIds(order.ItemList()));
                var n := FirstUnavailable(pids, catalog);
                && (n < |pids| ==> r == Err(ProductUnavailable(pids[n])) && queried == pids[..n + 1])
                && (n == |pids| ==> queried == pids)
      ensures r.Ok? <==>
                && old(order.ItemList()) != []
                && FirstUnavailable(old(ProductIds(order.ItemList())), catalog) == |order.ItemList()|
                && AllPresent(old(BoundTotals(order.ItemList())))
      ensures r.Ok? ==>
                var list := order.ItemList();
                var ts := old(BoundTotals(order.ItemList()));
                && orders == old(orders)[old(nextId) := r.value]
                && r.value.id == old(nextId) && order.id == Some(r.value.id)
                && r.value.customerName == order.customerName && r.value.customerEmail == order.customerEmail
                && r.value.shippingAddress == order.shippingAddress && r.value.status == order.status
                && |r.value.items| == |list|
                && (forall k :: 0 <= k < |list| ==>
                      && list[k].order == order
                      && r.value.items[k] == ItemRecord(old(list[k].productId), old(list[k].quantity), old(list[k].unitPrice), ts[k].value))
                && r.value.totalPrice == Sum(LineTotals(r.value.items))
      ensures r.Ok? ==> order.totalPrice == Some(r.value.totalPrice)
      ensures (&& old(order.ItemList()) != []
               && FirstUnavailable(old(ProductIds(order.ItemList())), catalog) == |order.ItemList()|
               && !AllPresent(old(BoundTotals(order.ItemList()))))
              ==> r == Err(MissingLineTotal)
      ensures r.Err? && r.error != MissingLineTotal ==>
                && order.id == old(order.id) && order.totalPrice == old(order.totalPrice)
                && forall it :: it in old(order.ItemList()) ==> it.order == old(it.order) && it.totalPrice == old(it.totalPrice)
      ensures old(order.ItemList()) != [] && FirstUnavailable(old(ProductIds(order.ItemList())), catalog) == |order.ItemList()| ==>
                forall it :: it in order.ItemList() ==>
                  it.order == order && it.totalPrice == Recalculated(it.quantity, it.unitPrice, old(it.totalPrice))
      ensures r.Err? ==> order.id == old(order.id) && order.totalPrice == old(order.totalPrice)
    {
      queried := [];
      if order.items.None? || |order.items.value| == 0 {
        return Err(EmptyOrder), [];
      }
      var list := order.items.value;
      var outcome;
      outcome, queried := ValidateProducts(list, catalog);
      if outcome.Fail? {
        return Err(outcome.error), queried;
      }
      r := PriceAndSave(order);
    }

    /**
     * updateOrder: overwrites customer name, email, shipping address and status of a
     * stored order, whatever its current status; items are untouched and @PreUpdate
     * recomputes the same total. An unknown id throws and nothing is saved.
     */
    method UpdateOrder(id: int, changes: Order) returns (r: Result<OrderRecord, OrderError>)
      requires Valid()
      modifies this`orders
      ensures Valid()
      ensures id !in old(orders) ==> r == Err(OrderNotFound(id)) && orders == old(orders)
      ensures id in old(orders) ==>
                && r == Ok(old(orders)[id].(customerName := changes.customerName, customerEmail := changes.customerEmail,
                                            shippingAddress := changes.shippingAddress, status := changes.status))
                && orders == old(orders)[id := r.value]
    {
      if id !in orders {
        return Err(OrderNotFound(id));
      }
      var existing := orders[id];
      var updated := existing.(customerName := changes.customerName, customerEmail := changes.customerEmail,
                               shippingAddress := changes.shippingAddress, status := changes.status);
      updated := updated.(totalPrice := Sum(LineTotals(updated.items)));
      orders := orders[id := updated];
      r := Ok(updated);
    }

    /** deleteOrder: removes the order (and its items) or throws for an unknown id, deleting nothing. */
    method DeleteOrder(id: int) returns (r: Outcome<OrderError>)
      requires Valid()
      modifies this`orders
      ensures Valid()
      ensures id !in old(orders) ==> r == Fail(OrderNotFound(id)) && orders == old(orders)
      ensures id in old(orders) ==> r == Pass && orders == old(orders) - {id}
    {
      if id !in orders {
        return Fail(OrderNotFound(id));
      }
      orders := orders - {id};
      r := Pass;
    }
  }
}
