/**
 * The order aggregate of the order service: `OrderItem` and `Order`, and the
 * derivation of line totals and order totals.
 *
 * BigDecimal is exact decimal arithmetic, so prices are modelled as `real`.
 * Fields that Java allows to be null are `Option`s.
 */
module OrderModel {
  import opened Common

  /** Order.OrderStatus: a status is always one of these five values. */
  datatype OrderStatus = Pending | Confirmed | Shipped | Delivered | Cancelled

  /** The status of an Order built without one (@Builder.Default). */
  const DefaultStatus: OrderStatus := Pending

  /** unitPrice × quantity, exact, as BigDecimal.multiply computes it. */
  function LineTotal(quantity: int, unitPrice: real): real
  {
    unitPrice * quantity as real
  }

  /**
   * The Bean Validation constraints on an item: productId set, quantity at least 1,
   * unitPrice at least 0.01. A valid item's total is always recalculated, whatever was
   * stored before.
   */
  function ValidItem(productId: Option<int>, quantity: Option<int>, unitPrice: Option<real>): (valid: bool)
    ensures valid ==> quantity.Some? && unitPrice.Some? && unitPrice.value > 0.0
    ensures valid ==> quantity.Some? && unitPrice.Some? &&
                      forall t :: Recalculated(quantity, unitPrice, t) == Some(LineTotal(quantity.value, unitPrice.value))
  {
    && productId.Some?
    && quantity.Some? && quantity.value >= 1
    && unitPrice.Some? && unitPrice.value >= 0.01
  }

  /** A valid item's line total is at least its unit price, so it is positive. */
  lemma ValidLineTotalAtLeastUnitPrice(productId: Option<int>, quantity: Option<int>, unitPrice: Option<real>)
    requires ValidItem(productId, quantity, unitPrice)
    ensures LineTotal(quantity.value, unitPrice.value) >= unitPrice.value > 0.0
  {
    var extra := unitPrice.value * (quantity.value - 1) as real;
    assert extra >= 0.0;
    assert LineTotal(quantity.value, unitPrice.value) == unitPrice.value + extra;
  }

  /**
   * The totalPrice that OrderItem.calculateTotalPrice leaves: the line total when
   * quantity and unitPrice are both present, the previous value otherwise.
   */
  function Recalculated(quantity: Option<int>, unitPrice: Option<real>, totalPrice: Option<real>): Option<real>
  {
    if quantity.Some? && unitPrice.Some? then Some(LineTotal(quantity.value, unitPrice.value)) else totalPrice
  }

  /** Calling calculateTotalPrice twice leaves what calling it once leaves. */
  lemma RecalculatedIdempotent(quantity: Option<int>, unitPrice: Option<real>, totalPrice: Option<real>)
    ensures Recalculated(quantity, unitPrice, Recalculated(quantity, unitPrice, totalPrice))
         == Recalculated(quantity, unitPrice, totalPrice)
  {
  }

  /**
   * What OrderItem.getTotalPrice returns: the stored total whenever there is one,
   * and a fresh calculation only when it is null.
   */
  function Cached(quantity: Option<int>, unitPrice: Option<real>, totalPrice: Option<real>): Option<real>
  {
    if totalPrice.Some? then totalPrice else Recalculated(quantity, unitPrice, totalPrice)
  }

  /** A stored total is returned as it is, even when quantity × unitPrice differs from it. */
  lemma CachedMayBeStale(quantity: int, unitPrice: real, stored: real)
    ensures Cached(Some(quantity), Some(unitPrice), Some(stored)) == Some(stored)
    ensures LineTotal(quantity, unitPrice) != stored ==>
              Cached(Some(quantity), Some(unitPrice), Some(stored)) != Recalculated(Some(quantity), Some(unitPrice), Some(stored))
  {
  }

  /** After calculateTotalPrice, getTotalPrice returns exactly what it computed. */
  lemma CachedAfterRecalculated(quantity: Option<int>, unitPrice: Option<real>, totalPrice: Option<real>)
    ensures Cached(quantity, unitPrice, Recalculated(quantity, unitPrice, totalPrice))
         == Recalculated(quantity, unitPrice, totalPrice)
  {
  }

  /** Stream.reduce(BigDecimal.ZERO, BigDecimal::add): a left fold from zero. */
  function Sum(xs: seq<real>): real
  {
    if xs == [] then 0.0 else Sum(xs[..|xs| - 1]) + xs[|xs| - 1]
  }

  /** Adding one more total adds it to the sum. */
  lemma SumAppend(xs: seq<real>, x: real)
    ensures Sum(xs + [x]) == Sum(xs) + x
  {
    assert (xs + [x])[..|xs|] == xs;
  }

  /** The sum of a concatenation is the sum of the sums. */
  lemma {:induction false} SumConcat(xs: seq<real>, ys: seq<real>)
    ensures Sum(xs + ys) == Sum(xs) + Sum(ys)
  {
    if ys == [] {
      assert xs + ys == xs;
    } else {
      var init := ys[..|ys| - 1];
      SumConcat(xs, init);
      assert (xs + ys)[..|xs + ys| - 1] == xs + init;
    }
  }

  /** A sum of positive totals is positive when there is at least one of them. */
  lemma {:induction false} SumOfPositives(xs: seq<real>)
    requires forall k :: 0 <= k < |xs| ==> xs[k] > 0.0
    ensures Sum(xs) >= 0.0
    ensures |xs| > 0 ==> Sum(xs) > 0.0
  {
    if xs != [] {
      SumOfPositives(xs[..|xs| - 1]);
    }
  }

  /** Every getTotalPrice value is non-null. */
  predicate AllPresent(ts: seq<Option<real>>)
  {
    forall k :: 0 <= k < |ts| ==> ts[k].Some?
  }

  function Values(ts: seq<Option<real>>): seq<real>
    requires AllPresent(ts)
  {
    seq(|ts|, k requires 0 <= k < |ts| => ts[k].value)
  }

  /**
   * What Order.calculateTotalPrice stores, given the items' getTotalPrice values:
   * their sum, or None when one of them is null, where BigDecimal.add(null) throws
   * a NullPointerException. An empty or null list gives zero.
   */
  function OrderTotal(ts: seq<Option<real>>): Option<real>
  {
    if AllPresent(ts) then Some(Sum(Values(ts))) else None
  }

  /** The position of the first null total, where the reduction throws; |ts| if there is none. */
  function FirstMissing(ts: seq<Option<real>>): (n: nat)
    ensures n <= |ts|
    ensures forall k :: 0 <= k < n ==> ts[k].Some?
    ensures n < |ts| ==> ts[n].None?
  {
    if ts == [] || ts[0].None? then 0 else 1 + FirstMissing(ts[1..])
  }

  /** Appending one item adds its total to the order total, and a null anywhere makes it fail. */
  lemma OrderTotalAppend(ts: seq<Option<real>>, t: Option<real>)
    ensures OrderTotal(ts + [t]) ==
              if OrderTotal(ts).Some? && t.Some? then Some(OrderTotal(ts).value + t.value) else None
  {
    if AllPresent(ts) && t.Some? {
      assert Values(ts + [t]) == Values(ts) + [t.value];
      SumAppend(Values(ts), t.value);
    } else if !AllPresent(ts) {
      var k :| 0 <= k < |ts| && ts[k].None?;
      assert (ts + [t])[k].None?;
    } else {
      assert (ts + [t])[|ts|].None?;
    }
  }

  /** The example of the unit tests: items (2 × 100) and (3 × 50) total 350. */
  lemma TwoItemExampleTotal()
    ensures OrderTotal([Some(LineTotal(2, 100.0)), Some(LineTotal(3, 50.0))]) == Some(350.0)
  {
    var ts := [Some(LineTotal(2, 100.0)), Some(LineTotal(3, 50.0))];
    assert LineTotal(2, 100.0) == 200.0 && LineTotal(3, 50.0) == 150.0;
    assert Values(ts) == [200.0, 150.0];
    SumAppend([], 200.0);
    SumAppend([200.0], 150.0);
    assert [200.0, 150.0] == [200.0] + [150.0];
  }

  /** The objects of an item list. */
  function Objects(items: seq<OrderItem>): set<OrderItem>
  {
    set it | it in items
  }

  /** The getTotalPrice value of each item, in list order. */
  function CachedTotals(items: seq<OrderItem>): seq<Option<real>>
    reads items
  {
    seq(|items|, k requires 0 <= k < |items| reads items => items[k].CachedTotal())
  }

  /**
   * The stream in Order.calculateTotalPrice: maps each item to its getTotalPrice value,
   * in list order, and adds them up from zero. The first null value throws (ok is
   * false); the items after it are never visited.
   */
  method SumTotals(list: seq<OrderItem>) returns (ok: bool, sum: real)
    modifies Objects(list)`totalPrice
    ensures ok == AllPresent(old(CachedTotals(list)))
    ensures ok ==> sum == Sum(Values(old(CachedTotals(list))))
    ensures forall it :: it in list ==>
              it.totalPrice == if it in list[..FirstMissing(old(CachedTotals(list)))]
                               then old(it.CachedTotal()) else old(it.totalPrice)
  {
    ghost var ts := CachedTotals(list);
    sum := 0.0;
    var i := 0;
    while i < |list|
      invariant 0 <= i <= |list|
      invariant forall k :: 0 <= k < i ==> ts[k].Some?
      invariant sum == Sum(Values(ts[..i]))
      invariant forall it :: it in list ==> it.CachedTotal() == old(it.CachedTotal())
      invariant forall it :: it in list ==>
                  it.totalPrice == if it in list[..i] then old(it.CachedTotal()) else old(it.totalPrice)
    {
      assert ts[i] == list[i].CachedTotal();
      var t := list[i].GetTotalPrice();
      if t.None? {
        assert ts[i].None?;
        assert FirstMissing(ts) == i;
        return false, sum;
      }
      assert list[..i + 1] == list[..i] + [list[i]];
      assert Values(ts[..i + 1]) == Values(ts[..i]) + [t.value];
      SumAppend(Values(ts[..i]), t.value);
      sum := sum + t.value;
      i := i + 1;
    }
    assert ts[..i] == ts;
    assert list[..FirstMissing(ts)] == list;
    ok := true;
  }

  /** OrderItem: one line of an order. */
  class OrderItem {
    var productId: Option<int>
    var quantity: Option<int>
    var unitPrice: Option<real>
    var totalPrice: Option<real>
    var order: Order?

    /** OrderItem.builder()...build(): nothing is computed and the back-reference is null. */
    constructor (productId: Option<int>, quantity: Option<int>, unitPrice: Option<real>, totalPrice: Option<real>)
      ensures this.productId == productId && this.quantity == quantity && this.unitPrice == unitPrice
      ensures this.totalPrice == totalPrice && order == null
    {
      this.productId := productId;
      this.quantity := quantity;
      this.unitPrice := unitPrice;
      this.totalPrice := totalPrice;
      order := null;
    }

    /** The value getTotalPrice returns, without its side effect. */
    function CachedTotal(): Option<real>
      reads this
    {
      Cached(quantity, unitPrice, totalPrice)
    }

    /** Sets totalPrice to quantity × unitPrice when both are present; changes nothing else. */
    method CalculateTotalPrice()
      modifies this`totalPrice
      ensures quantity.Some? && unitPrice.Some? ==> totalPrice == Some(LineTotal(quantity.value, unitPrice.value))
      ensures quantity.None? || unitPrice.None? ==> totalPrice == old(totalPrice)
    {
      if quantity.Some? && unitPrice.Some? {
        totalPrice := Some(LineTotal(quantity.value, unitPrice.value));
      }
    }

    /** Computes the total only when none is stored, and returns the stored value. */
    method GetTotalPrice() returns (r: Option<real>)
      modifies this`totalPrice
      ensures r == totalPrice == old(CachedTotal())
      ensures old(totalPrice).Some? ==> totalPrice == old(totalPrice)
      ensures old(totalPrice).None? ==> totalPrice == Recalculated(quantity, unitPrice, old(totalPrice))
    {
      if totalPrice.None? {
        CalculateTotalPrice();
      }
      r := totalPrice;
    }
  }

  /** Order: the aggregate root, owning its list of items. */
  class Order {
    var id: Option<int>
    var customerName: string
    var customerEmail: string
    var shippingAddress: string
    var totalPrice: Option<real>
    var status: OrderStatus
    var items: Option<seq<OrderItem>>

    /** Order.builder()...build(): status defaults to PENDING; no id and no total yet. */
    constructor (customerName: string, customerEmail: string, shippingAddress: string, items: Option<seq<OrderItem>>)
      ensures this.customerName == customerName && this.customerEmail == customerEmail
      ensures this.shippingAddress == shippingAddress && this.items == items
      ensures status == DefaultStatus && totalPrice == None && id == None
    {
      id := None;
      this.customerName := customerName;
      this.customerEmail := customerEmail;
      this.shippingAddress := shippingAddress;
      totalPrice := None;
      status := DefaultStatus;
      this.items := items;
    }

    /** The item list, a null list read as empty. */
    function ItemList(): seq<OrderItem>
      reads this
    {
      if items.Some? then items.value else []
    }

    function ItemObjects(): set<OrderItem>
      reads this
    {
      Objects(ItemList())
    }

    /**
     * Sets totalPrice to the sum of the items' getTotalPrice values (zero for a null or
     * empty list). Each getTotalPrice call may fill in a null item total; a total that
     * stays null throws, leaving the order total as it was. A call that succeeds leaves
     * every item's getTotalPrice value as it found it, so a second call on the same
     * list computes the same total.
     */
    method CalculateTotalPrice() returns (ok: bool)
      modifies this`totalPrice, ItemObjects()`totalPrice
      ensures ok == AllPresent(old(CachedTotals(ItemList())))
      ensures totalPrice == if ok then OrderTotal(old(CachedTotals(ItemList()))) else old(totalPrice)
      ensures items.None? || items.value == [] ==> ok && totalPrice == Some(0.0)
      ensures forall it :: it in ItemObjects() ==>
                it.totalPrice == if it in ItemList()[..FirstMissing(old(CachedTotals(ItemList())))]
                                 then old(it.CachedTotal()) else old(it.totalPrice)
      ensures ok ==> CachedTotals(ItemList()) == old(CachedTotals(ItemList()))
    {
      if items.None? || |items.value| == 0 {
        totalPrice := Some(0.0);
        return true;
      }
      var sum;
      ok, sum := SumTotals(items.value);
      if ok {
        totalPrice := Some(sum);
      }
    }

    /**
     * Appends the item (creating the list first when it is null), points the item back
     * at this order, and recomputes the order total.
     */
    method AddItem(item: OrderItem) returns (ok: bool)
      modifies this`items, this`totalPrice, item`order, item`totalPrice, ItemObjects()`totalPrice
      ensures items == Some(old(ItemList()) + [item])
      ensures old(items).None? ==> items == Some([item])
      ensures item.order == this
      ensures ok == AllPresent(old(CachedTotals(ItemList() + [item])))
      ensures totalPrice == if ok then OrderTotal(old(CachedTotals(ItemList() + [item]))) else old(totalPrice)
      ensures ok ==> && OrderTotal(old(CachedTotals(ItemList()))).Some? && old(item.CachedTotal()).Some?
                     && totalPrice == Some(OrderTotal(old(CachedTotals(ItemList()))).value + old(item.CachedTotal()).value)
      ensures ok ==> CachedTotals(ItemList()) == old(CachedTotals(ItemList() + [item]))
      ensures forall it :: it in ItemObjects() ==>
                it.totalPrice == if it in ItemList()[..FirstMissing(old(CachedTotals(ItemList() + [item])))]
                                 then old(it.CachedTotal()) else old(it.totalPrice)
    {
      ghost var before := CachedTotals(ItemList());
      ghost var after := CachedTotals(ItemList() + [item]);
      assert after == before + [item.CachedTotal()];
      if items.None? {
        items := Some([]);
      }
      assert items.value + [item] == old(ItemList()) + [item];
      assert old(items).None? ==> old(ItemList()) + [item] == [item];
      item.order := this;
      items := Some(items.value + [item]);
      assert CachedTotals(ItemList()) == after;
      ok := CalculateTotalPrice();
      OrderTotalAppend(before, old(item.CachedTotal()));
    }

    /** @PrePersist: recomputes the total before the order is first stored. */
    method OnCreate() returns (ok: bool)
      modifies this`totalPrice, ItemObjects()`totalPrice
      ensures ok == AllPresent(old(CachedTotals(ItemList())))
      ensures totalPrice == if ok then OrderTotal(old(CachedTotals(ItemList()))) else old(totalPrice)
      ensures forall it :: it in ItemObjects() ==>
                it.totalPrice == if it in ItemList()[..FirstMissing(old(CachedTotals(ItemList())))]
                                 then old(it.CachedTotal()) else old(it.totalPrice)
    {
      ok := CalculateTotalPrice();
    }

    /** @PreUpdate: recomputes the total before a changed order is stored again. */
    method OnUpdate() returns (ok: bool)
      modifies this`totalPrice, ItemObjects()`totalPrice
      ensures ok == AllPresent(old(CachedTotals(ItemList())))
      ensures totalPrice == if ok then OrderTotal(old(CachedTotals(ItemList()))) else old(totalPrice)
      ensures forall it :: it in ItemObjects() ==>
                it.totalPrice == if it in ItemList()[..FirstMissing(old(CachedTotals(ItemList())))]
                                 then old(it.CachedTotal()) else old(it.totalPrice)
    {
      ok := CalculateTotalPrice();
    }
  }
}
