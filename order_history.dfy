/** The order history page: every sold product shown as a delivered order,
    newest first, and the total spent over them. */
module OrderHistory {
  import opened JsValues
  import opened Seqs
  import opened Products

  /** The fee added to every order. */
  const ORDER_FEE: real := 50.0
  const DELIVERED: string := "Delivered"

  /** One row of the page, derived from a sold product. */
  datatype Order = Order(
    id: string, productId: string, productName: string, productImage: string,
    category: string, size: string, price: real, platformFee: real, total: real,
    orderDate: nat, status: string, deliveryDate: nat, sellerEmail: string)

  /** `p.soldAt || p.listedAt`. */
  function DateOf(p: Product): (d: nat)
    ensures p.soldAt.Some? ==> d == p.soldAt.value
    ensures p.soldAt.None? ==> d == p.listedAt
  {
    if p.soldAt.Some? then p.soldAt.value else p.listedAt
  }

  /** The order shown for product `p`; `now` is the `Date.now()` text of the id. */
  function OrderOf(p: Product, now: string): (o: Order)
    ensures o.id == "ORDER" + now + "-" + p.id && o.productId == p.id
    ensures o.platformFee == ORDER_FEE && o.total == p.price + ORDER_FEE
    ensures o.orderDate == DateOf(p) && o.deliveryDate == DateOf(p)
    ensures o.status == DELIVERED
    ensures o.productName == p.name && o.productImage == p.imageUrl && o.category == p.category
    ensures o.size == p.size && o.price == p.price && o.sellerEmail == p.sellerEmail
  {
    Order("ORDER" + now + "-" + p.id, p.id, p.name, p.imageUrl, p.category, p.size, p.price,
          ORDER_FEE, p.price + ORDER_FEE, DateOf(p), DELIVERED, DateOf(p), p.sellerEmail)
  }

  /** The `map` step of the chain, element by element. */
  function MapOrders(ps: seq<Product>, now: string): (r: seq<Order>)
    ensures |r| == |ps|
    ensures forall i :: 0 <= i < |ps| ==> r[i] == OrderOf(ps[i], now)
  {
    if ps == [] then [] else [OrderOf(ps[0], now)] + MapOrders(ps[1..], now)
  }

  function OrderDate(o: Order): int {
    o.orderDate
  }

  function OrderTotal(o: Order): real {
    o.total
  }

  function Price(p: Product): real {
    p.price
  }

  /** The `orders` memo: the sold products as orders, sorted by date, newest
      first. There is one order per sold product and each order comes from a
      sold product. */
  function Orders(ps: seq<Product>, now: string): (r: seq<Order>)
    ensures SortedDesc(r, OrderDate)
    ensures multiset(r) == multiset(MapOrders(Filter(ps, IsSold), now))
    ensures |r| == Count(ps, IsSold)
    ensures forall i :: 0 <= i < |r| ==>
              exists j :: 0 <= j < |ps| && IsSold(ps[j]) && r[i] == OrderOf(ps[j], now)
    ensures forall j :: 0 <= j < |ps| && IsSold(ps[j]) ==> OrderOf(ps[j], now) in r
    ensures forall i :: 0 <= i < |r| ==>
              r[i].status == DELIVERED && r[i].platformFee == ORDER_FEE && r[i].total == r[i].price + ORDER_FEE
  {
    var sold := Filter(ps, IsSold);
    var r := SortDesc(MapOrders(sold, now), OrderDate);
    CountIsFilterLength(ps, IsSold);
    SoldOrders(ps, now, r);
    r
  }

  /** Any arrangement of the orders of the sold products holds an order of
      every sold product and nothing else. */
  lemma SoldOrders(ps: seq<Product>, now: string, r: seq<Order>)
    requires multiset(r) == multiset(MapOrders(Filter(ps, IsSold), now))
    ensures forall i :: 0 <= i < |r| ==>
              exists j :: 0 <= j < |ps| && IsSold(ps[j]) && r[i] == OrderOf(ps[j], now)
    ensures forall j :: 0 <= j < |ps| && IsSold(ps[j]) ==> OrderOf(ps[j], now) in r
  {
    forall i | 0 <= i < |r|
      ensures exists j :: 0 <= j < |ps| && IsSold(ps[j]) && r[i] == OrderOf(ps[j], now)
    {
      OrderFromSold(ps, now, r, i);
    }
    forall j | 0 <= j < |ps| && IsSold(ps[j]) ensures OrderOf(ps[j], now) in r {
      SoldHasOrder(ps, now, r, j);
    }
  }

  lemma OrderFromSold(ps: seq<Product>, now: string, r: seq<Order>, i: nat)
    requires multiset(r) == multiset(MapOrders(Filter(ps, IsSold), now)) && i < |r|
    ensures exists j :: 0 <= j < |ps| && IsSold(ps[j]) && r[i] == OrderOf(ps[j], now)
  {
    var sold := Filter(ps, IsSold);
    var mapped := MapOrders(sold, now);
    assert r[i] in multiset(mapped);
    var k :| 0 <= k < |mapped| && mapped[k] == r[i];
    assert sold[k] in ps && IsSold(sold[k]);
    var j :| 0 <= j < |ps| && ps[j] == sold[k];
    assert r[i] == OrderOf(ps[j], now);
  }

  lemma SoldHasOrder(ps: seq<Product>, now: string, r: seq<Order>, j: nat)
    requires multiset(r) == multiset(MapOrders(Filter(ps, IsSold), now))
    requires j < |ps| && IsSold(ps[j])
    ensures OrderOf(ps[j], now) in r
  {
    var sold := Filter(ps, IsSold);
    var mapped := MapOrders(sold, now);
    var k :| 0 <= k < |sold| && sold[k] == ps[j];
    assert mapped[k] == OrderOf(ps[j], now);
    assert mapped[k] in multiset(r);
  }

  /** `orders.reduce((sum, o) => sum + o.total, 0)`. */
  function TotalSpent(orders: seq<Order>): (t: real)
    ensures (forall i :: 0 <= i < |orders| ==> orders[i].total >= 0.0) ==> t >= 0.0
  {
    SumByNonNegative(orders, OrderTotal);
    SumBy(orders, OrderTotal)
  }

  /** The orders of a list of products cost their prices plus one fee each. */
  lemma {:induction false} MappedTotal(ps: seq<Product>, now: string)
    ensures SumBy(MapOrders(ps, now), OrderTotal) == SumBy(ps, Price) + ORDER_FEE * |ps| as real
  {
    if ps != [] {
      MappedTotal(ps[1..], now);
      assert MapOrders(ps, now)[1..] == MapOrders(ps[1..], now);
    }
  }

  /** Total spent is the sum of the sold products' prices plus 50 per sold product. */
  lemma TotalSpentOfOrders(ps: seq<Product>, now: string)
    ensures TotalSpent(Orders(ps, now))
              == SumBy(Filter(ps, IsSold), Price) + ORDER_FEE * Count(ps, IsSold) as real
  {
    var sold := Filter(ps, IsSold);
    SumBySort(MapOrders(sold, now), OrderDate, OrderTotal);
    MappedTotal(sold, now);
    CountIsFilterLength(ps, IsSold);
  }

  /** With nothing sold there are no orders and nothing spent. */
  lemma NothingSold(ps: seq<Product>, now: string)
    requires forall i :: 0 <= i < |ps| ==> !IsSold(ps[i])
    ensures Orders(ps, now) == [] && TotalSpent(Orders(ps, now)) == 0.0
  {
    FilterNoneKept(ps, IsSold);
    CountIsFilterLength(ps, IsSold);
  }
}
