/** The cart slice of the client store: a list of cart lines, each holding a
    product and a quantity, with at most one line per product. */
module CartSlice {
  import opened Seqs
  import opened Products

  /** A cart line; `id` is the line's own id, distinct from the product's. */
  datatype CartLine = CartLine(id: string, product: Product, quantity: int)

  function ProductIdOf(l: CartLine): string {
    l.product.id
  }

  /** At most one line per product id, and every quantity at least 1. */
  ghost predicate CartValid(items: seq<CartLine>) {
    && DistinctBy(items, ProductIdOf)
    && forall i :: 0 <= i < |items| ==> items[i].quantity >= 1
  }

  /** The quantity of product `pid` in the cart, over all its lines. */
  function QuantityOf(items: seq<CartLine>, pid: string): int {
    if items == [] then 0
    else (if items[0].product.id == pid then items[0].quantity else 0) + QuantityOf(items[1..], pid)
  }

  function Share(l: CartLine, pid: string): int {
    if l.product.id == pid then l.quantity else 0
  }

  lemma {:induction false} QuantityOfAppend(items: seq<CartLine>, l: CartLine, pid: string)
    ensures QuantityOf(items + [l], pid) == QuantityOf(items, pid) + Share(l, pid)
  {
    if items == [] {
      assert ([] + [l])[1..] == [];
    } else {
      assert (items + [l])[1..] == items[1..] + [l];
      QuantityOfAppend(items[1..], l, pid);
    }
  }

  lemma {:induction false} QuantityOfUpdate(items: seq<CartLine>, k: nat, l: CartLine, pid: string)
    requires k < |items|
    ensures QuantityOf(items[k := l], pid) == QuantityOf(items, pid) - Share(items[k], pid) + Share(l, pid)
  {
    if k > 0 {
      assert items[k := l][1..] == items[1..][k - 1 := l];
      QuantityOfUpdate(items[1..], k - 1, l, pid);
    }
  }

  /** The position of the line holding product `pid` (`find` on `product.id`), or |items|. */
  function LineOfProduct(items: seq<CartLine>, pid: string): (k: nat)
    ensures k <= |items|
    ensures k < |items| ==> items[k].product.id == pid
    ensures forall j :: 0 <= j < k ==> items[j].product.id != pid
  {
    IndexWhere(items, (l: CartLine) => l.product.id == pid)
  }

  /** The position of the line with line id `lineId`, or |items|. */
  function LineWithId(items: seq<CartLine>, lineId: string): (k: nat)
    ensures k <= |items|
    ensures k < |items| ==> items[k].id == lineId
    ensures forall j :: 0 <= j < k ==> items[j].id != lineId
  {
    IndexWhere(items, (l: CartLine) => l.id == lineId)
  }

  /** A product is in the cart exactly when some line holds it. */
  lemma InCartIff(items: seq<CartLine>, pid: string)
    ensures LineOfProduct(items, pid) < |items| <==> exists i :: 0 <= i < |items| && items[i].product.id == pid
  {
  }

  /** A product without a line has quantity 0. */
  lemma {:induction false} QuantityOfAbsent(items: seq<CartLine>, pid: string)
    requires forall i :: 0 <= i < |items| ==> items[i].product.id != pid
    ensures QuantityOf(items, pid) == 0
  {
    if items != [] {
      QuantityOfAbsent(items[1..], pid);
    }
  }

  /** `addToCart`: one more of a product already in the cart, or a new line with quantity 1. */
  function Added(items: seq<CartLine>, product: Product, lineId: string): (r: seq<CartLine>)
    ensures QuantityOf(r, product.id) == QuantityOf(items, product.id) + 1
    ensures forall pid :: pid != product.id ==> QuantityOf(r, pid) == QuantityOf(items, pid)
    ensures LineOfProduct(items, product.id) < |items| ==>
              && |r| == |items|
              && (forall i :: 0 <= i < |r| ==> r[i].id == items[i].id && r[i].product == items[i].product)
              && r[LineOfProduct(items, product.id)].quantity == items[LineOfProduct(items, product.id)].quantity + 1
    ensures LineOfProduct(items, product.id) == |items| ==>
              |r| == |items| + 1 && r[..|items|] == items && r[|items|] == CartLine(lineId, product, 1)
    ensures forall i :: 0 <= i < |items| && items[i].product.id != product.id ==> r[i] == items[i]
    ensures CartValid(items) ==> CartValid(r)
  {
    var k := LineOfProduct(items, product.id);
    if k < |items| then
      var r := items[k := items[k].(quantity := items[k].quantity + 1)];
      forall pid ensures QuantityOf(r, pid) == QuantityOf(items, pid) + (if pid == product.id then 1 else 0) {
        QuantityOfUpdate(items, k, items[k].(quantity := items[k].quantity + 1), pid);
      }
      assert CartValid(items) ==> CartValid(r) by {
        if CartValid(items) {
          forall i, j | 0 <= i < j < |r| ensures ProductIdOf(r[i]) != ProductIdOf(r[j]) {
            assert ProductIdOf(r[i]) == ProductIdOf(items[i]) && ProductIdOf(r[j]) == ProductIdOf(items[j]);
          }
        }
      }
      r
    else
      var r := items + [CartLine(lineId, product, 1)];
      forall pid ensures QuantityOf(r, pid) == QuantityOf(items, pid) + (if pid == product.id then 1 else 0) {
        QuantityOfAppend(items, CartLine(lineId, product, 1), pid);
      }
      assert CartValid(items) ==> CartValid(r) by {
        if CartValid(items) {
          forall i, j | 0 <= i < j < |r| ensures ProductIdOf(r[i]) != ProductIdOf(r[j]) {
            if j == |items| {
              assert r[i] == items[i];
            } else {
              assert r[i] == items[i] && r[j] == items[j];
            }
          }
        }
      }
      r
  }

  /** The `filter` condition of `removeFromCart`. */
  function OtherLine(lineId: string): CartLine -> bool {
    (l: CartLine) => l.id != lineId
  }

  /** `removeFromCart`: drops the lines whose line id is `lineId`, keeping the rest in order. */
  function Removed(items: seq<CartLine>, lineId: string): (r: seq<CartLine>)
    ensures |r| <= |items|
    ensures forall i :: 0 <= i < |r| ==> r[i].id != lineId && r[i] in items
    ensures forall i :: 0 <= i < |items| && items[i].id != lineId ==> items[i] in r
    ensures CartValid(items) ==> CartValid(r)
    ensures FilteredFrom(r, items, OtherLine(lineId))
  {
    var r := Filter(items, OtherLine(lineId));
    FilterKeepsOrder(items, OtherLine(lineId));
    assert CartValid(items) ==> CartValid(r) by {
      if CartValid(items) {
        FilterDistinct(items, OtherLine(lineId), ProductIdOf);
        forall i | 0 <= i < |r| ensures r[i].quantity >= 1 {
          var m :| 0 <= m < |items| && items[m] == r[i];
        }
      }
    }
    r
  }

  /** Removing a line id that no line has leaves the cart as it was. */
  lemma RemoveAbsentLine(items: seq<CartLine>, lineId: string)
    requires forall i :: 0 <= i < |items| ==> items[i].id != lineId
    ensures Removed(items, lineId) == items
  {
    FilterAllKept(items, OtherLine(lineId));
  }

  /** `updateQuantity`: sets the quantity of the first line with that line id,
      only when there is one and the new quantity is positive. */
  function Updated(items: seq<CartLine>, lineId: string, quantity: int): (r: seq<CartLine>)
    ensures |r| == |items|
    ensures forall i :: 0 <= i < |r| ==> r[i].id == items[i].id && r[i].product == items[i].product
    ensures LineWithId(items, lineId) < |items| && quantity > 0 ==>
              && r[LineWithId(items, lineId)].quantity == quantity
              && forall i :: 0 <= i < |r| && i != LineWithId(items, lineId) ==> r[i] == items[i]
    ensures !(LineWithId(items, lineId) < |items| && quantity > 0) ==> r == items
    ensures CartValid(items) ==> CartValid(r)
  {
    var k := LineWithId(items, lineId);
    if k < |items| && quantity > 0 then
      var r := items[k := items[k].(quantity := quantity)];
      assert CartValid(items) ==> CartValid(r) by {
        if CartValid(items) {
          forall i, j | 0 <= i < j < |r| ensures ProductIdOf(r[i]) != ProductIdOf(r[j]) {
            assert ProductIdOf(r[i]) == ProductIdOf(items[i]) && ProductIdOf(r[j]) == ProductIdOf(items[j]);
          }
        }
      }
      r
    else items
  }

  /** The cart state. */
  class CartStore {
    var items: seq<CartLine>

    ghost predicate Valid()
      reads this
    {
      CartValid(items)
    }

    /** The empty cart (restoring a saved cart is not modelled). */
    constructor ()
      ensures Valid() && items == []
    {
      items := [];
    }

    /** `addToCart(product)`; `lineId` is the generated line id. */
    method AddToCart(product: Product, lineId: string)
      requires Valid()
      modifies this
      ensures items == Added(old(items), product, lineId)
      ensures Valid()
    {
      var k := LineOfProduct(items, product.id);
      if k < |items| {
        items := items[k := items[k].(quantity := items[k].quantity + 1)];
      } else {
        items := items + [CartLine(lineId, product, 1)];
      }
    }

    /** `removeFromCart(lineId)`. */
    method RemoveFromCart(lineId: string)
      requires Valid()
      modifies this
      ensures items == Removed(old(items), lineId)
      ensures Valid()
    {
      items := Filter(items, OtherLine(lineId));
    }

    /** `updateQuantity({ id, quantity })`. */
    method UpdateQuantity(lineId: string, quantity: int)
      requires Valid()
      modifies this
      ensures items == Updated(old(items), lineId, quantity)
      ensures Valid()
    {
      var k := LineWithId(items, lineId);
      if k < |items| && quantity > 0 {
        items := items[k := items[k].(quantity := quantity)];
      }
    }

    /** `clearCart`. */
    method ClearCart()
      modifies this
      ensures Valid() && items == []
    {
      items := [];
    }
  }

  /** Adding the same product twice gives one line with quantity 2. */
  method AddTwice(cart: CartStore, product: Product, id1: string, id2: string)
    requires cart.Valid() && cart.items == []
    modifies cart
    ensures |cart.items| == 1 && cart.items[0] == CartLine(id1, product, 2)
  {
    cart.AddToCart(product, id1);
    cart.AddToCart(product, id2);
  }
}
