/** The cart page's totals and its quantity buttons. */
module CartView {
  import opened JsValues
  import opened Seqs
  import opened Products
  import opened CartSlice

  /** The delivery fee charged per cart line. */
  const PLATFORM_FEE: real := 50.0

  /** `item.product.price * item.quantity`. */
  function LineCost(l: CartLine): real {
    l.product.price * l.quantity as real
  }

  datatype Totals = Totals(subtotal: real, platformFee: real, total: real)

  /** The totals memo: the subtotal over the lines, a fee per line whatever its
      quantity, and their sum. */
  function CartTotals(items: seq<CartLine>): (t: Totals)
    ensures t.subtotal == SumBy(items, LineCost)
    ensures t.platformFee == PLATFORM_FEE * |items| as real
    ensures t.total == t.subtotal + t.platformFee
  {
    var subtotal := SumBy(items, LineCost);
    var fee := PLATFORM_FEE * |items| as real;
    Totals(subtotal, fee, subtotal + fee)
  }

  /** The empty cart costs nothing. */
  lemma EmptyCartTotals()
    ensures CartTotals([]) == Totals(0.0, 0.0, 0.0)
  {
  }

  /** Adding a product that already has a line raises the subtotal by the
      unit price of the product as that line holds it, and leaves the fee. */
  lemma AddExistingTotals(items: seq<CartLine>, product: Product, lineId: string)
    requires LineOfProduct(items, product.id) < |items|
    ensures CartTotals(Added(items, product, lineId)).subtotal
              == CartTotals(items).subtotal + items[LineOfProduct(items, product.id)].product.price
    ensures CartTotals(Added(items, product, lineId)).platformFee == CartTotals(items).platformFee
  {
    var k := LineOfProduct(items, product.id);
    var bumped := items[k].(quantity := items[k].quantity + 1);
    assert Added(items, product, lineId) == items[k := bumped];
    SumByUpdate(items, k, bumped, LineCost);
    OneMoreCost(items[k]);
  }

  /** One more of a line costs one more unit price. */
  lemma OneMoreCost(l: CartLine)
    ensures LineCost(l.(quantity := l.quantity + 1)) == LineCost(l) + l.product.price
  {
    assert (l.quantity + 1) as real == l.quantity as real + 1.0;
  }

  /** Adding a product with no line raises the subtotal by its price and the fee by one fee. */
  lemma AddNewTotals(items: seq<CartLine>, product: Product, lineId: string)
    requires LineOfProduct(items, product.id) == |items|
    ensures CartTotals(Added(items, product, lineId)).subtotal == CartTotals(items).subtotal + product.price
    ensures CartTotals(Added(items, product, lineId)).platformFee == CartTotals(items).platformFee + PLATFORM_FEE
  {
    var line := CartLine(lineId, product, 1);
    assert Added(items, product, lineId) == items + [line];
    SumByAppend(items, [line], LineCost);
    assert SumBy([line], LineCost) == product.price;
  }

  /** Changing a quantity never changes the fee. */
  lemma QuantityKeepsFee(items: seq<CartLine>, lineId: string, quantity: int)
    ensures CartTotals(Updated(items, lineId, quantity)).platformFee == CartTotals(items).platformFee
  {
  }

  /** `handleQuantityChange(id, newQty)`: the quantity it dispatches, or none below 1. */
  function QuantityChange(newQty: int): (r: Option<int>)
    ensures r.Some? <==> newQty >= 1
    ensures r.Some? ==> r.value == newQty
  {
    if newQty < 1 then None else Some(newQty)
  }

  /** The minus button on a line with quantity 1 dispatches nothing. */
  lemma MinusAtOne(l: CartLine)
    requires l.quantity == 1
    ensures QuantityChange(l.quantity - 1) == None
  {
  }
}
