/** The wishlist slice of the client store: a list of saved products. */
module WishlistSlice {
  import opened Seqs
  import opened Products

  datatype WishItem = WishItem(product: Product)

  function WishProductId(w: WishItem): string {
    w.product.id
  }

  /** Some entry holds product `pid`. */
  predicate Holds(items: seq<WishItem>, pid: string) {
    exists i :: 0 <= i < |items| && items[i].product.id == pid
  }

  /** The `filter` condition that drops product `pid`. */
  function OtherProduct(pid: string): WishItem -> bool {
    (w: WishItem) => w.product.id != pid
  }

  /** The position of the entry holding `pid` (`find`), or |items|. */
  function EntryOf(items: seq<WishItem>, pid: string): (k: nat)
    ensures k <= |items|
    ensures k < |items| <==> Holds(items, pid)
  {
    IndexWhere(items, (w: WishItem) => w.product.id == pid)
  }

  /** `removeFromWishlist(pid)`: drops every entry of `pid`, keeps the others in order. */
  function Removed(items: seq<WishItem>, pid: string): (r: seq<WishItem>)
    ensures !Holds(r, pid)
    ensures forall q :: q != pid ==> (Holds(r, q) <==> Holds(items, q))
    ensures DistinctBy(items, WishProductId) ==> DistinctBy(r, WishProductId)
    ensures FilteredFrom(r, items, OtherProduct(pid))
  {
    var r := Filter(items, OtherProduct(pid));
    FilterKeepsOrder(items, OtherProduct(pid));
    forall q | q != pid ensures Holds(r, q) <==> Holds(items, q) {
      FilterHolds(items, pid, q);
    }
    assert DistinctBy(items, WishProductId) ==> DistinctBy(r, WishProductId) by {
      if DistinctBy(items, WishProductId) {
        FilterDistinct(items, OtherProduct(pid), WishProductId);
      }
    }
    r
  }

  /** Dropping `pid` keeps every other product's entries. */
  lemma FilterHolds(items: seq<WishItem>, pid: string, q: string)
    requires q != pid
    ensures Holds(Filter(items, OtherProduct(pid)), q) <==> Holds(items, q)
  {
    var r := Filter(items, OtherProduct(pid));
    if Holds(items, q) {
      var i :| 0 <= i < |items| && items[i].product.id == q;
      assert items[i] in r;
      var j :| 0 <= j < |r| && r[j] == items[i];
    }
    if Holds(r, q) {
      var j :| 0 <= j < |r| && r[j].product.id == q;
      assert r[j] in items;
      var i :| 0 <= i < |items| && items[i] == r[j];
    }
  }

  /** Removing a product that is not there changes nothing. */
  lemma RemoveAbsent(items: seq<WishItem>, pid: string)
    requires !Holds(items, pid)
    ensures Removed(items, pid) == items
  {
    FilterAllKept(items, OtherProduct(pid));
  }

  /** `toggleWishlist(product)`: drops the product when it is there, appends it otherwise. */
  function Toggled(items: seq<WishItem>, product: Product): (r: seq<WishItem>)
    ensures Holds(r, product.id) <==> !Holds(items, product.id)
    ensures forall q :: q != product.id ==> (Holds(r, q) <==> Holds(items, q))
    ensures !Holds(items, product.id) ==> r == items + [WishItem(product)]
    ensures Holds(items, product.id) ==> r == Removed(items, product.id)
    ensures DistinctBy(items, WishProductId) ==> DistinctBy(r, WishProductId)
  {
    if EntryOf(items, product.id) < |items| then Removed(items, product.id)
    else
      var r := items + [WishItem(product)];
      assert r[|items|].product.id == product.id;
      forall q | q != product.id ensures Holds(r, q) <==> Holds(items, q) {
        if Holds(r, q) {
          var j :| 0 <= j < |r| && r[j].product.id == q;
          assert j < |items| && items[j] == r[j];
        }
        if Holds(items, q) {
          var i :| 0 <= i < |items| && items[i].product.id == q;
          assert r[i] == items[i];
        }
      }
      assert DistinctBy(items, WishProductId) ==> DistinctBy(r, WishProductId) by {
        if DistinctBy(items, WishProductId) {
          forall i, j | 0 <= i < j < |r| ensures WishProductId(r[i]) != WishProductId(r[j]) {
            assert r[i] == items[i];
            if j < |items| {
              assert r[j] == items[j];
            } else {
              assert WishProductId(items[i]) != product.id;
            }
          }
        }
      }
      r
  }

  /** Toggling a product that is not in the list twice gives the list back. */
  lemma ToggleTwice(items: seq<WishItem>, product: Product)
    requires !Holds(items, product.id)
    ensures Toggled(Toggled(items, product), product) == items
  {
    var once := items + [WishItem(product)];
    assert Toggled(items, product) == once;
    FilterAppend(items, [WishItem(product)], OtherProduct(product.id));
    FilterAllKept(items, OtherProduct(product.id));
    FilterNoneKept([WishItem(product)], OtherProduct(product.id));
  }

  /** The wishlist state. */
  class WishlistStore {
    var items: seq<WishItem>

    /** No product is saved twice. */
    ghost predicate Valid()
      reads this
    {
      DistinctBy(items, WishProductId)
    }

    /** The empty wishlist (restoring a saved one is not modelled). */
    constructor ()
      ensures Valid() && items == []
    {
      items := [];
    }

    /** `toggleWishlist(product)`. */
    method ToggleWishlist(product: Product)
      requires Valid()
      modifies this
      ensures items == Toggled(old(items), product)
      ensures Valid()
    {
      var k := EntryOf(items, product.id);
      if k < |items| {
        items := Filter(items, OtherProduct(product.id));
      } else {
        items := items + [WishItem(product)];
      }
    }

    /** `removeFromWishlist(pid)`. */
    method RemoveFromWishlist(pid: string)
      requires Valid()
      modifies this
      ensures items == Removed(old(items), pid)
      ensures Valid()
    {
      items := Filter(items, OtherProduct(pid));
    }

    /** `clearWishlist`. */
    method ClearWishlist()
      modifies this
      ensures items == [] && Valid()
    {
      items := [];
    }
  }
}
