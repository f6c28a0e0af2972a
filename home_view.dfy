/** The buyer home page: which products it lists and the three counts it shows. */
module HomeView {
  import opened Seqs
  import opened Products
  import opened ProductSlice

  /** `filteredProducts.length ? filteredProducts : products`. */
  function SourceList(products: seq<Product>, filtered: seq<Product>): (r: seq<Product>)
    ensures filtered != [] ==> r == filtered
    ensures filtered == [] ==> r == products
  {
    if |filtered| > 0 then filtered else products
  }

  /** The products the page lists: the available ones of the source list, in order. */
  function Displayed(products: seq<Product>, filtered: seq<Product>): (r: seq<Product>)
    ensures forall i :: 0 <= i < |r| ==> IsAvailable(r[i]) && r[i] in SourceList(products, filtered)
    ensures forall p :: p in SourceList(products, filtered) && IsAvailable(p) ==> p in r
    ensures FilteredFrom(r, SourceList(products, filtered), IsAvailable)
  {
    Available(SourceList(products, filtered))
  }

  /** After `loadAllProducts`, which the page dispatches on mount, it lists
      exactly the available products of the master list. */
  lemma DisplayedAfterLoad(products: seq<Product>)
    ensures Displayed(products, Available(products)) == Available(products)
  {
    FilterTwice(products, IsAvailable);
  }

  /** The set of categories of a list (`new Set(products.map(p => p.category))`). */
  function Categories(ps: seq<Product>): (c: set<string>)
    ensures forall x :: x in c <==> exists i :: 0 <= i < |ps| && ps[i].category == x
    ensures |c| <= |ps|
    ensures ps != [] ==> |c| >= 1
  {
    if ps == [] then {}
    else
      var rest := Categories(ps[1..]);
      var c := {ps[0].category} + rest;
      forall x ensures x in c <==> exists i :: 0 <= i < |ps| && ps[i].category == x {
        if x in rest {
          var i :| 0 <= i < |ps[1..]| && ps[1..][i].category == x;
          assert ps[i + 1].category == x;
        }
        if exists i :: 0 <= i < |ps| && ps[i].category == x {
          var i :| 0 <= i < |ps| && ps[i].category == x;
          if i > 0 {
            assert ps[1..][i - 1].category == x;
          }
        }
      }
      assert ps[0].category in c;
      c
  }

  /** The counts of the stats panel. */
  datatype Stats = Stats(totalProducts: nat, soldItems: nat, categories: nat)

  /** The stats over the master list: available products, sold products and
      distinct categories. Counts of available and sold never exceed the list. */
  function HomeStats(products: seq<Product>): (s: Stats)
    ensures s.totalProducts == Count(products, IsAvailable)
    ensures s.soldItems == Count(products, IsSold)
    ensures s.totalProducts + s.soldItems <= |products|
    ensures s.categories == |Categories(products)| <= |products|
  {
    CountIsFilterLength(products, IsAvailable);
    CountIsFilterLength(products, IsSold);
    forall i | 0 <= i < |products| ensures !(IsAvailable(products[i]) && IsSold(products[i])) {
      AvailableNotSold(products[i]);
    }
    CountDisjoint(products, IsAvailable, IsSold);
    Stats(|Filter(products, IsAvailable)|, |Filter(products, IsSold)|, |Categories(products)|)
  }
}
