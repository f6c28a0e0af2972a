/** The products slice of the client store: the master product list and the
    filtered view the catalogue shows, with the category and query behind it. */
module ProductSlice {
  import opened Text
  import opened JsValues
  import opened Seqs
  import opened Products

  /** The payload of `updateProduct`: the id of the product to change and the
      fields to overwrite; `None` is a field the payload does not carry. */
  datatype ProductPatch = ProductPatch(
    id: string, name: Option<string>, category: Option<string>, price: Option<real>,
    size: Option<string>, condition: Option<string>, description: Option<string>,
    sellerEmail: Option<string>, imageUrl: Option<string>, listedAt: Option<nat>,
    soldAt: Option<Option<nat>>, status: Option<string>)

  function Pick<T>(o: Option<T>, d: T): (r: T)
    ensures o.Some? ==> r == o.value
    ensures o.None? ==> r == d
  {
    if o.Some? then o.value else d
  }

  /** The product `addProduct` stores: the payload with the given id and
      listing time, and status "available" whatever the payload says. */
  function NewListing(payload: Product, id: string, listedAt: nat): (p: Product)
    ensures p.id == id && p.listedAt == listedAt && IsAvailable(p)
    ensures p.(id := payload.id, listedAt := payload.listedAt, status := payload.status) == payload
  {
    payload.(id := id, listedAt := listedAt, status := AVAILABLE)
  }

  /** `{ ...p, ...patch }`: every field the patch carries replaces the
      product's, every field it leaves out keeps its value; the patch's id is
      the product's. */
  function Merge(p: Product, patch: ProductPatch): (r: Product)
    requires patch.id == p.id
    ensures r.id == p.id
    ensures patch.name.Some? ==> r.name == patch.name.value
    ensures patch.name.None? ==> r.name == p.name
    ensures patch.category.Some? ==> r.category == patch.category.value
    ensures patch.category.None? ==> r.category == p.category
    ensures patch.price.Some? ==> r.price == patch.price.value
    ensures patch.price.None? ==> r.price == p.price
    ensures patch.size.Some? ==> r.size == patch.size.value
    ensures patch.size.None? ==> r.size == p.size
    ensures patch.condition.Some? ==> r.condition == patch.condition.value
    ensures patch.condition.None? ==> r.condition == p.condition
    ensures patch.description.Some? ==> r.description == patch.description.value
    ensures patch.description.None? ==> r.description == p.description
    ensures patch.sellerEmail.Some? ==> r.sellerEmail == patch.sellerEmail.value
    ensures patch.sellerEmail.None? ==> r.sellerEmail == p.sellerEmail
    ensures patch.imageUrl.Some? ==> r.imageUrl == patch.imageUrl.value
    ensures patch.imageUrl.None? ==> r.imageUrl == p.imageUrl
    ensures patch.listedAt.Some? ==> r.listedAt == patch.listedAt.value
    ensures patch.listedAt.None? ==> r.listedAt == p.listedAt
    ensures patch.soldAt.Some? ==> r.soldAt == patch.soldAt.value
    ensures patch.soldAt.None? ==> r.soldAt == p.soldAt
    ensures patch.status.Some? ==> r.status == patch.status.value
    ensures patch.status.None? ==> r.status == p.status
  {
    Product(p.id, Pick(patch.name, p.name), Pick(patch.category, p.category), Pick(patch.price, p.price),
            Pick(patch.size, p.size), Pick(patch.condition, p.condition), Pick(patch.description, p.description),
            Pick(patch.sellerEmail, p.sellerEmail), Pick(patch.imageUrl, p.imageUrl),
            Pick(patch.listedAt, p.listedAt), Pick(patch.soldAt, p.soldAt), Pick(patch.status, p.status))
  }

  /** A patch that carries only the id changes nothing. */
  lemma MergeNothing(p: Product)
    ensures Merge(p, ProductPatch(p.id, None, None, None, None, None, None, None, None, None, None, None)) == p
  {
  }

  /** Merging the same patch twice is merging it once. */
  lemma MergeTwice(p: Product, patch: ProductPatch)
    requires patch.id == p.id
    ensures Merge(Merge(p, patch), patch) == Merge(p, patch)
  {
  }

  /** The position of the first product with id `id` (`findIndex`), or |ps|. */
  function IndexOfId(ps: seq<Product>, id: string): (k: nat)
    ensures k <= |ps|
    ensures k < |ps| ==> ps[k].id == id
    ensures forall j :: 0 <= j < k ==> ps[j].id != id
  {
    IndexWhere(ps, (p: Product) => p.id == id)
  }

  /** `updateProduct(patch)`: merges the patch into the first product with its id, and only there. */
  function Updated(ps: seq<Product>, patch: ProductPatch): (r: seq<Product>)
    ensures |r| == |ps|
    ensures forall i :: 0 <= i < |r| ==> r[i].id == ps[i].id
    ensures IndexOfId(ps, patch.id) < |ps| ==>
              && r[IndexOfId(ps, patch.id)] == Merge(ps[IndexOfId(ps, patch.id)], patch)
              && forall i :: 0 <= i < |r| && i != IndexOfId(ps, patch.id) ==> r[i] == ps[i]
    ensures IndexOfId(ps, patch.id) == |ps| ==> r == ps
  {
    var k := IndexOfId(ps, patch.id);
    if k < |ps| then ps[k := Merge(ps[k], patch)] else ps
  }

  /** `markAsSold(id)`: the first product with that id becomes sold at `now`. */
  function MarkedSold(ps: seq<Product>, id: string, now: nat): (r: seq<Product>)
    ensures |r| == |ps|
    ensures IndexOfId(ps, id) < |ps| ==>
              && IsSold(r[IndexOfId(ps, id)]) && r[IndexOfId(ps, id)].soldAt == Some(now)
              && r[IndexOfId(ps, id)].(status := ps[IndexOfId(ps, id)].status, soldAt := ps[IndexOfId(ps, id)].soldAt)
                 == ps[IndexOfId(ps, id)]
              && forall i :: 0 <= i < |r| && i != IndexOfId(ps, id) ==> r[i] == ps[i]
    ensures IndexOfId(ps, id) == |ps| ==> r == ps
  {
    var k := IndexOfId(ps, id);
    if k < |ps| then ps[k := ps[k].(status := SOLD, soldAt := Some(now))] else ps
  }

  function OtherId(id: string): Product -> bool {
    (p: Product) => p.id != id
  }

  /** `deleteProduct(id)`: every product with that id goes, the others stay in order. */
  function Deleted(ps: seq<Product>, id: string): (r: seq<Product>)
    ensures |r| <= |ps|
    ensures forall i :: 0 <= i < |r| ==> r[i].id != id && r[i] in ps
    ensures forall i :: 0 <= i < |ps| && ps[i].id != id ==> ps[i] in r
    ensures FilteredFrom(r, ps, OtherId(id))
  {
    FilterKeepsOrder(ps, OtherId(id));
    Filter(ps, OtherId(id))
  }

  /** Deleting an id that no product has changes nothing. */
  lemma DeleteAbsent(ps: seq<Product>, id: string)
    requires forall i :: 0 <= i < |ps| ==> ps[i].id != id
    ensures Deleted(ps, id) == ps
  {
    FilterAllKept(ps, OtherId(id));
  }

  /** The available products, in order. */
  function Available(ps: seq<Product>): (r: seq<Product>)
    ensures forall i :: 0 <= i < |r| ==> IsAvailable(r[i]) && r[i] in ps
    ensures forall i :: 0 <= i < |ps| && IsAvailable(ps[i]) ==> ps[i] in r
    ensures FilteredFrom(r, ps, IsAvailable)
  {
    FilterKeepsOrder(ps, IsAvailable);
    Filter(ps, IsAvailable)
  }

  function InCategory(category: string): Product -> bool {
    (p: Product) => p.category == category && IsAvailable(p)
  }

  /** `filterByCategory(category)`: the available products of that category,
      or all available products for "All Categories", in order. */
  function ByCategory(ps: seq<Product>, category: string): (r: seq<Product>)
    ensures forall i :: 0 <= i < |r| ==>
              IsAvailable(r[i]) && r[i] in ps && (category != ALL_CATEGORIES ==> r[i].category == category)
    ensures forall i :: 0 <= i < |ps| && IsAvailable(ps[i]) && (category == ALL_CATEGORIES || ps[i].category == category)
              ==> ps[i] in r
    ensures category == ALL_CATEGORIES ==> FilteredFrom(r, ps, IsAvailable)
    ensures category != ALL_CATEGORIES ==> FilteredFrom(r, ps, InCategory(category))
  {
    FilterKeepsOrder(ps, InCategory(category));
    if category == ALL_CATEGORIES then Available(ps) else Filter(ps, InCategory(category))
  }

  /** The test of `searchProducts` for a lower-cased query. */
  predicate Matches(p: Product, query: string) {
    && IsAvailable(p)
    && (Contains(Lower(p.name), query) || Contains(Lower(p.description), query) || Contains(Lower(p.category), query))
  }

  function MatchesQuery(query: string): Product -> bool {
    (p: Product) => Matches(p, query)
  }

  /** `searchProducts(query)`: the available products whose lower-cased name,
      description or category contains the lower-cased query, in order. */
  function Searched(ps: seq<Product>, query: string): (r: seq<Product>)
    ensures forall i :: 0 <= i < |r| ==>
              && r[i] in ps && IsAvailable(r[i])
              && (|| Contains(Lower(r[i].name), Lower(query))
                  || Contains(Lower(r[i].description), Lower(query))
                  || Contains(Lower(r[i].category), Lower(query)))
    ensures forall i :: 0 <= i < |ps| && Matches(ps[i], Lower(query)) ==> ps[i] in r
    ensures FilteredFrom(r, ps, MatchesQuery(Lower(query)))
  {
    FilterKeepsOrder(ps, MatchesQuery(Lower(query)));
    Filter(ps, MatchesQuery(Lower(query)))
  }

  /** The empty query finds every available product. */
  lemma SearchEmpty(ps: seq<Product>)
    ensures Searched(ps, "") == Available(ps)
  {
    assert Lower("") == "";
    forall i | 0 <= i < |ps| ensures MatchesQuery("")(ps[i]) == IsAvailable(ps[i]) {
      assert Contains(Lower(ps[i].name), "");
    }
    FilterSame(ps, MatchesQuery(""), IsAvailable);
  }

  /** The query's case does not matter. */
  lemma SearchIgnoresCase(ps: seq<Product>, query: string)
    ensures Searched(ps, Lower(query)) == Searched(ps, query)
  {
    LowerIdempotent(query);
  }

  /** The products slice's state. */
  class ProductStore {
    var products: seq<Product>
    var filteredProducts: seq<Product>
    var selectedCategory: string
    var searchQuery: string

    /** The initial state, with no stored products (restoring saved ones is not modelled). */
    constructor ()
      ensures products == [] && filteredProducts == []
      ensures selectedCategory == ALL_CATEGORIES && searchQuery == ""
    {
      products := [];
      filteredProducts := [];
      selectedCategory := ALL_CATEGORIES;
      searchQuery := "";
    }

    /** `addProduct(payload)`; the id and the listing time are the generated values. */
    method AddProduct(payload: Product, id: string, listedAt: nat)
      modifies this`products
      ensures products == old(products) + [NewListing(payload, id, listedAt)]
    {
      var p := payload.(id := id, listedAt := listedAt, status := AVAILABLE);
      products := products + [p];
    }

    /** `updateProduct(patch)`. */
    method UpdateProduct(patch: ProductPatch)
      modifies this`products
      ensures products == Updated(old(products), patch)
    {
      var index := IndexOfId(products, patch.id);
      if index < |products| {
        products := products[index := Merge(products[index], patch)];
      }
    }

    /** `deleteProduct(id)`. */
    method DeleteProduct(id: string)
      modifies this`products
      ensures products == Deleted(old(products), id)
    {
      products := Filter(products, OtherId(id));
    }

    /** `markAsSold(id)`; `now` is the current time. */
    method MarkAsSold(id: string, now: nat)
      modifies this`products
      ensures products == MarkedSold(old(products), id, now)
    {
      var index := IndexOfId(products, id);
      if index < |products| {
        products := products[index := products[index].(status := SOLD, soldAt := Some(now))];
      }
    }

    /** `filterByCategory(category)`; the master list is untouched. */
    method FilterByCategory(category: string)
      modifies this`filteredProducts, this`selectedCategory
      ensures selectedCategory == category
      ensures filteredProducts == ByCategory(products, category)
    {
      selectedCategory := category;
      if category == ALL_CATEGORIES {
        filteredProducts := Filter(products, IsAvailable);
      } else {
        filteredProducts := Filter(products, InCategory(category));
      }
    }

    /** `searchProducts(query)`; the master list is untouched. */
    method SearchProducts(query: string)
      modifies this`filteredProducts, this`searchQuery
      ensures searchQuery == query
      ensures filteredProducts == Searched(products, query)
    {
      searchQuery := query;
      var q := Lower(query);
      filteredProducts := Filter(products, MatchesQuery(q));
    }

    /** `loadAllProducts`; the master list is untouched. */
    method LoadAllProducts()
      modifies this`filteredProducts
      ensures filteredProducts == Available(products)
    {
      filteredProducts := Filter(products, IsAvailable);
    }
  }

  /** A product added and then marked sold is sold, at the time given, in its old place. */
  method AddThenSell(store: ProductStore, payload: Product, id: string, listedAt: nat, now: nat)
    requires forall i :: 0 <= i < |store.products| ==> store.products[i].id != id
    modifies store
    ensures |store.products| == |old(store.products)| + 1
    ensures store.products[..|old(store.products)|] == old(store.products)
    ensures IsSold(store.products[|old(store.products)|]) && store.products[|old(store.products)|].soldAt == Some(now)
  {
    store.AddProduct(payload, id, listedAt);
    store.MarkAsSold(id, now);
  }
}
