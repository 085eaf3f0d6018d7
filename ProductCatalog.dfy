/** The product list of one brand: the fetched products, the search filter over
    name and model, per-product favourites and the grid/list view switch. */
module ProductCatalog {
  import opened Wrappers
  import opened Collections
  import opened Text
  import opened Api

  datatype CatalogProduct = CatalogProduct(id: string, name: string, model: Option<string>)

  /** The part of a `/brands/{id}/products` reply the screen reads. */
  datatype ProductsReply = ProductsReply(products: Option<seq<CatalogProduct>>)

  datatype ViewMode = Grid | List

  /** The search test: the name contains the query, or a non-empty model does. */
  predicate ProductMatches(p: CatalogProduct, query: string) {
    || IncludesIgnoringCase(p.name, query)
    || (p.model.Some? && p.model.value != "" && IncludesIgnoringCase(p.model.value, query))
  }

  /** The search effect: the whole list for a blank query, else the matching products. */
  function FilterProducts(products: seq<CatalogProduct>, query: string): (r: seq<CatalogProduct>)
    ensures |r| <= |products|
  {
    if Blank(query) then products
    else Filter(products, (p: CatalogProduct) => ProductMatches(p, query))
  }

  /** A blank query shows every product; otherwise exactly the matching ones are
      shown, each as often as it occurs, in their order. */
  lemma FilterProductsSpec(products: seq<CatalogProduct>, query: string)
    ensures var r := FilterProducts(products, query);
      && (Blank(query) ==> r == products)
      && (!Blank(query) ==>
            && (forall i :: 0 <= i < |r| ==> ProductMatches(r[i], query))
            && (forall i :: 0 <= i < |products| && ProductMatches(products[i], query) ==> products[i] in r)
            && (forall p :: multiset(r)[p] == if ProductMatches(p, query) then multiset(products)[p] else 0))
      && IsSubsequence(r, products)
  {
    if Blank(query) {
      IsSubsequenceRefl(products);
    } else {
      FilterComplete(products, (p: CatalogProduct) => ProductMatches(p, query));
      FilterCount(products, (p: CatalogProduct) => ProductMatches(p, query));
    }
  }

  /** The test ignores the case of the query: a lower-cased query finds the same
      products. */
  lemma ProductMatchesIgnoresQueryCase(p: CatalogProduct, query: string)
    ensures ProductMatches(p, Lower(query)) <==> ProductMatches(p, query)
  {
    LowerIdempotent(query);
  }

  /** A product without a model is found only through its name. */
  lemma NoModelSearchesName(p: CatalogProduct, query: string)
    requires p.model.None? || p.model == Some("")
    ensures ProductMatches(p, query) <==> IncludesIgnoringCase(p.name, query)
  {
  }

  /** `response.products || []`. */
  function ProductsOrEmpty(reply: ProductsReply): (r: seq<CatalogProduct>)
    ensures reply.products.Some? ==> r == reply.products.value
    ensures reply.products.None? ==> r == []
  {
    reply.products.GetOr([])
  }

  /** The other view mode. */
  function Flip(mode: ViewMode): (r: ViewMode)
    ensures r != mode
  {
    if mode == Grid then List else Grid
  }

  lemma FlipTwice(mode: ViewMode)
    ensures Flip(Flip(mode)) == mode
  {
  }

  /** In the grid, the item at `index` goes in the left column iff the index is even. */
  function IsLeft(index: nat): bool {
    index % 2 == 0
  }

  /** The columns alternate: the first item is on the left and consecutive items
      are never in the same column. */
  lemma IsLeftAlternates(index: nat)
    ensures IsLeft(0)
    ensures IsLeft(index + 1) == !IsLeft(index)
  {
  }

  class CatalogScreen {
    var products: seq<CatalogProduct>
    var filteredProducts: seq<CatalogProduct>
    var favorites: map<string, bool>
    var searchQuery: string
    var viewMode: ViewMode
    var loading: bool

    ghost predicate Valid()
      reads this
    {
      filteredProducts == FilterProducts(products, searchQuery)
    }

    constructor ()
      ensures Valid()
      ensures products == [] && favorites == map[] && searchQuery == "" && viewMode == Grid && loading
    {
      products := [];
      favorites := map[];
      searchQuery := "";
      viewMode := Grid;
      loading := true;
      filteredProducts := [];
    }

    /** `loadProducts` settled: a reply replaces the products (missing list: none);
        a failure keeps them. */
    method FinishLoad(reply: Result<ProductsReply, JsError>)
      requires Valid()
      modifies this`products, this`filteredProducts, this`loading
      ensures Valid() && !loading
      ensures reply.Ok? ==> products == ProductsOrEmpty(reply.value)
      ensures reply.Err? ==> products == old(products)
    {
      if reply.Ok? {
        products := ProductsOrEmpty(reply.value);
        filteredProducts := FilterProducts(products, searchQuery);
      }
      loading := false;
    }

    method SetSearchQuery(query: string)
      requires Valid()
      modifies this`searchQuery, this`filteredProducts
      ensures Valid() && searchQuery == query
    {
      searchQuery := query;
      filteredProducts := FilterProducts(products, searchQuery);
    }

    /** `clearSearch`. */
    method ClearSearch()
      requires Valid()
      modifies this`searchQuery, this`filteredProducts
      ensures Valid() && searchQuery == "" && filteredProducts == products
    {
      SetSearchQuery("");
      FilterProductsSpec(products, "");
    }

    /** `isFavorite`: an id never toggled reads as not favourite. */
    function IsFavorite(id: string): bool
      reads this
    {
      id in favorites && favorites[id]
    }

    /** `toggleFavorite`: that id flips, every other id keeps its value. */
    method ToggleFavorite(id: string)
      modifies this`favorites
      ensures favorites == Toggle(old(favorites), id)
      ensures IsFavorite(id) == !old(IsFavorite(id))
      ensures forall other :: other != id ==> IsFavorite(other) == old(IsFavorite(other))
    {
      favorites := Toggle(favorites, id);
    }

    /** The view-mode button. */
    method ToggleViewMode()
      modifies this`viewMode
      ensures viewMode == Flip(old(viewMode))
    {
      viewMode := Flip(viewMode);
    }
  }
}
