/** The product picker: every configured product, narrowed by a search over name
    and brand, and the number of photos each one needs. */
module ProductSelection {
  import opened Wrappers
  import opened Collections
  import opened Text
  import opened ProductConfig

  /** The search test of `searchProducts`. */
  predicate SearchMatches(p: Product, query: string) {
    IncludesIgnoringCase(p.name, query) || IncludesIgnoringCase(p.brand, query)
  }

  /** The products whose name or brand contains the query, in catalogue order. */
  function MatchingProducts(query: string): (r: seq<Product>)
    ensures forall i :: 0 <= i < |r| ==> SearchMatches(r[i], query)
    ensures forall p :: p in GetAllProducts() && SearchMatches(p, query) ==> p in r
    ensures IsSubsequence(r, GetAllProducts())
  {
    var all, test := GetAllProducts(), (p: Product) => SearchMatches(p, query);
    FilterComplete(all, test);
    Filter(all, test)
  }

  /** `searchProducts(query)`: every product for a blank query, otherwise exactly
      the products whose name or brand contains the query, in catalogue order. */
  function SearchProducts(query: string): (r: seq<Product>)
    ensures Blank(query) ==> r == GetAllProducts()
    ensures !Blank(query) ==>
      && (forall i :: 0 <= i < |r| ==> SearchMatches(r[i], query))
      && (forall p :: p in GetAllProducts() && SearchMatches(p, query) ==> p in r)
    ensures IsSubsequence(r, GetAllProducts())
  {
    if Blank(query) then
      IsSubsequenceRefl(GetAllProducts());
      GetAllProducts()
    else
      MatchingProducts(query)
  }

  /** Whatever the query, every listed product is one the capture screen can open. */
  lemma SearchResultsAreKnown(query: string)
    ensures forall i :: 0 <= i < |SearchProducts(query)| ==> IsKnownProduct(SearchProducts(query)[i].id)
  {
    var r := SearchProducts(query);
    SubsequenceMembers(r, GetAllProducts());
    forall i | 0 <= i < |r| ensures IsKnownProduct(r[i].id) {
      AllProductsKnown(r[i]);
    }
  }

  /** The "photos required" count: the length of the list, or 0 when there is none. */
  function PhotoCount(requiredPhotos: Option<seq<PhotoSlot>>): (n: nat)
    ensures requiredPhotos.Some? ==> n == |requiredPhotos.value|
    ensures requiredPhotos.None? ==> n == 0
  {
    if requiredPhotos.Some? then |requiredPhotos.value| else 0
  }

  /** Every listed product shows a positive count, the number of its slots. */
  lemma CatalogueCountsPositive(p: Product)
    requires p in GetAllProducts()
    ensures PhotoCount(Some(p.requiredPhotos)) == |p.requiredPhotos| > 0
  {
    var all := GetAllProducts();
    var j :| 0 <= j < |all| && all[j] == p;
    CatalogueWellFormed();
    assert p.requiredPhotos == ProductConfigs[j].1.requiredPhotos;
  }

  class SelectionScreen {
    const serviceType: string
    var searchQuery: string
    var filteredModels: seq<Product>

    ghost predicate Valid()
      reads this
    {
      filteredModels == SearchProducts(searchQuery)
    }

    constructor (serviceTypeParam: string)
      ensures Valid()
      ensures serviceType == serviceTypeParam && searchQuery == "" && filteredModels == GetAllProducts()
    {
      serviceType := serviceTypeParam;
      searchQuery := "";
      filteredModels := GetAllProducts();
    }

    /** `handleSearch`: query and list are set together. */
    method HandleSearch(query: string)
      modifies this`searchQuery, this`filteredModels
      ensures Valid() && searchQuery == query
    {
      searchQuery := query;
      filteredModels := SearchProducts(query);
    }
  }
}
