/** The brand list screen: two lists fetched from the server, the category gate
    applied to them, the search filter over all brands and the tab that chooses
    which list is shown. */
module BrandSelection {
  import opened Wrappers
  import opened Collections
  import opened Text
  import opened Api

  datatype Brand = Brand(id: string, name: string)

  /** The part of a `/brands` reply the screen reads: the `brands` field, which may
      be missing. */
  datatype BrandsReply = BrandsReply(brands: Option<seq<Brand>>)

  datatype Tab = All | Featured

  /** The search effect: the whole list for a blank query, else the brands whose
      name contains the query, compared lower-cased, the query untrimmed. */
  function FilterBrands(all: seq<Brand>, query: string): (r: seq<Brand>)
    ensures |r| <= |all|
  {
    if Blank(query) then all
    else Filter(all, (b: Brand) => IncludesIgnoringCase(b.name, query))
  }

  /** A blank query shows every brand; otherwise exactly the brands whose name
      contains the query are shown, each as often as it occurs, in their order. */
  lemma FilterBrandsSpec(all: seq<Brand>, query: string)
    ensures var r := FilterBrands(all, query);
      && (Blank(query) ==> r == all)
      && (!Blank(query) ==>
            && (forall i :: 0 <= i < |r| ==> IncludesIgnoringCase(r[i].name, query))
            && (forall i :: 0 <= i < |all| && IncludesIgnoringCase(all[i].name, query) ==> all[i] in r)
            && (forall b :: multiset(r)[b] == if IncludesIgnoringCase(b.name, query) then multiset(all)[b] else 0))
      && IsSubsequence(r, all)
  {
    if Blank(query) {
      IsSubsequenceRefl(all);
    } else {
      FilterComplete(all, (b: Brand) => IncludesIgnoringCase(b.name, query));
      FilterCount(all, (b: Brand) => IncludesIgnoringCase(b.name, query));
    }
  }

  /** Filtering what the filter returned with the same query changes nothing. */
  lemma FilterBrandsIdempotent(all: seq<Brand>, query: string)
    ensures FilterBrands(FilterBrands(all, query), query) == FilterBrands(all, query)
  {
    if !Blank(query) {
      var r := FilterBrands(all, query);
      FilterKeepsAll(r, (b: Brand) => IncludesIgnoringCase(b.name, query));
    }
  }

  /** `reply.brands || []`. */
  function BrandsOrEmpty(reply: BrandsReply): (r: seq<Brand>)
    ensures reply.brands.Some? ==> r == reply.brands.value
    ensures reply.brands.None? ==> r == []
  {
    reply.brands.GetOr([])
  }

  /** The category gate: a category given, non-empty and other than `handbags`. */
  predicate OtherCategory(category: Option<string>) {
    category.Some? && category.value != "" && category.value != "handbags"
  }

  /** `loadBrands` after both requests succeed: each list is the reply's brands or
      empty, and both are emptied for a category other than handbags. */
  method LoadedLists(featuredReply: BrandsReply, allReply: BrandsReply, category: Option<string>)
    returns (featured: seq<Brand>, all: seq<Brand>)
    ensures OtherCategory(category) ==> featured == [] && all == []
    ensures !OtherCategory(category) ==>
      featured == BrandsOrEmpty(featuredReply) && all == BrandsOrEmpty(allReply)
  {
    featured := BrandsOrEmpty(featuredReply);
    all := BrandsOrEmpty(allReply);
    if category.Some? && category.value != "" && category.value != "handbags" {
      featured := [];
      all := [];
    }
  }

  class BrandScreen {
    const category: Option<string>
    var featuredBrands: seq<Brand>
    var allBrands: seq<Brand>
    var filteredBrands: seq<Brand>
    var searchQuery: string
    var activeTab: Tab
    var loading: bool

    /** The search effect has run: the filtered list matches the query. */
    ghost predicate Valid()
      reads this
    {
      filteredBrands == FilterBrands(allBrands, searchQuery)
    }

    constructor (categoryParam: Option<string>)
      ensures Valid()
      ensures category == categoryParam
      ensures featuredBrands == [] && allBrands == [] && filteredBrands == []
      ensures searchQuery == "" && activeTab == All && loading
    {
      category := categoryParam;
      featuredBrands, allBrands, filteredBrands := [], [], [];
      searchQuery := "";
      activeTab := All;
      loading := true;
    }

    /** Both requests settled. On success the lists are replaced; on failure they
        are kept. Loading ends either way, and the search effect runs again. */
    method FinishLoad(replies: Result<(BrandsReply, BrandsReply), JsError>)
      requires Valid()
      modifies this`featuredBrands, this`allBrands, this`filteredBrands, this`loading
      ensures Valid() && !loading
      ensures replies.Err? ==> featuredBrands == old(featuredBrands) && allBrands == old(allBrands)
      ensures replies.Ok? && OtherCategory(category) ==> featuredBrands == [] && allBrands == []
      ensures replies.Ok? && !OtherCategory(category) ==>
        featuredBrands == BrandsOrEmpty(replies.value.0) && allBrands == BrandsOrEmpty(replies.value.1)
    {
      if replies.Ok? {
        var featured, all := LoadedLists(replies.value.0, replies.value.1, category);
        featuredBrands, allBrands := featured, all;
        filteredBrands := FilterBrands(allBrands, searchQuery);
      }
      loading := false;
    }

    /** Typing in the search box; the effect recomputes the filtered list. */
    method SetSearchQuery(query: string)
      requires Valid()
      modifies this`searchQuery, this`filteredBrands
      ensures Valid() && searchQuery == query
    {
      searchQuery := query;
      filteredBrands := FilterBrands(allBrands, searchQuery);
    }

    /** `clearSearch`: every brand is listed again. */
    method ClearSearch()
      requires Valid()
      modifies this`searchQuery, this`filteredBrands
      ensures Valid() && searchQuery == "" && filteredBrands == allBrands
    {
      SetSearchQuery("");
      FilterBrandsSpec(allBrands, "");
    }

    method SelectTab(tab: Tab)
      modifies this`activeTab
      ensures activeTab == tab
    {
      activeTab := tab;
    }

    /** `brandsToShow`: the featured list on the featured tab, else the search result. */
    function BrandsToShow(): (r: seq<Brand>)
      requires Valid()
      reads this
      ensures activeTab == Featured ==> r == featuredBrands
      ensures activeTab == All ==> r == FilterBrands(allBrands, searchQuery) && IsSubsequence(r, allBrands)
      ensures activeTab == All && Blank(searchQuery) ==> r == allBrands
    {
      FilterBrandsSpec(allBrands, searchQuery);
      if activeTab == Featured then featuredBrands else filteredBrands
    }
  }
}
