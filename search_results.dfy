/**
 * The search-results page: twelve facet lists, a sort key and a page cursor,
 * turned into the query string of the product-search request, and the reducer
 * that folds the request's outcome back into the page state.
 */
module SearchResults {
  import opened Wrappers
  import opened Catalog
  import opened JsArrays

  /** The twelve keys of the page's `filters` record. */
  datatype Facet =
    | Colors | Sizes | BrandingDatas | NeckTypes | SleeveTypes | Fabrics
    | Occasions | Fits | SubCategorys | Genders | CustomerRatings | PriceRanges

  /** The facets whose vocabulary is cut to six entries behind a See More button. */
  const SeeMoreFacets: set<Facet> := {Sizes, SubCategorys, Colors, NeckTypes}

  /** The selected values of every facet, in the order they were checked. */
  type Filters = map<Facet, seq<string>>

  predicate Complete(filters: Filters) {
    forall f: Facet :: f in filters
  }

  /** The twelve facets, listed. */
  const AllFacets: set<Facet> :=
    {Colors, Sizes, BrandingDatas, NeckTypes, SleeveTypes, Fabrics,
     Occasions, Fits, SubCategorys, Genders, CustomerRatings, PriceRanges}

  /** AllFacets leaves none out. */
  lemma AllFacetsListed()
    ensures forall f: Facet :: f in AllFacets
  {
    forall f: Facet ensures f in AllFacets {
      match f {
        case Colors => case Sizes => case BrandingDatas => case NeckTypes =>
        case SleeveTypes => case Fabrics => case Occasions => case Fits =>
        case SubCategorys => case Genders => case CustomerRatings => case PriceRanges =>
      }
    }
  }

  /** Page size sent with every request. */
  const Limit := 6

  /** Message stored when the server answers with `success: false`. */
  const FailedMessage := "Failed to fetch products"

  /** The values the sort select offers; "" is its "Sort By" placeholder. */
  const SortOptions: seq<string> :=
    ["", "price-asc", "price-desc", "rating-asc", "rating-desc", "date-asc", "date-desc"]

  /** Every facet starts with nothing selected. */
  function InitialFilters(): (m: Filters)
    ensures Complete(m)
    ensures forall f :: m[f] == []
  {
    AllFacetsListed();
    map f | f in AllFacets :: []
  }

  /**
   * How a checkbox click changes one facet list: a value that is absent is
   * appended; a value that is present is removed everywhere it occurs, the
   * other values keeping their order.
   */
  function ToggleAll(s: seq<string>, v: string): (r: seq<string>)
    ensures v !in s ==> r == s + [v]
    ensures v in s ==> v !in r && Subsequence(r, s) && multiset(r) == multiset(s)[v := 0]
  {
    if v in s then Filter(s, y => y != v) else s + [v]
  }

  /** A facet list without duplicates stays without duplicates. */
  lemma ToggleAllKeepsNoDup(s: seq<string>, v: string)
    requires NoDup(s)
    ensures NoDup(ToggleAll(s, v))
  {
    if v in s {
      FilterKeepsNoDup(s, y => y != v);
    }
  }

  /** Checking an unchecked box and then unchecking it restores the facet list. */
  lemma ToggleAllTwiceAbsent(s: seq<string>, v: string)
    requires v !in s
    ensures ToggleAll(ToggleAll(s, v), v) == s
  {
    var keep := (y: string) => y != v;
    FilterAppend(s, [v], keep);
    FilterKeepsAll(s, keep);
  }

  /** The request parameters of one search (the `params` of the product-search GET). */
  datatype SearchQuery = SearchQuery(
    query: string, page: int, limit: int,
    color: string, neckType: string, sleeveType: string, size: string, fit: string,
    gender: string, occasion: string, subCategory: string, fabric: string,
    brandingData: string, customerRating: string, priceRange: string,
    sortBy: string)

  /** The request parameter that carries facet f. */
  function Param(q: SearchQuery, f: Facet): string {
    match f
    case Colors => q.color
    case Sizes => q.size
    case BrandingDatas => q.brandingData
    case NeckTypes => q.neckType
    case SleeveTypes => q.sleeveType
    case Fabrics => q.fabric
    case Occasions => q.occasion
    case Fits => q.fit
    case SubCategorys => q.subCategory
    case Genders => q.gender
    case CustomerRatings => q.customerRating
    case PriceRanges => q.priceRange
  }

  /**
   * The parameters fetchProducts sends: every facet list comma-joined into its
   * own parameter, the fixed page size, and the search text, page and sort key
   * as they are.
   */
  function BuildQuery(query: string, currentPage: int, filters: Filters, sortBy: string): (q: SearchQuery)
    requires Complete(filters)
    ensures forall f :: Param(q, f) == Join(filters[f], ',')
    ensures q.query == query && q.page == currentPage && q.limit == Limit && q.sortBy == sortBy
  {
    SearchQuery(
      query, currentPage, Limit,
      Join(filters[Colors], ','), Join(filters[NeckTypes], ','), Join(filters[SleeveTypes], ','),
      Join(filters[Sizes], ','), Join(filters[Fits], ','), Join(filters[Genders], ','),
      Join(filters[Occasions], ','), Join(filters[SubCategorys], ','), Join(filters[Fabrics], ','),
      Join(filters[BrandingDatas], ','), Join(filters[CustomerRatings], ','),
      Join(filters[PriceRanges], ','),
      sortBy)
  }

  /**
   * A facet parameter is "" (no constraint) exactly when nothing, or only the
   * empty value, is selected; otherwise splitting it on "," gives back the
   * selection, as long as no selected value contains a comma.
   */
  lemma {:induction false} FacetParamRoundTrip(query: string, currentPage: int, filters: Filters, sortBy: string, f: Facet)
    requires Complete(filters)
    requires forall i :: 0 <= i < |filters[f]| ==> ',' !in filters[f][i]
    ensures Param(BuildQuery(query, currentPage, filters, sortBy), f) == "" <==> filters[f] == [] || filters[f] == [""]
    ensures filters[f] != [] ==> Split(Param(BuildQuery(query, currentPage, filters, sortBy), f), ',') == filters[f]
  {
    JoinEmpty(filters[f], ',');
    if filters[f] != [] {
      SplitJoin(filters[f], ',');
    }
  }

  /** A toggle of facet f leaves every other request parameter as it was. */
  lemma ToggleChangesOneParam(query: string, currentPage: int, filters: Filters, sortBy: string, f: Facet, v: string)
    requires Complete(filters)
    ensures var before := BuildQuery(query, currentPage, filters, sortBy);
            var after := BuildQuery(query, currentPage, filters[f := ToggleAll(filters[f], v)], sortBy);
            after.query == before.query && after.page == before.page && after.limit == before.limit &&
            after.sortBy == before.sortBy &&
            forall g :: g != f ==> Param(after, g) == Param(before, g)
  {
  }

  /** What the search endpoint (or the transport) hands back to fetchProducts. */
  datatype FetchOutcome =
    | Responded(success: bool, products: seq<Product>, totalPages: int)
    | Thrown(message: string)

  /** The numbers on the page buttons: 1 to totalPages (none when totalPages is not positive). */
  function PageButtons(totalPages: int): (r: seq<int>)
    ensures |r| == if totalPages < 0 then 0 else totalPages
    ensures forall i :: 0 <= i < |r| ==> r[i] == i + 1
  {
    seq(if totalPages < 0 then 0 else totalPages, i => i + 1)
  }

  /** There is a button for page k exactly when 1 <= k <= totalPages. */
  lemma PageButtonsExactly(totalPages: int, k: int)
    ensures k in PageButtons(totalPages) <==> 1 <= k <= totalPages
  {
    var r := PageButtons(totalPages);
    if 1 <= k <= totalPages {
      assert r[k - 1] == k;
    }
  }

  /** What the page renders. */
  datatype View =
    | Loader
    | ErrorText(message: string)
    | Content(products: seq<Product>, pageButtons: seq<int>)

  /**
   * Render precedence: the loader while loading, then an error if one is set
   * (an empty message is falsy and does not count), otherwise the product grid
   * with its page buttons.
   */
  function Render(isLoading: bool, error: Option<string>, filteredData: seq<Product>, totalPages: int): (v: View)
    ensures v == Loader <==> isLoading
    ensures v.ErrorText? <==> !isLoading && error.Some? && error.value != ""
    ensures v.ErrorText? ==> v.message == error.value
    ensures v.Content? ==> v.products == filteredData && v.pageButtons == PageButtons(totalPages)
  {
    if isLoading then Loader
    else if error.Some? && error.value != "" then ErrorText(error.value)
    else Content(filteredData, PageButtons(totalPages))
  }

  /** The state of one mounted search-results page. */
  class SearchPage {
    var query: string
    var filteredData: seq<Product>
    var isLoading: bool
    var error: Option<string>
    var currentPage: int
    var totalPages: int
    var filters: Filters
    var sortBy: string
    var dropdowns: map<Facet, bool>
    var showAllSizes: bool
    var showAllSubCategories: bool
    var showAllColors: bool
    var showAllNeckTypes: bool

    ghost predicate Valid()
      reads this
    {
      Complete(filters) && forall f: Facet :: f in dropdowns
    }

    /**
     * What the live controls can reach: the branding checkboxes are commented
     * out, the sort select offers only SortOptions, page buttons start at 1.
     */
    ghost predicate LiveState()
      reads this
    {
      Valid() && filters[BrandingDatas] == [] && sortBy in SortOptions && currentPage >= 1
    }

    constructor (query: string)
      ensures Valid() && LiveState()
      ensures this.query == query && filteredData == [] && isLoading && error == None
      ensures currentPage == 1 && totalPages == 1 && filters == InitialFilters() && sortBy == ""
      ensures forall f :: !dropdowns[f]
      ensures !showAllSizes && !showAllSubCategories && !showAllColors && !showAllNeckTypes
    {
      this.query := query;
      filteredData := [];
      isLoading := true;
      error := None;
      currentPage := 1;
      totalPages := 1;
      filters := InitialFilters();
      sortBy := "";
      AllFacetsListed();
      dropdowns := map f | f in AllFacets :: false;
      showAllSizes, showAllSubCategories, showAllColors, showAllNeckTypes := false, false, false, false;
    }

    /** handleCheckboxChange: toggles value in one facet; the page cursor is not reset. */
    method HandleCheckboxChange(facet: Facet, value: string)
      requires Valid()
      modifies this`filters
      ensures Valid()
      ensures filters == old(filters)[facet := ToggleAll(old(filters)[facet], value)]
      ensures old(LiveState()) && facet != BrandingDatas ==> LiveState()
    {
      var list := filters[facet];
      if value in list {
        list := Filter(list, item => item != value);
      } else {
        list := list + [value];
      }
      filters := filters[facet := list];
    }

    /** handleSortChange: the selected option becomes the sort key. */
    method HandleSortChange(value: string)
      modifies this`sortBy
      ensures sortBy == value
      ensures old(LiveState()) && value in SortOptions ==> LiveState()
    {
      sortBy := value;
    }

    /** handlePageChange: the page cursor is set directly. */
    method HandlePageChange(page: int)
      modifies this`currentPage
      ensures currentPage == page
      ensures old(LiveState()) && page >= 1 ==> LiveState()
    {
      currentPage := page;
    }

    /** A click on the button at position index of the pager selects page index + 1. */
    method ClickPageButton(index: nat)
      requires index < |PageButtons(totalPages)|
      modifies this`currentPage
      ensures currentPage == PageButtons(totalPages)[index] == index + 1
      ensures 1 <= currentPage <= totalPages
      ensures old(LiveState()) ==> LiveState()
    {
      HandlePageChange(index + 1);
    }

    /** toggleDropdown: flips whether one facet's checkbox list is open. */
    method ToggleDropdown(facet: Facet)
      requires Valid()
      modifies this`dropdowns
      ensures Valid()
      ensures dropdowns == old(dropdowns)[facet := !old(dropdowns)[facet]]
    {
      dropdowns := dropdowns[facet := !dropdowns[facet]];
    }

    /** toggleShowAll: flips the show-all flag of sizes, sub-categories, colours or neck types; other facets have none. */
    method ToggleShowAll(facet: Facet)
      modifies this`showAllSizes, this`showAllSubCategories, this`showAllColors, this`showAllNeckTypes
      ensures showAllSizes == (if facet == Sizes then !old(showAllSizes) else old(showAllSizes))
      ensures showAllSubCategories == (if facet == SubCategorys then !old(showAllSubCategories) else old(showAllSubCategories))
      ensures showAllColors == (if facet == Colors then !old(showAllColors) else old(showAllColors))
      ensures showAllNeckTypes == (if facet == NeckTypes then !old(showAllNeckTypes) else old(showAllNeckTypes))
    {
      match facet {
        case Sizes => showAllSizes := !showAllSizes;
        case SubCategorys => showAllSubCategories := !showAllSubCategories;
        case Colors => showAllColors := !showAllColors;
        case NeckTypes => showAllNeckTypes := !showAllNeckTypes;
        case _ =>
      }
    }

    /**
     * handleFilterSubmit: submitting the filter form resets the page to 1.
     * The extra fetch it also starts is a network call, outside this model.
     */
    method HandleFilterSubmit()
      modifies this`currentPage
      ensures currentPage == 1
      ensures old(LiveState()) ==> LiveState()
    {
      currentPage := 1;
    }

    /**
     * A click on a See More / See Less button, which only the facets in
     * SeeMoreFacets have. The button has no type and sits inside the filter
     * form, so the click flips the facet's show-all flag and also submits the
     * form, which sends the page back to 1.
     */
    method ClickSeeMore(facet: Facet)
      requires facet in SeeMoreFacets
      modifies this`showAllSizes, this`showAllSubCategories, this`showAllColors, this`showAllNeckTypes, this`currentPage
      ensures showAllSizes == (if facet == Sizes then !old(showAllSizes) else old(showAllSizes))
      ensures showAllSubCategories == (if facet == SubCategorys then !old(showAllSubCategories) else old(showAllSubCategories))
      ensures showAllColors == (if facet == Colors then !old(showAllColors) else old(showAllColors))
      ensures showAllNeckTypes == (if facet == NeckTypes then !old(showAllNeckTypes) else old(showAllNeckTypes))
      ensures currentPage == 1
      ensures old(LiveState()) ==> LiveState()
    {
      ToggleShowAll(facet);
      HandleFilterSubmit();
    }

    /**
     * A navigation to another search while the page stays mounted: the route
     * parameter changes, but filters, page, sort key and results keep their
     * values, since the state is seeded only once.
     */
    method Navigate(newQuery: string)
      modifies this`query
      ensures query == newQuery
      ensures old(LiveState()) ==> LiveState()
    {
      query := newQuery;
    }

    /**
     * The parameters fetchProducts sends from the current state. From any
     * state the live controls reach, brandingData is "", the sort key is one
     * of the select's options and the page is at least 1.
     */
    method CurrentQuery() returns (q: SearchQuery)
      requires Valid()
      ensures q == BuildQuery(query, currentPage, filters, sortBy)
      ensures LiveState() ==> q.brandingData == "" && q.sortBy in SortOptions && q.page >= 1
    {
      q := BuildQuery(query, currentPage, filters, sortBy);
      assert Param(q, BrandingDatas) == q.brandingData;
    }

    /**
     * The response handling of fetchProducts: a successful answer replaces the
     * products and page count and leaves any earlier error; `success: false`
     * and a thrown error set the error and leave the products; loading always
     * ends. No path clears an error or turns loading back on.
     */
    method ReceiveOutcome(outcome: FetchOutcome)
      modifies this`filteredData, this`totalPages, this`error, this`isLoading
      ensures !isLoading
      ensures outcome.Responded? && outcome.success ==>
                filteredData == outcome.products && totalPages == outcome.totalPages && error == old(error)
      ensures outcome.Responded? && !outcome.success ==>
                error == Some(FailedMessage) && filteredData == old(filteredData) && totalPages == old(totalPages)
      ensures outcome.Thrown? ==>
                error == Some(outcome.message) && filteredData == old(filteredData) && totalPages == old(totalPages)
      ensures old(error).Some? ==> error.Some?
    {
      match outcome {
        case Responded(success, products, pages) =>
          if success {
            filteredData := products;
            totalPages := pages;
          } else {
            error := Some(FailedMessage);
          }
        case Thrown(message) =>
          error := Some(message);
      }
      isLoading := false;
    }
  }
}
