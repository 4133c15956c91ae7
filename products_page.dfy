/**
 * The category products page: a filter record of twelve list-valued keys and
 * free scalar keys (sortBy, sortOrder), seeded from the `category` URL
 * parameter; the query object handed to the product store; and the local
 * category prefilter of the loaded product list.
 */
module ProductsPage {
  import opened Wrappers
  import opened Catalog
  import opened JsArrays

  /** The keys of the filter record whose values are lists. */
  datatype ListKey =
    | Category | SubCategory | Color | Size | NeckType | SleeveType
    | Gender | Fabric | Fit | Occasion | CustomerRating | PriceRange

  /** The property name of a list key in the filter record. */
  function KeyName(k: ListKey): string {
    match k
    case Category => "category"
    case SubCategory => "subCategory"
    case Color => "color"
    case Size => "size"
    case NeckType => "neckType"
    case SleeveType => "sleeveType"
    case Gender => "gender"
    case Fabric => "fabric"
    case Fit => "fit"
    case Occasion => "occasion"
    case CustomerRating => "customerRating"
    case PriceRange => "priceRange"
  }

  const AllListKeys: set<ListKey> :=
    {Category, SubCategory, Color, Size, NeckType, SleeveType,
     Gender, Fabric, Fit, Occasion, CustomerRating, PriceRange}

  /** AllListKeys leaves none out. */
  lemma AllListKeysListed()
    ensures forall k: ListKey :: k in AllListKeys
  {
    forall k: ListKey ensures k in AllListKeys {
      match k {
        case Category => case SubCategory => case Color => case Size =>
        case NeckType => case SleeveType => case Gender => case Fabric =>
        case Fit => case Occasion => case CustomerRating => case PriceRange =>
      }
    }
  }

  /** The property names of the list keys. */
  const ListKeyNames: set<string> :=
    {"category", "subCategory", "color", "size", "neckType", "sleeveType",
     "gender", "fabric", "fit", "occasion", "customerRating", "priceRange"}

  /**
   * The key tests of handleFilterChange, in their order: the nine attribute
   * lists, then priceRange and customerRating, then category. Any other key
   * names a scalar entry.
   */
  function ListKeyOf(key: string): (r: Option<ListKey>)
    ensures r.Some? ==> KeyName(r.value) == key
    ensures r.None? <==> key !in ListKeyNames
  {
    if key == "size" then Some(Size)
    else if key == "sleeveType" then Some(SleeveType)
    else if key == "subCategory" then Some(SubCategory)
    else if key == "neckType" then Some(NeckType)
    else if key == "fabric" then Some(Fabric)
    else if key == "fit" then Some(Fit)
    else if key == "gender" then Some(Gender)
    else if key == "occasion" then Some(Occasion)
    else if key == "color" then Some(Color)
    else if key == "priceRange" then Some(PriceRange)
    else if key == "customerRating" then Some(CustomerRating)
    else if key == "category" then Some(Category)
    else None
  }

  /** sortBy and sortOrder are scalar keys. */
  lemma SortKeysAreScalar()
    ensures "sortBy" !in ListKeyNames && "sortOrder" !in ListKeyNames
  {
  }

  /** Page size sent with every query. */
  const PerPage := 30

  /** The sort values the sort drawer's radio buttons supply. */
  const SortValues: set<string> := {"priceHighToLow", "priceLowToHigh"}

  type Lists = map<ListKey, seq<string>>

  predicate Complete(lists: Lists) {
    forall k: ListKey :: k in lists
  }

  /**
   * The initial category list: the URL parameter split on ",", or [] when the
   * parameter is absent or empty (an empty string is falsy).
   */
  function InitialCategory(categoriesParam: Option<string>): (r: seq<string>)
    ensures categoriesParam.None? || categoriesParam == Some("") ==> r == []
    ensures categoriesParam.Some? && categoriesParam.value != "" ==>
              |r| >= 1 && Join(r, ',') == categoriesParam.value &&
              forall i :: 0 <= i < |r| ==> ',' !in r[i]
  {
    if categoriesParam.Some? && categoriesParam.value != "" then
      JoinSplit(categoriesParam.value, ',');
      Split(categoriesParam.value, ',')
    else []
  }

  /** The scalar entries of a fresh filter record. */
  const InitialScalars: map<string, string> := map["sortBy" := "", "sortOrder" := "desc"]

  /**
   * How handleFilterChange changes a list: a value whose index is -1 is
   * appended; otherwise `splice(index, 1)` removes its first occurrence and
   * everything else keeps its place.
   */
  function ToggleFirst(s: seq<string>, v: string): (r: seq<string>)
    ensures v !in s ==> r == s + [v]
    ensures v in s ==> |r| == |s| - 1
  {
    var index := IndexOf(s, v);
    if index == -1 then s + [v] else s[..index] + s[index + 1..]
  }

  /**
   * `splice(index, 1)` at the first occurrence: what precedes it is kept as it
   * was, and what follows it moves up by one place.
   */
  lemma ToggleFirstSplicesFirst(s: seq<string>, v: string)
    requires v in s
    ensures var i := IndexOf(s, v);
            var r := ToggleFirst(s, v);
            r[..i] == s[..i] && r[i..] == s[i + 1..] && v !in r[..i]
  {
  }

  /**
   * Removing a present value takes away exactly one copy of it and keeps the
   * order of everything else.
   */
  lemma ToggleFirstRemovesOneCopy(s: seq<string>, v: string)
    requires v in s
    ensures multiset(ToggleFirst(s, v)) == multiset(s) - multiset{v}
    ensures Subsequence(ToggleFirst(s, v), s)
  {
    var i := IndexOf(s, v);
    assert ToggleFirst(s, v) == s[..i] + s[i + 1..];
    RemoveAtMultiset(s, i);
    SubsequenceSkipAt(s, i);
  }

  /** A list without duplicates stays without duplicates. */
  lemma ToggleFirstKeepsNoDup(s: seq<string>, v: string)
    requires NoDup(s)
    ensures NoDup(ToggleFirst(s, v))
  {
    if v in s {
      var i := IndexOf(s, v);
      assert s == s[..i] + [v] + s[i + 1..];
      NoDupWithoutOne(s[..i], v, s[i + 1..]);
    } else {
      NoDupAppendFresh(s, v);
    }
  }

  /** Checking an unchecked box and then unchecking it restores the list. */
  lemma ToggleFirstTwiceAbsent(s: seq<string>, v: string)
    requires v !in s
    ensures ToggleFirst(ToggleFirst(s, v), v) == s
  {
    assert s + [v] == s + [v] + [];
    IndexOfAfterPrefix(s, v, []);
  }

  /**
   * A category repeated in the URL parameter keeps one copy after a single
   * call of the handler with that category. No control of the page calls the
   * handler with the category key, so this is reachable only through the
   * handler itself.
   */
  lemma RepeatedCategoryKeepsOne(c: string)
    requires c != "" && ',' !in c
    ensures InitialCategory(Some(c + [','] + c)) == [c, c]
    ensures ToggleFirst(InitialCategory(Some(c + [','] + c)), c) == [c]
  {
    var xs := [c, c];
    assert xs[1..] == [c];
    assert Join(xs, ',') == c + [','] + c;
    SplitJoin(xs, ',');
  }

  /** The key tests recognise each list key's own property name. */
  lemma KeyNameRecognised()
    ensures forall k :: ListKeyOf(KeyName(k)) == Some(k)
  {
    forall k: ListKey ensures ListKeyOf(KeyName(k)) == Some(k) {
      match k {
        case Category => case SubCategory => case Color => case Size =>
        case NeckType => case SleeveType => case Gender => case Fabric =>
        case Fit => case Occasion => case CustomerRating => case PriceRange =>
      }
    }
  }

  /**
   * The query object of applyFilters, `{...filters, page, perPage}`: the list
   * entries, the scalar entries, and the page and page size, which win over a
   * scalar entry of the same name.
   */
  datatype ProductQuery = ProductQuery(
    lists: Lists, scalars: map<string, string>, page: int, perPage: int)

  function ApplyFilters(lists: Lists, scalars: map<string, string>, page: int): (q: ProductQuery)
    ensures q.lists == lists && q.page == page && q.perPage == PerPage
    ensures q.scalars.Keys == scalars.Keys - {"page", "perPage"}
    ensures forall key :: key in q.scalars ==> q.scalars[key] == scalars[key]
  {
    ProductQuery(lists, scalars - {"page", "perPage"}, page, PerPage)
  }

  /**
   * The category prefilter: without a URL parameter the whole product list is
   * shown; with one, exactly the products whose category is selected, in
   * their original order and with their multiplicities.
   */
  function DisplayedData(categoriesParam: Option<string>, allProducts: seq<Product>, category: seq<string>): (r: seq<Product>)
    ensures categoriesParam.None? ==> r == allProducts
    ensures categoriesParam.Some? ==>
              Subsequence(r, allProducts) &&
              forall p :: multiset(r)[p] == if p.category in category then multiset(allProducts)[p] else 0
  {
    if categoriesParam.None? then allProducts
    else Filter(allProducts, (item: Product) => item.category in category)
  }

  /**
   * A present but empty `category` parameter selects no category, so the
   * prefilter shows no product at all.
   */
  lemma EmptyCategoryParamShowsNothing(allProducts: seq<Product>)
    ensures DisplayedData(Some(""), allProducts, InitialCategory(Some(""))) == []
  {
    var r := DisplayedData(Some(""), allProducts, InitialCategory(Some("")));
    assert multiset(r) == multiset{};
  }

  /** A parameter naming one category selects exactly that category. */
  lemma SingleCategory(c: string)
    requires c != "" && ',' !in c
    ensures InitialCategory(Some(c)) == [c]
  {
    SplitJoin([c], ',');
  }

  /** With a category parameter, a single product is shown exactly when its category is selected. */
  lemma DisplayedOne(categoriesParam: Option<string>, p: Product, category: seq<string>)
    requires categoriesParam.Some?
    ensures DisplayedData(categoriesParam, [p], category) == if p.category in category then [p] else []
  {
    var r := DisplayedData(categoriesParam, [p], category);
    if p.category in category {
      assert multiset(r) == multiset{p};
      assert r[0] in multiset(r);
      assert r == [r[0]];
    } else {
      assert multiset(r) == multiset{};
    }
  }

  /**
   * The category list is seeded from the URL only when the page mounts. After
   * the parameter changes from "pants" to "shirts" on a mounted page, a shirt
   * is filtered against the old list and is not shown, though a fresh mount
   * with "shirts" would show it.
   */
  lemma StaleCategoryAfterParamChange()
    ensures var shirt := Product("1", "shirts");
            DisplayedData(Some("shirts"), [shirt], InitialCategory(Some("pants"))) == [] &&
            DisplayedData(Some("shirts"), [shirt], InitialCategory(Some("shirts"))) == [shirt]
  {
    SingleCategory("pants");
    SingleCategory("shirts");
    var shirt := Product("1", "shirts");
    DisplayedOne(Some("shirts"), shirt, ["pants"]);
    DisplayedOne(Some("shirts"), shirt, ["shirts"]);
  }

  /** What the page renders. */
  datatype ProductsView = Loading | Listing(cards: seq<Product>, noProductsFound: bool)

  /**
   * The loader while the store is loading; otherwise one card per displayed
   * product, with "No products found!" exactly when there are none.
   */
  function RenderProducts(isLoading: bool, data: seq<Product>): (v: ProductsView)
    ensures v == Loading <==> isLoading
    ensures v.Listing? ==> v.cards == data && (v.noProductsFound <==> data == [])
  {
    if isLoading then Loading else Listing(data, |data| == 0)
  }

  /** The state of one mounted products page. */
  class ProductsPage {
    var categoriesParam: Option<string>
    var lists: Lists
    var scalars: map<string, string>
    var page: int
    var data: seq<Product>

    /** The record's list entries are all present and no scalar entry shadows one. */
    ghost predicate Valid()
      reads this
    {
      Complete(lists) && scalars.Keys !! ListKeyNames
    }

    /** What the live controls can reach: only sortBy is ever overwritten, with a radio value. */
    ghost predicate LiveState()
      reads this
    {
      Valid() && scalars.Keys == {"sortBy", "sortOrder"} &&
      (scalars["sortBy"] == "" || scalars["sortBy"] in SortValues) &&
      scalars["sortOrder"] == "desc" && page == 1
    }

    constructor (categoriesParam: Option<string>)
      ensures Valid() && LiveState()
      ensures this.categoriesParam == categoriesParam
      ensures lists[Category] == InitialCategory(categoriesParam)
      ensures forall k :: k != Category ==> lists[k] == []
      ensures scalars == InitialScalars && page == 1 && data == []
    {
      this.categoriesParam := categoriesParam;
      AllListKeysListed();
      SortKeysAreScalar();
      lists := (map k | k in AllListKeys :: [])[Category := InitialCategory(categoriesParam)];
      scalars := InitialScalars;
      page := 1;
      data := [];
    }

    /**
     * handleFilterChange: a list key toggles value in that list (append when
     * indexOf is -1, otherwise splice out the first copy); any other key is
     * overwritten with value. Every call returns to page 1.
     */
    method HandleFilterChange(key: string, value: string)
      requires Valid()
      modifies this`lists, this`scalars, this`page
      ensures Valid() && page == 1
      ensures ListKeyOf(key).Some? ==>
                var k := ListKeyOf(key).value;
                lists == old(lists)[k := ToggleFirst(old(lists)[k], value)] && scalars == old(scalars)
      ensures ListKeyOf(key).None? ==> lists == old(lists) && scalars == old(scalars)[key := value]
      ensures old(LiveState()) && (ListKeyOf(key).Some? || (key == "sortBy" && value in SortValues)) ==> LiveState()
    {
      SortKeysAreScalar();
      var listKey := ListKeyOf(key);
      if listKey.Some? {
        var k := listKey.value;
        var list := lists[k];
        var index := FindIndex(list, value);
        if index == -1 {
          list := list + [value];
        } else {
          list := list[..index] + list[index + 1..];
        }
        assert list == ToggleFirst(lists[k], value);
        lists := lists[k := list];
      } else {
        scalars := scalars[key := value];
      }
      page := 1;
    }

    /**
     * The query object applyFilters dispatches from the current state. The
     * page size is always 30, and since every state change resets the page,
     * every query the live controls can lead to asks for page 1.
     */
    method CurrentQuery() returns (q: ProductQuery)
      ensures q == ApplyFilters(lists, scalars, page)
      ensures q.perPage == PerPage
      ensures LiveState() ==> q.page == 1 && q.scalars == scalars
    {
      q := ApplyFilters(lists, scalars, page);
    }

    /**
     * A change of the `category` URL parameter while the page stays mounted:
     * the parameter is read afresh, but the filter record, and with it the
     * category list, keeps its value (StaleCategoryAfterParamChange).
     */
    method ChangeCategoryParam(param: Option<string>)
      modifies this`categoriesParam
      ensures categoriesParam == param
      ensures old(Valid()) ==> Valid()
      ensures old(LiveState()) ==> LiveState()
    {
      categoriesParam := param;
    }

    /** The prefilter effect: recompute the displayed products from the store's list. */
    method RefreshData(allProducts: seq<Product>)
      requires Valid()
      modifies this`data
      ensures data == DisplayedData(categoriesParam, allProducts, lists[Category])
    {
      if categoriesParam.None? {
        data := allProducts;
      } else {
        var selected := lists[Category];
        data := Filter(allProducts, (item: Product) => item.category in selected);
      }
    }
  }
}
