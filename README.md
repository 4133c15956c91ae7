# Filter state of the storefront listing pages

This project models, in Dafny, the client-side filter state of the two product
listing pages of the storefront frontend:

- **SearchResults** (`frontend/src/pages/SearchResults.jsx`): the search page
  keeps twelve multi-valued filter lists, a sort key and a page number. It sends
  them to the search endpoint as comma-joined strings with a page size of 6. It
  reduces the response into products, page count, error and loading flags, and
  chooses between the loader, the error text and the results with their page
  buttons.
- **ProductsPage** (`frontend/src/pages/ProductsPage.jsx`): the catalogue page
  seeds its category list from the `category` URL parameter. It toggles list
  filters by `indexOf`/`push`/`splice`, overwrites any other key, resets the page
  to 1 on every change, and dispatches the whole filter object with `page` and
  `perPage` = 30. It shows the store's products narrowed to the selected
  categories when a category parameter is present, and "No products found!" when
  nothing is shown.

The modules are:

| module | contents |
|---|---|
| `Wrappers` | `Option` |
| `Catalog` | the product record as far as these pages read it (`_id`, `category`) |
| `JsArrays` | the JavaScript array and string operations the pages rely on: `indexOf`, `filter`, `join(",")`, `split(",")` |
| `Vocabulary` | the six-entry "See More" truncation of a filter vocabulary |
| `SearchResults` | facets, toggles, request parameters, page buttons, the render choice, and the `SearchPage` class holding the component's state |
| `ProductsPage` | list keys, initial category, first-copy toggle, the dispatched query, the displayed data, the render choice, and the `ProductsPage` class holding the component's state |
| `PageComparison` | how the two pages' toggles agree and where they differ |

Each component's state is a class whose fields are the modelled `useState`
slots plus the route parameter (the search term, or the `category` query
parameter). Each
handler is a method that reassigns the fields that handler's setter calls
change. The request and the view are pure functions of those fields. Network
answers come into the model as parameters (`FetchOutcome`, the `allProducts`
sequence), and the requests go out as values (`SearchQuery`, `ProductQuery`).

Behaviour notes. The model follows the code:

- On the search page, toggling a checkbox does **not** reset `currentPage`, so
  the request keeps the old page number with the new filters. The filter form's
  submit handler resets it, and the only controls that submit that form are the
  See More / See Less buttons. They have no `type` and sit inside the form, so
  expanding a facet's list sends the page back to 1 (`ClickSeeMore`).
- The products page seeds its category list from the URL only when it mounts.
  The search page's filters start empty whatever the URL holds. On both pages
  the filter state and the page survive a change of the route parameter
  (`Navigate`, `ChangeCategoryParam`). On the products page this means a new
  category is filtered against the old list (`StaleCategoryAfterParamChange`).
- On the search page, toggling a value that is already present removes **every**
  copy. Toggling it again appends one copy. A double toggle of an absent value
  restores the list (`ToggleAllTwiceAbsent`). A double toggle of a present value
  collapses every copy of it into one copy at the end
  (`SearchToggleTwicePresent`). This restores the list exactly when the value
  occurred once, as the last element (`SearchToggleTwiceRestores`).
- On the products page, a toggle removes only the **first** copy. A repeated
  category in the URL (`?category=A,A`) therefore survives one call of the
  handler with that category (`RepeatedCategoryKeepsOne`). No control on the page
  makes that call, because its "Category" section toggles `subCategory`. On lists without duplicates the two pages'
  toggles agree (`TogglesAgreeWithoutDuplicates`).
- On the products page, `?category=` (present but empty) gives an empty
  category list. JavaScript treats the empty string as false in the
  initialiser, but the prefilter compares it against `null`. So that page
  shows nothing (`EmptyCategoryParamShowsNothing`).
- A search-page error is never cleared, and an empty error message counts as
  no error when rendering.

## Model

| member | source | states |
|---|---|---|
| JsArrays.IndexOf | frontend/src/pages/ProductsPage.jsx:84-85 | the result is -1 exactly when the value is absent; otherwise it is an index holding the value with no earlier copy |
| JsArrays.FindIndex | frontend/src/pages/ProductsPage.jsx:84 | the scanning loop returns the same index as `IndexOf` |
| JsArrays.Filter | frontend/src/pages/SearchResults.jsx:118 | keeps exactly the kept elements, in their original order (a subsequence), each with its original multiplicity |
| JsArrays.FilterAppend | frontend/src/pages/SearchResults.jsx:118 | filtering a concatenation is the concatenation of the filtered parts |
| JsArrays.FilterKeepsNoDup | frontend/src/pages/SearchResults.jsx:118 | filtering a duplicate-free list leaves it duplicate-free |
| JsArrays.Join | frontend/src/pages/SearchResults.jsx:76-87 | `join(",")`: at least the first piece plus one separator per further piece; `JoinEmpty`, `JoinSplit` and `SplitJoin` fix its meaning: empty exactly for `[]` and `[""]`, and inverse to `Split` on separator-free pieces |
| JsArrays.Split | frontend/src/pages/ProductsPage.jsx:21 | always at least one piece, and no piece contains the separator |
| JsArrays.JoinSplit | frontend/src/pages/ProductsPage.jsx:21 | joining the pieces of a split gives back the original string |
| JsArrays.SplitJoin | frontend/src/pages/SearchResults.jsx:76-87 | splitting the join of a non-empty list of separator-free values gives back the list |
| JsArrays.JoinEmpty | frontend/src/pages/SearchResults.jsx:76-87 | a join is empty exactly for the empty list and for the one-element list `[""]` |
| Vocabulary.Visible | frontend/src/pages/SearchResults.jsx:167-170 | the shown entries are a prefix of the vocabulary: all of it when expanded, at most six otherwise, and all of a vocabulary of six or fewer (the same slices appear at ProductsPage.jsx:136-139) |
| SearchResults.InitialFilters | frontend/src/pages/SearchResults.jsx:33-46 | every one of the twelve facets starts with an empty list |
| SearchResults.ToggleAll | frontend/src/pages/SearchResults.jsx:117-121 | an absent value is appended; a present value is removed in every copy, the rest keeping its order and multiplicities |
| SearchResults.ToggleAllKeepsNoDup | frontend/src/pages/SearchResults.jsx:117-121 | toggling keeps a duplicate-free list duplicate-free |
| SearchResults.ToggleAllTwiceAbsent | frontend/src/pages/SearchResults.jsx:117-121 | toggling an absent value twice restores the list |
| SearchResults.BuildQuery | frontend/src/pages/SearchResults.jsx:71-89 | each facet's parameter is its list joined with commas; query, page and sort key pass through; the limit is 6 |
| SearchResults.FacetParamRoundTrip | frontend/src/pages/SearchResults.jsx:76-87 | a facet parameter is empty exactly when the list is empty or `[""]`, and splitting a non-empty list's parameter at commas recovers the list |
| SearchResults.ToggleChangesOneParam | frontend/src/pages/SearchResults.jsx:115-123 | a checkbox toggle changes only the toggled facet's parameter in the next request |
| SearchResults.PageButtons | frontend/src/pages/SearchResults.jsx:531-539 | one button per page, labelled 1..totalPages in order, none for a negative count |
| SearchResults.PageButtonsExactly | frontend/src/pages/SearchResults.jsx:531-539 | a page number has a button exactly when it lies in 1..totalPages |
| SearchResults.Render | frontend/src/pages/SearchResults.jsx:174-178 | the loader exactly while loading; otherwise the error text exactly when the error is a non-empty string; otherwise the products and the page buttons |
| SearchResults.SearchPage.constructor | frontend/src/pages/SearchResults.jsx:27-67 | the initial state: no products, loading, no error, page 1 of 1, all facets empty, no sort key, every dropdown and See More closed |
| SearchResults.SearchPage.HandleCheckboxChange | frontend/src/pages/SearchResults.jsx:115-123 | only the toggled facet's list changes, by `ToggleAll`; the page is not reset; the live-state invariant is kept for every facet except branding, whose checkboxes are commented out (SearchResults.jsx:427-448) |
| SearchResults.SearchPage.HandleSortChange | frontend/src/pages/SearchResults.jsx:125-127 | the sort key becomes the selected value; choosing a listed option keeps the live-state invariant |
| SearchResults.SearchPage.HandlePageChange | frontend/src/pages/SearchResults.jsx:111-113 | the current page becomes the requested one |
| SearchResults.SearchPage.ClickPageButton | frontend/src/pages/SearchResults.jsx:531-539 | clicking the button at index i selects page i+1, which lies in 1..totalPages |
| SearchResults.SearchPage.ToggleDropdown | frontend/src/pages/SearchResults.jsx:139-141 | flips exactly the named facet's dropdown |
| SearchResults.SearchPage.ToggleShowAll | frontend/src/pages/SearchResults.jsx:147-164 | the handler alone: flips the See More flag of sizes, sub-categories, colours or neck types; any other facet changes nothing (the click that calls it is `ClickSeeMore`) |
| SearchResults.SearchPage.HandleFilterSubmit | frontend/src/pages/SearchResults.jsx:129-133 | submitting the filter form sets the page to 1 |
| SearchResults.SearchPage.ClickSeeMore | frontend/src/pages/SearchResults.jsx:218-336 | a See More / See Less click flips that facet's show-all flag and, because the untyped button submits the enclosing form, also sets the page to 1 |
| SearchResults.SearchPage.Navigate | frontend/src/pages/SearchResults.jsx:27-33 | a new route query replaces the search term, while filters, page, sort key and results keep their values |
| SearchResults.SearchPage.CurrentQuery | frontend/src/pages/SearchResults.jsx:71-89 | the request is `BuildQuery` of the current state; from every state the live controls reach, brandingData is empty, the sort key is a listed option and the page is at least 1 |
| SearchResults.SearchPage.ReceiveOutcome | frontend/src/pages/SearchResults.jsx:92-104 | success replaces products and page count; an unsuccessful answer sets "Failed to fetch products"; a thrown error sets its message; loading always ends and an error is never cleared |
| ProductsPage.ListKeyOf | frontend/src/pages/ProductsPage.jsx:73-103 | a key is a list key exactly when it is one of the twelve toggled names, and it maps to the list of that name |
| ProductsPage.KeyNameRecognised | frontend/src/pages/ProductsPage.jsx:73-103 | every list's name is recognised as that list's key |
| ProductsPage.InitialCategory | frontend/src/pages/ProductsPage.jsx:21 | a missing or empty parameter gives no categories; otherwise the comma-separated pieces, which join back to the parameter |
| ProductsPage.ToggleFirst | frontend/src/pages/ProductsPage.jsx:84-89 | an absent value is appended; a present value's removal shortens the list by one |
| ProductsPage.ToggleFirstSplicesFirst | frontend/src/pages/ProductsPage.jsx:84-89 | the removal cuts out the first copy: everything before and after it is unchanged |
| ProductsPage.ToggleFirstRemovesOneCopy | frontend/src/pages/ProductsPage.jsx:88 | removal takes exactly one copy away and keeps the others in order |
| ProductsPage.ToggleFirstKeepsNoDup | frontend/src/pages/ProductsPage.jsx:84-89 | toggling keeps a duplicate-free list duplicate-free |
| ProductsPage.ToggleFirstTwiceAbsent | frontend/src/pages/ProductsPage.jsx:84-89 | toggling an absent value twice restores the list |
| ProductsPage.RepeatedCategoryKeepsOne | frontend/src/pages/ProductsPage.jsx:97-103 | a category repeated in the URL appears twice in the list, and one toggle leaves one copy selected |
| ProductsPage.ApplyFilters | frontend/src/pages/ProductsPage.jsx:111-119 | the dispatched query carries every list and scalar filter unchanged, with the current page and 30 per page overriding any filter of the same name |
| ProductsPage.DisplayedData | frontend/src/pages/ProductsPage.jsx:60-67 | without a category parameter all products are shown; with one, exactly the products whose category is selected, in store order and multiplicity |
| ProductsPage.SingleCategory | frontend/src/pages/ProductsPage.jsx:21 | a parameter naming one category, with no comma, selects exactly that category |
| ProductsPage.DisplayedOne | frontend/src/pages/ProductsPage.jsx:63-65 | with a category parameter, a single product is shown exactly when its category is selected |
| ProductsPage.StaleCategoryAfterParamChange | frontend/src/pages/ProductsPage.jsx:60-67 | after `?category=pants` becomes `?category=shirts` on a mounted page, a shirt is not shown, though a fresh mount with `shirts` would show it |
| ProductsPage.EmptyCategoryParamShowsNothing | frontend/src/pages/ProductsPage.jsx:61-65 | an empty `category` parameter leads to an empty product list |
| ProductsPage.RenderProducts | frontend/src/pages/ProductsPage.jsx:201-203 | the loader exactly while loading; otherwise the cards, with "No products found!" exactly when there are none |
| ProductsPage.ProductsPage.constructor | frontend/src/pages/ProductsPage.jsx:19-35 | the initial state: the category list from the URL, every other list empty, no sort key, descending order, page 1, nothing displayed |
| ProductsPage.ProductsPage.HandleFilterChange | frontend/src/pages/ProductsPage.jsx:70-109 | a list key toggles that list by its first copy and nothing else; any other key overwrites that scalar; the page becomes 1; list keys stay lists |
| ProductsPage.ProductsPage.CurrentQuery | frontend/src/pages/ProductsPage.jsx:111-119 | the dispatched query is `ApplyFilters` of the current state, always 30 per page and, from every reachable live state, page 1 |
| ProductsPage.ProductsPage.ChangeCategoryParam | frontend/src/pages/ProductsPage.jsx:16-21 | a new `category` parameter is read afresh, but the category list seeded at mount keeps its value |
| ProductsPage.ProductsPage.RefreshData | frontend/src/pages/ProductsPage.jsx:60-67 | the displayed data becomes `DisplayedData` of the URL parameter, the store's products and the selected categories |
| PageComparison.TogglesAgreeWithoutDuplicates | frontend/src/pages/SearchResults.jsx:117-121 | on a duplicate-free list the search page's toggle equals the products page's toggle (ProductsPage.jsx:84-89) |
| PageComparison.TogglesDifferOnDuplicate | frontend/src/pages/SearchResults.jsx:118 | on `[v, v]` the search page removes both copies, while the products page removes one |
| PageComparison.SearchToggleTwicePresent | frontend/src/pages/SearchResults.jsx:117-121 | toggling a present value twice collapses every copy of it into one copy at the end |
| PageComparison.SearchToggleTwiceRestores | frontend/src/pages/SearchResults.jsx:117-121 | a double toggle of a present value gives back the list exactly when the value occurs once, as the last element |
| PageComparison.SearchToggleDropsSingle | frontend/src/pages/SearchResults.jsx:117-118 | unchecking a value that occurs once removes exactly that occurrence and keeps everything around it |

## Left out

- The network: the search request and the redux `getAllProducts` dispatch are outputs (`SearchQuery`, `ProductQuery`). Their answers are inputs (`FetchOutcome`, `allProducts`, the store's loading flag). The server's filtering is not part of this model.
- Effect scheduling: when `useEffect` re-runs and the order in which overlapping requests finish. There is no stale-response guard, and a late answer can overwrite a newer one. The model handles one answer at a time.
- The `applyFilters` closure in the products page reads the state of its own render. The model issues the query from the state after the change.
- Aliasing of the in-place `push` and `splice`: both pages shallow-copy the filter object but mutate the shared inner array (SearchResults.jsx:120, ProductsPage.jsx:86-102). The model reassigns a new sequence, so it does not capture the earlier render's object changing under it.
- The three identical list-key branches of `handleFilterChange` (ProductsPage.jsx:73-103) are one branch in the model. The branches behave the same.
- Keys outside the twelve lists are handled as a string-to-string map. A non-string value passed to a scalar key is not modelled.
- Customer ratings are numbers in the vocabulary and decimal strings in the model. Only equality and `join` are used on them.
- `SearchResults.SearchPage.ReceiveOutcome`: `error.message` is modelled as a string, so a thrown value without a message is not captured. `totalPages` from the server is taken to be an integer.
- Console logging, the drawers, the expanded-section flags, the sort drawer, and all JSX layout are presentation only.
- The `categoriesParam === "Cloths"` buttons are not modelled, nor the inline See More toggles of the products page. They are not inside a form and do not touch the filter state.
- The commented-out duplicate component (SearchResults.jsx:553 onward) is not modelled, because it is not compiled.
- `SearchResults.SearchPage.HandleFilterSubmit`: the `fetchProducts()` call it starts is a network request, and it uses the closure's state from before the page reset. The model keeps only the page reset. The effect then fetches again with the new page.
- The filter vocabularies themselves (`static/data`) are not part of this model. `Vocabulary.Visible` is generic over them.
- `SearchResults.SearchPage.HandlePageChange` accepts any integer, as the handler does. Only `ClickPageButton` restricts the page to the buttons' range.
