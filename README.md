# Product catalogue view models

A model of the two view models of an Android product-catalogue client.

**The catalogue view model** (`ProductListViewModel`) works with pages. A load starts:
it shows the spinner, clears the error, asks the repository for `PAGE_SIZE` products
starting at `curPage * PAGE_SIZE`, and snapshots the list shown at that moment into
`cachedProductList`. Then it either succeeds or fails. On success it appends the page's
entries, advances `curPage` and computes `endReached`. On failure it stores the
message. The same view model also does client-side search. A search filters the cached
list down to the entries whose lower-cased title starts with the lower-cased text.
Clearing the search restores the cache. A product click sends a `Navigate(route)`
event to the screen.

**The detail view model** (`ProductInfoViewModel`) reads a product id from its
navigation arguments once. It then loads that product and stores either the product
or the error message.

The project is organised as follows:

- `models.dfy` (module `Models`) holds the value types: Kotlin's 32-bit `Int` with
  explicit wrap-around, the list entry, the API's product and page, the repository's
  `Resource`, and the screen events.
- `search.dfy` (modules `Text` and `ProductSearch`) holds ASCII lower-casing,
  `startsWith` and the search filter, with their lemmas.
- `productlist_model.dfy` (module `ProductListModel`) holds the catalogue view model's
  state as a value. Each transition is a function there, and the lemmas about sequences
  of transitions (paging, retry, search, the cache snapshot) are proved on those
  functions.
- `productlist_viewmodel.dfy` (module `ProductListViewModels`) holds the class
  `ProductListViewModel`, whose fields are the source's. Each method is proved to
  update the fields as the matching function of `ProductListModel` does, and says
  field by field what changes.
- `productinfo_viewmodel.dfy` (module `ProductInfoViewModels`) holds the class
  `ProductInfoViewModel`.

Each `viewModelScope.launch` becomes two methods: one that starts the load and returns
the request the repository receives, and one that applies the repository's answer (a
`Resource`). The model does not force an order on these calls, just as the source does
not. The cache snapshot at `ProductListViewModel.kt:89` runs after the launched
coroutine has suspended on the network call, so it is taken in the start method: the
cache is the list as it was when the load began. The load-more trigger of the list
screen (`ProductListScreen.kt:95-96`) is the predicate `CanLoadMore`: it is evaluated
only for rows that exist, so it fires on the last row of a non-empty list. After a load has
started it is false for every row, so the screen never starts a second load while one
is in flight.

`PAGE_SIZE` is defined in a constants file that is not part of this model. It is a
parameter of the view model, any positive `Int`. The repository, the HTTP API and the
saved-state handle are also not part of this model. The repository's answers are
inputs of the completion methods, and the saved state is a map given to the detail
view model's constructor.

## Model

| member | source | states |
|---|---|---|
| Models.Wrap32 | app/src/main/java/com/danielp4/productapp/presentation/productlist/ProductListViewModel.kt:70 | Kotlin `Int` arithmetic: the result is the 32-bit value congruent to the exact one modulo 2^32, and is the exact one when that fits |
| Models.Mul32 | app/src/main/java/com/danielp4/productapp/presentation/productlist/ProductListViewModel.kt:70 | `curPage * PAGE_SIZE` is the exact product when it fits in an `Int`, and otherwise wraps |
| Models.Inc32 | app/src/main/java/com/danielp4/productapp/presentation/productlist/ProductListViewModel.kt:77 | `curPage++` adds one, except that `Int.MAX_VALUE` wraps to `Int.MIN_VALUE` |
| Text.Lower | app/src/main/java/com/danielp4/productapp/presentation/productlist/ProductListViewModel.kt:60 | lower-casing keeps the length and lowers each character in place (ASCII letters only) |
| Text.LowerIdempotent | app/src/main/java/com/danielp4/productapp/presentation/productlist/ProductListViewModel.kt:60 | lower-casing an already lower-cased text changes nothing |
| ProductSearch.Filter | app/src/main/java/com/danielp4/productapp/presentation/productlist/ProductListViewModel.kt:59-61 | the search result is no longer than the cache, and each entry in it comes from the cache and matches the text |
| ProductSearch.FilterKeepsMatches | app/src/main/java/com/danielp4/productapp/presentation/productlist/ProductListViewModel.kt:59-61 | an entry is in the search result if and only if it is in the cache and its lower-cased title starts with the lower-cased text |
| ProductSearch.FilterCount | app/src/main/java/com/danielp4/productapp/presentation/productlist/ProductListViewModel.kt:59-61 | each matching entry appears in the result as often as in the cache, and a non-matching entry not at all |
| ProductSearch.FilterIsSubsequence | app/src/main/java/com/danielp4/productapp/presentation/productlist/ProductListViewModel.kt:59-61 | the search result keeps the cache's order: it is a subsequence of the cache |
| ProductSearch.FilterEmptyQuery | app/src/main/java/com/danielp4/productapp/presentation/productlist/ProductListViewModel.kt:59-61 | an empty search text keeps the whole cache |
| ProductSearch.FilterAppend | app/src/main/java/com/danielp4/productapp/presentation/productlist/ProductListViewModel.kt:59-61 | filtering two lists joined is filtering each and joining the results |
| ProductSearch.FilterIdempotent | app/src/main/java/com/danielp4/productapp/presentation/productlist/ProductListViewModel.kt:59-61 | filtering a search result again by the same text changes nothing |
| ProductSearch.FilterNarrowing | app/src/main/java/com/danielp4/productapp/presentation/productlist/ProductListViewModel.kt:59-61 | when the lower-cased new text extends the old one, filtering the old result gives the same list as filtering the cache |
| ProductSearch.FilterCaseInsensitive | app/src/main/java/com/danielp4/productapp/presentation/productlist/ProductListViewModel.kt:60 | the result does not depend on the search text's letter case |
| ProductListModel.Request | app/src/main/java/com/danielp4/productapp/presentation/productlist/ProductListViewModel.kt:70 | the request of a load: skip `curPage * PAGE_SIZE` (with Kotlin wrap-around), limit `PAGE_SIZE`; no contract of its own, its properties are `ConsecutiveRequests`, `RetryRequestsSamePage` and `PagesAccumulate` |
| ProductListModel.BeginLoad | app/src/main/java/com/danielp4/productapp/presentation/productlist/ProductListViewModel.kt:66-89 | the load start as a function of the old state; no contract of its own, the class method `LoadProductPaginated` is proved to follow it and the lemmas below are about it |
| ProductListModel.CompleteLoad | app/src/main/java/com/danielp4/productapp/presentation/productlist/ProductListViewModel.kt:71-87 | the completion (`CompleteSuccess`, `CompleteError`, or no change for any other variant) as a function of the old state; the class method `CompleteLoadPaginated` is proved to follow it |
| ProductListModel.OnEvent | app/src/main/java/com/danielp4/productapp/presentation/productlist/ProductListViewModel.kt:44-64 | the three events (`DeleteSearch`, `ProductClick`, `ChangeSearch`) as functions of the old state; the class method `OnEvent` is proved to follow it |
| ProductListModel.CanLoadMore | app/src/main/java/com/danielp4/productapp/presentation/productlist/ProductListScreen.kt:95-96 | the screen's load-more condition for a composed row (`0 <= index < size`): the row is the last one, end not reached, not loading; it does not look at the search |
| ProductSearch.Matches | app/src/main/java/com/danielp4/productapp/presentation/productlist/ProductListViewModel.kt:60 | the filter's predicate: the lower-cased title starts with the lower-cased text |
| ProductListModel.ToEntries | app/src/main/java/com/danielp4/productapp/presentation/productlist/ProductListViewModel.kt:74-76 | the page's entries are one per product, in response order, with id, title, description, thumbnail, price and brand copied |
| ProductListModel.StepsPreserveInv | app/src/main/java/com/danielp4/productapp/presentation/productlist/ProductListViewModel.kt:44-90 | starting state and every transition keep two facts: no error is shown while loading, and the search text is empty when no search is active |
| ProductListModel.SearchShowsMatchingCache | app/src/main/java/com/danielp4/productapp/presentation/productlist/ProductListViewModel.kt:56-62 | a search-text change turns searching on, stores the text and shows exactly the matching cache entries with their counts and order. An empty text shows the whole cache. No other field changes |
| ProductListModel.SearchRefines | app/src/main/java/com/danielp4/productapp/presentation/productlist/ProductListViewModel.kt:56-62 | typing further narrows the shown list to what a fresh search for the longer text would show |
| ProductListModel.RetryRequestsSamePage | app/src/main/java/com/danielp4/productapp/presentation/productlist/ProductListViewModel.kt:66-85 | a failed load leaves the list, page counter and end flag as they were, so the next load asks for the same page |
| ProductListModel.ConsecutiveRequests | app/src/main/java/com/danielp4/productapp/presentation/productlist/ProductListViewModel.kt:70-77 | until the arithmetic overflows, each successful load makes the next request start where the previous one ended |
| ProductListModel.PagesAccumulateLists | app/src/main/java/com/danielp4/productapp/presentation/productlist/ProductListViewModel.kt:66-90 | after `init` and any number k of successful loads: the list is every page in order, no load is in flight or failed, no search is active, and the cache holds only the first k-1 pages |
| ProductListModel.PagesAccumulate | app/src/main/java/com/danielp4/productapp/presentation/productlist/ProductListViewModel.kt:66-90 | after `init` and k successful loads: the list is every page in order, `curPage` is k, the next request skips k pages, and the cache holds only the first k-1 pages |
| ProductListModel.EndReachedNeedsExtraLoad | app/src/main/java/com/danielp4/productapp/presentation/productlist/ProductListViewModel.kt:73-77 | `endReached` uses the page index before the increment, so the load that delivers the last entries leaves it false |
| ProductListModel.SearchMissesNewestPage | app/src/main/java/com/danielp4/productapp/presentation/productlist/ProductListViewModel.kt:89 | as written, a search or a clear right after a page arrives works on the list without that page |
| ProductListModel.SearchThenLoadLosesEntries | app/src/main/java/com/danielp4/productapp/presentation/productlist/ProductListViewModel.kt:89 | as written, the trigger fires on the last row of a non-empty search result, and once that load completes, clearing the search shows exactly the cached entries that matched: neither the unmatched entries nor the new page, while `curPage` has moved past that page |
| ProductListModel.StepFixedKeepsCache | app/src/main/java/com/danielp4/productapp/presentation/productlist/ProductListViewModel.kt:47-89 | one step with the snapshot corrected keeps the cache equal to the loaded entries and an active search's list equal to the matching ones; every other field moves as in the code |
| ProductListModel.FixedCacheHoldsEveryLoadedEntry | app/src/main/java/com/danielp4/productapp/presentation/productlist/ProductListViewModel.kt:47-89 | with the snapshot corrected, after any interleaving of load starts, completions and events, the cache is every loaded entry in order, search and clear work on all of them, and every other field is as in the code |
| ProductListViewModels.ProductListViewModel.constructor | app/src/main/java/com/danielp4/productapp/presentation/productlist/ProductListViewModel.kt:23-42 | fields start empty, false, 0 or "", and `init` starts loading page 0, so the first request is skip 0 and limit `PAGE_SIZE` |
| ProductListViewModels.ProductListViewModel.CanLoadMore | app/src/main/java/com/danielp4/productapp/presentation/productlist/ProductListScreen.kt:95-96 | the load-more condition on the object's current fields, defined as `ProductListModel.CanLoadMore` of its state |
| ProductListViewModels.ProductListViewModel.LoadProductPaginated | app/src/main/java/com/danielp4/productapp/presentation/productlist/ProductListViewModel.kt:66-90 | starting a load sets `isLoading`, clears `loadError`, requests skip `curPage * PAGE_SIZE` and limit `PAGE_SIZE`, and snapshots the current list into the cache. Nothing else changes, and the load-more trigger is then off |
| ProductListViewModels.ProductListViewModel.CompleteLoadPaginated | app/src/main/java/com/danielp4/productapp/presentation/productlist/ProductListViewModel.kt:71-87 | Success: the old list is followed by the page's entries, `curPage` goes up by one, `endReached` is old `curPage * PAGE_SIZE >= total`, not loading, no error. Error: the message is stored and loading ends, while list, page and end flag stay. Any other variant changes nothing |
| ProductListViewModels.ProductListViewModel.OnEvent | app/src/main/java/com/danielp4/productapp/presentation/productlist/ProductListViewModel.kt:44-64 | clear restores the cache and resets the search fields. A click emits exactly one `Navigate(route)` and resets the search fields without touching the list. A text change shows the matching cache entries. No event touches paging or the cache |
| ProductListViewModels.FirstPageLostBySearch | app/src/main/java/com/danielp4/productapp/presentation/productlist/ProductListViewModel.kt:89 | constructing the view model, completing its first load with a one-product page and calling `onEvent(OnTextSearchChange(""))` turns the shown list from that product into an empty list |
| ProductListViewModels.LoadDuringSearchLosesEntries | app/src/main/java/com/danielp4/productapp/presentation/productlist/ProductListViewModel.kt:89 | after loads of "a" and "b", a search for "a", a load of "c" that the trigger allows (shown as "a", "c"), and a clear, only the "a" entry is shown |
| ProductInfoViewModels.ProductInfoViewModel.constructor | app/src/main/java/com/danielp4/productapp/presentation/productinfo/ProductInfoViewModel.kt:20-28 | `idProduct` is taken from saved state under "idProduct", no product is held, and a load has started |
| ProductInfoViewModels.ProductInfoViewModel.LoadProductInfo | app/src/main/java/com/danielp4/productapp/presentation/productinfo/ProductInfoViewModel.kt:30-34 | starting a load sets `isLoading` and clears `loadError`. The request is for the stored `idProduct`, and the product is kept |
| ProductInfoViewModels.ProductInfoViewModel.CompleteLoadProductInfo | app/src/main/java/com/danielp4/productapp/presentation/productinfo/ProductInfoViewModel.kt:35-46 | Success stores the product, clears the error and ends loading. Error stores the message, ends loading and keeps the previous product. Any other variant changes nothing. `idProduct` is never modified |
| ProductInfoViewModels.ReloadErrorKeepsProduct | app/src/main/java/com/danielp4/productapp/presentation/productinfo/ProductInfoViewModel.kt:36-44 | after a success and then a failed reload, both requests were for the same id, and the earlier product is still shown together with the error |

## Findings

| source | as written | input that shows it | evidently intended | confidence | as-written member | corrected member |
|---|---|---|---|---|---|---|
| app/src/main/java/com/danielp4/productapp/presentation/productlist/ProductListViewModel.kt:89 | the cache is set to the list shown when a load *starts*, so the page that load brings in reaches the cache only when the next load starts; a search or a clear before then works without it | construct the view model, complete its first load with `Success` of a one-product page, then call `onEvent(OnTextSearchChange(""))`: the shown list becomes empty | the cache holds every loaded entry, so search and clear work on all of them | not executed; high that the behaviour follows from the code, medium that it is unintended | ProductListViewModels.FirstPageLostBySearch | ProductListModel.FixedCacheHoldsEveryLoadedEntry |
| app/src/main/java/com/danielp4/productapp/presentation/productlist/ProductListViewModel.kt:89 | a load started while a search is shown snapshots the filtered list, so the entries that did not match are lost from the cache; so is the page that load brings in, because clearing the search restores the cache and the page counter has already moved past that page | complete loads of entries titled "a" and "b" and of an empty page, call `onEvent(OnTextSearchChange("a"))`, start another load (the trigger at `ProductListScreen.kt:95-96` allows it on the one row shown) and complete it with a page holding "c", then call `onEvent(OnClickDeleteSearchText)`: only "a" is shown | clearing the search shows every loaded entry | not executed; high that the behaviour follows from the code, medium that it is unintended | ProductListViewModels.LoadDuringSearchLosesEntries | ProductListModel.FixedCacheHoldsEveryLoadedEntry |

The class `ProductListViewModel` follows the code as written, because it models that
code. The corrected transitions are separate functions in `ProductListModel`:
`BeginLoadFixed` takes no snapshot, and `CompleteSuccessFixed` appends the page to
the cache, which then holds every loaded entry, and shows that cache, filtered by
the active search if there is one. `RunFixed` runs any sequence of load starts,
completions and events with them. The corrected property is proved for every such
sequence, and everything except the two lists is proved to evolve exactly as in the
code as written (`Run`).

## Left out

- Compose UI: the list and detail screens, the carousel and the activity are layout and navigation wiring. Only the load-more condition of the list screen is modelled.
- The rating bar on the detail screen: it is floating-point (`floor`, `ceil`, `rem` on `Double`). The product's `rating` and `discountPercentage` fields are left out for the same reason.
- Repository, HTTP API and dependency injection: they are treated as an oracle whose answer (`Success`, `Error` or any other variant) is an input of the completion methods. They are not part of this model.
- `Resource`: its class is not part of this model. Its variants other than `Success` and `Error` are folded into `Other`, which both view models ignore. The `!!` on `result.data` and `result.message` would throw on null. The model assumes a `Success` always carries data and an `Error` always carries a message.
- The API's product and page types are not part of this model. They are modelled with the fields the app reads.
- Coroutines and dispatchers: which completion arrives when is left to the caller of the model. Events sent on the `Channel` are modelled as an append-only list `uiEvents`; suspension of the sender until the screen collects is not modelled.
- `lowercase()`: only ASCII letters are lowered. Unicode case mapping is not modelled.
- ProductInfoViewModels.ProductInfoViewModel.constructor: the source throws when the saved state has no "idProduct" entry (or has one of another type). The model requires the entry to be present.
- ProductListModel.ConsecutiveRequests is stated only while `(curPage + 1) * PAGE_SIZE` fits in an `Int`, ProductListModel.PagesAccumulate only while `k * PAGE_SIZE` does after k loads, and ProductListModel.EndReachedNeedsExtraLoad only for `0 <= curPage` (its premise `curPage * PAGE_SIZE < total` already keeps the product in range). The list contents do not depend on the counter, so PagesAccumulateLists and SearchMissesNewestPage carry no bound. The wrap-around itself is modelled, in `Models.Mul32` and `Models.Inc32`.
