// The catalogue view model's state as a value, and each of its transitions as
// a function from the old state to the new one. The class in
// productlist_viewmodel.dfy is proved to follow these functions; the lemmas
// here state what sequences of transitions do.

module ProductListModel {
  import opened Models
  import opened Text
  import opened ProductSearch

  /** The mapping lambda of the success branch: copy six fields of a product. */
  function ToEntry(p: Product): ProductListEntry {
    ProductListEntry(p.id, p.title, p.description, p.thumbnail, p.price, p.brand)
  }

  /** `products.mapIndexed { _, p -> ToEntry(p) }`: one entry per product, in
      response order, with id, title, description, thumbnail, price and brand
      carried over. */
  function ToEntries(ps: seq<Product>): (es: seq<ProductListEntry>)
    ensures |es| == |ps|
    ensures forall i :: 0 <= i < |ps| ==>
      && es[i].id == ps[i].id
      && es[i].title == ps[i].title
      && es[i].description == ps[i].description
      && es[i].thumbnail == ps[i].thumbnail
      && es[i].price == ps[i].price
      && es[i].brand == ps[i].brand
  {
    if ps == [] then [] else [ToEntry(ps[0])] + ToEntries(ps[1..])
  }

  /** Every field of the view model, the events sent to the screen included
      (oldest first). */
  datatype ListState = ListState(
    curPage: Int32,
    productList: seq<ProductListEntry>,
    loadError: string,
    isLoading: bool,
    endReached: bool,
    cachedProductList: seq<ProductListEntry>,
    searchText: string,
    isSearching: bool,
    uiEvents: seq<UiEvent>)

  /** The field initialisers, before `init` runs. */
  function Initial(): ListState {
    ListState(0, [], "", false, false, [], "", false, [])
  }

  /** The request a load started in state `s` sends. */
  function Request(s: ListState, pageSize: PageSize): PageRequest {
    PageRequest(Mul32(s.curPage, pageSize), pageSize)
  }

  /** `loadProductPaginated` up to the network call, plus the cache snapshot
      that runs once the launched coroutine has suspended. */
  function BeginLoad(s: ListState): ListState {
    s.(isLoading := true, loadError := "", cachedProductList := s.productList)
  }

  /** The Success branch of the launched coroutine. */
  function CompleteSuccess(s: ListState, pageSize: PageSize, data: ProductList): ListState {
    s.(endReached := Mul32(s.curPage, pageSize) >= data.total,
       curPage := Inc32(s.curPage),
       loadError := "",
       isLoading := false,
       productList := s.productList + ToEntries(data.products))
  }

  /** The Error branch of the launched coroutine. */
  function CompleteError(s: ListState, message: string): ListState {
    s.(loadError := message, isLoading := false)
  }

  /** The `when (result)` of the launched coroutine; any other variant is ignored. */
  function CompleteLoad(s: ListState, pageSize: PageSize, result: Resource<ProductList>): ListState {
    match result
    case Success(data) => CompleteSuccess(s, pageSize, data)
    case Error(message) => CompleteError(s, message)
    case Other => s
  }

  function DeleteSearch(s: ListState): ListState {
    s.(productList := s.cachedProductList, searchText := "", isSearching := false)
  }

  function ProductClick(s: ListState, route: string): ListState {
    s.(uiEvents := s.uiEvents + [Navigate(route)], searchText := "", isSearching := false)
  }

  function ChangeSearch(s: ListState, text: string): ListState {
    s.(isSearching := true, searchText := text, productList := Filter(s.cachedProductList, text))
  }

  /** `onEvent`. */
  function OnEvent(s: ListState, event: ProductListEvent): ListState {
    match event
    case OnClickDeleteSearchText => DeleteSearch(s)
    case OnProductClick(route) => ProductClick(s, route)
    case OnTextSearchChange(text) => ChangeSearch(s, text)
  }

  /** The screen's load-more trigger, evaluated while the list composes the
      row at `index`: only rows that exist are composed, and of those only the
      last one can fire it. */
  predicate CanLoadMore(s: ListState, index: int) {
    0 <= index < |s.productList| && index >= |s.productList| - 1 && !s.endReached && !s.isLoading
  }

  /** What every reachable state satisfies: a load in flight has no error
      shown, and the search text is empty whenever no search is active. */
  predicate Inv(s: ListState) {
    && (s.isLoading ==> s.loadError == "")
    && (!s.isSearching ==> s.searchText == "")
  }

  lemma StepsPreserveInv(s: ListState, pageSize: PageSize, result: Resource<ProductList>, event: ProductListEvent)
    requires Inv(s)
    ensures Inv(Initial())
    ensures Inv(BeginLoad(s))
    ensures Inv(CompleteLoad(s, pageSize, result))
    ensures Inv(OnEvent(s, event))
  {
  }

  // ---------------------------------------------------------------------
  // Search

  /** What a search-text change shows: the entries of the cache whose titles
      match, each as often as in the cache, in cache order; the whole cache for
      an empty text. Nothing but the search fields and the list changes. */
  lemma SearchShowsMatchingCache(s: ListState, text: string)
    ensures var t := ChangeSearch(s, text);
      && t.isSearching && t.searchText == text
      && IsSubsequence(t.productList, s.cachedProductList)
      && (forall x :: x in t.productList <==> x in s.cachedProductList && Matches(x, text))
      && (forall x :: multiset(t.productList)[x] ==
            if Matches(x, text) then multiset(s.cachedProductList)[x] else 0)
      && (text == "" ==> t.productList == s.cachedProductList)
      && t.(productList := s.productList, searchText := s.searchText, isSearching := s.isSearching) == s
  {
    FilterIsSubsequence(s.cachedProductList, text);
    forall x ensures x in Filter(s.cachedProductList, text) <==> x in s.cachedProductList && Matches(x, text) {
      FilterKeepsMatches(s.cachedProductList, text, x);
    }
    forall x ensures multiset(Filter(s.cachedProductList, text))[x] ==
      if Matches(x, text) then multiset(s.cachedProductList)[x] else 0
    {
      FilterCount(s.cachedProductList, text, x);
    }
    if text == "" {
      FilterEmptyQuery(s.cachedProductList);
    }
  }

  /** Typing further into the search box can only narrow the list, and the
      narrowed list is the one a fresh search for the longer text shows. */
  lemma SearchRefines(s: ListState, shorter: string, longer: string)
    requires StartsWith(Lower(longer), Lower(shorter))
    ensures Filter(ChangeSearch(s, shorter).productList, longer) == ChangeSearch(ChangeSearch(s, shorter), longer).productList
  {
    FilterNarrowing(s.cachedProductList, shorter, longer);
  }

  // ---------------------------------------------------------------------
  // Pagination

  /** A successful load made right after a failed one asks for the same page:
      an error never skips or repeats a page. */
  lemma RetryRequestsSamePage(s: ListState, pageSize: PageSize, message: string)
    ensures Request(BeginLoad(CompleteError(BeginLoad(s), message)), pageSize) == Request(s, pageSize)
    ensures var t := CompleteError(BeginLoad(s), message);
      t.productList == s.productList && t.curPage == s.curPage && t.endReached == s.endReached
  {
  }

  /** While no overflow occurs, the next page's request starts where the
      current one's ends: the pages tile the catalogue. */
  lemma ConsecutiveRequests(s: ListState, pageSize: PageSize, data: ProductList)
    requires 0 <= s.curPage && (s.curPage + 1) * pageSize <= MaxInt32
    ensures Request(CompleteSuccess(BeginLoad(s), pageSize, data), pageSize).skip
         == Request(s, pageSize).skip + pageSize
  {
    var c: int := s.curPage;
    assert 0 <= c * pageSize <= (c + 1) * pageSize == c * pageSize + pageSize;
    assert Inc32(s.curPage) == c + 1;
    assert Mul32(s.curPage, pageSize) == c * pageSize;
    assert Mul32(c + 1, pageSize) == (c + 1) * pageSize;
  }

  /** The product entries of a sequence of pages, page after page. */
  function AllEntries(pages: seq<ProductList>): (es: seq<ProductListEntry>) {
    if pages == [] then [] else AllEntries(pages[..|pages| - 1]) + ToEntries(pages[|pages| - 1].products)
  }

  /** Start from `s` and run, for each page, a load that succeeds with it. */
  function LoadPages(s: ListState, pageSize: PageSize, pages: seq<ProductList>): ListState {
    if pages == [] then s
    else CompleteSuccess(BeginLoad(LoadPages(s, pageSize, pages[..|pages| - 1])), pageSize, pages[|pages| - 1])
  }

  /** After `init` and k successful loads (no search in between, no overflow):
      the list is all k pages in order, the page counter is k, the next request
      skips k pages, and the cache holds only the first k - 1 pages - the
      snapshot taken when the last load began. */
  lemma {:induction false} PagesAccumulate(pageSize: PageSize, pages: seq<ProductList>)
    requires |pages| * pageSize <= MaxInt32
    ensures var s := LoadPages(Initial(), pageSize, pages);
      && s.productList == AllEntries(pages)
      && s.curPage == |pages|
      && Request(s, pageSize) == PageRequest(|pages| * pageSize, pageSize)
      && !s.isLoading && s.loadError == "" && !s.isSearching
      && (pages != [] ==> s.cachedProductList == AllEntries(pages[..|pages| - 1]))
  {
    var k := |pages|;
    assert 0 <= k <= k * pageSize;
    PagesAccumulateLists(pageSize, pages);
    if pages != [] {
      var init := pages[..k - 1];
      assert (k - 1) * pageSize <= k * pageSize;
      PagesAccumulate(pageSize, init);
      var s0 := LoadPages(Initial(), pageSize, init);
      assert Inc32(s0.curPage) == k;
      assert Mul32(k, pageSize) == k * pageSize;
    } else {
      assert Mul32(0, pageSize) == 0;
    }
  }

  /** The lists alone, for any number of loads: they never depend on the page
      counter, so no overflow bound is needed. The list is all pages in order,
      the cache lags one page behind, and no load is in flight or failed. */
  lemma {:induction false} PagesAccumulateLists(pageSize: PageSize, pages: seq<ProductList>)
    ensures var s := LoadPages(Initial(), pageSize, pages);
      && s.productList == AllEntries(pages)
      && !s.isLoading && s.loadError == "" && !s.isSearching
      && (pages != [] ==> s.cachedProductList == AllEntries(pages[..|pages| - 1]))
  {
    if pages != [] {
      PagesAccumulateLists(pageSize, pages[..|pages| - 1]);
    }
  }

  /** The end-of-list flag is computed from the page index before the
      increment, so the load that brings the last entries leaves it false and
      one more load (asking past the total) is needed to set it. */
  lemma EndReachedNeedsExtraLoad(s: ListState, pageSize: PageSize, data: ProductList)
    requires 0 <= s.curPage && s.curPage * pageSize < data.total
    ensures !CompleteSuccess(BeginLoad(s), pageSize, data).endReached
  {
    var c: int := s.curPage;
    assert 0 <= c * pageSize < data.total <= MaxInt32;
    assert Mul32(s.curPage, pageSize) == c * pageSize;
  }

  // ---------------------------------------------------------------------
  // The cache snapshot, as written and as evidently intended

  /** As written, a search (even for the empty text) right after a page has
      arrived shows the list as it was before that page: the newest page is
      missing from every search until the next load begins. */
  lemma {:induction false} SearchMissesNewestPage(pageSize: PageSize, pages: seq<ProductList>, text: string)
    requires pages != []
    ensures var s := LoadPages(Initial(), pageSize, pages);
      && ChangeSearch(s, text).productList == Filter(AllEntries(pages[..|pages| - 1]), text)
      && DeleteSearch(s).productList == AllEntries(pages[..|pages| - 1])
  {
    PagesAccumulateLists(pageSize, pages);
  }

  /** As written, a load started while a search is shown snapshots the
      filtered list, so once it completes, clearing the search shows only the
      cached entries that matched: the others are gone, and so is the page
      that load brought in, since the page counter has already moved past it.
      Nothing stops such a load: the load-more trigger ignores the search, and
      fires on the last row of any non-empty result. */
  lemma SearchThenLoadLosesEntries(s: ListState, pageSize: PageSize, text: string, data: ProductList)
    ensures var searched := ChangeSearch(s, text);
      && (!s.endReached && !s.isLoading && Filter(s.cachedProductList, text) != [] ==>
            CanLoadMore(searched, |searched.productList| - 1))
      && DeleteSearch(CompleteSuccess(BeginLoad(searched), pageSize, data)).productList
         == Filter(s.cachedProductList, text)
      && CompleteSuccess(BeginLoad(searched), pageSize, data).curPage == Inc32(s.curPage)
  {
  }

  /** One thing that can happen to the view model: a load starts, a load
      completes with the given answer, or the screen sends an event. */
  datatype Step = BeginStep | CompleteStep(result: Resource<ProductList>) | EventStep(event: ProductListEvent)

  /** The entries a step brings in: a successful completion's page. */
  function NewEntries(step: Step): seq<ProductListEntry> {
    if step.CompleteStep? && step.result.Success? then ToEntries(step.result.data.products) else []
  }

  /** The entries of every successful completion among `steps`, in order. */
  function Loaded(steps: seq<Step>): seq<ProductListEntry> {
    if steps == [] then [] else Loaded(steps[..|steps| - 1]) + NewEntries(steps[|steps| - 1])
  }

  /** Two states that agree on everything except the shown and cached lists. */
  predicate SameButLists(a: ListState, b: ListState) {
    a.(productList := [], cachedProductList := []) == b.(productList := [], cachedProductList := [])
  }

  /** A step as the code is written. */
  function ApplyStep(s: ListState, pageSize: PageSize, step: Step): ListState {
    match step
    case BeginStep => BeginLoad(s)
    case CompleteStep(result) => CompleteLoad(s, pageSize, result)
    case EventStep(event) => OnEvent(s, event)
  }

  function Run(s: ListState, pageSize: PageSize, steps: seq<Step>): ListState {
    if steps == [] then s else ApplyStep(Run(s, pageSize, steps[..|steps| - 1]), pageSize, steps[|steps| - 1])
  }

  /** Corrected load start: no snapshot is taken. */
  function BeginLoadFixed(s: ListState): ListState {
    s.(isLoading := true, loadError := "")
  }

  /** Corrected Success branch: the page is appended to the loaded entries,
      which the cache keeps, and the list shown is those entries, filtered by
      the active search if there is one. Paging is as written. */
  function CompleteSuccessFixed(s: ListState, pageSize: PageSize, data: ProductList): ListState {
    var loaded := s.cachedProductList + ToEntries(data.products);
    CompleteSuccess(s, pageSize, data).(
      cachedProductList := loaded,
      productList := if s.isSearching then Filter(loaded, s.searchText) else loaded)
  }

  function StepFixed(s: ListState, pageSize: PageSize, step: Step): ListState {
    match step
    case BeginStep => BeginLoadFixed(s)
    case CompleteStep(Success(data)) => CompleteSuccessFixed(s, pageSize, data)
    case CompleteStep(result) => CompleteLoad(s, pageSize, result)
    case EventStep(event) => OnEvent(s, event)
  }

  function RunFixed(s: ListState, pageSize: PageSize, steps: seq<Step>): ListState {
    if steps == [] then s else StepFixed(RunFixed(s, pageSize, steps[..|steps| - 1]), pageSize, steps[|steps| - 1])
  }

  /** One corrected step keeps the cache equal to the loaded entries and an
      active search's list equal to the matching ones, and moves every other
      field as the step as written does. */
  lemma StepFixedKeepsCache(s: ListState, w: ListState, pageSize: PageSize, step: Step, loaded: seq<ProductListEntry>)
    requires s.cachedProductList == loaded
    requires s.isSearching ==> s.productList == Filter(loaded, s.searchText)
    requires SameButLists(s, w)
    ensures var t := StepFixed(s, pageSize, step);
      && t.cachedProductList == loaded + NewEntries(step)
      && (t.isSearching ==> t.productList == Filter(loaded + NewEntries(step), t.searchText))
      && SameButLists(t, ApplyStep(w, pageSize, step))
  {
    assert s.curPage == w.curPage;
    match step {
      case BeginStep =>
      case CompleteStep(result) =>
        match result {
          case Success(data) =>
          case Error(message) =>
          case Other =>
        }
      case EventStep(event) =>
        match event {
          case OnClickDeleteSearchText =>
          case OnProductClick(route) =>
          case OnTextSearchChange(text) =>
        }
    }
  }

  /** With the corrected transitions, after any interleaving of load starts,
      completions and screen events: the cache is every loaded entry in
      arrival order, an active search shows exactly the matching loaded
      entries, clearing the search shows every loaded entry, and a new search
      looks at all of them. Every field except the two lists evolves exactly
      as in the code as written. */
  lemma {:induction false} FixedCacheHoldsEveryLoadedEntry(pageSize: PageSize, steps: seq<Step>)
    ensures var s := RunFixed(Initial(), pageSize, steps);
      && s.cachedProductList == Loaded(steps)
      && (s.isSearching ==> s.productList == Filter(Loaded(steps), s.searchText))
      && DeleteSearch(s).productList == Loaded(steps)
      && (forall text :: ChangeSearch(s, text).productList == Filter(Loaded(steps), text))
      && SameButLists(s, Run(Initial(), pageSize, steps))
  {
    if steps != [] {
      var prefix := steps[..|steps| - 1];
      FixedCacheHoldsEveryLoadedEntry(pageSize, prefix);
      StepFixedKeepsCache(RunFixed(Initial(), pageSize, prefix), Run(Initial(), pageSize, prefix),
                          pageSize, steps[|steps| - 1], Loaded(prefix));
    }
  }
}
