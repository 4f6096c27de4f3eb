// The catalogue view model as an object whose fields its methods update in
// place. Each coroutine launched by `loadProductPaginated` is split into a
// method that starts the load (and returns the request the repository
// receives) and a method that applies the repository's answer.

module ProductListViewModels {
  import opened Models
  import opened Text
  import opened ProductSearch
  import opened ProductListModel

  class ProductListViewModel {
    const pageSize: PageSize

    var curPage: Int32
    var productList: seq<ProductListEntry>
    var loadError: string
    var isLoading: bool
    var endReached: bool
    var cachedProductList: seq<ProductListEntry>
    var searchText: string
    var isSearching: bool
    /** Every event sent to the screen's channel, oldest first. */
    var uiEvents: seq<UiEvent>

    /** The fields as one value. */
    function State(): ListState
      reads this
    {
      ListState(curPage, productList, loadError, isLoading, endReached,
                cachedProductList, searchText, isSearching, uiEvents)
    }

    /** The class invariant: every method keeps it and requires it. No
        postcondition depends on it; it is stated as a fact about every
        reachable state. */
    ghost predicate Valid()
      reads this
    {
      Inv(State())
    }

    /** The field initialisers, then `init`, which starts loading page 0. */
    constructor (pageSize: PageSize)
      ensures Valid()
      ensures this.pageSize == pageSize
      ensures State() == BeginLoad(Initial())
      ensures isLoading && loadError == "" && curPage == 0
      ensures productList == [] && cachedProductList == [] && !endReached
      ensures searchText == "" && !isSearching && uiEvents == []
      ensures Request(State(), pageSize) == PageRequest(0, pageSize)
    {
      this.pageSize := pageSize;
      curPage := 0;
      productList := [];
      loadError := "";
      isLoading := false;
      endReached := false;
      cachedProductList := [];
      searchText := "";
      isSearching := false;
      uiEvents := [];
      new;
      var _ := LoadProductPaginated();
    }

    /** The load-more trigger of the list screen for the row at `index`. */
    predicate CanLoadMore(index: int)
      reads this
    {
      ProductListModel.CanLoadMore(State(), index)
    }

    /** Starts a page load: shows the spinner, clears the error, sends the
        request for page `curPage` and snapshots the list shown now. */
    method LoadProductPaginated() returns (request: PageRequest)
      requires Valid()
      modifies this
      ensures Valid()
      ensures State() == BeginLoad(old(State()))
      ensures request == Request(old(State()), pageSize)
      ensures request.skip == Wrap32(old(curPage) * pageSize) && request.limit == pageSize
      ensures isLoading && loadError == ""
      ensures cachedProductList == old(productList)
      ensures productList == old(productList) && curPage == old(curPage) && endReached == old(endReached)
      ensures searchText == old(searchText) && isSearching == old(isSearching) && uiEvents == old(uiEvents)
      ensures forall index :: !CanLoadMore(index)
    {
      isLoading := true;
      loadError := "";
      request := PageRequest(Mul32(curPage, pageSize), pageSize);
      cachedProductList := productList;
    }

    /** Applies the repository's answer to a load started earlier. */
    method CompleteLoadPaginated(result: Resource<ProductList>)
      requires Valid()
      modifies this
      ensures Valid()
      ensures State() == CompleteLoad(old(State()), pageSize, result)
      ensures result.Success? ==>
        && productList == old(productList) + ToEntries(result.data.products)
        && old(productList) <= productList
        && curPage == Inc32(old(curPage))
        && endReached == (Mul32(old(curPage), pageSize) >= result.data.total)
        && !isLoading && loadError == ""
      ensures result.Error? ==>
        && loadError == result.message && !isLoading
        && productList == old(productList) && curPage == old(curPage) && endReached == old(endReached)
      ensures result.Other? ==> State() == old(State())
      ensures cachedProductList == old(cachedProductList)
      ensures searchText == old(searchText) && isSearching == old(isSearching) && uiEvents == old(uiEvents)
    {
      match result
      case Success(data) =>
        endReached := Mul32(curPage, pageSize) >= data.total;
        var productEntries := ToEntries(data.products);
        curPage := Inc32(curPage);
        loadError := "";
        isLoading := false;
        productList := productList + productEntries;
      case Error(message) =>
        loadError := message;
        isLoading := false;
      case Other =>
    }

    /** `onEvent`: the three screen events. None of them touches the
        pagination fields or the cache. */
    method OnEvent(event: ProductListEvent)
      requires Valid()
      modifies this
      ensures Valid()
      ensures State() == ProductListModel.OnEvent(old(State()), event)
      ensures event.OnClickDeleteSearchText? ==>
        && productList == cachedProductList && searchText == "" && !isSearching
        && uiEvents == old(uiEvents)
      ensures event.OnProductClick? ==>
        && uiEvents == old(uiEvents) + [Navigate(event.route)]
        && searchText == "" && !isSearching && productList == old(productList)
      ensures event.OnTextSearchChange? ==>
        && isSearching && searchText == event.text
        && productList == Filter(cachedProductList, event.text)
        && IsSubsequence(productList, cachedProductList)
        && (forall x :: x in productList <==> x in cachedProductList && Matches(x, event.text))
        && (event.text == "" ==> productList == cachedProductList)
        && uiEvents == old(uiEvents)
      ensures cachedProductList == old(cachedProductList) && curPage == old(curPage)
      ensures isLoading == old(isLoading) && loadError == old(loadError) && endReached == old(endReached)
    {
      match event
      case OnClickDeleteSearchText =>
        productList := cachedProductList;
        searchText := "";
        isSearching := false;
      case OnProductClick(route) =>
        uiEvents := uiEvents + [Navigate(route)];
        searchText := "";
        isSearching := false;
      case OnTextSearchChange(text) =>
        isSearching := true;
        searchText := text;
        productList := Filter(cachedProductList, text);
        SearchShowsMatchingCache(old(State()), text);
    }
  }

  /** Constructs the view model, completes its first load with a one-product
      page and calls `onEvent(OnTextSearchChange(""))`: the list that was shown
      becomes empty, because the cache was snapshotted before the page arrived. */
  method FirstPageLostBySearch(pageSize: PageSize, apple: Product, total: Int32)
    returns (shownBefore: seq<ProductListEntry>, shownAfter: seq<ProductListEntry>)
    ensures shownBefore == [ToEntry(apple)]
    ensures shownAfter == []
  {
    var vm := new ProductListViewModel(pageSize);
    vm.CompleteLoadPaginated(Success(ProductList([apple], total)));
    shownBefore := vm.productList;
    vm.OnEvent(OnTextSearchChange(""));
    shownAfter := vm.productList;
  }

  /** Constructs the view model, completes two loads (entries "a" and "b",
      then none) and calls `onEvent(OnTextSearchChange("a"))`. */
  method SearchAfterTwoLoads(pageSize: PageSize, a: Product, b: Product)
    returns (vm: ProductListViewModel, loaded: seq<ProductListEntry>)
    requires a.title == "a" && b.title == "b" && pageSize < MaxInt32
    ensures fresh(vm) && vm.Valid() && vm.pageSize == pageSize
    ensures loaded == [ToEntry(a), ToEntry(b)]
    ensures vm.productList == [ToEntry(a)] && vm.cachedProductList == loaded
    ensures !vm.endReached && !vm.isLoading && vm.isSearching && vm.searchText == "a"
  {
    var ea, eb := ToEntry(a), ToEntry(b);
    assert ToEntries([a, b]) == [ea, eb];
    assert Lower("a") == "a" && Lower("b") == "b";
    assert Matches(ea, "a") && !Matches(eb, "a");
    vm := new ProductListViewModel(pageSize);
    vm.CompleteLoadPaginated(Success(ProductList([a, b], MaxInt32)));
    assert vm.productList == [ea, eb] && vm.curPage == 1;
    var _ := vm.LoadProductPaginated();
    vm.CompleteLoadPaginated(Success(ProductList([], MaxInt32)));
    assert vm.productList == [ea, eb] && vm.cachedProductList == [ea, eb] && !vm.endReached;
    loaded := vm.productList;
    vm.OnEvent(OnTextSearchChange("a"));
    assert Filter([ea, eb], "a") == [ea] + Filter([eb], "a");
  }

  /** After `SearchAfterTwoLoads`, the load-more trigger is on for the last
      row shown, so a third load starts and brings entry "c", which is shown
      after "a"; then `onEvent(OnClickDeleteSearchText)` shows only the "a"
      entry, because the third load snapshotted the filtered list: "b" is
      gone, and so is "c", whose page the counter has moved past. */
  method LoadDuringSearchLosesEntries(pageSize: PageSize, a: Product, b: Product, c: Product)
    returns (loaded: seq<ProductListEntry>, triggerWasOn: bool, shownAfterLoad: seq<ProductListEntry>,
             afterClear: seq<ProductListEntry>)
    requires a.title == "a" && b.title == "b" && pageSize < MaxInt32
    ensures loaded == [ToEntry(a), ToEntry(b)]
    ensures triggerWasOn
    ensures shownAfterLoad == [ToEntry(a), ToEntry(c)]
    ensures afterClear == [ToEntry(a)]
  {
    var vm;
    vm, loaded := SearchAfterTwoLoads(pageSize, a, b);
    assert ToEntries([c]) == [ToEntry(c)];
    triggerWasOn := vm.CanLoadMore(|vm.productList| - 1);
    var _ := vm.LoadProductPaginated();
    vm.CompleteLoadPaginated(Success(ProductList([c], MaxInt32)));
    shownAfterLoad := vm.productList;
    vm.OnEvent(OnClickDeleteSearchText);
    afterClear := vm.productList;
  }
}
