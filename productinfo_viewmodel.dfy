// The product-detail view model: the product id comes from the navigation
// arguments once, at construction, and every load asks the repository for
// that id. The launched coroutine is split into a start and a completion.

module ProductInfoViewModels {
  import opened Models

  /** The navigation argument key the id is stored under. */
  const IdProductKey: string := "idProduct"

  class ProductInfoViewModel {
    var loadError: string
    var isLoading: bool
    var idProduct: Int32
    /** `null` until a load has succeeded. */
    var product: Option<Product>

    /** A load in flight has no error shown. */
    ghost predicate Valid()
      reads this
    {
      isLoading ==> loadError == ""
    }

    /** The field initialisers, then `init`: read the id from the saved state
        and start loading it. */
    constructor (savedState: map<string, Int32>)
      requires IdProductKey in savedState
      ensures Valid()
      ensures idProduct == savedState[IdProductKey]
      ensures isLoading && loadError == "" && product == None
    {
      loadError := "";
      isLoading := false;
      idProduct := -1;
      product := None;
      new;
      idProduct := savedState[IdProductKey];
      var _ := LoadProductInfo();
    }

    /** Starts a load of the stored id. */
    method LoadProductInfo() returns (requestedId: Int32)
      requires Valid()
      modifies this`isLoading, this`loadError
      ensures Valid()
      ensures isLoading && loadError == ""
      ensures requestedId == idProduct
      ensures product == old(product)
    {
      isLoading := true;
      loadError := "";
      requestedId := idProduct;
    }

    /** Applies the repository's answer to a load started earlier; the id is
        outside the frame, so no load ever changes it. */
    method CompleteLoadProductInfo(result: Resource<Product>)
      requires Valid()
      modifies this`isLoading, this`loadError, this`product
      ensures Valid()
      ensures result.Success? ==> product == Some(result.data) && loadError == "" && !isLoading
      ensures result.Error? ==> loadError == result.message && !isLoading && product == old(product)
      ensures result.Other? ==>
        isLoading == old(isLoading) && loadError == old(loadError) && product == old(product)
    {
      match result
      case Success(data) =>
        loadError := "";
        isLoading := false;
        product := Some(data);
      case Error(message) =>
        loadError := message;
        isLoading := false;
      case Other =>
    }
  }

  /** A product that loaded once stays on screen when a later reload fails;
      the screen then shows both the product and the error. */
  method ReloadErrorKeepsProduct(savedState: map<string, Int32>, p: Product, message: string)
    returns (requested: seq<Int32>, shown: Option<Product>, error: string, loading: bool)
    requires IdProductKey in savedState
    ensures requested == [savedState[IdProductKey], savedState[IdProductKey]]
    ensures shown == Some(p) && error == message && !loading
  {
    var vm := new ProductInfoViewModel(savedState);
    var first := vm.idProduct;
    vm.CompleteLoadProductInfo(Success(p));
    var second := vm.LoadProductInfo();
    vm.CompleteLoadProductInfo(Error(message));
    requested := [first, second];
    shown, error, loading := vm.product, vm.loadError, vm.isLoading;
  }
}
