// Value types shared by the two view models: Kotlin's 32-bit Int, the list
// entry shown on the catalogue screen, the product returned by the API, the
// repository's Resource wrapper, and the screen and navigation events.

module Models {

  const MinInt32: int := -0x8000_0000
  const MaxInt32: int := 0x7fff_ffff
  const TwoTo32: int := 0x1_0000_0000

  /** Kotlin's `Int`. */
  type Int32 = x: int | MinInt32 <= x <= MaxInt32

  /** The page size constant: any positive Kotlin `Int`. */
  type PageSize = x: int | 0 < x <= MaxInt32 witness 1

  /** Two's-complement wrap-around of Kotlin `Int` arithmetic: the result is
      the one 32-bit value congruent to `x` modulo 2^32. */
  function Wrap32(x: int): (r: Int32)
    ensures (x - r) % TwoTo32 == 0
    ensures MinInt32 <= x <= MaxInt32 ==> r == x
  {
    (x - MinInt32) % TwoTo32 + MinInt32
  }

  /** Kotlin `a * b` on two `Int`s. */
  function Mul32(a: Int32, b: Int32): (r: Int32)
    ensures MinInt32 <= a * b <= MaxInt32 ==> r == a * b
    ensures (a * b - r) % TwoTo32 == 0
  {
    Wrap32(a * b)
  }

  /** Kotlin `a + 1` (`a++`) on an `Int`. */
  function Inc32(a: Int32): (r: Int32)
    ensures a < MaxInt32 ==> r == a + 1
    ensures a == MaxInt32 ==> r == MinInt32
  {
    Wrap32(a + 1)
  }

  /** The row shown on the catalogue screen (data class ProductListEntry). */
  datatype ProductListEntry = ProductListEntry(
    id: Int32,
    title: string,
    description: string,
    thumbnail: string,
    price: Int32,
    brand: string)

  /** A product as the API returns it. Only the fields the app reads are kept;
      the two floating-point fields (rating, discount) are not modelled. */
  datatype Product = Product(
    id: Int32,
    title: string,
    description: string,
    price: Int32,
    stock: Int32,
    brand: string,
    category: string,
    thumbnail: string,
    images: seq<string>)

  /** One page of the catalogue: its products and the catalogue's total size. */
  datatype ProductList = ProductList(products: seq<Product>, total: Int32)

  /** Kotlin's nullable reference. */
  datatype Option<T> = None | Some(value: T)

  /** What the repository hands back: the data, an error message, or any other
      variant of the wrapper, which both view models ignore. */
  datatype Resource<T> = Success(data: T) | Error(message: string) | Other

  /** The arguments of `getProductList(skip, limit)`. */
  datatype PageRequest = PageRequest(skip: Int32, limit: Int32)

  /** One-shot events the list view model sends to its screen. */
  datatype UiEvent = Navigate(route: string)

  /** The events the catalogue screen sends to its view model. */
  datatype ProductListEvent =
    | OnProductClick(route: string)
    | OnTextSearchChange(text: string)
    | OnClickDeleteSearchText
}
