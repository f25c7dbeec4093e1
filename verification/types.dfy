/** The record shapes of the storefront (types.ts) and the value a failed call throws. */
module StoreTypes {

  /** A catalog category; `imageUrl` is an inline data URL or a remote address. */
  datatype Category = Category(id: string, name: string, imageUrl: string)

  /**
   * A catalog product. The price is a JavaScript number; the model only ever
   * asks whether it is non-zero, so a mathematical real stands for it.
   */
  datatype Product = Product(
    id: string,
    sku: string,
    name: string,
    price: real,
    category: string,
    tags: seq<string>,
    imageUrl: string,
    description: string)

  /** What the shopper view hands to the try-on service. */
  datatype TryOnRequest = TryOnRequest(userImage: string, productImage: string, instructions: string)

  /** The role chosen on the landing page; `NoRole` is the source's `NONE`. */
  datatype UserRole = NoRole | Merchant | Shopper

  /**
   * A thrown JavaScript value: an `Error` object carrying its message, or
   * anything else (which `instanceof Error` rejects).
   */
  datatype Thrown = Error(message: string) | NonError
}
