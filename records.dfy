/**
 Value records of the grocery shop: the rows of the Product, Category,
 SubCategory and Order tables (app.py:41-68), the {name, price} line items
 held in the session cart, and the outcome of a request handler.
 Prices are exact reals: floating-point rounding is abstracted away.
 */
module Records {

  /** One entry of session["cart"]: a snapshot of a product's name and price. */
  datatype LineItem = LineItem(name: string, price: real)

  datatype Category = Category(name: string)

  datatype SubCategory = SubCategory(name: string, categoryId: int)

  /** `image` is the form string given by the admin, nothing more. */
  datatype Product = Product(
    name: string,
    price: real,
    image: string,
    categoryId: int,
    subcategoryId: int)

  /** `items` is the denormalised, comma-joined list of names; `created_at` is left out. */
  datatype Order = Order(
    userName: string,
    items: string,
    total: real,
    paymentMethod: string,
    status: string)

  const Pending: string := "Pending"
  const Delivered: string := "Delivered"

  /** Why a handler fails: a 404 from get_or_404, or the KeyError raised by
      indexing a session key that is not set. */
  datatype Error = NotFound | MissingSessionKey

  datatype Result<T> = Ok(value: T) | Err(error: Error)

  datatype Option<T> = None | Some(value: T)
}
