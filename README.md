# Grocery shop state machine

A model of the request handlers of a small Flask grocery shop (`app.py`).
Customers log in, fill a session cart with `{name, price}` snapshots of
products, and place an order; an admin adds and edits products (creating
categories and subcategories on first use), marks orders delivered, and
deletes orders and products.

The database tables (Product, Category, SubCategory, Order) are maps from row
id to record, each with a counter that hands out fresh ids. The client's
session is two fields, `user` and `cart`, each of which may be unset. Each
handler is a method of class `App.Shop`. Its `modifies` clause names only the
tables and session keys the handler writes, plus the id counters of the tables
it inserts into. Its `ensures` states the whole new value of each table and
session key it writes, and the error outcomes. The id counters are bookkeeping:
no `ensures` gives their new values, only that each new id was not yet in its
table. All handlers keep `Shop.Valid()`:
- row ids lie below their table's counter;
- every product's category and subcategory exist, and the subcategory belongs to that category;
- category names are unique, and so are subcategory (name, category id) pairs;
- every order is Pending or Delivered.

Files:
- `records.dfy`: the record shapes, the status strings, and `Result`/`Error` for the handlers' failures.
- `cart.dfy`: the cart total and the `", "`-joined item text, with their lemmas.
- `tables.dfy`: `filter_by(...).first()` as a lowest-id search.
- `app.dfy`: class `Shop` and its handlers.
- `scenarios.dfy`: client code that checks whole request sequences against the contracts alone. It covers checkout of 10.0 + 15.5 giving an order with total 25.5 and items "ProductX, ProductY", delivery and deletion, reuse of an existing category, and cart errors.

The model follows the code as written:
- `/products` lists every product and does not filter by category (app.py:124).
- Order completion, order deletion and product deletion do no admin check (app.py:198-210, 268-272).
- `place_order` reads `session["user"]` and `session["cart"]` unguarded, so with either unset it raises a KeyError before any write (app.py:144-146).

Python's `session["k"]` on an unset key raises KeyError before any write. The
model returns `Err(MissingSessionKey)` there and changes nothing. A missing id in
`get_or_404` is `Err(NotFound)`, also with no change.

Prices are exact `real`s, so floating-point rounding is abstracted away.

## Model

| member | source | states |
|---|---|---|
| `Cart.TotalConcat` | app.py:137 | the cart total (Python `sum` of line-item prices, 0 for an empty cart) of two carts placed end to end is the sum of their totals, so after any sequence of adds the total grows by exactly the added prices |
| `Cart.JoinLength` | app.py:145 | the `", "`-joined text of the item names ends exactly after the last name: its length is the offset of the last name plus that name's length |
| `Cart.JoinPart` | app.py:145 | each cart item name can be read back, in cart order, at its offset in the joined order-items text |
| `Cart.JoinSeparator` | app.py:145 | exactly the separator `", "` stands between two neighbouring names in the joined text |
| `Tables.FirstWhere` | app.py:219-228 | the `filter_by(...).first()` lookup returns a matching row id in the searched range, and no lower id matches; when it returns none, no row in the range matches |
| `Scenarios.TwoItemCart` | app.py:145-146 | a cart holding ProductX at 10.0 then ProductY at 15.5 gives an order total of 25.5 and the items text "ProductX, ProductY" |
| `App.Shop.constructor` | app.py:72-73 | a fresh database has empty tables, the session is empty, and the invariant holds |
| `App.Shop.Login` | app.py:99-110 | a successful login sets the session user and resets the cart to empty; a failed login leaves the session unchanged |
| `App.Shop.Logout` | app.py:113-116 | logout unsets the session user and cart |
| `App.Shop.ListProducts` | app.py:119-124 | without a session user the client is redirected; otherwise all products are listed, with no category filtering |
| `App.Shop.AddToCart` | app.py:127-132 | an unknown product id gives NotFound and leaves the cart unchanged; a known one appends exactly one `{name, price}` copy of the product at the end of the cart, leaving earlier items as they were; the total grows by that price; no tables change |
| `App.Shop.ShowCart` | app.py:135-138 | the cart page shows the session cart and the sum of its prices (0 for an empty cart); with no cart in the session it fails with the KeyError |
| `App.Shop.PlaceOrder` | app.py:141-154 | adds exactly one new order with the session user, the cart names joined by ", " in cart order, the sum of cart prices, the submitted payment method and status Pending, and empties the cart; with no user or cart nothing changes |
| `App.Shop.OrderComplete` | app.py:198-203 | on an existing id sets only that order's status to Delivered; every other field and every other order is unchanged; completing a delivered order changes nothing; an unknown id gives NotFound and no change |
| `App.Shop.OrderDelete` | app.py:206-210 | removes exactly the addressed order; an unknown id gives NotFound and no change |
| `App.Shop.FindOrCreateCategory` | app.py:219-223 | returns a category with exactly the given name; creates one only when none exists, otherwise leaves the table unchanged |
| `App.Shop.FindOrCreateSubCategory` | app.py:225-235 | returns a subcategory with exactly the given (name, category id); creates one only when none exists, otherwise leaves the table unchanged |
| `App.Shop.AddProduct` | app.py:213-246 | adds exactly one new product that references the found-or-created category and subcategory; each of those is created only if absent, so repeated calls with the same names create no duplicate rows |
| `App.Shop.EditProduct` | app.py:251-265 | on an existing id changes only the product's name, price and image; an unknown id gives NotFound and no change |
| `App.Shop.DeleteProduct` | app.py:268-272 | removes exactly the addressed product and nothing else; an unknown id gives NotFound and no change |

## Left out

- App.Shop.AddProduct: promises only that each new id was not yet in its table. SQLite picks one more than the highest id in use, so after deleting the highest row its id can be reused. The model uses a counter that only grows.
- App.Shop.PlaceOrder: promises only that the new order id was not yet in the table, for the same reason as AddProduct.
- App.Shop.AddProduct, App.Shop.EditProduct: the redirect taken when the session lacks the admin flag is not modelled. The model behaves as if an admin is logged in. The GET branches, which only render a form, are also not modelled.
- Credential checks: the user and admin lookups by e-mail and password are not modelled. Login receives the lookup's result as a parameter.
- Registration, admin login, the `session["admin"]` flag and the seeded admin row are not modelled.
- Logout clears only the user and cart, because the admin flag is not modelled.
- Form parsing is not modelled: a missing form field or a price that `float` cannot parse would raise. In `add_product` this can happen after earlier commits: a missing `subcategory` field is read after the new category is committed (app.py:223, 226), and an unparsable `price` or a missing `name` or `image` fails after the new subcategory is committed (app.py:235, 238-240). Those category and subcategory rows then stay in the database; the model has no such partial path.
- Floating-point arithmetic is not modelled: prices and totals are exact.
- `created_at` is not modelled, because it is a clock reading.
- Rendering, redirects, the payment-QR page and the admin dashboard and order listings are not modelled, because they are presentation only.
- `PREDEFINED_CATEGORIES` is not modelled: it is only passed to a template.
- The product image is only the form string; no file is stored.
- Persistence and commit behaviour are not modelled, including a failure between committing an order and resetting the cart.
- Concurrent requests are not modelled, including the race in find-or-create.
