/**
 The shop's request handlers (app.py) as one state machine: the database
 tables become maps from row id to record, each with a counter that hands out
 fresh ids, and the client's session becomes the `user` and `cart` fields.
 Every handler is a method whose frame names exactly the tables and session
 keys it writes; `Valid()` is the invariant that all of them keep.
 */
module App {
  import opened Records
  import opened Cart
  import opened Tables

  /** What the cart page shows. */
  datatype CartPage = CartPage(items: seq<LineItem>, total: real)

  ghost predicate HasCategoryNamed(categories: map<int, Category>, name: string)
  {
    exists id :: id in categories && categories[id].name == name
  }

  ghost predicate HasSubCategory(subcategories: map<int, SubCategory>, name: string, categoryId: int)
  {
    exists id :: id in subcategories && subcategories[id] == SubCategory(name, categoryId)
  }

  class Shop {
    // Database tables and their next free ids.
    var products: map<int, Product>
    var categories: map<int, Category>
    var subcategories: map<int, SubCategory>
    var orders: map<int, Order>
    var nextProductId: int
    var nextCategoryId: int
    var nextSubcategoryId: int
    var nextOrderId: int

    // The session: session["user"] and session["cart"], each possibly unset.
    var user: Option<string>
    var cart: Option<seq<LineItem>>

    /** Every row id was handed out by its table's counter. */
    ghost predicate IdsIssued()
      reads this
    {
      && 1 <= nextProductId && 1 <= nextCategoryId && 1 <= nextSubcategoryId && 1 <= nextOrderId
      && (forall id :: id in products ==> 1 <= id < nextProductId)
      && (forall id :: id in categories ==> 1 <= id < nextCategoryId)
      && (forall id :: id in subcategories ==> 1 <= id < nextSubcategoryId)
      && (forall id :: id in orders ==> 1 <= id < nextOrderId)
    }

    /** A product's category and subcategory rows exist, and the subcategory
        belongs to the product's category; every subcategory has its category. */
    ghost predicate ReferencesResolve()
      reads this
    {
      && (forall id :: id in subcategories ==> subcategories[id].categoryId in categories)
      && (forall id :: id in products ==>
            && products[id].categoryId in categories
            && products[id].subcategoryId in subcategories
            && subcategories[products[id].subcategoryId].categoryId == products[id].categoryId)
    }

    /** Find-or-create never duplicates: one category per name, one
        subcategory per (name, category_id). */
    ghost predicate NoDuplicateTaxonomy()
      reads this
    {
      && (forall i, j :: i in categories && j in categories && categories[i].name == categories[j].name ==> i == j)
      && (forall i, j :: i in subcategories && j in subcategories && subcategories[i] == subcategories[j] ==> i == j)
    }

    /** An order is Pending or Delivered. */
    ghost predicate StatusesKnown()
      reads this
    {
      forall id :: id in orders ==> orders[id].status == Pending || orders[id].status == Delivered
    }

    ghost predicate Valid()
      reads this
    {
      IdsIssued() && ReferencesResolve() && NoDuplicateTaxonomy() && StatusesKnown()
    }

    /** A fresh database and an empty session. */
    constructor ()
      ensures Valid()
      ensures products == map[] && categories == map[] && subcategories == map[] && orders == map[]
      ensures user == None && cart == None
    {
      products, categories, subcategories, orders := map[], map[], map[], map[];
      nextProductId, nextCategoryId, nextSubcategoryId, nextOrderId := 1, 1, 1, 1;
      user, cart := None, None;
    }

    /** POST /login. `found` is the name of the user whose credentials matched, if any
        (the credential lookup itself is not modelled). A match sets the session user
        and resets the cart to empty; otherwise the session is untouched. */
    method Login(found: Option<string>) returns (loggedIn: bool)
      requires Valid()
      modifies this`user, this`cart
      ensures Valid()
      ensures loggedIn == found.Some?
      ensures found.Some? ==> user == found && cart == Some([])
      ensures found.None? ==> user == old(user) && cart == old(cart)
    {
      loggedIn := found.Some?;
      if found.Some? {
        user := found;
        cart := Some([]);
      }
    }

    /** GET /logout: session.clear() unsets both keys. */
    method Logout()
      requires Valid()
      modifies this`user, this`cart
      ensures Valid()
      ensures user == None && cart == None
    {
      user, cart := None, None;
    }

    /** GET /products: without a session user the client is redirected (None);
        otherwise every product is listed, with no filtering by category. */
    method ListProducts() returns (r: Option<map<int, Product>>)
      ensures r.None? <==> user.None?
      ensures r.Some? ==> r.value == products
    {
      if user.None? {
        r := None;
      } else {
        r := Some(products);
      }
    }

    /** POST /add-to-cart/<id>. An unknown id is a 404; a known one appends a
        snapshot of the product's name and price at the end of the cart, with
        no merging of repeated products. */
    method AddToCart(id: int) returns (r: Result<()>)
      requires Valid()
      modifies this`cart
      ensures Valid()
      ensures id !in products ==> r == Err(NotFound) && cart == old(cart)
      ensures id in products && old(cart).None? ==> r == Err(MissingSessionKey) && cart == None
      ensures id in products && old(cart).Some? ==>
                && r == Ok(())
                && cart == Some(old(cart).value + [LineItem(products[id].name, products[id].price)])
                && Total(cart.value) == Total(old(cart).value) + products[id].price
    {
      if id !in products {
        return Err(NotFound);
      }
      var product := products[id];
      if cart.None? {
        return Err(MissingSessionKey);
      }
      cart := Some(cart.value + [LineItem(product.name, product.price)]);
      r := Ok(());
    }

    /** GET /cart. The total treats a missing cart as empty, but rendering then
        indexes session["cart"] and fails. */
    method ShowCart() returns (r: Result<CartPage>)
      ensures cart.None? ==> r == Err(MissingSessionKey)
      ensures cart.Some? ==> r.Ok? && r.value.items == cart.value
      ensures cart.Some? ==> r.value.total == Total(cart.value)
      ensures cart == Some([]) ==> r == Ok(CartPage([], 0.0))
    {
      var total := Total(if cart.Some? then cart.value else []);
      if cart.None? {
        return Err(MissingSessionKey);
      }
      r := Ok(CartPage(cart.value, total));
    }

    /** POST /place-order. Stores one new Pending order built from the session
        user and cart and the submitted payment method, then empties the cart. */
    method PlaceOrder(payment: string) returns (r: Result<int>)
      requires Valid()
      modifies this`orders, this`nextOrderId, this`cart
      ensures Valid()
      ensures old(user).None? || old(cart).None? ==>
                r == Err(MissingSessionKey) && orders == old(orders) && cart == old(cart)
      ensures old(user).Some? && old(cart).Some? ==>
                && r.Ok?
                && r.value !in old(orders)
                && orders == old(orders)[r.value := Order(old(user).value, ItemsText(old(cart).value),
                                                          Total(old(cart).value), payment, Pending)]
                && cart == Some([])
    {
      if user.None? || cart.None? {
        return Err(MissingSessionKey);
      }
      var order := Order(user.value, ItemsText(cart.value), Total(cart.value), payment, Pending);
      var id := nextOrderId;
      orders := orders[id := order];
      nextOrderId := nextOrderId + 1;
      cart := Some([]);
      r := Ok(id);
    }

    /** GET /admin/order-complete/<id>: sets that order's status to Delivered,
        and nothing else. Completing a delivered order changes nothing. */
    method OrderComplete(id: int) returns (r: Result<()>)
      requires Valid()
      modifies this`orders
      ensures Valid()
      ensures id !in old(orders) ==> r == Err(NotFound) && orders == old(orders)
      ensures id in old(orders) ==>
                r == Ok(()) && orders == old(orders)[id := old(orders)[id].(status := Delivered)]
      ensures id in old(orders) && old(orders)[id].status == Delivered ==> orders == old(orders)
    {
      if id !in orders {
        return Err(NotFound);
      }
      orders := orders[id := orders[id].(status := Delivered)];
      r := Ok(());
    }

    /** GET /admin/order-delete/<id>: removes exactly that order. */
    method OrderDelete(id: int) returns (r: Result<()>)
      requires Valid()
      modifies this`orders
      ensures Valid()
      ensures id !in old(orders) ==> r == Err(NotFound) && orders == old(orders)
      ensures id in old(orders) ==> r == Ok(()) && orders == old(orders) - {id}
    {
      if id !in orders {
        return Err(NotFound);
      }
      orders := orders - {id};
      r := Ok(());
    }

    /** The category step of add_product: the category with this exact name,
        created when there is none. */
    method FindOrCreateCategory(name: string) returns (categoryId: int)
      requires Valid()
      modifies this`categories, this`nextCategoryId
      ensures Valid()
      ensures categoryId in categories && categories[categoryId] == Category(name)
      ensures HasCategoryNamed(old(categories), name) ==>
                categoryId in old(categories) && categories == old(categories)
      ensures !HasCategoryNamed(old(categories), name) ==>
                && categoryId !in old(categories)
                && categories == old(categories)[categoryId := Category(name)]
    {
      var found := FirstWhere(categories, (c: Category) => c.name == name, 1, nextCategoryId);
      if found.Some? {
        categoryId := found.value;
      } else {
        assert forall id :: id in categories ==> categories[id].name != name;
        categoryId := nextCategoryId;
        categories := categories[categoryId := Category(name)];
        nextCategoryId := nextCategoryId + 1;
      }
    }

    /** The subcategory step of add_product: the subcategory with this exact
        (name, category_id), created when there is none. */
    method FindOrCreateSubCategory(name: string, categoryId: int) returns (subcategoryId: int)
      requires Valid()
      requires categoryId in categories
      modifies this`subcategories, this`nextSubcategoryId
      ensures Valid()
      ensures subcategoryId in subcategories && subcategories[subcategoryId] == SubCategory(name, categoryId)
      ensures HasSubCategory(old(subcategories), name, categoryId) ==>
                subcategoryId in old(subcategories) && subcategories == old(subcategories)
      ensures !HasSubCategory(old(subcategories), name, categoryId) ==>
                && subcategoryId !in old(subcategories)
                && subcategories == old(subcategories)[subcategoryId := SubCategory(name, categoryId)]
    {
      var wanted := SubCategory(name, categoryId);
      var found := FirstWhere(subcategories, (s: SubCategory) => s == wanted, 1, nextSubcategoryId);
      if found.Some? {
        subcategoryId := found.value;
      } else {
        assert forall id :: id in subcategories ==> subcategories[id] != wanted;
        subcategoryId := nextSubcategoryId;
        subcategories := subcategories[subcategoryId := wanted];
        nextSubcategoryId := nextSubcategoryId + 1;
      }
    }

    /** POST /admin/add-product: finds or creates the category by name, then the
        subcategory by (name, category_id), then stores a new product that
        references both. */
    method AddProduct(name: string, price: real, image: string, categoryName: string, subcategoryName: string)
      returns (categoryId: int, subcategoryId: int, productId: int)
      requires Valid()
      modifies this`products, this`categories, this`subcategories
      modifies this`nextProductId, this`nextCategoryId, this`nextSubcategoryId
      ensures Valid()
      ensures categoryId in categories && categories[categoryId] == Category(categoryName)
      ensures HasCategoryNamed(old(categories), categoryName) ==>
                categoryId in old(categories) && categories == old(categories)
      ensures !HasCategoryNamed(old(categories), categoryName) ==>
                && categoryId !in old(categories)
                && categories == old(categories)[categoryId := Category(categoryName)]
      ensures subcategoryId in subcategories
      ensures subcategories[subcategoryId] == SubCategory(subcategoryName, categoryId)
      ensures HasSubCategory(old(subcategories), subcategoryName, categoryId) ==>
                subcategoryId in old(subcategories) && subcategories == old(subcategories)
      ensures !HasSubCategory(old(subcategories), subcategoryName, categoryId) ==>
                && subcategoryId !in old(subcategories)
                && subcategories == old(subcategories)[subcategoryId := SubCategory(subcategoryName, categoryId)]
      ensures productId !in old(products)
      ensures products == old(products)[productId := Product(name, price, image, categoryId, subcategoryId)]
    {
      categoryId := FindOrCreateCategory(categoryName);
      subcategoryId := FindOrCreateSubCategory(subcategoryName, categoryId);
      productId := nextProductId;
      products := products[productId := Product(name, price, image, categoryId, subcategoryId)];
      nextProductId := nextProductId + 1;
    }

    /** POST /admin/edit-product/<id>: overwrites name, price and image of an
        existing product; its category and subcategory stay as they were. */
    method EditProduct(id: int, name: string, price: real, image: string) returns (r: Result<()>)
      requires Valid()
      modifies this`products
      ensures Valid()
      ensures id !in old(products) ==> r == Err(NotFound) && products == old(products)
      ensures id in old(products) ==>
                && r == Ok(())
                && products == old(products)[id := old(products)[id].(name := name, price := price, image := image)]
    {
      if id !in products {
        return Err(NotFound);
      }
      products := products[id := products[id].(name := name, price := price, image := image)];
      r := Ok(());
    }

    /** GET /admin/delete-product/<id>: removes exactly that product. Carts hold
        snapshots, so they are unaffected. */
    method DeleteProduct(id: int) returns (r: Result<()>)
      requires Valid()
      modifies this`products
      ensures Valid()
      ensures id !in old(products) ==> r == Err(NotFound) && products == old(products)
      ensures id in old(products) ==> r == Ok(()) && products == old(products) - {id}
    {
      if id !in products {
        return Err(NotFound);
      }
      products := products - {id};
      r := Ok(());
    }
  }
}
