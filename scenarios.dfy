/**
 Client code that drives the shop through request sequences and checks, from
 the handlers' contracts alone, what a customer and an admin observe.
 */
module Scenarios {
  import opened Records
  import opened Cart
  import opened App

  /** Adding a second product under the same category and subcategory names
      reuses both rows. */
  method CatalogReusesTaxonomy()
  {
    var shop := new Shop();
    var spices, whole, x := shop.AddProduct("ProductX", 10.0, "x.png", "Spices", "Whole");
    assert shop.categories[spices].name == "Spices";
    assert shop.subcategories[whole] == SubCategory("Whole", spices);
    var spices', whole', y := shop.AddProduct("ProductY", 15.5, "y.png", "Spices", "Whole");
    assert spices' == spices && whole' == whole;
    assert shop.categories == map[spices := Category("Spices")];
    assert shop.subcategories == map[whole := SubCategory("Whole", spices)];
  }

  /** The cart of the checkout below: its total and its order-items text. */
  lemma TwoItemCart()
    ensures Total([LineItem("ProductX", 10.0), LineItem("ProductY", 15.5)]) == 25.5
    ensures ItemsText([LineItem("ProductX", 10.0), LineItem("ProductY", 15.5)]) == "ProductX, ProductY"
  {
    var items := [LineItem("ProductX", 10.0), LineItem("ProductY", 15.5)];
    assert items[..1] == [LineItem("ProductX", 10.0)];
    assert Names(items) == ["ProductX", "ProductY"];
    assert Names(items)[..1] == ["ProductX"];
  }

  /** A customer logs in and adds a product at 10.0 and one at 15.5. */
  method FillCart(shop: Shop, x: int, y: int)
    requires shop.Valid()
    requires x in shop.products && shop.products[x].name == "ProductX" && shop.products[x].price == 10.0
    requires y in shop.products && shop.products[y].name == "ProductY" && shop.products[y].price == 15.5
    modifies shop
    ensures shop.Valid()
    ensures shop.user == Some("A")
    ensures shop.cart == Some([LineItem("ProductX", 10.0), LineItem("ProductY", 15.5)])
  {
    var loggedIn := shop.Login(Some("A"));
    var added := shop.AddToCart(x);
    assert shop.cart == Some([LineItem("ProductX", 10.0)]);
    added := shop.AddToCart(y);
    assert [LineItem("ProductX", 10.0)] + [LineItem("ProductY", 15.5)]
        == [LineItem("ProductX", 10.0), LineItem("ProductY", 15.5)];
  }

  /** That customer views the cart and pays by cash on delivery. */
  method Checkout(shop: Shop)
    requires shop.Valid()
    requires shop.user == Some("A")
    requires shop.cart == Some([LineItem("ProductX", 10.0), LineItem("ProductY", 15.5)])
    modifies shop
  {
    TwoItemCart();
    var page := shop.ShowCart();
    assert page.value.total == 25.5;
    var placed := shop.PlaceOrder("COD");
    assert shop.orders[placed.value] == Order("A", "ProductX, ProductY", 25.5, "COD", Pending);
    assert shop.cart == Some([]);
  }

  /** The admin delivers an order and then deletes it; a second delete is a 404. */
  method DeliverAndDelete(shop: Shop, id: int)
    requires shop.Valid()
    requires id in shop.orders && shop.orders[id].status == Pending
    modifies shop
  {
    var done := shop.OrderComplete(id);
    assert shop.orders[id].status == Delivered;
    var gone := shop.OrderDelete(id);
    assert id !in shop.orders;
    gone := shop.OrderDelete(id);
    assert gone == Err(NotFound);
  }

  /** A session without a cart cannot add to it, an unknown product is a 404,
      and adding one product twice gives two line items. */
  method CartNeedsLogin(shop: Shop, x: int)
    requires shop.Valid()
    requires shop.cart == None
    requires x in shop.products && x + 1 !in shop.products
    requires shop.products[x].name == "Rice" && shop.products[x].price == 2.5
    modifies shop
  {
    var added := shop.AddToCart(x);
    assert added == Err(MissingSessionKey);
    added := shop.AddToCart(x + 1);
    assert added == Err(NotFound);
    var loggedIn := shop.Login(Some("B"));
    added := shop.AddToCart(x);
    assert shop.cart == Some([LineItem("Rice", 2.5)]);
    added := shop.AddToCart(x);
    assert [LineItem("Rice", 2.5)] + [LineItem("Rice", 2.5)] == [LineItem("Rice", 2.5), LineItem("Rice", 2.5)];
    assert shop.cart == Some([LineItem("Rice", 2.5), LineItem("Rice", 2.5)]);
    shop.Logout();
    var page := shop.ShowCart();
    assert page == Err(MissingSessionKey);
  }
}
