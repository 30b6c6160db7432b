/**
  The storefront's handlers as methods of one object that owns the store.
  Each handler reads the slots it needs, changes its in-memory copy, and
  writes the changed slots back, exactly in the order the page does.
 */
module Storefront {
  import opened JsArray
  import opened Entities
  import opened Storage
  import opened CartEngine
  import opened OrderEngine
  import opened Forms

  class Shop {
    var store: Store

    /** Every slot holds its own kind of value and the cart keeps its invariant. */
    ghost predicate Valid()
      reads this
    {
      WellTyped(store) && ValidCart(Cart(store))
    }

    /** A fresh browser profile: nothing stored yet. */
    constructor ()
      ensures Valid() && store == map[]
    {
      store := map[];
    }

    /** `setStored(key, value)`. */
    method SetStored(key: Key, value: Value)
      modifies this
      ensures store == old(store)[key := value]
    {
      store := Put(store, key, value);
    }

    /** `ensureData()`: write each seeded slot only when it is absent; the user slot is never created. */
    method EnsureData()
      requires Valid()
      modifies this
      ensures Valid()
      ensures store == Storage.EnsureData(old(store))
      ensures UserKey in store <==> UserKey in old(store)
    {
      if ProductsKey !in store {
        SetStored(ProductsKey, ProductList(DefaultProducts));
      }
      if CartKey !in store {
        SetStored(CartKey, LineList([]));
      }
      if OrdersKey !in store {
        SetStored(OrdersKey, OrderList([]));
      }
    }

    /**
      `addToCart(productId)`: nothing is written for an id the catalog lacks;
      otherwise the cart is saved with the product merged into its line or
      appended as a new one.
     */
    method AddToCart(productId: string)
      requires Valid()
      modifies this
      ensures Valid()
      ensures FindProduct(old(Products(store)), productId).None? ==> store == old(store)
      ensures FindProduct(old(Products(store)), productId).Some? ==>
        store == old(store)[CartKey := LineList(CartEngine.AddToCart(old(Products(store)), old(Cart(store)), productId))]
    {
      var products := Products(store);
      var found := FindProduct(products, productId);
      if found.None? {
        return;
      }
      var product := products[found.value];
      var cart := Cart(store);
      AddKeepsValid(products, cart, productId);
      var existing := FindLine(cart, productId);
      if existing.Some? {
        var i := existing.value;
        cart := cart[i := cart[i].(quantity := cart[i].quantity + 1)];
      } else {
        cart := cart + [NewLine(product)];
      }
      SetStored(CartKey, LineList(cart));
    }

    /** The `data-remove` branch: the cart is saved without any line of that id. */
    method RemoveFromCart(lineId: string)
      requires Valid()
      modifies this
      ensures Valid()
      ensures store == old(store)[CartKey := LineList(RemoveLine(old(Cart(store)), lineId))]
    {
      var cart := RemoveLine(Cart(store), lineId);
      RemoveKeepsValid(Cart(store), lineId);
      SetStored(CartKey, LineList(cart));
    }

    /**
      The quantity branch: when a line has that id, the first such line gets
      quantity `max(1, value)` and the cart is saved; otherwise nothing is written.
     */
    method ChangeQuantity(lineId: string, value: int)
      requires Valid()
      modifies this
      ensures Valid()
      ensures FindLine(old(Cart(store)), lineId).None? ==> store == old(store)
      ensures FindLine(old(Cart(store)), lineId).Some? ==>
        store == old(store)[CartKey := LineList(SetQuantity(old(Cart(store)), lineId, value))]
    {
      var cart := Cart(store);
      SetQuantityKeepsValid(cart, lineId, value);
      var item := FindLine(cart, lineId);
      if item.Some? {
        var i := item.value;
        cart := cart[i := cart[i].(quantity := ClampQuantity(value))];
        SetStored(CartKey, LineList(cart));
      }
    }

    /**
      `handleCheckout`. An empty cart is rejected and nothing is written.
      Otherwise the acting user is stored, the new order (the cart's lines,
      their total, "Processing", the acting user's email, the form fields)
      is appended as the last order, and the cart is emptied.
     */
    method Checkout(fields: map<string, string>, random: real, placedAt: string) returns (result: CheckoutResult)
      requires Valid()
      requires 0.0 <= random < 1.0
      modifies this
      ensures Valid()
      ensures old(Cart(store)) == [] <==> result == EmptyCartRejected
      ensures result == EmptyCartRejected ==> store == old(store)
      ensures result.Placed? ==>
        var user := ActingUser(old(CurrentUser(store)), fields);
        && result.order.items == old(Cart(store))
        && result.order.total == CartTotal(old(Cart(store)))
        && result.order.status == Processing
        && result.order.userEmail == user.email
        && result.order.shipping == fields
        && 10000 <= result.order.id <= 99999
        && result.order == NewOrder(OrderId(random), old(Cart(store)), user, placedAt, fields)
        && Orders(store) == old(Orders(store)) + [result.order]
        && Cart(store) == []
        && CurrentUser(store) == Some(user)
        && Products(store) == old(Products(store))
        && store == old(store)[UserKey := Account(user)]
                              [OrdersKey := OrderList(old(Orders(store)) + [result.order])]
                              [CartKey := LineList([])]
    {
      var cart := Cart(store);
      if |cart| == 0 {
        return EmptyCartRejected;
      }
      var user := ActingUser(CurrentUser(store), fields);
      SetStored(UserKey, Account(user));
      var order := Order(OrderId(random), cart, CartTotal(cart), Processing, placedAt, user.email, fields);
      var orders := Orders(store);
      orders := orders + [order];
      SetStored(OrdersKey, OrderList(orders));
      SetStored(CartKey, LineList([]));
      result := Placed(order);
    }

    /**
      `handleAdminStatus`: when some order's printed id equals the selector,
      the first such order takes the chosen status and the orders are saved;
      otherwise nothing is written.
     */
    method SetOrderStatus(selector: string, status: string)
      requires Valid()
      modifies this
      ensures Valid()
      ensures FindOrder(old(Orders(store)), selector).None? ==> store == old(store)
      ensures FindOrder(old(Orders(store)), selector).Some? ==>
        store == old(store)[OrdersKey := OrderList(UpdateStatus(old(Orders(store)), selector, status))]
    {
      var orders := Orders(store);
      var found := FindOrder(orders, selector);
      if found.Some? {
        var i := found.value;
        orders := orders[i := orders[i].(status := status)];
        SetStored(OrdersKey, OrderList(orders));
      }
    }

    /** `handleAdminProduct`: the catalog is saved with one new product appended last. */
    method AddProduct(form: ProductForm, now: nat)
      requires Valid()
      modifies this
      ensures Valid()
      ensures Products(store) == old(Products(store)) + [NewProduct(form, now)]
      ensures store == old(store)[ProductsKey := ProductList(old(Products(store)) + [NewProduct(form, now)])]
    {
      var products := Products(store);
      products := products + [NewProduct(form, now)];
      SetStored(ProductsKey, ProductList(products));
    }

    /** `handleLogin`: the submitted name, email and role replace the session user. */
    method Login(fields: map<string, string>)
      requires Valid()
      modifies this
      ensures Valid()
      ensures CurrentUser(store) == Some(LoginUser(fields))
      ensures store == old(store)[UserKey := Account(LoginUser(fields))]
    {
      SetStored(UserKey, Account(LoginUser(fields)));
    }
  }

  /**
    From a fresh profile: seed, add the rocket twice, check out as a new
    shopper. One order of 109.98 in "Processing" results and the cart is empty.
   */
  method RocketScenario(random: real, placedAt: string) returns (order: Order)
    requires 0.0 <= random < 1.0
    ensures order.total == 10998 && order.status == "Processing" && order.userEmail == "a@b.com"
    ensures |order.items| == 1 && order.items[0].id == "ll-rocket" && order.items[0].quantity == 2
  {
    var shop := new Shop();
    shop.EnsureData();
    assert Products(shop.store) == DefaultProducts;
    shop.AddToCart("ll-rocket");
    shop.AddToCart("ll-rocket");
    AddTwice(DefaultProducts, [], "ll-rocket", 0);
    var line := CartLine("ll-rocket", "Galaxy Rocket Builder", 5499, "assets/product-rocket.svg", 2);
    assert Cart(shop.store) == [line];
    SumOfOne(line, LineTotal);
    var fields := map["fullName" := "A", "email" := "a@b.com"];
    assert FormField(fields, "email") == "a@b.com";
    var result := shop.Checkout(fields, random, placedAt);
    order := result.order;
    assert Cart(shop.store) == [];
  }
}
