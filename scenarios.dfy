/** Request sequences against a fresh shop, each one's outcome derived
    from the handlers' contracts alone. */
module Scenarios {
  import opened Common
  import opened ProductModel
  import C = CartModel
  import O = OrderModel
  import Inv = Inventory
  import Controllers

  /** A product at price 10 with no discount, five in stock. */
  function Widget(): (p: Product)
    ensures SchemaBounds(p) && OneReviewPerUser(p.reviews)
  {
    Product("Widget", "widget", 10.0, 0.0, 5, 10, true, [], 0.0, 0)
  }

  /** Renaming a product and saving it stores the trimmed new name and
      re-derives the slug from it; assigning the name it already has, even
      with surrounding white space, keeps the stored slug. A stored name has
      been through the trimming setter. The save validates every field, so
      the product meets the schema's bounds (price and stock at least 0,
      discount in 0..100, an average rating in 1..5) and the new name meets
      the name validators (present after trimming, at most 100 characters). */
  method RenameProduct(p: Product, n: string) returns (renamed: Product, kept: Product)
    requires Trim(p.name) == p.name
    requires SchemaBounds(p) && 0 <= p.stock && 1.0 <= p.averageRating <= 5.0
    requires 0 < |Trim(n)| <= 100
    ensures renamed == p.(name := Trim(n), slug := if Trim(n) == p.name then p.slug else Slugify(Trim(n)))
    ensures kept == p
  {
    var doc := new ProductDoc.Load(p);
    doc.SetName(n);
    doc.Save();
    renamed := doc.Value();
    var same := new ProductDoc.Load(p);
    same.SetName(p.name);
    same.Save();
    kept := same.Value();
  }

  /** The name setter trims surrounding spaces. */
  lemma RedShoeTrimmed()
    ensures Trim(" Red Shoe ") == "Red Shoe"
  {
    assert TrimStart(" Red Shoe ") == "Red Shoe ";
    assert TrimEnd("Red Shoe ") == "Red Shoe";
  }

  /** The space of a two-word name becomes one dash. */
  lemma RedShoeSlug()
    ensures Slugify("Red Shoe") == "red-shoe"
  {
    assert ToLower("Red Shoe") == "red shoe";
    assert Dashify("red shoe") == "red-shoe";
    CollapseSlug("red-shoe");
  }

  /** A first add of two pieces creates one line at the product's price,
      and a second add of ten pieces (twelve held against a stock of five)
      is refused with the cart left as it was. */
  method AddThenOversell(u: UserId) returns (first: Result<C.Cart>, second: Result<C.Cart>, after: C.Cart)
    ensures first == Ok(C.Cart(u, [C.CartLine(0, 7, 2, 10.0)], 2, 20.0))
    ensures second == Err(InsufficientStock)
    ensures after == first.value
  {
    var p := Widget();
    var shop := new Controllers.Shop(map[7 := p]);
    assert Controllers.CartPrice(p) == 10.0;
    assert Controllers.Held([], 7) == 0;
    first := shop.AddToCart(u, Some(7), Some(2));
    var line := C.CartLine(0, 7, 2, 10.0);
    assert first.value.items == [line];
    C.TotalsSingle(line);
    assert C.FindLine([line], C.ByProduct(7)) == 0;
    assert Controllers.Held(shop.carts[u].items, 7) == 2;
    second := shop.AddToCart(u, Some(7), Some(10));
    after := shop.carts[u];
  }

  /** Cancelling twice: when the first cancel succeeds, the second is
      refused, and the stock is restored by the order's quantities once
      only. */
  method CancelTwice(shop: Controllers.Shop, actor: Actor, id: ObjectId, clock1: O.Clock, clock2: O.Clock)
      returns (first: Result<O.Order>, second: Result<O.Order>)
    requires shop.Valid()
    modifies shop
    ensures first.Ok? ==> second == Err(NotCancellable)
    ensures first.Ok? ==>
      id in old(shop.orders) && shop.products == Inv.Shifted(old(shop.products), old(shop.orders)[id].items, true)
    ensures first.Err? ==> second == first && shop.products == old(shop.products)
  {
    first := shop.CancelOrder(actor, id, clock1);
    second := shop.CancelOrder(actor, id, clock2);
  }

  /** A fresh shop holding the widget, after the user has ordered three of
      them: the order is the first one, pending and the user's, with the
      three pieces, and two remain in stock. */
  method CheckoutThree(u: UserId, shipping: O.Address, prices: O.Prices, clock: O.Clock)
      returns (shop: Controllers.Shop, placed: Result<ObjectId>)
    requires O.AddressValid(shipping) && O.PricesValid(prices)
    ensures fresh(shop) && shop.Valid()
    ensures placed == Ok(0) && 0 in shop.orders
    ensures shop.orders[0].user == u && shop.orders[0].status == O.Pending
    ensures shop.orders[0].items == [O.OrderLine(7, "Widget", "widget.png", 10.0, 3)]
    ensures shop.products.Keys == {7} && shop.products[7].stock == 2
  {
    var p := Widget();
    shop := new Controllers.Shop(map[7 := p]);
    var line := O.OrderLine(7, "Widget", "widget.png", 10.0, 3);
    assert Inv.FirstFailure(shop.products, [line]) == None;
    assert O.ParsePaymentMethod("paypal") == Some(O.PayPal);
    assert O.LinesValid([line]);
    placed := shop.CreateOrder(u, [line], Some(shipping), "paypal", prices, clock);
    assert [line][1..] == [];
  }

  /** Checkout of three pieces from a stock of five leaves two; cancelling
      the order brings the stock back to five and a second cancel is
      refused. */
  method CheckoutThenCancel(u: UserId, shipping: O.Address, prices: O.Prices, clock: O.Clock)
      returns (placed: Result<ObjectId>, stockAfterCheckout: int, cancelled: Result<O.Order>,
               stockAfterCancel: int, again: Result<O.Order>)
    requires O.AddressValid(shipping) && O.PricesValid(prices)
    ensures placed == Ok(0)
    ensures stockAfterCheckout == 2
    ensures cancelled.Ok? && cancelled.value.status == O.Cancelled
    ensures stockAfterCancel == 5
    ensures again == Err(NotCancellable)
  {
    var shop;
    shop, placed := CheckoutThree(u, shipping, prices, clock);
    stockAfterCheckout := shop.products[7].stock;
    var owner := Actor(u, "owner", false);
    cancelled := shop.CancelOrder(owner, 0, clock);
    stockAfterCancel := shop.products[7].stock;
    again := shop.CancelOrder(owner, 0, clock);
  }

  /** A shipped order cannot be cancelled and the stock stays as it was. */
  method CancelShipped(u: UserId, shipping: O.Address, prices: O.Prices, clock: O.Clock)
      returns (cancelled: Result<O.Order>, stock: int)
    requires O.AddressValid(shipping) && O.PricesValid(prices)
    ensures cancelled == Err(NotCancellable)
    ensures stock == 2
  {
    var shop, placed := CheckoutThree(u, shipping, prices, clock);
    assert O.ParseStatus("shipped") == Some(O.Shipped);
    var shipped := shop.UpdateOrderStatus(0, "shipped", "", clock);
    cancelled := shop.CancelOrder(Actor(u, "owner", false), 0, clock);
    stock := shop.products[7].stock;
  }
}
