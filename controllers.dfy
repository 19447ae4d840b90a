/** The request handlers of the cart, order and review routes, run one at a
    time against an in-memory store: products, one cart per user and the
    orders, each kept as a value; a handler loads a document, changes it and
    writes the saved value back. */
module Controllers {
  import opened Common
  import opened ProductModel
  import C = CartModel
  import O = OrderModel
  import Inv = Inventory

  // ---------------------------------------------------------------------
  // Store invariants

  /** A product as the store keeps it: the schema bounds, and at most one
      review per user. */
  ghost predicate ProductStored(p: Product) {
    SchemaBounds(p) && OneReviewPerUser(p.reviews)
  }

  /** Every line id was handed out before `bound`. */
  predicate IdsBelow(items: seq<C.CartLine>, bound: nat) {
    forall i :: 0 <= i < |items| ==> items[i].id < bound
  }

  /** A cart as the store keeps it under its owner's key: valid lines, totals
      that match them, and distinct line ids all handed out already. */
  predicate CartStored(c: C.Cart, u: UserId, bound: nat) {
    c.user == u && C.Consistent(c) && C.DistinctIds(c.items) && IdsBelow(c.items, bound)
  }

  /** The lines of a user's cart, none when the user has no cart. */
  function CartItemsOf(carts: map<UserId, C.Cart>, u: UserId): seq<C.CartLine> {
    if u in carts then carts[u].items else []
  }

  /** The price a cart line snapshots: `discountedPrice || price`. */
  function CartPrice(p: Product): (r: real)
    ensures SchemaBounds(p) ==> 0.0 <= r <= p.price
    ensures SchemaBounds(p) && p.discount < 100.0 ==> r == DiscountedPrice(p)
    ensures p.discount == 100.0 ==> r == p.price
  {
    if DiscountedPrice(p) != 0.0 then DiscountedPrice(p)
    else
      FreeOnlyAtFullDiscount(p);
      p.price
  }

  /** Below a 100% discount the discounted price is 0 only for a free
      product. */
  lemma FreeOnlyAtFullDiscount(p: Product)
    ensures SchemaBounds(p) && p.discount < 100.0 && DiscountedPrice(p) == 0.0 ==> p.price == 0.0
  {
    if SchemaBounds(p) && p.discount < 100.0 && p.price > 0.0 {
      var k := 100.0 - p.discount;
      assert k > 0.0;
      assert p.price * k > 0.0;
    }
  }

  /** The lines after `addToCart` succeeds: the first line for the product
      gets the added quantity and the current price, or a new line is
      pushed. */
  function AddedToCart(items: seq<C.CartLine>, product: ProductId, quantity: int, price: real, newId: ObjectId): seq<C.CartLine> {
    var i := C.FindLine(items, C.ByProduct(product));
    if i >= 0 then items[i := items[i].(quantity := items[i].quantity + quantity, price := price)]
    else items + [C.CartLine(newId, product, quantity, price)]
  }

  /** Adding to the cart raises the item total by the quantity, changes no
      other line, and leaves exactly one more line only when the product had
      none. */
  lemma AddedToCartEffect(items: seq<C.CartLine>, product: ProductId, quantity: int, price: real, newId: ObjectId)
    ensures var i := C.FindLine(items, C.ByProduct(product));
      var r := AddedToCart(items, product, quantity, price, newId);
      && C.TotalQuantity(r) == C.TotalQuantity(items) + quantity
      && |r| == (if i >= 0 then |items| else |items| + 1)
      && (forall j :: 0 <= j < |items| && j != i ==> r[j] == items[j])
      && (i >= 0 ==> r[i] == C.CartLine(items[i].id, product, items[i].quantity + quantity, price))
      && (i < 0 ==> r[|items|] == C.CartLine(newId, product, quantity, price))
  {
    var i := C.FindLine(items, C.ByProduct(product));
    if i >= 0 {
      var l := items[i].(quantity := items[i].quantity + quantity, price := price);
      assert AddedToCart(items, product, quantity, price, newId) == items[i := l];
      C.TotalsReplace(items, i, l);
    } else {
      var l := C.CartLine(newId, product, quantity, price);
      assert AddedToCart(items, product, quantity, price, newId) == items + [l];
      C.TotalsAppend(items, [l]);
      C.TotalsSingle(l);
    }
  }

  /** A positive quantity at a price of at least 0 keeps the lines valid. */
  lemma AddedToCartValid(items: seq<C.CartLine>, product: ProductId, quantity: int, price: real, newId: ObjectId)
    requires C.LinesValid(items) && quantity >= 1 && price >= 0.0
    ensures C.LinesValid(AddedToCart(items, product, quantity, price, newId))
  {
    AddedToCartEffect(items, product, quantity, price, newId);
  }

  /** With a fresh id for a pushed line, the ids stay distinct and all
      below the next fresh id. */
  lemma AddedToCartKeepsIds(items: seq<C.CartLine>, product: ProductId, quantity: int, price: real, newId: nat)
    requires C.DistinctIds(items) && IdsBelow(items, newId)
    ensures var r := AddedToCart(items, product, quantity, price, newId);
      C.DistinctIds(r) && IdsBelow(r, newId + 1)
  {
    AddedToCartEffect(items, product, quantity, price, newId);
    var r := AddedToCart(items, product, quantity, price, newId);
    forall a, b | 0 <= a < b < |r| ensures r[a].id != r[b].id {
      if b == |items| {
        assert r[a] == items[a];
      } else {
        assert r[a].id == items[a].id && r[b].id == items[b].id;
      }
    }
  }

  /** The quantity of the cart line `addToCart` would merge into, 0 when
      there is none. */
  function Held(items: seq<C.CartLine>, product: ProductId): int {
    var i := C.FindLine(items, C.ByProduct(product));
    if i >= 0 then items[i].quantity else 0
  }

  lemma HeldNonNegative(items: seq<C.CartLine>, product: ProductId)
    requires C.LinesValid(items)
    ensures Held(items, product) >= 0
  {
  }

  /** Why `addToCart` refuses, in the order the handler checks: no product
      id, a quantity (default 1) below 1, an unknown or inactive product, or
      less stock than the quantity already in the cart plus the new one. */
  function AddFailure(ps: Inv.Catalog, items: seq<C.CartLine>, productId: Option<ProductId>, quantity: Option<int>): Option<Failure> {
    if productId.None? then Some(MissingProductId)
    else if quantity.GetOr(1) < 1 then Some(InvalidQuantity)
    else if productId.value !in ps then Some(ProductNotFound)
    else if !ps[productId.value].isActive then Some(ProductUnavailable)
    else if ps[productId.value].stock < quantity.GetOr(1) + Held(items, productId.value) then Some(InsufficientStock)
    else None
  }

  /** A product a cart may keep showing: it exists, is active and in stock. */
  predicate Sellable(ps: Inv.Catalog, id: ProductId) {
    id in ps && ps[id].isActive && ps[id].stock > 0
  }

  /** The filter `getCart` applies to the lines, keeping their order. */
  function Pruned(items: seq<C.CartLine>, ps: Inv.Catalog): (r: seq<C.CartLine>)
    ensures |r| <= |items|
    ensures forall j :: 0 <= j < |r| ==> r[j] in items && Sellable(ps, r[j].product)
    ensures forall j :: 0 <= j < |items| && Sellable(ps, items[j].product) ==> items[j] in r
  {
    if |items| == 0 then []
    else
      var rest := Pruned(items[1..], ps);
      assert forall j :: 0 <= j < |rest| ==> rest[j] in items[1..];
      if Sellable(ps, items[0].product) then [items[0]] + rest else rest
  }

  /** Pruning distributes over concatenation: the kept lines stay in their
      order, each kept once. */
  lemma {:induction false} PrunedAppend(xs: seq<C.CartLine>, ys: seq<C.CartLine>, ps: Inv.Catalog)
    ensures Pruned(xs + ys, ps) == Pruned(xs, ps) + Pruned(ys, ps)
  {
    if |xs| == 0 {
      assert xs + ys == ys;
    } else {
      assert (xs + ys)[1..] == xs[1..] + ys;
      PrunedAppend(xs[1..], ys, ps);
    }
  }

  /** A single line is kept iff its product is sellable. */
  lemma PrunedOne(l: C.CartLine, ps: Inv.Catalog)
    ensures Pruned([l], ps) == if Sellable(ps, l.product) then [l] else []
  {
    assert [l][1..] == [];
  }

  /** No line of the pruned cart has an id that no line had before. */
  lemma {:induction false} PrunedAvoids(items: seq<C.CartLine>, ps: Inv.Catalog, id: ObjectId)
    requires forall k :: 0 <= k < |items| ==> items[k].id != id
    ensures forall k :: 0 <= k < |Pruned(items, ps)| ==> Pruned(items, ps)[k].id != id
  {
    if |items| > 0 {
      PrunedAvoids(items[1..], ps, id);
    }
  }

  /** Pruning keeps the lines valid and their ids below the bound. */
  lemma {:induction false} PrunedLinesValid(items: seq<C.CartLine>, ps: Inv.Catalog, bound: nat)
    requires C.LinesValid(items) && IdsBelow(items, bound)
    ensures C.LinesValid(Pruned(items, ps)) && IdsBelow(Pruned(items, ps), bound)
  {
    if |items| > 0 {
      PrunedLinesValid(items[1..], ps, bound);
    }
  }

  /** Pruning keeps the ids distinct. */
  lemma {:induction false} PrunedDistinct(items: seq<C.CartLine>, ps: Inv.Catalog)
    requires C.DistinctIds(items)
    ensures C.DistinctIds(Pruned(items, ps))
  {
    if |items| > 0 {
      var tail := items[1..];
      assert C.DistinctIds(tail) by {
        forall i, j | 0 <= i < j < |tail| ensures tail[i].id != tail[j].id {
          assert tail[i] == items[i + 1] && tail[j] == items[j + 1];
        }
      }
      PrunedDistinct(tail, ps);
      if Sellable(ps, items[0].product) {
        var rest := Pruned(tail, ps);
        PrunedAvoids(tail, ps, items[0].id);
        var r := [items[0]] + rest;
        assert Pruned(items, ps) == r;
        forall i, j | 0 <= i < j < |r| ensures r[i].id != r[j].id {
          assert r[j] == rest[j - 1];
          if i > 0 {
            assert r[i] == rest[i - 1];
          }
        }
      }
    }
  }

  /** Owners and admins may see and change an order. */
  predicate CanAccess(actor: Actor, o: O.Order) {
    o.user == actor.id || actor.isAdmin
  }

  /** The order `createOrder` stores: the schema defaults, then the first
      save's order number; no history entry on creation. */
  function PlacedOrder(u: UserId, lines: seq<O.OrderLine>, shipping: O.Address, payment: O.PaymentMethod,
                       prices: O.Prices, clock: O.Clock): (o: O.Order)
    ensures o.status == O.Pending && !o.isPaid && !o.isDelivered && o.statusHistory == []
    ensures o.user == u && o.items == lines && o.orderNumber == O.OrderNumber(clock.stamp)
  {
    O.Order(u, lines, shipping, payment, prices, None, O.Pending, false, None, false, None,
            O.OrderNumber(clock.stamp), None, [])
  }

  /** The schema checks `Order.create` makes on what the request supplies. */
  predicate OrderInputValid(lines: seq<O.OrderLine>, shipping: O.Address, paymentMethod: string, prices: O.Prices) {
    O.ParsePaymentMethod(paymentMethod).Some? && O.AddressValid(shipping)
    && O.LinesValid(lines) && O.PricesValid(prices)
  }

  ghost predicate ProductsStored(ps: Inv.Catalog) {
    forall p :: p in ps ==> ProductStored(ps[p])
  }

  predicate CartsStored(cs: map<UserId, C.Cart>, bound: nat) {
    forall u :: u in cs ==> CartStored(cs[u], u, bound)
  }

  predicate OrdersStored(os: map<ObjectId, O.Order>, bound: nat) {
    forall id :: id in os ==> id < bound && O.Stored(os[id])
  }

  lemma ProductsStoredUpdate(ps: Inv.Catalog, id: ProductId, p: Product)
    requires ProductsStored(ps) && ProductStored(p)
    ensures ProductsStored(ps[id := p])
  {
  }

  lemma CartsStoredUpdate(cs: map<UserId, C.Cart>, bound: nat, u: UserId, c: C.Cart)
    requires CartsStored(cs, bound) && CartStored(c, u, bound)
    ensures CartsStored(cs[u := c], bound)
  {
  }

  lemma CartsStoredGrow(cs: map<UserId, C.Cart>, bound: nat, bound': nat)
    requires CartsStored(cs, bound) && bound <= bound'
    ensures CartsStored(cs, bound')
  {
  }

  lemma OrdersStoredUpdate(os: map<ObjectId, O.Order>, bound: nat, id: ObjectId, o: O.Order)
    requires OrdersStored(os, bound) && id < bound && O.Stored(o)
    ensures OrdersStored(os[id := o], bound)
  {
  }

  /** Stock updates touch nothing a stored product is required to keep. */
  lemma ShiftedKeepsStored(ps: Inv.Catalog, lines: seq<O.OrderLine>, restore: bool)
    requires ProductsStored(ps)
    ensures ProductsStored(Inv.Shifted(ps, lines, restore))
  {
    Inv.ShiftedEffect(ps, lines, restore);
  }

  lemma RemoveAtKeepsStored(items: seq<C.CartLine>, i: int, bound: nat)
    requires 0 <= i < |items| && C.DistinctIds(items) && IdsBelow(items, bound)
    ensures C.DistinctIds(C.RemoveAt(items, i)) && IdsBelow(C.RemoveAt(items, i), bound)
  {
    var r := C.RemoveAt(items, i);
    forall a, b | 0 <= a < b < |r| ensures r[a].id != r[b].id {
      var a' := if a < i then a else a + 1;
      var b' := if b < i then b else b + 1;
      assert r[a] == items[a'] && r[b] == items[b'];
    }
  }

  /** Changing status, payment, delivery or history keeps an order stored. */
  lemma StoredUnderUpdate(o: O.Order, o': O.Order)
    requires O.Stored(o)
    requires o'.items == o.items && o'.shipping == o.shipping && o'.prices == o.prices
    requires o'.orderNumber == o.orderNumber
    ensures O.Stored(o')
  {
  }

  lemma OrdersStoredGrow(os: map<ObjectId, O.Order>, bound: nat, bound': nat)
    requires OrdersStored(os, bound) && bound <= bound'
    ensures OrdersStored(os, bound')
  {
  }

  // ---------------------------------------------------------------------
  // Edits of one loaded cart document

  /** The cart-document part of `addToCart`: merge into the line for the
      product, re-checking the stock against the merged quantity, or push a
      new line with id `newId`; then save. */
  method MergeIntoCart(cart: C.Cart, pid: ProductId, q: int, p: Product, newId: ObjectId) returns (r: Result<C.Cart>)
    requires C.LinesValid(cart.items) && q >= 1 && p.stock >= q && SchemaBounds(p)
    ensures p.stock < q + Held(cart.items, pid) ==> r == Err(InsufficientStock)
    ensures p.stock >= q + Held(cart.items, pid) ==>
      && r.Ok? && r.value.user == cart.user
      && r.value.items == AddedToCart(cart.items, pid, q, CartPrice(p), newId)
      && C.Consistent(r.value)
      && r.value.totalItems == C.TotalQuantity(cart.items) + q
  {
    var doc := new C.CartDoc.Load(cart);
    AddedToCartEffect(cart.items, pid, q, CartPrice(p), newId);
    AddedToCartValid(cart.items, pid, q, CartPrice(p), newId);
    var i := C.FindLine(doc.items, C.ByProduct(pid));
    if i >= 0 {
      var newQuantity := doc.items[i].quantity + q;
      if p.stock < newQuantity {
        return Err(InsufficientStock);
      }
      doc.items := doc.items[i := doc.items[i].(quantity := newQuantity, price := CartPrice(p))];
    } else {
      doc.items := doc.items + [C.CartLine(newId, pid, q, CartPrice(p))];
    }
    doc.Save();
    r := Ok(doc.Value());
  }

  // ---------------------------------------------------------------------
  // Edits of one loaded order document; an order loaded from the store
  // already has its number, so saving keeps it.

  /** The status `updateOrderToPaid` leaves: pending becomes processing. */
  function PaidStatus(s: O.Status): (t: O.Status)
    ensures t != O.Pending
    ensures s != O.Pending ==> t == s
  {
    if s == O.Pending then O.Processing else s
  }

  /** The order-document part of `updateOrderToPaid`. */
  method PayDoc(o: O.Order, result: O.PaymentResult, clock: O.Clock) returns (saved: O.Order)
    requires o.orderNumber != ""
    ensures saved == o.(isPaid := true, paidAt := Some(clock.now), paymentResult := Some(result),
                        status := PaidStatus(o.status),
                        statusHistory := O.HistoryAfterSave(o.statusHistory, false, o.status, PaidStatus(o.status), clock.now))
    ensures |saved.statusHistory| == |o.statusHistory| + (if o.status == O.Pending then 1 else 0)
  {
    var doc := new O.OrderDoc.Load(o);
    doc.isPaid := true;
    doc.paidAt := Some(clock.now);
    doc.paymentResult := Some(result);
    if doc.status == O.Pending {
      doc.status := O.Processing;
    }
    assert doc.Value() == o.(isPaid := true, paidAt := Some(clock.now), paymentResult := Some(result),
                             status := PaidStatus(o.status));
    doc.Save(clock);
    saved := doc.Value();
  }

  /** The order-document part of `cancelOrder`. The status is set before
      stock is restored and the order saved after; nothing reads the
      unsaved document in between, so here it is set at the save. */
  method CancelDoc(o: O.Order, clock: O.Clock) returns (saved: O.Order)
    requires o.orderNumber != ""
    requires o.status == O.Pending || o.status == O.Processing
    ensures saved == o.(status := O.Cancelled, statusHistory := o.statusHistory + [O.HistoryEntry(O.Cancelled, clock.now)])
  {
    var doc := new O.OrderDoc.Load(o);
    doc.status := O.Cancelled;
    doc.Save(clock);
    saved := doc.Value();
  }

  /** The order-document part of `updateOrderStatus`. */
  method SetStatusDoc(o: O.Order, st: O.Status, trackingNumber: string, clock: O.Clock) returns (saved: O.Order)
    requires o.orderNumber != ""
    ensures saved == o.(status := st,
                        trackingNumber := if trackingNumber != "" then Some(trackingNumber) else o.trackingNumber,
                        isDelivered := if st == O.Delivered then true else o.isDelivered,
                        deliveredAt := if st == O.Delivered then Some(clock.now) else o.deliveredAt,
                        statusHistory := O.HistoryAfterSave(o.statusHistory, false, o.status, st, clock.now))
    ensures st == O.Delivered ==> saved.isDelivered
    ensures saved.statusHistory[..|o.statusHistory|] == o.statusHistory
  {
    var doc := new O.OrderDoc.Load(o);
    doc.status := st;
    if trackingNumber != "" {
      doc.trackingNumber := Some(trackingNumber);
    }
    if st == O.Delivered {
      doc.isDelivered := true;
      doc.deliveredAt := Some(clock.now);
    }
    assert doc.Value() == o.(status := st,
                             trackingNumber := if trackingNumber != "" then Some(trackingNumber) else o.trackingNumber,
                             isDelivered := if st == O.Delivered then true else o.isDelivered,
                             deliveredAt := if st == O.Delivered then Some(clock.now) else o.deliveredAt);
    doc.Save(clock);
    saved := doc.Value();
  }

  /** The product-document part of `addProductReview`: push the review,
      recompute the average, save (the slug stays, the name being
      untouched). */
  method ReviewDoc(p: Product, review: Review) returns (saved: Product)
    ensures var rs := p.reviews + [review];
      saved == p.(reviews := rs, averageRating := AverageRating(rs), numOfReviews := |rs|)
    ensures saved.numOfReviews == |p.reviews| + 1
  {
    var doc := new ProductDoc.Load(p);
    doc.reviews := doc.reviews + [review];
    doc.CalculateAverageRating();
    doc.Save();
    saved := doc.Value();
  }

  // ---------------------------------------------------------------------
  // The store

  class Shop {
    var products: Inv.Catalog
    var carts: map<UserId, C.Cart>
    var orders: map<ObjectId, O.Order>
    /** The next fresh ObjectId. */
    var nextId: nat

    ghost predicate Valid()
      reads this
    {
      ProductsStored(products) && CartsStored(carts, nextId) && OrdersStored(orders, nextId)
    }

    /** A store over a product catalogue, with no carts and no orders. */
    constructor (ps: Inv.Catalog)
      requires forall p :: p in ps ==> ProductStored(ps[p])
      ensures Valid()
      ensures products == ps && carts == map[] && orders == map[] && nextId == 0
    {
      products, carts, orders, nextId := ps, map[], map[], 0;
    }

    // -------------------------------------------------------------------
    // Cart handlers

    /** `getCart`: creates an empty cart for a user without one, and drops
        the lines whose product is gone, inactive or out of stock. */
    method GetCart(u: UserId) returns (c: C.Cart)
      requires Valid()
      modifies this
      ensures Valid()
      ensures carts == old(carts)[u := c]
      ensures products == old(products) && orders == old(orders) && nextId == old(nextId)
      ensures u !in old(carts) ==> c == C.EmptyCart(u)
      ensures u in old(carts) ==> c.items == Pruned(old(carts)[u].items, products)
      ensures c.user == u && C.Consistent(c)
    {
      var doc: C.CartDoc;
      if u in carts {
        doc := new C.CartDoc.Load(carts[u]);
      } else {
        doc := new C.CartDoc.Create(u);
        CartsStoredUpdate(carts, nextId, u, doc.Value());
        carts := carts[u := doc.Value()];
      }
      if |doc.items| > 0 {
        PrunedLinesValid(doc.items, products, nextId);
        PrunedDistinct(doc.items, products);
        doc.items := Pruned(doc.items, products);
        doc.Save();
        CartsStoredUpdate(carts, nextId, u, doc.Value());
        carts := carts[u := doc.Value()];
      }
      c := doc.Value();
    }

    /** `addToCart`: the checks in order, then a merge into the line for the
        product (re-checked against stock) or a new line, priced at
        `CartPrice`. */
    method AddToCart(u: UserId, productId: Option<ProductId>, quantity: Option<int>) returns (r: Result<C.Cart>)
      requires Valid()
      modifies this
      ensures Valid()
      ensures products == old(products) && orders == old(orders)
      ensures var f := AddFailure(products, CartItemsOf(old(carts), u), productId, quantity);
        && (f.Some? ==> r == Err(f.value) && carts == old(carts) && nextId == old(nextId))
        && (f.None? ==> r.Ok? && r.value.items == AddedToCart(CartItemsOf(old(carts), u), productId.value,
                                                               quantity.GetOr(1), CartPrice(products[productId.value]), old(nextId)))
      ensures r.Ok? ==> carts == old(carts)[u := r.value] && r.value.user == u && C.Consistent(r.value)
      ensures r.Ok? ==> r.value.totalItems == C.TotalQuantity(CartItemsOf(old(carts), u)) + quantity.GetOr(1)
      ensures r.Ok? ==>
        nextId == old(nextId) + (if C.FindLine(CartItemsOf(old(carts), u), C.ByProduct(productId.value)) < 0 then 1 else 0)
    {
      if productId.None? {
        return Err(MissingProductId);
      }
      var q := quantity.GetOr(1);
      if q < 1 {
        return Err(InvalidQuantity);
      }
      var pid := productId.value;
      if pid !in products {
        return Err(ProductNotFound);
      }
      var p := products[pid];
      if !p.isActive {
        return Err(ProductUnavailable);
      }
      if p.stock < q {
        HeldNonNegative(CartItemsOf(carts, u), pid);
        return Err(InsufficientStock);
      }
      r := PutInCart(u, pid, q);
    }

    /** The second half of `addToCart`, once the product passed its checks:
        get or create the cart, merge or push the line, save. */
    method PutInCart(u: UserId, pid: ProductId, q: int) returns (r: Result<C.Cart>)
      requires Valid()
      requires pid in products && products[pid].isActive && 1 <= q <= products[pid].stock
      modifies this
      ensures Valid()
      ensures products == old(products) && orders == old(orders)
      ensures var items := CartItemsOf(old(carts), u);
        && (products[pid].stock < q + Held(items, pid) ==> r == Err(InsufficientStock) && carts == old(carts) && nextId == old(nextId))
        && (products[pid].stock >= q + Held(items, pid) ==>
              r.Ok? && r.value.items == AddedToCart(items, pid, q, CartPrice(products[pid]), old(nextId)))
      ensures r.Ok? ==> carts == old(carts)[u := r.value] && r.value.user == u && C.Consistent(r.value)
      ensures r.Ok? ==> r.value.totalItems == C.TotalQuantity(CartItemsOf(old(carts), u)) + q
      ensures r.Ok? ==> nextId == old(nextId) + (if C.FindLine(CartItemsOf(old(carts), u), C.ByProduct(pid)) < 0 then 1 else 0)
    {
      var p := products[pid];
      var cart: C.Cart;
      if u in carts {
        cart := carts[u];
      } else {
        cart := C.EmptyCart(u);
        CartsStoredUpdate(carts, nextId, u, cart);
        carts := carts[u := cart];
      }
      assert cart.items == CartItemsOf(old(carts), u);
      AddedToCartKeepsIds(cart.items, pid, q, CartPrice(p), nextId);
      r := MergeIntoCart(cart, pid, q, p, nextId);
      if r.Ok? {
        if C.FindLine(cart.items, C.ByProduct(pid)) < 0 {
          CartsStoredGrow(carts, nextId, nextId + 1);
          OrdersStoredGrow(orders, nextId, nextId + 1);
          nextId := nextId + 1;
        }
        CartsStoredUpdate(carts, nextId, u, r.value);
        assert carts[u := r.value] == old(carts)[u := r.value];
        carts := carts[u := r.value];
      }
    }

    /** `updateCartItem`: a quantity that is absent, 0 or negative is
        rejected first, so the line is never removed here; otherwise the
        line found by id gets the quantity and a fresh price. */
    method UpdateCartItem(u: UserId, itemId: ObjectId, quantity: Option<int>) returns (r: Result<C.Cart>)
      requires Valid()
      modifies this
      ensures Valid()
      ensures products == old(products) && orders == old(orders) && nextId == old(nextId)
      ensures quantity.None? || quantity.value <= 0 ==> r == Err(InvalidQuantity)
      ensures quantity.Some? && quantity.value > 0 ==>
        && (u !in old(carts) ==> r == Err(CartNotFound))
        && (u in old(carts) ==>
              var items := old(carts)[u].items;
              var i := C.FindLine(items, C.ById(itemId));
              && (i < 0 ==> r == Err(ItemNotFound))
              && (i >= 0 && items[i].product !in products ==> r == Err(ProductNotFound))
              && (i >= 0 && items[i].product in products ==>
                    var p := products[items[i].product];
                    if p.stock < quantity.value then r == Err(InsufficientStock)
                    else r.Ok? && r.value.items == items[i := items[i].(quantity := quantity.value, price := CartPrice(p))]))
      ensures r.Err? ==> carts == old(carts)
      ensures r.Ok? ==> u in old(carts) && carts == old(carts)[u := r.value] && C.Consistent(r.value)
      ensures r.Ok? ==> |r.value.items| == |old(carts)[u].items|
    {
      if quantity.None? || quantity.value <= 0 {
        return Err(InvalidQuantity);
      }
      if u !in carts {
        return Err(CartNotFound);
      }
      var doc := new C.CartDoc.Load(carts[u]);
      var i := C.FindLine(doc.items, C.ById(itemId));
      if i == -1 {
        return Err(ItemNotFound);
      }
      var pid := doc.items[i].product;
      if pid !in products {
        return Err(ProductNotFound);
      }
      var p := products[pid];
      if p.stock < quantity.value {
        return Err(InsufficientStock);
      }
      doc.items := doc.items[i := doc.items[i].(quantity := quantity.value, price := CartPrice(p))];
      doc.Save();
      CartsStoredUpdate(carts, nextId, u, doc.Value());
      carts := carts[u := doc.Value()];
      r := Ok(doc.Value());
    }

    /** `removeFromCart`: splices out the line with the given id. */
    method RemoveFromCart(u: UserId, itemId: ObjectId) returns (r: Result<C.Cart>)
      requires Valid()
      modifies this
      ensures Valid()
      ensures products == old(products) && orders == old(orders) && nextId == old(nextId)
      ensures u !in old(carts) ==> r == Err(CartNotFound)
      ensures u in old(carts) ==>
        var items := old(carts)[u].items;
        var i := C.FindLine(items, C.ById(itemId));
        && (i < 0 ==> r == Err(ItemNotFound))
        && (i >= 0 ==> r.Ok? && r.value.items == C.RemoveAt(items, i)
                       && r.value.totalItems == old(carts)[u].totalItems - items[i].quantity)
      ensures r.Ok? ==> forall j :: 0 <= j < |r.value.items| ==> r.value.items[j].id != itemId
      ensures r.Err? ==> carts == old(carts)
      ensures r.Ok? ==> carts == old(carts)[u := r.value] && C.Consistent(r.value)
    {
      if u !in carts {
        return Err(CartNotFound);
      }
      var doc := new C.CartDoc.Load(carts[u]);
      var i := C.FindLine(doc.items, C.ById(itemId));
      if i == -1 {
        return Err(ItemNotFound);
      }
      ghost var before := doc.items;
      C.FoundByIdIsUnique(before, itemId);
      C.TotalsRemoveAt(before, i);
      C.LinesValidRemoveAt(before, i);
      RemoveAtKeepsStored(before, i, nextId);
      doc.items := C.RemoveAt(doc.items, i);
      doc.Save();
      CartsStoredUpdate(carts, nextId, u, doc.Value());
      carts := carts[u := doc.Value()];
      r := Ok(doc.Value());
    }

    /** `clearCart`. */
    method ClearCart(u: UserId) returns (r: Result<C.Cart>)
      requires Valid()
      modifies this
      ensures Valid()
      ensures products == old(products) && orders == old(orders) && nextId == old(nextId)
      ensures u !in old(carts) ==> r == Err(CartNotFound) && carts == old(carts)
      ensures u in old(carts) ==> r == Ok(C.EmptyCart(u)) && carts == old(carts)[u := C.EmptyCart(u)]
    {
      if u !in carts {
        return Err(CartNotFound);
      }
      var doc := new C.CartDoc.Load(carts[u]);
      doc.items := [];
      doc.totalAmount := 0.0;
      doc.totalItems := 0;
      doc.Save();
      CartsStoredUpdate(carts, nextId, u, doc.Value());
      carts := carts[u := doc.Value()];
      r := Ok(doc.Value());
    }

    /** `getCartItemCount`: the saved total, or 0; no cart is created. */
    method CartItemCount(u: UserId) returns (count: int)
      requires Valid()
      ensures u in carts ==> count == C.TotalQuantity(carts[u].items)
      ensures u !in carts ==> count == 0
      ensures count >= 0
    {
      if u in carts {
        C.TotalsNonNegative(carts[u].items);
        count := carts[u].totalItems;
      } else {
        count := 0;
      }
    }

    // -------------------------------------------------------------------
    // Order handlers

    /** `createOrder`: every line is checked before anything changes; then
        the order is created, each line's stock is decremented and the
        user's cart, if any, is emptied. */
    method CreateOrder(u: UserId, lines: seq<O.OrderLine>, shipping: Option<O.Address>, paymentMethod: string,
                       prices: O.Prices, clock: O.Clock) returns (r: Result<ObjectId>)
      requires Valid()
      modifies this
      ensures Valid()
      ensures |lines| == 0 ==> r == Err(EmptyOrder)
      ensures |lines| > 0 && (shipping.None? || paymentMethod == "") ==> r == Err(MissingShippingOrPayment)
      ensures |lines| > 0 && shipping.Some? && paymentMethod != "" ==>
        var f := Inv.FirstFailure(old(products), lines);
        && (f.Some? ==> r == Err(f.value))
        && (f.None? && !OrderInputValid(lines, shipping.value, paymentMethod, prices) ==> r == Err(SchemaValidation))
        && (f.None? && OrderInputValid(lines, shipping.value, paymentMethod, prices) ==> r == Ok(old(nextId)))
      ensures r.Err? ==> products == old(products) && carts == old(carts) && orders == old(orders) && nextId == old(nextId)
      ensures r.Ok? ==>
        && Inv.EachLineInStock(old(products), lines)
        && r.value !in old(orders)
        && orders == old(orders)[r.value := PlacedOrder(u, lines, shipping.value,
                                             O.ParsePaymentMethod(paymentMethod).value, prices, clock)]
        && products == Inv.Shifted(old(products), lines, false)
        && carts == (if u in old(carts) then old(carts)[u := C.EmptyCart(u)] else old(carts))
        && nextId == old(nextId) + 1
    {
      if |lines| == 0 {
        return Err(EmptyOrder);
      }
      if shipping.None? || paymentMethod == "" {
        return Err(MissingShippingOrPayment);
      }
      var f := Inv.CheckOrderLines(products, lines);
      if f.Some? {
        return Err(f.value);
      }
      var payment := O.ParsePaymentMethod(paymentMethod);
      if payment.None? || !O.AddressValid(shipping.value) || !O.LinesValid(lines) || !O.PricesValid(prices) {
        return Err(SchemaValidation);
      }
      r := PlaceOrder(u, lines, shipping.value, payment.value, prices, clock);
    }

    /** The committing half of `createOrder`, after every check passed: the
        order is created and saved, each line's stock is decremented and the
        user's cart, if any, is emptied. */
    method PlaceOrder(u: UserId, lines: seq<O.OrderLine>, shipping: O.Address, payment: O.PaymentMethod,
                      prices: O.Prices, clock: O.Clock) returns (r: Result<ObjectId>)
      requires Valid()
      requires O.LinesValid(lines) && O.AddressValid(shipping) && O.PricesValid(prices)
      modifies this
      ensures Valid()
      ensures r == Ok(old(nextId)) && nextId == old(nextId) + 1
      ensures orders == old(orders)[old(nextId) := PlacedOrder(u, lines, shipping, payment, prices, clock)]
      ensures products == Inv.Shifted(old(products), lines, false)
      ensures carts == if u in old(carts) then old(carts)[u := C.EmptyCart(u)] else old(carts)
    {
      var doc := new O.OrderDoc.Create(u, lines, shipping, payment, prices);
      doc.Save(clock);
      var placed := doc.Value();
      var id := nextId;
      CartsStoredGrow(carts, id, id + 1);
      OrdersStoredGrow(orders, id, id + 1);
      nextId := nextId + 1;
      OrdersStoredUpdate(orders, nextId, id, placed);
      orders := orders[id := placed];

      ShiftStock(lines, false);
      ShiftedKeepsStored(old(products), lines, false);

      if u in carts {
        CartsStoredUpdate(carts, nextId, u, C.EmptyCart(u));
        carts := carts[u := C.EmptyCart(u)];
      }
      r := Ok(id);
    }

    /** One `$inc` of stock per line, in order: by `-quantity` when an order
        is placed, by `+quantity` when it is cancelled (`restore`). */
    method ShiftStock(lines: seq<O.OrderLine>, restore: bool)
      modifies this
      ensures products == Inv.Shifted(old(products), lines, restore)
      ensures carts == old(carts) && orders == old(orders) && nextId == old(nextId)
    {
      var i := 0;
      while i < |lines|
        invariant 0 <= i <= |lines|
        invariant products == Inv.Shifted(old(products), lines[..i], restore)
        invariant carts == old(carts) && orders == old(orders) && nextId == old(nextId)
      {
        var delta := if restore then lines[i].quantity else -lines[i].quantity;
        Inv.ShiftedStep(old(products), lines, i, restore);
        products := Inv.IncStock(products, lines[i].product, delta);
        i := i + 1;
      }
      assert lines[..|lines|] == lines;
    }

    /** `getOrder`: the owner or an admin may read it. */
    method GetOrder(actor: Actor, id: ObjectId) returns (r: Result<O.Order>)
      ensures id !in orders ==> r == Err(OrderNotFound)
      ensures id in orders && !CanAccess(actor, orders[id]) ==> r == Err(NotAuthorized)
      ensures id in orders && CanAccess(actor, orders[id]) ==> r == Ok(orders[id])
    {
      if id !in orders {
        return Err(OrderNotFound);
      }
      var o := orders[id];
      if !CanAccess(actor, o) {
        return Err(NotAuthorized);
      }
      r := Ok(o);
    }

    /** `updateOrderToPaid`: records the payment and moves a pending order
        to processing; any other status is kept. */
    method PayOrder(actor: Actor, id: ObjectId, result: O.PaymentResult, clock: O.Clock) returns (r: Result<O.Order>)
      requires Valid()
      modifies this
      ensures Valid()
      ensures products == old(products) && carts == old(carts) && nextId == old(nextId)
      ensures id !in old(orders) ==> r == Err(OrderNotFound)
      ensures id in old(orders) && !CanAccess(actor, old(orders)[id]) ==> r == Err(NotAuthorized)
      ensures id in old(orders) && CanAccess(actor, old(orders)[id]) ==>
        var o := old(orders)[id];
        var st := if o.status == O.Pending then O.Processing else o.status;
        r == Ok(o.(isPaid := true, paidAt := Some(clock.now), paymentResult := Some(result), status := st,
                   statusHistory := O.HistoryAfterSave(o.statusHistory, false, o.status, st, clock.now)))
      ensures r.Err? ==> orders == old(orders)
      ensures r.Ok? ==> orders == old(orders)[id := r.value]
    {
      if id !in orders {
        return Err(OrderNotFound);
      }
      if !CanAccess(actor, orders[id]) {
        return Err(NotAuthorized);
      }
      var o := orders[id];
      var saved := PayDoc(o, result, clock);
      StoredUnderUpdate(o, saved);
      OrdersStoredUpdate(orders, nextId, id, saved);
      orders := orders[id := saved];
      r := Ok(saved);
    }

    /** `cancelOrder`: only a pending or processing order may be cancelled;
        each of its lines' quantity goes back to stock. */
    method CancelOrder(actor: Actor, id: ObjectId, clock: O.Clock) returns (r: Result<O.Order>)
      requires Valid()
      modifies this
      ensures Valid()
      ensures carts == old(carts) && nextId == old(nextId)
      ensures id !in old(orders) ==> r == Err(OrderNotFound)
      ensures id in old(orders) && !CanAccess(actor, old(orders)[id]) ==> r == Err(NotAuthorized)
      ensures id in old(orders) && CanAccess(actor, old(orders)[id]) ==>
        var o := old(orders)[id];
        if o.status != O.Pending && o.status != O.Processing then r == Err(NotCancellable)
        else r == Ok(o.(status := O.Cancelled, statusHistory := o.statusHistory + [O.HistoryEntry(O.Cancelled, clock.now)]))
      ensures r.Err? ==> products == old(products) && orders == old(orders)
      ensures r.Ok? ==> orders == old(orders)[id := r.value]
                        && products == Inv.Shifted(old(products), old(orders)[id].items, true)
    {
      if id !in orders {
        return Err(OrderNotFound);
      }
      if !CanAccess(actor, orders[id]) {
        return Err(NotAuthorized);
      }
      var o := orders[id];
      if o.status != O.Pending && o.status != O.Processing {
        return Err(NotCancellable);
      }
      ShiftStock(o.items, true);
      ShiftedKeepsStored(old(products), o.items, true);
      var saved := CancelDoc(o, clock);
      StoredUnderUpdate(o, saved);
      OrdersStoredUpdate(orders, nextId, id, saved);
      orders := orders[id := saved];
      r := Ok(saved);
    }

    /** `updateOrderStatus` (admin): any of the six statuses may be set from
        any other; a non-empty tracking number replaces the old one and
        "delivered" marks the order delivered. */
    method UpdateOrderStatus(id: ObjectId, status: string, trackingNumber: string, clock: O.Clock) returns (r: Result<O.Order>)
      requires Valid()
      modifies this
      ensures Valid()
      ensures products == old(products) && carts == old(carts) && nextId == old(nextId)
      ensures id !in old(orders) ==> r == Err(OrderNotFound)
      ensures id in old(orders) && O.ParseStatus(status).None? ==> r == Err(InvalidStatus)
      ensures id in old(orders) && O.ParseStatus(status).Some? ==>
        var o := old(orders)[id];
        var st := O.ParseStatus(status).value;
        var delivered := st == O.Delivered;
        r == Ok(o.(status := st,
                   trackingNumber := if trackingNumber != "" then Some(trackingNumber) else o.trackingNumber,
                   isDelivered := if delivered then true else o.isDelivered,
                   deliveredAt := if delivered then Some(clock.now) else o.deliveredAt,
                   statusHistory := O.HistoryAfterSave(o.statusHistory, false, o.status, st, clock.now)))
      ensures r.Err? ==> orders == old(orders)
      ensures r.Ok? ==> orders == old(orders)[id := r.value]
    {
      if id !in orders {
        return Err(OrderNotFound);
      }
      var o := orders[id];
      var st := O.ParseStatus(status);
      if st.None? {
        return Err(InvalidStatus);
      }
      var saved := SetStatusDoc(o, st.value, trackingNumber, clock);
      StoredUnderUpdate(o, saved);
      OrdersStoredUpdate(orders, nextId, id, saved);
      orders := orders[id := saved];
      r := Ok(saved);
    }

    // -------------------------------------------------------------------
    // Reviews

    /** `addProductReview`: a validated rating and comment, at most one
        review per user, then the average is recomputed and saved; the save
        runs the product validators, and of these only the stock minimum of
        0 can fail here, after checkouts have driven the stock below it. */
    method AddProductReview(actor: Actor, productId: ProductId, rating: int, comment: string) returns (r: Result<()>)
      requires Valid()
      modifies this
      ensures Valid()
      ensures carts == old(carts) && orders == old(orders) && nextId == old(nextId)
      ensures !ReviewInputValid(rating, comment) ==> r == Err(InvalidReview)
      ensures ReviewInputValid(rating, comment) && productId !in old(products) ==> r == Err(ProductNotFound)
      ensures ReviewInputValid(rating, comment) && productId in old(products) ==>
        var p := old(products)[productId];
        if ReviewedBy(p.reviews, actor.id) then r == Err(AlreadyReviewed)
        else if p.stock < 0 then r == Err(SchemaValidation)
        else
          var rs := p.reviews + [Review(actor.id, actor.name, rating, comment)];
          r.Ok? && products == old(products)[productId := p.(reviews := rs, averageRating := AverageRating(rs), numOfReviews := |rs|)]
      ensures r.Err? ==> products == old(products)
      ensures r.Ok? ==> productId in products && ReviewsBy(products[productId].reviews, actor.id) == 1
    {
      if !ReviewInputValid(rating, comment) {
        return Err(InvalidReview);
      }
      if productId !in products {
        return Err(ProductNotFound);
      }
      var p := products[productId];
      if ReviewedBy(p.reviews, actor.id) {
        return Err(AlreadyReviewed);
      }
      if p.stock < 0 {
        return Err(SchemaValidation);
      }
      var review := Review(actor.id, actor.name, rating, comment);
      AppendNewReviewer(p.reviews, review);
      var saved := ReviewDoc(p, review);
      ProductsStoredUpdate(products, productId, saved);
      products := products[productId := saved];
      r := Ok(());
    }
  }
}
