/** The cart document: one per user, a list of lines (product, quantity,
    snapshotted unit price) and the two totals the pre-save hook recomputes
    from the lines. */
module CartModel {
  import opened Common

  datatype CartLine = CartLine(id: ObjectId, product: ProductId, quantity: int, price: real)

  datatype Cart = Cart(user: UserId, items: seq<CartLine>, totalItems: int, totalAmount: real)

  /** The cart-line schema: quantity at least 1, price at least 0. */
  predicate LineValid(l: CartLine) {
    l.quantity >= 1 && l.price >= 0.0
  }

  predicate LinesValid(items: seq<CartLine>) {
    forall i :: 0 <= i < |items| ==> LineValid(items[i])
  }

  function TotalQuantity(items: seq<CartLine>): int {
    if |items| == 0 then 0 else items[0].quantity + TotalQuantity(items[1..])
  }

  function LineAmount(l: CartLine): real {
    l.price * l.quantity as real
  }

  function TotalAmount(items: seq<CartLine>): real {
    if |items| == 0 then 0.0 else LineAmount(items[0]) + TotalAmount(items[1..])
  }

  /** A cart as the store keeps it: valid lines and totals that match them. */
  predicate Consistent(c: Cart) {
    LinesValid(c.items)
    && c.totalItems == TotalQuantity(c.items)
    && c.totalAmount == TotalAmount(c.items)
  }

  function EmptyCart(u: UserId): (c: Cart)
    ensures Consistent(c) && c.items == [] && c.user == u
  {
    Cart(u, [], 0, 0.0)
  }

  // ---------------------------------------------------------------------
  // Totals

  /** With valid lines the totals are at least the number of lines and 0. */
  lemma {:induction false} TotalsNonNegative(items: seq<CartLine>)
    requires LinesValid(items)
    ensures TotalQuantity(items) >= |items|
    ensures TotalAmount(items) >= 0.0
  {
    if |items| > 0 {
      assert LinesValid(items[1..]);
      TotalsNonNegative(items[1..]);
    }
  }

  lemma {:induction false} TotalsAppend(a: seq<CartLine>, b: seq<CartLine>)
    ensures TotalQuantity(a + b) == TotalQuantity(a) + TotalQuantity(b)
    ensures TotalAmount(a + b) == TotalAmount(a) + TotalAmount(b)
  {
    if |a| > 0 {
      assert (a + b)[1..] == a[1..] + b;
      TotalsAppend(a[1..], b);
    } else {
      assert a + b == b;
    }
  }

  lemma TotalsSingle(l: CartLine)
    ensures TotalQuantity([l]) == l.quantity && TotalAmount([l]) == LineAmount(l)
  {
    assert [l][1..] == [];
  }

  /** Replacing one line changes the totals by that line's difference. */
  lemma TotalsReplace(items: seq<CartLine>, i: int, l: CartLine)
    requires 0 <= i < |items|
    ensures TotalQuantity(items[i := l]) == TotalQuantity(items) - items[i].quantity + l.quantity
    ensures TotalAmount(items[i := l]) == TotalAmount(items) - LineAmount(items[i]) + LineAmount(l)
  {
    assert items == items[..i] + [items[i]] + items[i + 1..];
    assert items[i := l] == items[..i] + [l] + items[i + 1..];
    TotalsAppend(items[..i] + [items[i]], items[i + 1..]);
    TotalsAppend(items[..i], [items[i]]);
    TotalsAppend(items[..i] + [l], items[i + 1..]);
    TotalsAppend(items[..i], [l]);
    TotalsSingle(items[i]);
    TotalsSingle(l);
  }

  /** `splice(i, 1)`. */
  function RemoveAt(items: seq<CartLine>, i: int): (r: seq<CartLine>)
    requires 0 <= i < |items|
    ensures |r| == |items| - 1
    ensures forall j :: 0 <= j < i ==> r[j] == items[j]
    ensures forall j :: i <= j < |r| ==> r[j] == items[j + 1]
  {
    items[..i] + items[i + 1..]
  }

  /** Removing one line takes exactly its quantity and amount off the totals. */
  lemma {:induction false} TotalsRemoveAt(items: seq<CartLine>, i: int)
    requires 0 <= i < |items|
    ensures TotalQuantity(RemoveAt(items, i)) == TotalQuantity(items) - items[i].quantity
    ensures TotalAmount(RemoveAt(items, i)) == TotalAmount(items) - LineAmount(items[i])
  {
    var r := RemoveAt(items, i);
    if i == 0 {
      assert r == items[1..];
    } else {
      TotalsRemoveAt(items[1..], i - 1);
      assert r[0] == items[0];
      assert r[1..] == RemoveAt(items[1..], i - 1);
    }
  }

  lemma LinesValidRemoveAt(items: seq<CartLine>, i: int)
    requires 0 <= i < |items| && LinesValid(items)
    ensures LinesValid(RemoveAt(items, i))
  {
    var r := RemoveAt(items, i);
    forall j | 0 <= j < |r| ensures LineValid(r[j]) {
      if j >= i { assert r[j] == items[j + 1]; }
    }
  }

  // ---------------------------------------------------------------------
  // Finding a line

  /** What `findIndex` compares: the line's product, or the line's own id. */
  datatype LineKey = ByProduct(product: ProductId) | ById(id: ObjectId)

  predicate Matches(l: CartLine, key: LineKey) {
    match key
    case ByProduct(p) => l.product == p
    case ById(id) => l.id == id
  }

  /** `findIndex`: the first line matching the key, or -1. */
  function FindLine(items: seq<CartLine>, key: LineKey): (i: int)
    ensures -1 <= i < |items|
    ensures i >= 0 ==> Matches(items[i], key)
    ensures forall j :: 0 <= j < |items| && (i < 0 || j < i) ==> !Matches(items[j], key)
  {
    if |items| == 0 then -1
    else if Matches(items[0], key) then 0
    else
      var k := FindLine(items[1..], key);
      if k < 0 then -1 else k + 1
  }

  /** The ids of the lines are pairwise distinct. */
  predicate DistinctIds(items: seq<CartLine>) {
    forall i, j :: 0 <= i < j < |items| ==> items[i].id != items[j].id
  }

  /** With distinct ids the line found by id is the only one with that id. */
  lemma FoundByIdIsUnique(items: seq<CartLine>, id: ObjectId)
    requires DistinctIds(items)
    ensures var i := FindLine(items, ById(id));
      forall j :: 0 <= j < |items| && items[j].id == id ==> j == i
  {
  }

  // ---------------------------------------------------------------------
  // The model's own cart methods, as functions of the lines

  /** `addItem`: merge into the first line for the product, else append. */
  function AddedItems(items: seq<CartLine>, product: ProductId, quantity: int, price: real, newId: ObjectId): seq<CartLine> {
    var i := FindLine(items, ByProduct(product));
    if i >= 0 then items[i := items[i].(quantity := items[i].quantity + quantity)]
    else items + [CartLine(newId, product, quantity, price)]
  }

  /** `updateItemQuantity`: a quantity of 0 or less removes the line. */
  function QuantityUpdated(items: seq<CartLine>, product: ProductId, quantity: int): seq<CartLine> {
    var i := FindLine(items, ByProduct(product));
    if i < 0 then items
    else if quantity <= 0 then RemoveAt(items, i)
    else items[i := items[i].(quantity := quantity)]
  }

  /** `removeItem`: the lines for other products, in order. */
  function WithoutProduct(items: seq<CartLine>, product: ProductId): (r: seq<CartLine>)
    ensures |r| <= |items|
    ensures forall j :: 0 <= j < |r| ==> r[j].product != product && r[j] in items
    ensures forall j :: 0 <= j < |items| && items[j].product != product ==> items[j] in r
  {
    if |items| == 0 then []
    else if items[0].product == product then WithoutProduct(items[1..], product)
    else [items[0]] + WithoutProduct(items[1..], product)
  }

  /** Filtering distributes over concatenation: the kept lines stay in
      their order, each kept once. */
  lemma {:induction false} WithoutProductAppend(xs: seq<CartLine>, ys: seq<CartLine>, product: ProductId)
    ensures WithoutProduct(xs + ys, product) == WithoutProduct(xs, product) + WithoutProduct(ys, product)
  {
    if |xs| == 0 {
      assert xs + ys == ys;
    } else {
      assert (xs + ys)[1..] == xs[1..] + ys;
      WithoutProductAppend(xs[1..], ys, product);
    }
  }

  /** A single line is kept iff it is for another product. */
  lemma WithoutProductOne(l: CartLine, product: ProductId)
    ensures WithoutProduct([l], product) == if l.product == product then [] else [l]
  {
    assert [l][1..] == [];
  }

  /** The quantity held for one product over all its lines. */
  function QuantityOf(items: seq<CartLine>, product: ProductId): int {
    if |items| == 0 then 0
    else (if items[0].product == product then items[0].quantity else 0) + QuantityOf(items[1..], product)
  }

  /** Adding merges or appends one line; either way the item count grows by
      exactly `quantity`, the amount by the matching line's price times it,
      and the line count grows only when the product was absent. */
  lemma AddedItemsEffect(items: seq<CartLine>, product: ProductId, quantity: int, price: real, newId: ObjectId)
    ensures var i := FindLine(items, ByProduct(product));
      var r := AddedItems(items, product, quantity, price, newId);
      && TotalQuantity(r) == TotalQuantity(items) + quantity
      && (i >= 0 ==> TotalAmount(r) == TotalAmount(items) + items[i].price * quantity as real)
      && (i < 0 ==> TotalAmount(r) == TotalAmount(items) + price * quantity as real)
      && |r| == (if i >= 0 then |items| else |items| + 1)
      && (i >= 0 ==> r[i] == items[i].(quantity := items[i].quantity + quantity))
      && (i < 0 ==> r[|items|] == CartLine(newId, product, quantity, price))
      && (forall j :: 0 <= j < |items| && j != i ==> r[j] == items[j])
  {
    var i := FindLine(items, ByProduct(product));
    var r := AddedItems(items, product, quantity, price, newId);
    if i >= 0 {
      assert r == items[i := items[i].(quantity := items[i].quantity + quantity)];
      TotalsMerge(items, i, quantity);
    } else {
      var l := CartLine(newId, product, quantity, price);
      assert r == items + [l];
      assert r[|items|] == l;
      TotalsPush(items, l);
    }
  }

  /** Merging into line i raises the totals by the added quantity at that
      line's price. */
  lemma TotalsMerge(items: seq<CartLine>, i: int, quantity: int)
    requires 0 <= i < |items|
    ensures var r := items[i := items[i].(quantity := items[i].quantity + quantity)];
      && TotalQuantity(r) == TotalQuantity(items) + quantity
      && TotalAmount(r) == TotalAmount(items) + items[i].price * quantity as real
  {
    TotalsReplace(items, i, items[i].(quantity := items[i].quantity + quantity));
    LineAmountGrow(items[i], quantity);
  }

  /** Pushing a line raises the totals by its quantity and amount. */
  lemma TotalsPush(items: seq<CartLine>, l: CartLine)
    ensures TotalQuantity(items + [l]) == TotalQuantity(items) + l.quantity
    ensures TotalAmount(items + [l]) == TotalAmount(items) + l.price * l.quantity as real
  {
    TotalsAppend(items, [l]);
    TotalsSingle(l);
  }

  lemma LineAmountGrow(l: CartLine, quantity: int)
    ensures LineAmount(l.(quantity := l.quantity + quantity)) == LineAmount(l) + l.price * quantity as real
  {
  }

  /** Adding a quantity of at least 1 at a price of at least 0 keeps the
      lines valid. */
  lemma AddedItemsValid(items: seq<CartLine>, product: ProductId, quantity: int, price: real, newId: ObjectId)
    requires LinesValid(items) && quantity >= 1 && price >= 0.0
    ensures LinesValid(AddedItems(items, product, quantity, price, newId))
  {
  }

  /** Updating sets the one line's quantity, or removes the line when the
      quantity is 0 or less; the item count follows. */
  lemma QuantityUpdatedEffect(items: seq<CartLine>, product: ProductId, quantity: int)
    ensures var i := FindLine(items, ByProduct(product));
      var r := QuantityUpdated(items, product, quantity);
      && (i < 0 ==> r == items)
      && (i >= 0 && quantity <= 0 ==>
            r == RemoveAt(items, i) && TotalQuantity(r) == TotalQuantity(items) - items[i].quantity)
      && (i >= 0 && quantity > 0 ==>
            |r| == |items| && r[i] == items[i].(quantity := quantity)
            && (forall j :: 0 <= j < |items| && j != i ==> r[j] == items[j])
            && TotalQuantity(r) == TotalQuantity(items) - items[i].quantity + quantity)
  {
    var i := FindLine(items, ByProduct(product));
    if i >= 0 {
      if quantity <= 0 {
        TotalsRemoveAt(items, i);
      } else {
        TotalsReplace(items, i, items[i].(quantity := quantity));
      }
    }
  }

  /** Removing a product takes off exactly the quantity held for it. */
  lemma {:induction false} WithoutProductTotals(items: seq<CartLine>, product: ProductId)
    ensures TotalQuantity(WithoutProduct(items, product)) == TotalQuantity(items) - QuantityOf(items, product)
    ensures QuantityOf(WithoutProduct(items, product), product) == 0
  {
    if |items| > 0 {
      WithoutProductTotals(items[1..], product);
      if items[0].product != product {
        var rest := WithoutProduct(items[1..], product);
        assert ([items[0]] + rest)[1..] == rest;
      }
    }
  }

  lemma {:induction false} WithoutProductValid(items: seq<CartLine>, product: ProductId)
    requires LinesValid(items)
    ensures LinesValid(WithoutProduct(items, product))
  {
    if |items| > 0 {
      assert LinesValid(items[1..]);
      WithoutProductValid(items[1..], product);
    }
  }

  // ---------------------------------------------------------------------
  // The Mongoose document

  /** A cart document loaded for update. Its totals are those last saved
      until `Save` runs the pre-save hook. */
  class CartDoc {
    var user: UserId
    var items: seq<CartLine>
    var totalItems: int
    var totalAmount: real

    function Value(): Cart
      reads this
    {
      Cart(user, items, totalItems, totalAmount)
    }

    /** `Cart.findOne`. */
    constructor Load(c: Cart)
      ensures Value() == c
    {
      user, items, totalItems, totalAmount := c.user, c.items, c.totalItems, c.totalAmount;
    }

    /** `Cart.create({ user, items: [] })`, saved at once. */
    constructor Create(u: UserId)
      ensures Value() == EmptyCart(u)
    {
      user, items, totalItems, totalAmount := u, [], 0, 0.0;
    }

    /** The pre-save hook; saving validates the line schema first, which
        every caller here is proved to meet. */
    method Save()
      requires LinesValid(items)
      modifies this
      ensures Value() == old(Value()).(totalItems := TotalQuantity(items), totalAmount := TotalAmount(items))
      ensures Consistent(Value())
      ensures totalItems >= 0 && totalAmount >= 0.0
    {
      TotalsNonNegative(items);
      totalItems := TotalQuantity(items);
      totalAmount := TotalAmount(items);
    }

    /** `addItem(productId, quantity, price)`; `newId` is the id the pushed
        line receives. */
    method AddItem(product: ProductId, quantity: int, price: real, newId: ObjectId)
      modifies this
      ensures Value() == old(Value()).(items := AddedItems(old(items), product, quantity, price, newId))
    {
      var i := FindLine(items, ByProduct(product));
      if i >= 0 {
        items := items[i := items[i].(quantity := items[i].quantity + quantity)];
      } else {
        items := items + [CartLine(newId, product, quantity, price)];
      }
    }

    /** `updateItemQuantity(productId, quantity)`. */
    method UpdateItemQuantity(product: ProductId, quantity: int)
      modifies this
      ensures Value() == old(Value()).(items := QuantityUpdated(old(items), product, quantity))
    {
      var i := FindLine(items, ByProduct(product));
      if i >= 0 {
        if quantity <= 0 {
          items := RemoveAt(items, i);
        } else {
          items := items[i := items[i].(quantity := quantity)];
        }
      }
    }

    /** `removeItem(productId)`. */
    method RemoveItem(product: ProductId)
      modifies this
      ensures Value() == old(Value()).(items := WithoutProduct(old(items), product))
    {
      items := WithoutProduct(items, product);
    }

    /** `clearCart()`. */
    method ClearCart()
      modifies this
      ensures Value() == EmptyCart(old(user))
    {
      items := [];
      totalAmount := 0.0;
      totalItems := 0;
    }
  }
}
