/** Product stock as checkout and cancellation see it: the per-line check
    made before an order is created, and the `$inc` updates that take stock
    out for an order and put it back when the order is cancelled. */
module Inventory {
  import opened Common
  import opened ProductModel
  import opened OrderModel

  type Catalog = map<ProductId, Product>

  // ---------------------------------------------------------------------
  // The check made before an order is created

  /** Why one order line cannot be served: a missing product, an inactive
      one, or less stock than the line asks for. */
  function LineFailure(ps: Catalog, l: OrderLine): Option<Failure> {
    if l.product !in ps then Some(ProductNotFound)
    else if !ps[l.product].isActive then Some(ProductUnavailable)
    else if ps[l.product].stock < l.quantity then Some(InsufficientStock)
    else None
  }

  /** The failure of the first line that has one. */
  function FirstFailure(ps: Catalog, lines: seq<OrderLine>): Option<Failure> {
    if |lines| == 0 then None
    else if LineFailure(ps, lines[0]).Some? then LineFailure(ps, lines[0])
    else FirstFailure(ps, lines[1..])
  }

  /** Every line on its own is served: its product exists, is active and has
      at least the line's quantity in stock. */
  predicate EachLineInStock(ps: Catalog, lines: seq<OrderLine>) {
    forall i :: 0 <= i < |lines| ==>
      lines[i].product in ps && ps[lines[i].product].isActive
      && lines[i].quantity <= ps[lines[i].product].stock
  }

  lemma {:induction false} FirstFailureNoneIff(ps: Catalog, lines: seq<OrderLine>)
    ensures FirstFailure(ps, lines) == None <==> EachLineInStock(ps, lines)
  {
    if |lines| > 0 {
      FirstFailureNoneIff(ps, lines[1..]);
      if EachLineInStock(ps, lines[1..]) && LineFailure(ps, lines[0]).None? {
        forall i | 0 <= i < |lines|
          ensures lines[i].product in ps && ps[lines[i].product].isActive
                  && lines[i].quantity <= ps[lines[i].product].stock
        {
          if i > 0 { assert lines[i] == lines[1..][i - 1]; }
        }
      }
      if EachLineInStock(ps, lines) {
        assert LineFailure(ps, lines[0]).None?;
        forall i | 0 <= i < |lines| - 1
          ensures lines[1..][i].product in ps && ps[lines[1..][i].product].isActive
                  && lines[1..][i].quantity <= ps[lines[1..][i].product].stock
        {
          assert lines[1..][i] == lines[i + 1];
        }
      }
    }
  }

  /** The checking loop of `createOrder`: stops at the first line that
      cannot be served and reports why. */
  method CheckOrderLines(ps: Catalog, lines: seq<OrderLine>) returns (f: Option<Failure>)
    ensures f == FirstFailure(ps, lines)
    ensures f == None <==> EachLineInStock(ps, lines)
  {
    FirstFailureNoneIff(ps, lines);
    var i := 0;
    while i < |lines|
      invariant 0 <= i <= |lines|
      invariant FirstFailure(ps, lines) == FirstFailure(ps, lines[i..])
    {
      assert lines[i..][1..] == lines[i + 1..];
      var l := lines[i];
      if l.product !in ps {
        return Some(ProductNotFound);
      }
      if !ps[l.product].isActive {
        return Some(ProductUnavailable);
      }
      if ps[l.product].stock < l.quantity {
        return Some(InsufficientStock);
      }
      i := i + 1;
    }
    return None;
  }

  // ---------------------------------------------------------------------
  // Stock updates

  /** `Product.findByIdAndUpdate(id, { $inc: { stock: delta } })`: no schema
      validation runs, and a product that no longer exists is left alone. */
  function IncStock(ps: Catalog, id: ProductId, delta: int): (r: Catalog)
    ensures r.Keys == ps.Keys
    ensures forall p :: p in ps ==> r[p] == if p == id then ps[p].(stock := ps[p].stock + delta) else ps[p]
  {
    if id in ps then ps[id := ps[id].(stock := ps[id].stock + delta)] else ps
  }

  /** The quantity all lines together ask of one product. */
  function Demand(lines: seq<OrderLine>, id: ProductId): int {
    if |lines| == 0 then 0
    else Demand(lines[..|lines| - 1], id)
         + (if lines[|lines| - 1].product == id then lines[|lines| - 1].quantity else 0)
  }

  /** One `$inc` per line, in order: `-quantity` when the order is placed,
      `+quantity` when it is cancelled (`restore`). */
  function Shifted(ps: Catalog, lines: seq<OrderLine>, restore: bool): (r: Catalog)
    decreases |lines|
    ensures r.Keys == ps.Keys
  {
    if |lines| == 0 then ps
    else
      var l := lines[|lines| - 1];
      IncStock(Shifted(ps, lines[..|lines| - 1], restore), l.product, if restore then l.quantity else -l.quantity)
  }

  /** One more line is one more `$inc`. */
  lemma ShiftedStep(ps: Catalog, lines: seq<OrderLine>, i: int, restore: bool)
    requires 0 <= i < |lines|
    ensures Shifted(ps, lines[..i + 1], restore)
         == IncStock(Shifted(ps, lines[..i], restore), lines[i].product,
                     if restore then lines[i].quantity else -lines[i].quantity)
  {
    assert lines[..i + 1][..i] == lines[..i];
  }

  /** Each product's stock moves by exactly the lines' total demand on it,
      and nothing else about any product changes. */
  lemma {:induction false} ShiftedEffect(ps: Catalog, lines: seq<OrderLine>, restore: bool)
    ensures Shifted(ps, lines, restore).Keys == ps.Keys
    ensures forall p :: p in ps ==>
      Shifted(ps, lines, restore)[p]
        == ps[p].(stock := ps[p].stock + (if restore then Demand(lines, p) else -Demand(lines, p)))
  {
    forall p | p in ps
      ensures Shifted(ps, lines, restore)[p]
           == ps[p].(stock := ps[p].stock + (if restore then Demand(lines, p) else -Demand(lines, p)))
    {
      ShiftedAt(ps, lines, restore, p);
    }
  }

  /** `ShiftedEffect` for one product. */
  lemma {:induction false} ShiftedAt(ps: Catalog, lines: seq<OrderLine>, restore: bool, p: ProductId)
    requires p in ps
    decreases |lines|
    ensures Shifted(ps, lines, restore)[p]
         == ps[p].(stock := ps[p].stock + (if restore then Demand(lines, p) else -Demand(lines, p)))
  {
    if |lines| > 0 {
      var init, l := lines[..|lines| - 1], lines[|lines| - 1];
      ShiftedAt(ps, init, restore, p);
    }
  }

  /** Cancelling puts back exactly what placing the order took out. */
  lemma ReleaseUndoesReserve(ps: Catalog, lines: seq<OrderLine>)
    ensures Shifted(Shifted(ps, lines, false), lines, true) == ps
  {
    var taken := Shifted(ps, lines, false);
    ShiftedEffect(ps, lines, false);
    ShiftedEffect(taken, lines, true);
    var back := Shifted(taken, lines, true);
    assert back.Keys == ps.Keys;
    forall p | p in ps ensures back[p] == ps[p] {
    }
  }

  /** Stock updates leave every schema bound of every product as it was. */
  lemma ShiftedKeepsBounds(ps: Catalog, lines: seq<OrderLine>, restore: bool)
    requires forall p :: p in ps ==> SchemaBounds(ps[p])
    ensures forall p :: p in Shifted(ps, lines, restore) ==> SchemaBounds(Shifted(ps, lines, restore)[p])
  {
    ShiftedEffect(ps, lines, restore);
  }

  predicate DistinctProducts(lines: seq<OrderLine>) {
    forall i, j :: 0 <= i < j < |lines| ==> lines[i].product != lines[j].product
  }

  /** With one line per product, the demand on a product is its line's
      quantity, or 0 without a line. */
  lemma {:induction false} DemandOfDistinct(lines: seq<OrderLine>, id: ProductId)
    requires DistinctProducts(lines)
    decreases |lines|
    ensures (forall i :: 0 <= i < |lines| ==> lines[i].product != id) ==> Demand(lines, id) == 0
    ensures forall i :: 0 <= i < |lines| && lines[i].product == id ==> Demand(lines, id) == lines[i].quantity
  {
    if |lines| > 0 {
      var init := lines[..|lines| - 1];
      assert DistinctProducts(init);
      DemandOfDistinct(init, id);
      forall i | 0 <= i < |lines| && lines[i].product == id
        ensures Demand(lines, id) == lines[i].quantity
      {
        if i < |lines| - 1 {
          assert init[i] == lines[i];
        } else {
          assert forall j :: 0 <= j < |init| ==> init[j].product != id;
        }
      }
    }
  }

  /** When the lines name distinct products and each passed the check, no
      stock that was at least 0 ends below 0. */
  lemma ReserveKeepsStockNonNegative(ps: Catalog, lines: seq<OrderLine>)
    requires DistinctProducts(lines) && EachLineInStock(ps, lines)
    ensures forall p :: p in ps && ps[p].stock >= 0 ==> Shifted(ps, lines, false)[p].stock >= 0
  {
    ShiftedEffect(ps, lines, false);
    forall p | p in ps && ps[p].stock >= 0
      ensures Shifted(ps, lines, false)[p].stock >= 0
    {
      DemandOfDistinct(lines, p);
    }
  }

  /** The check is per line, not per product: two lines for the same product
      each pass against the current stock and together drive it below 0. */
  lemma DuplicateLinesOversell()
    ensures var p := Product("Mug", "mug", 5.0, 0.0, 1, 10, true, [], 0.0, 0);
      var l := OrderLine(7, "Mug", "mug.png", 5.0, 1);
      var ps := map[7 := p];
      && EachLineInStock(ps, [l, l])
      && Shifted(ps, [l, l], false)[7].stock == -1
  {
    var p := Product("Mug", "mug", 5.0, 0.0, 1, 10, true, [], 0.0, 0);
    var l := OrderLine(7, "Mug", "mug.png", 5.0, 1);
    var ps := map[7 := p];
    ShiftedEffect(ps, [l, l], false);
    assert [l, l][..1] == [l];
    assert [l][..0] == [];
    assert Demand([l], 7) == 1;
    assert Demand([l, l], 7) == 2;
  }
}
