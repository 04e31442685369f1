/**
 * The value-level meaning of placing an order (backend/Orders.Api/OrderService.cs:21-55):
 * which request lines pass the stock check, what the stock decrement does to the product
 * list, and which order lines are built. OrderPlacement.OrderService.PlaceOrder is proved
 * against these definitions.
 */
module Stock {

  import opened Wrappers
  import opened Entities
  import opened Lookup

  /**
   * One request line as the validation loop checks it: the first product with the
   * line's id exists, the quantity is positive and at most that product's quantity.
   */
  predicate LineValid(ps: seq<Product>, line: OrderItemRequest)
  {
    match FirstIndex(ps, ProductKey, line.productId)
    case None => false
    case Some(k) => 0 < line.quantity <= ps[k].quantity
  }

  /** Every line passes, each one checked against the same (pre-decrement) list. */
  predicate LinesValid(ps: seq<Product>, lines: seq<OrderItemRequest>)
  {
    forall j :: 0 <= j < |lines| ==> LineValid(ps, lines[j])
  }

  /** Every line names a product of the list. */
  predicate LinesKnown(ps: seq<Product>, lines: seq<OrderItemRequest>)
  {
    forall j :: 0 <= j < |lines| ==> FirstIndex(ps, ProductKey, lines[j].productId).Some?
  }

  /** `p.Quantity -= line.Quantity` on the first product with the line's id, in unchecked `int` arithmetic. */
  function DecrementLine(ps: seq<Product>, line: OrderItemRequest): (r: seq<Product>)
    ensures |r| == |ps|
    ensures forall j :: 0 <= j < |ps| ==> r[j].id == ps[j].id && r[j].name == ps[j].name
  {
    match FirstIndex(ps, ProductKey, line.productId)
    case None => ps
    case Some(k) => ps[k := ps[k].(quantity := Sub32(ps[k].quantity, line.quantity))]
  }

  /** The decrement loop: the lines applied one after the other, in request order. */
  function Decrement(ps: seq<Product>, lines: seq<OrderItemRequest>): (r: seq<Product>)
    ensures |r| == |ps|
    ensures forall j :: 0 <= j < |ps| ==> r[j].id == ps[j].id && r[j].name == ps[j].name
    decreases |lines|
  {
    if |lines| == 0 then ps
    else DecrementLine(Decrement(ps, lines[..|lines| - 1]), lines[|lines| - 1])
  }

  /** The total quantity the lines request of the product `id`. */
  function SumFor(lines: seq<OrderItemRequest>, id: Ident): int
    decreases |lines|
  {
    if |lines| == 0 then 0
    else
      SumFor(lines[..|lines| - 1], id)
      + (if lines[|lines| - 1].productId == id then lines[|lines| - 1].quantity as int else 0)
  }

  /** The decrement as one product sees it: `q` loses, line after line, the quantity of every line naming `id`. */
  function SubFor(q: Int32, lines: seq<OrderItemRequest>, id: Ident): Int32
    decreases |lines|
  {
    if |lines| == 0 then q
    else
      var r := SubFor(q, lines[..|lines| - 1], id);
      if lines[|lines| - 1].productId == id then Sub32(r, lines[|lines| - 1].quantity) else r
  }

  /** Whatever the lines, the product ends at its quantity minus the total, taken modulo 2^32. */
  lemma {:induction false} SubForWraps(q: Int32, lines: seq<OrderItemRequest>, id: Ident)
    ensures SubFor(q, lines, id) == Wrap32(q as int - SumFor(lines, id))
    decreases |lines|
  {
    if |lines| == 0 {
      assert Wrap32(q as int - 0) == q;
    } else {
      var init, x := lines[..|lines| - 1], lines[|lines| - 1];
      SubForWraps(q, init, id);
      if x.productId == id {
        Sub32IsWrap(SubFor(q, init, id), x.quantity);
        WrapSub(q as int, SumFor(init, id), x.quantity as int);
      }
    }
  }

  /** Lines that never name `id` take nothing from it. */
  lemma {:induction false} SumForAbsent(lines: seq<OrderItemRequest>, id: Ident)
    requires forall j :: 0 <= j < |lines| ==> lines[j].productId != id
    ensures SumFor(lines, id) == 0
    ensures forall q :: SubFor(q, lines, id) == q
    decreases |lines|
  {
    if |lines| > 0 {
      SumForAbsent(lines[..|lines| - 1], id);
    }
  }

  /** Quantities that are never negative add up to a total that is not negative. */
  lemma {:induction false} SumForNonNegative(lines: seq<OrderItemRequest>, id: Ident)
    requires forall j :: 0 <= j < |lines| && lines[j].productId == id ==> lines[j].quantity >= 0
    ensures SumFor(lines, id) >= 0
    decreases |lines|
  {
    if |lines| > 0 {
      SumForNonNegative(lines[..|lines| - 1], id);
    }
  }

  /**
   * When the lines naming `id` are not negative and the total does not take `q` below
   * the 32-bit range, no step wraps around: the product ends at exactly `q` minus the total.
   */
  lemma {:induction false} SubForExact(q: Int32, lines: seq<OrderItemRequest>, id: Ident)
    requires forall j :: 0 <= j < |lines| && lines[j].productId == id ==> lines[j].quantity >= 0
    requires q as int - SumFor(lines, id) >= MinInt32
    ensures SubFor(q, lines, id) as int == q as int - SumFor(lines, id)
    decreases |lines|
  {
    if |lines| > 0 {
      var init := lines[..|lines| - 1];
      SumForNonNegative(init, id);
      SubForExact(q, init, id);
    }
  }

  /** Position k holds the first product carrying its id, the one every lookup by that id finds. */
  predicate IsFirstWithId(ps: seq<Product>, k: nat)
  {
    k < |ps| && FirstIndex(ps, ProductKey, ps[k].id) == Some(k)
  }

  /** One line changes only the product its lookup finds, by an unchecked subtraction. */
  lemma {:induction false} DecrementLineAt(ps: seq<Product>, x: OrderItemRequest, k: nat)
    requires k < |ps|
    ensures FirstIndex(ps, ProductKey, x.productId) == Some(k) ==>
      DecrementLine(ps, x)[k].quantity == Sub32(ps[k].quantity, x.quantity)
    ensures FirstIndex(ps, ProductKey, x.productId) != Some(k) ==> DecrementLine(ps, x)[k] == ps[k]
  {
  }

  /**
   * The decrement takes from the first product with each id, line after line, the
   * quantity of every line naming that id.
   */
  lemma {:induction false} DecrementFirst(ps: seq<Product>, lines: seq<OrderItemRequest>, k: nat)
    requires IsFirstWithId(ps, k)
    ensures Decrement(ps, lines)[k].quantity == SubFor(ps[k].quantity, lines, ps[k].id)
    decreases |lines|
  {
    if |lines| > 0 {
      var init, x := lines[..|lines| - 1], lines[|lines| - 1];
      var d := Decrement(ps, init);
      DecrementFirst(ps, init, k);
      FirstIndexSameKeys(d, ps, ProductKey, x.productId);
      DecrementLineAt(d, x, k);
    }
  }

  /** Every product that is not the first with its id is left as it was. */
  lemma {:induction false} DecrementOthers(ps: seq<Product>, lines: seq<OrderItemRequest>, k: nat)
    requires k < |ps| && !IsFirstWithId(ps, k)
    ensures Decrement(ps, lines)[k] == ps[k]
    decreases |lines|
  {
    if |lines| > 0 {
      var init, x := lines[..|lines| - 1], lines[|lines| - 1];
      var d := Decrement(ps, init);
      DecrementOthers(ps, init, k);
      FirstIndexSameKeys(d, ps, ProductKey, x.productId);
      DecrementLineAt(d, x, k);
    }
  }

  /**
   * The effect of the decrement on any one product: the first product with an id ends at
   * its quantity minus the lines' total for that id, modulo 2^32; every other product,
   * and every field but the quantity, is unchanged.
   */
  lemma {:induction false} DecrementEffect(ps: seq<Product>, lines: seq<OrderItemRequest>, k: nat)
    requires k < |ps|
    ensures IsFirstWithId(ps, k) ==>
      Decrement(ps, lines)[k] == ps[k].(quantity := Wrap32(ps[k].quantity as int - SumFor(lines, ps[k].id)))
    ensures !IsFirstWithId(ps, k) ==> Decrement(ps, lines)[k] == ps[k]
  {
    if IsFirstWithId(ps, k) {
      var d := Decrement(ps, lines)[k];
      DecrementFirst(ps, lines, k);
      SubForWraps(ps[k].quantity, lines, ps[k].id);
      assert d == Product(ps[k].id, ps[k].name, d.quantity);
    } else {
      DecrementOthers(ps, lines, k);
    }
  }

  /** A product no line names keeps its quantity. */
  lemma {:induction false} UnnamedUnchanged(ps: seq<Product>, lines: seq<OrderItemRequest>, k: nat)
    requires k < |ps|
    requires forall j :: 0 <= j < |lines| ==> lines[j].productId != ps[k].id
    ensures Decrement(ps, lines)[k] == ps[k]
  {
    if IsFirstWithId(ps, k) {
      DecrementFirst(ps, lines, k);
      SumForAbsent(lines, ps[k].id);
    } else {
      DecrementOthers(ps, lines, k);
    }
  }

  /** No two lines of the request name the same product. */
  predicate DistinctLines(lines: seq<OrderItemRequest>)
  {
    forall i, j :: 0 <= i < j < |lines| ==> lines[i].productId != lines[j].productId
  }

  /** With distinct ids, a product's total is the quantity of the one line that names it. */
  lemma {:induction false} SumForDistinct(lines: seq<OrderItemRequest>, id: Ident, j: nat)
    requires DistinctLines(lines)
    requires j < |lines| && lines[j].productId == id
    ensures SumFor(lines, id) == lines[j].quantity as int
    decreases |lines|
  {
    var init := lines[..|lines| - 1];
    if j == |lines| - 1 {
      SumForAbsent(init, id);
    } else {
      SumForDistinct(init, id, j);
    }
  }

  /**
   * Under the written check, with distinct ids, the lines take from the first product
   * with an id either nothing or at most its quantity, and never a negative amount.
   */
  lemma {:induction false} DistinctTotalCovered(ps: seq<Product>, lines: seq<OrderItemRequest>, k: nat)
    requires LinesValid(ps, lines) && DistinctLines(lines)
    requires IsFirstWithId(ps, k)
    ensures forall j :: 0 <= j < |lines| && lines[j].productId == ps[k].id ==> lines[j].quantity >= 0
    ensures SumFor(lines, ps[k].id) == 0 || 0 < SumFor(lines, ps[k].id) <= ps[k].quantity as int
  {
    forall j | 0 <= j < |lines| && lines[j].productId == ps[k].id
      ensures lines[j].quantity >= 0
    {
      assert LineValid(ps, lines[j]);
    }
    if j :| 0 <= j < |lines| && lines[j].productId == ps[k].id {
      SumForDistinct(lines, ps[k].id, j);
      assert LineValid(ps, lines[j]);
    } else {
      SumForAbsent(lines, ps[k].id);
    }
  }

  /**
   * The stock check is sound for requests whose product ids are pairwise distinct:
   * every product ends at exactly its quantity minus what the lines request of it,
   * with no wrap-around, so no quantity that was not negative becomes negative.
   */
  lemma {:induction false} DistinctLinesKeepStock(ps: seq<Product>, lines: seq<OrderItemRequest>)
    requires LinesValid(ps, lines) && DistinctLines(lines)
    ensures forall k: nat :: IsFirstWithId(ps, k) ==>
      Decrement(ps, lines)[k].quantity as int == ps[k].quantity as int - SumFor(lines, ps[k].id)
    ensures forall k :: 0 <= k < |ps| && ps[k].quantity >= 0 ==> Decrement(ps, lines)[k].quantity >= 0
  {
    forall k: nat | k < |ps|
      ensures IsFirstWithId(ps, k) ==>
        Decrement(ps, lines)[k].quantity as int == ps[k].quantity as int - SumFor(lines, ps[k].id)
      ensures ps[k].quantity >= 0 ==> Decrement(ps, lines)[k].quantity >= 0
    {
      if IsFirstWithId(ps, k) {
        DistinctTotalCovered(ps, lines, k);
        KeptWithinStock(ps, lines, k);
      } else {
        DecrementOthers(ps, lines, k);
      }
    }
  }

  /** A first product whose lines are not negative and whose total does not wrap ends at exactly the difference. */
  lemma {:induction false} KeptWithinStock(ps: seq<Product>, lines: seq<OrderItemRequest>, k: nat)
    requires IsFirstWithId(ps, k)
    requires forall j :: 0 <= j < |lines| && lines[j].productId == ps[k].id ==> lines[j].quantity >= 0
    requires SumFor(lines, ps[k].id) == 0 || SumFor(lines, ps[k].id) <= ps[k].quantity as int
    ensures Decrement(ps, lines)[k].quantity as int == ps[k].quantity as int - SumFor(lines, ps[k].id)
  {
    DecrementFirst(ps, lines, k);
    SumForNonNegative(lines, ps[k].id);
    SubForExact(ps[k].quantity, lines, ps[k].id);
  }

  /**
   * The check the validation loop evidently intends: for every line, the first product
   * with its id exists, the line's quantity is positive, and the request's TOTAL for that
   * id does not exceed the product's quantity.
   */
  predicate StockCovers(ps: seq<Product>, lines: seq<OrderItemRequest>)
  {
    forall j :: 0 <= j < |lines| ==>
      match FirstIndex(ps, ProductKey, lines[j].productId)
      case None => false
      case Some(k) => 0 < lines[j].quantity && SumFor(lines, lines[j].productId) <= ps[k].quantity as int
  }

  /** Under the aggregated check, the lines take from the first product with an id either nothing or at most its quantity. */
  lemma {:induction false} CoveredTotal(ps: seq<Product>, lines: seq<OrderItemRequest>, k: nat)
    requires StockCovers(ps, lines)
    requires IsFirstWithId(ps, k)
    ensures forall j :: 0 <= j < |lines| && lines[j].productId == ps[k].id ==> lines[j].quantity > 0
    ensures SumFor(lines, ps[k].id) == 0 || SumFor(lines, ps[k].id) <= ps[k].quantity as int
  {
    forall j | 0 <= j < |lines| && lines[j].productId == ps[k].id
      ensures lines[j].quantity > 0
    {
      assert FirstIndex(ps, ProductKey, lines[j].productId) == Some(k);
    }
    if j :| 0 <= j < |lines| && lines[j].productId == ps[k].id {
      assert FirstIndex(ps, ProductKey, lines[j].productId) == Some(k);
    } else {
      SumForAbsent(lines, ps[k].id);
    }
  }

  /**
   * Under the aggregated check every product ends at exactly its quantity minus what
   * the lines request of it, whatever the repetitions, and no quantity that was not
   * negative becomes negative.
   */
  lemma {:induction false} CoveredLinesKeepStock(ps: seq<Product>, lines: seq<OrderItemRequest>)
    requires StockCovers(ps, lines)
    ensures forall k: nat :: IsFirstWithId(ps, k) ==>
      Decrement(ps, lines)[k].quantity as int == ps[k].quantity as int - SumFor(lines, ps[k].id)
    ensures forall k :: 0 <= k < |ps| && ps[k].quantity >= 0 ==> Decrement(ps, lines)[k].quantity >= 0
  {
    forall k: nat | k < |ps|
      ensures IsFirstWithId(ps, k) ==>
        Decrement(ps, lines)[k].quantity as int == ps[k].quantity as int - SumFor(lines, ps[k].id)
      ensures ps[k].quantity >= 0 ==> Decrement(ps, lines)[k].quantity >= 0
    {
      if IsFirstWithId(ps, k) {
        CoveredTotal(ps, lines, k);
        KeptWithinStock(ps, lines, k);
      } else {
        DecrementOthers(ps, lines, k);
      }
    }
  }

  /** On requests with distinct ids the aggregated check and the written one agree. */
  lemma {:induction false} DistinctLinesCovered(ps: seq<Product>, lines: seq<OrderItemRequest>)
    requires DistinctLines(lines)
    ensures LinesValid(ps, lines) <==> StockCovers(ps, lines)
  {
    forall j | 0 <= j < |lines|
      ensures SumFor(lines, lines[j].productId) == lines[j].quantity as int
    {
      SumForDistinct(lines, lines[j].productId, j);
    }
  }

  /** The aggregated check is never looser than the written one. */
  lemma {:induction false} CoveredLinesValid(ps: seq<Product>, lines: seq<OrderItemRequest>)
    requires StockCovers(ps, lines)
    ensures LinesValid(ps, lines)
  {
    forall j | 0 <= j < |lines| ensures LineValid(ps, lines[j]) {
      SumForAtLeast(lines, lines[j].productId, j);
    }
  }

  /** When every line naming `id` is positive, the total is at least any one of them. */
  lemma {:induction false} SumForAtLeast(lines: seq<OrderItemRequest>, id: Ident, j: nat)
    requires forall i :: 0 <= i < |lines| && lines[i].productId == id ==> lines[i].quantity > 0
    requires j < |lines| && lines[j].productId == id
    ensures SumFor(lines, id) >= lines[j].quantity as int
    decreases |lines|
  {
    var init := lines[..|lines| - 1];
    if j == |lines| - 1 {
      SumForNonNegative(init, id);
    } else {
      SumForAtLeast(init, id, j);
    }
  }

  /**
   * The defect of the written check: two lines of 3 against a product holding 5 each
   * pass, and the decrement leaves the product at -1.
   */
  lemma {:induction false} RepeatedLinesDriveStockNegative(id: Ident, name: string)
    ensures var ps := [Product(id, name, 5)];
            var lines := [OrderItemRequest(id, 3), OrderItemRequest(id, 3)];
            && LinesValid(ps, lines)
            && !StockCovers(ps, lines)
            && Decrement(ps, lines)[0].quantity == -1
  {
    var ps := [Product(id, name, 5)];
    var lines := [OrderItemRequest(id, 3), OrderItemRequest(id, 3)];
    assert FirstIndex(ps, ProductKey, id) == Some(0);
    assert lines[..1] == [lines[0]];
    assert SumFor(lines, id) == 6 by {
      assert SumFor(lines[..1], id) == 3 by {
        assert lines[..1][..0] == [];
      }
    }
    DecrementFirst(ps, lines, 0);
    SubForExact(ps[0].quantity, lines, id);
    assert !StockCovers(ps, lines) by {
      assert FirstIndex(ps, ProductKey, lines[0].productId) == Some(0);
    }
  }

  /**
   * With unchecked arithmetic the same defect can also hide itself: three lines of
   * 2147483647 against a product holding 2147483647 each pass, and the product ends at 2.
   */
  lemma {:induction false} RepeatedLinesWrapAround(id: Ident, name: string)
    ensures var ps := [Product(id, name, 0x7FFF_FFFF)];
            var x := OrderItemRequest(id, 0x7FFF_FFFF);
            && LinesValid(ps, [x, x, x])
            && !StockCovers(ps, [x, x, x])
            && Decrement(ps, [x, x, x])[0].quantity == 2
  {
    var ps := [Product(id, name, 0x7FFF_FFFF)];
    var x := OrderItemRequest(id, 0x7FFF_FFFF);
    var lines := [x, x, x];
    assert FirstIndex(ps, ProductKey, id) == Some(0);
    assert lines[..2] == [x, x] && [x, x][..1] == [x] && [x][..0] == [];
    assert SubFor(ps[0].quantity, [x], id) == 0;
    assert SubFor(ps[0].quantity, [x, x], id) == -0x7FFF_FFFF;
    assert SubFor(ps[0].quantity, lines, id) == 2;
    DecrementFirst(ps, lines, 0);
    assert !StockCovers(ps, lines) by {
      assert SumFor([x], id) == 0x7FFF_FFFF;
      assert SumFor([x, x], id) == 2 * 0x7FFF_FFFF;
      assert SumFor(lines, id) == 3 * 0x7FFF_FFFF;
      assert FirstIndex(ps, ProductKey, lines[0].productId) == Some(0);
    }
  }

  /**
   * The `Select` that builds the order lines: for each request line, in order, the
   * product id, the name of the first product with that id, and the requested quantity.
   */
  function OrderLines(ps: seq<Product>, lines: seq<OrderItemRequest>): (r: seq<OrderItem>)
    requires LinesKnown(ps, lines)
    ensures |r| == |lines|
    ensures forall j :: 0 <= j < |lines| ==>
      && r[j].productId == lines[j].productId
      && r[j].name == ps[FirstIndex(ps, ProductKey, lines[j].productId).value].name
      && r[j].quantity == lines[j].quantity
    decreases |lines|
  {
    if |lines| == 0 then []
    else
      var k := FirstIndex(ps, ProductKey, lines[0].productId).value;
      [OrderItem(ps[k].id, ps[k].name, lines[0].quantity)] + OrderLines(ps, lines[1..])
  }

  /** The decrement changes no name, so the order snapshots the names as they were read. */
  lemma {:induction false} SnapshotNamesAsRead(ps: seq<Product>, lines: seq<OrderItemRequest>)
    requires LinesKnown(ps, lines)
    ensures LinesKnown(Decrement(ps, lines), lines)
    ensures OrderLines(Decrement(ps, lines), lines) == OrderLines(ps, lines)
  {
    var d := Decrement(ps, lines);
    forall id ensures FirstIndex(d, ProductKey, id) == FirstIndex(ps, ProductKey, id) {
      FirstIndexSameKeys(d, ps, ProductKey, id);
    }
  }
}
