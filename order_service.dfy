/**
 * OrderService (backend/Orders.Api/OrderService.cs): placing an order against the
 * product document, and the status update, deletion and listings over the order
 * document. Each call is one load per document followed by at most one save.
 */
module OrderPlacement {

  import opened Wrappers
  import opened Entities
  import opened Lookup
  import opened Storage
  import opened Stock
  import opened OrderViews

  /** The validation loop (OrderService.cs:27-31): true exactly when every line passes against `products`. */
  method CheckStock(products: seq<Product>, lines: seq<OrderItemRequest>) returns (valid: bool)
    ensures valid <==> LinesValid(products, lines)
    ensures valid ==> LinesKnown(products, lines)
  {
    var i := 0;
    while i < |lines|
      invariant 0 <= i <= |lines|
      invariant forall j :: 0 <= j < i ==> LineValid(products, lines[j])
    {
      var found := FirstIndex(products, ProductKey, lines[i].productId);
      if found.None? || lines[i].quantity <= 0 || lines[i].quantity > products[found.value].quantity {
        assert !LineValid(products, lines[i]);
        return false;
      }
      i := i + 1;
    }
    assert LinesKnown(products, lines) by {
      forall j | 0 <= j < |lines| ensures FirstIndex(products, ProductKey, lines[j].productId).Some? {
        assert LineValid(products, lines[j]);
      }
    }
    return true;
  }

  /**
   * The check the validation loop evidently intends: a line passes only when the
   * request's total for its product, not just the line itself, is covered by the stock.
   */
  method CheckStockTotals(products: seq<Product>, lines: seq<OrderItemRequest>) returns (valid: bool)
    ensures valid <==> StockCovers(products, lines)
    ensures valid ==> LinesValid(products, lines)
  {
    var i := 0;
    while i < |lines|
      invariant 0 <= i <= |lines|
      invariant forall j :: 0 <= j < i ==>
        match FirstIndex(products, ProductKey, lines[j].productId)
        case None => false
        case Some(k) => 0 < lines[j].quantity && SumFor(lines, lines[j].productId) <= products[k].quantity as int
    {
      var found := FirstIndex(products, ProductKey, lines[i].productId);
      if found.None? || lines[i].quantity <= 0
        || SumFor(lines, lines[i].productId) > products[found.value].quantity as int
      {
        return false;
      }
      i := i + 1;
    }
    CoveredLinesValid(products, lines);
    return true;
  }

  /**
   * The decrement loop (OrderService.cs:34-38): each line's quantity is subtracted, in
   * unchecked `int` arithmetic, from the first product with its id, in request order.
   */
  method SubtractStock(products: seq<Product>, lines: seq<OrderItemRequest>) returns (r: seq<Product>)
    requires LinesKnown(products, lines)
    ensures r == Decrement(products, lines)
  {
    r := products;
    var i := 0;
    while i < |lines|
      invariant 0 <= i <= |lines|
      invariant r == Decrement(products, lines[..i])
    {
      FirstIndexSameKeys(r, products, ProductKey, lines[i].productId);
      var k := FirstIndex(r, ProductKey, lines[i].productId).value;
      r := r[k := r[k].(quantity := Sub32(r[k].quantity, lines[i].quantity))];
      assert lines[..i + 1][..i] == lines[..i];
      i := i + 1;
    }
    assert lines[..|lines|] == lines;
  }

  class OrderService {
    const store: DataStore

    constructor (store: DataStore)
      ensures this.store == store
    {
      this.store := store;
    }

    /**
     * `PlaceOrderAsync`. `items` is None for a null list. `orderId` and `now` are the
     * GUID and the clock reading that the new Order's initialisers draw.
     * Every line is checked against the product list as loaded; only then is each
     * line's quantity subtracted, one line after the other, from the first product with
     * its id; the products are saved, the order is built from the decremented list and
     * appended to the order document.
     */
    method PlaceOrder(userId: Ident, items: Option<seq<OrderItemRequest>>, orderId: Ident, now: int)
      returns (placed: Option<Order>)
      modifies store`products, store`productWrites, store`orders, store`orderWrites
      ensures placed.None? <==>
        items.None? || |items.value| == 0 || !LinesValid(old(store.products), items.value)
      ensures placed.None? ==>
        && store.products == old(store.products) && store.productWrites == old(store.productWrites)
        && store.orders == old(store.orders) && store.orderWrites == old(store.orderWrites)
      ensures placed.Some? ==>
        var lines := items.value;
        && LinesKnown(old(store.products), lines)
        && store.products == Decrement(old(store.products), lines)
        && placed.value == NewOrder(orderId, userId, now, OrderLines(old(store.products), lines))
        && store.orders == old(store.orders) + [placed.value]
        && store.productWrites == old(store.productWrites) + 1
        && store.orderWrites == old(store.orderWrites) + 1
    {
      if items.None? || |items.value| == 0 {
        return None;
      }
      var lines := items.value;
      var products := store.products;
      ghost var loaded := products;
      var valid := CheckStock(products, lines);
      if !valid {
        return None;
      }
      products := SubtractStock(products, lines);
      store.SaveProducts(products);

      SnapshotNamesAsRead(loaded, lines);
      var order := NewOrder(orderId, userId, now, OrderLines(products, lines));
      var all := store.orders;
      all := all + [order];
      store.SaveOrders(all);
      return Some(order);
    }

    /** `UpdateStatusAsync`: sets the status of the first order with the id; nothing else changes. */
    method UpdateStatus(id: Ident, status: OrderStatus) returns (updated: bool)
      modifies store`orders, store`orderWrites
      ensures updated <==> FirstIndex(old(store.orders), OrderKey, id).Some?
      ensures !updated ==> store.orders == old(store.orders) && store.orderWrites == old(store.orderWrites)
      ensures updated ==>
        var k := FirstIndex(old(store.orders), OrderKey, id).value;
        && store.orders == old(store.orders)[k := old(store.orders)[k].(status := status)]
        && store.orderWrites == old(store.orderWrites) + 1
      ensures |store.orders| == |old(store.orders)|
      ensures forall j :: 0 <= j < |store.orders| ==> SameOrderButStatus(old(store.orders)[j], store.orders[j])
    {
      var all := store.orders;
      var found := FirstIndex(all, OrderKey, id);
      if found.None? {
        return false;
      }
      var k := found.value;
      all := all[k := all[k].(status := status)];
      store.SaveOrders(all);
      return true;
    }

    /** `DeleteOrderAsync`: drops every order with the id; saves only when one was dropped. */
    method DeleteOrder(id: Ident) returns (deleted: bool)
      modifies store`orders, store`orderWrites
      ensures deleted <==> FirstIndex(old(store.orders), OrderKey, id).Some?
      ensures store.orders == RemoveAll(old(store.orders), OrderKey, id)
      ensures store.orderWrites == old(store.orderWrites) + (if deleted then 1 else 0)
    {
      var all := store.orders;
      var countBefore := |all|;
      all := RemoveAll(all, OrderKey, id);
      if |all| == countBefore {
        RemoveAllNothing(store.orders, OrderKey, id);
        return false;
      }
      store.SaveOrders(all);
      return true;
    }

    /** `GetByUserAsync`: the user's orders, newest first (see OrderViews.ByUserNewestFirstSpec). */
    method GetByUser(userId: Ident) returns (list: seq<Order>)
      ensures list == ByUserNewestFirst(store.orders, userId)
      ensures NewestFirstOrdered(list)
      ensures forall x :: x in list <==> x in store.orders && x.userId == userId
    {
      list := ByUserNewestFirst(store.orders, userId);
      ByUserNewestFirstSpec(store.orders, userId);
      forall x ensures x in list <==> x in store.orders && x.userId == userId {
        assert x in list <==> multiset(list)[x] > 0;
        assert x in store.orders <==> multiset(store.orders)[x] > 0;
      }
    }

    /** `GetAllAsync`: the stored list, as it is. */
    method GetAll() returns (list: seq<Order>)
      ensures list == store.orders
    {
      list := store.orders;
    }
  }
}
