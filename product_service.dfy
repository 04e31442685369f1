/**
 * ProductService (backend/Orders.Api/ProductService.cs): add, update and delete over the
 * product document, each one load followed by at most one save.
 */
module ProductCatalog {

  import opened Wrappers
  import opened Entities
  import opened Lookup
  import opened Storage

  class ProductService {
    const store: DataStore

    constructor (store: DataStore)
      ensures this.store == store
    {
      this.store := store;
    }

    /** The stored list, as it is. */
    method GetAll() returns (list: seq<Product>)
      ensures list == store.products
    {
      list := store.products;
    }

    /**
     * Appends a product built from the request with the fresh identity `freshId` (the
     * source draws a new GUID). Neither the name nor the quantity is validated.
     */
    method Add(dto: ProductDto, freshId: Ident) returns (p: Product)
      requires FirstIndex(store.products, ProductKey, freshId).None?
      modifies store`products, store`productWrites
      ensures p.id == freshId && p.name == dto.name && p.quantity == dto.quantity
      ensures store.products == old(store.products) + [p]
      ensures store.productWrites == old(store.productWrites) + 1
      ensures DistinctKeys(old(store.products), ProductKey) ==> DistinctKeys(store.products, ProductKey)
    {
      var list := store.products;
      p := Product(freshId, dto.name, dto.quantity);
      list := list + [p];
      store.SaveProducts(list);
    }

    /**
     * Sets name and quantity of the first product whose id is the request's id. A request
     * without an id matches nothing.
     */
    method Update(dto: ProductDto) returns (updated: bool)
      modifies store`products, store`productWrites
      ensures updated <==> dto.id.Some? && FirstIndex(old(store.products), ProductKey, dto.id.value).Some?
      ensures !updated ==> store.products == old(store.products) && store.productWrites == old(store.productWrites)
      ensures updated ==>
        var k := FirstIndex(old(store.products), ProductKey, dto.id.value).value;
        && store.products == old(store.products)[k := Product(old(store.products)[k].id, dto.name, dto.quantity)]
        && store.productWrites == old(store.productWrites) + 1
      ensures |store.products| == |old(store.products)|
      ensures forall j :: 0 <= j < |store.products| ==> SameProductId(old(store.products)[j], store.products[j])
    {
      var list := store.products;
      if dto.id.None? {
        return false;
      }
      var found := FirstIndex(list, ProductKey, dto.id.value);
      if found.None? {
        return false;
      }
      var k := found.value;
      list := list[k := list[k].(name := dto.name, quantity := dto.quantity)];
      store.SaveProducts(list);
      return true;
    }

    /** Removes every product with the id; saves only when something was removed. */
    method Delete(id: Ident) returns (removed: bool)
      modifies store`products, store`productWrites
      ensures removed <==> FirstIndex(old(store.products), ProductKey, id).Some?
      ensures store.products == RemoveAll(old(store.products), ProductKey, id)
      ensures store.productWrites == old(store.productWrites) + (if removed then 1 else 0)
    {
      var list := store.products;
      var kept := RemoveAll(list, ProductKey, id);
      removed := |kept| < |list|;
      if removed {
        store.SaveProducts(kept);
      } else {
        RemoveAllNothing(list, ProductKey, id);
      }
    }
  }
}
