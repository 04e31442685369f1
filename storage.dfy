/**
 * The blob container "data" as the services see it: three independent list documents
 * ("products.json", "orders.json", "users.json"). Loading a document yields a fresh copy
 * of its list (a value); saving replaces the whole document unconditionally. Each
 * document also counts its saves, so that "nothing is written" is observable.
 */
module Storage {

  import opened Entities

  class DataStore {
    var products: seq<Product>
    var orders: seq<Order>
    var users: seq<UserAccount>
    var productWrites: nat
    var orderWrites: nat
    var userWrites: nat

    constructor (products: seq<Product>, orders: seq<Order>, users: seq<UserAccount>)
      ensures this.products == products && this.orders == orders && this.users == users
      ensures productWrites == 0 && orderWrites == 0 && userWrites == 0
    {
      this.products := products;
      this.orders := orders;
      this.users := users;
      productWrites, orderWrites, userWrites := 0, 0, 0;
    }

    method SaveProducts(list: seq<Product>)
      modifies this`products, this`productWrites
      ensures products == list && productWrites == old(productWrites) + 1
    {
      products := list;
      productWrites := productWrites + 1;
    }

    method SaveOrders(list: seq<Order>)
      modifies this`orders, this`orderWrites
      ensures orders == list && orderWrites == old(orderWrites) + 1
    {
      orders := list;
      orderWrites := orderWrites + 1;
    }

    method SaveUsers(list: seq<UserAccount>)
      modifies this`users, this`userWrites
      ensures users == list && userWrites == old(userWrites) + 1
    {
      users := list;
      userWrites := userWrites + 1;
    }
  }
}
