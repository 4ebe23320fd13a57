/** The on-chain escrow ledger (`ProductRegistry`), as its test suite drives it: a product
    table and an order table keyed by ids allocated from 1, and the four operations that
    write them. Only the effects that the test suite asserts, and the arguments the backend
    passes, are modelled; the contract's own checks are not. Fund movements are returned as
    values instead of being performed. */
module Ledger {
  import opened Results
  import Lists

  /** A row of the product table. `price` is the amount in wei. */
  datatype Product = Product(
    id: nat,
    name: string,
    photo: string,
    description: string,
    price: nat,
    seller: string,
    isDeleted: bool,
    isSold: bool,
    isReserved: bool,
    buyer: string)

  /** A row of the order table. `amount` is the value deposited with the reservation. */
  datatype Order = Order(
    id: nat,
    productId: nat,
    buyer: string,
    amount: nat,
    shippingInfo: string,
    isSend: bool,
    isReleased: bool,
    isPayed: bool,
    isCanceled: bool)

  /** A payment the ledger makes: `amount` wei to `recipient`. */
  datatype Transfer = Transfer(recipient: string, amount: nat)

  datatype LedgerError = UnknownProduct | UnknownOrder

  /** The buyer of a product that has never been reserved. */
  const NoBuyer: string := ""

  class ProductRegistry {
    var products: map<nat, Product>
    var orders: map<nat, Order>
    var productCount: nat
    var orderCount: nat

    /** Ids run from 1 to the counter without gaps, every row carries its own key, and
        every order refers to a product. */
    ghost predicate Valid()
      reads this
    {
      && (forall i: nat :: i in products <==> 1 <= i <= productCount)
      && (forall i: nat :: i in orders <==> 1 <= i <= orderCount)
      && (forall i :: i in products ==> products[i].id == i)
      && (forall i :: i in orders ==> orders[i].id == i && orders[i].productId in products)
    }

    /** A freshly deployed registry. */
    constructor ()
      ensures Valid()
      ensures products == map[] && orders == map[] && productCount == 0 && orderCount == 0
    {
      products := map[];
      orders := map[];
      productCount := 0;
      orderCount := 0;
    }

    /** The product table in id order, as the backend lists it. */
    function ProductList(): (ps: seq<Product>)
      reads this
      requires Valid()
      ensures |ps| == productCount
      ensures forall k :: 0 <= k < |ps| ==> ps[k] == products[k + 1]
    {
      var ps := Lists.Ordered(products, productCount);
      forall k | 0 <= k < |ps| ensures ps[k] == products[k + 1] {
        Lists.OrderedAt(products, productCount, k);
      }
      ps
    }

    /** The order table in id order, as the backend lists it. */
    function OrderList(): (os: seq<Order>)
      reads this
      requires Valid()
      ensures |os| == orderCount
      ensures forall k :: 0 <= k < |os| ==> os[k] == orders[k + 1]
      ensures forall o :: o in os ==> o.productId in products
    {
      var os := Lists.Ordered(orders, orderCount);
      forall k | 0 <= k < |os| ensures os[k] == orders[k + 1] {
        Lists.OrderedAt(orders, orderCount, k);
      }
      os
    }

    /** `createProduct`: stores the product under the next id with all three flags false. */
    method CreateProduct(name: string, photo: string, description: string, price: nat, seller: string)
      returns (id: nat)
      requires Valid()
      modifies this
      ensures Valid()
      ensures id == old(productCount) + 1 && productCount == id
      ensures products == old(products)[id := Product(id, name, photo, description, price, seller, false, false, false, NoBuyer)]
      ensures orders == old(orders) && orderCount == old(orderCount)
    {
      productCount := productCount + 1;
      id := productCount;
      products := products[id := Product(id, name, photo, description, price, seller, false, false, false, NoBuyer)];
    }

    /** `reserveProduct` with `value` wei attached: marks the product reserved by `buyer`
        and opens an order under the next order id that holds the deposit. */
    method ReserveProduct(productId: nat, buyer: string, shippingInfo: string, value: nat)
      returns (r: Result<nat, LedgerError>)
      requires Valid()
      modifies this
      ensures Valid()
      ensures productId !in old(products) ==> r == Err(UnknownProduct) && unchanged(this)
      ensures productId in old(products) ==>
        && r == Ok(old(orderCount) + 1)
        && orderCount == old(orderCount) + 1
        && orders == old(orders)[orderCount := Order(orderCount, productId, buyer, value, shippingInfo, false, false, false, false)]
        && products == old(products)[productId := old(products)[productId].(isReserved := true, buyer := buyer)]
        && productCount == old(productCount)
    {
      if productId !in products {
        return Err(UnknownProduct);
      }
      orderCount := orderCount + 1;
      orders := orders[orderCount := Order(orderCount, productId, buyer, value, shippingInfo, false, false, false, false)];
      products := products[productId := products[productId].(isReserved := true, buyer := buyer)];
      r := Ok(orderCount);
    }

    /** `confirmReceived(orderId, buyer, amount, seller)`: the product is sold, the order's
        funds are released, and `amount` is paid to `seller`. */
    method ConfirmReceived(orderId: nat, buyer: string, amount: nat, seller: string)
      returns (r: Result<Transfer, LedgerError>)
      requires Valid()
      modifies this
      ensures Valid()
      ensures orderId !in old(orders) ==> r == Err(UnknownOrder) && unchanged(this)
      ensures orderId in old(orders) ==>
        var pid := old(orders)[orderId].productId;
        && r == Ok(Transfer(seller, amount))
        && orders == old(orders)[orderId := old(orders)[orderId].(isReleased := true)]
        && products == old(products)[pid := old(products)[pid].(isSold := true)]
        && productCount == old(productCount) && orderCount == old(orderCount)
    {
      if orderId !in orders {
        return Err(UnknownOrder);
      }
      var pid := orders[orderId].productId;
      orders := orders[orderId := orders[orderId].(isReleased := true)];
      products := products[pid := products[pid].(isSold := true)];
      r := Ok(Transfer(seller, amount));
    }

    /** `cancelReservation(orderId, buyer, amount)`: the product is no longer reserved, the
        order is canceled, and `amount` is refunded to `buyer`. */
    method CancelReservation(orderId: nat, buyer: string, amount: nat)
      returns (r: Result<Transfer, LedgerError>)
      requires Valid()
      modifies this
      ensures Valid()
      ensures orderId !in old(orders) ==> r == Err(UnknownOrder) && unchanged(this)
      ensures orderId in old(orders) ==>
        var pid := old(orders)[orderId].productId;
        && r == Ok(Transfer(buyer, amount))
        && orders == old(orders)[orderId := old(orders)[orderId].(isCanceled := true)]
        && products == old(products)[pid := old(products)[pid].(isReserved := false)]
        && productCount == old(productCount) && orderCount == old(orderCount)
    {
      if orderId !in orders {
        return Err(UnknownOrder);
      }
      var pid := orders[orderId].productId;
      orders := orders[orderId := orders[orderId].(isCanceled := true)];
      products := products[pid := products[pid].(isReserved := false)];
      r := Ok(Transfer(buyer, amount));
    }
  }

  /** The first three test cases on any registry: a product is created, reserved with its
      price as the deposit, and its receipt confirmed, which pays the seller. */
  method CreateReserveConfirm(registry: ProductRegistry, name: string, photo: string, description: string,
                              price: nat, seller: string, buyer: string, shippingInfo: string)
    returns (id: nat, orderId: nat, payout: Transfer)
    requires registry.Valid()
    modifies registry
    ensures registry.Valid()
    ensures id == old(registry.productCount) + 1 == registry.productCount
    ensures orderId == old(registry.orderCount) + 1 == registry.orderCount
    ensures registry.products[id] == Product(id, name, photo, description, price, seller, false, true, true, buyer)
    ensures registry.orders[orderId] == Order(orderId, id, buyer, price, shippingInfo, false, true, false, false)
    ensures payout == Transfer(seller, price)
  {
    id := registry.CreateProduct(name, photo, description, price, seller);
    var reserved := registry.ReserveProduct(id, buyer, shippingInfo, registry.products[id].price);
    orderId := reserved.value;
    var o := registry.orders[orderId];
    assert o == Order(orderId, id, buyer, price, shippingInfo, false, false, false, false);
    var released := registry.ConfirmReceived(orderId, buyer, o.amount, registry.products[o.productId].seller);
    payout := released.value;
  }

  /** The fourth test case on any registry: a product is created, reserved with its price
      as the deposit, and the reservation canceled, which refunds the buyer. */
  method CreateReserveCancel(registry: ProductRegistry, name: string, photo: string, description: string,
                             price: nat, seller: string, buyer: string, shippingInfo: string)
    returns (id: nat, orderId: nat, refund: Transfer)
    requires registry.Valid()
    modifies registry
    ensures registry.Valid()
    ensures id == old(registry.productCount) + 1 == registry.productCount
    ensures orderId == old(registry.orderCount) + 1 == registry.orderCount
    ensures registry.products[id] == Product(id, name, photo, description, price, seller, false, false, false, buyer)
    ensures registry.orders[orderId] == Order(orderId, id, buyer, price, shippingInfo, false, false, false, true)
    ensures refund == Transfer(buyer, price)
  {
    id := registry.CreateProduct(name, photo, description, price, seller);
    var reserved := registry.ReserveProduct(id, buyer, shippingInfo, registry.products[id].price);
    orderId := reserved.value;
    var o := registry.orders[orderId];
    assert o == Order(orderId, id, buyer, price, shippingInfo, false, false, false, false);
    var canceled := registry.CancelReservation(orderId, buyer, o.amount);
    refund := canceled.value;
  }

  /** The test suite's four cases run in order against one freshly deployed registry, for
      any names, photos, descriptions, prices and addresses in place of its literals: the
      results are the rows it reads back with `products(i)` and `orders(i)` and the two
      payments made. */
  method RegistryTestSuite(name: string, photo: string, description: string, price: nat,
                           name2: string, photo2: string, description2: string, price2: nat,
                           seller: string, buyer: string, shippingInfo: string)
    returns (product1: Product, order1: Order, product2: Product, order2: Order, payout: Transfer, refund: Transfer)
    ensures product1 == Product(1, name, photo, description, price, seller, false, true, true, buyer)
    ensures order1 == Order(1, 1, buyer, price, shippingInfo, false, true, false, false)
    ensures product2 == Product(2, name2, photo2, description2, price2, seller, false, false, false, buyer)
    ensures order2 == Order(2, 2, buyer, price2, shippingInfo, false, false, false, true)
    ensures payout == Transfer(seller, price) && refund == Transfer(buyer, price2)
  {
    var registry := new ProductRegistry();
    var id1, orderId1;
    id1, orderId1, payout := CreateReserveConfirm(registry, name, photo, description, price, seller, buyer, shippingInfo);
    product1, order1 := registry.products[1], registry.orders[1];
    var id2, orderId2;
    id2, orderId2, refund := CreateReserveCancel(registry, name2, photo2, description2, price2, seller, buyer, shippingInfo);
    product2, order2 := registry.products[2], registry.orders[2];
  }
}
