/** The backend service around the ledger: the off-chain checks and argument choices it makes
    before each ledger write, and the list views it builds from the ledger's tables. */
module Service {
  import opened Results
  import opened Ledger
  import Entities
  import Lists
  import Decimal
  import Pagination

  // ---------------------------------------------------------------- values

  /** A transaction as the node reports it by hash: its sender and its value in wei. */
  datatype Transaction = Transaction(from: string, value: nat)

  datatype ServiceError = CannotBeReserved | VerificationFailed | OrderNotFound

  /** The product part of an order view. */
  datatype ProductResponse = ProductResponse(id: nat, name: string, photo: string, description: string, price: nat)

  /** A row of the "my orders" and "my products" views. */
  datatype OrderResponse = OrderResponse(
    id: nat,
    product: ProductResponse,
    total: nat,
    isProductReserved: bool,
    isOrderSend: bool,
    isOrderReleased: bool,
    isOrderPayed: bool,
    isOrderCanceled: bool,
    isProductDeleted: bool,
    shippingInfo: string,
    buyer: string)

  // ---------------------------------------------------------------- reservation checks

  /** The service refuses to reserve a product that is deleted, reserved or sold. */
  predicate Reservable(p: Product)
  {
    !p.isDeleted && !p.isReserved && !p.isSold
  }

  /** The shipping text stored with an order. */
  function ShippingInfo(shippingName: string, shippingAddress: string): (r: string)
    ensures |r| == 17 + |shippingName| + |shippingAddress|
    ensures r[..6] == "Name: " && r[6..6 + |shippingName|] == shippingName
    ensures r[6 + |shippingName|..17 + |shippingName|] == ", Address: "
    ensures r[17 + |shippingName|..] == shippingAddress
  {
    "Name: " + shippingName + ", Address: " + shippingAddress
  }

  /** Given the length of the name, the shipping text determines both of its parts. */
  lemma ShippingInfoInjective(n1: string, a1: string, n2: string, a2: string)
    requires |n1| == |n2| && ShippingInfo(n1, a1) == ShippingInfo(n2, a2)
    ensures n1 == n2 && a1 == a2
  {
    var s := ShippingInfo(n1, a1);
    assert n1 == s[6..6 + |n1|] == n2;
    assert a1 == s[17 + |n1|..] == a2;
  }

  /** ASCII case folding; `equalsIgnoreCase` also folds non-ASCII letters. */
  function Lower(c: char): char
  {
    if 'A' <= c <= 'Z' then (c as int + 32) as char else c
  }

  /** `String.equalsIgnoreCase` on ASCII text. */
  predicate EqualsIgnoreCase(a: string, b: string)
  {
    |a| == |b| && forall i :: 0 <= i < |a| ==> Lower(a[i]) == Lower(b[i])
  }

  /** Ignoring case is an equivalence that exact equality implies and that keeps lengths. */
  lemma IgnoreCaseIsEquivalence(a: string, b: string, c: string)
    ensures EqualsIgnoreCase(a, a)
    ensures EqualsIgnoreCase(a, b) ==> EqualsIgnoreCase(b, a) && |a| == |b|
    ensures EqualsIgnoreCase(a, b) && EqualsIgnoreCase(b, c) ==> EqualsIgnoreCase(a, c)
  {
  }

  /** Upper-casing a lower-case ASCII letter. */
  function Upper(c: char): char
  {
    if 'a' <= c <= 'z' then (c as int - 32) as char else c
  }

  /** An address matches any copy of itself in which some letters are upper-cased, as a
      checksummed Ethereum address is. */
  lemma UpperCasedLettersMatch(a: string, b: string)
    requires |a| == |b|
    requires forall i :: 0 <= i < |a| ==> b[i] == a[i] || b[i] == Upper(a[i])
    ensures EqualsIgnoreCase(a, b) && EqualsIgnoreCase(b, a)
  {
    forall i | 0 <= i < |a| ensures Lower(a[i]) == Lower(b[i]) {
      if b[i] != a[i] {
        assert 'a' <= a[i] <= 'z';
      }
    }
  }

  /** Two addresses that differ in a digit never match, whatever the case of their letters. */
  lemma DifferentDigitsDiffer(a: string, b: string, i: nat)
    requires i < |a| && i < |b|
    requires '0' <= a[i] <= '9' && '0' <= b[i] <= '9' && a[i] != b[i]
    ensures !EqualsIgnoreCase(a, b)
  {
    assert Lower(a[i]) == a[i] && Lower(b[i]) == b[i];
  }

  /** `verifyTransaction`: the transaction was found, was sent by the buyer (ignoring case)
      and carries exactly the expected value. */
  predicate VerifyTransaction(tx: Option<Transaction>, fromAddress: string, expectedValuePrice: nat)
  {
    match tx
    case None => false
    case Some(t) => EqualsIgnoreCase(t.from, fromAddress) && t.value == expectedValuePrice
  }

  // ---------------------------------------------------------------- entity copies

  /** `getProductById` / `getAllProducts`: a ledger product copied into a `Product` entity,
      its price written in decimal. */
  function ToEntity(p: Product): (e: Entities.ProductRecord)
    ensures Decimal.IsDecimal(e.price) && Decimal.ParseDecimal(e.price) == p.price
    ensures e.id == p.id && e.name == p.name && e.photo == p.photo && e.description == p.description
    ensures e.seller == p.seller && e.isDeleted == p.isDeleted && e.isSold == p.isSold
    ensures e.isReserved == p.isReserved && e.buyer == p.buyer
  {
    Decimal.ParseToDecimal(p.price);
    Entities.ProductRecord(p.id, p.name, p.photo, p.description, Decimal.ToDecimal(p.price), p.seller,
                  p.isDeleted, p.isSold, p.isReserved, p.buyer)
  }

  function ToEntities(ps: seq<Product>): (es: seq<Entities.ProductRecord>)
    ensures |es| == |ps| && AllDecimalPrices(es)
    ensures forall k :: 0 <= k < |ps| ==>
      && es[k].id == ps[k].id && es[k].seller == ps[k].seller && es[k].isReserved == ps[k].isReserved
      && es[k].isSold == ps[k].isSold && es[k].isDeleted == ps[k].isDeleted
      && Decimal.ParseDecimal(es[k].price) == ps[k].price
  {
    seq(|ps|, k requires 0 <= k < |ps| => ToEntity(ps[k]))
  }

  predicate AllDecimalPrices(es: seq<Entities.ProductRecord>)
  {
    forall k :: 0 <= k < |es| ==> Decimal.IsDecimal(es[k].price)
  }

  // ---------------------------------------------------------------- for-sale view

  /** The products listed to a caller: those the caller does not sell, in ledger order. */
  function ForSale(ps: seq<Entities.ProductRecord>, caller: string): seq<Entities.ProductRecord>
  {
    Lists.Filter(ps, (p: Entities.ProductRecord) => p.seller != caller)
  }

  lemma ForSaleSnoc(ps: seq<Entities.ProductRecord>, x: Entities.ProductRecord, caller: string)
    ensures ForSale(ps + [x], caller) == ForSale(ps, caller) + (if x.seller != caller then [x] else [])
  {
    Lists.FilterSnoc(ps, x, (p: Entities.ProductRecord) => p.seller != caller);
  }

  /** A product is listed exactly when it is in the catalogue and sold by someone else;
      the listing keeps catalogue order. */
  lemma ForSaleExactly(ps: seq<Entities.ProductRecord>, caller: string, p: Entities.ProductRecord)
    ensures p in ForSale(ps, caller) <==> p in ps && p.seller != caller
    ensures Lists.IsSubsequence(ForSale(ps, caller), ps)
  {
    Lists.FilterMembership(ps, (p: Entities.ProductRecord) => p.seller != caller, p);
    Lists.FilterIsSubsequence(ps, (p: Entities.ProductRecord) => p.seller != caller);
  }

  /** The filtering loop of `getAllProductsForSale`. */
  method FilterForSale(products: seq<Entities.ProductRecord>, buyerAddress: string)
    returns (filtered: seq<Entities.ProductRecord>)
    ensures filtered == ForSale(products, buyerAddress)
  {
    filtered := [];
    var i := 0;
    while i < |products|
      invariant 0 <= i <= |products|
      invariant filtered == ForSale(products[..i], buyerAddress)
    {
      var product := products[i];
      ForSaleSnoc(products[..i], product, buyerAddress);
      assert products[..i + 1] == products[..i] + [product];
      if product.seller != buyerAddress {
        filtered := filtered + [product];
      }
      i := i + 1;
    }
    assert products[..i] == products;
  }

  // ---------------------------------------------------------------- buyer view

  /** The orders a caller placed, in ledger order. */
  function CallerOrders(os: seq<Order>, caller: string): seq<Order>
  {
    Lists.Filter(os, (o: Order) => o.buyer == caller)
  }

  lemma CallerOrdersSnoc(os: seq<Order>, x: Order, caller: string)
    ensures CallerOrders(os + [x], caller) == CallerOrders(os, caller) + (if x.buyer == caller then [x] else [])
  {
    Lists.FilterSnoc(os, x, (o: Order) => o.buyer == caller);
  }

  function BuyerRow(o: Order, p: Product): OrderResponse
  {
    OrderResponse(o.id, ProductResponse(p.id, p.name, p.photo, p.description, p.price), p.price,
                  p.isReserved, o.isSend, o.isReleased, o.isPayed, o.isCanceled, p.isDeleted,
                  o.shippingInfo, o.buyer)
  }

  /** One "my orders" row per selected order, each joined with the product it refers to. */
  function BuyerRows(sel: seq<Order>, products: map<nat, Product>): (rows: seq<OrderResponse>)
    requires forall o :: o in sel ==> o.productId in products
    ensures |rows| == |sel|
    ensures forall k :: 0 <= k < |sel| ==>
      var o, p := sel[k], products[sel[k].productId];
      && rows[k].id == o.id && rows[k].buyer == o.buyer && rows[k].shippingInfo == o.shippingInfo
      && rows[k].product.id == p.id && rows[k].total == p.price
      && rows[k].isOrderPayed == o.isPayed && rows[k].isOrderCanceled == o.isCanceled
  {
    seq(|sel|, k requires 0 <= k < |sel| => BuyerRow(sel[k], products[sel[k].productId]))
  }

  lemma BuyerRowsSnoc(sel: seq<Order>, o: Order, products: map<nat, Product>)
    requires forall x :: x in sel + [o] ==> x.productId in products
    ensures BuyerRows(sel + [o], products) == BuyerRows(sel, products) + [BuyerRow(o, products[o.productId])]
  {
  }

  /** One iteration of the `getOrdersByBuyer` loop. */
  lemma BuyerStep(prefix: seq<Order>, order: Order, products: map<nat, Product>, caller: string)
    requires forall o :: o in prefix + [order] ==> o.productId in products
    ensures forall o :: o in CallerOrders(prefix, caller) ==> o.productId in products
    ensures BuyerRows(CallerOrders(prefix + [order], caller), products) ==
      BuyerRows(CallerOrders(prefix, caller), products)
      + (if order.buyer == caller then [BuyerRow(order, products[order.productId])] else [])
  {
    CallerOrdersSnoc(prefix, order, caller);
    var before := CallerOrders(prefix, caller);
    assert forall o :: o in before ==> o in prefix;
    if order.buyer == caller {
      BuyerRowsSnoc(before, order, products);
    }
  }

  predicate IdsIncreasing(os: seq<Order>)
  {
    forall i, j :: 0 <= i < j < |os| ==> os[i].id < os[j].id
  }

  /** A subsequence of orders with increasing ids has increasing ids. */
  lemma {:induction false} SubsequenceIdsIncreasing(t: seq<Order>, s: seq<Order>)
    requires Lists.IsSubsequence(t, s) && IdsIncreasing(s)
    ensures IdsIncreasing(t)
    ensures forall i :: 0 <= i < |t| ==> exists j :: 0 <= j < |s| && t[i] == s[j]
  {
    if t != [] {
      var s' := s[..|s| - 1];
      assert IdsIncreasing(s');
      if t[|t| - 1] == s[|s| - 1] && Lists.IsSubsequence(t[..|t| - 1], s') {
        var t' := t[..|t| - 1];
        SubsequenceIdsIncreasing(t', s');
        forall i | 0 <= i < |t'| ensures t[i].id < t[|t| - 1].id {
          var j :| 0 <= j < |s'| && t'[i] == s'[j];
          assert s[j] == s'[j];
        }
        forall i | 0 <= i < |t| ensures exists j :: 0 <= j < |s| && t[i] == s[j] {
          if i < |t'| {
            var j :| 0 <= j < |s'| && t'[i] == s'[j];
            assert s[j] == t[i];
          } else {
            assert s[|s| - 1] == t[i];
          }
        }
      } else {
        SubsequenceIdsIncreasing(t, s');
        forall i | 0 <= i < |t| ensures exists j :: 0 <= j < |s| && t[i] == s[j] {
          var j :| 0 <= j < |s'| && t[i] == s'[j];
          assert s[j] == t[i];
        }
      }
    }
  }

  /** The "my orders" view lists exactly the caller's orders, one row each, in increasing
      order id, and every row names the caller as buyer. */
  lemma BuyerViewExactly(os: seq<Order>, products: map<nat, Product>, caller: string)
    requires forall o :: o in os ==> o.productId in products
    requires IdsIncreasing(os)
    ensures var sel := CallerOrders(os, caller);
      var rows := BuyerRows(sel, products);
      && (forall o :: o in sel <==> o in os && o.buyer == caller)
      && (forall k :: 0 <= k < |rows| ==> rows[k].buyer == caller)
      && (forall i, j :: 0 <= i < j < |rows| ==> rows[i].id < rows[j].id)
  {
    var p := (o: Order) => o.buyer == caller;
    var sel := CallerOrders(os, caller);
    forall o ensures o in sel <==> o in os && o.buyer == caller {
      Lists.FilterMembership(os, p, o);
    }
    Lists.FilterAll(os, p);
    Lists.FilterIsSubsequence(os, p);
    SubsequenceIdsIncreasing(sel, os);
  }

  /** The ledger lists its orders in increasing id. */
  lemma OrderListIncreasing(registry: ProductRegistry)
    requires registry.Valid()
    ensures IdsIncreasing(registry.OrderList())
  {
  }

  // ---------------------------------------------------------------- seller view

  /** The non-canceled orders for products of `seller`, in ledger order. */
  function SellerOrders(os: seq<Order>, products: map<nat, Product>, seller: string): seq<Order>
  {
    Lists.Filter(os, (o: Order) => !o.isCanceled && o.productId in products && products[o.productId].seller == seller)
  }

  lemma SellerOrdersSnoc(os: seq<Order>, x: Order, products: map<nat, Product>, seller: string)
    ensures SellerOrders(os + [x], products, seller) ==
      SellerOrders(os, products, seller)
      + (if !x.isCanceled && x.productId in products && products[x.productId].seller == seller then [x] else [])
  {
    Lists.FilterSnoc(os, x, (o: Order) => !o.isCanceled && o.productId in products && products[o.productId].seller == seller);
  }

  /** A "my products" row for an order. The order's `isCanceled` goes into the
      `isOrderPayed` slot and its `isPayed` into the `isOrderCanceled` slot, as the
      backend passes them. */
  function SellerRow(o: Order, e: Entities.ProductRecord): OrderResponse
    requires Decimal.IsDecimal(e.price)
  {
    var price := Decimal.ParseDecimal(e.price);
    OrderResponse(o.id, ProductResponse(e.id, e.name, e.photo, e.description, price), price,
                  e.isReserved, o.isSend, o.isReleased, o.isCanceled, o.isPayed, e.isDeleted,
                  o.shippingInfo, o.buyer)
  }

  function SellerOrderRows(sel: seq<Order>, products: map<nat, Product>): (rows: seq<OrderResponse>)
    requires forall o :: o in sel ==> o.productId in products
    ensures |rows| == |sel|
    ensures forall k :: 0 <= k < |sel| ==>
      var o, p := sel[k], products[sel[k].productId];
      && rows[k].id == o.id && rows[k].buyer == o.buyer && rows[k].shippingInfo == o.shippingInfo
      && rows[k].product.id == p.id && rows[k].total == p.price && rows[k].product.price == p.price
      && rows[k].isOrderPayed == o.isCanceled && rows[k].isOrderCanceled == o.isPayed
  {
    seq(|sel|, k requires 0 <= k < |sel| => SellerRow(sel[k], ToEntity(products[sel[k].productId])))
  }

  lemma SellerOrderRowsSnoc(sel: seq<Order>, o: Order, products: map<nat, Product>)
    requires forall x :: x in sel + [o] ==> x.productId in products
    ensures SellerOrderRows(sel + [o], products) == SellerOrderRows(sel, products) + [SellerRow(o, ToEntity(products[o.productId]))]
  {
  }

  /** One iteration of the first `getProductsBySeller` loop. */
  lemma SellerStep(prefix: seq<Order>, order: Order, products: map<nat, Product>, seller: string)
    requires forall o :: o in prefix + [order] ==> o.productId in products
    ensures forall o :: o in SellerOrders(prefix, products, seller) ==> o.productId in products
    ensures SellerOrderRows(SellerOrders(prefix + [order], products, seller), products) ==
      SellerOrderRows(SellerOrders(prefix, products, seller), products)
      + (if !order.isCanceled && products[order.productId].seller == seller
         then [SellerRow(order, ToEntity(products[order.productId]))] else [])
  {
    SellerOrdersSnoc(prefix, order, products, seller);
    var before := SellerOrders(prefix, products, seller);
    assert forall o :: o in before ==> o in prefix;
    if !order.isCanceled && products[order.productId].seller == seller {
      SellerOrderRowsSnoc(before, order, products);
    }
  }

  /** The row for a product of the seller that has no order row. */
  function Placeholder(e: Entities.ProductRecord): OrderResponse
    requires Decimal.IsDecimal(e.price)
  {
    var price := Decimal.ParseDecimal(e.price);
    OrderResponse(e.id, ProductResponse(e.id, e.name, e.photo, e.description, price), price,
                  e.isReserved, false, false, false, false, e.isDeleted, "-", "0x000")
  }

  predicate HasProduct(rows: seq<OrderResponse>, id: nat)
  {
    exists k :: 0 <= k < |rows| && rows[k].product.id == id
  }

  /** The rows after the placeholder pass over the catalogue `ps`: each product of the
      seller that no row names yet gets one placeholder appended. */
  function WithPlaceholders(rows: seq<OrderResponse>, ps: seq<Entities.ProductRecord>, seller: string): seq<OrderResponse>
    requires AllDecimalPrices(ps)
  {
    if ps == [] then rows
    else
      var acc := WithPlaceholders(rows, ps[..|ps| - 1], seller);
      var e := ps[|ps| - 1];
      if e.seller == seller && !HasProduct(acc, e.id) then acc + [Placeholder(e)] else acc
  }

  lemma WithPlaceholdersSnoc(rows: seq<OrderResponse>, ps: seq<Entities.ProductRecord>, e: Entities.ProductRecord, seller: string)
    requires AllDecimalPrices(ps + [e])
    ensures AllDecimalPrices(ps) && Decimal.IsDecimal(e.price)
    ensures var acc := WithPlaceholders(rows, ps, seller);
      WithPlaceholders(rows, ps + [e], seller) == if e.seller == seller && !HasProduct(acc, e.id) then acc + [Placeholder(e)] else acc
  {
    assert (ps + [e])[..|ps|] == ps;
    assert (ps + [e])[|ps|] == e;
    assert forall k :: 0 <= k < |ps| ==> (ps + [e])[k] == ps[k];
  }

  /** `r` is the placeholder row of one of the seller's products in `ps`. */
  ghost predicate IsPlaceholderOf(r: OrderResponse, ps: seq<Entities.ProductRecord>, seller: string)
  {
    exists e :: e in ps && e.seller == seller && Decimal.IsDecimal(e.price) && r == Placeholder(e)
  }

  /** The placeholder pass only appends, at most one row per catalogue product; every
      appended row is the placeholder of one of the seller's products, and names a product
      that no earlier row names. */
  lemma {:induction false} PlaceholdersAppend(rows: seq<OrderResponse>, ps: seq<Entities.ProductRecord>, seller: string)
    requires AllDecimalPrices(ps)
    ensures var out := WithPlaceholders(rows, ps, seller);
      && |rows| <= |out| <= |rows| + |ps|
      && out[..|rows|] == rows
      && (forall k :: |rows| <= k < |out| ==> IsPlaceholderOf(out[k], ps, seller))
      && (forall k :: |rows| <= k < |out| ==> !HasProduct(out[..k], out[k].product.id))
  {
    if ps != [] {
      var ps' := ps[..|ps| - 1];
      var e := ps[|ps| - 1];
      assert AllDecimalPrices(ps');
      PlaceholdersAppend(rows, ps', seller);
      var acc := WithPlaceholders(rows, ps', seller);
      var out := WithPlaceholders(rows, ps, seller);
      if e.seller == seller && !HasProduct(acc, e.id) {
        assert out == acc + [Placeholder(e)];
        assert out[..|rows|] == acc[..|rows|];
        forall k | |rows| <= k < |out| ensures IsPlaceholderOf(out[k], ps, seller) {
          if k < |acc| {
            assert IsPlaceholderOf(acc[k], ps', seller);
            var f :| f in ps' && f.seller == seller && Decimal.IsDecimal(f.price) && acc[k] == Placeholder(f);
            assert out[k] == acc[k];
            assert f in ps;
          } else {
            assert out[k] == Placeholder(e) && e in ps;
          }
        }
        forall k | |rows| <= k < |out| ensures !HasProduct(out[..k], out[k].product.id) {
          if k < |acc| {
            assert out[..k] == acc[..k] && out[k] == acc[k];
          } else {
            assert out[..k] == acc && out[k].product.id == e.id;
          }
        }
      } else {
        assert out == acc;
        forall k | |rows| <= k < |out| ensures IsPlaceholderOf(out[k], ps, seller) {
          assert IsPlaceholderOf(acc[k], ps', seller);
          var f :| f in ps' && f.seller == seller && Decimal.IsDecimal(f.price) && acc[k] == Placeholder(f);
          assert f in ps;
        }
      }
    }
  }

  /** After the placeholder pass every product of the seller in the catalogue is named by a row. */
  lemma {:induction false} PlaceholdersCover(rows: seq<OrderResponse>, ps: seq<Entities.ProductRecord>, seller: string)
    requires AllDecimalPrices(ps)
    ensures forall e :: e in ps && e.seller == seller ==> HasProduct(WithPlaceholders(rows, ps, seller), e.id)
  {
    if ps != [] {
      var ps' := ps[..|ps| - 1];
      var e := ps[|ps| - 1];
      assert AllDecimalPrices(ps');
      PlaceholdersCover(rows, ps', seller);
      var acc := WithPlaceholders(rows, ps', seller);
      var out := WithPlaceholders(rows, ps, seller);
      assert forall k :: 0 <= k < |acc| ==> out[k] == acc[k];
      forall f | f in ps && f.seller == seller ensures HasProduct(out, f.id) {
        if HasProduct(acc, f.id) {
          var k :| 0 <= k < |acc| && acc[k].product.id == f.id;
          assert out[k].product.id == f.id;
        } else {
          assert f !in ps';
          assert f == e;
          assert out == acc + [Placeholder(e)];
          assert out[|acc|].product.id == f.id;
        }
      }
    }
  }

  /** The "my products" view of `seller`. */
  function SellerView(os: seq<Order>, products: map<nat, Product>, catalogue: seq<Product>, seller: string): seq<OrderResponse>
    requires forall o :: o in os ==> o.productId in products
  {
    var es := ToEntities(catalogue);
    WithPlaceholders(SellerOrderRows(SellerOrders(os, products, seller), products), es, seller)
  }

  /** The "my products" view: first one row per non-canceled order of the seller's products,
      in ledger order, each priced at the ledger price and with `false` in the slot that
      receives `isCanceled`; then placeholders; and every product of the seller on the ledger
      is named by some row. */
  lemma SellerViewProperties(os: seq<Order>, products: map<nat, Product>, catalogue: seq<Product>, seller: string)
    requires forall o :: o in os ==> o.productId in products
    ensures var sel := SellerOrders(os, products, seller);
      var view := SellerView(os, products, catalogue, seller);
      && (forall o :: o in sel <==> o in os && !o.isCanceled && products[o.productId].seller == seller)
      && Lists.IsSubsequence(sel, os)
      && |sel| <= |view| <= |sel| + |catalogue|
      && (forall k :: 0 <= k < |sel| ==>
            view[k] == SellerRow(sel[k], ToEntity(products[sel[k].productId]))
            && !view[k].isOrderPayed
            && view[k].total == products[sel[k].productId].price)
      && (forall k :: |sel| <= k < |view| ==>
            IsPlaceholderOf(view[k], ToEntities(catalogue), seller) && !HasProduct(view[..k], view[k].product.id))
      && (forall p :: p in catalogue && p.seller == seller ==> HasProduct(view, p.id))
  {
    var pred := (o: Order) => !o.isCanceled && o.productId in products && products[o.productId].seller == seller;
    var sel := SellerOrders(os, products, seller);
    forall o ensures o in sel <==> o in os && !o.isCanceled && products[o.productId].seller == seller {
      Lists.FilterMembership(os, pred, o);
    }
    Lists.FilterAll(os, pred);
    Lists.FilterIsSubsequence(os, pred);
    var rows := SellerOrderRows(sel, products);
    var es := ToEntities(catalogue);
    PlaceholdersAppend(rows, es, seller);
    PlaceholdersCover(rows, es, seller);
    var view := SellerView(os, products, catalogue, seller);
    forall k | 0 <= k < |sel| ensures view[k] == rows[k] {
      assert view[..|rows|] == rows;
    }
    forall p | p in catalogue && p.seller == seller ensures HasProduct(view, p.id) {
      var k :| 0 <= k < |catalogue| && catalogue[k] == p;
      assert es[k] in es && es[k].seller == seller && es[k].id == p.id;
    }
  }

  /** The loop of `getOrdersByBuyer`: a row for each order of the caller, in ledger order. */
  method CollectBuyerRows(allOrders: seq<Order>, products: map<nat, Product>, buyerAddress: string)
    returns (rows: seq<OrderResponse>)
    requires forall o :: o in allOrders ==> o.productId in products
    ensures rows == BuyerRows(CallerOrders(allOrders, buyerAddress), products)
  {
    rows := [];
    var i := 0;
    while i < |allOrders|
      invariant 0 <= i <= |allOrders|
      invariant rows == BuyerRows(CallerOrders(allOrders[..i], buyerAddress), products)
    {
      var order := allOrders[i];
      assert allOrders[..i + 1] == allOrders[..i] + [order];
      BuyerStep(allOrders[..i], order, products, buyerAddress);
      if order.buyer == buyerAddress {
        var product := products[order.productId];
        rows := rows + [BuyerRow(order, product)];
      }
      i := i + 1;
    }
    assert allOrders[..i] == allOrders;
  }

  /** The first loop of `getProductsBySeller`: a row for each non-canceled order whose
      product the seller sells, in ledger order. */
  method CollectSellerRows(allOrders: seq<Order>, products: map<nat, Product>, sellerAddress: string)
    returns (rows: seq<OrderResponse>)
    requires forall o :: o in allOrders ==> o.productId in products
    ensures rows == SellerOrderRows(SellerOrders(allOrders, products, sellerAddress), products)
  {
    rows := [];
    var i := 0;
    while i < |allOrders|
      invariant 0 <= i <= |allOrders|
      invariant rows == SellerOrderRows(SellerOrders(allOrders[..i], products, sellerAddress), products)
    {
      var order := allOrders[i];
      assert allOrders[..i + 1] == allOrders[..i] + [order];
      SellerStep(allOrders[..i], order, products, sellerAddress);
      if !order.isCanceled {
        var product := ToEntity(products[order.productId]);
        if product.seller == sellerAddress {
          rows := rows + [SellerRow(order, product)];
        }
      }
      i := i + 1;
    }
    assert allOrders[..i] == allOrders;
  }

  /** The second pass of `getProductsBySeller`: for each catalogue product, scan the rows
      built so far for its id (the `isProductAdded` flag) and append its placeholder when it
      is the seller's and absent. */
  method AddPlaceholders(orderRows: seq<OrderResponse>, catalogue: seq<Entities.ProductRecord>, sellerAddress: string)
    returns (rows: seq<OrderResponse>)
    requires AllDecimalPrices(catalogue)
    ensures rows == WithPlaceholders(orderRows, catalogue, sellerAddress)
  {
    rows := orderRows;
    var j := 0;
    while j < |catalogue|
      invariant 0 <= j <= |catalogue|
      invariant rows == WithPlaceholders(orderRows, catalogue[..j], sellerAddress)
    {
      var product := catalogue[j];
      var isProductAdded := false;
      var k := 0;
      while k < |rows|
        invariant 0 <= k <= |rows|
        invariant isProductAdded <==> exists m :: 0 <= m < k && rows[m].product.id == product.id
      {
        if rows[k].product.id == product.id {
          isProductAdded := true;
        }
        k := k + 1;
      }
      assert catalogue[..j + 1] == catalogue[..j] + [product];
      WithPlaceholdersSnoc(orderRows, catalogue[..j], product, sellerAddress);
      if product.seller == sellerAddress && !isProductAdded {
        rows := rows + [Placeholder(product)];
      }
      j := j + 1;
    }
    assert catalogue[..j] == catalogue;
  }

  // ---------------------------------------------------------------- the service object

  class ProductService {
    const contract: ProductRegistry

    constructor (contract: ProductRegistry)
      ensures this.contract == contract
    {
      this.contract := contract;
    }

    /** `getAllProducts`: the ledger's products as entities, in id order. */
    function AllProducts(): (es: seq<Entities.ProductRecord>)
      reads contract
      requires contract.Valid()
      ensures |es| == contract.productCount && AllDecimalPrices(es)
      ensures forall k :: 0 <= k < |es| ==> es[k] == ToEntity(contract.products[k + 1])
    {
      ToEntities(contract.ProductList())
    }

    /** `reserveProduct`: refuses a missing, deleted, reserved or sold product, then a
        transaction that does not verify, in both cases without touching the ledger;
        otherwise reserves on the ledger with the expected price as the deposit. */
    method ReserveProduct(id: nat, expectedValuePrice: nat, buyerAddress: string, shippingName: string,
                          shippingAddress: string, transaction: Option<Transaction>)
      returns (r: Result<nat, ServiceError>)
      requires contract.Valid()
      modifies contract
      ensures contract.Valid()
      ensures id !in old(contract.products) || !Reservable(old(contract.products[id])) ==>
        r == Err(CannotBeReserved) && unchanged(contract)
      ensures id in old(contract.products) && Reservable(old(contract.products[id]))
              && !VerifyTransaction(transaction, buyerAddress, expectedValuePrice) ==>
        r == Err(VerificationFailed) && unchanged(contract)
      ensures r.Ok? <==> id in old(contract.products) && Reservable(old(contract.products[id]))
                         && VerifyTransaction(transaction, buyerAddress, expectedValuePrice)
      ensures r.Ok? ==>
        && r.value == old(contract.orderCount) + 1 == contract.orderCount
        && contract.orders == old(contract.orders)[r.value := Order(r.value, id, buyerAddress, expectedValuePrice,
             ShippingInfo(shippingName, shippingAddress), false, false, false, false)]
        && contract.products == old(contract.products)[id := old(contract.products[id]).(isReserved := true, buyer := buyerAddress)]
        && contract.productCount == old(contract.productCount)
      // the deposit recorded is what the buyer's own transaction carried
      ensures r.Ok? ==>
        && transaction.Some? && EqualsIgnoreCase(transaction.value.from, buyerAddress)
        && r.value in contract.orders && contract.orders[r.value].amount == transaction.value.value
    {
      if id !in contract.products || !Reservable(contract.products[id]) {
        return Err(CannotBeReserved);
      }
      var shippingInfo := ShippingInfo(shippingName, shippingAddress);
      if !VerifyTransaction(transaction, buyerAddress, expectedValuePrice) {
        return Err(VerificationFailed);
      }
      var reserved := contract.ReserveProduct(id, buyerAddress, shippingInfo, expectedValuePrice);
      r := Ok(reserved.value);
    }

    /** `confirmReceived`: releases exactly the order's amount to the seller of the order's
        product, read before the ledger call. */
    method ConfirmReceived(orderId: nat, buyerAddress: string) returns (r: Result<Transfer, ServiceError>)
      requires contract.Valid()
      modifies contract
      ensures contract.Valid()
      ensures orderId !in old(contract.orders) ==> r == Err(OrderNotFound) && unchanged(contract)
      ensures orderId in old(contract.orders) ==>
        var o := old(contract.orders[orderId]);
        && r == Ok(Transfer(old(contract.products[o.productId].seller), o.amount))
        && contract.orders == old(contract.orders)[orderId := o.(isReleased := true)]
        && contract.products == old(contract.products)[o.productId := old(contract.products[o.productId]).(isSold := true)]
        && contract.productCount == old(contract.productCount) && contract.orderCount == old(contract.orderCount)
    {
      if orderId !in contract.orders {
        return Err(OrderNotFound);
      }
      var order := contract.orders[orderId];
      var product := contract.products[order.productId];
      var released := contract.ConfirmReceived(orderId, buyerAddress, order.amount, product.seller);
      r := Ok(released.value);
    }

    /** `cancelReservation`: refunds exactly the order's amount to the requesting buyer. */
    method CancelReservation(orderId: nat, buyerAddress: string) returns (r: Result<Transfer, ServiceError>)
      requires contract.Valid()
      modifies contract
      ensures contract.Valid()
      ensures orderId !in old(contract.orders) ==> r == Err(OrderNotFound) && unchanged(contract)
      ensures orderId in old(contract.orders) ==>
        var o := old(contract.orders[orderId]);
        && r == Ok(Transfer(buyerAddress, o.amount))
        && contract.orders == old(contract.orders)[orderId := o.(isCanceled := true)]
        && contract.products == old(contract.products)[o.productId := old(contract.products[o.productId]).(isReserved := false)]
        && contract.productCount == old(contract.productCount) && contract.orderCount == old(contract.orderCount)
    {
      if orderId !in contract.orders {
        return Err(OrderNotFound);
      }
      var order := contract.orders[orderId];
      var canceled := contract.CancelReservation(orderId, buyerAddress, order.amount);
      r := Ok(canceled.value);
    }

    /** Two buyers reserving the same product one after the other: once the first wins, the
        second is refused before anything is written, so exactly one order exists for it. */
    method ReserveTwice(id: nat, price: nat, buyer1: string, buyer2: string, name: string, address: string,
                        tx1: Option<Transaction>, tx2: Option<Transaction>)
      returns (r1: Result<nat, ServiceError>, r2: Result<nat, ServiceError>)
      requires contract.Valid()
      modifies contract
      ensures contract.Valid()
      ensures r1.Ok? ==> r2 == Err(CannotBeReserved) && contract.orderCount == old(contract.orderCount) + 1
      ensures r1.Ok? ==> id in contract.products && contract.products[id].buyer == buyer1
      ensures r1.Ok? ==> r1.value in contract.orders && contract.orders[r1.value].buyer == buyer1
    {
      r1 := ReserveProduct(id, price, buyer1, name, address, tx1);
      r2 := ReserveProduct(id, price, buyer2, name, address, tx2);
    }

    /** A canceled reservation makes the product reservable again: a second buyer's verified
        reservation then succeeds with the next order id. The cancel is made only when the
        first reservation succeeded. */
    method ReserveCancelReserve(id: nat, price: nat, buyer1: string, buyer2: string, name: string, address: string,
                                tx1: Option<Transaction>, tx2: Option<Transaction>)
      returns (r1: Result<nat, ServiceError>, refund: Option<Transfer>, r2: Result<nat, ServiceError>)
      requires contract.Valid()
      modifies contract
      ensures contract.Valid()
      ensures r1.Ok? <==> refund.Some?
      ensures r1.Ok? ==> refund == Some(Transfer(buyer1, price))
      ensures r1.Ok? ==> (r2.Ok? <==> VerifyTransaction(tx2, buyer2, price))
      ensures r1.Ok? && r2.Ok? ==> r2.value == r1.value + 1
      ensures r1.Ok? ==> r1.value in contract.orders && contract.orders[r1.value].isCanceled
    {
      r1 := ReserveProduct(id, price, buyer1, name, address, tx1);
      refund := None;
      if r1.Ok? {
        var canceled := CancelReservation(r1.value, buyer1);
        refund := Some(canceled.value);
      }
      r2 := ReserveProduct(id, price, buyer2, name, address, tx2);
    }

    /** `getAllProductsForSale`: the requested page of the products the caller does not sell. */
    method GetAllProductsForSale(page: int, size: int, buyerAddress: string)
      returns (r: Result<Pagination.Page<Entities.ProductRecord>, Pagination.PageError>)
      requires contract.Valid()
      ensures r == Pagination.Paginate(ForSale(AllProducts(), buyerAddress), page, size)
    {
      var products := AllProducts();
      var filtered := FilterForSale(products, buyerAddress);
      r := Pagination.Paginate(filtered, page, size);
    }

    /** `getOrdersByBuyer`: one row per order of the caller, in ledger order. */
    method GetOrdersByBuyer(buyerAddress: string) returns (rows: seq<OrderResponse>)
      requires contract.Valid()
      ensures rows == BuyerRows(CallerOrders(contract.OrderList(), buyerAddress), contract.products)
    {
      var allOrders := contract.OrderList();
      rows := CollectBuyerRows(allOrders, contract.products, buyerAddress);
    }

    method GetOrdersByBuyerPerPage(buyerAddress: string, page: int, size: int)
      returns (r: Result<Pagination.Page<OrderResponse>, Pagination.PageError>)
      requires contract.Valid()
      ensures r == Pagination.Paginate(BuyerRows(CallerOrders(contract.OrderList(), buyerAddress), contract.products), page, size)
    {
      var orders := GetOrdersByBuyer(buyerAddress);
      r := Pagination.Paginate(orders, page, size);
    }

    /** `getProductsBySeller`: the rows of the seller's non-canceled orders, then a placeholder
        for each of the seller's products that no row names. */
    method GetProductsBySeller(sellerAddress: string) returns (rows: seq<OrderResponse>)
      requires contract.Valid()
      ensures rows == SellerView(contract.OrderList(), contract.products, contract.ProductList(), sellerAddress)
    {
      var allOrders := contract.OrderList();
      rows := CollectSellerRows(allOrders, contract.products, sellerAddress);
      var catalogue := AllProducts();
      rows := AddPlaceholders(rows, catalogue, sellerAddress);
    }

    method GetProductsBySellerPerPage(sellerAddress: string, page: int, size: int)
      returns (r: Result<Pagination.Page<OrderResponse>, Pagination.PageError>)
      requires contract.Valid()
      ensures r == Pagination.Paginate(SellerView(contract.OrderList(), contract.products, contract.ProductList(), sellerAddress), page, size)
    {
      var orders := GetProductsBySeller(sellerAddress);
      r := Pagination.Paginate(orders, page, size);
    }
  }
}
