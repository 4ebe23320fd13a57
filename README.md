# Escrow shop: ledger, service layer and list helpers

This project is a Dafny model of the core of a small escrow marketplace. A seller lists a
product on an on-chain registry. A buyer reserves it by depositing its price, which opens an
order. The buyer then either confirms receipt, which pays the seller, or cancels, which refunds
the deposit. The model covers four parts:

- **The ledger** (`ProductRegistry`, module `Ledger`). It is a class with two id-keyed tables
  (`map<nat, Product>`, `map<nat, Order>`) and two id counters. Its four writing
  operations are `createProduct`, `reserveProduct`, `confirmReceived` and
  `cancelReservation`. The contract's own source is not part of this model. Its behaviour is
  taken from what its test suite asserts and from the arguments the backend passes. A payment
  is returned as a `Transfer(recipient, amount)` value; no funds move.
- **The backend service** (`ProductService`, module `Service`). It checks that a product
  can be reserved and verifies the payment transaction. It builds the shipping text and picks
  the amount and recipient of each payout. It also builds the for-sale, "my orders" and
  "my products" views, and the page windows over them (module `Pagination`).
- **The `Product` entity** (module `Entities`). It is a class with ten fields, a
  constructor, getters and setters. Its price is decimal text (module `Decimal`).
- **Two frontend helpers.** `Navigation` shortens a wallet address for display.
  `ProductList` holds the product page's display filter, page count and page cursor.

Each `for` loop of the Java service is a Dafny `method` with a `while` loop, proved against
a specification function; the lemmas about those functions state what the views promise. The
`forEach` of getAllProducts, which only copies each ledger product into an entity, is the
function `Service.ToEntities`.

The "my products" row passes the order's `isCanceled` into the `isOrderPayed` slot and
`isPayed` into `isOrderCanceled`. The model keeps this as written (`Service.SellerRow`).
Canceled orders are filtered out first, so a row built from an order always has `false` in
`isOrderPayed` (`Service.SellerViewProperties`).

External inputs are parameters:

- the transaction the node returns for a hash (`Option<Transaction>`);
- the HTTP response that the product list receives;
- the connected wallet account.

## Model

| member | source | states |
|---|---|---|
| Ledger.ProductRegistry.constructor | backend/src/main/solidity-test/ProductRegistryTest.js:7 | a freshly deployed registry has empty tables and both counters at 0 |
| Ledger.ProductRegistry.CreateProduct | backend/src/main/solidity-test/ProductRegistryTest.js:9-26 | the product is stored under id old count + 1 with exactly the given name, photo, description, price and seller and all three flags false; the order table is unchanged; ids are sequential |
| Ledger.ProductRegistry.ReserveProduct | backend/src/main/solidity-test/ProductRegistryTest.js:29-54 | for an existing product: it becomes reserved with the given buyer, and a new order under the next order id holds the product id, buyer, shipping text and the deposited value as amount; everything else is unchanged |
| Ledger.ProductRegistry.ConfirmReceived | backend/src/main/java/org/shop/services/ProductService.java:167-168 | on the backend's call with order id, buyer, amount and seller: the order's product becomes sold and the order released (as the test at ProductRegistryTest.js:62-69 checks), and the given amount is paid to the given seller; nothing else changes |
| Ledger.ProductRegistry.CancelReservation | backend/src/main/java/org/shop/services/ProductService.java:183 | on the backend's call with order id, buyer and amount: the order's product is no longer reserved and the order canceled (as the test at ProductRegistryTest.js:89-95 checks), and the given amount is refunded to the given buyer; nothing else changes |
| Ledger.ProductRegistry.ProductList | backend/src/main/java/org/shop/services/ProductService.java:254 | the product table as a list: the k-th element is the product with id k + 1 |
| Ledger.ProductRegistry.OrderList | backend/src/main/java/org/shop/services/ProductService.java:281 | the order table as a list in id order; every listed order refers to an existing product |
| Ledger.CreateReserveConfirm | backend/src/main/solidity-test/ProductRegistryTest.js:6-70 | on any consistent registry: a product created, reserved with its price as deposit, and confirmed gets the next product id and ends sold and reserved with the buyer set; its order gets the next order id and ends released with the price as amount; the seller is paid the price |
| Ledger.CreateReserveCancel | backend/src/main/solidity-test/ProductRegistryTest.js:72-96 | on any consistent registry: a product created, reserved with its price as deposit, and canceled gets the next product id and ends not reserved; its order gets the next order id and ends canceled with the price as amount; the buyer is refunded the price |
| Ledger.RegistryTestSuite | backend/src/main/solidity-test/ProductRegistryTest.js:3-97 | the four test cases in sequence, for any names, prices and addresses: product 1 ends sold with the buyer set, order 1 released with the full price, product 2 not reserved, order 2 canceled; the seller is paid price 1 and the buyer is refunded price 2 |
| Entities.Product.constructor | backend/src/main/java/org/shop/entities/Product.java:29-41 | each of the ten arguments is stored in the field of the same name |
| Entities.Product.GetId | backend/src/main/java/org/shop/entities/Product.java:43-45 | reads the id field; the setters' contracts and Entities.ReservedAfterSet state what it returns after each update |
| Entities.Product.GetName | backend/src/main/java/org/shop/entities/Product.java:51-53 | reads the name field; the setters' contracts and Entities.ReservedAfterSet state what it returns after each update |
| Entities.Product.GetPhoto | backend/src/main/java/org/shop/entities/Product.java:59-61 | reads the photo field; the setters' contracts and Entities.ReservedAfterSet state what it returns after each update |
| Entities.Product.GetDescription | backend/src/main/java/org/shop/entities/Product.java:67-69 | reads the description field; the setters' contracts and Entities.ReservedAfterSet state what it returns after each update |
| Entities.Product.GetPrice | backend/src/main/java/org/shop/entities/Product.java:75-77 | reads the price field; the setters' contracts and Entities.ReservedAfterSet state what it returns after each update |
| Entities.Product.GetSeller | backend/src/main/java/org/shop/entities/Product.java:83-85 | reads the seller field; the setters' contracts and Entities.ReservedAfterSet state what it returns after each update |
| Entities.Product.GetDeleted | backend/src/main/java/org/shop/entities/Product.java:91-93 | reads the isDeleted field; the setters' contracts and Entities.ReservedAfterSet state what it returns after each update |
| Entities.Product.GetSold | backend/src/main/java/org/shop/entities/Product.java:99-101 | reads the isSold field; the setters' contracts and Entities.ReservedAfterSet state what it returns after each update |
| Entities.Product.GetReserved | backend/src/main/java/org/shop/entities/Product.java:107-109 | reads the isReserved field; the setters' contracts and Entities.ReservedAfterSet state what it returns after each update |
| Entities.Product.GetBuyer | backend/src/main/java/org/shop/entities/Product.java:115-117 | reads the buyer field; the setters' contracts and Entities.ReservedAfterSet state what it returns after each update |
| Entities.Product.SetId | backend/src/main/java/org/shop/entities/Product.java:47-49 | sets id; the other nine fields are unchanged |
| Entities.Product.SetName | backend/src/main/java/org/shop/entities/Product.java:55-57 | sets name; the other nine fields are unchanged |
| Entities.Product.SetPhoto | backend/src/main/java/org/shop/entities/Product.java:63-65 | sets photo; the other nine fields are unchanged |
| Entities.Product.SetDescription | backend/src/main/java/org/shop/entities/Product.java:71-73 | sets description; the other nine fields are unchanged |
| Entities.Product.SetPrice | backend/src/main/java/org/shop/entities/Product.java:79-81 | sets price; the other nine fields are unchanged |
| Entities.Product.SetSeller | backend/src/main/java/org/shop/entities/Product.java:87-89 | sets seller; the other nine fields are unchanged |
| Entities.Product.SetDeleted | backend/src/main/java/org/shop/entities/Product.java:95-97 | sets isDeleted, which getDeleted then returns; the other nine fields are unchanged |
| Entities.Product.SetSold | backend/src/main/java/org/shop/entities/Product.java:103-105 | sets isSold, which getSold then returns; the other nine fields are unchanged |
| Entities.Product.SetReserved | backend/src/main/java/org/shop/entities/Product.java:111-113 | sets isReserved, which getReserved then returns; the other nine fields are unchanged |
| Entities.Product.SetBuyer | backend/src/main/java/org/shop/entities/Product.java:119-121 | sets buyer; the other nine fields are unchanged |
| Entities.ReservedAfterSet | backend/src/main/java/org/shop/entities/Product.java:91-113 | after setReserved(v) on a constructed entity, getReserved returns v and getDeleted and getSold return the constructor's flags |
| Decimal.ToDecimal | backend/src/main/java/org/shop/services/ProductService.java:98 | String.valueOf of a price is a non-empty digit string with no leading zero |
| Decimal.ParseToDecimal | backend/src/main/java/org/shop/services/ProductService.java:335-337 | new BigInteger read back from the entity's price text gives back the ledger price |
| Decimal.ParseDecimal | backend/src/main/java/org/shop/services/ProductService.java:369-371 | new BigInteger of a decimal price text; that it gives back the ledger price is Decimal.ParseToDecimal |
| Decimal.ToDecimalInjective | backend/src/main/java/org/shop/services/ProductService.java:98 | different prices have different texts |
| Service.ShippingInfo | backend/src/main/java/org/shop/services/ProductService.java:130 | the shipping text is "Name: ", the name, ", Address: ", then the address, with each part at its fixed offset |
| Service.ShippingInfoInjective | backend/src/main/java/org/shop/services/ProductService.java:130 | for names of equal length, the shipping text determines the name and the address |
| Service.IgnoreCaseIsEquivalence | backend/src/main/java/org/shop/services/ProductService.java:152 | comparing addresses ignoring case is reflexive, symmetric and transitive, and only equal lengths compare equal |
| Service.UpperCasedLettersMatch | backend/src/main/java/org/shop/services/ProductService.java:152 | an address matches, in both directions, every copy of itself in which some lower-case letters are upper-cased |
| Service.DifferentDigitsDiffer | backend/src/main/java/org/shop/services/ProductService.java:152 | two addresses that differ in one digit never match, whatever the case of their letters |
| Service.VerifyTransaction | backend/src/main/java/org/shop/services/ProductService.java:147-162 | the transaction must be found, its sender must equal the buyer ignoring case, and its value must equal the expected price; what this guarantees the ledger is stated by Service.ProductService.ReserveProduct |
| Service.Reservable | backend/src/main/java/org/shop/services/ProductService.java:126 | a product can be reserved only when it is not deleted, not reserved and not sold; used by Service.ProductService.ReserveProduct |
| Service.EqualsIgnoreCase | backend/src/main/java/org/shop/services/ProductService.java:152 | equalsIgnoreCase on ASCII text; its properties are Service.IgnoreCaseIsEquivalence, Service.UpperCasedLettersMatch and Service.DifferentDigitsDiffer |
| Service.ToEntity | backend/src/main/java/org/shop/services/ProductService.java:90-106 | the entity copy keeps all nine other fields (id, name, photo, description, seller, the three flags and the buyer), and its price text is digits that parse back to the ledger price |
| Service.ToEntities | backend/src/main/java/org/shop/services/ProductService.java:256-270 | the forEach of getAllProducts: one entity per ledger product, in order, keeping its id, seller and isReserved, isSold and isDeleted flags, with a decimal price text that parses back to the ledger price |
| Service.ProductService.constructor | backend/src/main/java/org/shop/services/ProductService.java:60 | the service works against the one registry it is given (the contract loaded at start-up) |
| Service.ProductService.AllProducts | backend/src/main/java/org/shop/services/ProductService.java:250-276 | one entity per ledger product, the k-th being the copy of product k + 1; all prices are digit strings |
| Service.ProductService.ReserveProduct | backend/src/main/java/org/shop/services/ProductService.java:123-145 | if the product is missing, deleted, reserved or sold, fails with no ledger write; otherwise if the transaction does not verify, fails with no ledger write; otherwise the ledger reservation is made with the expected price as deposit and "Name: ..., Address: ..." as shipping text; succeeds exactly when the product is reservable and the transaction verifies; on success the recorded deposit is exactly the value of the buyer's own transaction, whose sender matches the buyer ignoring case |
| Service.ProductService.ConfirmReceived | backend/src/main/java/org/shop/services/ProductService.java:164-172 | pays exactly the order's amount to the seller of the product named by the order's product id, and marks product sold and order released |
| Service.ProductService.CancelReservation | backend/src/main/java/org/shop/services/ProductService.java:181-187 | refunds exactly the order's amount to the requesting buyer, and marks the product unreserved and the order canceled |
| Service.ProductService.ReserveTwice | backend/src/main/java/org/shop/services/ProductService.java:125-128 | once a reservation of a product succeeds, a second one is refused with CannotBeReserved and exactly one order was created |
| Service.ProductService.ReserveCancelReserve | backend/src/main/java/org/shop/services/ProductService.java:123-145 | the cancel is made exactly when the first reservation succeeds; after it the deposit is refunded and a new buyer's reservation succeeds exactly when that buyer's transaction verifies, with the next order id |
| Service.ForSale | backend/src/main/java/org/shop/services/ProductService.java:236-240 | the for-sale list: the catalogue without the caller's own products; its property is Service.ForSaleExactly |
| Service.ForSaleExactly | backend/src/main/java/org/shop/services/ProductService.java:236-240 | a product is listed for sale to a caller if and only if it is in the catalogue and the caller is not its seller; the listing keeps catalogue order |
| Service.FilterForSale | backend/src/main/java/org/shop/services/ProductService.java:234-240 | the loop keeps exactly the for-sale products, in catalogue order |
| Service.ProductService.GetAllProductsForSale | backend/src/main/java/org/shop/services/ProductService.java:233-248 | the result is the requested page of the for-sale list, reported with the full filtered count as total, on the window computed without 32-bit overflow (see the Findings row) |
| Service.BuyerRow | backend/src/main/java/org/shop/services/ProductService.java:286-298 | the "my orders" row of an order and its ledger product; order flags go into their own slots |
| Service.BuyerRows | backend/src/main/java/org/shop/services/ProductService.java:286-299 | one row per selected order: the k-th row carries that order's id, buyer, shipping text, isPayed and isCanceled, and the id and price of the product it refers to |
| Service.BuyerViewExactly | backend/src/main/java/org/shop/services/ProductService.java:282-300 | the "my orders" rows are exactly the caller's orders: an order is selected if and only if the caller is its buyer; every row names the caller; row ids strictly increase, as in the ledger |
| Service.CallerOrders | backend/src/main/java/org/shop/services/ProductService.java:282-283 | the orders whose buyer is the caller, in ledger order; its property is Service.BuyerViewExactly |
| Service.SubsequenceIdsIncreasing | backend/src/main/java/org/shop/services/ProductService.java:282-283 | keeping some of the orders of a list with increasing ids keeps the ids increasing |
| Service.CollectBuyerRows | backend/src/main/java/org/shop/services/ProductService.java:282-301 | the loop builds exactly the rows of the caller's orders, in ledger order |
| Service.ProductService.GetOrdersByBuyer | backend/src/main/java/org/shop/services/ProductService.java:278-306 | the result is exactly the "my orders" rows of the caller |
| Service.ProductService.GetOrdersByBuyerPerPage | backend/src/main/java/org/shop/services/ProductService.java:308-317 | the requested page of the "my orders" rows, on the window computed without 32-bit overflow (see the Findings row) |
| Service.SellerRow | backend/src/main/java/org/shop/services/ProductService.java:328-346 | the "my products" row of an order and its product entity, with isCanceled passed into the isOrderPayed slot and isPayed into isOrderCanceled, as the source passes them |
| Service.SellerOrderRows | backend/src/main/java/org/shop/services/ProductService.java:324-350 | one row per selected order: the k-th row carries that order's id, buyer and shipping text, the id and ledger price of its product, and the order's isCanceled in the isOrderPayed slot and isPayed in the isOrderCanceled slot |
| Service.SellerOrders | backend/src/main/java/org/shop/services/ProductService.java:324-327 | the orders that are not canceled and whose product is the seller's, in ledger order; its property is Service.SellerViewProperties |
| Service.Placeholder | backend/src/main/java/org/shop/services/ProductService.java:362-380 | the placeholder row of a product: its id as row id, all four order flags false, "-" as shipping text and "0x000" as buyer |
| Service.WithPlaceholders | backend/src/main/java/org/shop/services/ProductService.java:352-383 | the second pass of getProductsBySeller; its properties are Service.PlaceholdersAppend and Service.PlaceholdersCover |
| Service.PlaceholdersAppend | backend/src/main/java/org/shop/services/ProductService.java:352-383 | the placeholder pass keeps the order rows as a prefix and adds at most one row per catalogue product; every added row is the placeholder of one of the seller's products and names a product that no earlier row names |
| Service.PlaceholdersCover | backend/src/main/java/org/shop/services/ProductService.java:352-383 | after the placeholder pass, every product of the seller in the catalogue is named by some row |
| Service.CollectSellerRows | backend/src/main/java/org/shop/services/ProductService.java:324-350 | the first loop builds exactly the rows of the seller's non-canceled orders, in ledger order |
| Service.AddPlaceholders | backend/src/main/java/org/shop/services/ProductService.java:352-383 | the nested loop with its isProductAdded flag computes the placeholder pass |
| Service.SellerViewProperties | backend/src/main/java/org/shop/services/ProductService.java:319-389 | an order gets a row if and only if it is not canceled and its product is the seller's; those rows come first in ledger order, are priced at the ledger price, and have false in the isOrderPayed slot; each later row is the placeholder of a seller product that no earlier row names; every product of the seller on the ledger appears in some row |
| Service.SellerView | backend/src/main/java/org/shop/services/ProductService.java:319-389 | the list getProductsBySeller returns: the order rows followed by the placeholders; its properties are Service.SellerViewProperties |
| Service.ProductService.GetProductsBySeller | backend/src/main/java/org/shop/services/ProductService.java:319-389 | the result is exactly the "my products" view of the seller: the order rows followed by the placeholders |
| Service.ProductService.GetProductsBySellerPerPage | backend/src/main/java/org/shop/services/ProductService.java:391-400 | the requested page of the "my products" view, on the window computed without 32-bit overflow (see the Findings row) |
| Pagination.Window | backend/src/main/java/org/shop/services/ProductService.java:241-247 | the window runs from start = (page - 1) * size to min(start + size, total); it lies within the list and spans at most size elements; a negative start is IndexOutOfBoundsException, a start past the window's end and a bad page request are IllegalArgumentException |
| Pagination.PageTotal | backend/src/main/java/org/shop/services/ProductService.java:247 | the total that new PageImpl reports: offset plus content size when the content is non-empty and offset plus page size exceeds the total, otherwise the total; its consequences are Paginate's total equal to the list length and PaginateInt32's bounds on the total |
| Pagination.Wrap32 | backend/src/main/java/org/shop/services/ProductService.java:242-243 | Java int wrap-around of an arithmetic result: always a 32-bit value, and the identity on values that already fit |
| Pagination.Paginate | backend/src/main/java/org/shop/services/ProductService.java:241-247 | a page holds at most size elements, reports the full list length as total, and has page index page - 1 |
| Pagination.PaginateOk | backend/src/main/java/org/shop/services/ProductService.java:242-246 | a page exists if and only if page >= 1, size >= 1 and (page - 1) * size <= total; otherwise subList or PageRequest.of throws |
| Pagination.PaginateSlice | backend/src/main/java/org/shop/services/ProductService.java:245 | the page is the contiguous slice of the list starting at (page - 1) * size |
| Pagination.PageOfIndex | backend/src/main/java/org/shop/services/ProductService.java:242-245 | for size >= 1, the element at index k is on page k / size + 1, at position k % size |
| Pagination.WindowInt32 | backend/src/main/java/org/shop/services/ProductService.java:310-316 | the same window computed in Java's wrapping 32-bit int arithmetic stays within the list |
| Pagination.WindowInt32NoOverflow | backend/src/main/java/org/shop/services/ProductService.java:393-399 | when no 32-bit operation overflows, the Java window equals the intended one |
| Pagination.PaginateInt32 | backend/src/main/java/org/shop/services/ProductService.java:241-247 | the page as the Java int code computes it, with the PageImpl total: at most the whole list, the wrapped page - 1 as page index, a total of at least the list length, and exactly the list length when the unwrapped offset lies within the list |
| Pagination.PaginateInt32NoOverflow | backend/src/main/java/org/shop/services/ProductService.java:310-316 | when no 32-bit operation overflows, the page the service serves is the intended page |
| Pagination.PaginateInt32Overflow | backend/src/main/java/org/shop/services/ProductService.java:394-399 | over five items, page 65537 of size 65536 serves all five items as page index 65536 with PageImpl total 4294967301 (the unwrapped offset plus five), where the intended page is IllegalArgumentException |
| Pagination.WindowInt32Overflow | backend/src/main/java/org/shop/services/ProductService.java:242 | page 65537 of size 65536 over 5 elements wraps start to 0 and serves elements 0..5, where the intended window is an error |
| Navigation.FormatWalletAddress | frontend/src/app/parts/navigation/navigation.component.ts:118-123 | an address longer than 10 characters becomes its first 4 characters, "..", then its last 3, 9 characters in all and shorter than the input; an address of 1 to 10 characters is unchanged; a null or empty address gives the empty string |
| Navigation.FormatIsIdempotent | frontend/src/app/parts/navigation/navigation.component.ts:118-123 | a formatted address has at most 10 characters, so formatting it again gives the same text |
| ProductList.Displayed | frontend/src/app/pages/product-list/product-list.component.ts:37 | the items the page shows; its property is ProductList.DisplayedExactly |
| ProductList.DisplayedExactly | frontend/src/app/pages/product-list/product-list.component.ts:37 | an item is displayed if and only if it is in the response, its seller is not the account, and it is not sold; displayed items keep response order |
| ProductList.CeilDiv | frontend/src/app/pages/product-list/product-list.component.ts:38 | Math.ceil(length / size) on whole numbers; its property is ProductList.CeilDivIsLeast |
| ProductList.CeilDivIsLeast | frontend/src/app/pages/product-list/product-list.component.ts:38 | for size > 0, the page count is the least n with n * size >= the response length |
| ProductList.ProductListComponent.constructor | frontend/src/app/pages/product-list/product-list.component.ts:15-19 | the page starts at 1 with size 4, no products and no page that nextPage can move to |
| ProductList.ProductListComponent.OnProductsPage | frontend/src/app/pages/product-list/product-list.component.ts:35-40 | the shown products are the displayable items of the response, and the page count is computed on the whole unfiltered response; the cursor is unchanged |
| ProductList.ProductListComponent.NextPage | frontend/src/app/pages/product-list/product-list.component.ts:50-55 | page increases by one exactly when it is below the page count, otherwise nothing changes; page stays >= 1 and never goes past the page count |
| ProductList.ProductListComponent.PreviousPage | frontend/src/app/pages/product-list/product-list.component.ts:57-62 | page decreases by one exactly when it is above 1, otherwise nothing changes; page stays >= 1 and stays within the page count |

## Findings

| source | as written | input that shows it | evidently intended | confidence | as-written member | corrected member |
|---|---|---|---|---|---|---|
| backend/src/main/java/org/shop/services/ProductService.java:242 | `int start = (page - 1) * size;` wraps in 32-bit arithmetic, as do lines 311 and 394 | page = 65537, size = 65536, a list of 5 elements: start wraps to 0, so elements 0..5 are returned as page 65537 | a page that starts past the end is rejected (subList throws IllegalArgumentException) | not executed; follows from Java int semantics | Pagination.WindowInt32Overflow | Pagination.Window |

## Left out

- confirmSend and deleteProduct are not modelled. The backend only forwards them to the contract, and the model does not include what the contract does for them (setting isSend, setting isDeleted).
- The contract's own checks are not modelled: the caller's authority, the deposit against the price, the state of the product or order, and what happens to a reverted transaction (a failed receipt status). The model keeps only the checks the backend makes.
- Ledger.ProductRegistry.ReserveProduct: an unknown product id is rejected with no change. ConfirmReceived and CancelReservation do the same for an unknown order id. What the contract does with unknown ids is not part of this model.
- Service.ProductService.ConfirmReceived and Service.ProductService.CancelReservation return OrderNotFound, with no change, for an unknown order id. The Java code has no such check: it passes whatever getOrder returns to the contract, and what the contract then does is not part of this model.
- Ledger.ProductRegistry.ConfirmReceived and Ledger.ProductRegistry.CancelReservation take the backend's four- and three-argument forms (amount and payee included). The test calls the two-argument forms, confirmReceived(orderId, buyer) and cancelReservation(2, buyer), and asserts nothing about payments; the model uses the backend's signatures for both.
- Ledger.ProductRegistry.ConfirmReceived leaves isReserved as it was. CancelReservation leaves the product's buyer as it was. New products get the empty string as buyer. The tests do not say otherwise.
- Orders are created with isSend, isReleased, isPayed and isCanceled all false. The model never sets isPayed, because when the contract sets it is not part of this model.
- The backend's five-argument reserveProduct call passes the expected price twice, once as an extra price argument and once as the deposit. The model keeps only the deposit, which is the value the tests check.
- Prices, amounts and ids are unbounded naturals. Solidity's uint256 bound and BigInteger signs are not modelled, so a negative expected price cannot be passed.
- web3j, Spring, HTTP and the wallet are not modelled. Transaction lookup by hash is a parameter. The ledger's product and order lists are read in id order.
- Exchange rates and wei/ETH/EUR conversion (BigDecimal, the CoinGecko fetch, the date-keyed cache) are not modelled. They use decimal rounding and network access.
- The service's lists hold value records, not shared `Product` objects, so aliasing between list elements and entities is not modelled. The entity's no-argument constructor, which leaves every field null, is not modelled. Null fields are not modelled either. The exception paths that end a view early (caught at ProductService.java:272-274, 302-304 and 385-387, returning a partial list) come from the `.send()` calls to the node; they are out of scope together with web3j.
- Service.EqualsIgnoreCase folds ASCII letters only. Java's equalsIgnoreCase also folds non-ASCII letters. Wallet addresses are ASCII.
- Service.FilterForSale, Service.CollectBuyerRows, Service.CollectSellerRows and Service.AddPlaceholders are the loops of getAllProductsForSale, getOrdersByBuyer and getProductsBySeller written as separate methods. The loops are the same as in the source; they are kept separate so that each proof stays small.
- ProductList.ProductListComponent.NextPage and PreviousPage do not re-fetch the page after moving the cursor. That fetch is an HTTP call, and its callback is OnProductsPage.
- ProductList.ProductListComponent.OnProductsPage requires a positive size. Every caller passes 4, and JavaScript's division by zero is not modelled. The response is treated as an array, as the component does.
- The identical page cursors of the card, order and sold-product pages are covered by the product list's cursor. ProductController, the metamask service and the Angular UI are not modelled.
- Service.ProductService.GetAllProductsForSale computes its page window on unbounded integers (Pagination.Paginate). The 32-bit wrap of `(page - 1) * size` at ProductService.java:242 is the Findings row; it is modelled by Pagination.WindowInt32 and Pagination.PaginateInt32, which agree with Paginate whenever nothing overflows (Pagination.PaginateInt32NoOverflow).
- Service.ProductService.GetOrdersByBuyerPerPage computes its page window on unbounded integers in the same way; the 32-bit wrap at ProductService.java:311 is the same Findings row.
- Service.ProductService.GetProductsBySellerPerPage computes its page window on unbounded integers in the same way; the 32-bit wrap at ProductService.java:394 is the same Findings row.
- Navigation.FormatWalletAddress counts characters, where JavaScript's length and substring count UTF-16 code units. The two agree on wallet addresses, which are ASCII.
- Concurrency is not modelled. The chain serialises transactions, so every operation runs to completion on its own.
