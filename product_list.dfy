/** The product list page: the products it displays from a fetched page, its page count,
    and its page cursor. */
module ProductList {
  import Entities
  import Lists

  /** The response items the page shows: not offered by the connected account and not sold,
      in response order. */
  function Displayed(response: seq<Entities.ProductRecord>, account: string): seq<Entities.ProductRecord>
  {
    Lists.Filter(response, (p: Entities.ProductRecord) => p.seller != account && !p.isSold)
  }

  /** An item is shown exactly when it is in the response, offered by another account and not
      sold; the shown items keep the response order. */
  lemma DisplayedExactly(response: seq<Entities.ProductRecord>, account: string, p: Entities.ProductRecord)
    ensures p in Displayed(response, account) <==> p in response && p.seller != account && !p.isSold
    ensures Lists.IsSubsequence(Displayed(response, account), response)
  {
    Lists.FilterMembership(response, (p: Entities.ProductRecord) => p.seller != account && !p.isSold, p);
    Lists.FilterIsSubsequence(response, (p: Entities.ProductRecord) => p.seller != account && !p.isSold);
  }

  /** `Math.ceil(n / d)` for a whole `n` and a positive whole `d`. */
  function CeilDiv(n: nat, d: nat): nat
    requires d > 0
  {
    (n + d - 1) / d
  }

  /** `CeilDiv(n, d)` pages of `d` items hold `n` items, and no fewer pages do. */
  lemma CeilDivIsLeast(n: nat, d: nat, k: nat)
    requires d > 0
    ensures CeilDiv(n, d) * d >= n
    ensures k * d >= n ==> k >= CeilDiv(n, d)
  {
    var q := CeilDiv(n, d);
    var r := (n + d - 1) % d;
    assert n + d - 1 == q * d + r && 0 <= r < d;
    assert (q - 1) * d == q * d - d;
    assert (q - 1) * d < n;
    if k * d >= n {
      assert (q - 1 - k) * d < 0 by {
        assert (q - 1) * d - k * d == (q - 1 - k) * d;
      }
    }
  }

  class ProductListComponent {
    var products: seq<Entities.ProductRecord>
    var account: string
    var page: int
    var size: int
    var totalPages: int

    /** A page not yet loaded: page 1 of size 4, no products, and a page count that lets no
        `nextPage` through (the component leaves `totalPages` undefined, which compares the same way). */
    constructor (account: string)
      ensures this.account == account && page == 1 && size == 4 && products == [] && totalPages == 0
    {
      this.account := account;
      page := 1;
      size := 4;
      products := [];
      totalPages := 0;
    }

    /** The callback of `getProductsPage(page, size)`: shows the displayable items and counts
        pages on the whole response, unfiltered. */
    method OnProductsPage(response: seq<Entities.ProductRecord>, size: nat)
      requires size > 0
      modifies this
      ensures products == Displayed(response, account)
      ensures totalPages == CeilDiv(|response|, size)
      ensures page == old(page) && this.size == old(this.size) && account == old(account)
    {
      products := Displayed(response, account);
      totalPages := CeilDiv(|response|, size);
    }

    /** `nextPage`: moves forward only while the page is below the page count. */
    method NextPage()
      modifies this
      ensures page == if old(page) < totalPages then old(page) + 1 else old(page)
      ensures old(page) >= 1 ==> page >= 1
      ensures old(page) <= totalPages ==> page <= totalPages
      ensures products == old(products) && totalPages == old(totalPages) && size == old(size) && account == old(account)
    {
      if page < totalPages {
        page := page + 1;
      }
    }

    /** `previousPage`: moves back only while the page is above 1. */
    method PreviousPage()
      modifies this
      ensures page == if old(page) > 1 then old(page) - 1 else old(page)
      ensures old(page) >= 1 ==> page >= 1
      ensures old(page) <= totalPages ==> page <= totalPages
      ensures products == old(products) && totalPages == old(totalPages) && size == old(size) && account == old(account)
    {
      if page > 1 {
        page := page - 1;
      }
    }
  }
}
