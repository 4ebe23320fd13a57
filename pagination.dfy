/** The 1-based page windows of the three `*PerPage` service calls: `start = (page - 1) * size`,
    `end = min(start + size, total)`, then `subList(start, end)` and `PageRequest.of(page - 1, size)`. */
module Pagination {
  import opened Results

  /** `subList` throws `IndexOutOfBoundsException` for a start below zero and
      `IllegalArgumentException` for a start past the end of the window; `PageRequest.of`
      throws `IllegalArgumentException` for a negative page index and a size below one. */
  datatype PageError = IndexOutOfBounds | IllegalArgument

  /** A Spring `PageImpl`: the slice, the zero-based page index, the page size and the
      total number of elements it reports. */
  datatype Page<T> = Page(content: seq<T>, pageIndex: nat, pageSize: nat, totalElements: nat)

  /** The total that `new PageImpl<>(content, pageable, total)` reports: when the content is
      not empty and `offset + pageSize` reaches past `total`, it is `offset + content.size()`,
      where the offset is `page * size` computed in `long`; otherwise it is `total`. */
  function PageTotal(offset: nat, pageSize: nat, contentSize: nat, total: nat): nat
  {
    if contentSize > 0 && offset + pageSize > total then offset + contentSize else total
  }

  function Min(a: int, b: int): int { if a <= b then a else b }

  /** The index range `[start, end)` of a page, computed on unbounded integers, or the
      exception the Java code raises first (`subList` is called before `PageRequest.of`). */
  function Window(page: int, size: int, total: nat): (r: Result<(nat, nat), PageError>)
    ensures r.Ok? ==> r.value.0 <= r.value.1 <= total && r.value.1 - r.value.0 <= size
  {
    var start := (page - 1) * size;
    var end := Min(start + size, total);
    if start < 0 then Err(IndexOutOfBounds)
    else if start > end then Err(IllegalArgument)
    else if page - 1 < 0 || size < 1 then Err(IllegalArgument)
    else Ok((start, end))
  }

  /** One page of `items`; the reported total is always the list length. */
  function Paginate<T>(items: seq<T>, page: int, size: int): (r: Result<Page<T>, PageError>)
    ensures r.Ok? ==> |r.value.content| <= size && r.value.totalElements == |items|
    ensures r.Ok? ==> r.value.pageIndex == page - 1 && r.value.pageSize == size
  {
    match Window(page, size, |items|)
    case Err(e) => Err(e)
    case Ok((start, end)) => Ok(Page(items[start..end], page - 1, size, PageTotal(start, size, end - start, |items|)))
  }

  /** A page exists exactly when the page number and size are at least one and the page
      does not start past the end of the list. */
  lemma PaginateOk<T>(items: seq<T>, page: int, size: int)
    ensures Paginate(items, page, size).Ok? <==> page >= 1 && size >= 1 && (page - 1) * size <= |items|
  {
  }

  /** The page holds exactly the contiguous slice that starts at `(page - 1) * size`. */
  lemma PaginateSlice<T>(items: seq<T>, page: int, size: int)
    requires Paginate(items, page, size).Ok?
    ensures var start := (page - 1) * size;
      && 0 <= start <= |items|
      && Paginate(items, page, size).value.content == items[start..Min(start + size, |items|)]
  {
  }

  /** Every element is found on page `k / size + 1`, at position `k % size`. */
  lemma PageOfIndex<T>(items: seq<T>, size: int, k: nat)
    requires size >= 1 && k < |items|
    ensures var r := Paginate(items, k / size + 1, size);
      r.Ok? && k % size < |r.value.content| && r.value.content[k % size] == items[k]
  {
    var page := k / size + 1;
    var start := (page - 1) * size;
    assert start == (k / size) * size;
    assert k == start + k % size;
    assert 0 <= start;
    PaginateOk(items, page, size);
  }

  // The same window in Java's 32-bit `int` arithmetic, as the service computes it.

  const TwoTo31: int := 0x8000_0000
  const TwoTo32: int := 0x1_0000_0000

  predicate IsInt32(x: int) { -TwoTo31 <= x < TwoTo31 }

  /** Two's-complement wrap-around of a Java `int` operation. */
  function Wrap32(x: int): (r: int)
    ensures IsInt32(r)
    ensures IsInt32(x) ==> r == x
  {
    (x + TwoTo31) % TwoTo32 - TwoTo31
  }

  /** `Window` with every `-`, `*` and `+` wrapping as Java `int` arithmetic does. */
  function WindowInt32(page: int, size: int, total: nat): (r: Result<(int, int), PageError>)
    requires IsInt32(page) && IsInt32(size) && total < TwoTo31
    ensures r.Ok? ==> 0 <= r.value.0 <= r.value.1 <= total
    ensures r.Ok? ==> Wrap32(page - 1) >= 0 && size >= 1
  {
    var start := Wrap32(Wrap32(page - 1) * size);
    var end := Min(Wrap32(start + size), total);
    if start < 0 then Err(IndexOutOfBounds)
    else if start > end then Err(IllegalArgument)
    else if Wrap32(page - 1) < 0 || size < 1 then Err(IllegalArgument)
    else Ok((start, end))
  }

  /** Without overflow, the 32-bit window is the intended one. */
  lemma WindowInt32NoOverflow(page: int, size: int, total: nat)
    requires IsInt32(page) && IsInt32(size) && total < TwoTo31
    requires IsInt32(page - 1) && IsInt32((page - 1) * size) && IsInt32((page - 1) * size + size)
    ensures match Window(page, size, total)
      case Ok(w) => WindowInt32(page, size, total) == Ok((w.0 as int, w.1 as int))
      case Err(e) => WindowInt32(page, size, total) == Err(e)
  {
  }

  /** Page 65537 of size 65536 over five elements is past the end, but `(page - 1) * size`
      wraps to 0 in 32 bits, so the service serves the first five elements under that page. */
  lemma WindowInt32Overflow()
    ensures WindowInt32(65537, 65536, 5) == Ok((0, 5))
    ensures Window(65537, 65536, 5) == Err(IllegalArgument)
  {
    assert Wrap32(65536 * 65536) == 0;
  }

  /** One page as the service computes it, on the 32-bit window. */
  function PaginateInt32<T>(items: seq<T>, page: int, size: int): (r: Result<Page<T>, PageError>)
    requires IsInt32(page) && IsInt32(size) && |items| < TwoTo31
    ensures r.Ok? ==> r.value.pageSize == size && r.value.pageIndex == Wrap32(page - 1)
    ensures r.Ok? ==> |r.value.content| <= |items| && r.value.totalElements >= |items|
    ensures r.Ok? && Wrap32(page - 1) * size <= |items| ==> r.value.totalElements == |items|
  {
    match WindowInt32(page, size, |items|)
    case Err(e) => Err(e)
    case Ok((start, end)) =>
      var offset := Wrap32(page - 1) * size;
      Ok(Page(items[start..end], Wrap32(page - 1), size, PageTotal(offset, size, end - start, |items|)))
  }

  /** Without overflow, the page the service serves is the intended page. */
  lemma PaginateInt32NoOverflow<T>(items: seq<T>, page: int, size: int)
    requires IsInt32(page) && IsInt32(size) && |items| < TwoTo31
    requires IsInt32(page - 1) && IsInt32((page - 1) * size) && IsInt32((page - 1) * size + size)
    ensures PaginateInt32(items, page, size) == Paginate(items, page, size)
  {
    WindowInt32NoOverflow(page, size, |items|);
  }

  /** The overflow at the level of pages: page 65537 of size 65536 over five items serves all
      five items, and `PageImpl` reports the unwrapped offset plus five as total, where the
      intended page does not exist. */
  lemma PaginateInt32Overflow<T>(items: seq<T>)
    requires |items| == 5
    ensures PaginateInt32(items, 65537, 65536) == Ok(Page(items, 65536, 65536, 4294967301))
    ensures Paginate(items, 65537, 65536) == Err(IllegalArgument)
  {
    WindowInt32Overflow();
    assert items[0..5] == items;
  }
}
