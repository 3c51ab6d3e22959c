/**
 * Spring Data paging as the services use it: `PageRequest.of(page, size)`
 * selects the rows at offsets `[page * size, (page + 1) * size)` of the
 * query result, and `Page.getTotalPages()` is the ceiling of `total / size`.
 */
module Paging {

  function Min(a: int, b: int): int { if a <= b then a else b }

  /** The content of page `page` of `rows` in pages of `size`. */
  function PageOf<T>(rows: seq<T>, page: nat, size: nat): (r: seq<T>)
    requires size > 0
    ensures |r| <= size
    ensures |r| == if page * size >= |rows| then 0 else Min(size, |rows| - page * size)
    ensures forall i :: 0 <= i < |r| ==> page * size + i < |rows| && r[i] == rows[page * size + i]
  {
    if page * size >= |rows| then [] else rows[page * size..Min(page * size + size, |rows|)]
  }

  /** `Page.getTotalPages()` for `total` rows in pages of `size`. */
  function TotalPages(total: nat, size: nat): nat
    requires size > 0
  {
    (total + size - 1) / size
  }

  /** Total pages is the ceiling of `total / size`: enough pages for every row, and no empty last page. */
  lemma TotalPagesIsCeiling(total: nat, size: nat)
    requires size > 0
    ensures TotalPages(total, size) * size >= total
    ensures TotalPages(total, size) > 0 ==> (TotalPages(total, size) - 1) * size < total
    ensures total == 0 <==> TotalPages(total, size) == 0
  {
    var t := TotalPages(total, size);
    var q := total + size - 1;
    assert q == t * size + q % size;
    assert q % size < size;
  }

  /** A page has content exactly when its index is below the total page count. */
  lemma PageNonEmptyIff<T>(rows: seq<T>, page: nat, size: nat)
    requires size > 0
    ensures |PageOf(rows, page, size)| > 0 <==> page < TotalPages(|rows|, size)
  {
    TotalPagesIsCeiling(|rows|, size);
    var t := TotalPages(|rows|, size);
    if page < t {
      MulMonotone(page, t - 1, size);
    } else {
      MulMonotone(t, page, size);
    }
  }

  lemma MulMonotone(a: nat, b: nat, size: nat)
    requires a <= b
    ensures a * size <= b * size
  {
  }

  /** Every row lies on exactly the page `offset / size`, at position `offset % size`. */
  lemma RowOnItsPage<T>(rows: seq<T>, offset: nat, size: nat)
    requires size > 0 && offset < |rows|
    ensures var p := PageOf(rows, offset / size, size);
      offset % size < |p| && p[offset % size] == rows[offset]
  {
    assert (offset / size) * size + offset % size == offset;
  }
}
