/** getQueueUsersPaginated: the ordered rows, ten to a page. */
module Paging {

  const LIMIT := 10

  function Min(x: nat, y: nat): nat {
    if x < y then x else y
  }

  /** skip page * 10, take 10. */
  function Page<T>(list: seq<T>, page: nat): seq<T> {
    list[Min(page * LIMIT, |list|)..Min(page * LIMIT + LIMIT, |list|)]
  }

  /** ceil(total / 10). */
  function TotalPages(total: nat): nat {
    (total + LIMIT - 1) / LIMIT
  }

  function FirstPages<T>(list: seq<T>, pages: nat): seq<T> {
    if pages == 0 then [] else FirstPages(list, pages - 1) + Page(list, pages - 1)
  }

  lemma {:induction false} FirstPagesArePrefix<T>(list: seq<T>, pages: nat)
    ensures FirstPages(list, pages) == list[..Min(pages * LIMIT, |list|)]
  {
    if pages > 0 { FirstPagesArePrefix(list, pages - 1); }
  }

  lemma RowOnItsPage<T>(list: seq<T>, k: nat)
    requires k < |list|
    ensures k / 10 < TotalPages(|list|)
    ensures k % 10 < |Page(list, k / 10)| && Page(list, k / 10)[k % 10] == list[k]
  {
    var page, place := k / 10, k % 10;
    assert k == page * 10 + place;
  }

  lemma PageIsEmpty<T>(list: seq<T>, page: nat)
    ensures Page(list, page) == [] <==> page >= TotalPages(|list|)
  {
    var total := TotalPages(|list|);
    assert total * 10 - 10 < |list| <= total * 10;
  }

  /** The pages put together are the list; no page has more than ten rows; row k is on page
      k / 10, at place k % 10; exactly the pages from totalPages on are empty. */
  lemma PagesPartition<T>(list: seq<T>, k: nat, page: nat)
    ensures FirstPages(list, TotalPages(|list|)) == list
    ensures |Page(list, page)| <= 10
    ensures k < |list| ==> k / 10 < TotalPages(|list|)
                           && k % 10 < |Page(list, k / 10)| && Page(list, k / 10)[k % 10] == list[k]
    ensures Page(list, page) == [] <==> page >= TotalPages(|list|)
  {
    FirstPagesArePrefix(list, TotalPages(|list|));
    if k < |list| { RowOnItsPage(list, k); }
    PageIsEmpty(list, page);
  }
}
