/** `MessageListPagination`: Django REST framework's page-number pagination
    with a fixed page size of 25, an allowed empty first page and no
    orphans. */
module Pagination {
  import opened Common

  const PAGE_SIZE: nat := 25

  /** The number of pages `count` items fill; an empty list still has its one
      (empty) first page. */
  function PageCount(count: nat): (k: nat)
    ensures k >= 1
    ensures count == 0 ==> k == 1
    ensures count <= k * PAGE_SIZE
    ensures count > 0 ==> (k - 1) * PAGE_SIZE < count
  {
    if count == 0 then 1 else (count + PAGE_SIZE - 1) / PAGE_SIZE
  }

  /** Page number `page` of `items`, or 404 for a page number outside
      `1..PageCount(|items|)`. */
  function Paginate<T>(items: seq<T>, page: int): (r: Result<seq<T>, StatusCode>)
    ensures r.Err? <==> page < 1 || page > PageCount(|items|)
    ensures r.Err? ==> r.error == HTTP_404_NOT_FOUND
    ensures r.Ok? ==> |r.value| == Min(PAGE_SIZE, |items| - (page - 1) * PAGE_SIZE)
    ensures r.Ok? && items != [] ==> r.value != []
    ensures r.Ok? ==> forall k :: 0 <= k < |r.value| ==> r.value[k] == items[(page - 1) * PAGE_SIZE + k]
  {
    if page < 1 || page > PageCount(|items|) then Err(HTTP_404_NOT_FOUND)
    else
      var bottom := (page - 1) * PAGE_SIZE;
      Ok(items[bottom..Min(bottom + PAGE_SIZE, |items|)])
  }

  /** Pages 1 to k, one after the other. */
  ghost function PagesUpTo<T>(items: seq<T>, k: nat): seq<T>
    requires k <= PageCount(|items|)
  {
    if k == 0 then [] else PagesUpTo(items, k - 1) + Paginate(items, k).value
  }

  /** The first k pages are the first k * 25 items, in order. */
  lemma {:induction false} PagesUpToIsPrefix<T>(items: seq<T>, k: nat)
    requires k <= PageCount(|items|)
    ensures PagesUpTo(items, k) == items[..Min(k * PAGE_SIZE, |items|)]
  {
    if k > 0 {
      PagesUpToIsPrefix(items, k - 1);
      var bottom := (k - 1) * PAGE_SIZE;
      assert bottom <= |items| by {
        if |items| > 0 {
          assert (PageCount(|items|) - 1) * PAGE_SIZE < |items|;
        }
      }
      assert items[..bottom] + items[bottom..Min(bottom + PAGE_SIZE, |items|)] == items[..Min(k * PAGE_SIZE, |items|)];
    }
  }

  /** Fetching every page returns every item exactly once, in order. */
  lemma AllPagesCoverItems<T>(items: seq<T>)
    ensures PagesUpTo(items, PageCount(|items|)) == items
  {
    PagesUpToIsPrefix(items, PageCount(|items|));
    assert items[..|items|] == items;
  }

  /** Items appended after a page was full do not change that page: with rows
      that are inserted at the end, an earlier page is never re-served
      differently. */
  lemma PaginateAppendStable<T>(items: seq<T>, more: seq<T>, page: int)
    requires 1 <= page && page * PAGE_SIZE <= |items|
    ensures Paginate(items + more, page) == Paginate(items, page)
  {
    assert page <= PageCount(|items|);
    assert page <= PageCount(|items + more|);
    var bottom := (page - 1) * PAGE_SIZE;
    assert (items + more)[bottom..bottom + PAGE_SIZE] == items[bottom..bottom + PAGE_SIZE];
  }
}
