/**
 * The page view of a list of records that the history query works on: a
 * zero-based page request, and the page of a record sequence it selects, with
 * the counts the page reports (element count, total elements, total pages).
 */
module Paging {

  /** A page request: zero-based page number and page size. */
  datatype PageRequest = PageRequest(pageNumber: nat, pageSize: nat)

  /** A page: its content, the request's number and size, and the total element count. */
  datatype Page<+T> = Page(content: seq<T>, number: nat, size: nat, totalElements: nat)

  function Min(a: nat, b: nat): nat {
    if a <= b then a else b
  }

  /** Index of the first record of the requested page. */
  function Offset(req: PageRequest): nat {
    req.pageNumber * req.pageSize
  }

  /** The page that `req` selects from `all`, in the order of `all`. */
  function FindPage<T>(all: seq<T>, req: PageRequest): (p: Page<T>)
    requires req.pageSize >= 1
    ensures p.number == req.pageNumber && p.size == req.pageSize
    ensures p.totalElements == |all|
    ensures |p.content| == if Offset(req) < |all| then Min(req.pageSize, |all| - Offset(req)) else 0
    ensures forall i :: 0 <= i < |p.content| ==> p.content[i] == all[Offset(req) + i]
  {
    var lo := Min(Offset(req), |all|);
    var hi := Min(lo + req.pageSize, |all|);
    Page(all[lo..hi], req.pageNumber, req.pageSize, |all|)
  }

  /** The number of pages: the total divided by the size, rounded up (1 for a size of 0). */
  function TotalPages<T>(p: Page<T>): nat {
    if p.size == 0 then 1 else (p.totalElements + p.size - 1) / p.size
  }

  /** Applies `f` to every element, keeping the page's number, size and total. */
  function MapPage<T, U>(f: T -> U, p: Page<T>): (q: Page<U>)
    ensures q.number == p.number && q.size == p.size && q.totalElements == p.totalElements
    ensures |q.content| == |p.content|
    ensures forall i :: 0 <= i < |p.content| ==> q.content[i] == f(p.content[i])
  {
    Page(seq(|p.content|, i requires 0 <= i < |p.content| => f(p.content[i])), p.number, p.size, p.totalElements)
  }

  /** Rounding up: the pages hold every element, and the last page is not empty. */
  lemma TotalPagesBounds<T>(p: Page<T>)
    requires p.size >= 1
    ensures TotalPages(p) * p.size >= p.totalElements
    ensures p.totalElements > 0 ==> (TotalPages(p) - 1) * p.size < p.totalElements
    ensures p.totalElements == 0 <==> TotalPages(p) == 0
  {
    var n, s := p.totalElements, p.size;
    var q := (n + s - 1) / s;
    var r := (n + s - 1) % s;
    assert n + s - 1 == q * s + r;
    assert 0 <= r < s;
    assert q * s >= n;
    if n > 0 {
      assert q >= 1;
      assert (q - 1) * s == q * s - s;
    }
  }

  /** Multiplying by a size keeps the order of page numbers. */
  lemma MulMonotonic(a: nat, b: nat, s: nat)
    requires a <= b
    ensures a * s <= b * s
  {
    assert b * s == a * s + (b - a) * s;
  }

  /** A page has content exactly when its number is below the page count. */
  lemma NonEmptyIff<T>(all: seq<T>, req: PageRequest)
    requires req.pageSize >= 1
    ensures |FindPage(all, req).content| > 0 <==> req.pageNumber < TotalPages(FindPage(all, req))
  {
    var p := FindPage(all, req);
    TotalPagesBounds(p);
    var s, k, t, n := req.pageSize, req.pageNumber, TotalPages(p), |all|;
    assert |p.content| > 0 <==> k * s < n;
    if k < t {
      MulMonotonic(k, t - 1, s);
    } else {
      MulMonotonic(t, k, s);
    }
  }

  /** A page holds at most the requested size, and exactly that many unless it is the last or beyond. */
  lemma PageSizeBound<T>(all: seq<T>, req: PageRequest)
    requires req.pageSize >= 1
    ensures |FindPage(all, req).content| <= req.pageSize
    ensures Offset(req) + req.pageSize <= |all| ==> |FindPage(all, req).content| == req.pageSize
  {
  }

  /** The contents of pages 0 .. k-1, one after another. */
  function PagesUpTo<T>(all: seq<T>, size: nat, k: nat): seq<T>
    requires size >= 1
  {
    if k == 0 then [] else PagesUpTo(all, size, k - 1) + FindPage(all, PageRequest(k - 1, size)).content
  }

  /** The first k pages together are the first k*size records (or all of them). */
  lemma {:induction false} PagesUpToPrefix<T>(all: seq<T>, size: nat, k: nat)
    requires size >= 1
    ensures PagesUpTo(all, size, k) == all[..Min(k * size, |all|)]
  {
    if k > 0 {
      PagesUpToPrefix(all, size, k - 1);
      var lo := Min((k - 1) * size, |all|);
      assert (k - 1) * size == k * size - size;
      var p := FindPage(all, PageRequest(k - 1, size));
      assert p.content == all[lo..Min(k * size, |all|)];
      assert all[..lo] + all[lo..Min(k * size, |all|)] == all[..Min(k * size, |all|)];
    }
  }

  /** Paging loses and repeats nothing: all pages in order are exactly the record sequence. */
  lemma PagesPartition<T>(all: seq<T>, size: nat)
    requires size >= 1
    ensures PagesUpTo(all, size, TotalPages(FindPage(all, PageRequest(0, size)))) == all
  {
    var p := FindPage(all, PageRequest(0, size));
    TotalPagesBounds(p);
    PagesUpToPrefix(all, size, TotalPages(p));
  }
}
