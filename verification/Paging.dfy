/** A server that serves a fixed list in pages of equal size, counted from 1. */
module Paging {

  function Min(a: nat, b: nat): nat { if a < b then a else b }

  /** How many items lie on the pages before `page`. */
  function Before(total: nat, perPage: nat, page: nat): (n: nat)
    requires page >= 1
    ensures n <= total
  {
    Min((page - 1) * perPage, total)
  }

  lemma BeforeNext(total: nat, perPage: nat, page: nat)
    requires page >= 1
    ensures Before(total, perPage, page) <= Before(total, perPage, page + 1)
    ensures Before(total, perPage, page + 1) == Min(Before(total, perPage, page) + perPage, total)
  {
    assert (page + 1 - 1) * perPage == (page - 1) * perPage + perPage;
  }

  function Size(total: nat, perPage: nat, page: nat): nat
    requires page >= 1
  {
    BeforeNext(total, perPage, page);
    Before(total, perPage, page + 1) - Before(total, perPage, page)
  }

  function Page<T>(items: seq<T>, perPage: nat, page: nat): (r: seq<T>)
    requires page >= 1
    ensures |r| == Size(|items|, perPage, page)
  {
    BeforeNext(|items|, perPage, page);
    items[Before(|items|, perPage, page)..Before(|items|, perPage, page + 1)]
  }

  /** The pages from `page` on that are full. */
  function FullLeft(total: nat, perPage: nat, page: nat): nat
    requires perPage >= 1 && page >= 1
  {
    if total / perPage >= page then total / perPage - (page - 1) else 0
  }

  /** The full pages are the first floor(T / P); the page after them is the last one to hold anything. */
  lemma PageSizes(total: nat, perPage: nat, page: nat)
    requires perPage >= 1 && page >= 1
    ensures Size(total, perPage, page) <= perPage
    ensures Size(total, perPage, page) == perPage <==> page <= total / perPage
    ensures Size(total, perPage, page) == perPage ==> Before(total, perPage, page + 1) == page * perPage
    ensures Size(total, perPage, page) < perPage ==> Before(total, perPage, page + 1) == total <= page * perPage
  {
    BeforeNext(total, perPage, page);
    PagesFit(total, perPage, page);
  }

  lemma FullPagesLeft(total: nat, perPage: nat, page: nat)
    requires perPage >= 1 && page >= 1
    ensures Size(total, perPage, page) <= perPage
    ensures FullLeft(total, perPage, page + 1) <= FullLeft(total, perPage, page)
    ensures Size(total, perPage, page) == perPage ==>
              FullLeft(total, perPage, page) == FullLeft(total, perPage, page + 1) + 1
  {
    PageSizes(total, perPage, page);
  }

  /** The page is full exactly when its last item is in the list. */
  lemma PagesFit(total: nat, perPage: nat, page: nat)
    requires perPage >= 1 && page >= 1
    ensures page <= total / perPage <==> page * perPage <= total
    ensures (page - 1) * perPage + perPage == page * perPage
  {
    var q := total / perPage;
    Divided(total, perPage, q);
    if page <= q {
      Monotone(page, q, perPage);
    } else {
      Monotone(q + 1, page, perPage);
    }
  }

  lemma Divided(total: nat, perPage: nat, q: nat)
    requires perPage >= 1 && q == total / perPage
    ensures q * perPage <= total < (q + 1) * perPage
  {
    assert total == q * perPage + total % perPage;
    assert (q + 1) * perPage == q * perPage + perPage;
  }

  lemma BeforeMonotone(total: nat, perPage: nat, p: nat, q: nat)
    requires 1 <= p <= q
    ensures Before(total, perPage, p) <= Before(total, perPage, q)
  {
    Monotone(p - 1, q - 1, perPage);
  }

  lemma Monotone(a: nat, b: nat, p: nat)
    requires a <= b
    ensures a * p <= b * p
  {
    assert b * p == a * p + (b - a) * p;
  }
}
