/**
 The download script: it walks over the pages of the template list, retrying, skipping or stopping on errors,
 and accounts for every entry of the pages that answered.
 */
module TemplateDownload {
  import opened Prelude
  import opened Paging

  /** What one page fetch yields: the page, one of the three kinds of exception, or JSON of the wrong shape. */
  datatype Fetch = Answer | BadJson | NetworkError | OtherError | WrongShape

  datatype Stop = TooManyErrors | Malformed | EmptyPage | LastPage

  /** `next` is the page at which the walk stopped: all pages before it were answered or skipped. */
  datatype Walk = Walk(answered: seq<nat>, skipped: seq<nat>, fetches: nat, next: nat, stop: Stop)

  function Answering(page: nat, w: Walk): Walk {
    w.(answered := [page] + w.answered, fetches := w.fetches + 1)
  }

  function Skipping(page: nat, w: Walk): Walk {
    w.(skipped := [page] + w.skipped, fetches := w.fetches + 1)
  }

  function Retrying(w: Walk): Walk {
    w.(fetches := w.fetches + 1)
  }

  /** The walk from a page, after `errors` consecutive errors; `answers(n)` is what the n-th fetch yields. */
  function WalkFrom(
        total: nat, perPage: nat, maxErrors: nat, answers: nat -> Fetch, page: nat, errors: nat, n: nat): Walk
    requires perPage >= 1 && page >= 1 && errors < maxErrors
    decreases FullLeft(total, perPage, page), maxErrors - errors
  {
    if answers(n) == WrongShape then Walk([], [], 1, page, Malformed)
    else if answers(n) == Answer then
      FullPagesLeft(total, perPage, page);
      var size := Size(total, perPage, page);
      if size == 0 then Walk([], [], 1, page, EmptyPage)
      else if size < perPage then Walk([page], [], 1, page + 1, LastPage)
      else Answering(page, WalkFrom(total, perPage, maxErrors, answers, page + 1, 0, n + 1))
    else if errors + 1 >= maxErrors then Walk([], [], 1, page, TooManyErrors)
    else
      var rest := WalkFrom(total, perPage, maxErrors, answers, AfterError(page, answers(n)), errors + 1, n + 1);
      if answers(n) == NetworkError then Retrying(rest) else Skipping(page, rest)
  }

  /** After a network error the same page is tried again, after the other errors it is skipped. */
  function AfterError(page: nat, f: Fetch): nat {
    if f == NetworkError then page else page + 1
  }

  // ---------- Fetches ----------

  /** The fetches left with `full` full pages ahead, after `errors` consecutive errors. */
  function Budget(maxErrors: nat, full: nat, errors: nat): int {
    maxErrors * full + maxErrors - errors
  }

  lemma BudgetAfterPage(maxErrors: nat, full: nat, errors: nat)
    requires errors < maxErrors
    ensures 1 <= Budget(maxErrors, full, errors)
    ensures Budget(maxErrors, full, 0) + 1 <= Budget(maxErrors, full + 1, errors)
  {
    assert maxErrors * (full + 1) == maxErrors * full + maxErrors;
  }

  lemma BudgetAfterError(maxErrors: nat, full: nat, before: nat, errors: nat)
    requires full <= before
    ensures Budget(maxErrors, full, errors + 1) + 1 <= Budget(maxErrors, before, errors)
  {
    Monotone(full, before, maxErrors);
  }

  lemma FullLeftAtStart(total: nat, perPage: nat)
    requires perPage >= 1
    ensures FullLeft(total, perPage, 1) == total / perPage
  {
  }

  lemma BudgetAtStart(maxErrors: nat, full: nat)
    ensures Budget(maxErrors, full, 0) == maxErrors * (full + 1)
  {
  }

  lemma {:induction false} FetchesFrom(
        total: nat, perPage: nat, maxErrors: nat, answers: nat -> Fetch, page: nat, errors: nat, n: nat)
    requires perPage >= 1 && page >= 1 && errors < maxErrors
    ensures WalkFrom(total, perPage, maxErrors, answers, page, errors, n).fetches
         <= Budget(maxErrors, FullLeft(total, perPage, page), errors)
    decreases FullLeft(total, perPage, page), maxErrors - errors
  {
    FullPagesLeft(total, perPage, page);
    BudgetAfterPage(maxErrors, FullLeft(total, perPage, page), errors);
    if answers(n) == Answer {
      if Size(total, perPage, page) == perPage {
        FetchesFrom(total, perPage, maxErrors, answers, page + 1, 0, n + 1);
        BudgetAfterPage(maxErrors, FullLeft(total, perPage, page + 1), errors);
      }
    } else if answers(n) != WrongShape && errors + 1 < maxErrors {
      var next := AfterError(page, answers(n));
      FetchesFrom(total, perPage, maxErrors, answers, next, errors + 1, n + 1);
      BudgetAfterError(maxErrors, FullLeft(total, perPage, next), FullLeft(total, perPage, page), errors);
    }
  }

  /** Whatever the server does, the script makes at most K * (floor(T / P) + 1) page fetches. */
  lemma FetchBound(total: nat, perPage: nat, maxErrors: nat, answers: nat -> Fetch)
    requires perPage >= 1 && maxErrors >= 1
    ensures WalkFrom(total, perPage, maxErrors, answers, 1, 0, 0).fetches <= maxErrors * (total / perPage + 1)
  {
    FetchesFrom(total, perPage, maxErrors, answers, 1, 0, 0);
    FullLeftAtStart(total, perPage);
    BudgetAtStart(maxErrors, total / perPage);
  }

  const PER_PAGE := 250
  const MAX_FETCH_ERRORS := 5

  /** With the script's own constants. */
  lemma ScriptFetchBound(total: nat, answers: nat -> Fetch)
    ensures WalkFrom(total, PER_PAGE, MAX_FETCH_ERRORS, answers, 1, 0, 0).fetches <= 5 * (total / 250) + 5
  {
    FetchBound(total, PER_PAGE, MAX_FETCH_ERRORS, answers);
  }

  // ---------- Which entries are processed ----------

  /** Strictly increasing pages, each with something on it. */
  ghost predicate InOrder(total: nat, perPage: nat, pages: seq<nat>, from: nat) {
    && (forall i :: 0 <= i < |pages| ==> pages[i] >= 1 && from <= pages[i] && (pages[i] - 1) * perPage < total)
    && (forall i, j :: 0 <= i < j < |pages| ==> pages[i] < pages[j])
  }

  lemma {:induction false} AnsweredInOrder(
        total: nat, perPage: nat, maxErrors: nat, answers: nat -> Fetch, page: nat, errors: nat, n: nat)
    requires perPage >= 1 && page >= 1 && errors < maxErrors
    ensures InOrder(total, perPage, WalkFrom(total, perPage, maxErrors, answers, page, errors, n).answered, page)
    decreases FullLeft(total, perPage, page), maxErrors - errors
  {
    if answers(n) == Answer {
      FullPagesLeft(total, perPage, page);
      BeforeNext(total, perPage, page);
      if Size(total, perPage, page) == perPage {
        AnsweredInOrder(total, perPage, maxErrors, answers, page + 1, 0, n + 1);
      }
    } else if answers(n) != WrongShape && errors + 1 < maxErrors {
      AnsweredInOrder(total, perPage, maxErrors, answers, AfterError(page, answers(n)), errors + 1, n + 1);
    }
  }

  /** The entries of the given pages, one page after the other. */
  function Entries<T>(items: seq<T>, perPage: nat, pages: seq<nat>): seq<T>
    requires forall i :: 0 <= i < |pages| ==> pages[i] >= 1
  {
    if pages == [] then [] else Page(items, perPage, pages[0]) + Entries(items, perPage, pages[1..])
  }

  /** The positions in the list of those entries. */
  function Positions(total: nat, perPage: nat, pages: seq<nat>): seq<nat>
    requires forall i :: 0 <= i < |pages| ==> pages[i] >= 1
  {
    if pages == [] then []
    else
      BeforeNext(total, perPage, pages[0]);
      var from := Before(total, perPage, pages[0]);
      seq(Before(total, perPage, pages[0] + 1) - from, i requires 0 <= i => from + i) +
      Positions(total, perPage, pages[1..])
  }

  /** `es` are entries of the list at the strictly increasing positions `ps`, between `lo` and `hi`. */
  ghost predicate Places<T>(items: seq<T>, es: seq<T>, ps: seq<nat>, lo: nat, hi: nat) {
    && |es| == |ps|
    && (forall i :: 0 <= i < |ps| ==> lo <= ps[i] < hi <= |items| && es[i] == items[ps[i]])
    && (forall i, j :: 0 <= i < j < |ps| ==> ps[i] < ps[j])
  }

  lemma PlacesJoin<T>(items: seq<T>, es: seq<T>, ps: seq<nat>, fs: seq<T>, qs: seq<nat>, lo: nat, mid: nat, hi: nat)
    requires Places(items, es, ps, lo, mid) && Places(items, fs, qs, mid, hi) && lo <= mid <= hi <= |items|
    ensures Places(items, es + fs, ps + qs, lo, hi)
  {
  }

  lemma PlacesOfPage<T>(items: seq<T>, perPage: nat, page: nat)
    requires page >= 1
    ensures var lo, mid := Before(|items|, perPage, page), Before(|items|, perPage, page + 1);
            && lo <= mid <= |items|
            && Places(items, Page(items, perPage, page), seq(mid - lo, i requires 0 <= i => lo + i), lo, mid)
  {
    BeforeNext(|items|, perPage, page);
  }

  lemma InOrderRest(total: nat, perPage: nat, pages: seq<nat>, from: nat)
    requires pages != [] && InOrder(total, perPage, pages, from)
    ensures pages[0] >= 1 && pages[0] >= from && InOrder(total, perPage, pages[1..], pages[0] + 1)
  {
    assert forall i :: 0 <= i < |pages[1..]| ==> pages[1..][i] == pages[i + 1];
  }

  /** The processed entries are the list's entries at strictly increasing positions: none is processed twice. */
  lemma {:induction false} ProcessedOnceInOrder<T>(items: seq<T>, perPage: nat, pages: seq<nat>, from: nat)
    requires InOrder(|items|, perPage, pages, from) && from >= 1
    ensures Places(items, Entries(items, perPage, pages), Positions(|items|, perPage, pages),
                   Before(|items|, perPage, from), |items|)
    decreases |pages|
  {
    if pages != [] {
      var page, rest := pages[0], pages[1..];
      InOrderRest(|items|, perPage, pages, from);
      BeforeMonotone(|items|, perPage, from, page);
      ProcessedOnceInOrder(items, perPage, rest, page + 1);
      PlacesOfPage(items, perPage, page);
      var lo, mid := Before(|items|, perPage, page), Before(|items|, perPage, page + 1);
      PlacesJoin(items, Page(items, perPage, page), seq(mid - lo, i requires 0 <= i => lo + i),
                 Entries(items, perPage, rest), Positions(|items|, perPage, rest), lo, mid, |items|);
    }
  }

  // ---------- When everything is processed ----------

  /** Every page with entries was reached, and none of them was skipped. */
  ghost predicate NothingMissed(total: nat, perPage: nat, w: Walk) {
    && w.next >= 1 && (w.next - 1) * perPage >= total
    && forall q :: q in w.skipped ==> q >= 1 && (q - 1) * perPage >= total
  }

  /** From `page` on, everything is processed exactly when nothing is missed. */
  ghost predicate CompleteOrMissed<T>(items: seq<T>, perPage: nat, w: Walk, page: nat)
    requires page >= 1
  {
    && InOrder(|items|, perPage, w.answered, page)
    && var es, left := Entries(items, perPage, w.answered), items[Before(|items|, perPage, page)..];
       && |es| <= |left|
       && (NothingMissed(|items|, perPage, w) ==> es == left)
       && (|es| == |left| ==> NothingMissed(|items|, perPage, w))
  }

  lemma EndsHere<T>(items: seq<T>, perPage: nat, page: nat, fetches: nat, stop: Stop)
    requires perPage >= 1 && page >= 1
    ensures CompleteOrMissed(items, perPage, Walk([], [], fetches, page, stop), page)
  {
  }

  lemma LastPageHere<T>(items: seq<T>, perPage: nat, page: nat)
    requires perPage >= 1 && page >= 1 && 0 < Size(|items|, perPage, page) < perPage
    ensures CompleteOrMissed(items, perPage, Walk([page], [], 1, page + 1, LastPage), page)
  {
    PageSizes(|items|, perPage, page);
    BeforeNext(|items|, perPage, page);
    FirstAnswered(items, perPage, page, []);
  }

  lemma AnsweredStep<T>(items: seq<T>, perPage: nat, page: nat, w: Walk)
    requires perPage >= 1 && page >= 1 && Size(|items|, perPage, page) == perPage
    requires CompleteOrMissed(items, perPage, w, page + 1)
    ensures CompleteOrMissed(items, perPage, Answering(page, w), page)
  {
    BeforeNext(|items|, perPage, page);
    FirstAnswered(items, perPage, page, w.answered);
    PageThenRest(items, perPage, page);
    InOrderCons(|items|, perPage, page, w.answered);
  }

  lemma PageThenRest<T>(items: seq<T>, perPage: nat, page: nat)
    requires page >= 1
    ensures items[Before(|items|, perPage, page)..] ==
            Page(items, perPage, page) + items[Before(|items|, perPage, page + 1)..]
  {
    BeforeNext(|items|, perPage, page);
  }

  lemma InOrderCons(total: nat, perPage: nat, page: nat, rest: seq<nat>)
    requires page >= 1 && Size(total, perPage, page) > 0 && InOrder(total, perPage, rest, page + 1)
    ensures InOrder(total, perPage, [page] + rest, page)
  {
    BeforeNext(total, perPage, page);
  }

  lemma SkippedStep<T>(items: seq<T>, perPage: nat, page: nat, w: Walk)
    requires perPage >= 1 && page >= 1 && CompleteOrMissed(items, perPage, w, page + 1)
    ensures CompleteOrMissed(items, perPage, Skipping(page, w), page)
  {
    PageSizes(|items|, perPage, page);
    BeforeNext(|items|, perPage, page);
    assert page in Skipping(page, w).skipped;
  }

  lemma {:induction false} CompleteFrom<T>(
        items: seq<T>, perPage: nat, maxErrors: nat, answers: nat -> Fetch, page: nat, errors: nat, n: nat)
    requires perPage >= 1 && page >= 1 && errors < maxErrors
    ensures CompleteOrMissed(items, perPage, WalkFrom(|items|, perPage, maxErrors, answers, page, errors, n), page)
    decreases FullLeft(|items|, perPage, page), maxErrors - errors
  {
    if answers(n) == Answer {
      FullPagesLeft(|items|, perPage, page);
      if Size(|items|, perPage, page) == perPage {
        CompleteFrom(items, perPage, maxErrors, answers, page + 1, 0, n + 1);
        AnsweredStep(items, perPage, page, WalkFrom(|items|, perPage, maxErrors, answers, page + 1, 0, n + 1));
      } else if Size(|items|, perPage, page) > 0 {
        LastPageHere(items, perPage, page);
      } else {
        EndsHere(items, perPage, page, 1, EmptyPage);
      }
    } else if answers(n) == WrongShape {
      EndsHere(items, perPage, page, 1, Malformed);
    } else if errors + 1 >= maxErrors {
      EndsHere(items, perPage, page, 1, TooManyErrors);
    } else {
      var next := AfterError(page, answers(n));
      CompleteFrom(items, perPage, maxErrors, answers, next, errors + 1, n + 1);
      var rest := WalkFrom(|items|, perPage, maxErrors, answers, next, errors + 1, n + 1);
      if answers(n) != NetworkError {
        SkippedStep(items, perPage, page, rest);
      } else {
        RetriedStep(items, perPage, page, rest);
      }
    }
  }

  lemma RetriedStep<T>(items: seq<T>, perPage: nat, page: nat, w: Walk)
    requires page >= 1 && CompleteOrMissed(items, perPage, w, page)
    ensures CompleteOrMissed(items, perPage, Retrying(w), page)
  {
  }

  lemma FirstAnswered<T>(items: seq<T>, perPage: nat, page: nat, rest: seq<nat>)
    requires page >= 1 && forall i :: 0 <= i < |rest| ==> rest[i] >= 1
    ensures Entries(items, perPage, [page] + rest) == Page(items, perPage, page) + Entries(items, perPage, rest)
  {
    assert ([page] + rest)[1..] == rest;
  }

  // ---------- The condition on the server's answers ----------

  predicate Fails(f: Fetch) {
    f.BadJson? || f.NetworkError? || f.OtherError?
  }

  /** The page that the n-th fetch is for, if the script gets there. */
  function PageAt(answers: nat -> Fetch, n: nat): (page: nat)
    ensures page >= 1
  {
    if n == 0 then 1 else AfterError(PageAt(answers, n - 1), answers(n - 1))
  }

  ghost predicate FailRun(answers: nat -> Fetch, from: nat, count: nat) {
    forall m :: from <= m < from + count ==> Fails(answers(m))
  }

  /** The fetch is for a page with entries. */
  predicate Needed(total: nat, perPage: nat, answers: nat -> Fetch, n: nat) {
    (PageAt(answers, n) - 1) * perPage < total
  }

  /** The fetch loses entries: it skips a page or ends the run, or is the last of `maxErrors` failures in a row. */
  ghost predicate Loses(maxErrors: nat, answers: nat -> Fetch, n: nat) {
    || (answers(n) != Answer && answers(n) != NetworkError)
    || (n + 1 >= maxErrors && FailRun(answers, n + 1 - maxErrors, maxErrors))
  }

  /** No fetch from the n-th on for a page with entries loses any. */
  ghost predicate NoLoss(total: nat, perPage: nat, maxErrors: nat, answers: nat -> Fetch, n: nat) {
    forall m :: n <= m && Needed(total, perPage, answers, m) ==> !Loses(maxErrors, answers, m)
  }

  /** Exactly the last `errors` answers before the n-th fetch are failures. */
  ghost predicate FailedJustNow(answers: nat -> Fetch, errors: nat, n: nat) {
    && errors <= n && FailRun(answers, n - errors, errors)
    && (errors < n ==> !Fails(answers(n - errors - 1)))
  }

  lemma {:induction false} PagesOnlyGrow(total: nat, perPage: nat, answers: nat -> Fetch, n: nat, m: nat)
    requires n <= m
    ensures PageAt(answers, n) <= PageAt(answers, m)
    ensures Needed(total, perPage, answers, m) ==> Needed(total, perPage, answers, n)
    decreases m - n
  {
    if n < m {
      PagesOnlyGrow(total, perPage, answers, n, m - 1);
    }
    Monotone(PageAt(answers, n) - 1, PageAt(answers, m) - 1, perPage);
  }

  lemma NotNeeded(total: nat, perPage: nat, maxErrors: nat, answers: nat -> Fetch, n: nat)
    requires !Needed(total, perPage, answers, n)
    ensures NoLoss(total, perPage, maxErrors, answers, n)
  {
    forall m | n <= m ensures !Needed(total, perPage, answers, m) {
      PagesOnlyGrow(total, perPage, answers, n, m);
    }
  }

  lemma NoLossStep(total: nat, perPage: nat, maxErrors: nat, answers: nat -> Fetch, n: nat)
    ensures NoLoss(total, perPage, maxErrors, answers, n)
       <==> (Needed(total, perPage, answers, n) ==> !Loses(maxErrors, answers, n))
            && NoLoss(total, perPage, maxErrors, answers, n + 1)
  {
  }

  /** A failure is the last of `maxErrors` in a row exactly when the script has counted that many. */
  lemma RunEnds(maxErrors: nat, answers: nat -> Fetch, errors: nat, n: nat)
    requires errors < maxErrors && FailedJustNow(answers, errors, n)
    ensures (n + 1 >= maxErrors && FailRun(answers, n + 1 - maxErrors, maxErrors))
       <==> Fails(answers(n)) && errors + 1 == maxErrors
    ensures Fails(answers(n)) ==> FailedJustNow(answers, errors + 1, n + 1)
    ensures !Fails(answers(n)) ==> FailedJustNow(answers, 0, n + 1)
  {
    if n + 1 >= maxErrors && errors + 1 < maxErrors {
      assert !Fails(answers(n - errors - 1));
    }
  }

  lemma MissedFirst(total: nat, perPage: nat, page: nat, w: Walk)
    ensures NothingMissed(total, perPage, Answering(page, w)) <==> NothingMissed(total, perPage, w)
    ensures NothingMissed(total, perPage, Retrying(w)) <==> NothingMissed(total, perPage, w)
    ensures NothingMissed(total, perPage, Skipping(page, w))
       <==> page >= 1 && (page - 1) * perPage >= total && NothingMissed(total, perPage, w)
  {
    var skipped := Skipping(page, w).skipped;
    assert skipped[0] == page && page in skipped;
    forall q | q in w.skipped ensures q in skipped {
      var i :| 0 <= i < |w.skipped| && w.skipped[i] == q;
      assert skipped[i + 1] == q;
    }
  }

  /** A fetch after which the script goes on. */
  lemma OnwardLoss(total: nat, perPage: nat, maxErrors: nat, answers: nat -> Fetch, errors: nat, n: nat, rest: Walk)
    requires errors < maxErrors && FailedJustNow(answers, errors, n)
    requires Fails(answers(n)) && errors + 1 < maxErrors
    requires NothingMissed(total, perPage, rest) <==> NoLoss(total, perPage, maxErrors, answers, n + 1)
    ensures var w := if answers(n) == NetworkError then Retrying(rest) else Skipping(PageAt(answers, n), rest);
            NothingMissed(total, perPage, w) <==> NoLoss(total, perPage, maxErrors, answers, n)
  {
    RunEnds(maxErrors, answers, errors, n);
    NoLossStep(total, perPage, maxErrors, answers, n);
    MissedFirst(total, perPage, PageAt(answers, n), rest);
  }

  /** A fetch that ends the run at its page. */
  lemma EndingLoss(
      total: nat, perPage: nat, maxErrors: nat, answers: nat -> Fetch, errors: nat, n: nat, stop: Stop)
    requires errors < maxErrors && FailedJustNow(answers, errors, n)
    requires answers(n) == WrongShape || (Fails(answers(n)) && errors + 1 >= maxErrors)
    ensures NothingMissed(total, perPage, Walk([], [], 1, PageAt(answers, n), stop))
       <==> NoLoss(total, perPage, maxErrors, answers, n)
  {
    RunEnds(maxErrors, answers, errors, n);
    NoLossStep(total, perPage, maxErrors, answers, n);
    if !Needed(total, perPage, answers, n) {
      NotNeeded(total, perPage, maxErrors, answers, n);
    }
  }

  /** A page that arrives loses nothing. */
  lemma AnswerLoses(total: nat, perPage: nat, maxErrors: nat, answers: nat -> Fetch, errors: nat, n: nat)
    requires errors < maxErrors && FailedJustNow(answers, errors, n) && answers(n) == Answer
    ensures NoLoss(total, perPage, maxErrors, answers, n) <==> NoLoss(total, perPage, maxErrors, answers, n + 1)
  {
    RunEnds(maxErrors, answers, errors, n);
    NoLossStep(total, perPage, maxErrors, answers, n);
  }

  /** A page that is not full is the last one with entries, or lies behind it. */
  lemma LastAnswerLoses(total: nat, perPage: nat, maxErrors: nat, answers: nat -> Fetch, n: nat)
    requires perPage >= 1 && answers(n) == Answer && Size(total, perPage, PageAt(answers, n)) < perPage
    ensures var page := PageAt(answers, n);
            && NothingMissed(total, perPage, Walk([page], [], 1, page + 1, LastPage))
            && (Size(total, perPage, page) == 0 ==> NothingMissed(total, perPage, Walk([], [], 1, page, EmptyPage)))
    ensures NoLoss(total, perPage, maxErrors, answers, n + 1)
  {
    NothingAfter(total, perPage, PageAt(answers, n));
    NotNeeded(total, perPage, maxErrors, answers, n + 1);
  }

  lemma {:induction false} MissedIffLoss(
      total: nat, perPage: nat, maxErrors: nat, answers: nat -> Fetch, page: nat, errors: nat, n: nat)
    requires perPage >= 1 && page >= 1 && errors < maxErrors
    requires page == PageAt(answers, n) && FailedJustNow(answers, errors, n)
    ensures NothingMissed(total, perPage, WalkFrom(total, perPage, maxErrors, answers, page, errors, n))
       <==> NoLoss(total, perPage, maxErrors, answers, n)
    decreases FullLeft(total, perPage, page), maxErrors - errors
  {
    RunEnds(maxErrors, answers, errors, n);
    if answers(n) == Answer {
      FullPagesLeft(total, perPage, page);
      AnswerLoses(total, perPage, maxErrors, answers, errors, n);
      if Size(total, perPage, page) == perPage {
        MissedIffLoss(total, perPage, maxErrors, answers, page + 1, 0, n + 1);
        MissedFirst(total, perPage, page, WalkFrom(total, perPage, maxErrors, answers, page + 1, 0, n + 1));
      } else {
        LastAnswerLoses(total, perPage, maxErrors, answers, n);
      }
    } else if answers(n) == WrongShape {
      EndingLoss(total, perPage, maxErrors, answers, errors, n, Malformed);
    } else if errors + 1 >= maxErrors {
      EndingLoss(total, perPage, maxErrors, answers, errors, n, TooManyErrors);
    } else {
      var next := AfterError(page, answers(n));
      MissedIffLoss(total, perPage, maxErrors, answers, next, errors + 1, n + 1);
      OnwardLoss(total, perPage, maxErrors, answers, errors, n,
                 WalkFrom(total, perPage, maxErrors, answers, next, errors + 1, n + 1));
    }
  }

  lemma NothingAfter(total: nat, perPage: nat, page: nat)
    requires perPage >= 1 && page >= 1 && Size(total, perPage, page) < perPage
    ensures page * perPage >= total
    ensures Size(total, perPage, page) == 0 ==> (page - 1) * perPage >= total
  {
    PageSizes(total, perPage, page);
    BeforeNext(total, perPage, page);
  }

  /**
   Every entry is processed, once and in order, exactly when no fetch for a page with entries skips it, ends
   the run, or completes `maxErrors` failures in a row: a condition on what the server answers.
   */
  lemma CompleteIff<T>(items: seq<T>, perPage: nat, maxErrors: nat, answers: nat -> Fetch)
    requires perPage >= 1 && maxErrors >= 1
    ensures var w := WalkFrom(|items|, perPage, maxErrors, answers, 1, 0, 0);
            && InOrder(|items|, perPage, w.answered, 1)
            && (Entries(items, perPage, w.answered) == items <==> NoLoss(|items|, perPage, maxErrors, answers, 0))
  {
    CompleteFrom(items, perPage, maxErrors, answers, 1, 0, 0);
    MissedIffLoss(|items|, perPage, maxErrors, answers, 1, 0, 0);
    assert items[0..] == items;
  }

  /** No `maxErrors` fetches in a row fail, and those that fail do so with a network error. */
  ghost predicate OnlyNetworkErrors(maxErrors: nat, answers: nat -> Fetch) {
    && (forall n: nat :: answers(n) == Answer || answers(n) == NetworkError)
    && (forall n: nat :: !FailRun(answers, n, maxErrors))
  }

  /** Retrying makes up for network errors: unless too many come in a row, every entry is processed once. */
  lemma RetriesLoseNothing<T>(items: seq<T>, perPage: nat, maxErrors: nat, answers: nat -> Fetch)
    requires perPage >= 1 && maxErrors >= 1 && OnlyNetworkErrors(maxErrors, answers)
    ensures var w := WalkFrom(|items|, perPage, maxErrors, answers, 1, 0, 0);
            && InOrder(|items|, perPage, w.answered, 1)
            && Entries(items, perPage, w.answered) == items
  {
    CompleteIff(items, perPage, maxErrors, answers);
  }

  // ---------- Accounting ----------

  /**
   What becomes of one metadata entry. Once its JSON is fetched, `writes` says of each target folder whether the
   file could be written; every exception of a write is caught on the spot.
   */
  datatype Entry = MissingId | NoTarget | FetchFails | Unexpected | Fetched(writes: seq<bool>)

  datatype Tally = Tally(processed: nat, downloaded: nat, skipped: nat, errors: nat)

  function Failures(writes: seq<bool>): nat {
    if writes == [] then 0 else (if writes[|writes| - 1] then 0 else 1) + Failures(writes[..|writes| - 1])
  }

  function Counted(t: Tally, e: Entry): Tally {
    match e
    case MissingId | NoTarget => t.(processed := t.processed + 1, skipped := t.skipped + 1)
    case FetchFails | Unexpected => t.(processed := t.processed + 1, skipped := t.skipped + 1, errors := t.errors + 1)
    case Fetched(writes) =>
      t.(processed := t.processed + 1,
         downloaded := t.downloaded + (if true in writes then 1 else 0),
         errors := t.errors + Failures(writes))
  }

  function TallyOf(outcome: nat -> Entry, n: nat): Tally {
    if n == 0 then Tally(0, 0, 0, 0) else Counted(TallyOf(outcome, n - 1), outcome(n - 1))
  }

  /** Fetched, but no folder could be written. */
  predicate Unsaved(e: Entry) {
    e.Fetched? && true !in e.writes
  }

  predicate OnDisk(e: Entry) {
    e.Fetched? && true in e.writes
  }

  predicate Raised(e: Entry) {
    e.FetchFails? || e.Unexpected?
  }

  function Those(outcome: nat -> Entry, n: nat, p: Entry -> bool): nat {
    if n == 0 then 0 else Those(outcome, n - 1, p) + (if p(outcome(n - 1)) then 1 else 0)
  }

  function FailedWrites(outcome: nat -> Entry, n: nat): nat {
    if n == 0 then 0
    else FailedWrites(outcome, n - 1) + (if outcome(n - 1).Fetched? then Failures(outcome(n - 1).writes) else 0)
  }

  /**
   At every point of the run: processed = downloaded + skipped + fetched but nowhere saved. The downloaded
   entries are those on disk, and the errors are the exceptions of entries and of single writes.
   */
  lemma {:induction false} EveryEntryAccounted(outcome: nat -> Entry, n: nat)
    ensures var t := TallyOf(outcome, n);
            && t.processed == n
            && t.processed == t.downloaded + t.skipped + Those(outcome, n, Unsaved)
            && t.downloaded == Those(outcome, n, OnDisk)
            && t.errors == Those(outcome, n, Raised) + FailedWrites(outcome, n)
  {
    if n > 0 {
      EveryEntryAccounted(outcome, n - 1);
    }
  }

  /** What has been processed and fetched so far, with what the walk from here on adds, is what `goal` says. */
  ghost predicate OnTrack<T>(items: seq<T>, perPage: nat, goal: Walk, log: seq<T>, fetches: nat, w: Walk, page: nat) {
    && InOrder(|items|, perPage, w.answered, page) && InOrder(|items|, perPage, goal.answered, 1)
    && log + Entries(items, perPage, w.answered) == Entries(items, perPage, goal.answered)
    && fetches + w.fetches == goal.fetches
  }

  ghost predicate Ahead<T>(
      items: seq<T>, perPage: nat, maxErrors: nat, answers: nat -> Fetch, goal: Walk,
      log: seq<T>, n: nat, page: nat, errors: nat) {
    && perPage >= 1 && page >= 1 && errors < maxErrors
    && OnTrack(items, perPage, goal, log, n, WalkFrom(|items|, perPage, maxErrors, answers, page, errors, n), page)
  }

  /** The processing is over: the entries of the answered pages, in order, and the fetches that `goal` says. */
  ghost predicate Done<T>(items: seq<T>, perPage: nat, goal: Walk, log: seq<T>, fetches: nat) {
    && InOrder(|items|, perPage, goal.answered, 1)
    && log == Entries(items, perPage, goal.answered)
    && fetches == goal.fetches
  }

  // ---------- The script ----------

  /** The write loop: one file per target folder, errors counted, then one more saved workflow if any write worked. */
  method SaveEntry(writes: seq<bool>) returns (saved: bool, errors: nat)
    ensures saved <==> true in writes
    ensures errors == Failures(writes)
  {
    saved, errors := false, 0;
    for i := 0 to |writes|
      invariant saved <==> true in writes[..i]
      invariant errors == Failures(writes[..i])
    {
      assert writes[..i + 1][..i] == writes[..i] && writes[..i + 1] == writes[..i] + [writes[i]];
      if writes[i] {
        saved := true;
      } else {
        errors := errors + 1;
      }
    }
    assert writes[..|writes|] == writes;
  }

  method ProcessEntry(before: Tally, e: Entry) returns (tally: Tally)
    ensures tally == Counted(before, e)
  {
    tally := before.(processed := before.processed + 1);
    match e {
      case MissingId => tally := tally.(skipped := tally.skipped + 1);
      case NoTarget => tally := tally.(skipped := tally.skipped + 1);
      case FetchFails => tally := tally.(skipped := tally.skipped + 1, errors := tally.errors + 1);
      case Unexpected => tally := tally.(errors := tally.errors + 1, skipped := tally.skipped + 1);
      case Fetched(writes) =>
        var saved, errors := SaveEntry(writes);
        tally := tally.(errors := tally.errors + errors);
        if saved {
          tally := tally.(downloaded := tally.downloaded + 1);
        }
    }
  }

  /** The loop over the entries of one page, `start` counting those of the pages before. */
  method ProcessPage(size: nat, outcome: nat -> Entry, start: Tally) returns (tally: Tally)
    requires start == TallyOf(outcome, start.processed)
    ensures tally.processed == start.processed + size && tally == TallyOf(outcome, tally.processed)
  {
    tally := start;
    for k := 0 to size
      invariant tally.processed == start.processed + k
      invariant tally == TallyOf(outcome, tally.processed)
    {
      tally := ProcessEntry(tally, outcome(tally.processed));
    }
  }

  /** What the loop does with a page that arrived; an empty or short page is the last one. */
  method ProcessAnswer<T>(items: seq<T>, perPage: nat, page: nat, outcome: nat -> Entry, before: seq<T>, start: Tally)
    returns (log: seq<T>, tally: Tally, last: bool)
    requires perPage >= 1 && page >= 1
    requires start.processed == |before| && start == TallyOf(outcome, start.processed)
    ensures log == before + Page(items, perPage, page)
    ensures tally.processed == |log| && tally == TallyOf(outcome, tally.processed)
    ensures last <==> Size(|items|, perPage, page) < perPage
  {
    var workflows := Page(items, perPage, page);
    log, tally, last := before, start, true;
    if workflows != [] {
      tally := ProcessPage(|workflows|, outcome, tally);
      log := log + workflows;
      last := |workflows| < perPage;
    }
  }

  /** One round of the page loop; `stop` says that it breaks out of the loop. */
  method Round<T>(
      items: seq<T>, perPage: nat, maxErrors: nat, answers: nat -> Fetch, outcome: nat -> Entry, ghost goal: Walk,
      before: seq<T>, start: Tally, n: nat, oldPage: nat, oldErrors: nat)
    returns (log: seq<T>, tally: Tally, page: nat, fetchErrors: nat, stop: bool)
    requires Ahead(items, perPage, maxErrors, answers, goal, before, n, oldPage, oldErrors)
    requires start.processed == |before| && start == TallyOf(outcome, start.processed)
    ensures tally.processed == |log| && tally == TallyOf(outcome, tally.processed)
    ensures if stop then Done(items, perPage, goal, log, n + 1)
            else Ahead(items, perPage, maxErrors, answers, goal, log, n + 1, page, fetchErrors)
  {
    AfterFailure(items, perPage, maxErrors, answers, goal, before, n, oldPage, oldErrors);
    AfterAnswer(items, perPage, maxErrors, answers, goal, before, n, oldPage, oldErrors);
    log, tally, page, fetchErrors, stop := before, start, oldPage, oldErrors, false;
    var fetched := answers(n);
    if fetched == Answer {
      fetchErrors := 0;
      log, tally, stop := ProcessAnswer(items, perPage, page, outcome, log, tally);
      if !stop {
        page := page + 1;
      }
    } else if fetched == WrongShape {
      fetchErrors, stop := 0, true;
    } else {
      fetchErrors := fetchErrors + 1;
      if fetchErrors >= maxErrors {
        stop := true;
      } else {
        page := AfterError(page, fetched);
      }
    }
  }

  /**
   The page loop. `answers(n)` is the outcome of the n-th page fetch and `outcome(k)` that of the k-th
   processed entry, both chosen by an adversary; `log` lists the entries processed.
   */
  method DownloadTemplates<T>(items: seq<T>, perPage: nat, maxErrors: nat, answers: nat -> Fetch, outcome: nat -> Entry)
    returns (log: seq<T>, fetches: nat, tally: Tally)
    requires perPage >= 1 && maxErrors >= 1
    ensures Done(items, perPage, WalkFrom(|items|, perPage, maxErrors, answers, 1, 0, 0), log, fetches)
    ensures fetches <= maxErrors * (|items| / perPage + 1)
    ensures tally.processed == |log| && tally == TallyOf(outcome, tally.processed)
  {
    ghost var goal := WalkFrom(|items|, perPage, maxErrors, answers, 1, 0, 0);
    StartOnTrack(items, perPage, maxErrors, answers);
    log, fetches, tally := [], 0, Tally(0, 0, 0, 0);
    var page, fetchErrors, stop := 1, 0, false;
    while !stop
      invariant if stop then Done(items, perPage, goal, log, fetches)
                else Ahead(items, perPage, maxErrors, answers, goal, log, fetches, page, fetchErrors)
      invariant tally.processed == |log| && tally == TallyOf(outcome, tally.processed)
      decreases goal.fetches - fetches
    {
      FetchesLeft(items, perPage, maxErrors, answers, goal, log, fetches, page, fetchErrors);
      log, tally, page, fetchErrors, stop :=
        Round(items, perPage, maxErrors, answers, outcome, goal, log, tally, fetches, page, fetchErrors);
      fetches := fetches + 1;
    }
    FetchBound(|items|, perPage, maxErrors, answers);
  }

  lemma FetchesLeft<T>(
      items: seq<T>, perPage: nat, maxErrors: nat, answers: nat -> Fetch, goal: Walk,
      log: seq<T>, n: nat, page: nat, errors: nat)
    requires Ahead(items, perPage, maxErrors, answers, goal, log, n, page, errors)
    ensures n < goal.fetches
  {
  }

  lemma StartOnTrack<T>(items: seq<T>, perPage: nat, maxErrors: nat, answers: nat -> Fetch)
    requires perPage >= 1 && maxErrors >= 1
    ensures Ahead(items, perPage, maxErrors, answers,
                  WalkFrom(|items|, perPage, maxErrors, answers, 1, 0, 0), [], 0, 1, 0)
  {
    var none: seq<T> := [];
    var goal := WalkFrom(|items|, perPage, maxErrors, answers, 1, 0, 0);
    AnsweredInOrder(|items|, perPage, maxErrors, answers, 1, 0, 0);
    assert none + Entries(items, perPage, goal.answered) == Entries(items, perPage, goal.answered);
  }

  /** One round of the loop whose fetch fails. */
  lemma AfterFailure<T>(
        items: seq<T>, perPage: nat, maxErrors: nat, answers: nat -> Fetch, goal: Walk, log: seq<T>, n: nat, page: nat,
        errors: nat)
    requires Ahead(items, perPage, maxErrors, answers, goal, log, n, page, errors)
    ensures answers(n) == WrongShape || (answers(n) != Answer && errors + 1 >= maxErrors) ==>
              Done(items, perPage, goal, log, n + 1)
    ensures answers(n) != WrongShape && answers(n) != Answer && errors + 1 < maxErrors ==>
              Ahead(items, perPage, maxErrors, answers, goal, log, n + 1, AfterError(page, answers(n)), errors + 1)
  {
    if answers(n) == WrongShape {
      DoneEmpty(items, perPage, goal, log, n, page, Malformed);
    } else if answers(n) != Answer && errors + 1 >= maxErrors {
      DoneEmpty(items, perPage, goal, log, n, page, TooManyErrors);
    } else if answers(n) != Answer {
      AnsweredInOrder(|items|, perPage, maxErrors, answers, AfterError(page, answers(n)), errors + 1, n + 1);
    }
  }

  /** One round of the loop whose page arrives. */
  lemma AfterAnswer<T>(
        items: seq<T>, perPage: nat, maxErrors: nat, answers: nat -> Fetch, goal: Walk, log: seq<T>, n: nat, page: nat,
        errors: nat)
    requires Ahead(items, perPage, maxErrors, answers, goal, log, n, page, errors)
    ensures answers(n) == Answer && Size(|items|, perPage, page) < perPage ==>
              Done(items, perPage, goal, log + Page(items, perPage, page), n + 1)
    ensures answers(n) == Answer && Size(|items|, perPage, page) == perPage ==>
              Ahead(items, perPage, maxErrors, answers, goal, log + Page(items, perPage, page), n + 1, page + 1, 0)
  {
    if answers(n) == Answer {
      FullPagesLeft(|items|, perPage, page);
      var size := Size(|items|, perPage, page);
      if size == perPage {
        AnsweredInOrder(|items|, perPage, maxErrors, answers, page + 1, 0, n + 1);
        PageProcessed(items, perPage, goal, log, n, page,
                      WalkFrom(|items|, perPage, maxErrors, answers, page + 1, 0, n + 1));
      } else if size > 0 {
        LastProcessed(items, perPage, goal, log, n, page);
      } else {
        EmptyProcessed(items, perPage, goal, log, n, page);
      }
    }
  }

  lemma EmptyProcessed<T>(items: seq<T>, perPage: nat, goal: Walk, log: seq<T>, n: nat, page: nat)
    requires page >= 1 && Size(|items|, perPage, page) == 0
    requires OnTrack(items, perPage, goal, log, n, Walk([], [], 1, page, EmptyPage), page)
    ensures Done(items, perPage, goal, log + Page(items, perPage, page), n + 1)
  {
    DoneEmpty(items, perPage, goal, log, n, page, EmptyPage);
    assert log + Page(items, perPage, page) == log;
  }

  lemma PageProcessed<T>(items: seq<T>, perPage: nat, goal: Walk, log: seq<T>, n: nat, page: nat, rest: Walk)
    requires page >= 1 && OnTrack(items, perPage, goal, log, n, Answering(page, rest), page)
    requires InOrder(|items|, perPage, rest.answered, page + 1)
    ensures OnTrack(items, perPage, goal, log + Page(items, perPage, page), n + 1, rest, page + 1)
  {
    FirstAnswered(items, perPage, page, rest.answered);
    assert log + (Page(items, perPage, page) + Entries(items, perPage, rest.answered))
        == (log + Page(items, perPage, page)) + Entries(items, perPage, rest.answered);
  }

  lemma LastProcessed<T>(items: seq<T>, perPage: nat, goal: Walk, log: seq<T>, n: nat, page: nat)
    requires page >= 1 && OnTrack(items, perPage, goal, log, n, Walk([page], [], 1, page + 1, LastPage), page)
    ensures Done(items, perPage, goal, log + Page(items, perPage, page), n + 1)
  {
    assert [page] + [] == [page];
    FirstAnswered(items, perPage, page, []);
    assert Page(items, perPage, page) + [] == Page(items, perPage, page);
  }

  lemma DoneEmpty<T>(items: seq<T>, perPage: nat, goal: Walk, log: seq<T>, n: nat, page: nat, stop: Stop)
    requires OnTrack(items, perPage, goal, log, n, Walk([], [], 1, page, stop), page)
    ensures Done(items, perPage, goal, log, n + 1)
  {
    assert log + [] == log;
  }
}
