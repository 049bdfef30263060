/** The paginated grid of feedback cards (ai_petition/src/components/ui/FeedbackList.tsx). */
module Pagination {
  import opened Options
  import opened Cards

  /** The `itemsPerPage` default (line 13). */
  const DefaultItemsPerPage := 6

  /** `Math.ceil(n / k)` for a positive page size: the fewest pages of k
      items that hold n items. */
  function TotalPages(n: nat, k: int): (pages: nat)
    requires k >= 1
    ensures n <= pages * k
    ensures pages > 0 ==> (pages - 1) * k < n
  {
    (n + k - 1) / k
  }

  /** There are no pages exactly when there are no items. */
  lemma NoPagesIff(n: nat, k: int)
    requires k >= 1
    ensures TotalPages(n, k) == 0 <==> n == 0
  {
  }

  /** A relative index of `Array.prototype.slice`: negative counts from the
      end, and the result is clamped to 0..len. */
  function SliceIndex(x: int, len: nat): (i: nat)
    ensures i <= len
  {
    if x < 0 then (if len + x < 0 then 0 else len + x) else if x > len then len else x
  }

  /** `s.slice(start, end)`: the elements from the resolved start up to the
      resolved end, in order. */
  function JsSlice<T>(s: seq<T>, start: int, end: int): (r: seq<T>)
    ensures SliceIndex(start, |s|) + |r| <= |s|
    ensures forall i :: 0 <= i < |r| ==> r[i] == s[SliceIndex(start, |s|) + i]
  {
    var from, to := SliceIndex(start, |s|), SliceIndex(end, |s|);
    if from < to then s[from..to] else []
  }

  /** What `slice` promises: indices within the array select that run, a
      negative index counts back from the end, an index past the end stands
      for the end, and an end not after the start gives nothing. */
  lemma JsSliceSpec<T>(s: seq<T>, start: int, end: int)
    ensures 0 <= start <= end <= |s| ==> JsSlice(s, start, end) == s[start..end]
    ensures -|s| <= start < 0 ==> JsSlice(s, start, end) == JsSlice(s, |s| + start, end)
    ensures -|s| <= end < 0 ==> JsSlice(s, start, end) == JsSlice(s, start, |s| + end)
    ensures end >= |s| ==> JsSlice(s, start, end) == JsSlice(s, start, |s|)
    ensures start >= |s| ==> JsSlice(s, start, end) == []
    ensures 0 <= end <= start ==> JsSlice(s, start, end) == []
    ensures |JsSlice(s, start, end)| ==
      if SliceIndex(start, |s|) < SliceIndex(end, |s|) then SliceIndex(end, |s|) - SliceIndex(start, |s|) else 0
  {
  }

  /** The window of k items from `start` on: `slice(start, start + k)`. */
  function Window<T>(items: seq<T>, start: int, k: int): seq<T>
  {
    JsSlice(items, start, start + k)
  }

  /** `visibleFeedback` for a page (lines 18-19). */
  function Visible<T>(items: seq<T>, page: int, k: int): seq<T>
  {
    Window(items, (page - 1) * k, k)
  }

  /** A window that starts inside the list runs to its own end or to the end
      of the list, whichever comes first, and holds 1 to k items. */
  lemma WindowFrom<T>(items: seq<T>, start: int, k: int)
    requires k >= 1 && 0 <= start < |items|
    ensures var end := if start + k < |items| then start + k else |items|;
      Window(items, start, k) == items[start..end]
    ensures 1 <= |Window(items, start, k)| <= k
  {
  }

  /** A window that starts at or after the end of the list is empty. */
  lemma WindowPast<T>(items: seq<T>, start: int, k: int)
    requires start >= |items|
    ensures Window(items, start, k) == []
  {
  }

  /** Every page from the first to the last is a non-empty run of at most k
      consecutive items, starting at item (page - 1) * k. */
  lemma VisiblePage<T>(items: seq<T>, page: int, k: int)
    requires k >= 1 && 1 <= page <= TotalPages(|items|, k)
    ensures (page - 1) * k < |items|
    ensures var start := (page - 1) * k;
      var end := if start + k < |items| then start + k else |items|;
      Visible(items, page, k) == items[start..end]
    ensures 1 <= |Visible(items, page, k)| <= k
  {
    var start := (page - 1) * k;
    MulMonotone(page - 1, TotalPages(|items|, k) - 1, k);
    MulMonotone(0, page - 1, k);
    WindowFrom(items, start, k);
  }

  /** A page after the last one is empty. */
  lemma PastLastPageEmpty<T>(items: seq<T>, page: int, k: int)
    requires k >= 1 && page > TotalPages(|items|, k)
    ensures Visible(items, page, k) == []
  {
    MulMonotone(TotalPages(|items|, k), page - 1, k);
    WindowPast(items, (page - 1) * k, k);
  }

  /** Multiplication by a non-negative factor keeps order. */
  lemma MulMonotone(x: int, y: int, k: int)
    requires x <= y && k >= 0
    ensures x * k <= y * k
  {
    assert y * k - x * k == (y - x) * k;
  }

  /** More items never need fewer pages. */
  lemma TotalPagesMonotone(a: nat, b: nat, k: int)
    requires k >= 1 && a <= b
    ensures TotalPages(a, k) <= TotalPages(b, k)
  {
    var ta, tb := TotalPages(a, k), TotalPages(b, k);
    if tb < ta {
      MulMonotone(tb, ta - 1, k);
    }
  }

  /** Euclidean division by a positive divisor. */
  lemma DivMod(i: int, k: int)
    requires k >= 1
    ensures i == (i / k) * k + i % k && 0 <= i % k < k
    ensures i >= 0 ==> i / k >= 0
  {
  }

  /** Item i = p * k + q, for q below k, lies on an existing page. */
  lemma ItemOnSomePage(n: nat, k: int, i: int, p: int, q: int)
    requires k >= 1 && 0 <= i < n && 0 <= p && 0 <= q < k && i == p * k + q
    ensures p < TotalPages(n, k)
  {
    var t := TotalPages(n, k);
    if p >= t {
      MulMonotone(t, p, k);
      assert false;
    }
  }

  /** Position q of a window that starts inside the list holds item start + q. */
  lemma WindowAt<T>(items: seq<T>, start: int, k: int, q: int)
    requires 0 <= start && 0 <= q < k && start + q < |items|
    ensures q < |Window(items, start, k)| && Window(items, start, k)[q] == items[start + q]
  {
  }

  /** Item p * k + q, for q below k, is shown at position q of page p + 1. */
  lemma PagePosition<T>(items: seq<T>, k: int, i: int, p: int, q: int)
    requires k >= 1 && 0 <= p && 0 <= q < k && i == p * k + q && i < |items|
    ensures q < |Visible(items, p + 1, k)|
    ensures Visible(items, p + 1, k)[q] == items[i]
  {
    var start := p * k;
    MulMonotone(0, p, k);
    assert (p + 1 - 1) * k == start;
    WindowAt(items, start, k, q);
  }

  /** Item i = p * k + q, for q below k, is shown at position q of page p + 1. */
  lemma ItemPageAt<T>(items: seq<T>, k: int, i: int, p: int, q: int)
    requires k >= 1 && 0 <= i < |items|
    requires 0 <= p && 0 <= q < k && i == p * k + q
    ensures 1 <= p + 1 <= TotalPages(|items|, k)
    ensures q < |Visible(items, p + 1, k)|
    ensures Visible(items, p + 1, k)[q] == items[i]
  {
    ItemOnSomePage(|items|, k, i, p, q);
    PagePosition(items, k, i, p, q);
  }

  /** Item i is shown at position i % k of page i / k + 1. */
  lemma ItemPage<T>(items: seq<T>, k: int, i: int)
    requires k >= 1 && 0 <= i < |items|
    ensures 1 <= i / k + 1 <= TotalPages(|items|, k)
    ensures i % k < |Visible(items, i / k + 1, k)|
    ensures Visible(items, i / k + 1, k)[i % k] == items[i]
  {
    DivMod(i, k);
    ItemPageAt(items, k, i, i / k, i % k);
  }

  /** Pages 1..m, one after the other. */
  function PagesUpTo<T>(items: seq<T>, k: int, m: nat): seq<T>
  {
    if m == 0 then [] else PagesUpTo(items, k, m - 1) + Visible(items, m, k)
  }

  /** The first m pages are the first m * k items (or all of them). */
  lemma {:induction false} PagesUpToPrefix<T>(items: seq<T>, k: int, m: nat)
    requires k >= 1
    ensures PagesUpTo(items, k, m) == items[..if m * k < |items| then m * k else |items|]
  {
    if m > 0 {
      PagesUpToPrefix(items, k, m - 1);
      var start := (m - 1) * k;
      MulMonotone(0, m - 1, k);
      ExtendByWindow(items, start, k);
      assert m * k == start + k;
    }
  }

  /** The items before `start`, followed by the window at `start`, are the
      items before `start + k`. */
  lemma ExtendByWindow<T>(items: seq<T>, start: int, k: int)
    requires k >= 1 && 0 <= start
    ensures var before := if start < |items| then start else |items|;
      var after := if start + k < |items| then start + k else |items|;
      items[..before] + Window(items, start, k) == items[..after]
  {
    if start < |items| {
      var end := if start + k < |items| then start + k else |items|;
      WindowFrom(items, start, k);
      assert items[..start] + items[start..end] == items[..end];
    } else {
      WindowPast(items, start, k);
    }
  }

  /** Read in order, the pages give back the whole list, each item once. */
  lemma PagesCoverList<T>(items: seq<T>, k: int)
    requires k >= 1
    ensures PagesUpTo(items, k, TotalPages(|items|, k)) == items
  {
    PagesUpToPrefix(items, k, TotalPages(|items|, k));
    assert items[..|items|] == items;
  }

  /** The page buttons: the indicator text parts and the disabled flags. */
  datatype Controls = Controls(page: int, totalPages: nat, prevDisabled: bool, nextDisabled: bool)

  /** What the list shows: the empty-list placeholder (lines 35-41), or the
      cards of the current page with the controls when there is more than
      one page (lines 43-83). */
  datatype ListView = Placeholder | Grid(cards: seq<CardView>, controls: Option<Controls>)

  /** A card per item, in order. */
  function RenderCards(items: seq<FeedbackItem>): (cards: seq<CardView>)
    ensures |cards| == |items|
    ensures forall i :: 0 <= i < |items| ==> cards[i] == RenderCard(items[i])
  {
    if items == [] then [] else [RenderCard(items[0])] + RenderCards(items[1..])
  }

  class FeedbackList {
    var items: seq<FeedbackItem>
    const itemsPerPage: int
    var currentPage: int
    /** How many times the window was scrolled to the top. */
    var scrolls: nat

    predicate Valid()
      reads this
    {
      itemsPerPage >= 1 && currentPage >= 1
    }

    function Total(): nat
      reads this
      requires Valid()
    {
      TotalPages(|items|, itemsPerPage)
    }

    /** The current page is one that exists (or the first, for an empty list). */
    predicate PageInRange()
      reads this
      requires Valid()
    {
      currentPage <= Total() || currentPage == 1
    }

    /** Mounting with the first page showing (line 15). */
    constructor(items: seq<FeedbackItem>, itemsPerPage: int)
      requires itemsPerPage >= 1
      ensures Valid() && PageInRange()
      ensures this.items == items && this.itemsPerPage == itemsPerPage
      ensures currentPage == 1 && scrolls == 0
    {
      this.items := items;
      this.itemsPerPage := itemsPerPage;
      currentPage := 1;
      scrolls := 0;
    }

    /** `handleNextPage` (lines 21-26). */
    method HandleNextPage()
      requires Valid()
      modifies this
      ensures Valid() && items == old(items)
      ensures old(currentPage) < Total() ==> currentPage == old(currentPage) + 1 && scrolls == old(scrolls) + 1
      ensures old(currentPage) >= Total() ==> currentPage == old(currentPage) && scrolls == old(scrolls)
      ensures old(PageInRange()) ==> PageInRange()
    {
      if currentPage < TotalPages(|items|, itemsPerPage) {
        currentPage := currentPage + 1;
        scrolls := scrolls + 1;
      }
    }

    /** `handlePrevPage` (lines 28-33). */
    method HandlePrevPage()
      requires Valid()
      modifies this
      ensures Valid() && items == old(items)
      ensures old(currentPage) > 1 ==> currentPage == old(currentPage) - 1 && scrolls == old(scrolls) + 1
      ensures old(currentPage) <= 1 ==> currentPage == old(currentPage) && scrolls == old(scrolls)
      ensures old(PageInRange()) ==> PageInRange()
    {
      if currentPage > 1 {
        currentPage := currentPage - 1;
        scrolls := scrolls + 1;
      }
    }

    /** A new `feedbackItems` prop: the page number is kept. */
    method ReceiveItems(newItems: seq<FeedbackItem>)
      requires Valid()
      modifies this
      ensures Valid() && items == newItems
      ensures currentPage == old(currentPage) && scrolls == old(scrolls)
      ensures old(PageInRange()) && |newItems| >= |old(items)| ==> PageInRange()
    {
      if |newItems| >= |items| {
        TotalPagesMonotone(|items|, |newItems|, itemsPerPage);
      }
      items := newItems;
    }

    /** The rendered list. */
    function Render(): (v: ListView)
      reads this
      requires Valid()
      ensures v.Placeholder? <==> items == []
      ensures v.Grid? ==> v.cards == RenderCards(Visible(items, currentPage, itemsPerPage))
      ensures v.Grid? ==> (v.controls.Some? <==> Total() > 1)
      ensures v.Grid? && v.controls.Some? ==>
        v.controls.value == Controls(currentPage, Total(), currentPage == 1, currentPage == Total())
    {
      if items == [] then Placeholder
      else
        var total := TotalPages(|items|, itemsPerPage);
        Grid(RenderCards(Visible(items, currentPage, itemsPerPage)),
          if total > 1 then Some(Controls(currentPage, total, currentPage == 1, currentPage == total)) else None)
    }

    /** On a page in range the grid is never empty, and the enabled buttons
        are exactly those whose handler changes the page. */
    lemma ControlsMatchHandlers()
      requires Valid() && PageInRange() && items != []
      ensures |Render().cards| >= 1
      ensures Render().controls.Some? ==>
        (!Render().controls.value.nextDisabled <==> currentPage < Total()) &&
        (!Render().controls.value.prevDisabled <==> currentPage > 1)
    {
      VisiblePage(items, currentPage, itemsPerPage);
    }
  }
}
