/** `PagerRecyclerView`: a grid that scrolls page by page. It keeps the current page index
    and page count, derives the item size and the per-page scroll distance from its
    measured size, recomputes the page state when scrolling settles or a relayout is
    requested, and tells its listener the (index, count) pair after every recomputation.
    Framework queries (measured size, span count, orientation, the last completely visible
    position) are parameters; the listener is a log of the pairs it was given, and a page
    scroll is the `ScrollBy` command the view issues. */
module Pager {
  import JavaInt
  import PageMath
  import opened UserList

  datatype Orientation = Horizontal | Vertical

  /** The layout manager handed to `setLayoutManager`; only a grid is accepted. */
  datatype LayoutManager =
    | Grid(orientation: Orientation, spanCount: int)
    | Linear(orientation: Orientation)
    | NoLayoutManager

  datatype ScrollState = Idle | Dragging | Settling

  /** What `setLayoutManager` does: returns, or throws IllegalArgumentException. */
  datatype Outcome = Done | IllegalArgument

  /** One `onPageChange(pageIndex, pageCount)` call. */
  datatype PageChange = PageChange(pageIndex: int, pageCount: int)

  /** One `smoothScrollBy(dx, dy)` request. */
  datatype Scroll = ScrollBy(dx: int, dy: int)

  class PagerRecyclerView {
    var pageIndex: int        // current page, one-based
    var pageCount: int        // total pages
    var spanRow: int          // rows in one page
    var spanColumn: int       // columns in one page
    var onePageSize: int      // items in one page
    var itemCount: int        // the adapter's item count at the last recomputation
    var itemWidth: int        // -1 until measured horizontally
    var itemHeight: int       // -1 until measured vertically
    var scrollDistance: int   // distance of one page scroll
    var orientation: Orientation
    var hasGrid: bool         // a grid layout manager has been set
    var adapter: UserListAdapter?
    var hasListener: bool
    /** The page size that was in force when pageCount was last computed. */
    ghost var countedWith: int
    /** Every pair delivered to the page-change listener, oldest first. */
    ghost var pageChanges: seq<PageChange>

    /** The page state is consistent: the stored page count is the page count of the
        stored item count, under the page size it was computed with. */
    ghost predicate Valid()
      reads this`countedWith, this`itemCount, this`pageIndex, this`pageCount
    {
      && countedWith > 0
      && itemCount >= 0
      && pageIndex >= 1
      && pageCount == PageMath.PageCount(itemCount, countedWith)
    }

    constructor ()
      ensures Valid()
      ensures pageIndex == 1 && pageCount == 1
      ensures spanRow == 3 && spanColumn == 2 && onePageSize == 6
      ensures itemCount == 0 && itemWidth == -1 && itemHeight == -1 && scrollDistance == 0
      ensures orientation == Horizontal && !hasGrid && adapter == null && !hasListener
      ensures pageChanges == []
    {
      pageIndex, pageCount := 1, 1;
      spanRow, spanColumn, onePageSize := 3, 2, 6;
      itemCount := 0;
      itemWidth, itemHeight, scrollDistance := -1, -1, 0;
      orientation := Horizontal;
      hasGrid, adapter, hasListener := false, null, false;
      countedWith := 6;
      pageChanges := [];
    }

    /** `setOnePageSize`: stores the page size without any check; rows, columns and the
        adapter's copy of the page size are left as they were. */
    method SetOnePageSize(size: int)
      modifies this`onePageSize
      ensures onePageSize == size
    {
      onePageSize := size;
    }

    /** `setPageSize`: a positive row and column count sets the grid and the page size to
        their product; anything else changes nothing. */
    method SetPageSize(row: int, column: int)
      modifies this`spanRow, this`spanColumn, this`onePageSize
      ensures row > 0 && column > 0 ==>
        spanRow == row && spanColumn == column && onePageSize == row * column && onePageSize > 0
      ensures !(row > 0 && column > 0) ==> unchanged(this)
    {
      if row > 0 && column > 0 {
        spanRow, spanColumn := row, column;
        onePageSize := row * column;
      }
    }

    /** `setLayoutManager`: anything but a grid is rejected. A grid fixes the orientation;
        its span count becomes the rows (horizontal) or the columns (vertical), and the
        other dimension is the page size divided by it. The page size itself is kept, so a
        page size that is not a multiple of the span count is no longer rows times columns. */
    method SetLayoutManager(layout: LayoutManager) returns (outcome: Outcome)
      requires layout.Grid? ==> layout.spanCount >= 1
      modifies this`hasGrid, this`orientation, this`spanRow, this`spanColumn
      ensures outcome == Done <==> layout.Grid?
      ensures !layout.Grid? ==> unchanged(this)
      ensures layout.Grid? ==> hasGrid && orientation == layout.orientation
      ensures layout.Grid? && layout.orientation == Horizontal ==>
        spanRow == layout.spanCount && spanColumn == JavaInt.Div(onePageSize, layout.spanCount)
      ensures layout.Grid? && layout.orientation == Vertical ==>
        spanRow == JavaInt.Div(onePageSize, layout.spanCount) && spanColumn == layout.spanCount
      ensures layout.Grid? && onePageSize >= 0 ==>
        onePageSize - layout.spanCount < spanRow * spanColumn <= onePageSize
    {
      if !layout.Grid? {
        return IllegalArgument;
      }
      hasGrid := true;
      orientation := layout.orientation;
      var spanCount := layout.spanCount;
      var other := JavaInt.Div(onePageSize, spanCount);
      if orientation == Horizontal {
        spanRow, spanColumn := spanCount, other;
      } else {
        spanRow, spanColumn := other, spanCount;
      }
      if onePageSize >= 0 {
        assert other * spanCount <= onePageSize < other * spanCount + spanCount by {
          assert (other + 1) * spanCount == other * spanCount + spanCount;
        }
      }
      outcome := Done;
    }

    /** `onMeasure`: with a grid set, the available width (horizontal) or height (vertical)
        is split evenly among the columns (rows); one page scroll is that many whole items.
        Without a grid nothing changes. */
    method OnMeasure(availableWidth: int, availableHeight: int)
      requires hasGrid && orientation == Horizontal ==> spanColumn != 0
      requires hasGrid && orientation == Vertical ==> spanRow != 0
      modifies this`itemWidth, this`itemHeight, this`scrollDistance
      ensures !hasGrid ==> unchanged(this)
      ensures hasGrid && orientation == Horizontal ==>
        && itemWidth == PageMath.ItemSize(availableWidth, spanColumn)
        && scrollDistance == PageMath.PageScroll(availableWidth, spanColumn)
        && itemHeight == old(itemHeight)
        && scrollDistance == itemWidth * spanColumn
      ensures hasGrid && orientation == Vertical ==>
        && itemHeight == PageMath.ItemSize(availableHeight, spanRow)
        && scrollDistance == PageMath.PageScroll(availableHeight, spanRow)
        && itemWidth == old(itemWidth)
        && scrollDistance == itemHeight * spanRow
      ensures hasGrid && orientation == Horizontal && availableWidth >= 0 && spanColumn > 0 ==>
        0 <= scrollDistance <= availableWidth < scrollDistance + spanColumn
      ensures hasGrid && orientation == Vertical && availableHeight >= 0 && spanRow > 0 ==>
        0 <= scrollDistance <= availableHeight < scrollDistance + spanRow
    {
      if hasGrid {
        if orientation == Horizontal {
          itemWidth := PageMath.ItemSize(availableWidth, spanColumn);
          scrollDistance := PageMath.PageScroll(availableWidth, spanColumn);
        } else {
          itemHeight := PageMath.ItemSize(availableHeight, spanRow);
          scrollDistance := PageMath.PageScroll(availableHeight, spanRow);
        }
      }
    }

    /** `setAdapter`: stores the adapter, which copies the view's page size when it is
        attached. */
    method SetAdapter(newAdapter: UserListAdapter?)
      modifies this`adapter, newAdapter
      ensures adapter == newAdapter
      ensures newAdapter != null ==>
        newAdapter.onePageSize == onePageSize && newAdapter.dataSet == old(newAdapter.dataSet)
    {
      adapter := newAdapter;
      if newAdapter != null {
        newAdapter.OnAttachedToRecyclerView(onePageSize);
      }
    }

    /** `setOnPageChangeListener`: a listener is present or not. */
    method SetOnPageChangeListener(present: bool)
      modifies this`hasListener
      ensures hasListener == present
    {
      hasListener := present;
    }

    /** The effect of one `pageUpdate`: the page count is recomputed only when the
        adapter's (padded) item count differs from the stored one; with a grid the page
        index becomes the page holding the last completely visible position; the listener,
        if any, receives the resulting pair. */
    twostate predicate PageUpdated(lastCompletelyVisible: int)
      reads this, adapter
    {
      && onePageSize > 0
      && (if adapter != null && adapter.Countable() && old(itemCount) != adapter.ItemCount() then
            itemCount == adapter.ItemCount() && pageCount == PageMath.PageCount(itemCount, onePageSize)
            && countedWith == onePageSize
          else
            itemCount == old(itemCount) && pageCount == old(pageCount) && countedWith == old(countedWith))
      && pageIndex == (if hasGrid then PageMath.PageCount(lastCompletelyVisible + 1, onePageSize)
                       else old(pageIndex))
      && pageChanges == old(pageChanges) + (if hasListener then [PageChange(pageIndex, pageCount)] else [])
    }

    /** `pageUpdate`. Besides PageUpdated, the page index is at least one, and it does not
        exceed the page count when the visible position lies within the stored count and
        that count was paged with the current page size. */
    method PageUpdate(lastCompletelyVisible: int)
      requires Valid() && onePageSize > 0
      requires adapter != null ==> adapter.Countable()
      modifies this`itemCount, this`pageCount, this`pageIndex, this`countedWith, this`pageChanges
      ensures Valid() && PageUpdated(lastCompletelyVisible)
      ensures hasGrid && lastCompletelyVisible >= 0 ==>
        pageIndex == lastCompletelyVisible / onePageSize + 1
      ensures hasGrid && lastCompletelyVisible < 0 ==> pageIndex == 1
      ensures hasGrid && lastCompletelyVisible < itemCount && countedWith == onePageSize ==>
        pageIndex <= pageCount
    {
      if adapter != null {
        var count := adapter.ItemCount();
        if itemCount != count {
          itemCount := count;
          pageCount := PageMath.PageCount(count, onePageSize);
          countedWith := onePageSize;
        }
      }
      if hasGrid {
        pageIndex := PageMath.PageCount(lastCompletelyVisible + 1, onePageSize);
        PageMath.PageIndexOfPosition(lastCompletelyVisible, onePageSize);
        if lastCompletelyVisible < itemCount && countedWith == onePageSize {
          PageMath.PageIndexWithinPageCount(lastCompletelyVisible, itemCount, onePageSize);
        }
      }
      if hasListener {
        pageChanges := pageChanges + [PageChange(pageIndex, pageCount)];
      }
    }

    /** `onScrollStateChanged`: only a settled (idle) scroll updates the page state. */
    method OnScrollStateChanged(state: ScrollState, lastCompletelyVisible: int)
      requires Valid() && onePageSize > 0
      requires adapter != null ==> adapter.Countable()
      modifies this`itemCount, this`pageCount, this`pageIndex, this`countedWith, this`pageChanges
      ensures Valid()
      ensures state == Idle ==> PageUpdated(lastCompletelyVisible)
      ensures state != Idle ==> unchanged(this)
    {
      if state == Idle {
        PageUpdate(lastCompletelyVisible);
      }
    }

    /** `requestLayout`: every relayout request updates the page state. */
    method RequestLayout(lastCompletelyVisible: int)
      requires Valid() && onePageSize > 0
      requires adapter != null ==> adapter.Countable()
      modifies this`itemCount, this`pageCount, this`pageIndex, this`countedWith, this`pageChanges
      ensures Valid() && PageUpdated(lastCompletelyVisible)
    {
      PageUpdate(lastCompletelyVisible);
    }

    /** `isFirstPage`. */
    predicate IsFirstPage(): (first: bool)
      reads this`pageIndex
      ensures first <==> pageIndex == 1
    {
      pageIndex == 1
    }

    /** `isLastPage`. */
    predicate IsLastPage(): (last: bool)
      reads this`pageIndex, this`pageCount
      ensures last <==> pageIndex == pageCount
    {
      pageIndex == pageCount
    }

    /** `getVisibleItemsCount`: zero without an adapter or without real items; otherwise a
        full page, except on the last page, which shows what remains after the full pages
        before it. */
    function VisibleItemsCount(): (visible: int)
      reads this, adapter
      requires onePageSize > 0
      ensures adapter == null || adapter.TrueItemCount() == 0 ==> visible == 0
      ensures adapter != null && adapter.TrueItemCount() > 0 ==> 1 <= visible <= onePageSize
      ensures adapter != null && adapter.TrueItemCount() > 0 && !IsLastPage() ==> visible == onePageSize
      ensures adapter != null && adapter.TrueItemCount() > 0 && IsLastPage() ==>
        var n := adapter.TrueItemCount();
        visible == n - (PageMath.PageCount(n, onePageSize) - 1) * onePageSize
    {
      if adapter != null && adapter.TrueItemCount() > 0 then
        var n := adapter.TrueItemCount();
        PageMath.LastPageRemainder(n, onePageSize);
        var remains := JavaInt.Rem(n - 1, onePageSize) + 1;
        if IsLastPage() then remains else onePageSize
      else 0
    }

    /** `nextPage`: a scroll of one page forward on both axes (only the scroll axis moves). */
    method NextPage() returns (command: Scroll)
      ensures command.dx == command.dy == scrollDistance
    {
      command := ScrollBy(scrollDistance, scrollDistance);
    }

    /** `previousPage`: a scroll of one page back on both axes. */
    method PreviousPage() returns (command: Scroll)
      ensures command.dx == command.dy == -scrollDistance
    {
      command := ScrollBy(-scrollDistance, -scrollDistance);
    }
  }

  /** With the index within the count, the view is on its first and last page at once
      exactly when there is one page. */
  lemma FirstAndLastIffSinglePage(view: PagerRecyclerView)
    requires view.Valid() && view.pageIndex <= view.pageCount
    ensures view.IsFirstPage() && view.IsLastPage() <==> view.pageCount == 1
  {
  }

  /** The wiring of the demo activity: a vertical grid of 2 columns is set while the page
      size is still 6, the adapter is attached (copying 6), and only then is the page size
      set to 3. With, say, 7 users the adapter pads to 12 slots, which the view counts as
      4 pages of 3; scrolled to the end, the view is on page 4, which holds only padding
      slots, yet reports one visible item. */
  method TwoPageSizesScenario(users: seq<User>)
    requires |users| == 7
  {
    var view := new PagerRecyclerView();
    var outcome := view.SetLayoutManager(Grid(Vertical, 2));
    assert view.spanRow == 3 && view.spanColumn == 2;
    var adapter := new UserListAdapter();
    view.SetAdapter(adapter);
    view.SetOnePageSize(3);
    assert adapter.onePageSize == 6 && view.onePageSize == 3;
    adapter.UpdateData(Some(users));
    assert adapter.ItemCount() == 12 by {
      PageMath.MismatchedPageSizes();
    }
    view.RequestLayout(11);
    assert view.pageCount == 4 && view.pageIndex == 4 && view.IsLastPage() by {
      PageMath.MismatchedPageSizes();
    }
    assert view.VisibleItemsCount() == 1;
  }

  /** A page count left stale by a later page-size change: the count is paged with 6 while
      the page size is 6, then the page size becomes 3 and the count is unchanged, so the
      next relayout keeps 2 pages but derives the index with 3, and the index passes the
      count. */
  method StalePageCountScenario(users: seq<User>)
    requires |users| == 7
  {
    var view := new PagerRecyclerView();
    var outcome := view.SetLayoutManager(Grid(Vertical, 2));
    var adapter := new UserListAdapter();
    view.SetAdapter(adapter);
    adapter.UpdateData(Some(users));
    assert adapter.ItemCount() == 12 by {
      PageMath.MismatchedPageSizes();
    }
    view.RequestLayout(5);
    assert view.pageCount == 2 && view.pageIndex == 1 by {
      PageMath.PageCountUnique(12, 6, 2);
    }
    view.SetOnePageSize(3);
    view.RequestLayout(11);
    assert view.pageCount == 2 && view.pageIndex == 4;
    assert view.pageIndex > view.pageCount && !view.IsLastPage();
  }
}
