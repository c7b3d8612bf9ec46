/** The pure arithmetic of the pager: how many pages a count of items fills, which page a
    position lies on, how far the last page is padded, how many items the last page shows,
    and the per-item size and per-page scroll distance derived from a measured extent. */
module PageMath {
  import JavaInt

  /** `calculatePageCount`: the number of pages needed for `count` items, never less than
      one. A non-positive count is an empty first page; otherwise the count is rounded up
      to whole pages. */
  function PageCount(count: int, pageSize: int): (pages: int)
    requires pageSize > 0
    ensures pages >= 1
    ensures count <= 0 ==> pages == 1
    ensures count > 0 ==> (pages - 1) * pageSize < count <= pages * pageSize
  {
    if count <= 0 then 1
    else
      var whole := JavaInt.Div(count, pageSize);
      var rest := JavaInt.Rem(count, pageSize);
      assert count == whole * pageSize + rest;
      assert (whole + 1) * pageSize == whole * pageSize + pageSize;
      assert (whole - 1) * pageSize == whole * pageSize - pageSize;
      if rest > 0 then whole + 1 else whole
  }

  /** The bounds in PageCount's contract pin the page count down uniquely. */
  lemma PageCountUnique(count: int, pageSize: int, pages: int)
    requires pageSize > 0 && count > 0
    requires (pages - 1) * pageSize < count <= pages * pageSize
    ensures PageCount(count, pageSize) == pages
  {
    var p := PageCount(count, pageSize);
    MulCancelLess(p - 1, pages, pageSize);
    MulCancelLess(pages - 1, p, pageSize);
  }

  lemma MulCancelLess(x: int, y: int, c: int)
    requires c > 0 && x * c < y * c
    ensures x < y
  {
  }

  /** Adding one full page of items adds exactly one page, for a positive count. At a count
      of zero both sides are one, so zero is excluded. */
  lemma {:induction false} PageCountAddPage(count: int, pageSize: int)
    requires pageSize > 0 && count >= 1
    ensures PageCount(count + pageSize, pageSize) == PageCount(count, pageSize) + 1
  {
    var p := PageCount(count, pageSize);
    assert (p + 1 - 1) * pageSize == p * pageSize;
    assert (p + 1) * pageSize == p * pageSize + pageSize;
    assert (p - 1) * pageSize == p * pageSize - pageSize;
    PageCountUnique(count + pageSize, pageSize, p + 1);
  }

  /** An empty list and a list of exactly one page both give one page. */
  lemma PageCountAddPageAtZero(pageSize: int)
    requires pageSize > 0
    ensures PageCount(0 + pageSize, pageSize) == PageCount(0, pageSize) == 1
  {
    PageCountUnique(pageSize, pageSize, 1);
  }

  /** More items never need fewer pages. */
  lemma PageCountMonotone(a: int, b: int, pageSize: int)
    requires pageSize > 0 && a <= b
    ensures PageCount(a, pageSize) <= PageCount(b, pageSize)
  {
    if a > 0 {
      var pa, pb := PageCount(a, pageSize), PageCount(b, pageSize);
      MulCancelLess(pa - 1, pb, pageSize);
    }
  }

  /** The page index derived from the last completely visible position (zero-based) is the
      one-based number of the page holding that position; no visible position gives page 1. */
  lemma PageIndexOfPosition(position: int, pageSize: int)
    requires pageSize > 0
    ensures position >= 0 ==> PageCount(position + 1, pageSize) == position / pageSize + 1
    ensures position < 0 ==> PageCount(position + 1, pageSize) == 1
  {
    if position >= 0 {
      var q := position / pageSize;
      assert position == q * pageSize + position % pageSize;
      assert (q + 1) * pageSize == q * pageSize + pageSize;
      assert (q + 1 - 1) * pageSize == q * pageSize;
      PageCountUnique(position + 1, pageSize, q + 1);
    }
  }

  /** A page index derived from a position inside the list never exceeds the page count
      of the list, when both use the same page size. */
  lemma PageIndexWithinPageCount(position: int, count: int, pageSize: int)
    requires pageSize > 0 && position < count
    ensures 1 <= PageCount(position + 1, pageSize) <= PageCount(count, pageSize)
  {
    PageCountMonotone(position + 1, count, pageSize);
  }

  /** Reference definition, independent of division: the number of pages used when
      `count` items are laid out one full page at a time. */
  function PagesFilled(count: int, pageSize: int): nat
    requires pageSize > 0
    decreases count
  {
    if count <= 0 then 0 else 1 + PagesFilled(count - pageSize, pageSize)
  }

  /** For a positive count, `calculatePageCount` is the number of pages filled one at a
      time. */
  lemma {:induction false} PageCountFillsPages(count: int, pageSize: int)
    requires pageSize > 0 && count > 0
    ensures PageCount(count, pageSize) == PagesFilled(count, pageSize)
  {
    if count <= pageSize {
      PageCountUnique(count, pageSize, 1);
    } else {
      PageCountFillsPages(count - pageSize, pageSize);
      PageCountAddPage(count - pageSize, pageSize);
    }
  }

  /** `PagerAdapter.getVirtualItemCount`: a data size padded up to the next multiple of the
      page size (a negative size, which no list has, comes back unchanged). */
  function VirtualItemCount(dataSize: int, pageSize: int): (padded: int)
    requires pageSize > 0
    ensures dataSize >= 0 ==> padded % pageSize == 0
    ensures dataSize >= 0 ==> dataSize <= padded < dataSize + pageSize
    ensures dataSize >= 0 ==> (padded == dataSize <==> dataSize % pageSize == 0)
    ensures dataSize < 0 ==> padded == dataSize
  {
    var remains := JavaInt.Rem(dataSize, pageSize);
    if remains > 0 then
      RoundedUpIsMultiple(dataSize, pageSize);
      dataSize + (pageSize - remains)
    else dataSize
  }

  lemma RoundedUpIsMultiple(dataSize: int, pageSize: int)
    requires pageSize > 0 && dataSize >= 0 && dataSize % pageSize > 0
    ensures (dataSize + (pageSize - dataSize % pageSize)) % pageSize == 0
  {
    var q := dataSize / pageSize;
    assert dataSize == q * pageSize + dataSize % pageSize;
    assert dataSize + (pageSize - dataSize % pageSize) == (q + 1) * pageSize;
    MultipleMod(q + 1, pageSize);
  }

  lemma MultipleMod(k: int, pageSize: int)
    requires pageSize > 0
    ensures (k * pageSize) % pageSize == 0
  {
    var m := k * pageSize;
    var d := k - m / pageSize;
    assert m == (m / pageSize) * pageSize + m % pageSize;
    assert d * pageSize == m % pageSize by {
      assert d * pageSize == k * pageSize - (m / pageSize) * pageSize;
    }
    MulCancelLess(d, 1, pageSize);
    MulCancelLess(-1, d, pageSize);
  }

  /** Padding an already padded count changes nothing. */
  lemma VirtualItemCountIdempotent(dataSize: int, pageSize: int)
    requires pageSize > 0 && dataSize >= 0
    ensures VirtualItemCount(VirtualItemCount(dataSize, pageSize), pageSize)
         == VirtualItemCount(dataSize, pageSize)
  {
  }

  /** The padded count is exactly as many whole pages as the data needs. */
  lemma VirtualItemCountIsWholePages(dataSize: int, pageSize: int)
    requires pageSize > 0 && dataSize > 0
    ensures VirtualItemCount(dataSize, pageSize) == PageCount(dataSize, pageSize) * pageSize
  {
    var v := VirtualItemCount(dataSize, pageSize);
    var k := v / pageSize;
    assert v == k * pageSize;
    assert (k - 1) * pageSize == k * pageSize - pageSize;
    PageCountUnique(dataSize, pageSize, k);
  }

  /** The padded count is the room taken by the pages filled one at a time. */
  lemma PaddedFillsPages(dataSize: int, pageSize: int)
    requires pageSize > 0 && dataSize >= 0
    ensures VirtualItemCount(dataSize, pageSize) == PagesFilled(dataSize, pageSize) * pageSize
  {
    if dataSize > 0 {
      VirtualItemCountIsWholePages(dataSize, pageSize);
      PageCountFillsPages(dataSize, pageSize);
    }
  }

  /** Padding does not change the number of pages, as long as the padding and the page
      count use the same page size. */
  lemma PaddingKeepsPageCount(dataSize: int, pageSize: int)
    requires pageSize > 0 && dataSize >= 0
    ensures PageCount(VirtualItemCount(dataSize, pageSize), pageSize) == PageCount(dataSize, pageSize)
  {
    if dataSize > 0 {
      var p := PageCount(dataSize, pageSize);
      VirtualItemCountIsWholePages(dataSize, pageSize);
      assert (p - 1) * pageSize == p * pageSize - pageSize;
      PageCountUnique(p * pageSize, pageSize, p);
    }
  }

  /** The number of items on the last page of a non-empty list, `(count - 1) % pageSize + 1`,
      lies in [1, pageSize] and is what remains after the full pages before it. */
  lemma LastPageRemainder(count: int, pageSize: int)
    requires pageSize > 0 && count > 0
    ensures 1 <= JavaInt.Rem(count - 1, pageSize) + 1 <= pageSize
    ensures JavaInt.Rem(count - 1, pageSize) + 1 == count - (PageCount(count, pageSize) - 1) * pageSize
  {
    var q := (count - 1) / pageSize;
    assert count - 1 == q * pageSize + (count - 1) % pageSize;
    PageIndexOfPosition(count - 1, pageSize);
    assert PageCount(count, pageSize) - 1 == q;
  }

  /** The width (or height) of one item when `span` items share `available` pixels:
      `availableWidth / spanColumn` in `onMeasure`. */
  function ItemSize(available: int, span: int): (size: int)
    requires span != 0
    ensures available >= 0 && span > 0 ==> size * span <= available < (size + 1) * span
  {
    JavaInt.Div(available, span)
  }

  /** The distance one page scroll moves: `available - available % span`. It is always a
      whole number of items, and for a non-negative extent it is the largest such distance
      that fits. */
  function PageScroll(available: int, span: int): (distance: int)
    requires span != 0
    ensures distance == ItemSize(available, span) * span
    ensures available >= 0 && span > 0 ==> 0 <= distance <= available < distance + span
  {
    available - JavaInt.Rem(available, span)
  }

  /** The size `onChildAttachedToWindow` forces on a child along the scroll axis: the item
      size less the child's leading and trailing margins. */
  function ChildExtent(itemSize: int, leadingMargin: int, trailingMargin: int): (extent: int)
    ensures extent + leadingMargin + trailingMargin == itemSize
  {
    itemSize - leadingMargin - trailingMargin
  }

  /** `span` children sized by ChildExtent, margins included, exactly cover one page scroll:
      paging never leaves a partial item at the edge. */
  lemma ChildrenFillPage(available: int, span: int, leadingMargin: int, trailingMargin: int)
    requires span != 0
    ensures span * (ChildExtent(ItemSize(available, span), leadingMargin, trailingMargin)
                    + leadingMargin + trailingMargin)
         == PageScroll(available, span)
  {
  }

  /** Worked examples: 7 items in pages of 3 make 3 pages with 1 item on the last; 6 items
      make 2 full pages and need no padding; no items is one page; 100 pixels over 3
      columns gives 33-pixel items and a 99-pixel page scroll; with pages of 4, position 5
      lies on page 2 of the 3 pages of 10 items. */
  lemma WorkedExamples()
    ensures PageCount(7, 3) == 3 && JavaInt.Rem(7 - 1, 3) + 1 == 1
    ensures PageCount(6, 3) == 2 && JavaInt.Rem(6 - 1, 3) + 1 == 3 && VirtualItemCount(6, 3) == 6
    ensures PageCount(0, 5) == 1
    ensures ItemSize(100, 3) == 33 && PageScroll(100, 3) == 99
    ensures PageCount(10, 4) == 3 && PageCount(5 + 1, 4) == 2
  {
  }

  /** When the padding uses a larger page size than the page count (6 against 3), 7 items
      are padded to 12 and counted as 4 pages, the last of which holds no item at all. */
  lemma MismatchedPageSizes()
    ensures VirtualItemCount(7, 6) == 12
    ensures PageCount(VirtualItemCount(7, 6), 3) == 4 && PageCount(7, 3) == 3
  {
  }
}
