# Pager grid pagination, modelled in Dafny

This project models the pagination engine of `PagerRecyclerView`, an Android grid that scrolls
page by page, and the padding rules of its adapter `UserListAdapter`:

- **PageMath** (`page_math.dfy`): the pure arithmetic of `PagerRecyclerView.java`. It covers
  `calculatePageCount` (ceiling division with a floor of one page),
  `PagerAdapter.getVirtualItemCount` (padding a count to whole pages), the last-page remainder
  of `getVisibleItemsCount`, the item size and page scroll of `onMeasure`, and the child size
  formula of `onChildAttachedToWindow`.
- **JavaInt** (`java_int.dfy`): Java's `int` division and remainder, which truncate toward
  zero. The source's operands can be negative (a negative unvalidated page size, a negative
  position, an available extent below zero), so the model uses these and not Dafny's
  Euclidean `/` and `%`.
- **UserList** (`user_list_adapter.dfy`): the adapter as a class. Its fields are the adapter's
  own copy of the page size (`PagerAdapter.onePageSize`, 1 until attached) and the data set
  (`None` is a null list). It has the padded item count, the true item count, the per-slot
  view type, `updateData`, and the real-versus-padding guard of `onBindViewHolder`.
- **Pager** (`pager_recycler_view.dfy`): the view as a class holding the source's integer
  fields. Its setters, `onMeasure`, `pageUpdate` and its two triggers (scroll idle and
  `requestLayout`) change those fields.
  - Framework queries are parameters: the available width and height, the grid's span count
    and orientation, and the last completely visible position.
  - The page-change listener is a ghost log `pageChanges` of the `(pageIndex, pageCount)`
    pairs it receives.
  - `nextPage` and `previousPage` return the `ScrollBy(dx, dy)` command they issue.

`Valid()` is the view's invariant. It says the stored page count is the page count of the
stored item count, under the page size in force when it was computed (the ghost field
`countedWith`). The index is at least one.

The model keeps the source's quirks:

- There are two page sizes. The adapter copies the view's page size once, on attachment.
  `TwoPageSizesScenario` replays the demo activity's order of calls with, say, 7 users:
  they are padded to 12 slots with the adapter's page size of 6. The view counts them as 4
  pages of 3, and the last of those pages holds only padding (`PageMath.MismatchedPageSizes`).
- The padded count, not the true count, feeds the page count. `PaddingKeepsPageCount` shows
  this is harmless when both page sizes agree. Different sizes can add pages
  (`MismatchedPageSizes`: 7 items padded with 6 and paged with 3 give 4 pages, not 3),
  though they do not always.
- The page count is recomputed only when the adapter's count changes. A later change of the
  page size leaves it stale. The index is guaranteed to be within the count when the last
  visible position lies within the stored count and that count was paged with the current
  page size (`PageUpdate`'s last ensures); otherwise it may exceed the count.
  `StalePageCountScenario` shows this: 7 users paged with 6 give 2 pages, and after the page
  size becomes 3 the last visible position 11 gives index 4 against the stale count 2.
- `setOnePageSize` validates nothing and leaves the rows and columns alone.

Behaviours of the code a reader might not expect:

- One extra page of items adds one page only for a positive count. At zero both counts are
  one (`PageCountAddPageAtZero`).
- The listener is called on every `pageUpdate`, even when nothing changed.
- The page count is fed the padded count, not the true count.
- `nextPage` before any measurement issues a scroll of 0; nothing is skipped.
- The index is not always within the count, as above.
- The view type is the one-based slot within the page. It does not tell real slots from
  padding slots; only the guard in `onBindViewHolder` does.

## Model

| member | source | states |
|---|---|---|
| JavaInt.Div | app/src/main/java/com/ashwin/android/pagerrecyclerview/PagerRecyclerView.java:81 | Java's `/`: the magnitude of the quotient is the floor of the magnitudes' quotient; for non-negative operands it agrees with Dafny's `/` |
| JavaInt.Rem | app/src/main/java/com/ashwin/android/pagerrecyclerview/PagerRecyclerView.java:82 | Java's `%`: `(a / b) * b + a % b == a`, the remainder takes the dividend's sign and is smaller than the divisor in magnitude |
| PageMath.PageCount | app/src/main/java/com/ashwin/android/pagerrecyclerview/PagerRecyclerView.java:133-140 | never below 1; exactly 1 for a count ≤ 0; otherwise the ceiling of count / page size, `(pages-1)*ps < count <= pages*ps` |
| PageMath.PageCountUnique | app/src/main/java/com/ashwin/android/pagerrecyclerview/PagerRecyclerView.java:133-140 | those ceiling bounds determine the page count uniquely |
| PageMath.PageCountAddPage | app/src/main/java/com/ashwin/android/pagerrecyclerview/PagerRecyclerView.java:133-140 | for count ≥ 1, one more page of items is exactly one more page |
| PageMath.PageCountAddPageAtZero | app/src/main/java/com/ashwin/android/pagerrecyclerview/PagerRecyclerView.java:134 | at count 0 adding a page leaves the count at 1, which is why the previous row excludes 0 |
| PageMath.PageCountFillsPages | app/src/main/java/com/ashwin/android/pagerrecyclerview/PagerRecyclerView.java:133-140 | for a positive count, the page count equals the pages used when items are laid out one full page at a time (a reference definition by repeated subtraction) |
| PageMath.PageCountMonotone | app/src/main/java/com/ashwin/android/pagerrecyclerview/PagerRecyclerView.java:133-140 | more items never give fewer pages |
| PageMath.PageIndexOfPosition | app/src/main/java/com/ashwin/android/pagerrecyclerview/PagerRecyclerView.java:152-154 | the page index derived from the last completely visible position is the one-based page holding it; no visible position (-1) gives page 1 |
| PageMath.PageIndexWithinPageCount | app/src/main/java/com/ashwin/android/pagerrecyclerview/PagerRecyclerView.java:145-154 | an index derived from a position below the count lies in [1, page count] when both use one page size |
| PageMath.VirtualItemCount | app/src/main/java/com/ashwin/android/pagerrecyclerview/PagerRecyclerView.java:251-254 | for a size ≥ 0: a multiple of the page size, ≥ the size and < size + page size, equal to the size exactly when the size is already a multiple |
| PageMath.VirtualItemCountIdempotent | app/src/main/java/com/ashwin/android/pagerrecyclerview/PagerRecyclerView.java:251-254 | padding twice is padding once |
| PageMath.VirtualItemCountIsWholePages | app/src/main/java/com/ashwin/android/pagerrecyclerview/PagerRecyclerView.java:251-254 | a non-empty list is padded to exactly page count × page size slots |
| PageMath.PaddedFillsPages | app/src/main/java/com/ashwin/android/pagerrecyclerview/PagerRecyclerView.java:251-254 | the padded count is exactly the room of the pages filled one at a time |
| PageMath.PaddingKeepsPageCount | app/src/main/java/com/ashwin/android/pagerrecyclerview/PagerRecyclerView.java:145-147 | paging the padded count gives the same page count as paging the true count, under one page size |
| PageMath.LastPageRemainder | app/src/main/java/com/ashwin/android/pagerrecyclerview/PagerRecyclerView.java:165 | `(n-1) % ps + 1` lies in [1, ps] and equals `n - (pageCount(n)-1) * ps` |
| PageMath.ItemSize | app/src/main/java/com/ashwin/android/pagerrecyclerview/PagerRecyclerView.java:81 | for a non-negative extent, `span` items of this size fit and one more would not |
| PageMath.PageScroll | app/src/main/java/com/ashwin/android/pagerrecyclerview/PagerRecyclerView.java:82 | the page scroll is item size × span; for a non-negative extent it lies in [0, extent] and leaves less than `span` pixels |
| PageMath.ChildExtent | app/src/main/java/com/ashwin/android/pagerrecyclerview/PagerRecyclerView.java:216 | the child's size plus its two margins is the item size |
| PageMath.ChildrenFillPage | app/src/main/java/com/ashwin/android/pagerrecyclerview/PagerRecyclerView.java:213-220 | `span` children with their margins exactly cover one page scroll |
| PageMath.WorkedExamples | app/src/main/java/com/ashwin/android/pagerrecyclerview/PagerRecyclerView.java:133-140 | 7 items in pages of 3: 3 pages, 1 on the last; 6 items: 2 full pages, no padding; 0 items: 1 page; 100 px over 3 columns: 33 px items, 99 px scroll; position 5 in pages of 4: page 2 of 3 for 10 items |
| PageMath.MismatchedPageSizes | app/src/main/java/com/ashwin/android/pagerrecyclerview/PagerRecyclerView.java:145-147 | padding with 6 and paging with 3 turns 7 items into 4 pages instead of 3 |
| UserList.UserListAdapter.constructor | app/src/main/java/com/ashwin/android/pagerrecyclerview/PagerRecyclerView.java:223-224 | a new adapter has page size 1 and an empty list |
| UserList.UserListAdapter.OnAttachedToRecyclerView | app/src/main/java/com/ashwin/android/pagerrecyclerview/PagerRecyclerView.java:245-249 | attaching copies the view's page size and nothing else |
| UserList.UserListAdapter.TrueItemCount | app/src/main/java/com/ashwin/android/pagerrecyclerview/UserListAdapter.java:71-73 | the list's length, 0 for a null list |
| UserList.UserListAdapter.ItemCount | app/src/main/java/com/ashwin/android/pagerrecyclerview/UserListAdapter.java:55-57 | at least the true count, zero exactly when it is, and for a list a multiple of the adapter's page size less than one page above the true count |
| UserList.UserListAdapter.ItemViewType | app/src/main/java/com/ashwin/android/pagerrecyclerview/UserListAdapter.java:60-62 | in [1, page size] for a position ≥ 0 (in [2 - page size, 1] for a negative one, by Java's remainder) |
| UserList.UserListAdapter.UpdateData | app/src/main/java/com/ashwin/android/pagerrecyclerview/UserListAdapter.java:65-68 | the list is replaced wholesale, so the true count becomes the new list's length |
| UserList.UserListAdapter.OnBindViewHolder | app/src/main/java/com/ashwin/android/pagerrecyclerview/UserListAdapter.java:47-52 | a position below the list length binds that user and position; a padding slot leaves the holder unchanged |
| UserList.ItemViewTypePeriodic | app/src/main/java/com/ashwin/android/pagerrecyclerview/UserListAdapter.java:60-62 | positions ≥ 0 one page apart have the same view type |
| UserList.ItemViewTypeIsSlotInPage | app/src/main/java/com/ashwin/android/pagerrecyclerview/UserListAdapter.java:60-62 | the view type of a position is its one-based slot within the page holding it |
| UserList.PaddingSlotsOnLastPage | app/src/main/java/com/ashwin/android/pagerrecyclerview/UserListAdapter.java:47-57 | every slot between the true and the padded count lies on the last real page, so under the adapter's page size padding never fills a page by itself |
| Pager.PagerRecyclerView.constructor | app/src/main/java/com/ashwin/android/pagerrecyclerview/PagerRecyclerView.java:23-35 | page 1 of 1, 3 rows × 2 columns, page size 6, no items, unmeasured (-1) item size, scroll 0, horizontal, no grid, adapter or listener; the invariant holds |
| Pager.PagerRecyclerView.SetOnePageSize | app/src/main/java/com/ashwin/android/pagerrecyclerview/PagerRecyclerView.java:41-43 | sets the page size unchecked and changes no other field (not the rows, columns or adapter) |
| Pager.PagerRecyclerView.SetPageSize | app/src/main/java/com/ashwin/android/pagerrecyclerview/PagerRecyclerView.java:49-61 | positive row and column: rows, columns and page size = row × column (> 0); otherwise nothing changes |
| Pager.PagerRecyclerView.SetLayoutManager | app/src/main/java/com/ashwin/android/pagerrecyclerview/PagerRecyclerView.java:93-110 | non-grid: IllegalArgument and no change; grid: orientation set, span count is rows (horizontal) or columns (vertical), the other is page size / span count, page size unchanged, rows × columns within one span below the page size |
| Pager.PagerRecyclerView.OnMeasure | app/src/main/java/com/ashwin/android/pagerrecyclerview/PagerRecyclerView.java:76-90 | only with a grid; along the scroll axis the item size is extent / span and the page scroll is item size × span, within [0, extent] and less than one span short of it; the other axis's item size is untouched |
| Pager.PagerRecyclerView.SetAdapter | app/src/main/java/com/ashwin/android/pagerrecyclerview/PagerRecyclerView.java:112-116 | stores the adapter, which takes the view's current page size and keeps its list |
| Pager.PagerRecyclerView.SetOnPageChangeListener | app/src/main/java/com/ashwin/android/pagerrecyclerview/PagerRecyclerView.java:204-206 | records whether a listener is present |
| Pager.PagerRecyclerView.PageUpdate | app/src/main/java/com/ashwin/android/pagerrecyclerview/PagerRecyclerView.java:142-160 | keeps the invariant; recomputes count and page count only when the adapter's padded count changed; with a grid the index is the page holding the last visible position (1 if none); the listener gets the pair on every call; index ≤ count when the position is within the stored count paged with the current size |
| Pager.PagerRecyclerView.OnScrollStateChanged | app/src/main/java/com/ashwin/android/pagerrecyclerview/PagerRecyclerView.java:118-124 | an idle scroll state runs the page update; any other state changes nothing |
| Pager.PagerRecyclerView.RequestLayout | app/src/main/java/com/ashwin/android/pagerrecyclerview/PagerRecyclerView.java:126-130 | every relayout request runs the page update |
| Pager.PagerRecyclerView.IsFirstPage | app/src/main/java/com/ashwin/android/pagerrecyclerview/PagerRecyclerView.java:200-202 | the view is on its first page exactly when the index is 1 |
| Pager.PagerRecyclerView.IsLastPage | app/src/main/java/com/ashwin/android/pagerrecyclerview/PagerRecyclerView.java:196-198 | the view is on its last page exactly when the index equals the stored page count |
| Pager.PagerRecyclerView.VisibleItemsCount | app/src/main/java/com/ashwin/android/pagerrecyclerview/PagerRecyclerView.java:162-170 | 0 without adapter or items; otherwise in [1, page size]: a full page off the last page, and on the last page the true count less the full pages before it |
| Pager.PagerRecyclerView.NextPage | app/src/main/java/com/ashwin/android/pagerrecyclerview/PagerRecyclerView.java:188-190 | the scroll command moves one page scroll distance forward on both axes |
| Pager.PagerRecyclerView.PreviousPage | app/src/main/java/com/ashwin/android/pagerrecyclerview/PagerRecyclerView.java:192-194 | the scroll command moves one page scroll distance back on both axes |
| Pager.FirstAndLastIffSinglePage | app/src/main/java/com/ashwin/android/pagerrecyclerview/PagerRecyclerView.java:196-202 | with the index within the count, first and last page at once exactly when there is one page |

## Left out

- Android plumbing is not modelled: `super.*` calls, `Log` calls, view inflation, view holders' text views, click listeners (`onViewAttachedToWindow`, `onViewDetachedFromWindow`, `onClick`, `onCreateViewHolder`, `UserViewHolder.bind`) and the demo activity's buttons.
- Framework queries are parameters, because they come from code outside this model: `getMeasuredWidth`/`getMeasuredHeight` less padding (`getAvailableWidth`, `getAvailableHeight`), `getSpanCount`, `getOrientation`, `findLastCompletelyVisibleItemPosition`.
- `smoothScrollBy` becomes the returned `ScrollBy` command. The scroll animation, fling and clamping belong to the framework.
- Page-change listener calls become entries in a ghost log. The listener's own behaviour is outside the model.
- Calls of `requestLayout` made by the framework itself are not modelled; the host calls `RequestLayout`. These come from inside `super.setAdapter`, `super.setLayoutManager` and `notifyDataSetChanged`.
- Only `UserListAdapter` is modelled as an adapter. The "adapter is not a PagerAdapter" case of `getVisibleItemsCount` coincides with the null adapter. An adapter attached to a plain `RecyclerView` is not modelled.
- `onChildAttachedToWindow` keeps only its size formula (`ChildExtent`). The mutation of the child's layout parameters and the null dereference without a grid are not modelled.
- `getOnePageSize`, `canScrollHorizontally` and `canScrollVertically` are field reads; the model reads the fields directly.
- The list passed to `updateData` is a value. Later mutation of the same Java list through another reference is not modelled.
- Pager.PagerRecyclerView.SetPageSize: does not model 32-bit wrap-around of `row * column`; integers are unbounded, so a product above 2^31 - 1 stays positive here.
- PageMath.VirtualItemCount: does not model 32-bit wrap-around of the padded sum near the largest `int`.
- Pager.PagerRecyclerView.PageUpdate: requires a positive page size. With page size 0 the source throws ArithmeticException once it divides, and a negative page size gives negative counts; neither is modelled.
- Pager.PagerRecyclerView.OnScrollStateChanged: requires a positive page size, as PageUpdate does.
- Pager.PagerRecyclerView.RequestLayout: requires a positive page size, as PageUpdate does.
- Pager.PagerRecyclerView.VisibleItemsCount: requires a positive page size. The source divides by it only when there are items. With page size 0 it throws ArithmeticException, and a negative page size (which `setOnePageSize` does not reject) gives values the model does not cover.
- UserList.UserListAdapter.ItemCount: requires a positive adapter page size for a non-null list. With page size 0 the source throws ArithmeticException; a negative page size, copied unchecked from the view on attachment, gives a count that can fall below the true count (7 users with page size -3 give 3). Neither case is modelled.
- UserList.UserListAdapter.ItemViewType: requires a positive adapter page size. With page size 0 the source throws ArithmeticException, and a negative page size gives view types outside [1, page size]; neither case is modelled.
- Pager.PagerRecyclerView.OnMeasure: requires a non-zero span on the scroll axis. `setLayoutManager` can leave a zero span, and the source would then throw ArithmeticException while measuring; that path is not modelled.
- Pager.PagerRecyclerView.SetLayoutManager: requires a span count ≥ 1, which `GridLayoutManager` itself enforces.
