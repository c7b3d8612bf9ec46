/** The pager's adapter: `PagerRecyclerView.PagerAdapter` (its page size and the padding
    of the item count) together with the concrete `UserListAdapter`, which reports the
    padded count, a per-slot view type, and binds only the slots that hold a real user. */
module UserList {
  import JavaInt
  import PageMath

  datatype Option<T> = None | Some(value: T)

  /** A user as the list shows it (User.java is not part of this model; only the three
      values a row displays are kept). */
  datatype User = User(id: int, name: string, email: string)

  /** What a view holder shows after it has been bound: a user and the position it came
      from (the position is stored as the row's tag for click handling). */
  datatype Binding = Binding(user: User, position: int)

  /** A row's view holder; only whether and with what it was bound is modelled. */
  class UserViewHolder {
    var bound: Option<Binding>

    constructor ()
      ensures bound == None
    {
      bound := None;
    }
  }

  class UserListAdapter {
    /** `PagerAdapter.onePageSize`: the adapter's own copy of the page size, 1 until the
        adapter is attached to a pager view. */
    var onePageSize: int
    /** `mDataSet`: `None` stands for a null list. */
    var dataSet: Option<seq<User>>

    constructor ()
      ensures onePageSize == 1 && dataSet == Some([])
    {
      onePageSize := 1;
      dataSet := Some([]);
    }

    /** The item count can be computed without dividing by zero. */
    predicate Countable()
      reads this
    {
      dataSet.None? || onePageSize > 0
    }

    /** `onAttachedToRecyclerView`: copies the pager view's page size, once. A later change
        of the view's page size does not reach the adapter. */
    method OnAttachedToRecyclerView(viewPageSize: int)
      modifies this`onePageSize
      ensures onePageSize == viewPageSize
    {
      onePageSize := viewPageSize;
    }

    /** `getTrueItemCount`: the number of real users, zero for a null list. */
    function TrueItemCount(): (n: nat)
      reads this
      ensures dataSet.None? ==> n == 0
      ensures dataSet.Some? ==> n == |dataSet.value|
    {
      if dataSet.None? then 0 else |dataSet.value|
    }

    /** `getItemCount`: the true count padded to whole pages of the adapter's page size. */
    function ItemCount(): (n: nat)
      reads this
      requires Countable()
      ensures n >= TrueItemCount()
      ensures n == 0 <==> TrueItemCount() == 0
      ensures dataSet.Some? ==> n % onePageSize == 0 && n < TrueItemCount() + onePageSize
    {
      if dataSet.None? then 0
      else
        PageMath.VirtualItemCount(|dataSet.value|, onePageSize)
    }

    /** `getItemViewType`: `position % onePageSize + 1` with Java's remainder. For a real
        position it is a slot number in [1, onePageSize]. */
    function ItemViewType(position: int): (viewType: int)
      reads this
      requires onePageSize > 0
      ensures position >= 0 ==> 1 <= viewType <= onePageSize
      ensures position < 0 ==> 2 - onePageSize <= viewType <= 1
    {
      JavaInt.Rem(position, onePageSize) + 1
    }

    /** `updateData`: replaces the list wholesale; the page size is kept. */
    method UpdateData(users: Option<seq<User>>)
      modifies this`dataSet
      ensures dataSet == users
      ensures TrueItemCount() == if users.Some? then |users.value| else 0
    {
      dataSet := users;
    }

    /** `onBindViewHolder`: a position that holds a user binds that user; a padding slot
        leaves the holder as it was. The source dereferences the list, so it is non-null. */
    method OnBindViewHolder(holder: UserViewHolder, position: nat)
      requires dataSet.Some?
      modifies holder
      ensures position < |dataSet.value| ==> holder.bound == Some(Binding(dataSet.value[position], position))
      ensures position >= |dataSet.value| ==> holder.bound == old(holder.bound)
    {
      var users := dataSet.value;
      if |users| > position {
        holder.bound := Some(Binding(users[position], position));
      }
    }
  }

  /** Positions a page apart get the same view type. */
  lemma ItemViewTypePeriodic(adapter: UserListAdapter, position: int)
    requires adapter.onePageSize > 0 && position >= 0
    ensures adapter.ItemViewType(position + adapter.onePageSize) == adapter.ItemViewType(position)
  {
    var ps := adapter.onePageSize;
    var q := position / ps;
    assert position == q * ps + position % ps;
    assert position + ps == (q + 1) * ps + position % ps;
    ModOfShifted(q + 1, ps, position % ps);
  }

  lemma ModOfShifted(k: int, pageSize: int, r: int)
    requires pageSize > 0 && 0 <= r < pageSize
    ensures (k * pageSize + r) % pageSize == r
  {
    var m := k * pageSize + r;
    var d := k - m / pageSize;
    assert m == (m / pageSize) * pageSize + m % pageSize;
    assert d * pageSize == m % pageSize - r by {
      assert d * pageSize == k * pageSize - (m / pageSize) * pageSize;
    }
    PageMath.MulCancelLess(d, 1, pageSize);
    PageMath.MulCancelLess(-1, d, pageSize);
  }

  /** The view type of a real position is its one-based slot within the page that holds
      it (pages as numbered by PageMath.PageCount). */
  lemma ItemViewTypeIsSlotInPage(adapter: UserListAdapter, position: int)
    requires adapter.onePageSize > 0 && position >= 0
    ensures adapter.ItemViewType(position)
         == position + 1 - (PageMath.PageCount(position + 1, adapter.onePageSize) - 1) * adapter.onePageSize
  {
    var ps := adapter.onePageSize;
    PageMath.PageIndexOfPosition(position, ps);
    assert position == (position / ps) * ps + position % ps;
  }

  /** Every slot the adapter reports but holds no user for lies on the page that holds the
      last real user: padding never fills a page of its own (under the adapter's page size). */
  lemma PaddingSlotsOnLastPage(adapter: UserListAdapter, position: int)
    requires adapter.dataSet.Some? && adapter.onePageSize > 0
    requires adapter.TrueItemCount() <= position < adapter.ItemCount()
    ensures adapter.TrueItemCount() > 0
    ensures PageMath.PageCount(position + 1, adapter.onePageSize)
         == PageMath.PageCount(adapter.TrueItemCount(), adapter.onePageSize)
  {
    var ps, n := adapter.onePageSize, adapter.TrueItemCount();
    var p := PageMath.PageCount(n, ps);
    PageMath.VirtualItemCountIsWholePages(n, ps);
    assert adapter.ItemCount() == p * ps;
    assert (p - 1) * ps == p * ps - ps;
    PageMath.PageCountUnique(position + 1, ps, p);
  }
}
