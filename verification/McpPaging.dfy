/** Cursor paging: the in-memory server's paginator and the client that follows its cursors. */
module McpPaging {
  import opened Wrappers
  import Decimal

  // ------------------------------------------------------------------ the server

  /** Where a Python slice bound falls in a list of `n` items. */
  function Bound(i: int, n: nat): (r: nat)
    ensures r <= n
  {
    if i < 0 then (if i + n < 0 then 0 else i + n) else if i < n then i else n
  }

  function Slice<T>(xs: seq<T>, start: int, end: int): seq<T> {
    var lo, hi := Bound(start, |xs|), Bound(end, |xs|);
    if lo <= hi then xs[lo..hi] else []
  }

  /** A place from the start of a slice up to its end, which count from the end of the list where they are negative. */
  predicate InSlice(p: nat, start: int, end: int, n: nat) {
    (if start < 0 then start + n else start) <= p && p < if end < 0 then end + n else end
  }

  /** A slice is the stretch of the list at these places. */
  lemma {:induction false} SliceIs<T>(xs: seq<T>, start: int, end: int) returns (lo: nat, hi: nat)
    ensures lo <= hi <= |xs| && Slice(xs, start, end) == xs[lo..hi]
    ensures forall p :: 0 <= p < |xs| ==> (lo <= p < hi <==> InSlice(p, start, end, |xs|))
  {
    lo, hi := Bound(start, |xs|), Bound(end, |xs|);
    if lo > hi {
      hi := lo;
    }
  }

  datatype Page<T> = Page(items: seq<T>, next: Option<string>)

  /** One page; a cursor that is no number is an error. */
  function PaginateItems<T>(items: seq<T>, cursor: string, pageSize: int): Option<Page<T>> {
    match Decimal.Read(cursor)
    case None => None
    case Some(start) =>
      var end := start + pageSize;
      Some(Page(Slice(items, start, end), if end < |items| then Some(Decimal.Show(end)) else None))
  }

  /** A list request: no cursor means the start, and a page size of 0 (or none) means everything. */
  function Paginate<T>(items: seq<T>, cursor: Option<string>, pageSize: int): Option<Page<T>> {
    PaginateItems(items, if cursor.Some? then cursor.value else "0", if pageSize == 0 then |items| else pageSize)
  }

  // ------------------------------------------------------------------ the client

  /** The client sends an empty cursor as no cursor. */
  function ListPage<T>(items: seq<T>, cursor: Option<string>, pageSize: int): Option<Page<T>> {
    Paginate(items, if cursor == Some("") then None else cursor, pageSize)
  }

  datatype Walk<T> = Finished(items: seq<T>) | Unfinished | Rejected

  /** Following cursors for at most `fuel` pages; the server's list at the k-th request is `lists(k)`. */
  function Follow<T>(lists: nat -> seq<T>, pageSize: int, cursor: Option<string>, k: nat, fuel: nat,
      items: seq<T>): Walk<T>
    decreases fuel
  {
    if fuel == 0 then Unfinished
    else
      match ListPage(lists(k), cursor, pageSize)
      case None => Rejected
      case Some(page) =>
        if page.next.None? then Finished(items + page.items)
        else Follow(lists, pageSize, page.next, k + 1, fuel - 1, items + page.items)
  }

  predicate GrowsAt<T(==)>(lists: nat -> seq<T>, k: nat) {
    lists(k) <= lists(k + 1)
  }

  /** The list never loses or moves an item between requests; new items go to its end. */
  ghost predicate Growing<T>(lists: nat -> seq<T>) {
    forall k: nat :: GrowsAt(lists, k)
  }

  /** The cursor that stands for position `start`. */
  ghost predicate CursorAt(cursor: Option<string>, start: int) {
    if cursor.None? then start == 0 else cursor == Some(Decimal.Show(start))
  }

  /** An empty cursor asks for the first page, as none does. */
  lemma {:induction false} EmptyCursor<T>(items: seq<T>, pageSize: int)
    ensures ListPage(items, Some(""), pageSize) == ListPage(items, None, pageSize)
  {}

  lemma {:induction false} ShowNotEmpty(n: int)
    ensures Decimal.Show(n) != ""
  {}

  lemma {:induction false} ReadZero()
    ensures Decimal.Read("0") == Some(0)
  {
    Decimal.ReadShow(0);
    assert Decimal.Show(0) == "0";
  }

  /** What one request at a position returns. */
  lemma {:induction false} PageAt<T>(items: seq<T>, cursor: Option<string>, start: int, pageSize: int)
    requires CursorAt(cursor, start)
    ensures var size := if pageSize == 0 then |items| else pageSize;
            ListPage(items, cursor, pageSize) ==
            Some(Page(Slice(items, start, start + size),
                      if start + size < |items| then Some(Decimal.Show(start + size)) else None))
  {
    ReadZero();
    Decimal.ReadShow(start);
    ShowNotEmpty(start);
  }

  /** The page at a position a walk has reached, and the position it leads to. */
  lemma {:induction false} PageFrom<T>(items: seq<T>, cursor: Option<string>, start: nat, pageSize: nat)
    requires CursorAt(cursor, start) && start <= |items| && (pageSize == 0 ==> start == 0)
    ensures var end := start + if pageSize == 0 then |items| else pageSize;
            ListPage(items, cursor, pageSize) ==
            Some(if end < |items| then Page(items[start..end], Some(Decimal.Show(end))) else Page(items[start..], None))
  {
    PageAt(items, cursor, start, pageSize);
    assert items[start..|items|] == items[start..];
  }

  lemma {:induction false} TakeMore<T>(xs: seq<T>, lo: nat, hi: nat)
    requires lo <= hi <= |xs|
    ensures xs[..lo] + xs[lo..hi] == xs[..hi]
    ensures xs[..lo] + xs[lo..] == xs
  {}

  /** One request of a walk, by position. */
  lemma {:induction false} FollowStep<T>(lists: nat -> seq<T>, pageSize: nat, cursor: Option<string>, start: nat,
      k: nat, fuel: nat)
    requires CursorAt(cursor, start) && start <= |lists(k)| && fuel > 0 && (pageSize == 0 ==> start == 0)
    ensures var list := lists(k);
            var end := start + if pageSize == 0 then |list| else pageSize;
            Follow(lists, pageSize, cursor, k, fuel, list[..start]) ==
            if end < |list| then Follow(lists, pageSize, Some(Decimal.Show(end)), k + 1, fuel - 1, list[..end])
            else Finished(list)
  {
    var list := lists(k);
    var end := start + if pageSize == 0 then |list| else pageSize;
    PageFrom(list, cursor, start, pageSize);
    if end < |list| {
      TakeMore(list, start, end);
      assert list[..start] + ListPage(list, cursor, pageSize).value.items == list[..end];
    } else {
      TakeMore(list, start, |list|);
      assert list[..start] + ListPage(list, cursor, pageSize).value.items == list;
    }
  }

  lemma {:induction false} GrowingTake<T>(lists: nat -> seq<T>, k: nat, end: nat)
    requires Growing(lists) && end <= |lists(k)|
    ensures end <= |lists(k + 1)| && lists(k)[..end] == lists(k + 1)[..end]
  {
    assert GrowsAt(lists, k);
  }

  /** A walk that started at request `k` goes on, or holds exactly the list request `last` saw. */
  predicate EndsAt<T(==)>(walk: Walk<T>, lists: nat -> seq<T>, k: nat, fuel: nat, last: nat) {
    walk.Unfinished? || (k <= last < k + fuel && walk == Finished(lists(last)))
  }

  lemma {:induction false} Earlier<T>(walk: Walk<T>, lists: nat -> seq<T>, k: nat, fuel: nat, last: nat)
    requires fuel > 0 && EndsAt(walk, lists, k + 1, fuel - 1, last)
    ensures EndsAt(walk, lists, k, fuel, last)
  {}

  /** A request that leaves more to come hands its prefix on to the next one. */
  lemma {:induction false} FollowOnce<T>(lists: nat -> seq<T>, pageSize: nat, cursor: Option<string>, start: nat,
      k: nat, fuel: nat, end: nat, last: nat)
    requires CursorAt(cursor, start) && start <= |lists(k)| && fuel > 0 && (pageSize == 0 ==> start == 0)
    requires end == (start + if pageSize == 0 then |lists(k)| else pageSize) < |lists(k)|
    requires end <= |lists(k + 1)| && lists(k)[..end] == lists(k + 1)[..end]
    requires EndsAt(Follow(lists, pageSize, Some(Decimal.Show(end)), k + 1, fuel - 1, lists(k + 1)[..end]),
                    lists, k + 1, fuel - 1, last)
    ensures EndsAt(Follow(lists, pageSize, cursor, k, fuel, lists(k)[..start]), lists, k, fuel, last)
  {
    FollowStep(lists, pageSize, cursor, start, k, fuel);
    Earlier(Follow(lists, pageSize, Some(Decimal.Show(end)), k + 1, fuel - 1, lists(k + 1)[..end]), lists, k, fuel,
        last);
  }

  lemma {:induction false} FollowGrowing<T>(lists: nat -> seq<T>, pageSize: nat, cursor: Option<string>, start: nat,
                                            k: nat, fuel: nat) returns (last: nat)
    requires Growing(lists) && CursorAt(cursor, start) && start <= |lists(k)| && (pageSize == 0 ==> start == 0)
    ensures EndsAt(Follow(lists, pageSize, cursor, k, fuel, lists(k)[..start]), lists, k, fuel, last)
    decreases fuel
  {
    if fuel == 0 {
      last := k;
      return;
    }
    var end := start + if pageSize == 0 then |lists(k)| else pageSize;
    if end < |lists(k)| {
      GrowingTake(lists, k, end);
      last := FollowGrowing(lists, pageSize, Some(Decimal.Show(end)), end, k + 1, fuel - 1);
      FollowOnce(lists, pageSize, cursor, start, k, fuel, end, last);
    } else {
      last := k;
      FollowStep(lists, pageSize, cursor, start, k, fuel);
    }
  }

  /** Whatever is appended between two page requests, a walk that ends returns the list as its last request saw it:
      nothing skipped, nothing twice. */
  lemma {:induction false} CollectedFromGrowingList<T>(lists: nat -> seq<T>, pageSize: nat,
      fuel: nat) returns (last: nat)
    requires Growing(lists)
    ensures EndsAt(Follow(lists, pageSize, None, 0, fuel, []), lists, 0, fuel, last)
  {
    assert lists(0)[..0] == [];
    last := FollowGrowing(lists, pageSize, None, 0, 0, fuel);
  }

  /** A server whose list does not change. */
  function Fixed<T>(list: seq<T>): nat -> seq<T> {
    _ => list
  }

  function Collected<T>(list: seq<T>, pageSize: int, fuel: nat): Walk<T> {
    Follow(Fixed(list), pageSize, None, 0, fuel, [])
  }

  lemma {:induction false} FollowFixed<T>(list: seq<T>, pageSize: nat, cursor: Option<string>, start: nat, k: nat,
      fuel: nat)
    requires CursorAt(cursor, start) && start <= |list| && (pageSize == 0 ==> start == 0) && fuel > |list| - start
    ensures Follow(Fixed(list), pageSize, cursor, k, fuel, list[..start]) == Finished(list)
    decreases fuel
  {
    hide ListPage, Decimal.Show, Decimal.Read;
    FollowStep(Fixed(list), pageSize, cursor, start, k, fuel);
    var end := start + if pageSize == 0 then |list| else pageSize;
    if end < |list| {
      FollowFixed(list, pageSize, Some(Decimal.Show(end)), end, k + 1, fuel - 1);
    }
  }

  lemma {:induction false} NegativeGoesOn<T>(list: seq<T>, pageSize: int, cursor: Option<string>, start: int, k: nat,
      fuel: nat, items: seq<T>)
    requires pageSize < 0 && CursorAt(cursor, start) && start <= 0
    ensures Follow(Fixed(list), pageSize, cursor, k, fuel, items) == Unfinished
    decreases fuel
  {
    if fuel > 0 {
      PageAt(list, cursor, start, pageSize);
      NegativeGoesOn(list, pageSize, Some(Decimal.Show(start + pageSize)), start + pageSize, k + 1, fuel - 1,
                     items + Slice(list, start, start + pageSize));
    }
  }

  ghost predicate Ends<T>(list: seq<T>, pageSize: int) {
    exists fuel: nat :: Collected(list, pageSize, fuel) != Unfinished
  }

  /** Paging ends exactly for page sizes of at least 0, and then returns exactly the server's items in order. */
  lemma {:induction false} PagingEndsIff<T>(list: seq<T>, pageSize: int)
    ensures Ends(list, pageSize) <==> pageSize >= 0
    ensures pageSize >= 0 ==> forall fuel :: fuel > |list| ==> Collected(list, pageSize, fuel) == Finished(list)
  {
    if pageSize >= 0 {
      forall fuel | fuel > |list|
        ensures Collected(list, pageSize, fuel) == Finished(list)
      {
        FollowFixed(list, pageSize, None, 0, 0, fuel);
        assert list[..0] == [];
      }
      assert Collected(list, pageSize, |list| + 1) != Unfinished;
    } else {
      forall fuel: nat
        ensures Collected(list, pageSize, fuel) == Unfinished
      {
        NegativeGoesOn(list, pageSize, None, 0, 0, fuel, []);
      }
    }
  }

  /** The client's loop: ask, keep, follow the cursor until there is none. */
  method CollectAll<T>(server: seq<T>, pageSize: nat) returns (items: seq<T>)
    ensures items == server
  {
    items := [];
    var cursor: Option<string> := None;
    ghost var start := 0;
    var more := true;
    while more
      invariant more ==> CursorAt(cursor, start) && 0 <= start <= |server| && items == server[..start]
      invariant more ==> pageSize == 0 ==> start == 0
      invariant !more ==> items == server
      decreases more, |server| - start
    {
      PageFrom(server, cursor, start, pageSize);
      ghost var end := start + if pageSize == 0 then |server| else pageSize;
      TakeMore(server, start, if end < |server| then end else |server|);
      var page := ListPage(server, cursor, pageSize).value;
      items := items + page.items;
      cursor := page.next;
      more := cursor.Some?;
      start := end;
    }
  }
}
