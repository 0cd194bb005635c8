/**
  Keyset pagination. A page query selects the rows whose key is below the cursor, in descending key order,
  and fetches one row more than the page shows; the key of the last row shown is the next cursor. The key
  is the row id for transactions and `created_at` for links and requests. The other filters pick the rows
  of `list`, which is in the query's order.
*/
module Paging {
  import opened Model

  datatype Row<T> = Row(key: int, body: T)

  const DEFAULT_LIMIT: int := 20
  const MAX_LIMIT: int := 100

  ghost predicate Descending<T>(list: seq<Row<T>>) {
    forall i, j | 0 <= i < j < |list| :: list[j].key <= list[i].key
  }

  ghost predicate StrictlyDescending<T>(list: seq<Row<T>>) {
    forall i, j | 0 <= i < j < |list| :: list[j].key < list[i].key
  }

  /** `WHERE key < c`. */
  function Below<T>(list: seq<Row<T>>, c: int): seq<Row<T>> {
    if list == [] then [] else (if list[0].key < c then [list[0]] else []) + Below(list[1..], c)
  }

  function Query<T>(list: seq<Row<T>>, cursor: Option<int>): seq<Row<T>> {
    match cursor case None => list case Some(c) => Below(list, c)
  }

  function First<T>(list: seq<Row<T>>, n: nat): seq<Row<T>> {
    if |list| <= n then list else list[..n]
  }

  function Distance(a: int, b: int): int { if a < b then b - a else a - b }

  /** The size of a page: twenty, or of the sizes from 1 to 100 the nearest to the one asked for. */
  function Clamp(limit: Option<int>): (size: nat)
    ensures 1 <= size <= 100 && (limit == None ==> size == 20)
    ensures limit.Some? ==> forall m: nat | 1 <= m <= 100 :: Distance(size, limit.value) <= Distance(m, limit.value)
  {
    var n := if limit.Some? then limit.value else DEFAULT_LIMIT;
    if n < 1 then 1 else if n > MAX_LIMIT then MAX_LIMIT else n
  }

  /** `get_transactions` from its fetched rows on; `get_my_links` and `get_requests` end the same way. */
  method GetPage<T>(list: seq<Row<T>>, cursor: Option<int>, limit: Option<int>)
    returns (items: seq<Row<T>>, nextCursor: Option<int>)
    ensures items == First(Query(list, cursor), Clamp(limit))
    ensures nextCursor == if |Query(list, cursor)| > Clamp(limit)
                          then Some(Query(list, cursor)[Clamp(limit) - 1].key) else None
  {
    var size := Clamp(limit);
    var fetchLimit := size + 1;
    var rows := First(Query(list, cursor), fetchLimit);
    items := [];
    var hasMore := |rows| == fetchLimit;
    var takeCount := if hasMore then size else |rows|;
    for k := 0 to takeCount
      invariant items == rows[..k]
    {
      items := items + [rows[k]];
    }
    nextCursor := if hasMore then Some(items[|items| - 1].key) else None;
  }

  // ---------- the walk ----------

  lemma {:induction false} BelowShrinks<T>(list: seq<Row<T>>, c: int)
    ensures |Below(list, c)| <= |list|
    ensures forall i | 0 <= i < |list| && list[i].key >= c :: |Below(list, c)| < |list|
  {
    if list != [] {
      BelowShrinks(list[1..], c);
      forall i | 0 <= i < |list| && list[i].key >= c
        ensures |Below(list, c)| < |list|
      {
        if i > 0 { assert list[1..][i - 1] == list[i]; }
      }
    }
  }

  lemma {:induction false} BelowBelow<T>(list: seq<Row<T>>, c: int, d: int)
    requires d <= c
    ensures Below(Below(list, c), d) == Below(list, d)
  {
    if list != [] {
      BelowBelow(list[1..], c, d);
      if list[0].key < c {
        var kept := Below(list, c);
        assert kept[0] == list[0] && kept[1..] == Below(list[1..], c);
        assert Below(kept, d) == (if kept[0].key < d then [kept[0]] else []) + Below(kept[1..], d);
      } else {
        assert Below(list, c) == Below(list[1..], c) && Below(list, d) == Below(list[1..], d);
      }
    }
  }

  lemma {:induction false} BelowKeys<T>(list: seq<Row<T>>, c: int)
    ensures forall i | 0 <= i < |Below(list, c)| :: Below(list, c)[i].key < c
  {
    if list != [] { BelowKeys(list[1..], c); }
  }

  lemma NextIsSmaller<T>(list: seq<Row<T>>, cursor: Option<int>, size: nat)
    requires 1 <= size < |Query(list, cursor)|
    ensures var c := Query(list, cursor)[size - 1].key;
            Below(list, c) == Below(Query(list, cursor), c) && |Below(list, c)| < |Query(list, cursor)|
  {
    var rest := Query(list, cursor);
    var c := rest[size - 1].key;
    BelowShrinks(rest, c);
    if cursor.Some? {
      BelowKeys(list, cursor.value);
      BelowBelow(list, cursor.value, c);
    }
  }

  /** All the pages from a cursor on, following `next_cursor`. */
  function Walk<T>(list: seq<Row<T>>, cursor: Option<int>, size: nat): seq<Row<T>>
    requires 1 <= size
    decreases |Query(list, cursor)|
  {
    var rest := Query(list, cursor);
    if |rest| <= size then rest
    else
      NextIsSmaller(list, cursor, size);
      rest[..size] + Walk(list, Some(rest[size - 1].key), size)
  }

  lemma {:induction false} BelowSuffix<T>(list: seq<Row<T>>, k: nat)
    requires Descending(list) && 1 <= k <= |list|
    requires k < |list| ==> list[k].key < list[k - 1].key
    ensures Below(list, list[k - 1].key) == list[k..]
  {
    var c := list[k - 1].key;
    if k == 1 {
      AllBelow(list[1..], c);
    } else {
      var tail := list[1..];
      assert tail[k - 2] == list[k - 1];
      BelowSuffix(tail, k - 1);
      assert tail[k - 1..] == list[k..];
    }
  }

  lemma {:induction false} AllBelow<T>(list: seq<Row<T>>, c: int)
    requires forall i | 0 <= i < |list| :: list[i].key < c
    ensures Below(list, c) == list
  {
    if list != [] { AllBelow(list[1..], c); }
  }

  lemma {:induction false} BelowDrops<T>(list: seq<Row<T>>, k: nat, c: int)
    requires k <= |list| && forall i | 0 <= i < k :: list[i].key >= c
    ensures Below(list, c) == Below(list[k..], c)
  {
    if k > 0 {
      BelowDrops(list[1..], k - 1, c);
      assert list[1..][k - 1..] == list[k..];
    }
  }

  /** Cut into pages of `size`, no page ends between two rows with the same key. */
  predicate NoTieAtPageEnds<T>(list: seq<Row<T>>, size: nat)
    requires 1 <= size
    decreases |list|
  {
    |list| <= size || (list[size].key != list[size - 1].key && NoTieAtPageEnds(list[size..], size))
  }

  lemma {:induction false} WalkIsRest<T>(list: seq<Row<T>>, cursor: Option<int>, size: nat)
    requires 1 <= size
    ensures Walk(list, cursor, size) == Walk(Query(list, cursor), None, size)
    decreases |Query(list, cursor)|
  {
    var rest := Query(list, cursor);
    if |rest| > size {
      NextIsSmaller(list, cursor, size);
      NextIsSmaller(rest, None, size);
      var c := rest[size - 1].key;
      WalkIsRest(list, Some(c), size);
      WalkIsRest(rest, Some(c), size);
    }
  }

  lemma {:induction false} WalkNoLonger<T>(list: seq<Row<T>>, size: nat)
    requires 1 <= size
    ensures |Walk(list, None, size)| <= |list| || !Descending(list)
    decreases |list|
  {
    if |list| > size && Descending(list) {
      NextIsSmaller(list, None, size);
      var c := list[size - 1].key;
      BelowDrops(list, size, c);
      BelowShrinks(list[size..], c);
      BelowKeepsOrder(list, c);
      WalkIsRest(list, Some(c), size);
      WalkNoLonger(Below(list, c), size);
    }
  }

  lemma {:induction false} BelowKeepsOrder<T>(list: seq<Row<T>>, c: int)
    requires Descending(list)
    ensures Descending(Below(list, c)) && forall x <- Below(list, c) :: x in list
  {
    if list != [] {
      var tail := list[1..];
      BelowKeepsOrder(tail, c);
      forall x <- Below(tail, c)
        ensures x in list && x.key <= list[0].key
      {
        var i :| 0 <= i < |tail| && tail[i] == x;
        assert list[i + 1] == x;
      }
    }
  }

  /** Following the cursors from the start returns every row exactly once and in order if, and only if, no
      page ends inside a run of equal keys. */
  lemma {:induction false} WalkCompleteIff<T>(list: seq<Row<T>>, size: nat)
    requires 1 <= size && Descending(list)
    ensures Walk(list, None, size) == list <==> NoTieAtPageEnds(list, size)
    decreases |list|
  {
    if |list| > size {
      var c := list[size - 1].key;
      var rest := list[size..];
      NextIsSmaller(list, None, size);
      WalkIsRest(list, Some(c), size);
      assert list == list[..size] + rest;
      if list[size].key != c {
        BelowSuffix(list, size);
        WalkCompleteIff(rest, size);
        SameTail(list[..size], Walk(rest, None, size), rest);
      } else {
        TieLoses(list, size);
      }
    }
  }

  lemma TieLoses<T>(list: seq<Row<T>>, size: nat)
    requires 1 <= size < |list| && Descending(list) && list[size].key == list[size - 1].key
    ensures |Walk(list, None, size)| < |list|
  {
    var c := list[size - 1].key;
    var rest := list[size..];
    NextIsSmaller(list, None, size);
    WalkIsRest(list, Some(c), size);
    BelowDrops(list, size, c);
    BelowShrinks(rest, c);
    assert rest[0].key >= c;
    BelowKeepsOrder(list, c);
    WalkNoLonger(Below(list, c), size);
  }

  lemma SameTail<T>(a: seq<T>, b: seq<T>, c: seq<T>)
    ensures a + b == a + c <==> b == c
  {
    if a + b == a + c {
      assert b == (a + b)[|a|..] && c == (a + c)[|a|..];
    }
  }

  /** Ids are distinct, so the transaction walk is always complete. */
  lemma IdWalkComplete<T>(list: seq<Row<T>>, size: nat)
    requires 1 <= size && StrictlyDescending(list)
    ensures Walk(list, None, size) == list
  {
    WalkCompleteIff(list, size);
    StrictHasNoTies(list, size);
  }

  lemma {:induction false} StrictHasNoTies<T>(list: seq<Row<T>>, size: nat)
    requires 1 <= size && StrictlyDescending(list)
    ensures NoTieAtPageEnds(list, size)
    decreases |list|
  {
    if |list| > size {
      StrictHasNoTies(list[size..], size);
    }
  }

  /** A concrete loss: two links created at the same instant on either side of a page end. */
  lemma TieLosesARow()
    ensures var list := [Row(5, 'a'), Row(4, 'b'), Row(4, 'c')];
            Descending(list) && Walk(list, None, 2) != list
  {
    var list := [Row(5, 'a'), Row(4, 'b'), Row(4, 'c')];
    WalkCompleteIff(list, 2);
  }

  /** The rows shown so far and those of the pages still to come. */
  function Whole<T>(items: seq<Row<T>>, list: seq<Row<T>>, cursor: Option<int>, size: nat): seq<Row<T>>
    requires 1 <= size
  {
    if cursor.Some? then items + Walk(list, cursor, size) else items
  }

  lemma OnePage<T>(items: seq<Row<T>>, list: seq<Row<T>>, cursor: Option<int>, size: nat)
    requires 1 <= size
    ensures var rest := Query(list, cursor);
            items + Walk(list, cursor, size)
            == Whole(items + First(rest, size), list, if |rest| > size then Some(rest[size - 1].key) else None, size)
  {
    var rest := Query(list, cursor);
    if |rest| > size {
      SumOfThree(items, rest[..size], Walk(list, Some(rest[size - 1].key), size));
    }
  }

  lemma SumOfThree<T>(a: seq<T>, b: seq<T>, c: seq<T>)
    ensures a + (b + c) == a + b + c
  {
  }

  /** A client that follows `next_cursor` to the end. */
  method WalkPages<T>(list: seq<Row<T>>, limit: Option<int>) returns (items: seq<Row<T>>)
    ensures items == Walk(list, None, Clamp(limit))
  {
    OnePage([], list, None, Clamp(limit));
    assert [] + Walk(list, None, Clamp(limit)) == Walk(list, None, Clamp(limit));
    var page, cursor := GetPage(list, None, limit);
    items := [] + page;
    while cursor.Some?
      invariant Whole(items, list, cursor, Clamp(limit)) == Walk(list, None, Clamp(limit))
      decreases if cursor.Some? then |Query(list, cursor)| + 1 else 0
    {
      OnePage(items, list, cursor, Clamp(limit));
      if |Query(list, cursor)| > Clamp(limit) { NextIsSmaller(list, cursor, Clamp(limit)); }
      page, cursor := GetPage(list, cursor, limit);
      items := items + page;
    }
  }

  // ---------- a table that grows during the walk ----------

  datatype Position = At(cursor: Option<int>) | Over

  predicate Ahead(cursor: Option<int>, key: int) {
    cursor.Some? ==> key < cursor.value
  }

  /** The pages of a walk in which the k-th page query finds `lists[k]`. */
  function WalkOver<T>(lists: seq<seq<Row<T>>>, cursor: Option<int>, size: nat): seq<Row<T>>
    requires 1 <= size
  {
    if lists == [] then []
    else
      var rest := Query(lists[0], cursor);
      if |rest| <= size then rest
      else rest[..size] + WalkOver(lists[1..], Some(rest[size - 1].key), size)
  }

  /** Where the walk stands after those pages: at a cursor, or over. */
  function Stand<T>(lists: seq<seq<Row<T>>>, cursor: Option<int>, size: nat): Position
    requires 1 <= size
  {
    if lists == [] then At(cursor)
    else
      var rest := Query(lists[0], cursor);
      if |rest| <= size then Over else Stand(lists[1..], Some(rest[size - 1].key), size)
  }

  /** A row with this key is still to come for a walk that stands there. */
  predicate StillAhead(p: Position, key: int) {
    p.At? && Ahead(p.cursor, key)
  }

  ghost predicate AllStrict<T>(lists: seq<seq<Row<T>>>) {
    forall k | 0 <= k < |lists| :: StrictlyDescending(lists[k])
  }

  lemma RowAt<T>(list: seq<Row<T>>, i: nat, c: int)
    requires StrictlyDescending(list) && i < |list| && c == list[i].key
    ensures forall x <- list :: x in list[..i + 1] <==> c <= x.key
  {
    forall x <- list
      ensures x in list[..i + 1] <==> c <= x.key
    {
      var j :| 0 <= j < |list| && list[j] == x;
      if j <= i { assert list[..i + 1][j] == x; }
    }
  }

  lemma {:induction false} InBelow<T>(list: seq<Row<T>>, c: int, x: Row<T>)
    ensures x in Below(list, c) <==> x in list && x.key < c
  {
    if list != [] {
      InBelow(list[1..], c, x);
      assert list == [list[0]] + list[1..];
    }
  }

  lemma {:induction false} BelowKeepsStrict<T>(list: seq<Row<T>>, c: int)
    requires StrictlyDescending(list)
    ensures StrictlyDescending(Below(list, c))
  {
    if list != [] {
      BelowKeepsStrict(list[1..], c);
      forall x <- Below(list[1..], c)
        ensures x.key < list[0].key
      {
        InBelow(list[1..], c, x);
      }
    }
  }

  /** What one page query selects: the rows still ahead of its cursor, in strict order. */
  lemma QueryRows<T>(list: seq<Row<T>>, cursor: Option<int>, x: Row<T>)
    requires StrictlyDescending(list)
    ensures StrictlyDescending(Query(list, cursor))
    ensures x in Query(list, cursor) <==> x in list && Ahead(cursor, x.key)
  {
    if cursor.Some? {
      InBelow(list, cursor.value, x);
      BelowKeepsStrict(list, cursor.value);
    }
  }

  /** The next cursor is the key of a row still ahead of the old one. */
  lemma NextAhead<T>(list: seq<Row<T>>, cursor: Option<int>, size: nat)
    requires 1 <= size < |Query(list, cursor)|
    ensures Ahead(cursor, Query(list, cursor)[size - 1].key)
  {
    if cursor.Some? { BelowKeys(list, cursor.value); }
  }

  lemma {:induction false} StandMovesDown<T>(lists: seq<seq<Row<T>>>, cursor: Option<int>, size: nat, key: int)
    requires 1 <= size && StillAhead(Stand(lists, cursor, size), key)
    ensures Ahead(cursor, key)
  {
    if lists != [] {
      var rest := Query(lists[0], cursor);
      NextAhead(lists[0], cursor, size);
      StandMovesDown(lists[1..], Some(rest[size - 1].key), size, key);
    }
  }

  /** Which rows of the query the page shows: those the next cursor leaves behind. */
  lemma PageRows<T>(list: seq<Row<T>>, cursor: Option<int>, size: nat, x: Row<T>)
    requires 1 <= size < |Query(list, cursor)| && StrictlyDescending(list) && x in list
    ensures var rest := Query(list, cursor);
            x in rest[..size] <==> Ahead(cursor, x.key) && rest[size - 1].key <= x.key
  {
    var rest := Query(list, cursor);
    QueryRows(list, cursor, x);
    RowAt(rest, size - 1, rest[size - 1].key);
    if x in rest[..size] { assert x in rest; }
  }

  /** A row that every page query finds is shown exactly when the walk started above it and has left it
      behind - so a walk that is over has shown it. Nothing is assumed of the rows that come and go. */
  lemma {:induction false} SteadyRowShownIff<T>(
      lists: seq<seq<Row<T>>>, cursor: Option<int>, size: nat, x: Row<T>)
    requires 1 <= size && AllStrict(lists) && forall k | 0 <= k < |lists| :: x in lists[k]
    ensures x in WalkOver(lists, cursor, size)
            <==> Ahead(cursor, x.key) && !StillAhead(Stand(lists, cursor, size), x.key)
  {
    if lists != [] {
      var rest := Query(lists[0], cursor);
      QueryRows(lists[0], cursor, x);
      if |rest| > size {
        var c := rest[size - 1].key;
        PageRows(lists[0], cursor, size, x);
        NextAhead(lists[0], cursor, size);
        SteadyRowShownIff(lists[1..], Some(c), size, x);
        if StillAhead(Stand(lists[1..], Some(c), size), x.key) { StandMovesDown(lists[1..], Some(c), size, x.key); }
      }
    }
  }

  /** A row that becomes visible before page `j`, and stays, is shown exactly when the walk was still above
      it then and has left it behind since. */
  lemma {:induction false} LateRowShownIff<T>(
      lists: seq<seq<Row<T>>>, cursor: Option<int>, size: nat, x: Row<T>, j: nat)
    requires 1 <= size && AllStrict(lists) && j <= |lists|
    requires forall k | 0 <= k < |lists| :: x in lists[k] <==> j <= k
    ensures x in WalkOver(lists, cursor, size)
            <==> StillAhead(Stand(lists[..j], cursor, size), x.key) && !StillAhead(Stand(lists, cursor, size), x.key)
  {
    if j == 0 {
      SteadyRowShownIff(lists, cursor, size, x);
    } else {
      var rest := Query(lists[0], cursor);
      QueryRows(lists[0], cursor, x);
      assert lists[..j][0] == lists[0] && lists[..j][1..] == lists[1..][..j - 1];
      if |rest| > size {
        assert x !in rest[..size];
        LateRowShownIff(lists[1..], Some(rest[size - 1].key), size, x, j - 1);
      }
    }
  }

  lemma {:induction false} ShownAhead<T>(lists: seq<seq<Row<T>>>, cursor: Option<int>, size: nat)
    requires 1 <= size
    ensures forall x <- WalkOver(lists, cursor, size) :: Ahead(cursor, x.key)
  {
    if lists != [] {
      var rest := Query(lists[0], cursor);
      if cursor.Some? { BelowKeys(lists[0], cursor.value); }
      if |rest| > size { ShownAhead(lists[1..], Some(rest[size - 1].key), size); }
    }
  }

  /** Nothing is shown twice, and everything in descending order of id, whatever the table does. */
  lemma {:induction false} ShownOnce<T>(lists: seq<seq<Row<T>>>, cursor: Option<int>, size: nat)
    requires 1 <= size && AllStrict(lists)
    ensures StrictlyDescending(WalkOver(lists, cursor, size))
  {
    if lists != [] {
      var rest := Query(lists[0], cursor);
      if cursor.Some? { BelowKeepsStrict(lists[0], cursor.value); }
      if |rest| > size {
        ShownAhead(lists[1..], Some(rest[size - 1].key), size);
        ShownOnce(lists[1..], Some(rest[size - 1].key), size);
      }
    }
  }

  /** Only rows that some page query found are shown. */
  lemma {:induction false} ShownWasThere<T>(
      lists: seq<seq<Row<T>>>, cursor: Option<int>, size: nat, x: Row<T>) returns (k: nat)
    requires 1 <= size && AllStrict(lists) && x in WalkOver(lists, cursor, size)
    ensures k < |lists| && x in lists[k]
  {
    var rest := Query(lists[0], cursor);
    QueryRows(lists[0], cursor, x);
    if x in rest {
      k := 0;
    } else {
      var j := ShownWasThere(lists[1..], Some(rest[size - 1].key), size, x);
      k := j + 1;
    }
  }

  // ---------- a table that only gains newer rows ----------

  /** Each page query finds `list` behind rows with keys above its first one. */
  ghost predicate GainsNewer<T>(lists: seq<seq<Row<T>>>, list: seq<Row<T>>) {
    forall k | 0 <= k < |lists| :: Extends(lists[k], list)
  }

  ghost predicate Extends<T>(more: seq<Row<T>>, list: seq<Row<T>>) {
    |list| <= |more| && more[|more| - |list|..] == list
  }

  lemma FirstIsIn<T>(s: seq<T>)
    ensures s != [] ==> s[0] in s
  {
  }

  lemma {:induction false} SameKeysSameRows<T>(a: seq<Row<T>>, b: seq<Row<T>>)
    requires StrictlyDescending(a) && StrictlyDescending(b)
    requires forall x :: x in a <==> x in b
    ensures a == b
  {
    FirstIsIn(b);
    if a != [] {
      assert a[0] in b && b[0] in a;
      var i :| 0 <= i < |b| && b[i] == a[0];
      var j :| 0 <= j < |a| && a[j] == b[0];
      assert i == 0 && j == 0;
      TailRows(a);
      TailRows(b);
      SameKeysSameRows(a[1..], b[1..]);
      assert a == [a[0]] + a[1..] && b == [b[0]] + b[1..];
    }
  }

  lemma TailRows<T>(a: seq<Row<T>>)
    requires a != [] && StrictlyDescending(a)
    ensures StrictlyDescending(a[1..]) && forall x :: x in a[1..] <==> x in a && x != a[0]
  {
    forall x
      ensures x in a[1..] <==> x in a && x != a[0]
    {
      if x in a && x != a[0] {
        var j :| 0 <= j < |a| && a[j] == x;
        assert a[1..][j - 1] == x;
      }
    }
  }

  /** A list that gains only rows with keys above all its own is extended in front. */
  lemma {:induction false} ExtendsByRows<T>(more: seq<Row<T>>, list: seq<Row<T>>)
    requires StrictlyDescending(more) && StrictlyDescending(list)
    requires forall x <- list :: x in more
    requires forall x, y | x in more && x !in list && y in list :: y.key < x.key
    ensures Extends(more, list)
  {
    if more == [] {
      FirstIsIn(list);
    } else if more[0] in list {
      forall x <- more
        ensures x in list
      {
        assert x.key <= more[0].key;
      }
      SameKeysSameRows(more, list);
      assert more[0..] == more;
    } else {
      TailRows(more);
      ExtendsByRows(more[1..], list);
      assert more[1..][|more| - 1 - |list|..] == more[|more| - |list|..];
    }
  }

  lemma NewerOrOld<T>(more: seq<Row<T>>, list: seq<Row<T>>, x: Row<T>)
    requires StrictlyDescending(more) && Extends(more, list) && x in more && list != []
    ensures x in list || list[0].key < x.key
  {
    var m := |more| - |list|;
    var i :| 0 <= i < |more| && more[i] == x;
    assert more[m] == more[m..][0];
    if m <= i { assert more[m..][i - m] == x; }
  }

  lemma SteadyInExtensions<T>(lists: seq<seq<Row<T>>>, list: seq<Row<T>>, x: Row<T>)
    requires GainsNewer(lists, list) && x in list
    ensures forall k | 0 <= k < |lists| :: x in lists[k]
  {
    forall k | 0 <= k < |lists|
      ensures x in lists[k]
    {
      assert Extends(lists[k], list);
      var i :| 0 <= i < |list| && list[i] == x;
      assert lists[k][|lists[k]| - |list| + i] == lists[k][|lists[k]| - |list|..][i];
    }
  }

  /** A finished walk over a table that gains only newer rows shows exactly the rows of its first query. */
  lemma IdWalkWhileGrowing<T>(lists: seq<seq<Row<T>>>, size: nat)
    requires 1 <= size && lists != [] && AllStrict(lists) && GainsNewer(lists, lists[0])
    requires Stand(lists, None, size) == Over
    ensures WalkOver(lists, None, size) == lists[0]
  {
    var list, shown := lists[0], WalkOver(lists, None, size);
    forall x
      ensures x in shown <==> x in list
    {
      if x in list {
        SteadyInExtensions(lists, list, x);
        SteadyRowShownIff(lists, None, size, x);
      }
      if x in shown { ShownIsOld(lists, size, x); }
    }
    ShownOnce(lists, None, size);
    SameKeysSameRows(shown, list);
  }

  lemma ShownIsOld<T>(lists: seq<seq<Row<T>>>, size: nat, x: Row<T>)
    requires 1 <= size && lists != [] && AllStrict(lists) && GainsNewer(lists, lists[0])
    requires x in WalkOver(lists, None, size)
    ensures x in lists[0]
  {
    var list := lists[0];
    if |list| > size && x !in list[..size] {
      var c := list[size - 1].key;
      assert x in WalkOver(lists[1..], Some(c), size);
      ShownAhead(lists[1..], Some(c), size);
      var k := ShownWasThere(lists[1..], Some(c), size, x);
      assert Extends(lists[k + 1], list);
      NewerOrOld(lists[k + 1], list, x);
      assert size == 1 || c < list[0].key;
    }
  }
}
