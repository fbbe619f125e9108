/** What the order routes reply: GET / (the owner's orders), GET /history
    (each order projected for display and sorted newest first) and the cart
    snapshot POST / turns into an order. */
module OrderRoutes {
  import opened Lines
  import opened Replies
  import opened Seqs
  import CartRoutes

  /** A stored order: its generated id, owner, the copied cart lines and
      `order_date`, a timestamp in milliseconds. */
  datatype Order = Order(id: nat, owner: UserId, items: seq<Line>, date: int)

  /** The catalog records the history populates: title, price and the artist's
      name and country, `None` when the album's artist record is gone (the
      populated `artist_id` is then null, which the route passes on). */
  datatype Artist = Artist(name: string, country: string)
  datatype Album = Album(title: string, price: real, artist: Option<Artist>)
  type Catalog = map<AlbumId, Album>

  /** The reshaped history item: `{album: {_id, title, price, artist}, quantity}`. */
  datatype AlbumSummary = AlbumSummary(id: AlbumId, title: string, price: real, artist: Option<Artist>)
  datatype HistoryItem = HistoryItem(album: AlbumSummary, quantity: int)
  datatype HistoryEntry = HistoryEntry(id: nat, owner: UserId, date: int, items: seq<HistoryItem>)

  function OwnedBy(owner: UserId): Order -> bool {
    (o: Order) => o.owner == owner
  }

  /** `Order.find({owner})`: the owner's orders, in stored order. */
  function OrdersOf(orders: seq<Order>, owner: UserId): (r: seq<Order>)
    ensures forall o :: o in r <==> o in orders && o.owner == owner
    ensures IsSubsequence(r, orders)
    ensures r == [] <==> forall o :: o in orders ==> o.owner != owner
  {
    FilterIsSubsequence(orders, OwnedBy(owner));
    FilterMembers(orders, OwnedBy(owner));
    var r := Filter(orders, OwnedBy(owner));
    assert r != [] ==> r[0] in r;
    r
  }

  /** GET /order: the owner's orders, or 404 when there are none. */
  function List(orders: seq<Order>, owner: UserId): (r: Result<seq<Order>>)
    ensures r.Err? <==> forall o :: o in orders ==> o.owner != owner
    ensures r.Err? ==> r.failure == OrdersNotFound
    ensures r.Ok? ==> r.value == OrdersOf(orders, owner)
  {
    var mine := OrdersOf(orders, owner);
    if mine == [] then Err(OrdersNotFound) else Ok(mine)
  }

  /** An order appended by checkout is listed last among its owner's orders and
      changes no other user's list. */
  lemma {:induction false} PlacedOrderIsListed(orders: seq<Order>, o: Order)
    ensures OrdersOf(orders + [o], o.owner) == OrdersOf(orders, o.owner) + [o]
    ensures forall u :: u != o.owner ==> OrdersOf(orders + [o], u) == OrdersOf(orders, u)
    ensures List(orders + [o], o.owner) == Ok(OrdersOf(orders, o.owner) + [o])
  {
    assert (orders + [o])[..|orders|] == orders;
  }

  /** POST /order before anything is written: the lines the new order copies,
      or 404 without a cart and 400 for an empty one. */
  function Snapshot(carts: CartRoutes.Carts, owner: UserId): (r: Result<seq<Line>>)
    ensures owner !in carts ==> r == Err(CartNotFound)
    ensures owner in carts && carts[owner] == [] ==> r == Err(CartIsEmpty)
    ensures owner in carts && carts[owner] != [] ==> r == Ok(carts[owner])
    ensures r.Ok? ==> owner in carts && r.value == carts[owner] && r.value != []
  {
    if owner !in carts then Err(CartNotFound)
    else if carts[owner] == [] then Err(CartIsEmpty)
    else Ok(carts[owner])
  }

  // ---- GET /order/history ----

  predicate Resolvable(catalog: Catalog, o: Order) {
    forall k :: 0 <= k < |o.items| ==> o.items[k].album in catalog
  }

  predicate AllResolvable(catalog: Catalog, os: seq<Order>) {
    forall k :: 0 <= k < |os| ==> Resolvable(catalog, os[k])
  }

  function Summary(catalog: Catalog, id: AlbumId): (s: AlbumSummary)
    requires id in catalog
    ensures s.id == id && s.title == catalog[id].title
    ensures s.price == catalog[id].price && s.artist == catalog[id].artist
  {
    var a := catalog[id];
    AlbumSummary(id, a.title, a.price, a.artist)
  }

  /** `order.items.map(item => ({album: {...}, quantity: item.quantity}))`. */
  function ProjectItems(catalog: Catalog, items: seq<Line>): (r: seq<HistoryItem>)
    requires forall k :: 0 <= k < |items| ==> items[k].album in catalog
    ensures |r| == |items|
    ensures forall k :: 0 <= k < |r| ==>
      r[k].quantity == items[k].quantity && r[k].album.id == items[k].album &&
      r[k].album == Summary(catalog, items[k].album)
  {
    seq(|items|, k requires 0 <= k < |items| => HistoryItem(Summary(catalog, items[k].album), items[k].quantity))
  }

  /** The order with its items reshaped, every other field kept. */
  function Project(catalog: Catalog, o: Order): (e: HistoryEntry)
    requires Resolvable(catalog, o)
    ensures e.id == o.id && e.owner == o.owner && e.date == o.date
    ensures e.items == ProjectItems(catalog, o.items)
  {
    HistoryEntry(o.id, o.owner, o.date, ProjectItems(catalog, o.items))
  }

  function ProjectAll(catalog: Catalog, os: seq<Order>): (r: seq<HistoryEntry>)
    requires AllResolvable(catalog, os)
    ensures |r| == |os|
    ensures forall k :: 0 <= k < |os| ==> r[k] == Project(catalog, os[k])
  {
    seq(|os|, k requires 0 <= k < |os| => Project(catalog, os[k]))
  }

  ghost predicate NewestFirst(s: seq<HistoryEntry>) {
    forall i, j :: 0 <= i < j < |s| ==> s[i].date >= s[j].date
  }

  /** Place `e` after every entry at least as new: the position a stable sort
      gives an element that came later in its input. */
  function InsertNewest(e: HistoryEntry, s: seq<HistoryEntry>): seq<HistoryEntry> {
    if s == [] then [e]
    else if s[0].date >= e.date then [s[0]] + InsertNewest(e, s[1..])
    else [e] + s
  }

  /** Inserting adds exactly the one entry. */
  lemma {:induction false} InsertNewestPerm(e: HistoryEntry, s: seq<HistoryEntry>)
    ensures multiset(InsertNewest(e, s)) == multiset(s) + multiset{e}
    ensures |InsertNewest(e, s)| == |s| + 1
  {
    if s != [] && s[0].date >= e.date {
      InsertNewestPerm(e, s[1..]);
      assert s == [s[0]] + s[1..];
    }
  }

  /** Inserting under a date bound that the entry and the list respect keeps the bound. */
  lemma {:induction false} InsertNewestBounded(e: HistoryEntry, s: seq<HistoryEntry>, d: int)
    requires e.date <= d && forall k :: 0 <= k < |s| ==> s[k].date <= d
    ensures forall k :: 0 <= k < |InsertNewest(e, s)| ==> InsertNewest(e, s)[k].date <= d
  {
    if s != [] && s[0].date >= e.date {
      InsertNewestBounded(e, s[1..], d);
      assert InsertNewest(e, s) == [s[0]] + InsertNewest(e, s[1..]);
    }
  }

  /** An entry at least as new as every entry of a sorted list can lead it. */
  lemma {:induction false} ConsSorted(x: HistoryEntry, s: seq<HistoryEntry>)
    requires NewestFirst(s) && forall k :: 0 <= k < |s| ==> s[k].date <= x.date
    ensures NewestFirst([x] + s)
  {
    var r := [x] + s;
    forall i, j | 0 <= i < j < |r| ensures r[i].date >= r[j].date {
      assert r[j] == s[j - 1];
      if i > 0 {
        assert r[i] == s[i - 1];
      }
    }
  }

  lemma {:induction false} InsertNewestSorted(e: HistoryEntry, s: seq<HistoryEntry>)
    requires NewestFirst(s)
    ensures NewestFirst(InsertNewest(e, s))
    ensures multiset(InsertNewest(e, s)) == multiset(s) + multiset{e}
    ensures |InsertNewest(e, s)| == |s| + 1
  {
    InsertNewestPerm(e, s);
    if s == [] {
    } else if s[0].date >= e.date {
      var t := s[1..];
      assert NewestFirst(t);
      InsertNewestSorted(e, t);
      InsertNewestBounded(e, t, s[0].date);
      ConsSorted(s[0], InsertNewest(e, t));
    } else {
      assert forall k :: 0 <= k < |s| ==> s[k].date <= s[0].date;
      ConsSorted(e, s);
    }
  }

  /** `sort((a, b) => b.order_date - a.order_date)`: a stable sort, newest first. */
  function SortNewestFirst(s: seq<HistoryEntry>): (r: seq<HistoryEntry>)
    ensures NewestFirst(r)
    ensures multiset(r) == multiset(s)
    ensures |r| == |s|
  {
    if s == [] then []
    else
      var p := s[..|s| - 1];
      var sp := SortNewestFirst(p);
      InsertNewestSorted(s[|s| - 1], sp);
      MultisetOfLast(s);
      InsertNewest(s[|s| - 1], sp)
  }

  lemma {:induction false} MultisetOfLast(s: seq<HistoryEntry>)
    requires s != []
    ensures multiset(s) == multiset(s[..|s| - 1]) + multiset{s[|s| - 1]}
  {
    assert s == s[..|s| - 1] + [s[|s| - 1]];
  }

  function DatedAt(d: int): HistoryEntry -> bool {
    (e: HistoryEntry) => e.date == d
  }

  lemma {:induction false} InsertNewestStable(e: HistoryEntry, s: seq<HistoryEntry>, d: int)
    requires NewestFirst(s)
    ensures Filter(InsertNewest(e, s), DatedAt(d)) ==
            Filter(s, DatedAt(d)) + if e.date == d then [e] else []
  {
    if s == [] {
      FilterSingleton(e, DatedAt(d));
      assert InsertNewest(e, s) == [e];
    } else if s[0].date >= e.date {
      InsertNewestStable(e, s[1..], d);
      InsertBehind(e, s, d);
    } else {
      InsertInFront(e, s, d);
    }
  }

  lemma {:induction false} InsertBehind(e: HistoryEntry, s: seq<HistoryEntry>, d: int)
    requires s != [] && s[0].date >= e.date
    requires Filter(InsertNewest(e, s[1..]), DatedAt(d)) ==
             Filter(s[1..], DatedAt(d)) + if e.date == d then [e] else []
    ensures Filter(InsertNewest(e, s), DatedAt(d)) ==
            Filter(s, DatedAt(d)) + if e.date == d then [e] else []
  {
    var keep, t := DatedAt(d), s[1..];
    var tail: seq<HistoryEntry> := if e.date == d then [e] else [];
    assert s == [s[0]] + t;
    FilterConcat([s[0]], t, keep);
    FilterConcat([s[0]], InsertNewest(e, t), keep);
    calc {
      Filter(InsertNewest(e, s), keep);
      Filter([s[0]] + InsertNewest(e, t), keep);
      Filter([s[0]], keep) + Filter(InsertNewest(e, t), keep);
      Filter([s[0]], keep) + (Filter(t, keep) + tail);
      (Filter([s[0]], keep) + Filter(t, keep)) + tail;
      Filter(s, keep) + tail;
    }
  }

  lemma {:induction false} InsertInFront(e: HistoryEntry, s: seq<HistoryEntry>, d: int)
    requires NewestFirst(s) && s != [] && s[0].date < e.date
    ensures Filter(InsertNewest(e, s), DatedAt(d)) ==
            Filter(s, DatedAt(d)) + if e.date == d then [e] else []
  {
    var keep := DatedAt(d);
    FilterSingleton(e, keep);
    assert InsertNewest(e, s) == [e] + s;
    FilterConcat([e], s, keep);
    if e.date == d {
      forall x | x in s ensures !keep(x) {
        var i :| 0 <= i < |s| && s[i] == x;
        assert s[0].date >= s[i].date;
      }
      FilterNone(s, keep);
    }
  }

  /** Entries with the same date come out in their input order. */
  lemma {:induction false} SortIsStable(s: seq<HistoryEntry>, d: int)
    ensures Filter(SortNewestFirst(s), DatedAt(d)) == Filter(s, DatedAt(d))
  {
    if s != [] {
      var p := s[..|s| - 1];
      SortIsStable(p, d);
      InsertNewestStable(s[|s| - 1], SortNewestFirst(p), d);
    }
  }

  /** GET /order/history: 404 without orders; 500 when an item's album is no
      longer in the catalog (the populated `item.album` is null); otherwise the
      projected orders, newest first. */
  function History(catalog: Catalog, orders: seq<Order>, owner: UserId): (r: Result<seq<HistoryEntry>>)
    ensures OrdersOf(orders, owner) == [] ==> r == Err(NoOrderHistory)
    ensures OrdersOf(orders, owner) != [] && !AllResolvable(catalog, OrdersOf(orders, owner)) ==>
      r == Err(InternalError)
    ensures OrdersOf(orders, owner) != [] && AllResolvable(catalog, OrdersOf(orders, owner)) ==> r.Ok?
    ensures r.Ok? ==>
      (AllResolvable(catalog, OrdersOf(orders, owner)) &&
       r.value == SortNewestFirst(ProjectAll(catalog, OrdersOf(orders, owner))))
  {
    var mine := OrdersOf(orders, owner);
    if mine == [] then Err(NoOrderHistory)
    else if !AllResolvable(catalog, mine) then Err(InternalError)
    else Ok(SortNewestFirst(ProjectAll(catalog, mine)))
  }

  /** A successful history is every order of the owner, projected, each exactly
      once, newest first. */
  lemma {:induction false} HistoryIsOwnersOrdersNewestFirst(catalog: Catalog, orders: seq<Order>, owner: UserId)
    requires History(catalog, orders, owner).Ok?
    ensures var h := History(catalog, orders, owner).value;
      var mine := OrdersOf(orders, owner);
      NewestFirst(h) && |h| == |mine| &&
      multiset(h) == multiset(ProjectAll(catalog, mine)) &&
      (forall e :: e in h ==>
         (e.owner == owner &&
          exists o :: o in orders && o.owner == owner && Resolvable(catalog, o) && e == Project(catalog, o)))
  {
    var h := History(catalog, orders, owner).value;
    var mine := OrdersOf(orders, owner);
    var pa := ProjectAll(catalog, mine);
    forall e | e in h
      ensures e.owner == owner &&
        exists o :: o in orders && o.owner == owner && Resolvable(catalog, o) && e == Project(catalog, o)
    {
      assert e in multiset(pa);
      var k :| 0 <= k < |pa| && pa[k] == e;
      assert mine[k] in mine;
    }
  }
}
