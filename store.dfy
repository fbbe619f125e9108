/** The persisted `carts` and `orders` collections and one method per route
    handler of the cart and order routers. Each handler is one atomic step:
    load, check, mutate, save. The caller's user id is a parameter (the
    `requireAuth` middleware has already resolved it from the session). */
module Store {
  import opened Lines
  import opened Replies
  import opened Seqs
  import opened CartRoutes
  import opened OrderRoutes

  class Shop {
    /** The album collection, read-only to these routes. */
    const catalog: Catalog
    var carts: Carts
    var orders: seq<Order>
    /** The id the next created order gets. */
    var nextOrderId: nat

    /** Every cart is duplicate-free with positive quantities; every order is a
        non-empty well-formed snapshot; order ids are distinct and increasing. */
    ghost predicate Valid()
      reads this
    {
      AllWellFormed(carts) &&
      (forall k :: 0 <= k < |orders| ==>
         WellFormed(orders[k].items) && orders[k].items != [] && orders[k].id < nextOrderId) &&
      (forall i, j :: 0 <= i < j < |orders| ==> orders[i].id < orders[j].id)
    }

    constructor (catalog: Catalog)
      ensures Valid()
      ensures this.catalog == catalog && carts == map[] && orders == []
    {
      this.catalog := catalog;
      carts := map[];
      orders := [];
      nextOrderId := 0;
    }

    /** GET /cart */
    method GetCart(owner: UserId) returns (r: Result<seq<Line>>)
      requires Valid()
      ensures r == Get(carts, owner)
      ensures r.Ok? ==> WellFormed(r.value)
    {
      if owner in carts {
        r := Ok(carts[owner]);
      } else {
        r := Err(CartNotFound);
      }
    }

    /** POST /cart */
    method CreateCart(owner: UserId) returns (r: Result<seq<Line>>)
      requires Valid()
      modifies this`carts
      ensures Valid()
      ensures r == Create(old(carts), owner)
      ensures carts == if r.Ok? then old(carts)[owner := []] else old(carts)
    {
      if owner in carts {
        r := Err(CartAlreadyExists);
        return;
      }
      carts := carts[owner := []];
      r := Ok([]);
    }

    /** PUT /cart/add */
    method AddItem(owner: UserId, albumId: Option<AlbumId>, quantity: Option<int>)
      returns (r: Result<seq<Line>>)
      requires Valid()
      modifies this`carts
      ensures Valid()
      ensures r == Add(catalog.Keys, old(carts), owner, albumId, quantity)
      ensures carts == if r.Ok? then old(carts)[owner := r.value] else old(carts)
    {
      if albumId.None? || albumId.value == "" || quantity.None? || quantity.value <= 0 {
        r := Err(BadCartInput);
        return;
      }
      var a, q := albumId.value, quantity.value;
      if a !in catalog {
        r := Err(AlbumNotFound);
        return;
      }
      if owner !in carts {
        r := Err(CartNotFound);
        return;
      }
      var items := carts[owner];
      var i := IndexOf(items, a);
      if i >= 0 {
        items := items[i := Line(items[i].album, items[i].quantity + q)];
      } else {
        items := items + [Line(a, q)];
      }
      assert items == Merged(carts[owner], a, q);
      MergedWellFormed(carts[owner], a, q);
      carts := carts[owner := items];
      r := Ok(items);
    }

    /** PUT /cart/remove */
    method RemoveItem(owner: UserId, albumId: Option<AlbumId>, quantity: Option<int>)
      returns (r: Result<seq<Line>>)
      requires Valid()
      modifies this`carts
      ensures Valid()
      ensures r == Remove(catalog.Keys, old(carts), owner, albumId, quantity)
      ensures carts == if r.Ok? then old(carts)[owner := r.value] else old(carts)
    {
      if albumId.None? || albumId.value == "" || quantity.None? || quantity.value <= 0 {
        r := Err(BadCartInput);
        return;
      }
      var a, q := albumId.value, quantity.value;
      if a !in catalog {
        r := Err(AlbumNotFound);
        return;
      }
      if owner !in carts {
        r := Err(CartNotFound);
        return;
      }
      var items := carts[owner];
      var i := IndexOf(items, a);
      if i == -1 {
        r := Err(AlbumNotInCart);
        return;
      }
      if items[i].quantity > q {
        items := items[i := Line(items[i].album, items[i].quantity - q)];
      } else {
        items := items[..i] + items[i + 1..];
      }
      assert items == Decremented(carts[owner], a, q);
      DecrementedWellFormed(carts[owner], a, q);
      carts := carts[owner := items];
      r := Ok(items);
    }

    /** The `find({owner})` query over the orders collection. */
    method FindOrders(owner: UserId) returns (mine: seq<Order>)
      ensures mine == OrdersOf(orders, owner)
    {
      mine := [];
      var i := 0;
      while i < |orders|
        invariant 0 <= i <= |orders|
        invariant mine == Filter(orders[..i], OwnedBy(owner))
      {
        assert orders[..i + 1][..i] == orders[..i];
        if orders[i].owner == owner {
          mine := mine + [orders[i]];
        }
        i := i + 1;
      }
      assert orders[..i] == orders;
    }

    /** GET /order */
    method ListOrders(owner: UserId) returns (r: Result<seq<Order>>)
      ensures r == List(orders, owner)
    {
      var mine := FindOrders(owner);
      if mine == [] {
        r := Err(OrdersNotFound);
      } else {
        r := Ok(mine);
      }
    }

    /** GET /order/history */
    method OrderHistory(owner: UserId) returns (r: Result<seq<HistoryEntry>>)
      ensures r == History(catalog, orders, owner)
    {
      var mine := FindOrders(owner);
      if mine == [] {
        r := Err(NoOrderHistory);
      } else if !AllResolvable(catalog, mine) {
        r := Err(InternalError);
      } else {
        r := Ok(SortNewestFirst(ProjectAll(catalog, mine)));
      }
    }

    /** POST /order: copy the cart's lines into a new order dated `now`, then
        empty the cart (the cart record itself stays). */
    method PlaceOrder(owner: UserId, now: int) returns (r: Result<Order>)
      requires Valid()
      modifies this
      ensures Valid()
      ensures var snap := Snapshot(old(carts), owner);
        snap.Err? ==>
          r == Err(snap.failure) &&
          carts == old(carts) && orders == old(orders) && nextOrderId == old(nextOrderId)
      ensures var snap := Snapshot(old(carts), owner);
        snap.Ok? ==>
          r == Ok(Order(old(nextOrderId), owner, snap.value, now)) &&
          orders == old(orders) + [r.value] &&
          carts == old(carts)[owner := []] &&
          nextOrderId == old(nextOrderId) + 1
    {
      if owner !in carts {
        r := Err(CartNotFound);
        return;
      }
      var items := carts[owner];
      if |items| == 0 {
        r := Err(CartIsEmpty);
        return;
      }
      var order := Order(nextOrderId, owner, items, now);
      orders := orders + [order];
      nextOrderId := nextOrderId + 1;
      carts := carts[owner := []];
      r := Ok(order);
    }
  }

  /** The walk-through of a cart's life: create, add two albums, remove more
      than held of one. */
  method CartLifecycle()
  {
    var shop := new Shop(SampleCatalog());
    var c := shop.CreateCart("U1");
    assert shop.carts == map["U1" := []];
    c := shop.AddItem("U1", Some("album-A"), Some(2));
    assert c == Ok([Line("album-A", 2)]);
    assert shop.carts == map["U1" := [Line("album-A", 2)]];
    var two := [Line("album-A", 2), Line("album-B", 1)];
    assert Merged([Line("album-A", 2)], "album-B", 1) == two;
    c := shop.AddItem("U1", Some("album-B"), Some(1));
    assert c == Ok(two);
    assert shop.carts == map["U1" := two];
    assert Decremented(two, "album-A", 5) == [Line("album-B", 1)];
    c := shop.RemoveItem("U1", Some("album-A"), Some(5));
    assert c == Ok([Line("album-B", 1)]);
  }

  /** Checking out a one-line cart: the order holds the line, the cart is
      left empty, and a second checkout is refused. */
  method CheckoutWalkThrough()
  {
    var shop := new Shop(SampleCatalog());
    var c := shop.CreateCart("U1");
    c := shop.AddItem("U1", Some("album-B"), Some(1));
    assert c == Ok([Line("album-B", 1)]);
    var o := shop.PlaceOrder("U1", 1000);
    assert o.Ok? && o.value.items == [Line("album-B", 1)];
    c := shop.GetCart("U1");
    assert c == Ok([]);
    var again := shop.PlaceOrder("U1", 2000);
    assert again == Err(CartIsEmpty);
  }

  function SampleCatalog(): Catalog {
    map["album-A" := Album("A", 9.99, Some(Artist("X", "UK"))),
        "album-B" := Album("B", 5.0, None)]
  }
}
