/** The "Add to Cart" button on the album list and the genre page: PUT one copy
    of the album and, on any 404, POST a cart and press again. The backend's
    answers are `CartRoutes.Add` and `CartRoutes.Create` on the stored carts. */
module CardButton {
  import opened Lines
  import opened Replies
  import CartRoutes

  /** The carts after the button's POST /api/cart (a 400 for an existing cart
      leaves them as they were). */
  function AfterCreate(carts: CartRoutes.Carts, owner: UserId): (c: CartRoutes.Carts)
    ensures owner in c && c[owner] == (if owner in carts then carts[owner] else [])
    ensures forall u :: u != owner ==> (u in c <==> u in carts)
    ensures forall u :: u != owner && u in carts ==> c[u] == carts[u]
  {
    var r := CartRoutes.Create(carts, owner);
    if r.Ok? then carts[owner := r.value] else carts
  }

  /** The press as written, followed for at most `fuel` PUTs: the settling
      reply, or `None` while it is still retrying. */
  function PressAsWritten(catalog: set<AlbumId>, carts: CartRoutes.Carts, owner: UserId, a: AlbumId,
                          fuel: nat): Option<Result<seq<Line>>>
    decreases fuel
  {
    if fuel == 0 then None
    else
      var r := CartRoutes.Add(catalog, carts, owner, Some(a), Some(1));
      if r.Err? && Status(r.failure) == 404 then PressAsWritten(catalog, AfterCreate(carts, owner), owner, a, fuel - 1)
      else Some(r)
  }

  /** A well-formed album id the backend does not know answers 404 on every
      attempt, so the press never settles, however many attempts are followed. */
  lemma {:induction false} UnknownAlbumRetriesForever(catalog: set<AlbumId>, carts: CartRoutes.Carts,
                                                      owner: UserId, a: AlbumId, fuel: nat)
    requires a != "" && a !in catalog
    ensures PressAsWritten(catalog, carts, owner, a, fuel).None?
    decreases fuel
  {
    if fuel > 0 {
      assert CartRoutes.Add(catalog, carts, owner, Some(a), Some(1)) == Err(AlbumNotFound);
      UnknownAlbumRetriesForever(catalog, AfterCreate(carts, owner), owner, a, fuel - 1);
    }
  }

  /** The press with the retry kept to one: a 404 posts a cart and presses once
      more, and whatever that second PUT answers is the outcome. */
  function Press(catalog: set<AlbumId>, carts: CartRoutes.Carts, owner: UserId, a: AlbumId): (r: Result<seq<Line>>)
    ensures a != "" && a !in catalog ==> r == Err(AlbumNotFound)
    ensures a == "" ==> r == Err(BadCartInput)
  {
    var r := CartRoutes.Add(catalog, carts, owner, Some(a), Some(1));
    if r.Err? && Status(r.failure) == 404 then CartRoutes.Add(catalog, AfterCreate(carts, owner), owner, Some(a), Some(1))
    else r
  }

  /** For a known album the press adds exactly one copy to the user's cart (a
      new, empty one when the user had none) and leaves the other albums alone. */
  lemma {:induction false} PressAddsOne(catalog: set<AlbumId>, carts: CartRoutes.Carts, owner: UserId, a: AlbumId)
    requires a != "" && a in catalog
    ensures var r := Press(catalog, carts, owner, a);
      var before := if owner in carts then carts[owner] else [];
      r.Ok? && QuantityOf(r.value, a) == QuantityOf(before, a) + 1 &&
      forall b :: b != a ==> QuantityOf(r.value, b) == QuantityOf(before, b)
  {
    var before := if owner in carts then carts[owner] else [];
    if owner in carts {
      assert Press(catalog, carts, owner, a) == Ok(CartRoutes.Merged(before, a, 1));
    } else {
      assert CartRoutes.Add(catalog, carts, owner, Some(a), Some(1)) == Err(CartNotFound);
      var c := AfterCreate(carts, owner);
      assert c[owner] == before;
      assert CartRoutes.Add(catalog, c, owner, Some(a), Some(1)) == Ok(CartRoutes.Merged(before, a, 1));
    }
    CartRoutes.MergedQuantities(before, a, 1);
  }

  /** For a known album the press as written settles on the second PUT at the
      latest, with the same outcome as the one-retry press. */
  lemma {:induction false} KnownAlbumSettles(catalog: set<AlbumId>, carts: CartRoutes.Carts, owner: UserId, a: AlbumId)
    requires a != "" && a in catalog
    ensures PressAsWritten(catalog, carts, owner, a, 2) == Some(Press(catalog, carts, owner, a))
  {
    assert owner in AfterCreate(carts, owner);
  }
}
