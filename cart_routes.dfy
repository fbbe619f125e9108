/** What the four cart routes (GET /, POST /, PUT /add, PUT /remove) reply
    and what they leave stored, as functions of the stored carts. The store's
    handler methods are proved against these. */
module CartRoutes {
  import opened Lines
  import opened Replies

  /** The carts collection: at most one line sequence per owner. */
  type Carts = map<UserId, seq<Line>>

  predicate AllWellFormed(carts: Carts) {
    forall u :: u in carts ==> WellFormed(carts[u])
  }

  /** The request-body guard `!albumId || !quantity || quantity <= 0`, negated:
      an empty or missing id and a missing, zero or negative quantity fail. */
  predicate ValidBody(albumId: Option<AlbumId>, quantity: Option<int>): (ok: bool)
    ensures albumId.None? || albumId == Some("") ==> !ok
    ensures quantity.None? || (quantity.Some? && quantity.value <= 0) ==> !ok
  {
    albumId.Some? && albumId.value != "" && quantity.Some? && quantity.value > 0
  }

  /** The /add mutation: raise the album's line by `q`, or push a new line. */
  function Merged(items: seq<Line>, a: AlbumId, q: int): (r: seq<Line>)
    ensures IndexOf(items, a) >= 0 ==>
      var i := IndexOf(items, a);
      |r| == |items| && r[i] == Line(a, items[i].quantity + q) &&
      forall k :: 0 <= k < |items| && k != i ==> r[k] == items[k]
    ensures IndexOf(items, a) == -1 ==>
      |r| == |items| + 1 && r[..|items|] == items && r[|items|] == Line(a, q)
  {
    var i := IndexOf(items, a);
    if i >= 0 then items[i := Line(items[i].album, items[i].quantity + q)]
    else items + [Line(a, q)]
  }

  /** The /remove mutation on a line that exists: subtract when the line holds
      more than `q`, otherwise (equal included) splice the line out. */
  function Decremented(items: seq<Line>, a: AlbumId, q: int): (r: seq<Line>)
    requires IndexOf(items, a) >= 0
    ensures var i := IndexOf(items, a);
      items[i].quantity > q ==>
        |r| == |items| && r[i] == Line(a, items[i].quantity - q) &&
        forall k :: 0 <= k < |items| && k != i ==> r[k] == items[k]
    ensures var i := IndexOf(items, a);
      items[i].quantity <= q ==>
        |r| == |items| - 1 &&
        forall k :: 0 <= k < |r| ==> r[k] == if k < i then items[k] else items[k + 1]
  {
    var i := IndexOf(items, a);
    SpliceKeepsOrder(items, i);
    if items[i].quantity > q then items[i := Line(items[i].album, items[i].quantity - q)]
    else items[..i] + items[i + 1..]
  }

  /** GET /cart: the owner's lines, or 404. */
  function Get(carts: Carts, owner: UserId): (r: Result<seq<Line>>)
    ensures r.Ok? <==> owner in carts
    ensures r.Ok? ==> r.value == carts[owner]
    ensures r.Err? ==> r.failure == CartNotFound
  {
    if owner in carts then Ok(carts[owner]) else Err(CartNotFound)
  }

  /** POST /cart: a new empty cart, or 400 when the owner already has one. */
  function Create(carts: Carts, owner: UserId): (r: Result<seq<Line>>)
    ensures r.Ok? <==> owner !in carts
    ensures r.Ok? ==> r.value == []
    ensures r.Err? ==> r.failure == CartAlreadyExists
  {
    if owner in carts then Err(CartAlreadyExists) else Ok([])
  }

  /** PUT /cart/add: the owner's new lines, or the first check that fails. */
  function Add(catalog: set<AlbumId>, carts: Carts, owner: UserId,
               albumId: Option<AlbumId>, quantity: Option<int>): (r: Result<seq<Line>>)
    ensures !ValidBody(albumId, quantity) ==> r == Err(BadCartInput)
    ensures ValidBody(albumId, quantity) && albumId.value !in catalog ==> r == Err(AlbumNotFound)
    ensures ValidBody(albumId, quantity) && albumId.value in catalog && owner !in carts ==>
      r == Err(CartNotFound)
    ensures r.Ok? <==> ValidBody(albumId, quantity) && albumId.value in catalog && owner in carts
    ensures r.Ok? ==> r.value == Merged(carts[owner], albumId.value, quantity.value)
  {
    if !ValidBody(albumId, quantity) then Err(BadCartInput)
    else if albumId.value !in catalog then Err(AlbumNotFound)
    else if owner !in carts then Err(CartNotFound)
    else Ok(Merged(carts[owner], albumId.value, quantity.value))
  }

  /** PUT /cart/remove: the owner's new lines, or the first check that fails. */
  function Remove(catalog: set<AlbumId>, carts: Carts, owner: UserId,
                  albumId: Option<AlbumId>, quantity: Option<int>): (r: Result<seq<Line>>)
    ensures !ValidBody(albumId, quantity) ==> r == Err(BadCartInput)
    ensures ValidBody(albumId, quantity) && albumId.value !in catalog ==> r == Err(AlbumNotFound)
    ensures ValidBody(albumId, quantity) && albumId.value in catalog && owner !in carts ==>
      r == Err(CartNotFound)
    ensures (ValidBody(albumId, quantity) && albumId.value in catalog && owner in carts &&
             IndexOf(carts[owner], albumId.value) == -1) ==> r == Err(AlbumNotInCart)
    ensures r.Ok? <==> ValidBody(albumId, quantity) && albumId.value in catalog && owner in carts &&
                       IndexOf(carts[owner], albumId.value) >= 0
    ensures r.Ok? ==>
      (owner in carts && IndexOf(carts[owner], albumId.value) >= 0 &&
       r.value == Decremented(carts[owner], albumId.value, quantity.value))
  {
    if !ValidBody(albumId, quantity) then Err(BadCartInput)
    else if albumId.value !in catalog then Err(AlbumNotFound)
    else if owner !in carts then Err(CartNotFound)
    else if IndexOf(carts[owner], albumId.value) == -1 then Err(AlbumNotInCart)
    else Ok(Decremented(carts[owner], albumId.value, quantity.value))
  }

  /** The owner's lines after a reply: the new lines on success, else the old ones. */
  function LinesAfter(carts: Carts, owner: UserId, r: Result<seq<Line>>): seq<Line>
    requires owner in carts
  {
    if r.Ok? then r.value else carts[owner]
  }

  // ---- What the mutations mean for the quantities held ----

  /** Adding raises album `a` by exactly `q` and leaves every other album alone;
      the cart's total grows by `q`. */
  lemma {:induction false} MergedQuantities(items: seq<Line>, a: AlbumId, q: int)
    ensures QuantityOf(Merged(items, a, q), a) == QuantityOf(items, a) + q
    ensures forall b :: b != a ==> QuantityOf(Merged(items, a, q), b) == QuantityOf(items, b)
    ensures TotalQuantity(Merged(items, a, q)) == TotalQuantity(items) + q
  {
    var i := IndexOf(items, a);
    if i >= 0 {
      var x := Line(a, items[i].quantity + q);
      assert Merged(items, a, q) == items[i := x];
      UpdateQuantities(items, i, x);
    } else {
      assert Merged(items, a, q) == items + [Line(a, q)];
      AppendQuantities(items, Line(a, q));
    }
  }

  /** `QuantityOfUpdate` for every album at once. */
  lemma {:induction false} UpdateQuantities(items: seq<Line>, i: nat, x: Line)
    requires i < |items| && x.album == items[i].album
    ensures QuantityOf(items[i := x], x.album) == QuantityOf(items, x.album) - items[i].quantity + x.quantity
    ensures forall b :: b != x.album ==> QuantityOf(items[i := x], b) == QuantityOf(items, b)
    ensures TotalQuantity(items[i := x]) == TotalQuantity(items) - items[i].quantity + x.quantity
  {
    QuantityOfUpdate(items, i, x, x.album);
    forall b ensures QuantityOf(items[i := x], b) == QuantityOf(items, b)
                     - (if items[i].album == b then items[i].quantity else 0)
                     + (if x.album == b then x.quantity else 0) {
      QuantityOfUpdate(items, i, x, b);
    }
  }

  /** `AppendQuantity` for every album at once. */
  lemma {:induction false} AppendQuantities(items: seq<Line>, x: Line)
    ensures QuantityOf(items + [x], x.album) == QuantityOf(items, x.album) + x.quantity
    ensures forall b :: b != x.album ==> QuantityOf(items + [x], b) == QuantityOf(items, b)
    ensures TotalQuantity(items + [x]) == TotalQuantity(items) + x.quantity
  {
    AppendQuantity(items, x, x.album);
    forall b ensures QuantityOf(items + [x], b) == QuantityOf(items, b) + (if x.album == b then x.quantity else 0) {
      AppendQuantity(items, x, b);
    }
  }

  /** Adding a positive quantity keeps the cart duplicate-free and positive. */
  lemma {:induction false} MergedWellFormed(items: seq<Line>, a: AlbumId, q: int)
    requires WellFormed(items) && q >= 1
    ensures WellFormed(Merged(items, a, q))
  {
    var r := Merged(items, a, q);
    if IndexOf(items, a) == -1 {
      forall i, j | 0 <= i < j < |r| ensures r[i].album != r[j].album {
        if j == |items| {
          assert r[i] == items[i];
        } else {
          assert r[i] == items[i] && r[j] == items[j];
        }
      }
    }
  }

  /** Two adds of the same album make one line holding both amounts. */
  lemma {:induction false} MergeTwice(items: seq<Line>, a: AlbumId, q1: int, q2: int)
    ensures Merged(Merged(items, a, q1), a, q2) == Merged(items, a, q1 + q2)
  {
    if IndexOf(items, a) >= 0 {
      MergeTwiceFound(items, a, q1, q2);
    } else {
      MergeTwiceNew(items, a, q1, q2);
    }
  }

  lemma {:induction false} MergeTwiceFound(items: seq<Line>, a: AlbumId, q1: int, q2: int)
    requires IndexOf(items, a) >= 0
    ensures Merged(Merged(items, a, q1), a, q2) == Merged(items, a, q1 + q2)
  {
    var i := IndexOf(items, a);
    var x := Line(a, items[i].quantity + q1);
    var y := Line(a, items[i].quantity + (q1 + q2));
    var m := items[i := x];
    assert Merged(items, a, q1) == m;
    assert Merged(items, a, q1 + q2) == items[i := y];
    assert forall k :: 0 <= k < i ==> m[k] == items[k];
    IndexOfIs(m, a, i);
    assert Merged(m, a, q2) == m[i := y];
    UpdateTwice(items, i, x, y);
  }

  lemma UpdateTwice(s: seq<Line>, i: nat, x: Line, y: Line)
    requires i < |s|
    ensures s[i := x][i := y] == s[i := y]
  {
  }

  lemma {:induction false} MergeTwiceNew(items: seq<Line>, a: AlbumId, q1: int, q2: int)
    requires IndexOf(items, a) == -1
    ensures Merged(Merged(items, a, q1), a, q2) == Merged(items, a, q1 + q2)
  {
    var m := items + [Line(a, q1)];
    assert Merged(items, a, q1) == m;
    assert forall k :: 0 <= k < |items| ==> m[k] == items[k];
    IndexOfIs(m, a, |items|);
    var r := Merged(m, a, q2);
    assert |r| == |items| + 1 && r[|items|] == Line(a, q1 + q2);
    assert forall k :: 0 <= k < |items| ==> r[k] == items[k];
    assert r == items + [Line(a, q1 + q2)];
  }

  /** Removing `q` from a duplicate-free cart saturates at an absent line:
      album `a` is left holding `max(0, old - q)`, the others are untouched. */
  lemma {:induction false} DecrementedQuantities(items: seq<Line>, a: AlbumId, q: int)
    requires NoDuplicates(items) && IndexOf(items, a) >= 0
    ensures var old_q := QuantityOf(items, a);
      QuantityOf(Decremented(items, a, q), a) == if old_q > q then old_q - q else 0
    ensures forall b :: b != a ==> QuantityOf(Decremented(items, a, q), b) == QuantityOf(items, b)
  {
    var i := IndexOf(items, a);
    QuantityOfLine(items, a);
    if items[i].quantity > q {
      var x := Line(a, items[i].quantity - q);
      assert Decremented(items, a, q) == items[i := x];
      UpdateQuantities(items, i, x);
    } else {
      assert Decremented(items, a, q) == items[..i] + items[i + 1..];
      SpliceQuantities(items, i);
    }
  }

  /** `QuantityOfSplice` for every album at once. */
  lemma {:induction false} SpliceQuantities(items: seq<Line>, i: nat)
    requires i < |items|
    ensures QuantityOf(items[..i] + items[i + 1..], items[i].album) == QuantityOf(items, items[i].album) - items[i].quantity
    ensures forall b :: b != items[i].album ==> QuantityOf(items[..i] + items[i + 1..], b) == QuantityOf(items, b)
  {
    QuantityOfSplice(items, i, items[i].album);
    forall b ensures QuantityOf(items[..i] + items[i + 1..], b) ==
                     QuantityOf(items, b) - (if items[i].album == b then items[i].quantity else 0) {
      QuantityOfSplice(items, i, b);
    }
  }

  /** Removing keeps the cart duplicate-free and positive, whatever `q` is:
      a line is only kept when it holds more than `q`. */
  lemma {:induction false} DecrementedWellFormed(items: seq<Line>, a: AlbumId, q: int)
    requires WellFormed(items) && IndexOf(items, a) >= 0
    ensures WellFormed(Decremented(items, a, q))
  {
    var i := IndexOf(items, a);
    if items[i].quantity > q {
      var x := Line(items[i].album, items[i].quantity - q);
      assert Decremented(items, a, q) == items[i := x];
      UpdateWellFormed(items, i, x);
    } else {
      assert Decremented(items, a, q) == items[..i] + items[i + 1..];
      SpliceWellFormed(items, i);
    }
  }

  /** A remove of at least the line's quantity deletes exactly that line. */
  lemma {:induction false} DecrementedDeletes(items: seq<Line>, a: AlbumId, q: int)
    requires NoDuplicates(items) && IndexOf(items, a) >= 0
    ensures var r := Decremented(items, a, q);
      (IndexOf(r, a) == -1) == (items[IndexOf(items, a)].quantity <= q)
  {
    var r := Decremented(items, a, q);
    var i := IndexOf(items, a);
    if items[i].quantity <= q {
      assert r == items[..i] + items[i + 1..];
      SpliceRemovesAlbum(items, i);
    } else {
      assert r == items[i := Line(items[i].album, items[i].quantity - q)];
      assert r[i].album == a;
      assert IndexOf(r, a) != -1;
    }
  }

  /** Add and remove keep every stored cart well formed. */
  lemma {:induction false} RoutesKeepCartsWellFormed(catalog: set<AlbumId>, carts: Carts, owner: UserId,
                                  albumId: Option<AlbumId>, quantity: Option<int>)
    requires AllWellFormed(carts)
    ensures var r := Add(catalog, carts, owner, albumId, quantity);
      r.Ok? ==> AllWellFormed(carts[owner := r.value])
    ensures var r := Remove(catalog, carts, owner, albumId, quantity);
      r.Ok? ==> AllWellFormed(carts[owner := r.value])
  {
    if ValidBody(albumId, quantity) && owner in carts {
      MergedWellFormed(carts[owner], albumId.value, quantity.value);
      if IndexOf(carts[owner], albumId.value) >= 0 {
        DecrementedWellFormed(carts[owner], albumId.value, quantity.value);
      }
    }
  }
}
