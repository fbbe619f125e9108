/** The shopping-cart page: which request a quantity button sends, what the
    page shows for the cart it holds, and how the state it keeps (`cart`,
    `loading`, `error`) changes with each reply. */
module CartPage {
  import opened Lines
  import opened Replies
  import opened Http
  import CartRoutes

  /** The two bodies the page sends: PUT /api/cart/add and /api/cart/remove. */
  datatype CartRequest = AddRequest(album: AlbumId, quantity: int) | RemoveRequest(album: AlbumId, quantity: int)

  /** The quantity the trash button and a target of zero or less remove. */
  const RemoveAll := 999

  /** `updateQuantity(albumId, newQuantity)` up to the request it sends: none
      (the lookup of the current line threw) when there is no cart or no line
      for the album. */
  function ChooseRequest(cart: Option<seq<Line>>, a: AlbumId, newQuantity: int): (r: Option<CartRequest>)
    ensures newQuantity <= 0 ==> r == Some(RemoveRequest(a, RemoveAll))
    ensures r.None? <==> newQuantity > 0 && (cart.None? || IndexOf(cart.value, a) == -1)
    ensures newQuantity > 0 && r.Some? ==>
      var cur := cart.value[IndexOf(cart.value, a)].quantity;
      r.value == if newQuantity > cur then AddRequest(a, newQuantity - cur)
                 else RemoveRequest(a, cur - newQuantity)
  {
    if newQuantity <= 0 then Some(RemoveRequest(a, RemoveAll))
    else if cart.None? then None
    else
      var i := IndexOf(cart.value, a);
      if i == -1 then None
      else
        var diff := newQuantity - cart.value[i].quantity;
        if diff > 0 then Some(AddRequest(a, diff))
        else Some(RemoveRequest(a, if diff < 0 then -diff else diff))
  }

  /** The backend's answer to a request from the page. */
  function Send(catalog: set<AlbumId>, carts: CartRoutes.Carts, owner: UserId, req: CartRequest): Result<seq<Line>> {
    match req
    case AddRequest(a, q) => CartRoutes.Add(catalog, carts, owner, Some(a), Some(q))
    case RemoveRequest(a, q) => CartRoutes.Remove(catalog, carts, owner, Some(a), Some(q))
  }

  /** The backend's answer to a request as the page sends it today: the cart
      routes return each line's `album` as a bare id, so `item.album._id` is
      undefined and the body carries no `albumId` at all. */
  function SendAsWritten(catalog: set<AlbumId>, carts: CartRoutes.Carts, owner: UserId, req: CartRequest): Result<seq<Line>> {
    match req
    case AddRequest(_, q) => CartRoutes.Add(catalog, carts, owner, None, Some(q))
    case RemoveRequest(_, q) => CartRoutes.Remove(catalog, carts, owner, None, Some(q))
  }

  /** As written, every request of the "-", "+" and trash buttons, whatever
      quantity it carries, is rejected with 400 and leaves the owner's lines as
      they were. */
  lemma ButtonsAsWrittenChangeNothing(catalog: set<AlbumId>, carts: CartRoutes.Carts, owner: UserId, req: CartRequest)
    requires owner in carts
    ensures SendAsWritten(catalog, carts, owner, req) == Err(BadCartInput)
    ensures CartRoutes.LinesAfter(carts, owner, SendAsWritten(catalog, carts, owner, req)) == carts[owner]
  {
  }

  /** The quantity the cart holds for `a` when it has a line for it. */
  function Current(items: seq<Line>, a: AlbumId): int
    requires IndexOf(items, a) >= 0
  {
    items[IndexOf(items, a)].quantity
  }

  /** The owner's lines once the page's quantity update has been answered. */
  function Landed(catalog: set<AlbumId>, carts: CartRoutes.Carts, owner: UserId, a: AlbumId, target: int): seq<Line>
    requires owner in carts && IndexOf(carts[owner], a) >= 0 && target >= 1
  {
    CartRoutes.LinesAfter(carts, owner, Send(catalog, carts, owner, ChooseRequest(Some(carts[owner]), a, target).value))
  }

  /** With the line's own album id in the body, pressing "+" or "-" on a line the
      cart holds lands that album at the target quantity and leaves every other
      album alone. A target equal to the current
      quantity sends a remove of 0, which the backend rejects with 400, and the
      line stays where it is, at the target. */
  lemma {:induction false} UpdateLandsOnTarget(catalog: set<AlbumId>, carts: CartRoutes.Carts, owner: UserId,
                                               a: AlbumId, target: int)
    requires CartRoutes.AllWellFormed(carts) && owner in carts
    requires a != "" && a in catalog && IndexOf(carts[owner], a) >= 0
    requires target >= 1
    ensures ChooseRequest(Some(carts[owner]), a, target).Some?
    ensures var after := Landed(catalog, carts, owner, a, target);
      QuantityOf(after, a) == target &&
      (forall b :: b != a ==> QuantityOf(after, b) == QuantityOf(carts[owner], b)) &&
      WellFormed(after)
  {
    var items := carts[owner];
    var cur := Current(items, a);
    QuantityOfLine(items, a);
    if target > cur {
      RaiseLands(catalog, carts, owner, a, target);
    } else if target < cur {
      LowerLands(catalog, carts, owner, a, target);
    } else {
      var req := ChooseRequest(Some(items), a, target);
      assert req == Some(RemoveRequest(a, 0));
      assert Send(catalog, carts, owner, req.value) == Err(BadCartInput);
    }
  }

  /** A target above the current quantity: the add of the difference lands on it. */
  lemma {:induction false} RaiseLands(catalog: set<AlbumId>, carts: CartRoutes.Carts, owner: UserId, a: AlbumId, target: int)
    requires CartRoutes.AllWellFormed(carts) && owner in carts
    requires a != "" && a in catalog && IndexOf(carts[owner], a) >= 0
    requires target > Current(carts[owner], a)
    ensures var after := Landed(catalog, carts, owner, a, target);
      var d := target - Current(carts[owner], a);
      after == CartRoutes.Merged(carts[owner], a, d) &&
      QuantityOf(after, a) == QuantityOf(carts[owner], a) + d &&
      (forall b :: b != a ==> QuantityOf(after, b) == QuantityOf(carts[owner], b)) &&
      WellFormed(after)
  {
    var items := carts[owner];
    var d := target - Current(items, a);
    var req := ChooseRequest(Some(items), a, target);
    assert req == Some(AddRequest(a, d));
    assert Send(catalog, carts, owner, req.value) == Ok(CartRoutes.Merged(items, a, d));
    CartRoutes.MergedQuantities(items, a, d);
    CartRoutes.MergedWellFormed(items, a, d);
  }

  /** A target below the current quantity: the remove of the difference lands on it. */
  lemma LowerLands(catalog: set<AlbumId>, carts: CartRoutes.Carts, owner: UserId, a: AlbumId, target: int)
    requires CartRoutes.AllWellFormed(carts) && owner in carts
    requires a != "" && a in catalog && IndexOf(carts[owner], a) >= 0
    requires 1 <= target < Current(carts[owner], a)
    ensures var after := Landed(catalog, carts, owner, a, target);
      var d := Current(carts[owner], a) - target;
      after == CartRoutes.Decremented(carts[owner], a, d) &&
      QuantityOf(after, a) == (if QuantityOf(carts[owner], a) > d then QuantityOf(carts[owner], a) - d else 0) &&
      (forall b :: b != a ==> QuantityOf(after, b) == QuantityOf(carts[owner], b)) &&
      WellFormed(after)
  {
    var items := carts[owner];
    var d := Current(items, a) - target;
    var req := ChooseRequest(Some(items), a, target);
    assert req == Some(RemoveRequest(a, d));
    assert Send(catalog, carts, owner, req.value) == Ok(CartRoutes.Decremented(items, a, d));
    CartRoutes.DecrementedQuantities(items, a, d);
    CartRoutes.DecrementedWellFormed(items, a, d);
  }

  /** The trash button's remove of 999 deletes the line exactly when it holds at
      most 999 copies; otherwise 999 copies are taken off. */
  lemma {:induction false} TrashDeletesLine(catalog: set<AlbumId>, carts: CartRoutes.Carts, owner: UserId, a: AlbumId)
    requires CartRoutes.AllWellFormed(carts) && owner in carts
    requires a != "" && a in catalog && IndexOf(carts[owner], a) >= 0
    ensures var r := Send(catalog, carts, owner, RemoveRequest(a, RemoveAll));
      var cur := carts[owner][IndexOf(carts[owner], a)].quantity;
      r.Ok? &&
      (IndexOf(r.value, a) == -1 <==> cur <= RemoveAll) &&
      QuantityOf(r.value, a) == (if cur > RemoveAll then cur - RemoveAll else 0)
  {
    CartRoutes.DecrementedDeletes(carts[owner], a, RemoveAll);
    CartRoutes.DecrementedQuantities(carts[owner], a, RemoveAll);
    QuantityOfLine(carts[owner], a);
  }

  /** `getTotalItems`: the summary's item count, 0 without a cart. */
  function TotalItems(cart: Option<seq<Line>>): (n: int)
    ensures cart.None? ==> n == 0
    ensures cart.Some? ==> n == TotalQuantity(cart.value)
    ensures cart.Some? && AllPositive(cart.value) ==> n >= |cart.value|
  {
    if cart.None? then 0 else TotalQuantity(cart.value)
  }

  /** The "Your cart is empty" panel replaces the items and the summary. */
  predicate ShowsEmpty(cart: Option<seq<Line>>): (b: bool)
    ensures cart.None? ==> b
    ensures cart.Some? && cart.value != [] ==> !b
  {
    cart.None? || |cart.value| == 0
  }

  /** The checkout button's `disabled` attribute. */
  predicate CheckoutDisabled(cart: Option<seq<Line>>): (b: bool)
    requires cart.Some?
    ensures b ==> ShowsEmpty(cart)
  {
    |cart.value| == 0
  }

  /** For a cart of positive lines the empty panel is shown exactly when the item
      count is 0, and whenever the checkout button is shown it is enabled. */
  lemma {:induction false} EmptyPanelIffNoItems(cart: Option<seq<Line>>)
    requires cart.Some? ==> AllPositive(cart.value)
    ensures ShowsEmpty(cart) <==> TotalItems(cart) == 0
    ensures !ShowsEmpty(cart) ==> !CheckoutDisabled(cart)
  {
    if cart.Some? {
      TotalQuantityZero(cart.value);
    }
  }

  /** The page's state: the last cart the server sent, the spinner, the banner. */
  class CartView {
    var cart: Option<seq<Line>>
    var loading: bool
    var error: string

    constructor ()
      ensures cart.None? && loading && error == ""
    {
      cart := None;
      loading := true;
      error := "";
    }

    /** `fetchCart` on mount: show the cart, or create one when GET answers 404.
        The spinner stops whatever happens. */
    method Load(getReply: Reply<seq<Line>>, createReply: Reply<seq<Line>>)
      modifies this
      ensures !loading
      ensures getReply.Success? ==> cart == Some(getReply.body) && error == old(error)
      ensures getReply.HttpError? && getReply.status == 404 ==>
        (createReply.Success? ==> cart == Some(createReply.body) && error == old(error)) &&
        (createReply.HttpError? ==> cart == old(cart) && error == old(error)) &&
        (createReply.NetworkFailure? ==> cart == old(cart) && error == "Failed to create cart")
      ensures getReply.HttpError? && getReply.status != 404 ==>
        cart == old(cart) && error == "Failed to load cart"
      ensures getReply.NetworkFailure? ==> cart == old(cart) && error == "Network error"
    {
      match getReply {
        case Success(c) =>
          cart := Some(c);
        case HttpError(status) =>
          if status == 404 {
            CreateCart(createReply);
          } else {
            error := "Failed to load cart";
          }
        case NetworkFailure =>
          error := "Network error";
      }
      loading := false;
    }

    /** `createCart`: POST /api/cart. */
    method CreateCart(reply: Reply<seq<Line>>)
      modifies this`cart, this`error
      ensures reply.Success? ==> cart == Some(reply.body) && error == old(error)
      ensures reply.HttpError? ==> cart == old(cart) && error == old(error)
      ensures reply.NetworkFailure? ==> cart == old(cart) && error == "Failed to create cart"
    {
      match reply {
        case Success(c) => cart := Some(c);
        case HttpError(_) =>
        case NetworkFailure => error := "Failed to create cart";
      }
    }

    /** `addToCart` and `removeFromCart`: show the returned cart on success,
        ignore a rejection, and report a network failure. */
    method Apply(req: CartRequest, reply: Reply<seq<Line>>)
      modifies this`cart, this`error
      ensures reply.Success? ==> cart == Some(reply.body) && error == old(error)
      ensures reply.HttpError? ==> cart == old(cart) && error == old(error)
      ensures reply.NetworkFailure? ==> cart == old(cart)
      ensures reply.NetworkFailure? ==>
        error == if req.AddRequest? then "Failed to add to cart" else "Failed to remove from cart"
    {
      match reply {
        case Success(c) => cart := Some(c);
        case HttpError(_) =>
        case NetworkFailure =>
          error := if req.AddRequest? then "Failed to add to cart" else "Failed to remove from cart";
      }
    }

    /** `updateQuantity`: send the request `ChooseRequest` picks and apply its
        reply, or report the failed line lookup without sending anything. */
    method UpdateQuantity(a: AlbumId, newQuantity: int, reply: Reply<seq<Line>>)
      returns (sent: Option<CartRequest>)
      modifies this`cart, this`error
      ensures sent == ChooseRequest(old(cart), a, newQuantity)
      ensures sent.None? ==> cart == old(cart) && error == "Failed to update quantity"
      ensures sent.Some? && reply.Success? ==> cart == Some(reply.body) && error == old(error)
      ensures sent.Some? && reply.HttpError? ==> cart == old(cart) && error == old(error)
      ensures sent.Some? && reply.NetworkFailure? ==> cart == old(cart)
      ensures sent.Some? && reply.NetworkFailure? ==>
        error == if sent.value.AddRequest? then "Failed to add to cart" else "Failed to remove from cart"
    {
      sent := ChooseRequest(cart, a, newQuantity);
      if sent.None? {
        error := "Failed to update quantity";
      } else {
        Apply(sent.value, reply);
      }
    }
  }
}
