/** The error replies of the cart and order routes: each kind with the HTTP
    status and the `error` message the route sends. */
module Replies {

  datatype Failure =
    | BadCartInput       // PUT /cart/add and /cart/remove: missing albumId or quantity
    | AlbumNotFound      // PUT /cart/add and /cart/remove: no such album
    | CartNotFound       // any cart or checkout route: the user has no cart
    | CartAlreadyExists  // POST /cart
    | AlbumNotInCart     // PUT /cart/remove
    | CartIsEmpty        // POST /order
    | OrdersNotFound     // GET /order
    | NoOrderHistory     // GET /order/history
    | InternalError      // GET /order/history: the catch-all

  /** The HTTP status each failure is sent with. */
  function Status(f: Failure): (code: int)
    ensures code == 404 <==> f.AlbumNotFound? || f.CartNotFound? || f.OrdersNotFound? || f.NoOrderHistory?
    ensures code == 500 <==> f.InternalError?
    ensures code == 400 || code == 404 || code == 500
  {
    match f
    case BadCartInput => 400
    case AlbumNotFound => 404
    case CartNotFound => 404
    case CartAlreadyExists => 400
    case AlbumNotInCart => 400
    case CartIsEmpty => 400
    case OrdersNotFound => 404
    case NoOrderHistory => 404
    case InternalError => 500
  }

  /** The `error` field of the reply body. */
  function Message(f: Failure): (m: string)
    ensures m != ""
  {
    match f
    case BadCartInput => "albumId and positive quantity are required"
    case AlbumNotFound => "Album not found"
    case CartNotFound => "Cart not found for this user"
    case CartAlreadyExists => "Cart already exists for this user"
    case AlbumNotInCart => "Album not in cart"
    case CartIsEmpty => "Cart is empty"
    case OrdersNotFound => "Orders not found for this user"
    case NoOrderHistory => "No order history found for this user"
    case InternalError => "Internal Server Error"
  }

  /** A status can be shared (a missing album and a missing cart both answer
      404), but the message tells every failure apart. */
  lemma MessagesDistinguishFailures(f: Failure, g: Failure)
    ensures Message(f) == Message(g) <==> f == g
    ensures Status(AlbumNotFound) == Status(CartNotFound)
  {
    // The nine messages have nine different lengths.
    if Message(f) == Message(g) {
      assert |Message(f)| == |Message(g)|;
    }
  }

  /** A route's reply: the payload on success, otherwise the error sent. */
  datatype Result<+T> = Ok(value: T) | Err(failure: Failure)
}
