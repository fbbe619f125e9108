/** The order history page: what it holds after each GET /api/order/history
    reply, which panel it shows, and the labels on an order card. */
module OrderHistory {
  import opened Lines
  import opened Text
  import opened Http
  import opened OrderRoutes

  // ---- Order cards ----

  /** `getTotalItems(items)`: the quantities of an order's items added up. */
  function ItemCount(items: seq<HistoryItem>): (n: int)
    ensures (forall k :: 0 <= k < |items| ==> items[k].quantity >= 1) ==> n >= |items|
  {
    if items == [] then 0
    else ItemCount(items[..|items| - 1]) + items[|items| - 1].quantity
  }

  /** Items with the quantities of `lines`, position by position, count as many
      copies as the lines hold. */
  lemma {:induction false} ItemCountMatchesLines(items: seq<HistoryItem>, lines: seq<Line>)
    requires |items| == |lines|
    requires forall k :: 0 <= k < |items| ==> items[k].quantity == lines[k].quantity
    ensures ItemCount(items) == TotalQuantity(lines)
  {
    if items != [] {
      var n := |items| - 1;
      ItemCountMatchesLines(items[..n], lines[..n]);
    }
  }

  /** The count on a history card is the number of copies the order was
      placed with. */
  lemma {:induction false} ItemCountOfOrder(catalog: Catalog, o: Order)
    requires Resolvable(catalog, o)
    ensures ItemCount(Project(catalog, o).items) == TotalQuantity(o.items)
  {
    ItemCountMatchesLines(Project(catalog, o).items, o.items);
  }

  /** `order._id.slice(-8)`: the last eight characters, or the whole id when it
      is shorter. */
  function ShortId(id: string): (r: string)
    ensures |r| == if |id| < 8 then |id| else 8
    ensures r == id[|id| - |r|..]
  {
    if |id| <= 8 then id else id[|id| - 8..]
  }

  /** Shortening an already short id changes nothing. */
  lemma ShortIdIdempotent(id: string)
    ensures ShortId(ShortId(id)) == ShortId(id)
  {
  }

  /** `{n} {n === 1 ? "order" : "orders"} placed`. */
  function Subtitle(n: nat): (s: string)
    ensures |s| == |NatToString(n)| + if n == 1 then 13 else 14
    ensures n == 1 <==> s[|s| - 13..] == " order placed"
    ensures n != 1 ==> s[|s| - 14..] == " orders placed"
    ensures s[..|NatToString(n)|] == NatToString(n) && s[|NatToString(n)|] == ' '
  {
    var digits := NatToString(n);
    SubtitleTail(digits, n == 1);
    digits + " " + (if n == 1 then "order" else "orders") + " placed"
  }

  /** The subtitle starts with the digits of the count, which read back as it. */
  lemma SubtitleCount(n: nat)
    ensures var s := Subtitle(n); var k := |NatToString(n)|;
      AllDigits(s[..k]) && DigitsValue(s[..k]) == n && s[k] == ' '
  {
    DigitsValueOfNatToString(n);
  }

  /** Where the count and the words sit in `count + " " + word + " placed"`. */
  lemma {:induction false} SubtitleTail(d: string, one: bool)
    ensures var s := d + " " + (if one then "order" else "orders") + " placed";
      |s| == |d| + (if one then 13 else 14) &&
      (one <==> s[|s| - 13..] == " order placed") &&
      (!one ==> s[|s| - 14..] == " orders placed") &&
      s[..|d|] == d && s[|d|] == ' '
  {
    if one {
      var s := d + " order placed";
      assert d + " " + "order" + " placed" == s;
      assert s[|d|..] == " order placed";
    } else {
      var s := d + " orders placed";
      assert d + " " + "orders" + " placed" == s;
      assert s[|d|..] == " orders placed";
      assert s[|s| - 13] == 'o';
    }
  }

  // ---- The page state ----

  datatype ViewState = ViewState(orders: seq<HistoryEntry>, loading: bool, error: string)

  const Initial := ViewState([], true, "")

  /** The panel the page renders: the spinner first, then an error, then the
      empty notice, else the order cards. */
  datatype Screen = Spinner | ErrorPanel(message: string) | NoOrders | OrderCards(orders: seq<HistoryEntry>)

  function Show(st: ViewState): (sc: Screen)
    ensures sc.ErrorPanel? <==> !st.loading && st.error != ""
    ensures sc.OrderCards? ==> sc.orders == st.orders && st.orders != []
  {
    if st.loading then Spinner
    else if st.error != "" then ErrorPanel(st.error)
    else if st.orders == [] then NoOrders
    else OrderCards(st.orders)
  }

  /** `fetchOrderHistory` as written: the body's `orders` (or none) on success,
      no orders on 404, an error message otherwise; the spinner then stops. It
      never clears an error set by an earlier attempt. */
  function FetchAsWritten(st: ViewState, reply: Reply<Option<seq<HistoryEntry>>>): (r: ViewState)
    ensures !r.loading
    ensures reply.Success? ==>
      r.orders == (if reply.body.Some? then reply.body.value else []) && r.error == st.error
    ensures reply.HttpError? && reply.status == 404 ==> r.orders == [] && r.error == st.error
    ensures reply.HttpError? && reply.status != 404 ==>
      r.orders == st.orders && r.error == "Failed to load order history"
    ensures reply.NetworkFailure? ==> r.orders == st.orders && r.error == "Network error"
  {
    match reply
    case Success(body) => ViewState(if body.Some? then body.value else [], false, st.error)
    case HttpError(status) =>
      if status == 404 then ViewState([], false, st.error)
      else ViewState(st.orders, false, "Failed to load order history")
    case NetworkFailure => ViewState(st.orders, false, "Network error")
  }

  /** "Try Again" after a network error: the retry succeeds with an order, yet
      the page keeps showing the old error panel instead of the order. */
  lemma RetryKeepsStaleError(e: HistoryEntry)
    ensures var failed := FetchAsWritten(Initial, NetworkFailure);
      var retried := FetchAsWritten(failed, Success(Some([e])));
      Show(retried) == ErrorPanel("Network error")
  {
  }

  /** The loader with the stale error cleared when a reply arrives. */
  function Fetch(st: ViewState, reply: Reply<Option<seq<HistoryEntry>>>): (r: ViewState)
    ensures !r.loading
    ensures reply.Success? ==>
      r.orders == (if reply.body.Some? then reply.body.value else []) && r.error == ""
    ensures reply.HttpError? && reply.status == 404 ==> r.orders == [] && r.error == ""
    ensures reply.HttpError? && reply.status != 404 ==> r.error == "Failed to load order history"
    ensures reply.NetworkFailure? ==> r.error == "Network error"
  {
    FetchAsWritten(ViewState(st.orders, st.loading, ""), reply)
  }

  /** The panel a reply calls for, whatever happened before. */
  function Expected(reply: Reply<Option<seq<HistoryEntry>>>): Screen {
    match reply
    case Success(body) =>
      if body.None? || body.value == [] then NoOrders else OrderCards(body.value)
    case HttpError(status) =>
      if status == 404 then NoOrders else ErrorPanel("Failed to load order history")
    case NetworkFailure => ErrorPanel("Network error")
  }

  /** With the error cleared, every load or retry shows what its reply calls
      for: 404 is an empty history, not an error. */
  lemma FetchShowsReply(st: ViewState, reply: Reply<Option<seq<HistoryEntry>>>)
    ensures Show(Fetch(st, reply)) == Expected(reply)
  {
  }

  /** On the first load the two loaders agree, so the page as written shows the
      right panel until an error has been set. */
  lemma {:induction false} FirstLoadAgrees(reply: Reply<Option<seq<HistoryEntry>>>)
    ensures FetchAsWritten(Initial, reply) == Fetch(Initial, reply)
    ensures Show(FetchAsWritten(Initial, reply)) == Expected(reply)
  {
    FetchShowsReply(Initial, reply);
  }
}
