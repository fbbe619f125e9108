/** The `(album, quantity)` lines that both a cart and an order hold, the
    `findIndex` lookup the cart routes use on them, and the quantity sums that
    the client shows. */
module Lines {

  datatype Option<+T> = None | Some(value: T)

  /** Album and user ids as their hexadecimal string form. */
  type AlbumId = string
  type UserId = string

  /** One entry of a cart's or an order's `items` array. */
  datatype Line = Line(album: AlbumId, quantity: int)

  /** `items.findIndex(item => item.album === a)`: the first line for `a`, or -1. */
  function IndexOf(items: seq<Line>, a: AlbumId): (i: int)
    ensures -1 <= i < |items|
    ensures i == -1 <==> forall k :: 0 <= k < |items| ==> items[k].album != a
    ensures 0 <= i ==> items[i].album == a && forall k :: 0 <= k < i ==> items[k].album != a
  {
    if items == [] then -1
    else if items[0].album == a then 0
    else
      var j := IndexOf(items[1..], a);
      if j == -1 then -1 else j + 1
  }

  /** The first line for `a` is at `i`. */
  lemma IndexOfIs(items: seq<Line>, a: AlbumId, i: int)
    requires 0 <= i < |items| && items[i].album == a
    requires forall k :: 0 <= k < i ==> items[k].album != a
    ensures IndexOf(items, a) == i
  {
  }

  /** No two lines name the same album (lines are merged, never duplicated). */
  predicate NoDuplicates(items: seq<Line>) {
    forall i, j :: 0 <= i < j < |items| ==> items[i].album != items[j].album
  }

  /** Every stored quantity is at least 1 (the schema's `min: 1`). */
  predicate AllPositive(items: seq<Line>) {
    forall i :: 0 <= i < |items| ==> items[i].quantity >= 1
  }

  predicate WellFormed(items: seq<Line>) {
    NoDuplicates(items) && AllPositive(items)
  }

  /** `items.reduce((total, item) => total + item.quantity, 0)`. */
  function TotalQuantity(items: seq<Line>): (n: int)
    ensures AllPositive(items) ==> n >= |items|
  {
    if items == [] then 0
    else TotalQuantity(items[..|items| - 1]) + items[|items| - 1].quantity
  }

  /** How many copies of album `a` the lines hold in all. */
  function QuantityOf(items: seq<Line>, a: AlbumId): int {
    if items == [] then 0
    else
      var last := items[|items| - 1];
      QuantityOf(items[..|items| - 1], a) + if last.album == a then last.quantity else 0
  }

  /** In a duplicate-free cart the quantity of an album is that of its one line. */
  lemma {:induction false} QuantityOfLine(items: seq<Line>, a: AlbumId)
    requires NoDuplicates(items)
    ensures QuantityOf(items, a) == if IndexOf(items, a) >= 0 then items[IndexOf(items, a)].quantity else 0
  {
    if items != [] {
      var n := |items| - 1;
      var p := items[..n];
      assert NoDuplicates(p);
      QuantityOfLine(p, a);
      if items[n].album == a {
        assert forall k :: 0 <= k < n ==> items[k].album != a;
        assert IndexOf(p, a) == -1;
        assert IndexOf(items, a) == n;
      } else if IndexOf(p, a) >= 0 {
        assert IndexOf(items, a) == IndexOf(p, a);
      } else {
        assert IndexOf(items, a) == -1;
      }
    }
  }

  /** Replacing line `i` by `x` moves the quantities of both albums involved. */
  lemma {:induction false} QuantityOfUpdate(items: seq<Line>, i: nat, x: Line, b: AlbumId)
    requires i < |items|
    ensures QuantityOf(items[i := x], b) ==
            QuantityOf(items, b)
            - (if items[i].album == b then items[i].quantity else 0)
            + (if x.album == b then x.quantity else 0)
    ensures TotalQuantity(items[i := x]) == TotalQuantity(items) - items[i].quantity + x.quantity
  {
    var n := |items| - 1;
    if i < n {
      QuantityOfUpdate(items[..n], i, x, b);
      assert items[i := x][..n] == items[..n][i := x];
    } else {
      assert items[i := x][..n] == items[..n];
    }
  }

  /** Dropping line `i` takes its quantity out of the sums. */
  lemma {:induction false} QuantityOfSplice(items: seq<Line>, i: nat, b: AlbumId)
    requires i < |items|
    ensures QuantityOf(items[..i] + items[i + 1..], b) ==
            QuantityOf(items, b) - (if items[i].album == b then items[i].quantity else 0)
    ensures TotalQuantity(items[..i] + items[i + 1..]) == TotalQuantity(items) - items[i].quantity
  {
    var n := |items| - 1;
    if i < n {
      QuantityOfSplice(items[..n], i, b);
      SpliceBeforeLast(items, i);
    } else {
      assert items[..i] + items[i + 1..] == items[..n];
    }
  }

  /** Splicing before the last line keeps that line last. */
  lemma SpliceBeforeLast(items: seq<Line>, i: nat)
    requires i < |items| - 1
    ensures var r := items[..i] + items[i + 1..]; var n := |items| - 1;
      r != [] && r[..|r| - 1] == items[..n][..i] + items[..n][i + 1..] && r[|r| - 1] == items[n]
  {
  }

  /** The lines after dropping one keep their order. */
  lemma SpliceKeepsOrder(items: seq<Line>, i: nat)
    requires i < |items|
    ensures |items[..i] + items[i + 1..]| == |items| - 1
    ensures forall k :: 0 <= k < |items| - 1 ==>
      (items[..i] + items[i + 1..])[k] == if k < i then items[k] else items[k + 1]
  {
  }

  /** Splicing out a line of a well-formed cart leaves it well formed. */
  lemma {:induction false} SpliceWellFormed(items: seq<Line>, i: nat)
    requires WellFormed(items) && i < |items|
    ensures WellFormed(items[..i] + items[i + 1..])
  {
    var r := items[..i] + items[i + 1..];
    SpliceKeepsOrder(items, i);
    forall k, l | 0 <= k < l < |r| ensures r[k].album != r[l].album {
      var k' := if k < i then k else k + 1;
      var l' := if l < i then l else l + 1;
      assert r[k] == items[k'] && r[l] == items[l'] && k' < l';
    }
  }

  /** Splicing line `i` out of a duplicate-free cart removes its album. */
  lemma {:induction false} SpliceRemovesAlbum(items: seq<Line>, i: nat)
    requires NoDuplicates(items) && i < |items|
    ensures IndexOf(items[..i] + items[i + 1..], items[i].album) == -1
  {
    var r := items[..i] + items[i + 1..];
    SpliceKeepsOrder(items, i);
    forall k | 0 <= k < |r| ensures r[k].album != items[i].album {
      var k' := if k < i then k else k + 1;
      assert r[k] == items[k'];
    }
  }

  /** Rewriting a line's quantity to a positive one keeps the cart well formed. */
  lemma UpdateWellFormed(items: seq<Line>, i: nat, x: Line)
    requires WellFormed(items) && i < |items|
    requires x.album == items[i].album && x.quantity >= 1
    ensures WellFormed(items[i := x])
  {
  }

  /** Appending a line adds its quantity. */
  lemma {:induction false} AppendQuantity(items: seq<Line>, x: Line, b: AlbumId)
    ensures QuantityOf(items + [x], b) == QuantityOf(items, b) + (if x.album == b then x.quantity else 0)
    ensures TotalQuantity(items + [x]) == TotalQuantity(items) + x.quantity
  {
    assert (items + [x])[..|items|] == items;
  }

  /** A cart of positive lines has a zero total exactly when it has no lines. */
  lemma TotalQuantityZero(items: seq<Line>)
    requires AllPositive(items)
    ensures TotalQuantity(items) == 0 <==> items == []
  {
  }
}
