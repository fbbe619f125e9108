/** The album detail page: the `m:ss` track durations, the numbered track
    rows, and the guard in front of its "Add to Cart" button. */
module AlbumDetail {
  import opened Lines
  import opened Text
  import opened AlbumCards
  import CartPage
  import CartRoutes
  import opened Replies

  /** JavaScript's `seconds % 60`: the remainder takes the sign of `seconds`
      (Dafny's `%` never goes negative). */
  function JsRem60(seconds: int): (r: int)
    ensures seconds >= 0 ==> r == seconds % 60
    ensures seconds < 0 ==> -60 < r <= 0 && (seconds - r) % 60 == 0
  {
    if seconds >= 0 then seconds % 60 else -((-seconds) % 60)
  }

  /** `formatDuration(seconds)` for whole seconds: `Math.floor(seconds / 60)`
      (Dafny's `/` by a positive divisor rounds down as `Math.floor` does), a
      colon, and the JavaScript remainder left-padded with "0" to two places. */
  function FormatDuration(seconds: int): (s: string)
    ensures var m := IntToString(seconds / 60);
      |s| >= |m| + 3 && s[|m|] == ':'
  {
    IntToString(seconds / 60) + ":" + PadStart(IntToString(JsRem60(seconds)), 2, '0')
  }

  /** The two digits printed for a remainder below 60 read back as it. */
  lemma {:induction false} PaddedSeconds(r: nat)
    requires r < 60
    ensures var p := PadStart(NatToString(r), 2, '0');
      |p| == 2 && AllDigits(p) && DigitsValue(p) == r
  {
    DigitsValueOfNatToString(r);
    var p := PadStart(NatToString(r), 2, '0');
    if r < 10 {
      assert p == "0" + NatToString(r);
      assert p[..1] == "0";
    } else {
      assert NatToString(r) == NatToString(r / 10) + [DigitChar(r % 10)];
    }
  }

  /** For a non-negative duration the seconds field is exactly two digits below
      60, the minutes field is the decimal minutes, and reading both back gives
      the duration: `60 * m + r == seconds`. */
  lemma {:induction false} FormatDurationRoundTrip(seconds: int)
    requires seconds >= 0
    ensures var s := FormatDuration(seconds);
      |s| >= 4 && s[|s| - 3] == ':' &&
      AllDigits(s[..|s| - 3]) && AllDigits(s[|s| - 2..]) &&
      DigitsValue(s[|s| - 2..]) < 60 &&
      60 * DigitsValue(s[..|s| - 3]) + DigitsValue(s[|s| - 2..]) == seconds
  {
    var ms, p := DurationParts(seconds);
    ReadBack(FormatDuration(seconds), ms, p, seconds / 60, seconds % 60);
  }

  /** The minutes and seconds texts of a non-negative duration, with what they
      read back as. */
  lemma {:induction false} DurationParts(seconds: int) returns (ms: string, p: string)
    requires seconds >= 0
    ensures FormatDuration(seconds) == ms + ":" + p
    ensures |ms| >= 1 && AllDigits(ms) && DigitsValue(ms) == seconds / 60
    ensures |p| == 2 && AllDigits(p) && DigitsValue(p) == seconds % 60
  {
    ms, p := NatToString(seconds / 60), PadStart(NatToString(seconds % 60), 2, '0');
    FormatDurationOfNat(seconds);
    PaddedSeconds(seconds % 60);
    DigitsValueOfNatToString(seconds / 60);
  }

  /** Minutes digits, a colon and two seconds digits read back as `60 * m + r`. */
  lemma ReadBack(s: string, ms: string, p: string, m: nat, r: nat)
    requires s == ms + ":" + p
    requires |ms| >= 1 && AllDigits(ms) && DigitsValue(ms) == m
    requires |p| == 2 && AllDigits(p) && DigitsValue(p) == r && r < 60
    ensures |s| >= 4 && s[|s| - 3] == ':' &&
      AllDigits(s[..|s| - 3]) && AllDigits(s[|s| - 2..]) &&
      DigitsValue(s[|s| - 2..]) < 60 &&
      60 * DigitsValue(s[..|s| - 3]) + DigitsValue(s[|s| - 2..]) == 60 * m + r
  {
    ColonLayout(ms, p);
  }

  /** For a non-negative duration both printed numbers are natural-number texts. */
  lemma FormatDurationOfNat(seconds: int)
    requires seconds >= 0
    ensures FormatDuration(seconds) ==
            NatToString(seconds / 60) + ":" + PadStart(NatToString(seconds % 60), 2, '0')
  {
  }

  /** Where the parts of `minutes + ":" + seconds` sit in the joined string. */
  lemma ColonLayout(ms: string, p: string)
    requires |p| == 2
    ensures var s := ms + ":" + p;
      |s| == |ms| + 3 && s[..|s| - 3] == ms && s[|s| - 3] == ':' && s[|s| - 2..] == p
  {
  }

  /** A track as GET /api/track/album/:id sends it. */
  datatype Track = Track(title: string, durationSeconds: int)

  /** One row of the track list: its number, title and formatted duration. */
  datatype TrackRow = TrackRow(number: int, title: string, duration: string)

  /** `tracks.map((track, index) => ...)`: rows numbered from 1 in list order. */
  function TrackRows(tracks: seq<Track>): (rows: seq<TrackRow>)
    ensures |rows| == |tracks|
    ensures forall i :: 0 <= i < |rows| ==>
      rows[i].number == i + 1 && rows[i].title == tracks[i].title &&
      rows[i].duration == FormatDuration(tracks[i].durationSeconds)
  {
    seq(|tracks|, i requires 0 <= i < |tracks| =>
      TrackRow(i + 1, tracks[i].title, FormatDuration(tracks[i].durationSeconds)))
  }

  /** `addToCart`: nothing is sent when logged out or before the album loaded;
      otherwise one copy of the shown album is added. */
  function AddToCart(isLoggedIn: bool, album: Option<AlbumCard>): (r: Option<CartPage.CartRequest>)
    ensures r.None? <==> !isLoggedIn || album.None?
    ensures r.Some? ==> r.value == CartPage.AddRequest(album.value.id, 1)
  {
    if !isLoggedIn || album.None? then None else Some(CartPage.AddRequest(album.value.id, 1))
  }

  /** The request the button sends adds exactly one copy of the album to an
      existing cart and leaves the other albums alone. */
  lemma {:induction false} AddToCartAddsOne(catalog: set<AlbumId>, carts: CartRoutes.Carts, owner: UserId, album: AlbumCard)
    requires owner in carts && album.id != "" && album.id in catalog
    ensures var r := CartPage.Send(catalog, carts, owner, AddToCart(true, Some(album)).value);
      r.Ok? &&
      QuantityOf(r.value, album.id) == QuantityOf(carts[owner], album.id) + 1 &&
      forall b :: b != album.id ==> QuantityOf(r.value, b) == QuantityOf(carts[owner], b)
  {
    var items := carts[owner];
    var req := AddToCart(true, Some(album)).value;
    assert req == CartPage.AddRequest(album.id, 1);
    assert CartRoutes.ValidBody(Some(album.id), Some(1));
    var r := CartRoutes.Add(catalog, carts, owner, Some(album.id), Some(1));
    assert r == Ok(CartRoutes.Merged(items, album.id, 1));
    assert CartPage.Send(catalog, carts, owner, req) == r;
    CartRoutes.MergedQuantities(items, album.id, 1);
  }
}
