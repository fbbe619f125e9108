/** The home page's album list: the search filter, the grouping by genre, the
    first fifteen cards of each group, and the truncated labels on a card. */
module AlbumList {
  import opened Lines
  import opened Text
  import opened Seqs
  import opened AlbumCards

  // ---- Search ----

  /** `field?.toLowerCase().includes(needle)`: a missing field never matches. */
  predicate FieldHas(field: Option<string>, needle: string) {
    field.Some? && Includes(Lower(field.value), needle)
  }

  /** The search predicate: an empty term keeps everything; otherwise the
      lower-cased term must occur in the lower-cased title, artist name or genre
      name. */
  predicate Matches(term: string, a: AlbumCard): (b: bool)
    ensures term == "" ==> b
    ensures a.title.None? && ArtistName(a).None? && GenreName(a).None? ==> (b <==> term == "")
  {
    term == "" ||
    FieldHas(a.title, Lower(term)) || FieldHas(ArtistName(a), Lower(term)) ||
    FieldHas(GenreName(a), Lower(term))
  }

  function Matcher(term: string): AlbumCard -> bool {
    (a: AlbumCard) => Matches(term, a)
  }

  /** `filteredAlbums`. */
  function Filtered(albums: seq<AlbumCard>, term: string): (r: seq<AlbumCard>)
    ensures |r| <= |albums|
  {
    Filter(albums, Matcher(term))
  }

  /** The filtered list keeps the input order and holds exactly the matching
      albums, and an empty term keeps the whole list. */
  lemma {:induction false} FilteredIsMatchingSubsequence(albums: seq<AlbumCard>, term: string)
    ensures IsSubsequence(Filtered(albums, term), albums)
    ensures forall a :: a in Filtered(albums, term) <==> a in albums && Matches(term, a)
    ensures term == "" ==> Filtered(albums, term) == albums
  {
    FilterIsSubsequence(albums, Matcher(term));
    FilterMembers(albums, Matcher(term));
    if term == "" {
      FilterAll(albums, Matcher(term));
    }
  }

  /** A non-empty term matches a field exactly when the lower-cased term occurs
      at some position of the lower-cased field. */
  lemma {:induction false} FieldHasMeansOccurs(field: string, term: string)
    ensures FieldHas(Some(field), Lower(term)) <==> exists i :: OccursAt(Lower(field), Lower(term), i)
  {
    IncludesMeansOccurs(Lower(field), Lower(term));
  }

  // ---- Grouping by genre ----

  /** `album.genre?.name || "Unknown Genre"`. */
  function GenreKey(a: AlbumCard): (k: string)
    ensures k != ""
    ensures GenreName(a).Some? && GenreName(a).value != "" ==> k == GenreName(a).value
  {
    var g := GenreName(a);
    if g.Some? && g.value != "" then g.value else "Unknown Genre"
  }

  function KeyedAs(k: string): AlbumCard -> bool {
    (a: AlbumCard) => GenreKey(a) == k
  }

  /** One entry of `groupedAlbums`: a genre name and its albums. */
  datatype Group = Group(genre: string, albums: seq<AlbumCard>)

  /** The position of the group keyed `k`, or -1. */
  function GroupIndex(groups: seq<Group>, k: string): (i: int)
    ensures -1 <= i < |groups|
    ensures i == -1 <==> forall j :: 0 <= j < |groups| ==> groups[j].genre != k
    ensures 0 <= i ==> groups[i].genre == k
  {
    if groups == [] then -1
    else if groups[0].genre == k then 0
    else
      var j := GroupIndex(groups[1..], k);
      if j == -1 then -1 else j + 1
  }

  /** One step of the `reduce`: push the album onto its genre's group, creating
      the group at the end when the genre is new. */
  function Push(groups: seq<Group>, a: AlbumCard): (r: seq<Group>)
    ensures |r| == if GroupIndex(groups, GenreKey(a)) >= 0 then |groups| else |groups| + 1
    ensures forall j :: 0 <= j < |groups| && groups[j].genre != GenreKey(a) ==> r[j] == groups[j]
    ensures exists i :: 0 <= i < |r| && r[i].genre == GenreKey(a) && r[i].albums != [] &&
                        r[i].albums[|r[i].albums| - 1] == a
  {
    var k := GenreKey(a);
    var i := GroupIndex(groups, k);
    if i >= 0 then
      var r := groups[i := Group(k, groups[i].albums + [a])];
      assert r[i].albums[|r[i].albums| - 1] == a;
      r
    else
      var r := groups + [Group(k, [a])];
      assert r[|groups|].albums == [a];
      r
  }

  /** `groupedAlbums`, the groups in the order their genres first appear. */
  function GroupAll(albums: seq<AlbumCard>): (r: seq<Group>)
    ensures |r| <= |albums|
  {
    if albums == [] then []
    else Push(GroupAll(albums[..|albums| - 1]), albums[|albums| - 1])
  }

  predicate DistinctGenres(groups: seq<Group>) {
    forall i, j :: 0 <= i < j < |groups| ==> groups[i].genre != groups[j].genre
  }

  /** The grouping is a partition by genre key: the genres are distinct, there
      is a group for a key exactly when some album has that key, and each group
      holds exactly the albums with its key, in list order. */
  lemma {:induction false} GroupAllPartitions(albums: seq<AlbumCard>)
    ensures var gs := GroupAll(albums);
      DistinctGenres(gs) &&
      (forall k :: GroupIndex(gs, k) >= 0 <==> exists a :: a in albums && GenreKey(a) == k) &&
      (forall i :: 0 <= i < |gs| ==> gs[i].albums == Filter(albums, KeyedAs(gs[i].genre)))
  {
    if albums != [] {
      var p, x := albums[..|albums| - 1], albums[|albums| - 1];
      assert albums == p + [x];
      GroupAllPartitions(p);
      var gs0 := GroupAll(p);
      PushGenres(gs0, x);
      PushKeys(p, gs0, x);
      PushFilters(p, gs0, x);
    }
  }

  /** Pushing onto groups with distinct genres keeps them distinct, and the
      group genres after a push are the old ones plus, at the end, a new key. */
  lemma PushGenres(gs0: seq<Group>, x: AlbumCard)
    requires DistinctGenres(gs0)
    ensures var gs := Push(gs0, x);
      DistinctGenres(gs) &&
      (GroupIndex(gs0, GenreKey(x)) >= 0 ==> |gs| == |gs0|) &&
      (GroupIndex(gs0, GenreKey(x)) == -1 ==> |gs| == |gs0| + 1 && gs[|gs0|] == Group(GenreKey(x), [x])) &&
      forall j :: 0 <= j < |gs0| ==> gs[j].genre == gs0[j].genre
  {
  }

  /** After a push there is a group for a key exactly when some album has it. */
  lemma {:induction false} PushKeys(p: seq<AlbumCard>, gs0: seq<Group>, x: AlbumCard)
    requires DistinctGenres(gs0)
    requires forall k :: GroupIndex(gs0, k) >= 0 <==> exists a :: a in p && GenreKey(a) == k
    ensures forall k :: GroupIndex(Push(gs0, x), k) >= 0 <==> exists a :: a in p + [x] && GenreKey(a) == k
  {
    var s := p + [x];
    var gs := Push(gs0, x);
    var i := GroupIndex(gs0, GenreKey(x));
    PushGenres(gs0, x);
    forall k ensures GroupIndex(gs, k) >= 0 <==> exists a :: a in s && GenreKey(a) == k {
      if GroupIndex(gs, k) >= 0 {
        var j := GroupIndex(gs, k);
        if j < |gs0| {
          assert GroupIndex(gs0, k) >= 0;
          var a :| a in p && GenreKey(a) == k;
          assert a in s;
        } else {
          assert x in s;
        }
      }
      if exists a :: a in s && GenreKey(a) == k {
        var a :| a in s && GenreKey(a) == k;
        if a in p {
          var j := GroupIndex(gs0, k);
          assert gs[j].genre == k;
        } else if i >= 0 {
          assert gs[i].genre == k;
        } else {
          assert gs[|gs0|].genre == k;
        }
      }
    }
  }

  /** After a push each group holds exactly the albums with its key. */
  lemma {:induction false} PushFilters(p: seq<AlbumCard>, gs0: seq<Group>, x: AlbumCard)
    requires DistinctGenres(gs0)
    requires forall k :: GroupIndex(gs0, k) >= 0 <==> exists a :: a in p && GenreKey(a) == k
    requires forall i :: 0 <= i < |gs0| ==> gs0[i].albums == Filter(p, KeyedAs(gs0[i].genre))
    ensures var gs := Push(gs0, x);
      forall j :: 0 <= j < |gs| ==> gs[j].albums == Filter(p + [x], KeyedAs(gs[j].genre))
  {
    var s := p + [x];
    var gs := Push(gs0, x);
    var k := GenreKey(x);
    PushGenres(gs0, x);
    assert s[..|s| - 1] == p;
    forall j | 0 <= j < |gs| ensures gs[j].albums == Filter(s, KeyedAs(gs[j].genre)) {
      var g := gs[j].genre;
      assert Filter(s, KeyedAs(g)) == Filter(p, KeyedAs(g)) + if k == g then [x] else [];
      if j == |gs0| {
        forall a | a in p ensures !KeyedAs(g)(a) {
          assert GenreKey(a) == g ==> GroupIndex(gs0, g) >= 0;
        }
        FilterNone(p, KeyedAs(g));
      }
    }
  }

  /** Every album of the list lands in exactly one group: the one of its key. */
  lemma {:induction false} EachAlbumInOneGroup(albums: seq<AlbumCard>, a: AlbumCard)
    requires a in albums
    ensures var gs := GroupAll(albums);
      var i := GroupIndex(gs, GenreKey(a));
      0 <= i && a in gs[i].albums &&
      forall j :: 0 <= j < |gs| && j != i ==> a !in gs[j].albums
  {
    GroupAllPartitions(albums);
    var gs := GroupAll(albums);
    forall j | 0 <= j < |gs| ensures a in gs[j].albums <==> gs[j].genre == GenreKey(a) {
      FilterMembers(albums, KeyedAs(gs[j].genre));
    }
  }

  /** "No albums available" is shown exactly when nothing passed the search. */
  lemma {:induction false} NoGroupsIffNoAlbums(albums: seq<AlbumCard>)
    ensures GroupAll(albums) == [] <==> albums == []
  {
    if albums != [] {
      GroupAllPartitions(albums);
      var x := albums[|albums| - 1];
      assert GroupIndex(GroupAll(albums), GenreKey(x)) >= 0;
    }
  }

  // ---- What a card shows ----

  const CardsPerGenre := 15

  /** `genreAlbums.slice(0, 15)`: the first fifteen albums of a group. */
  function Shown(g: Group): (r: seq<AlbumCard>)
    ensures |r| <= CardsPerGenre && |r| <= |g.albums|
    ensures r == g.albums[..|r|]
    ensures |g.albums| <= CardsPerGenre ==> r == g.albums
    ensures |g.albums| > CardsPerGenre ==> |r| == CardsPerGenre
  {
    if |g.albums| > CardsPerGenre then g.albums[..CardsPerGenre] else g.albums
  }

  /** The title shown on a card; `None` where the JSX throws on a missing title. */
  function TitleLabel(title: Option<string>): (r: Option<string>)
    ensures r.None? <==> title.None?
    ensures title.Some? && |title.value| <= 15 ==> r == title
    ensures title.Some? && |title.value| > 15 ==>
      |r.value| == 18 && r.value[..15] == title.value[..15] && r.value[15..] == "..."
  {
    if title.None? then None
    else if |title.value| > 15 then Some(title.value[..15] + "...")
    else title
  }

  /** The artist line of a card. A missing artist and an empty name show
      "Unknown Artist"; an artist without a name makes `name.length` throw. */
  function ArtistLabel(artist: Option<ArtistRef>): (r: Option<string>)
    ensures r.None? <==> artist.Some? && artist.value.name.None?
    ensures artist.None? ==> r == Some("Unknown Artist")
    ensures artist.Some? && artist.value.name == Some("") ==> r == Some("Unknown Artist")
    ensures artist.Some? && artist.value.name.Some? && |artist.value.name.value| > 20 ==>
      var n := artist.value.name.value;
      |r.value| == 23 && r.value[..20] == n[..20] && r.value[20..] == "..."
    ensures artist.Some? && artist.value.name.Some? && 0 < |artist.value.name.value| <= 20 ==>
      r == artist.value.name
  {
    if artist.None? then Some("Unknown Artist")
    else if artist.value.name.None? then None
    else
      var n := artist.value.name.value;
      if |n| > 20 then Some(n[..20] + "...")
      else if n == "" then Some("Unknown Artist")
      else Some(n)
  }

  /** The sections the page renders for a search term: each genre with the
      cards it shows. */
  function Sections(albums: seq<AlbumCard>, term: string): (r: seq<Group>)
    ensures |r| == |GroupAll(Filtered(albums, term))|
    ensures forall i :: 0 <= i < |r| ==>
      r[i].genre == GroupAll(Filtered(albums, term))[i].genre &&
      r[i].albums == Shown(GroupAll(Filtered(albums, term))[i])
  {
    var gs := GroupAll(Filtered(albums, term));
    seq(|gs|, i requires 0 <= i < |gs| => Group(gs[i].genre, Shown(gs[i])))
  }

  /** A shown card matches the search term and sits in the section of its genre. */
  lemma {:induction false} ShownCardsMatch(albums: seq<AlbumCard>, term: string, i: int, a: AlbumCard)
    requires 0 <= i < |Sections(albums, term)| && a in Sections(albums, term)[i].albums
    ensures a in albums && Matches(term, a)
    ensures GenreKey(a) == Sections(albums, term)[i].genre
  {
    var f := Filtered(albums, term);
    var gs := GroupAll(f);
    GroupAllPartitions(f);
    assert a in gs[i].albums;
    FilterMembers(f, KeyedAs(gs[i].genre));
    FilteredIsMatchingSubsequence(albums, term);
  }
}
