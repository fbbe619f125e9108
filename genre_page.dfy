/** The genre page: the albums of the catalog in one genre, the count in the
    subtitle and the empty-genre notice. */
module GenrePage {
  import opened Lines
  import opened Text
  import opened Seqs
  import opened Http
  import opened AlbumCards

  function InGenre(name: string): AlbumCard -> bool {
    (a: AlbumCard) => GenreName(a) == Some(name)
  }

  /** `allAlbums.filter(album => album.genre?.name === genreName)`: an exact,
      case-sensitive comparison with the selected name. */
  function GenreAlbums(all: seq<AlbumCard>, name: string): (r: seq<AlbumCard>)
    ensures |r| <= |all|
  {
    Filter(all, InGenre(name))
  }

  /** The page lists exactly the albums of the genre, in catalog order, and never
      one without a genre. */
  lemma {:induction false} GenreAlbumsExact(all: seq<AlbumCard>, name: string)
    ensures var r := GenreAlbums(all, name);
      IsSubsequence(r, all) &&
      (forall a :: a in r <==> a in all && a.genre.Some? && a.genre.value.name == Some(name)) &&
      (forall a :: a in r ==> a.genre.Some?)
  {
    FilterIsSubsequence(all, InGenre(name));
    FilterMembers(all, InGenre(name));
  }

  /** The page's state after mounting with `genreName`. */
  datatype PageState = PageState(albums: seq<AlbumCard>, loading: bool)

  /** The effect on mount: no fetch (and a spinner that never stops) for an
      empty or missing name; else the filtered albums of a successful fetch
      (`data.albums || []`), or no albums when the fetch fails. */
  function Mount(genreName: Option<string>, reply: Reply<Option<seq<AlbumCard>>>): (st: PageState)
    ensures genreName.None? || genreName.value == "" ==> st == PageState([], true)
    ensures genreName.Some? && genreName.value != "" ==> !st.loading
    ensures genreName.Some? && genreName.value != "" && reply.Success? && reply.body.Some? ==>
      st.albums == GenreAlbums(reply.body.value, genreName.value)
    ensures (reply.Success? && reply.body.None?) || !reply.Success? ==> st.albums == []
  {
    if genreName.None? || genreName.value == "" then PageState([], true)
    else if reply.Success? then
      PageState(GenreAlbums(if reply.body.Some? then reply.body.value else [], genreName.value), false)
    else PageState([], false)
  }

  /** `{albums.length} albums`. */
  function Subtitle(st: PageState): (s: string)
    ensures |s| > 7 && s[|s| - 7..] == " albums"
    ensures AllDigits(s[..|s| - 7]) && DigitsValue(s[..|s| - 7]) == |st.albums|
  {
    var n := NatToString(|st.albums|);
    DigitsValueOfNatToString(|st.albums|);
    assert (n + " albums")[..|n|] == n;
    n + " albums"
  }

  /** "No albums found in this genre" once loading is over and nothing matched. */
  predicate ShowsNoAlbums(st: PageState) {
    !st.loading && |st.albums| == 0
  }

  /** After a fetch, the notice is shown exactly when the catalog has no album of
      the genre. */
  lemma {:induction false} NoticeIffGenreEmpty(genreName: string, all: seq<AlbumCard>)
    requires genreName != ""
    ensures ShowsNoAlbums(Mount(Some(genreName), Success(Some(all)))) <==>
      forall a :: a in all ==> GenreName(a) != Some(genreName)
  {
    var r := GenreAlbums(all, genreName);
    FilterMembers(all, InGenre(genreName));
    if r != [] {
      assert r[0] in r;
    }
  }
}
