/** The album records the client receives from GET /api/album, with every
    populated field optional as the client treats it (`album.artist?.name`,
    `album.genre?.name`). */
module AlbumCards {
  import opened Lines

  datatype ArtistRef = ArtistRef(id: Option<string>, name: Option<string>)
  datatype GenreRef = GenreRef(name: Option<string>)
  datatype AlbumCard = AlbumCard(id: AlbumId, title: Option<string>,
                                 artist: Option<ArtistRef>, genre: Option<GenreRef>)

  /** `album.genre?.name`, `undefined` when either is missing. */
  function GenreName(a: AlbumCard): Option<string> {
    if a.genre.Some? then a.genre.value.name else None
  }

  /** `album.artist?.name`. */
  function ArtistName(a: AlbumCard): Option<string> {
    if a.artist.Some? then a.artist.value.name else None
  }
}
