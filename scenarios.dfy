/** Verified call sequences over the services wired together as the
    application wires them (one track service and one favorites instance
    shared by all). */
module Scenarios {
  import opened Common
  import opened Uuid
  import opened Tracks
  import opened Favorites
  import opened Albums
  import opened Artists

  const ArtistX: string := "00000000-0000-4000-8000-000000000001"
  const AlbumY: string := "00000000-0000-4000-8000-000000000002"

  lemma SampleIdsWellFormed()
    ensures MatchesGrouped(ArtistX) && MatchesGrouped(AlbumY) && ArtistX != AlbumY
  {
    GroupedByPosition(ArtistX);
    GroupedByPosition(AlbumY);
    assert ArtistX[35] != AlbumY[35];
  }

  /** Create artist X, create album Y by X, delete X. The album loses its
      artist reference, but X was never a favorite, so the favorites removal
      throws NotFound and X stays stored. */
  method DeleteArtistThatIsNoFavorite() returns (deleted: Outcome, album: Result<Album>, artistStays: bool)
    ensures deleted == Fail(NotFound("Artist is not favorite"))
    ensures album == Ok(Album(AlbumY, "B", 2000, None))
    ensures artistStays
  {
    SampleIdsWellFormed();
    var favorites := new FavoritesService();
    var tracks := new TrackService();
    var albums := new AlbumService(tracks, favorites);
    var artists := new ArtistService(albums, tracks, favorites);
    var a := artists.Create(CreateArtistDto(Defined("A"), Defined(JBool(true))), ArtistX);
    var b := albums.Create(CreateAlbumDto(Defined("B"), Defined(JNum(2000)), Defined(Some(ArtistX))), AlbumY);
    assert albums.albums == [Album(AlbumY, "B", 2000, Some(ArtistX))];
    deleted := artists.Delete(ArtistX);
    assert albums.albums == [Album(AlbumY, "B", 2000, None)];
    album := albums.GetById(AlbumY);
    artistStays := artists.GetById(ArtistX).Ok?;
  }

  /** The same run with X added to the favorites first: the delete succeeds,
      the album loses its artist reference and X leaves both the store and
      the favorites. */
  method DeleteFavoriteArtist() returns (deleted: Outcome, album: Result<Album>, artistGone: bool, favoriteGone: bool)
    ensures deleted == Done
    ensures album == Ok(Album(AlbumY, "B", 2000, None))
    ensures artistGone && favoriteGone
  {
    SampleIdsWellFormed();
    GroupedImpliesFlat(ArtistX);
    var favorites := new FavoritesService();
    var tracks := new TrackService();
    var albums := new AlbumService(tracks, favorites);
    var artists := new ArtistService(albums, tracks, favorites);
    var a := artists.Create(CreateArtistDto(Defined("A"), Defined(JBool(true))), ArtistX);
    var b := albums.Create(CreateAlbumDto(Defined("B"), Defined(JNum(2000)), Defined(Some(ArtistX))), AlbumY);
    var f := favorites.AddArtist(ArtistX);
    assert favorites.artists == [ArtistX];
    deleted := artists.Delete(ArtistX);
    assert albums.albums == [Album(AlbumY, "B", 2000, None)];
    album := albums.GetById(AlbumY);
    artistGone := artists.GetById(ArtistX) == Err(NotFound("Artist not found"));
    favoriteGone := ArtistX !in favorites.GetAll().artists;
  }
}
