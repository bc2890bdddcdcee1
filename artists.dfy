/** The artist service: an in-memory array of artists. Deleting an artist
    clears `artistId` on every album and track that names it, then removes the
    artist from the favorites, and only then splices it out. */
module Artists {
  import opened Common
  import opened Uuid
  import opened Lists
  import opened Tracks
  import opened Favorites
  import opened Albums

  datatype Artist = Artist(id: string, name: string, grammy: bool)

  /** `grammy` is checked with `typeof`, so it arrives as an untyped value. */
  datatype CreateArtistDto = CreateArtistDto(name: Field<string>, grammy: Field<Json>)

  datatype UpdateArtistDto = UpdateArtistDto(name: Field<string>, grammy: Field<bool>)

  /** `typeof dto.grammy === "boolean"`. */
  predicate GrammyIsBoolean(grammy: Field<Json>)
  {
    grammy.Defined? && grammy.value.JBool?
  }

  function ArtistId(a: Artist): string
  {
    a.id
  }

  /** `artists.findIndex((a) => a.id === id)`. */
  function ArtistPosition(artists: seq<Artist>, id: string): (r: int)
    ensures -1 <= r < |artists|
    ensures r == -1 <==> forall j :: 0 <= j < |artists| ==> artists[j].id != id
    ensures r >= 0 ==> artists[r].id == id && forall j :: 0 <= j < r ==> artists[j].id != id
  {
    FindIndex(artists, (a: Artist) => a.id == id)
  }

  /** The field assignments of `update`. */
  function ApplyArtistUpdate(a: Artist, dto: UpdateArtistDto): (r: Artist)
    ensures r.id == a.id
    ensures r.name == (if dto.name.Defined? then dto.name.value else a.name)
    ensures r.grammy == (if dto.grammy.Defined? then dto.grammy.value else a.grammy)
  {
    a.(name := if dto.name.Defined? then dto.name.value else a.name)
     .(grammy := if dto.grammy.Defined? then dto.grammy.value else a.grammy)
  }

  /** Sending the same update twice has the effect of sending it once, and
      an empty update changes nothing. */
  lemma ArtistUpdateIdempotent(a: Artist, dto: UpdateArtistDto)
    ensures ApplyArtistUpdate(ApplyArtistUpdate(a, dto), dto) == ApplyArtistUpdate(a, dto)
    ensures dto == UpdateArtistDto(Undefined, Undefined) ==> ApplyArtistUpdate(a, dto) == a
  {
  }

  class ArtistService {
    var artists: seq<Artist>
    const albumService: AlbumService
    const trackService: TrackService
    const favorites: FavoritesService

    /** Artist ids are unique, and the album service shares this service's
        track service and favorites (one application-wide instance each). */
    ghost predicate Valid()
      reads this, albumService, trackService, favorites
    {
      && UniqueBy(artists, ArtistId)
      && albumService.trackService == trackService
      && albumService.favorites == favorites
      && albumService.Valid()
    }

    constructor (albumService: AlbumService, trackService: TrackService, favorites: FavoritesService)
      requires albumService.Valid()
      requires albumService.trackService == trackService && albumService.favorites == favorites
      ensures Valid() && artists == []
      ensures this.albumService == albumService && this.trackService == trackService && this.favorites == favorites
    {
      artists := [];
      this.albumService := albumService;
      this.trackService := trackService;
      this.favorites := favorites;
    }

    /** `getById`: the stored artist with this id. */
    function GetById(id: string): (r: Result<Artist>)
      reads this
      ensures !MatchesGrouped(id) ==> r == Err(BadRequest("Invalid UUID"))
      ensures r.Ok? <==> MatchesGrouped(id) && exists i :: 0 <= i < |artists| && artists[i].id == id
      ensures r.Err? && MatchesGrouped(id) ==> r == Err(NotFound("Artist not found"))
      ensures r.Ok? ==> r.value in artists && r.value.id == id
    {
      if !MatchesGrouped(id) then Err(BadRequest("Invalid UUID"))
      else
        var i := ArtistPosition(artists, id);
        if i == -1 then Err(NotFound("Artist not found")) else Ok(artists[i])
    }

    /** `create`: `newId` stands for `randomUUID()`. */
    method Create(dto: CreateArtistDto, newId: string) returns (r: Result<Artist>)
      requires Valid()
      requires MatchesGrouped(newId) && forall i :: 0 <= i < |artists| ==> artists[i].id != newId
      modifies this
      ensures Valid()
      ensures !Filled(dto.name) || !GrammyIsBoolean(dto.grammy) ==>
        r == Err(BadRequest("Missing required fields")) && artists == old(artists)
      ensures Filled(dto.name) && GrammyIsBoolean(dto.grammy) ==>
        && r == Ok(Artist(newId, dto.name.value, dto.grammy.value.b))
        && artists == old(artists) + [r.value]
      ensures r.Ok? ==> GetById(newId) == r
    {
      if !Filled(dto.name) || !GrammyIsBoolean(dto.grammy) {
        return Err(BadRequest("Missing required fields"));
      }
      var artist := Artist(newId, dto.name.value, dto.grammy.value.b);
      artists := artists + [artist];
      r := Ok(artist);
      assert artists[|artists| - 1] == artist;
    }

    method Update(id: string, dto: UpdateArtistDto) returns (r: Result<Artist>)
      requires Valid()
      modifies this
      ensures Valid()
      ensures !MatchesGrouped(id) ==> r == Err(BadRequest("Invalid UUID"))
      ensures MatchesGrouped(id) && ArtistPosition(old(artists), id) == -1 ==> r == Err(NotFound("Artist not found"))
      ensures r.Err? ==> artists == old(artists)
      ensures r.Ok? <==> MatchesGrouped(id) && ArtistPosition(old(artists), id) != -1
      ensures r.Ok? ==>
        var i := ArtistPosition(old(artists), id);
        r.value == ApplyArtistUpdate(old(artists)[i], dto) && artists == old(artists)[i := r.value]
      ensures r.Ok? ==> GetById(id) == r
    {
      var v := ValidateGrouped(id);
      if v.Fail? {
        return Err(v.error);
      }
      var i := ArtistPosition(artists, id);
      if i == -1 {
        return Err(NotFound("Artist not found"));
      }
      var artist := artists[i];
      if dto.name.Defined? { artist := artist.(name := dto.name.value); }
      if dto.grammy.Defined? { artist := artist.(grammy := dto.grammy.value); }
      artists := artists[i := artist];
      r := Ok(artist);
      assert artists[i].id == id;
      assert forall j :: 0 <= j < i ==> artists[j].id != id;
      ghost var p := ArtistPosition(artists, id);
      assert p != -1 by { assert artists[i].id == id; }
      assert p == i;
    }

    /** `delete`: validate, find, clear album and track references, remove
        from the favorites, and only then splice the artist out. The
        favorites removal throws for an artist that is not a favorite; the
        cleared references then stay cleared and the artist stays stored. */
    method Delete(id: string) returns (r: Outcome)
      requires Valid()
      modifies this, albumService, trackService, favorites
      ensures Valid()
      ensures !MatchesGrouped(id) ==> r == Fail(BadRequest("Invalid UUID"))
      ensures MatchesGrouped(id) && ArtistPosition(old(artists), id) == -1 ==> r == Fail(NotFound("Artist not found"))
      ensures !MatchesGrouped(id) || ArtistPosition(old(artists), id) == -1 ==>
        && artists == old(artists) && albumService.albums == old(albumService.albums)
        && trackService.tracks == old(trackService.tracks) && unchanged(favorites)
      ensures MatchesGrouped(id) && ArtistPosition(old(artists), id) != -1 ==>
        && albumService.albums == UnlinkArtistFromAlbums(old(albumService.albums), id)
        && trackService.tracks == UnlinkArtistFromTracks(old(trackService.tracks), id)
        && (id !in old(favorites.artists) ==>
              r == Fail(NotFound("Artist is not favorite")) && artists == old(artists) && unchanged(favorites))
        && (id in old(favorites.artists) ==>
              && r == Done
              && artists == RemoveAt(old(artists), ArtistPosition(old(artists), id))
              && favorites.artists == RemoveFirst(old(favorites.artists), id)
              && favorites.albums == old(favorites.albums) && favorites.tracks == old(favorites.tracks))
      ensures r == Done ==> forall j :: 0 <= j < |artists| ==> artists[j].id != id
    {
      var v := ValidateGrouped(id);
      if v.Fail? {
        return v;
      }
      var idx := ArtistPosition(artists, id);
      if idx == -1 {
        return Fail(NotFound("Artist not found"));
      }
      // Remove artistId from albums
      UnlinkFromAlbums(id);
      // Remove artistId from tracks
      UnlinkFromTracks(id);
      // Remove from favorites; the well-formed id also passes its flat check
      GroupedImpliesFlat(id);
      r := favorites.RemoveArtist(id);
      if r.Fail? {
        return;
      }
      RemoveAtKeepsUniqueBy(artists, idx, ArtistId);
      artists := RemoveAt(artists, idx);
    }
    /** The `forEach` over the albums that nulls `artistId` where it equals
        `id`. */
    method UnlinkFromAlbums(id: string)
      requires Valid()
      modifies albumService
      ensures Valid()
      ensures albumService.albums == UnlinkArtistFromAlbums(old(albumService.albums), id)
    {
      ghost var albumsBefore := albumService.albums;
      var i := 0;
      while i < |albumService.albums|
        invariant 0 <= i <= |albumService.albums| == |albumsBefore|
        invariant forall j :: 0 <= j < i ==> albumService.albums[j] == AlbumWithoutArtist(albumsBefore[j], id)
        invariant forall j :: i <= j < |albumsBefore| ==> albumService.albums[j] == albumsBefore[j]
      {
        if albumService.albums[i].artistId == Some(id) {
          albumService.albums := albumService.albums[i := albumService.albums[i].(artistId := None)];
        }
        i := i + 1;
      }
      UnlinkArtistKeepsIds(albumsBefore, id);
      assert albumService.albums == UnlinkArtistFromAlbums(albumsBefore, id);
    }

    /** The `forEach` over the tracks that nulls `artistId` where it equals
        `id`. */
    method UnlinkFromTracks(id: string)
      requires Valid()
      modifies trackService
      ensures Valid()
      ensures trackService.tracks == UnlinkArtistFromTracks(old(trackService.tracks), id)
    {
      ghost var tracksBefore := trackService.tracks;
      var pending := trackService.tracks.Keys;
      while pending != {}
        invariant pending <= tracksBefore.Keys
        invariant trackService.tracks.Keys == tracksBefore.Keys
        invariant forall k :: k in trackService.tracks ==>
          trackService.tracks[k] == if k in pending then tracksBefore[k] else TrackWithoutArtist(tracksBefore[k], id)
        decreases pending
      {
        var k :| k in pending;
        if trackService.tracks[k].artistId == Some(id) {
          trackService.tracks := trackService.tracks[k := trackService.tracks[k].(artistId := None)];
        }
        pending := pending - {k};
      }
      assert trackService.tracks == UnlinkArtistFromTracks(tracksBefore, id);
    }
  }
}
