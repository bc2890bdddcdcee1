/** The album service: an in-memory array of albums. Deleting an album clears
    the `albumId` of its tracks and then removes the album from the
    favorites. */
module Albums {
  import opened Common
  import opened Uuid
  import opened Lists
  import opened Tracks
  import opened Favorites

  datatype Album = Album(id: string, name: string, year: int, artistId: Option<string>)

  /** `year` is checked with `typeof`, so it arrives as an untyped value. */
  datatype CreateAlbumDto = CreateAlbumDto(name: Field<string>, year: Field<Json>, artistId: Field<Option<string>>)

  datatype UpdateAlbumDto = UpdateAlbumDto(name: Field<string>, year: Field<int>, artistId: Field<Option<string>>)

  /** `typeof dto.year === "number"`. */
  predicate YearIsNumber(year: Field<Json>)
  {
    year.Defined? && year.value.JNum?
  }

  function AlbumId(a: Album): string
  {
    a.id
  }

  /** `albums.findIndex((a) => a.id === id)`. */
  function PositionOf(albums: seq<Album>, id: string): (r: int)
    ensures -1 <= r < |albums|
    ensures r == -1 <==> forall j :: 0 <= j < |albums| ==> albums[j].id != id
    ensures r >= 0 ==> albums[r].id == id && forall j :: 0 <= j < r ==> albums[j].id != id
  {
    FindIndex(albums, (a: Album) => a.id == id)
  }

  /** The field assignments of `update`: a property overwrites the stored
      value exactly when it is not `undefined`. */
  function ApplyAlbumUpdate(a: Album, dto: UpdateAlbumDto): (r: Album)
    ensures r.id == a.id
    ensures r.name == (if dto.name.Defined? then dto.name.value else a.name)
    ensures r.year == (if dto.year.Defined? then dto.year.value else a.year)
    ensures r.artistId == (if dto.artistId.Defined? then dto.artistId.value else a.artistId)
  {
    a.(name := if dto.name.Defined? then dto.name.value else a.name)
     .(year := if dto.year.Defined? then dto.year.value else a.year)
     .(artistId := if dto.artistId.Defined? then dto.artistId.value else a.artistId)
  }

  /** Sending the same update twice has the effect of sending it once, an
      explicit `null` clears the artist, and an empty update changes
      nothing. */
  lemma AlbumUpdateIdempotent(a: Album, dto: UpdateAlbumDto)
    ensures ApplyAlbumUpdate(ApplyAlbumUpdate(a, dto), dto) == ApplyAlbumUpdate(a, dto)
    ensures dto.artistId == Defined(None) ==> ApplyAlbumUpdate(a, dto).artistId == None
    ensures dto == UpdateAlbumDto(Undefined, Undefined, Undefined) ==> ApplyAlbumUpdate(a, dto) == a
  {
  }

  /** An album with `artistId` cleared if it pointed at `id`. */
  function AlbumWithoutArtist(a: Album, id: string): Album
  {
    if a.artistId == Some(id) then a.(artistId := None) else a
  }

  /** The albums, in order, with every `artistId` reference to `id` cleared:
      at every position the album either kept its record or lost exactly its
      artist reference. */
  function UnlinkArtistFromAlbums(albums: seq<Album>, id: string): (r: seq<Album>)
    ensures |r| == |albums|
    ensures forall i :: 0 <= i < |r| ==> r[i].artistId != Some(id)
    ensures forall i :: 0 <= i < |r| ==>
      r[i] == albums[i] || (albums[i].artistId == Some(id) && r[i] == albums[i].(artistId := None))
  {
    if albums == [] then []
    else [AlbumWithoutArtist(albums[0], id)] + UnlinkArtistFromAlbums(albums[1..], id)
  }

  /** The cascade keeps ids in place, so it keeps them unique. */
  lemma {:induction false} UnlinkArtistKeepsIds(albums: seq<Album>, id: string)
    requires UniqueBy(albums, AlbumId)
    ensures UniqueBy(UnlinkArtistFromAlbums(albums, id), AlbumId)
    ensures forall i :: 0 <= i < |albums| ==> UnlinkArtistFromAlbums(albums, id)[i] == AlbumWithoutArtist(albums[i], id)
  {
    var r := UnlinkArtistFromAlbums(albums, id);
    forall i | 0 <= i < |albums| ensures r[i] == AlbumWithoutArtist(albums[i], id) {
      if albums[i].artistId == Some(id) {
        assert r[i] != albums[i];
      }
    }
    forall a, b | 0 <= a < b < |r| ensures r[a].id != r[b].id {
      assert r[a].id == albums[a].id && r[b].id == albums[b].id;
    }
  }

  class AlbumService {
    var albums: seq<Album>
    const trackService: TrackService
    const favorites: FavoritesService

    ghost predicate Valid()
      reads this, trackService, favorites
    {
      UniqueBy(albums, AlbumId) && trackService.Valid() && favorites.Valid()
    }

    constructor (trackService: TrackService, favorites: FavoritesService)
      requires trackService.Valid() && favorites.Valid()
      ensures Valid() && albums == []
      ensures this.trackService == trackService && this.favorites == favorites
    {
      albums := [];
      this.trackService := trackService;
      this.favorites := favorites;
    }

    /** `getById`: the stored album with this id. */
    function GetById(id: string): (r: Result<Album>)
      reads this
      ensures !MatchesGrouped(id) ==> r == Err(BadRequest("Invalid UUID"))
      ensures r.Ok? <==> MatchesGrouped(id) && exists i :: 0 <= i < |albums| && albums[i].id == id
      ensures r.Err? && MatchesGrouped(id) ==> r == Err(NotFound("Album not found"))
      ensures r.Ok? ==> r.value in albums && r.value.id == id
    {
      if !MatchesGrouped(id) then Err(BadRequest("Invalid UUID"))
      else
        var i := PositionOf(albums, id);
        if i == -1 then Err(NotFound("Album not found")) else Ok(albums[i])
    }

    /** `create`: `newId` stands for `randomUUID()`. */
    method Create(dto: CreateAlbumDto, newId: string) returns (r: Result<Album>)
      requires Valid()
      requires MatchesGrouped(newId) && forall i :: 0 <= i < |albums| ==> albums[i].id != newId
      modifies this
      ensures Valid()
      ensures !Filled(dto.name) || !YearIsNumber(dto.year) ==>
        r == Err(BadRequest("Missing required fields")) && albums == old(albums)
      ensures Filled(dto.name) && YearIsNumber(dto.year) ==>
        && r == Ok(Album(newId, dto.name.value, dto.year.value.n, NullishOrNull(dto.artistId)))
        && albums == old(albums) + [r.value]
      ensures r.Ok? ==> GetById(newId) == r
    {
      if !Filled(dto.name) || !YearIsNumber(dto.year) {
        return Err(BadRequest("Missing required fields"));
      }
      var album := Album(newId, dto.name.value, dto.year.value.n, NullishOrNull(dto.artistId));
      albums := albums + [album];
      r := Ok(album);
      assert albums[|albums| - 1] == album;
    }

    method Update(id: string, dto: UpdateAlbumDto) returns (r: Result<Album>)
      requires Valid()
      modifies this
      ensures Valid()
      ensures !MatchesGrouped(id) ==> r == Err(BadRequest("Invalid UUID"))
      ensures MatchesGrouped(id) && PositionOf(old(albums), id) == -1 ==> r == Err(NotFound("Album not found"))
      ensures r.Err? ==> albums == old(albums)
      ensures r.Ok? <==> MatchesGrouped(id) && PositionOf(old(albums), id) != -1
      ensures r.Ok? ==>
        var i := PositionOf(old(albums), id);
        r.value == ApplyAlbumUpdate(old(albums)[i], dto) && albums == old(albums)[i := r.value]
      ensures r.Ok? ==> GetById(id) == r
    {
      var v := ValidateGrouped(id);
      if v.Fail? {
        return Err(v.error);
      }
      var i := PositionOf(albums, id);
      if i == -1 {
        return Err(NotFound("Album not found"));
      }
      var album := albums[i];
      if dto.name.Defined? { album := album.(name := dto.name.value); }
      if dto.year.Defined? { album := album.(year := dto.year.value); }
      if dto.artistId.Defined? { album := album.(artistId := dto.artistId.value); }
      albums := albums[i := album];
      r := Ok(album);
      assert albums[i].id == id;
      assert forall j :: 0 <= j < i ==> albums[j].id != id;
      ghost var p := PositionOf(albums, id);
      assert p != -1 by { assert albums[i].id == id; }
      assert p == i;
    }

    /** `delete`: validate, find, clear the tracks' references, remove from
        the favorites (which throws when the album is not a favorite), and
        only then splice the album out. */
    method Delete(id: string) returns (r: Outcome)
      requires Valid()
      modifies this, trackService, favorites
      ensures Valid()
      ensures !MatchesGrouped(id) ==> r == Fail(BadRequest("Invalid UUID"))
      ensures MatchesGrouped(id) && PositionOf(old(albums), id) == -1 ==> r == Fail(NotFound("Album not found"))
      ensures !MatchesGrouped(id) || PositionOf(old(albums), id) == -1 ==>
        albums == old(albums) && trackService.tracks == old(trackService.tracks) && unchanged(favorites)
      ensures MatchesGrouped(id) && PositionOf(old(albums), id) != -1 ==>
        && trackService.tracks == UnlinkAlbumFromTracks(old(trackService.tracks), id)
        && (id !in old(favorites.albums) ==>
              r == Fail(NotFound("Album is not favorite")) && albums == old(albums) && unchanged(favorites))
        && (id in old(favorites.albums) ==>
              && r == Done
              && albums == RemoveAt(old(albums), PositionOf(old(albums), id))
              && favorites.albums == RemoveFirst(old(favorites.albums), id)
              && favorites.artists == old(favorites.artists) && favorites.tracks == old(favorites.tracks))
      ensures r == Done ==> forall j :: 0 <= j < |albums| ==> albums[j].id != id
    {
      var v := ValidateGrouped(id);
      if v.Fail? {
        return v;
      }
      var idx := PositionOf(albums, id);
      if idx == -1 {
        return Fail(NotFound("Album not found"));
      }
      // Remove albumId from tracks
      ghost var before := trackService.tracks;
      var pending := trackService.tracks.Keys;
      while pending != {}
        invariant pending <= before.Keys
        invariant trackService.tracks.Keys == before.Keys
        invariant forall k :: k in trackService.tracks ==>
          trackService.tracks[k] == if k in pending then before[k] else TrackWithoutAlbum(before[k], id)
        modifies trackService
        decreases pending
      {
        var k :| k in pending;
        if trackService.tracks[k].albumId == Some(id) {
          trackService.tracks := trackService.tracks[k := trackService.tracks[k].(albumId := None)];
        }
        pending := pending - {k};
      }
      assert trackService.tracks == UnlinkAlbumFromTracks(before, id);
      // Remove from favorites
      r := favorites.RemoveAlbum(id);
      if r.Fail? {
        return;
      }
      RemoveAtKeepsUniqueBy(albums, idx, AlbumId);
      albums := RemoveAt(albums, idx);
    }
  }
}
