/** The track service over its repository, modelled as a map from id to the
    stored track record. */
module Tracks {
  import opened Common
  import opened Uuid

  datatype Track = Track(id: string, name: string, artistId: Option<string>, albumId: Option<string>, duration: int)

  datatype CreateTrackDto = CreateTrackDto(
    name: Field<string>,
    artistId: Field<Option<string>>,
    albumId: Field<Option<string>>,
    duration: Field<int>)

  datatype UpdateTrackDto = UpdateTrackDto(
    name: Field<string>,
    artistId: Field<Option<string>>,
    albumId: Field<Option<string>>,
    duration: Field<int>)

  /** `!dto.duration` is false: the duration was sent and is not 0. */
  predicate DurationGiven(d: Field<int>)
  {
    d.Defined? && d.value != 0
  }

  /** The field-by-field assignments of `update`: a property overwrites the
      stored value exactly when it is not `undefined`. */
  function ApplyTrackUpdate(t: Track, dto: UpdateTrackDto): (r: Track)
    ensures r.id == t.id
    ensures r.name == (if dto.name.Defined? then dto.name.value else t.name)
    ensures r.duration == (if dto.duration.Defined? then dto.duration.value else t.duration)
    ensures r.artistId == (if dto.artistId.Defined? then dto.artistId.value else t.artistId)
    ensures r.albumId == (if dto.albumId.Defined? then dto.albumId.value else t.albumId)
  {
    t.(name := if dto.name.Defined? then dto.name.value else t.name)
     .(duration := if dto.duration.Defined? then dto.duration.value else t.duration)
     .(artistId := if dto.artistId.Defined? then dto.artistId.value else t.artistId)
     .(albumId := if dto.albumId.Defined? then dto.albumId.value else t.albumId)
  }

  /** Sending the same update twice has the effect of sending it once, and
      an empty update changes nothing. */
  lemma TrackUpdateIdempotent(t: Track, dto: UpdateTrackDto)
    ensures ApplyTrackUpdate(ApplyTrackUpdate(t, dto), dto) == ApplyTrackUpdate(t, dto)
    ensures dto == UpdateTrackDto(Undefined, Undefined, Undefined, Undefined) ==> ApplyTrackUpdate(t, dto) == t
  {
  }

  /** A track with `artistId` cleared if it pointed at `id`. */
  function TrackWithoutArtist(t: Track, id: string): Track
  {
    if t.artistId == Some(id) then t.(artistId := None) else t
  }

  /** A track with `albumId` cleared if it pointed at `id`. */
  function TrackWithoutAlbum(t: Track, id: string): Track
  {
    if t.albumId == Some(id) then t.(albumId := None) else t
  }

  /** Every stored track with its `artistId` reference to `id` cleared. */
  function UnlinkArtistFromTracks(m: map<string, Track>, id: string): (r: map<string, Track>)
    ensures r.Keys == m.Keys
    ensures forall k :: k in r ==> r[k] == TrackWithoutArtist(m[k], id)
  {
    map k | k in m :: TrackWithoutArtist(m[k], id)
  }

  /** Every stored track with its `albumId` reference to `id` cleared. */
  function UnlinkAlbumFromTracks(m: map<string, Track>, id: string): (r: map<string, Track>)
    ensures r.Keys == m.Keys
    ensures forall k :: k in r ==> r[k] == TrackWithoutAlbum(m[k], id)
  {
    map k | k in m :: TrackWithoutAlbum(m[k], id)
  }

  /** After the artist cascade no track refers to the artist, the tracks that
      did now have a null `artistId`, and nothing else changed. */
  lemma UnlinkArtistFromTracksSpec(m: map<string, Track>, id: string)
    ensures forall k :: k in UnlinkArtistFromTracks(m, id) ==> UnlinkArtistFromTracks(m, id)[k].artistId != Some(id)
    ensures forall k :: k in m && m[k].artistId == Some(id) ==> UnlinkArtistFromTracks(m, id)[k].artistId == None
    ensures forall k :: k in m ==> UnlinkArtistFromTracks(m, id)[k] == m[k].(artistId := UnlinkArtistFromTracks(m, id)[k].artistId)
    ensures forall k :: k in m && m[k].artistId != Some(id) ==> UnlinkArtistFromTracks(m, id)[k] == m[k]
  {
  }

  /** After the album cascade no track refers to the album, the tracks that
      did now have a null `albumId`, and their `artistId` and other fields are
      as before. */
  lemma UnlinkAlbumFromTracksSpec(m: map<string, Track>, id: string)
    ensures forall k :: k in UnlinkAlbumFromTracks(m, id) ==> UnlinkAlbumFromTracks(m, id)[k].albumId != Some(id)
    ensures forall k :: k in m && m[k].albumId == Some(id) ==> UnlinkAlbumFromTracks(m, id)[k].albumId == None
    ensures forall k :: k in m ==> UnlinkAlbumFromTracks(m, id)[k] == m[k].(albumId := UnlinkAlbumFromTracks(m, id)[k].albumId)
    ensures forall k :: k in m && m[k].albumId != Some(id) ==> UnlinkAlbumFromTracks(m, id)[k] == m[k]
  {
  }

  class TrackService {
    /** The repository: each track stored under its own id. */
    var tracks: map<string, Track>

    ghost predicate Valid()
      reads this
    {
      forall k :: k in tracks ==> tracks[k].id == k
    }

    constructor ()
      ensures Valid() && tracks == map[]
    {
      tracks := map[];
    }

    /** `getById`: the id check comes before any repository access. */
    function GetById(id: string): (r: Result<Track>)
      reads this
      requires Valid()
      ensures !MatchesGrouped(id) ==> r == Err(BadRequest("Invalid UUID"))
      ensures MatchesGrouped(id) && id !in tracks ==> r == Err(NotFound("Track not found"))
      ensures r.Ok? <==> MatchesGrouped(id) && id in tracks
      ensures r.Ok? ==> r.value in tracks.Values && r.value.id == id
    {
      if !MatchesGrouped(id) then Err(BadRequest("Invalid UUID"))
      else if id !in tracks then Err(NotFound("Track not found"))
      else Ok(tracks[id])
    }

    /** `create`: `newId` is the id the repository generates on save. */
    method Create(dto: CreateTrackDto, newId: string) returns (r: Result<Track>)
      requires Valid()
      requires newId !in tracks && MatchesGrouped(newId)
      modifies this
      ensures Valid()
      ensures !Filled(dto.name) || !DurationGiven(dto.duration) ==>
        r == Err(BadRequest("Missing required fields")) && tracks == old(tracks)
      ensures Filled(dto.name) && DurationGiven(dto.duration) ==>
        && r == Ok(Track(newId, dto.name.value, OrNull(dto.artistId), OrNull(dto.albumId), dto.duration.value))
        && tracks == old(tracks)[newId := r.value]
      ensures r.Ok? ==> GetById(newId) == r
    {
      if !Filled(dto.name) || !DurationGiven(dto.duration) {
        return Err(BadRequest("Missing required fields"));
      }
      var track := Track(newId, dto.name.value, OrNull(dto.artistId), OrNull(dto.albumId), dto.duration.value);
      tracks := tracks[newId := track];
      r := Ok(track);
    }

    method Update(id: string, dto: UpdateTrackDto) returns (r: Result<Track>)
      requires Valid()
      modifies this
      ensures Valid()
      ensures !MatchesGrouped(id) ==> r == Err(BadRequest("Invalid UUID"))
      ensures MatchesGrouped(id) && id !in old(tracks) ==> r == Err(NotFound("Track not found"))
      ensures r.Err? ==> tracks == old(tracks)
      ensures r.Ok? <==> MatchesGrouped(id) && id in old(tracks)
      ensures r.Ok? ==> r.value == ApplyTrackUpdate(old(tracks)[id], dto) && tracks == old(tracks)[id := r.value]
    {
      var v := ValidateGrouped(id);
      if v.Fail? {
        return Err(v.error);
      }
      if id !in tracks {
        return Err(NotFound("Track not found"));
      }
      var track := tracks[id];
      if dto.name.Defined? { track := track.(name := dto.name.value); }
      if dto.duration.Defined? { track := track.(duration := dto.duration.value); }
      if dto.artistId.Defined? { track := track.(artistId := dto.artistId.value); }
      if dto.albumId.Defined? { track := track.(albumId := dto.albumId.value); }
      tracks := tracks[id := track];
      r := Ok(track);
    }

    /** `delete`: the repository reports how many rows it removed; favorites
        are not touched. */
    method Delete(id: string) returns (r: Outcome)
      requires Valid()
      modifies this
      ensures Valid()
      ensures !MatchesGrouped(id) ==> r == Fail(BadRequest("Invalid UUID"))
      ensures MatchesGrouped(id) && id !in old(tracks) ==> r == Fail(NotFound("Track not found"))
      ensures r.Fail? ==> tracks == old(tracks)
      ensures r.Done? <==> MatchesGrouped(id) && id in old(tracks)
      ensures r.Done? ==> tracks == old(tracks) - {id}
    {
      var v := ValidateGrouped(id);
      if v.Fail? {
        return v;
      }
      var affected := if id in tracks then 1 else 0;
      tracks := tracks - {id};
      if affected == 0 {
        return Fail(NotFound("Track not found"));
      }
      r := Done;
    }

    /** `updateEntity`: the repository's save, which stores the record under
        its id whether or not one was there. */
    method UpdateEntity(track: Track) returns (r: Track)
      requires Valid()
      modifies this
      ensures Valid()
      ensures r == track
      ensures tracks == old(tracks)[track.id := track]
    {
      tracks := tracks[track.id := track];
      r := track;
    }
  }
}
