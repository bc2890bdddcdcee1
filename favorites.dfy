/** The favorites service: one in-memory record of three id lists. Adding is
    idempotent and checks only the id's shape; removing a non-member throws.
    */
module Favorites {
  import opened Common
  import opened Uuid
  import opened Lists

  /** The shape of the `favorites` record: three lists of ids. */
  datatype FavoritesRecord = FavoritesRecord(artists: seq<string>, albums: seq<string>, tracks: seq<string>)

  class FavoritesService {
    var artists: seq<string>
    var albums: seq<string>
    var tracks: seq<string>

    /** No list holds an id twice. */
    ghost predicate Valid()
      reads this
    {
      NoDuplicates(artists) && NoDuplicates(albums) && NoDuplicates(tracks)
    }

    constructor ()
      ensures Valid()
      ensures artists == [] && albums == [] && tracks == []
    {
      artists, albums, tracks := [], [], [];
    }

    /** `getAll`: the stored ids themselves; they are not resolved to records,
        so a dangling id is returned as it is. */
    function GetAll(): (r: FavoritesRecord)
      reads this
      ensures r.artists == artists && r.albums == albums && r.tracks == tracks
    {
      FavoritesRecord(artists, albums, tracks)
    }

    method AddTrack(id: string) returns (r: Outcome)
      requires Valid()
      modifies this
      ensures Valid()
      ensures r == ValidateFlat(id)
      ensures r.Fail? ==> unchanged(this)
      ensures r.Done? ==> tracks == PushAbsent(old(tracks), id)
      ensures artists == old(artists) && albums == old(albums)
    {
      r := ValidateFlat(id);
      if r.Fail? {
        return;
      }
      if id in tracks {
        return;
      }
      PushAbsentNoDuplicates(tracks, id);
      tracks := tracks + [id];
    }

    method RemoveTrack(id: string) returns (r: Outcome)
      requires Valid()
      modifies this
      ensures Valid()
      ensures !MatchesFlat(id) ==> r == Fail(BadRequest("Invalid UUID"))
      ensures MatchesFlat(id) && id !in old(tracks) ==> r == Fail(NotFound("Track is not favorite"))
      ensures MatchesFlat(id) && id in old(tracks) ==> r == Done && tracks == RemoveFirst(old(tracks), id)
      ensures r.Fail? ==> unchanged(this)
      ensures artists == old(artists) && albums == old(albums)
    {
      r := ValidateFlat(id);
      if r.Fail? {
        return;
      }
      var idx := IndexOf(tracks, id);
      if idx == -1 {
        return Fail(NotFound("Track is not favorite"));
      }
      RemoveFirstExactly(tracks, id);
      tracks := RemoveAt(tracks, idx);
    }

    method AddAlbum(id: string) returns (r: Outcome)
      requires Valid()
      modifies this
      ensures Valid()
      ensures r == ValidateFlat(id)
      ensures r.Fail? ==> unchanged(this)
      ensures r.Done? ==> albums == PushAbsent(old(albums), id)
      ensures artists == old(artists) && tracks == old(tracks)
    {
      r := ValidateFlat(id);
      if r.Fail? {
        return;
      }
      if id in albums {
        return;
      }
      PushAbsentNoDuplicates(albums, id);
      albums := albums + [id];
    }

    method RemoveAlbum(id: string) returns (r: Outcome)
      requires Valid()
      modifies this
      ensures Valid()
      ensures !MatchesFlat(id) ==> r == Fail(BadRequest("Invalid UUID"))
      ensures MatchesFlat(id) && id !in old(albums) ==> r == Fail(NotFound("Album is not favorite"))
      ensures MatchesFlat(id) && id in old(albums) ==> r == Done && albums == RemoveFirst(old(albums), id)
      ensures r.Fail? ==> unchanged(this)
      ensures artists == old(artists) && tracks == old(tracks)
    {
      r := ValidateFlat(id);
      if r.Fail? {
        return;
      }
      var idx := IndexOf(albums, id);
      if idx == -1 {
        return Fail(NotFound("Album is not favorite"));
      }
      RemoveFirstExactly(albums, id);
      albums := RemoveAt(albums, idx);
    }

    method AddArtist(id: string) returns (r: Outcome)
      requires Valid()
      modifies this
      ensures Valid()
      ensures r == ValidateFlat(id)
      ensures r.Fail? ==> unchanged(this)
      ensures r.Done? ==> artists == PushAbsent(old(artists), id)
      ensures albums == old(albums) && tracks == old(tracks)
    {
      r := ValidateFlat(id);
      if r.Fail? {
        return;
      }
      if id in artists {
        return;
      }
      PushAbsentNoDuplicates(artists, id);
      artists := artists + [id];
    }

    method RemoveArtist(id: string) returns (r: Outcome)
      requires Valid()
      modifies this
      ensures Valid()
      ensures !MatchesFlat(id) ==> r == Fail(BadRequest("Invalid UUID"))
      ensures MatchesFlat(id) && id !in old(artists) ==> r == Fail(NotFound("Artist is not favorite"))
      ensures MatchesFlat(id) && id in old(artists) ==> r == Done && artists == RemoveFirst(old(artists), id)
      ensures r.Fail? ==> unchanged(this)
      ensures albums == old(albums) && tracks == old(tracks)
    {
      r := ValidateFlat(id);
      if r.Fail? {
        return;
      }
      var idx := IndexOf(artists, id);
      if idx == -1 {
        return Fail(NotFound("Artist is not favorite"));
      }
      RemoveFirstExactly(artists, id);
      artists := RemoveAt(artists, idx);
    }
  }
}
