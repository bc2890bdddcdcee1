# Music library service: a verified model of its core

This project models the rule logic of a small music-library backend. The
backend stores artists, albums, tracks and users, and keeps one favorites
record. Token authentication and a request logger sit in front of it. The
model is written in Dafny and is the same kind of program as the source:
- the services are classes whose fields hold the stores and are updated in place;
- the cascade deletes are loops over those stores;
- the authentication decisions and the guard are pure functions.

Modules:
- `Common`: the error kinds, `Result`/`Outcome`, and JSON values with JavaScript truthiness. It also holds `Field` (a DTO property that may be `undefined`) and the `|| null` and `?? null` defaults.
- `Uuid`: the two hand-written id validators. The entity services use an 8-4-4-4-12 pattern whose character class also admits `-`. The user and favorites services accept any 36 characters drawn from hex digits and `-`.
- `Lists`: `findIndex`, `indexOf`, `splice(i, 1)`, and push-if-absent over sequences.
- `Favorites`: the favorites service, with three id lists and idempotent add and strict remove.
- `Tracks`: the track service over a repository modelled as a map from id to track.
- `Albums`, `Artists`: the album and artist services, including the delete cascades. Deleting an artist clears the `artistId` of albums and tracks. Deleting an album clears the `albumId` of tracks. Each cascade then removes the entity from the favorites.
- `Users`: the user service and the projection that drops the password.
- `Auth`: sign-up, login, token refresh and token-subject validation. bcrypt and the JWT library are passed in as functions. They work on the database's `users` table (`UserRepository`), whose id and login columns are unique.
- `Guard`: the public-route test of the JWT guard and its `handleRequest`.
- `Logging`: the body copy and password/refresh-token masking in the logging middleware.
- `Scenarios`: two verified call sequences over the services wired together, one per outcome of an artist delete.

All services share one track service and one favorites instance, as the
application's dependency injection wires them.

The source shows three mismatches, and the model settles each as follows:
- The artist and album deletes iterate `trackService.getAll()` as if it were the live array of tracks. The model treats the track repository as one in-memory store, which the cascades update in place.
- The artist delete passes a second argument to `removeArtist`, which declares only one parameter. JavaScript drops the extra argument. So the removal is not silent: deleting an artist or album that is not a favorite fails with NotFound. By then the references to it are already cleared, and the artist or album is still stored (`Scenarios.DeleteArtistThatIsNoFavorite`).
- The user service keeps a private in-memory array, while the auth service reads and writes the database's `users` table through a repository. The model keeps the two stores apart, as the source does. So a user created through the user service cannot log in, and a signed-up user is unknown to the user service. The table's primary key and its `unique: true` login column are the repository's invariant, so a login names at most one row there. The user service's array has no such constraint.

Where the service design and the code differ, the model follows the code:
- Adding a favorite does not check that the entity exists, so there is no UnprocessableEntity error.
- Favorites `getAll` returns the stored ids, not resolved records.
- Deleting a track does not touch the favorites.
- The user service's `create` does not check that the login is unique.
- A duplicate sign-up login is BadRequest, not Conflict.
- The album and track `artistId`/`albumId` are not checked for existence on write.
- Favorites removal has no silent mode.

## Model

| member | source | states |
|---|---|---|
| Common.OrNull | src/track/track.service.ts:42-43 | `x \|\| null`: an absent, null or empty-string reference becomes null and any other reference is kept |
| Common.NullishOrNull | src/album/album.service.ts:44 | `x ?? null`: only an absent or null reference becomes null; an empty string is kept |
| Common.OrNullDiffersOnlyOnEmpty | src/album/album.service.ts:44 | the two defaults disagree exactly on the empty-string reference |
| Uuid.ValidateGrouped | src/artist/artist.service.ts:77-85 | succeeds iff the id matches the 8-4-4-4-12 pattern; otherwise BadRequest "Invalid UUID" |
| Uuid.ValidateFlat | src/favorites/favorites.service.ts:58-62 | succeeds iff the id is 36 characters of hex digits or `-`; otherwise BadRequest "Invalid UUID" |
| Uuid.ClassRunSlice | src/artist/artist.service.ts:79 | a run of the character class splits into its slices and back |
| Uuid.GroupedByPosition | src/artist/artist.service.ts:79 | the pattern holds iff the length is 36, `-` sits at 8, 13, 18 and 23, and every character is hex or `-` |
| Uuid.GroupedImpliesFlat | src/user/user.service.ts:66-69 | every id the entity validator accepts, the user/favorites validator accepts too |
| Uuid.FlatNotGrouped | src/favorites/favorites.service.ts:59 | 36 zeros pass the flat check but not the grouped one |
| Uuid.GroupedStrictlyInsideFlat | src/album/album.service.ts:73-81 | the grouped set is a strict subset of the flat set |
| Uuid.AllDashesPassGrouped | src/track/track.service.ts:73-81 | a string of 36 dashes passes the grouped pattern, because the class admits `-` |
| Lists.FindIndex | src/artist/artist.service.ts:62 | `findIndex`: the first index satisfying the test, or -1 when none does |
| Lists.IndexOf | src/favorites/favorites.service.ts:27 | `indexOf`: the first index holding the value, or -1 exactly when it is absent |
| Lists.RemoveAt | src/favorites/favorites.service.ts:29 | `splice(i, 1)`: one element shorter, the prefix kept and the suffix shifted down by one |
| Lists.RemoveAtKeepsUniqueBy | src/artist/artist.service.ts:74 | a splice keeps a unique key unique and leaves no element with the removed element's key |
| Lists.PushAbsent | src/favorites/favorites.service.ts:20-22 | `if (includes) return; push`: the id is in the result; a present id leaves the list as it was; an absent one is appended at the end |
| Lists.RemoveFirst | src/favorites/favorites.service.ts:27-29 | `splice(indexOf(x), 1)`: one shorter, the first occurrence of the id gone and every other element in its old order |
| Lists.PushAbsentIdempotent | src/favorites/favorites.service.ts:20-22 | adding an id twice leaves the list as adding it once |
| Lists.PushAbsentNoDuplicates | src/favorites/favorites.service.ts:20-22 | add-if-absent keeps a duplicate-free list duplicate-free |
| Lists.RemoveFirstExactly | src/favorites/favorites.service.ts:27-29 | removal of a member drops exactly that id, keeps every other id, shortens the list by one, and keeps it duplicate-free |
| Lists.PushThenRemove | src/favorites/favorites.service.ts:20-29 | adding an absent id then removing it restores the original list |
| Favorites.FavoritesService.constructor | src/favorites/favorites.service.ts:11 | the three lists start empty |
| Favorites.FavoritesService.GetAll | src/favorites/favorites.service.ts:13-16 | returns the three stored id lists unresolved |
| Favorites.FavoritesService.AddTrack | src/favorites/favorites.service.ts:18-23 | BadRequest on a malformed id with no change; otherwise the id is appended unless already present; the other lists are untouched; no duplicates |
| Favorites.FavoritesService.RemoveTrack | src/favorites/favorites.service.ts:25-30 | BadRequest on a malformed id, NotFound "Track is not favorite" for a non-member, both with no change; otherwise exactly that id leaves the list |
| Favorites.FavoritesService.AddAlbum | src/favorites/favorites.service.ts:32-36 | as AddTrack, on the album list |
| Favorites.FavoritesService.RemoveAlbum | src/favorites/favorites.service.ts:38-43 | as RemoveTrack, on the album list, with NotFound "Album is not favorite" |
| Favorites.FavoritesService.AddArtist | src/favorites/favorites.service.ts:45-49 | as AddTrack, on the artist list |
| Favorites.FavoritesService.RemoveArtist | src/favorites/favorites.service.ts:51-56 | as RemoveTrack, on the artist list, with NotFound "Artist is not favorite" |
| Tracks.ApplyTrackUpdate | src/track/track.service.ts:52-55 | an update keeps the id; each property sent replaces its field and each one left out keeps it |
| Tracks.TrackUpdateIdempotent | src/track/track.service.ts:52-55 | sending the same update twice has the effect of sending it once; an empty update changes nothing |
| Tracks.UnlinkArtistFromTracks | src/artist/artist.service.ts:69-71 | same keys; each track has its reference to the artist cleared and nothing else changed |
| Tracks.UnlinkAlbumFromTracks | src/album/album.service.ts:65-67 | same keys; each track has its reference to the album cleared and nothing else changed |
| Tracks.UnlinkArtistFromTracksSpec | src/artist/artist.service.ts:69-71 | afterwards no track names the artist; those that did have a null `artistId`; all other fields and tracks are unchanged |
| Tracks.UnlinkAlbumFromTracksSpec | src/album/album.service.ts:65-67 | afterwards no track names the album; those that did have a null `albumId`; `artistId` and the rest are unchanged |
| Tracks.TrackService.constructor | src/track/track.service.ts:17-22 | the repository starts empty |
| Tracks.TrackService.GetById | src/track/track.service.ts:28-33 | BadRequest before any lookup on a malformed id; NotFound "Track not found" for an unknown id; otherwise the stored track with that id |
| Tracks.TrackService.Create | src/track/track.service.ts:35-46 | BadRequest with no change when the name is empty or the duration is absent or 0; otherwise one track stored under a fresh id with `artistId`/`albumId` defaulted by `\|\| null`, and it is found again by GetById |
| Tracks.TrackService.Update | src/track/track.service.ts:48-57 | BadRequest, or NotFound for an unknown id, with no change; otherwise only the sent fields are overwritten and only that track changes |
| Tracks.TrackService.Delete | src/track/track.service.ts:59-66 | BadRequest, or NotFound when nothing was removed; otherwise exactly that track leaves the repository, and the favorites are not touched |
| Tracks.TrackService.UpdateEntity | src/track/track.service.ts:69-71 | the given record is stored under its id, replacing any previous one |
| Albums.PositionOf | src/album/album.service.ts:62 | the first index with that id, or -1 when no album has it |
| Albums.ApplyAlbumUpdate | src/album/album.service.ts:54-56 | an update keeps the id; each property sent replaces its field and each one left out keeps it |
| Albums.AlbumUpdateIdempotent | src/album/album.service.ts:54-56 | sending the same update twice has the effect of sending it once; an explicit null clears the artist; an empty update changes nothing |
| Albums.UnlinkArtistFromAlbums | src/artist/artist.service.ts:65-67 | same length and order; no album names the artist afterwards; each album is unchanged or lost exactly its artist reference |
| Albums.UnlinkArtistKeepsIds | src/artist/artist.service.ts:65-67 | the artist cascade acts album by album and keeps the ids unique |
| Albums.AlbumService.constructor | src/album/album.service.ts:17-23 | empty store, sharing the given track service and favorites |
| Albums.AlbumService.GetById | src/album/album.service.ts:29-34 | BadRequest on a malformed id; NotFound "Album not found" for an unknown id; otherwise the stored album with that id |
| Albums.AlbumService.Create | src/album/album.service.ts:36-48 | BadRequest with no change when the name is empty or the year is not a number; otherwise one album appended with `artistId` defaulted by `?? null`, and it is found again by GetById |
| Albums.AlbumService.Update | src/album/album.service.ts:50-58 | BadRequest or NotFound with no change; otherwise the first album with the id gets the sent fields and no other album changes |
| Albums.AlbumService.Delete | src/album/album.service.ts:60-71 | BadRequest or NotFound with no change; otherwise tracks are unlinked first; then a non-favorite album fails NotFound and stays stored, and a favorite one leaves both the favorites and the store, with the others in order |
| Artists.ArtistPosition | src/artist/artist.service.ts:62 | the first index with that id, or -1 when no artist has it |
| Artists.ApplyArtistUpdate | src/artist/artist.service.ts:55-56 | an update keeps the id; each property sent replaces its field and each one left out keeps it |
| Artists.ArtistUpdateIdempotent | src/artist/artist.service.ts:55-56 | sending the same update twice has the effect of sending it once |
| Artists.ArtistService.constructor | src/artist/artist.service.ts:18-25 | empty store, wired to the album service, track service and favorites |
| Artists.ArtistService.GetById | src/artist/artist.service.ts:31-36 | BadRequest on a malformed id; NotFound "Artist not found" for an unknown id; otherwise the stored artist with that id |
| Artists.ArtistService.Create | src/artist/artist.service.ts:38-49 | BadRequest with no change when the name is empty or `grammy` is not a boolean; otherwise one artist appended under a fresh id, found again by GetById |
| Artists.ArtistService.Update | src/artist/artist.service.ts:51-58 | BadRequest or NotFound with no change; otherwise only the sent fields of that artist change and GetById returns the result |
| Artists.ArtistService.Delete | src/artist/artist.service.ts:60-75 | BadRequest or NotFound with no change anywhere; otherwise albums and tracks are unlinked first; then a non-favorite artist fails NotFound and stays stored, and a favorite one leaves both the favorites and the store |
| Artists.ArtistService.UnlinkFromAlbums | src/artist/artist.service.ts:65-67 | the loop over the albums yields exactly UnlinkArtistFromAlbums of the old albums |
| Artists.ArtistService.UnlinkFromTracks | src/artist/artist.service.ts:69-71 | the loop over the tracks yields exactly UnlinkArtistFromTracks of the old repository |
| Users.WithoutPassword | src/user/user.service.ts:24-25 | the view carries every field of the user except the password |
| Users.WithoutPasswordForgetsOnlyPassword | src/user/user.service.ts:24-25 | two users have equal views iff they differ at most in their passwords |
| Users.WithoutPasswords | src/user/user.service.ts:17 | one password-free view per user, in order |
| Users.UserPosition | src/user/user.service.ts:61 | the first index with that id, or -1 when no user has it |
| Users.ChangedPassword | src/user/user.service.ts:52-54 | new password, version + 1 and new `updatedAt`; id, login and `createdAt` kept |
| Users.UserService.constructor | src/user/user.service.ts:14 | the store starts empty |
| Users.UserService.GetAll | src/user/user.service.ts:16-18 | every stored user, in order, with every field but the password |
| Users.UserService.GetById | src/user/user.service.ts:20-26 | BadRequest on a malformed id; NotFound "User not found" for an unknown id; otherwise the password-free view of that user |
| Users.UserService.Create | src/user/user.service.ts:28-44 | BadRequest with no change when login or password is empty; otherwise one user appended with version 1 and `createdAt == updatedAt`, found again by GetById without the password |
| Users.UserService.UpdatePassword | src/user/user.service.ts:46-57 | BadRequest, NotFound, or Forbidden "Old password is wrong" with no change; otherwise ChangedPassword at that position and nothing else changes |
| Users.UserService.Delete | src/user/user.service.ts:59-64 | BadRequest or NotFound with no change; otherwise exactly that user is spliced out |
| Auth.LoginPosition | src/auth/auth.service.ts:65 | the first user with that login, or -1 when none has it |
| Auth.IssueTokens | src/auth/auth.service.ts:120-132 | both tokens are signed over the same payload, the access token with the access secret and expiry and the refresh token with the refresh ones |
| Auth.Login | src/auth/auth.service.ts:57-85 | BadRequest when login or password is not a non-empty string; succeeds iff some user has the login and the first such user's password matches; an unknown login and a wrong password fail with the same Forbidden; on success both tokens are signed over `{userId, login}` of that first user |
| Auth.Refresh | src/auth/auth.service.ts:87-118 | Unauthorized for an empty token; succeeds iff the token verifies and names a stored user; every other failure is Forbidden "Invalid or expired refresh token"; on success the new tokens are signed for the first user with that id |
| Auth.ValidateUser | src/auth/auth.service.ts:134-140 | the first stored user with the payload's id, or Unauthorized "User not found" |
| Auth.LoginFindsTheOneUser | src/auth/auth.service.ts:65-79 | with the login column unique, `findOne` finds the only user with that login, and login succeeds exactly when its hash matches and then signs for it |
| Auth.RegisteredUser | src/auth/auth.service.ts:43-52 | the saved row holds the hash of the password, not the password, with version 1 and equal timestamps; if compare accepts a password's own hash, the hash matches |
| Auth.LoginAfterSignUp | src/auth/auth.service.ts:44-79 | if compare accepts the hash of the same password, then logging in right after signing up succeeds with the new user's tokens |
| Auth.UserRepository.constructor | src/user/user.entity.ts:10-29 | the table starts empty, with its primary key and unique login column holding |
| Auth.AuthService.constructor | src/auth/auth.service.ts:22-27 | the service works on the given user repository, crypto primitives and configuration |
| Auth.AuthService.SignUp | src/auth/auth.service.ts:29-55 | BadRequest when login or password is not a non-empty string, or when the login is taken, with no change; otherwise exactly one row appended, holding the hash and not the raw password; ids and logins stay unique |
| Guard.IsPublic | src/auth/jwt-auth.guard.ts:15-18 | the public URLs are exactly `/`, the three auth endpoints, and the URLs beginning with `/doc` |
| Guard.CanActivate | src/auth/jwt-auth.guard.ts:11-23 | allowed iff the URL equals a listed public route or starts with `/doc`; every other request is delegated to the token check |
| Guard.PublicExamples | src/auth/jwt-auth.guard.ts:15-18 | `/doctor` is public; `/user`, `/auth/login?x=1` and `/auth/signup/` are not |
| Guard.HandleRequest | src/auth/jwt-auth.guard.ts:25-30 | a present error is rethrown; no error and no user is Unauthorized; otherwise the user is returned unchanged |
| Logging.Request.constructor | src/common/middleware/logging.middleware.ts:9 | the request carries the given body |
| Logging.LoggedBody | src/common/middleware/logging.middleware.ts:13-21 | an absent or falsy body logs as `{}`; in an object body a truthy `password` or `refreshToken` becomes `"***"` and every other key and value is kept; the request itself is not modified |
| Scenarios.SampleIdsWellFormed | src/artist/artist.service.ts:79 | the two sample ids pass the entity validator and differ |
| Scenarios.DeleteArtistThatIsNoFavorite | src/artist/artist.service.ts:60-74 | deleting an artist that is not a favorite fails with NotFound "Artist is not favorite", yet its album has already lost its `artistId` and the artist is still stored |
| Scenarios.DeleteFavoriteArtist | src/artist/artist.service.ts:60-74 | deleting a favorite artist succeeds, clears its album's `artistId`, and removes it from the store and the favorites |

## Left out

- Async and Promise semantics: every service operation is one atomic step. The repository awaits cannot interleave.
- The `getAll` of the artist, album and track services: each returns its live store, which is the `artists`/`albums` field or the repository map itself. The artist and album cascades read those fields directly.
- Aliasing: the artist and album services return references to their stored records, which a caller could mutate. The model returns values.
- `randomUUID()` and the repository's id generation: a `newId` argument that the caller must supply fresh and well-formed.
- `Date.now()`: a `now` argument.
- bcrypt and the JWT library: functions inside `Crypto`. The only property assumed of them is that `compare` accepts the hash of the same password. It appears only as a hypothesis, in `LoginAfterSignUp` and in one clause of `RegisteredUser`. The bcrypt salt is a `salt` argument, and token expiry lives inside `verify`.
- Tracks.TrackService.Create: a duration is an integer, so the falsy `NaN` and non-integer durations are not modelled.
- Albums.AlbumService.Create: the year is an integer, so a `NaN` year, which passes the `typeof` test, and fractional years are not modelled.
- Logging.LoggedBody: the `JSON.parse(JSON.stringify(...))` copy is modelled as the identity on JSON values, because a parsed request body has nothing the round trip would drop. JSON numbers are integers in the model; a fractional number is truthy like every non-zero one, so masking does not depend on it.
- The `res.on("finish")` callback, the logging service, the exception filter and the controllers: these are I/O and HTTP plumbing.
- The class-validator decorators on the DTOs: they belong to the framework's validation pipeline. Only the checks written in the services are modelled.
- The module files, `main.ts`, the ORM configuration and the migration: bootstrap and schema code.
- The JWT passport strategy: it only forwards to `validateUser`.
