# Rhythm: playlist, favourites and client-state model

A Dafny model of the logic in Rhythm, a music web app. Signed-in users like songs, favourite
albums and build playlists. Data is kept in two key-value tables:

- **Playlists**, keyed by (`usuario_id`, `playlist_id`). Each user has a reserved
  `__LIKED_SONGS__` playlist.
- **UserFavoriteAlbums**, keyed by (`usuario_id`, `album_id`).

The model covers four groups.

- **Server handlers over Playlists** (`PlaylistStore.PlaylistTable`):
  - the liked-song toggle (remove the song if its id is present, otherwise append it), with its
    `if_not_exists` defaults, and the liked-id listing;
  - the manage route: request guards, song removal with cover recomputation, and delete;
  - the listing sort: Liked Songs first, then by name;
  - playlist creation.

  A table is a class with a `map` field, and each handler is a method. The decisions a handler
  makes are pure functions (`Plan`, `ToggleLiked`, `LikedUpdate`, `RemoveSongFromItem`,
  `Create`, `SortPlaylists`), and the lemmas are about those functions.
- **Server handlers over UserFavoriteAlbums** (`FavoriteAlbumsRoute.FavoriteAlbumTable`):
  `GET` maps `album_id` to `id`; `POST` validates the request, then adds or removes by key.
- **Client state**, as classes whose fields are the React state:
  - the liked-song id set: initial load, optimistic flip, and revert on failure;
  - the favourite-album ids and album data;
  - the playlist-creation modal: the selection map, search, submit guard and reset;
  - the dashboard song search and its first-ten display;
  - the dashboard playlist list: the flip map and the local updates after remove or delete.
- **Small rules and state machines**:
  - the single-current-player audio rule;
  - the header light sequencer, with its fixed order 2, 4, 1, 5, 3;
  - the hour-to-greeting rule;
  - the seed routes, which map seed records to items and send at most 25 per batch write.

Shared modules:

- `Wrappers`: optional attributes, and JavaScript truthiness of strings.
- `Http`: status codes, responses, and client fetch outcomes.
- `Text`:
  - `toLowerCase` as an ASCII case map;
  - `includes`;
  - `trim` over the ECMAScript whitespace set;
  - `String(n)` for naturals, with its inverse;
  - `localeCompare` read as lexicographic order.
- `Seqs`: `filter`, `slice(0, n)`, and subsequence reasoning.
- `SongLists`: the song record kept in playlists, `findIndex`, drop-by-id, the remove-or-append
  toggle, and the song list seen as a JavaScript `Map`.
- `Store`: `GetCommand` and `QueryCommand` on a map.

External inputs become parameters:

- the signed-in user (an optional id);
- fetch outcomes;
- a new playlist's uuid;
- timestamps and the hour;
- whether a batch write or scan throws.

## Model

| member | source | states |
|---|---|---|
| Store.Lookup | app/api/playlists/liked-songs/manage/route.tsx:34-39 | A `GetCommand` yields the item exactly when the key is present, and it is the stored item. |
| Store.QueryKeys | app/api/playlists/route.tsx:18-26 | A `usuario_id = :uid` query returns every key of that user, once each, and no other key. |
| Text.Lower | app/dashboard/components/Songs.tsx:67-71 | `toLowerCase` keeps the length and maps each character through the case map. |
| Text.IncludesIff | app/dashboard/components/Songs.tsx:69-72 | `s.includes(t)` holds exactly when `t` occurs in `s` at some position. |
| Text.IncludesEmpty | app/dashboards/components/CreatePlaylistsModal.tsx:89-92 | Every string includes the empty string. |
| Text.LowerIdempotent | app/dashboard/components/Songs.tsx:67 | Lower-casing twice is the same as lower-casing once. |
| Text.TrimStart | app/dashboard/components/Songs.tsx:64 | The result is a suffix of the input, and what was dropped is whitespace. The result does not start with whitespace. |
| Text.TrimEnd | app/dashboard/components/Songs.tsx:64 | The result is a prefix of the input, and what was dropped is whitespace. The result does not end with whitespace. |
| Text.TrimEmptyIff | app/dashboards/components/CreatePlaylistsModal.tsx:96 | `s.trim()` is empty exactly when every character of `s` is whitespace. |
| Text.TrimLowerEmpty | app/dashboard/components/Songs.tsx:64-67 | A term is blank after `trim()` exactly when its lower-cased form is. |
| Text.NatToString | app/api/songs/route.tsx:174 | `String(n)` is a non-empty string of decimal digits with no leading zero, apart from `"0"`. |
| Text.ParseNatToString | app/api/songs/route.tsx:174-185 | Reading back the decimal string of `n` gives `n`. |
| Text.NatToStringInjective | app/api/albums/route.tsx:33 | Different numbers have different decimal strings. |
| Text.LexCompare | app/api/playlists/route.tsx:32 | The name comparison returns -1, 0 or 1. |
| Text.LexCompareAntisymmetric | app/api/playlists/route.tsx:32 | Swapping the arguments negates the result. The result is 0 exactly for equal strings. |
| Text.LexCompareTransitive | app/api/playlists/route.tsx:32 | The comparison is transitive. |
| SongLists.FindIndex | app/api/playlists/liked-songs/manage/route.tsx:42 | `findIndex` gives the first position holding the id. It gives -1 exactly when no song has the id. |
| SongLists.WithoutId | app/api/playlists/manage/route.ts:62 | After `filter(s => s.id !== id)`, no song has the id. |
| SongLists.WithoutIdSpec | app/api/playlists/manage/route.ts:61-62 | The filtered list is an order-preserving subsequence. It keeps exactly the songs with other ids, each with its multiplicity. |
| SongLists.WithoutAbsentId | app/api/playlists/manage/route.ts:62 | Filtering out an id no song carries changes nothing. |
| SongLists.FilterKeepsUnique | app/api/playlists/liked-songs/manage/route.tsx:45 | Filtering a list without duplicate ids gives a list without duplicate ids. |
| SongLists.ToggleKeepsUnique | app/api/playlists/liked-songs/manage/route.tsx:42-50 | The remove-or-append toggle keeps a list free of duplicate ids. |
| SongLists.ToggleTwiceAbsent | app/api/playlists/liked-songs/manage/route.tsx:42-50 | Toggling an absent song twice gives back the original list. |
| SongLists.ToggleTwicePresent | app/api/playlists/liked-songs/manage/route.tsx:42-50 | Toggling a present song twice drops every copy of its id, then appends the posted song at the end. |
| SongLists.Ids | app/api/playlists/liked-songs/manage/route.tsx:94 | `map(song => song.id)` keeps the length and the order. |
| SongLists.IdsMembers | app/api/playlists/liked-songs/manage/route.tsx:94 | An id is in the projection exactly when some song carries it. |
| SongLists.HasIdAppend | app/api/playlists/liked-songs/manage/route.tsx:48 | After the append, the ids present are the old ones plus the appended song's. |
| SongLists.HasIdWithout | app/api/playlists/liked-songs/manage/route.tsx:45 | After the filter, the ids present are the old ones minus the filtered id. |
| SongLists.AsMapKeys | app/dashboards/components/CreatePlaylistsModal.tsx:71 | The keys of the selection `Map` are exactly the ids in its entry list. |
| SongLists.AsMapValues | app/dashboards/components/CreatePlaylistsModal.tsx:107 | With unique ids, each entry is stored under its own id. |
| SongLists.AppendAsMap | app/dashboards/components/CreatePlaylistsModal.tsx:84 | Appending an entry is `Map.set` on the map view. |
| SongLists.WithoutIdAsMap | app/dashboards/components/CreatePlaylistsModal.tsx:82 | Dropping an id is `Map.delete` on the map view. Every other entry stays. |
| SongLists.ToggleAsMap | app/dashboards/components/CreatePlaylistsModal.tsx:81-85 | On the map view, the toggle deletes a present key or sets an absent one, and touches no other key. |
| LikedSongsManageRoute.ToggleLiked | app/api/playlists/liked-songs/manage/route.tsx:42-50 | The action is `removed` exactly when the id is present. Removal leaves no song with the id and keeps the others in order (a subsequence). Otherwise the song is appended: the length grows by 1 and the prefix is unchanged. |
| LikedSongsManageRoute.ToggleOnMissingItem | app/api/playlists/liked-songs/manage/route.tsx:39-50 | A missing item counts as an empty list, so the first like gives `[song]` and `added`. |
| LikedSongsManageRoute.ToggleLikedKeepsUnique | app/api/playlists/liked-songs/manage/route.tsx:42-50 | A toggle keeps the liked list free of duplicate ids. |
| LikedSongsManageRoute.LikeThenUnlike | app/api/playlists/liked-songs/manage/route.tsx:42-50 | Liking an absent song and then unliking it restores the list. The two actions are `added` then `removed`. |
| LikedSongsManageRoute.LikedUpdate | app/api/playlists/liked-songs/manage/route.tsx:51-63 | The write always replaces `canciones`. It sets the name, the Liked Songs flag and the cover only where the item lacks them. The key is the caller's Liked Songs key, and nothing else changes. |
| LikedSongsManageRoute.LikedIds | app/api/playlists/liked-songs/manage/route.tsx:91-99 | `GET` gives the stored song ids in stored order, or `[]` when there is no item or no song list. |
| LikedSongsManageRoute.ToggleThenList | app/api/playlists/liked-songs/manage/route.tsx:23-106 | After a like `POST`, the next `GET` lists the posted id exactly when the previous `GET` did not. |
| PlaylistsManageRoute.Plan | app/api/playlists/manage/route.ts:20-95 | Each of the 401, 400, 403, remove and delete outcomes is an if-and-only-if on the request. 401 exactly without a user. 400 exactly for a signed-in request with a missing action or playlist id, a removal from an ordinary playlist without a song id, or an action other than the two known ones. 403 exactly for either known action on `__LIKED_SONGS__`. |
| PlaylistsManageRoute.LikedSongsProtected | app/api/playlists/manage/route.ts:35-43 | No request naming `__LIKED_SONGS__` is planned as a removal or a deletion. |
| PlaylistsManageRoute.RemoveSongFromItem | app/api/playlists/manage/route.ts:61-72 | The new `canciones` are the old list minus every song with the id, in the old order, with multiplicities kept. The cover is the first remaining `foto`, or the default image for an empty list. All other attributes stay. |
| PlaylistsManageRoute.RemoveAbsentSong | app/api/playlists/manage/route.ts:62-71 | Removing an id no song carries keeps the list. The cover is still reset to the first song's `foto`. |
| PlaylistsListRoute.PrecedesTotal | app/api/playlists/route.tsx:29-33 | The comparator orders any two playlists one way or the other. |
| PlaylistsListRoute.PrecedesTransitive | app/api/playlists/route.tsx:29-33 | The comparator's order is transitive. |
| PlaylistsListRoute.Insert | app/api/playlists/route.tsx:29-33 | Inserting into a sorted list keeps it sorted and adds exactly one element. |
| PlaylistsListRoute.SortPlaylists | app/api/playlists/route.tsx:29-33 | The sorted listing is a permutation of the input, and every pair is in comparator order. |
| PlaylistsListRoute.ListResult | app/api/playlists/route.tsx:29-35 | `Items?.sort(...) \|\| []` gives the sorted permutation, or `[]` when there are no items. |
| PlaylistsListRoute.LikedSongsFirst | app/api/playlists/route.tsx:30-31 | In a sorted listing, only Liked Songs can stand before Liked Songs. |
| PlaylistsListRoute.OthersByName | app/api/playlists/route.tsx:32 | In a sorted listing, two ordinary playlists are in name order, a missing name counting as `''`. |
| PlaylistsCreateRoute.CoverOf | app/api/playlists/create/route.ts:38 | The cover is the first song's `foto` when it is non-empty, otherwise the default image. |
| PlaylistsCreateRoute.Create | app/api/playlists/create/route.ts:24-58 | 401 exactly without a user; 400 exactly for a missing or empty name or song list. Otherwise 201 with an item that has: the key (caller, new id), the name and songs as given, `es_liked_songs` false, the computed cover, and the creation time. |
| PlaylistStore.ToggleKeepsLikedShape | app/api/playlists/liked-songs/manage/route.tsx:42-63 | If the stored Liked Songs item is missing or well-formed, the toggle writes a well-formed one: flagged, named, with a cover, and without duplicate ids. |
| PlaylistStore.PlaylistTable.constructor | app/api/playlists/route.tsx:8 | The table starts empty and valid. |
| PlaylistStore.PlaylistTable.ToggleLikedSong | app/api/playlists/liked-songs/manage/route.tsx:23-64 | 401 with the table untouched, or the caller's Liked Songs item replaced by `LikedUpdate` of the toggled list. The reply carries the action and the song id. Validity is kept. |
| PlaylistStore.PlaylistTable.LikedSongIds | app/api/playlists/liked-songs/manage/route.tsx:74-99 | 401 without a user. Otherwise 200 with the stored ids, or `[]` for a missing item. |
| PlaylistStore.PlaylistTable.Manage | app/api/playlists/manage/route.ts:20-95 | A refused plan returns its status and leaves the table untouched. A removal on a missing item or song list gives 404 and changes nothing. Otherwise exactly the one key is overwritten or deleted. No Liked Songs item ever changes. |
| PlaylistStore.PlaylistTable.ListPlaylists | app/api/playlists/route.tsx:11-35 | 401 without a user. Otherwise 200 with each of the caller's stored playlists exactly once (as multisets) and in comparator order. |
| PlaylistStore.PlaylistTable.CreatePlaylist | app/api/playlists/create/route.ts:24-58 | The reply is `Create`'s. On success the one new key is written; on an error nothing is written. |
| FavoriteAlbumsRoute.Views | app/api/me/favorite-albums/route.ts:38-45 | Each item maps to an album with `id` = `album_id` and the other fields copied, in order; no items gives `[]`. |
| FavoriteAlbumsRoute.PlanPost | app/api/me/favorite-albums/route.ts:56-90 | 401 exactly without a user. 400 exactly for a signed-in request with a missing `albumData` or `albumData.id`, or an action that is neither `add` nor `remove`. `add` puts a record under (caller, id) with the fields copied and the timestamp. `remove` deletes exactly (caller, id). |
| FavoriteAlbumsRoute.FavoriteAlbumTable.constructor | app/api/me/favorite-albums/route.ts:8 | The table starts empty. |
| FavoriteAlbumsRoute.FavoriteAlbumTable.Get | app/api/me/favorite-albums/route.ts:20-47 | 401 without a user. Otherwise every favourite of the caller exactly once, with `album_id` shown as `id`. |
| FavoriteAlbumsRoute.FavoriteAlbumTable.Post | app/api/me/favorite-albums/route.ts:56-90 | The table changes exactly as `PlanPost` says (put one key, delete one key, or nothing). The reply names the album and the action. |
| FavoriteAlbumsRoute.PostThenList | app/api/me/favorite-albums/route.ts:20-90 | After an add, the next `GET` lists the album. After a remove, no listed album has that id. |
| LikedSongsContext.LoadedIds | app/contexts/LikedSongsContext.tsx:30-55 | The ids after the initial load: the returned ids when signed in and the response was ok, otherwise none. |
| LikedSongsContext.Flip | app/contexts/LikedSongsContext.tsx:68-78 | The optimistic update flips the song id's membership and leaves every other id unchanged. |
| LikedSongsContext.Revert | app/contexts/LikedSongsContext.tsx:98-106 | The revert sets the id's membership back to what it was before the toggle. Every other id is unchanged. |
| LikedSongsContext.RevertUndoesFlip | app/contexts/LikedSongsContext.tsx:68-106 | A flip followed by its revert restores the set. |
| LikedSongsContext.FlipMatchesServer | app/contexts/LikedSongsContext.tsx:68-78 | Flipping the ids the liked-songs `GET` returned gives exactly the ids it returns after the like `POST`. |
| LikedSongsContext.LikedSongsState.constructor | app/contexts/LikedSongsContext.tsx:27-28 | The state starts with no ids and loading. |
| LikedSongsContext.LikedSongsState.FetchInitialLikedSongs | app/contexts/LikedSongsContext.tsx:30-55 | The ids become `LoadedIds`, and loading ends. |
| LikedSongsContext.LikedSongsState.BeginToggle | app/contexts/LikedSongsContext.tsx:62-78 | Signed out: nothing changes. Otherwise the state flips and the prior membership is returned. |
| LikedSongsContext.LikedSongsState.RevertToggle | app/contexts/LikedSongsContext.tsx:95-106 | The revert is applied to the current set. |
| LikedSongsContext.LikedSongsState.ToggleLikeSong | app/contexts/LikedSongsContext.tsx:62-109 | Signed out, or a failed request, leaves the ids unchanged. A successful request leaves them flipped. |
| FavoriteAlbumsContext.AlbumIds | app/contexts/FavoriteAlbumsContext.tsx:42 | `new Set(albums.map(a => a.id))` holds exactly the ids of the albums. |
| FavoriteAlbumsContext.ChosenAction | app/contexts/FavoriteAlbumsContext.tsx:60-61 | The action is `remove` exactly when the album is a favourite, and `add` otherwise. |
| FavoriteAlbumsContext.Applied | app/contexts/FavoriteAlbumsContext.tsx:65-69 | `remove` drops the id; anything else adds it. No other id changes. |
| FavoriteAlbumsContext.ToggleFlips | app/contexts/FavoriteAlbumsContext.tsx:59-69 | Applying the chosen action flips the album's membership only. |
| FavoriteAlbumsContext.ToggleTwiceRestores | app/contexts/FavoriteAlbumsContext.tsx:59-69 | Two optimistic toggles of the same album restore the ids. |
| FavoriteAlbumsContext.FavoriteAlbumsState.constructor | app/contexts/FavoriteAlbumsContext.tsx:27-29 | The state starts empty and loading. |
| FavoriteAlbumsContext.FavoriteAlbumsState.FetchUserFavoriteAlbums | app/contexts/FavoriteAlbumsContext.tsx:31-51 | Signed in with an ok response: the data is the returned albums and the ids are exactly their ids. Otherwise both are emptied. Loading ends. |
| FavoriteAlbumsContext.FavoriteAlbumsState.ToggleFavoriteAlbum | app/contexts/FavoriteAlbumsContext.tsx:57-69 | Signed out: no action and no change. Otherwise the chosen action is returned and applied to the ids. The album data is untouched. |
| SongsView.FilteredSongs | app/dashboard/components/Songs.tsx:63-74 | A blank (after trim) term gives all songs. Otherwise the result is the order-preserving subsequence of songs whose lower-cased title, artist or album, or whose year text, contains the lower-cased term. Every match is kept with its multiplicity. |
| SongsView.Displayed | app/dashboard/components/Songs.tsx:96 | The display is the first `min(10, n)` filtered songs. |
| SongsView.BlankTermShowsAll | app/dashboard/components/Songs.tsx:64-96 | An all-whitespace term displays the first ten loaded songs. |
| SongsView.SearchIgnoresTermCase | app/dashboard/components/Songs.tsx:64-73 | Lower-casing the term first changes nothing: the search ignores the term's case. |
| SongsView.LikeData | app/dashboard/components/Songs.tsx:50-59 | The like payload copies id, name, artist, album, photo and track field for field. |
| CreatePlaylistModal.SelectionData | app/dashboards/components/CreatePlaylistsModal.tsx:72-79 | The selected song's data copies each field. |
| CreatePlaylistModal.ModalFilter | app/dashboards/components/CreatePlaylistsModal.tsx:89-92 | The result is the order-preserving subsequence of songs whose title or artist contains the term, ignoring case. Every match is kept with its multiplicity. The empty term keeps all. |
| CreatePlaylistModal.SubmitPayload | app/dashboards/components/CreatePlaylistsModal.tsx:96-108 | No request exactly when the trimmed name is empty, nothing is selected, or the user is signed out. Otherwise the untrimmed name and the selection's values in insertion order. |
| CreatePlaylistModal.SubmittedIsAcceptable | app/dashboards/components/CreatePlaylistsModal.tsx:96-108 | What the modal submits always passes the create handler's 400 guard. |
| CreatePlaylistModal.SubmittedAreMapValues | app/dashboards/components/CreatePlaylistsModal.tsx:107 | The submitted songs are exactly the map's values: each sits under its own key, and every key is represented. |
| CreatePlaylistModal.ToggleTwiceRestores | app/dashboards/components/CreatePlaylistsModal.tsx:81-85 | Toggling the same song twice restores the map. The entry order is restored too when the song was not selected. |
| CreatePlaylistModal.CreatePlaylistModalState.constructor | app/dashboards/components/CreatePlaylistsModal.tsx:37-41 | The state starts with an empty name, selection and term. |
| CreatePlaylistModal.CreatePlaylistModalState.OnOpenChange | app/dashboards/components/CreatePlaylistsModal.tsx:44-68 | Opening loads the songs (none on failure). Closing resets the name, the selection and the term to empty. |
| CreatePlaylistModal.CreatePlaylistModalState.ToggleSongSelection | app/dashboards/components/CreatePlaylistsModal.tsx:70-87 | The map deletes the id if present, otherwise sets it to the mapped data. No other entry or field changes. Ids stay unique. |
| CreatePlaylistModal.CreatePlaylistModalState.Submit | app/dashboards/components/CreatePlaylistsModal.tsx:94-108 | The payload posted is `SubmitPayload` of the current state. |
| PlaylistsView.LikeDataFromDisplay | app/dashboard/components/Playlists.tsx:66-71 | The like payload copies the fields, with a missing artist or album sent as `''`. |
| PlaylistsView.ReplaceSongs | app/dashboard/components/Playlists.tsx:91-97 | Only the matching playlist's songs and cover are replaced. Length, order and every other playlist stay. |
| PlaylistsView.WithoutPlaylist | app/dashboard/components/Playlists.tsx:120 | The deleted playlist is filtered out. The rest keep their order and their multiplicities. |
| PlaylistsView.RouteRemoval | app/dashboard/components/Playlists.tsx:74-86 | A removal from Liked Songs goes to the like toggle, and only then. Any other removal goes to the manage API with the song id. |
| PlaylistsView.RemovalRequestIsPlanned | app/dashboard/components/Playlists.tsx:81-86 | A removal the client sends to the manage API is planned by the server as that removal, never refused. |
| PlaylistsView.DeleteRequestIsPlanned | app/dashboard/components/Playlists.tsx:106-116 | A deletion the client sends is planned by the server as that deletion. |
| PlaylistsView.PlaylistsViewState.constructor | app/dashboard/components/Playlists.tsx:36-39 | The list and the flip map start empty. |
| PlaylistsView.PlaylistsViewState.HandleFlip | app/dashboard/components/Playlists.tsx:42-44 | Only the given playlist's flag is negated, an absent entry counting as false. |
| PlaylistsView.PlaylistsViewState.HandleRemoveSong | app/dashboard/components/Playlists.tsx:74-103 | After a successful manage call, the list is `ReplaceSongs` with the returned songs and cover. Otherwise it is unchanged. |
| PlaylistsView.PlaylistsViewState.HandleDelete | app/dashboard/components/Playlists.tsx:105-126 | Liked Songs: no request and no change. Otherwise the delete request is sent, and on success the playlist is filtered out. |
| AudioPlayer.PausedBy | app/contexts/AudioPlayerContext.tsx:19-21 | An element is paused exactly when there is a current element and it is a different one. With no current element, or on re-registering the current one, nothing is paused. |
| AudioPlayer.AudioPlayerState.constructor | app/contexts/AudioPlayerContext.tsx:15 | Nothing is current or playing. |
| AudioPlayer.AudioPlayerState.RegisterPlay | app/contexts/AudioPlayerContext.tsx:17-24 | Afterwards the element is current and the only one playing. The previous, different element is appended to the pause log. |
| AudioPlayer.AudioPlayerState.StopByUser | app/contexts/AudioPlayerContext.tsx:17-24 | A user stop removes the element from the playing set. The at-most-one-playing invariant is kept. |
| Lights.AnimationOrder | app/components/Lights.tsx:36-42 | The animation order of light ids is 2, 4, 1, 5, 3. |
| Lights.FindLight | app/components/Lights.tsx:20-22 | `findIndex` gives the first light with the id, or -1 when there is none. |
| Lights.LightUp | app/components/Lights.tsx:18-27 | A step sets `visible` on the light with the head's id. Every other light, and every id and colour, is unchanged. |
| Lights.RunAllLights | app/components/Lights.tsx:15-33 | Running the queue never makes a visible light invisible. It lights every light whose id is queued. |
| Lights.AllFiveLit | app/components/Lights.tsx:5-46 | After the ordered queue runs, all five lights are visible. |
| Lights.LightsState.constructor | app/components/Lights.tsx:12-46 | After mounting, the lights are the initial ones and the queue is the ordered one. |
| Lights.LightsState.Tick | app/components/Lights.tsx:16-28 | One tick lights the head's light and drops exactly the head. |
| Lights.LightsState.Run | app/components/Lights.tsx:15-33 | Ticking stops exactly when the queue is empty. The lights end as `RunAll` of the start state. |
| Header.Greeting | app/components/Header.tsx:19-25 | 'Good morning' exactly for hours 5 to 11, 'Good afternoon' exactly for 12 to 17, 'Good evening' otherwise. Each hour gets exactly one greeting. |
| Header.GreetingChangesAt | app/components/Header.tsx:19-25 | Over a day, the greeting changes exactly at 5, 12 and 18 o'clock. |
| SeedBatch.UploadAll | app/api/songs/route.tsx:190-207 | An empty request list gives 400 and nothing is sent. Otherwise the first `min(25, n)` requests are sent, the reported count is `n`, and the status is 200 (500 if the write throws). |
| SeedBatch.ScanReply | app/api/songs/route.tsx:213-226 | `data.Items \|\| []`, or 500 when the scan throws. |
| SeedBatch.OverLimitUndercounts | app/api/songs/route.tsx:196-202 | With more than 25 seeds, the message reports more songs than were sent. |
| SongsRoute.ToItem | app/api/songs/route.tsx:172-187 | The put item has `id` = `String(id_cancion)` and `id_cancion_original` = `id_cancion`. All other fields are copied. |
| SongsRoute.PutItems | app/api/songs/route.tsx:171-188 | One item per seed, in seed order. |
| SongsRoute.Post | app/api/songs/route.tsx:170-208 | 400 exactly for no seeds. The sent batch is the first `min(25, n)` seeds' items, and the message counts all `n`. |
| SongsRoute.Get | app/api/songs/route.tsx:213-226 | The scanned items, `[]` when absent, or 500. |
| SongsRoute.ItemIdRoundTrip | app/api/songs/route.tsx:174-185 | The numeric id can be read back from the string key. |
| SongsRoute.DistinctKeys | app/api/songs/route.tsx:174 | Seeds with distinct numeric ids get distinct keys. |
| AlbumsRoute.ToItem | app/api/albums/route.tsx:32-41 | `id` = `String(id_album)` and `id_album_original` = `id_album`. Name, artist, year, genre, cover and track list are copied. |
| AlbumsRoute.PutItems | app/api/albums/route.tsx:30-43 | One item per seed, in seed order. |
| AlbumsRoute.Post | app/api/albums/route.tsx:29-63 | 400 exactly for no seeds. At most the first 25 items are sent, and the message counts all. |
| AlbumsRoute.Get | app/api/albums/route.tsx:65-78 | The scanned items, `[]` when absent, or 500. |
| AlbumsRoute.ItemIdRoundTrip | app/api/albums/route.tsx:33-40 | The numeric id can be read back from the string key. |
| AlbumsRoute.DistinctKeys | app/api/albums/route.tsx:33 | Seeds with distinct numeric ids get distinct keys. |

## Left out

- The store's failure paths in the table handlers are not modelled. These are the `catch`
  blocks that answer 500, including a body that is not JSON. The seed routes keep theirs, as
  flags.
- Message texts of responses and alerts are not modelled, nor `console` output. Only statuses
  and payloads are.
- Races are not modelled. The liked-songs and remove handlers read and then write without a
  conditional write, and each handler is modelled as one atomic step.
- Between `BeginToggle` and `RevertToggle`, another update can change the client's liked set.
  The revert is stated on whatever set is current.
- `localeCompare` collation is modelled as lexicographic order on code points.
- `toLowerCase` is modelled on ASCII letters only; other characters are unchanged.
- Store.QueryKeys: returns every key of the user, as if the query were unbounded. The source
  sends one `QueryCommand` and never follows `LastEvaluatedKey`, so past DynamoDB's 1 MB page it
  returns only the first page.
- PlaylistStore.PlaylistTable.ListPlaylists, FavoriteAlbumsRoute.FavoriteAlbumTable.Get: list all
  of the caller's items. The source lists only the first page of the query, for the same reason.
- SongsRoute.Get, AlbumsRoute.Get, SeedBatch.ScanReply: take the scan's items as a parameter.
  The source sends one `ScanCommand` without `ExclusiveStartKey`, so it sees only the first page.
  Which items that page holds is not modelled.
- Query order is not modelled: DynamoDB returns items in sort-key order. The listings are
  stated as multisets, and the playlist listing is also stated as sorted.
- PlaylistsListRoute.SortPlaylists: this is an insertion sort under the handler's comparator.
  The contract claims sortedness and permutation, not the exact order `Array.prototype.sort`
  gives to playlists that compare equal.
- PlaylistStore.PlaylistTable.CreatePlaylist: requires that the fresh id is not
  `__LIKED_SONGS__`. A version 4 uuid never takes that form. A colliding id would overwrite
  through `PutCommand`.
- FavoriteAlbumsContext.FavoriteAlbumsState.ToggleFavoriteAlbum: models only the part up to
  the request. The refetch the source runs afterwards, whatever the outcome, is a separate call
  to `FetchUserFavoriteAlbums`. The POST's status is ignored by the source.
- Playlists.tsx `fetchUserPlaylists` and Songs.tsx `fetchAllInitialSongs` are not modelled.
  Both are a fetch plus a state set, and the loading and error flags only drive rendering.
- Years are natural numbers. A negative year's text, with its minus sign, is not modelled.
- The seed lists (`songsToUpload`, `albumsToUpload`) are parameters of `Post`. Their contents
  are not restated.
- Timers are not modelled: `setTimeout` and clearing it are replaced by explicit `Tick` calls.
  The mount sequence is taken as the second effect replacing the queue before the first tick.
- In Lights, the in-place mutation of light objects shared between the two arrays is not
  captured. The model updates a copy, which gives the same visibility.
- The audio elements' real `pause()` is modelled as a log of paused elements. Playback is
  modelled as a ghost set of playing elements.
- JSX rendering, styles, animations, fonts, page and layout shells, and the older
  `app/dashboards` views are outside the model. So are `ManagedAudioPlayer`, the DynamoDB
  client setup, and the authentication provider beyond an optional user id.
