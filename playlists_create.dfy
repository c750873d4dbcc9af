/** `POST /api/playlists/create`: validation and the item written by `PutCommand`.
    The fresh `uuidv4()` and `new Date().toISOString()` are parameters. */
module PlaylistsCreateRoute {
  import opened Wrappers
  import opened Http
  import opened SongLists
  import opened PlaylistItems

  /** The JSON body `{ nombre_playlist, canciones }`, each field possibly absent. */
  datatype CreatePayload = CreatePayload(name: Option<string>, songs: Option<seq<Song>>)

  /** `canciones[0]?.foto || '/img/default_playlist_cover.png'`. */
  function CoverOf(songs: seq<Song>): (r: string)
    ensures songs != [] && songs[0].foto != "" ==> r == songs[0].foto
    ensures songs == [] || songs[0].foto == "" ==> r == DEFAULT_PLAYLIST_COVER
  {
    if songs != [] && songs[0].foto != "" then songs[0].foto else DEFAULT_PLAYLIST_COVER
  }

  /** The payload passes the handler's 400 guard. */
  predicate Acceptable(payload: CreatePayload)
  {
    Truthy(payload.name) && payload.songs.Some? && payload.songs.value != []
  }

  function Create(userId: Option<string>, payload: CreatePayload, newId: string, now: string): (r: Response<PlaylistItem>)
    ensures userId.None? <==> r == Error(UNAUTHORIZED)
    ensures userId.Some? && !Acceptable(payload) <==> r == Error(BAD_REQUEST)
    ensures r.Reply? <==> userId.Some? && Acceptable(payload)
    ensures r.Reply? ==>
      && r.status == CREATED
      && KeyOf(r.value) == (userId.value, newId)
      && r.value.name == payload.name
      && r.value.songs == payload.songs
      && r.value.isLikedSongs == Some(false)
      && r.value.cover == Some(CoverOf(payload.songs.value))
      && r.value.createdAt == Some(now)
  {
    if userId.None? then Error(UNAUTHORIZED)
    else if !Acceptable(payload) then Error(BAD_REQUEST)
    else
      var songs := payload.songs.value;
      Reply(CREATED, PlaylistItem(userId.value, newId, payload.name, Some(songs), Some(false),
                                  Some(CoverOf(songs)), Some(now)))
  }
}
