/** `/api/playlists/manage`: request guards, the song-removal update and the delete decision.
    The table side is `PlaylistStore.PlaylistTable.Manage`. */
module PlaylistsManageRoute {
  import opened Wrappers
  import opened Http
  import opened Seqs
  import opened SongLists
  import opened PlaylistItems

  const REMOVE_SONG_ACTION: string := "remove_song_from_playlist"
  const DELETE_PLAYLIST_ACTION: string := "delete_playlist"

  /** The JSON body `{ action, playlistId, songIdToRemove }`, each field possibly absent. */
  datatype ManageRequest = ManageRequest(action: Option<string>, playlistId: Option<string>, songIdToRemove: Option<string>)

  /** What the handler decides before it touches the table. */
  datatype ManagePlan = Refuse(status: nat) | RemoveSong(playlistId: string, songId: string) | DeletePlaylist(playlistId: string)

  function Plan(userId: Option<string>, req: ManageRequest): (r: ManagePlan)
    ensures r == Refuse(UNAUTHORIZED) <==> userId.None?
    // 400: a missing action or playlist id, a removal without a song id, or an unknown action
    ensures r == Refuse(BAD_REQUEST) <==>
      && userId.Some?
      && (|| !Truthy(req.action) || !Truthy(req.playlistId)
          || (req.action == Some(REMOVE_SONG_ACTION) && req.playlistId.value != LIKED_SONGS_PLAYLIST_ID
              && !Truthy(req.songIdToRemove))
          || (req.action.value != REMOVE_SONG_ACTION && req.action.value != DELETE_PLAYLIST_ACTION))
    ensures r == Refuse(FORBIDDEN) <==>
      && userId.Some? && Truthy(req.action) && Truthy(req.playlistId)
      && req.playlistId.value == LIKED_SONGS_PLAYLIST_ID
      && (req.action.value == DELETE_PLAYLIST_ACTION || req.action.value == REMOVE_SONG_ACTION)
    ensures r.RemoveSong? <==>
      && userId.Some? && Truthy(req.playlistId) && req.playlistId.value != LIKED_SONGS_PLAYLIST_ID
      && req.action == Some(REMOVE_SONG_ACTION) && Truthy(req.songIdToRemove)
    ensures r.RemoveSong? ==> r.playlistId == req.playlistId.value && r.songId == req.songIdToRemove.value
    ensures r.DeletePlaylist? <==>
      && userId.Some? && Truthy(req.playlistId) && req.playlistId.value != LIKED_SONGS_PLAYLIST_ID
      && req.action == Some(DELETE_PLAYLIST_ACTION)
    ensures r.DeletePlaylist? ==> r.playlistId == req.playlistId.value
    ensures r.Refuse? ==> r.status == UNAUTHORIZED || r.status == BAD_REQUEST || r.status == FORBIDDEN
  {
    if userId.None? then Refuse(UNAUTHORIZED)
    else if !Truthy(req.action) || !Truthy(req.playlistId) then Refuse(BAD_REQUEST)
    else
      var action, playlistId := req.action.value, req.playlistId.value;
      if playlistId == LIKED_SONGS_PLAYLIST_ID && action == DELETE_PLAYLIST_ACTION then Refuse(FORBIDDEN)
      else if playlistId == LIKED_SONGS_PLAYLIST_ID && action == REMOVE_SONG_ACTION then Refuse(FORBIDDEN)
      else if action == REMOVE_SONG_ACTION then
        if !Truthy(req.songIdToRemove) then Refuse(BAD_REQUEST) else RemoveSong(playlistId, req.songIdToRemove.value)
      else if action == DELETE_PLAYLIST_ACTION then DeletePlaylist(playlistId)
      else Refuse(BAD_REQUEST)
  }

  /** The Liked Songs playlist is never planned for removal of a song or for deletion. */
  lemma LikedSongsProtected(userId: Option<string>, req: ManageRequest)
    requires req.playlistId == Some(LIKED_SONGS_PLAYLIST_ID)
    ensures Plan(userId, req).Refuse?
  {
  }

  /** `updatedSongs.length > 0 ? updatedSongs[0].foto : '/img/default_playlist_cover.png'`. */
  function CoverAfterRemoval(remaining: seq<Song>): string
  {
    if |remaining| > 0 then remaining[0].foto else DEFAULT_PLAYLIST_COVER
  }

  /** The item after `SET canciones = :songs, foto_portada = :fp`: every song with the id is gone,
      the others keep their order, the cover is recomputed, and no other attribute changes. */
  function RemoveSongFromItem(item: PlaylistItem, songs: seq<Song>, songId: string): (r: PlaylistItem)
    ensures KeyOf(r) == KeyOf(item)
    ensures r.name == item.name && r.isLikedSongs == item.isLikedSongs && r.createdAt == item.createdAt
    ensures r.songs.Some? && !HasId(r.songs.value, songId)
    ensures IsSubsequence(r.songs.value, songs)
    ensures forall s :: multiset(r.songs.value)[s] == if s.id != songId then multiset(songs)[s] else 0
    ensures r.cover == Some(if r.songs.value == [] then DEFAULT_PLAYLIST_COVER else r.songs.value[0].foto)
  {
    WithoutIdSpec(songs, songId);
    var remaining := WithoutId(songs, songId);
    item.(songs := Some(remaining), cover := Some(CoverAfterRemoval(remaining)))
  }

  /** Removing an id no song carries keeps the list, yet still resets the cover to the first
      song's photo. */
  lemma RemoveAbsentSong(item: PlaylistItem, songs: seq<Song>, songId: string)
    requires !HasId(songs, songId) && songs != []
    ensures RemoveSongFromItem(item, songs, songId).songs == Some(songs)
    ensures RemoveSongFromItem(item, songs, songId).cover == Some(songs[0].foto)
  {
    WithoutAbsentId(songs, songId);
  }
}
