/** Items of the Playlists table, keyed by (`usuario_id`, `playlist_id`). */
module PlaylistItems {
  import opened Wrappers
  import opened SongLists
  import Store

  /** The reserved `playlist_id` of each user's Liked Songs playlist. */
  const LIKED_SONGS_PLAYLIST_ID: string := "__LIKED_SONGS__"
  const DEFAULT_PLAYLIST_COVER: string := "/img/default_playlist_cover.png"

  /** A stored playlist; every attribute but the key may be absent from the item. */
  datatype PlaylistItem = PlaylistItem(
    userId: string,              // usuario_id
    playlistId: string,          // playlist_id
    name: Option<string>,        // nombre_playlist
    songs: Option<seq<Song>>,    // canciones
    isLikedSongs: Option<bool>,  // es_liked_songs
    cover: Option<string>,       // foto_portada
    createdAt: Option<string>)   // fecha_creacion

  function KeyOf(item: PlaylistItem): Store.Key
  {
    (item.userId, item.playlistId)
  }
}
