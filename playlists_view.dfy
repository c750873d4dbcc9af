/** The dashboard `Playlists` component: the flip map of the playlist cards and the local
    playlist list after a song removal or a playlist deletion. */
module PlaylistsView {
  import opened Wrappers
  import opened Http
  import opened Seqs
  import opened SongLists
  import opened PlaylistItems
  import opened PlaylistsManageRoute

  /** `PlaylistSongDisplay`: artist and album may be absent. */
  datatype DisplaySong = DisplaySong(id: string, nombre: string, artista: Option<string>, album: Option<string>, foto: string, pista: string)

  /** `PlaylistDisplay`. */
  datatype PlaylistDisplay = PlaylistDisplay(playlistId: string, userId: string, name: string, songs: seq<DisplaySong>,
                                             isLikedSongs: Option<bool>, cover: Option<string>)

  /** `flippedPlaylists[id]`, an absent entry reading as not flipped. */
  function IsFlipped(flipped: map<string, bool>, id: string): bool
  {
    id in flipped && flipped[id]
  }

  /** `handleLikeClickInPlaylist`: the liked-songs payload, absent artist and album as `''`. */
  function LikeDataFromDisplay(s: DisplaySong): (r: Song)
    ensures r.id == s.id && r.nombre == s.nombre && r.foto == s.foto && r.pista == s.pista
    ensures r.artista == (if s.artista.Some? then s.artista.value else "")
    ensures r.album == (if s.album.Some? then s.album.value else "")
  {
    Song(s.id, s.nombre, s.artista.GetOr(""), s.album.GetOr(""), s.foto, s.pista)
  }

  /** The `setPlaylists` update after a successful removal: the playlist with the id gets the
      returned songs and cover; every other playlist, and the order, stay. */
  function ReplaceSongs(ps: seq<PlaylistDisplay>, playlistId: string, songs: seq<DisplaySong>, cover: Option<string>)
    : (r: seq<PlaylistDisplay>)
    ensures |r| == |ps|
    ensures forall i :: 0 <= i < |ps| && ps[i].playlistId != playlistId ==> r[i] == ps[i]
    ensures forall i :: 0 <= i < |ps| && ps[i].playlistId == playlistId ==>
      && r[i].songs == songs && r[i].cover == cover
      && r[i].playlistId == ps[i].playlistId && r[i].userId == ps[i].userId
      && r[i].name == ps[i].name && r[i].isLikedSongs == ps[i].isLikedSongs
  {
    seq(|ps|, i requires 0 <= i < |ps| =>
      if ps[i].playlistId == playlistId then ps[i].(songs := songs, cover := cover) else ps[i])
  }

  function OtherPlaylist(playlistId: string): PlaylistDisplay -> bool
  {
    (p: PlaylistDisplay) => p.playlistId != playlistId
  }

  /** The `setPlaylists` update after a successful deletion. */
  function WithoutPlaylist(ps: seq<PlaylistDisplay>, playlistId: string): (r: seq<PlaylistDisplay>)
    ensures IsSubsequence(r, ps)
    ensures forall p :: p in r <==> p in ps && p.playlistId != playlistId
    ensures forall p :: multiset(r)[p] == if p.playlistId != playlistId then multiset(ps)[p] else 0
  {
    FilterIsSubsequence(ps, OtherPlaylist(playlistId));
    FilterMembers(ps, OtherPlaylist(playlistId));
    FilterCounts(ps, OtherPlaylist(playlistId));
    Filter(ps, OtherPlaylist(playlistId))
  }

  /** What `handleRemoveSongFromPlaylist` sends: the like toggle for Liked Songs, otherwise a
      manage request. */
  datatype RemoveRoute = ToLikeToggle(song: Song) | ToManage(request: ManageRequest)

  function RouteRemoval(playlistId: string, song: DisplaySong): (r: RemoveRoute)
    ensures r.ToLikeToggle? <==> playlistId == LIKED_SONGS_PLAYLIST_ID
    ensures r.ToLikeToggle? ==> r.song == LikeDataFromDisplay(song)
    ensures r.ToManage? ==> r.request == ManageRequest(Some(REMOVE_SONG_ACTION), Some(playlistId), Some(song.id))
  {
    if playlistId == LIKED_SONGS_PLAYLIST_ID then ToLikeToggle(LikeDataFromDisplay(song))
    else ToManage(ManageRequest(Some(REMOVE_SONG_ACTION), Some(playlistId), Some(song.id)))
  }

  /** A signed-in removal the client sends to the manage API is planned as that removal, never
      refused with 403. */
  lemma RemovalRequestIsPlanned(userId: string, playlistId: string, song: DisplaySong)
    requires playlistId != "" && song.id != ""
    requires RouteRemoval(playlistId, song).ToManage?
    ensures Plan(Some(userId), RouteRemoval(playlistId, song).request) == RemoveSong(playlistId, song.id)
  {
  }

  /** A signed-in deletion the client sends is planned as that deletion. */
  lemma DeleteRequestIsPlanned(userId: string, playlistId: string)
    requires playlistId != "" && playlistId != LIKED_SONGS_PLAYLIST_ID
    ensures Plan(Some(userId), ManageRequest(Some(DELETE_PLAYLIST_ACTION), Some(playlistId), None)) == DeletePlaylist(playlistId)
  {
  }

  class PlaylistsViewState {
    var playlists: seq<PlaylistDisplay>
    var flipped: map<string, bool>

    constructor ()
      ensures playlists == [] && flipped == map[]
    {
      playlists := [];
      flipped := map[];
    }

    /** `handleFlip`: negate the entry of one playlist. */
    method HandleFlip(playlistId: string)
      modifies this
      ensures flipped == old(flipped)[playlistId := !IsFlipped(old(flipped), playlistId)]
      ensures IsFlipped(flipped, playlistId) == !IsFlipped(old(flipped), playlistId)
      ensures forall id :: id != playlistId ==> IsFlipped(flipped, id) == IsFlipped(old(flipped), id)
      ensures playlists == old(playlists)
    {
      flipped := flipped[playlistId := !IsFlipped(flipped, playlistId)];
    }

    /** `handleRemoveSongFromPlaylist`, given the manage API's outcome: the updated playlist's
        songs and cover. The like toggle it may route to is returned for the caller to run. */
    method HandleRemoveSong(playlistId: string, song: DisplaySong, outcome: Fetched<(seq<DisplaySong>, Option<string>)>)
      returns (route: RemoveRoute)
      modifies this
      ensures route == RouteRemoval(playlistId, song)
      ensures route.ToManage? && outcome.Delivered? ==>
        playlists == ReplaceSongs(old(playlists), playlistId, outcome.body.0, outcome.body.1)
      ensures route.ToLikeToggle? || !outcome.Delivered? ==> playlists == old(playlists)
      ensures flipped == old(flipped)
    {
      route := RouteRemoval(playlistId, song);
      if route.ToManage? && outcome.Delivered? {
        playlists := ReplaceSongs(playlists, playlistId, outcome.body.0, outcome.body.1);
      }
    }

    /** `handleDeletePlaylist`, given whether the manage API answered ok; returns the request
        sent, none for Liked Songs. */
    method HandleDelete(playlistId: string, requestOk: bool) returns (request: Option<ManageRequest>)
      modifies this
      ensures playlistId == LIKED_SONGS_PLAYLIST_ID ==> request == None && playlists == old(playlists)
      ensures playlistId != LIKED_SONGS_PLAYLIST_ID ==>
        && request == Some(ManageRequest(Some(DELETE_PLAYLIST_ACTION), Some(playlistId), None))
        && playlists == (if requestOk then WithoutPlaylist(old(playlists), playlistId) else old(playlists))
      ensures flipped == old(flipped)
    {
      if playlistId == LIKED_SONGS_PLAYLIST_ID {
        return None;
      }
      request := Some(ManageRequest(Some(DELETE_PLAYLIST_ACTION), Some(playlistId), None));
      if requestOk {
        playlists := WithoutPlaylist(playlists, playlistId);
      }
    }
  }
}
