/** `/api/playlists/liked-songs/manage`: the pure part of the like toggle (`POST`) and of the
    liked-id listing (`GET`). The read-then-write against the table is
    `PlaylistStore.PlaylistTable.ToggleLikedSong`. */
module LikedSongsManageRoute {
  import opened Wrappers
  import opened Seqs
  import opened SongLists
  import opened PlaylistItems

  const DEFAULT_LIKED_SONGS_NAME: string := "Liked Songs"
  const DEFAULT_LIKED_SONGS_IMAGE: string := "/img/LikedSongs.png"

  datatype LikeAction = Added | Removed

  /** The JSON reply `{ action, songId }`. */
  datatype ToggleReply = ToggleReply(action: LikeAction, songId: string)

  /** `Item?.canciones || []`: the stored list, with a missing item or attribute read as empty. */
  function CurrentSongs(item: Option<PlaylistItem>): seq<Song>
  {
    if item.Some? then item.value.songs.GetOr([]) else []
  }

  /** The new `canciones` and the action taken: drop every song with the posted id when one is
      present, otherwise append the posted song. */
  function ToggleLiked(current: seq<Song>, song: Song): (r: (seq<Song>, LikeAction))
    ensures r.1 == Removed <==> HasId(current, song.id)
    ensures r.1 == Removed ==>
      && !HasId(r.0, song.id)
      && IsSubsequence(r.0, current)
      && (forall s :: s in r.0 <==> s in current && s.id != song.id)
    ensures r.1 == Added ==>
      && |r.0| == |current| + 1
      && r.0[..|current|] == current
      && r.0[|current|] == song
    ensures r.0 == ToggleById(current, song)
  {
    WithoutIdSpec(current, song.id);
    if FindIndex(current, song.id) > -1 then (WithoutId(current, song.id), Removed)
    else (current + [song], Added)
  }

  /** With no stored Liked Songs item the first like creates the list `[song]`. */
  lemma ToggleOnMissingItem(song: Song)
    ensures ToggleLiked(CurrentSongs(None), song) == ([song], Added)
  {
  }

  /** Toggling keeps the list free of duplicate ids. */
  lemma ToggleLikedKeepsUnique(current: seq<Song>, song: Song)
    requires UniqueIds(current)
    ensures UniqueIds(ToggleLiked(current, song).0)
  {
    ToggleKeepsUnique(current, song);
  }

  /** Liking a song that is not in the list and then unliking it restores the list. */
  lemma LikeThenUnlike(current: seq<Song>, song: Song)
    requires !HasId(current, song.id)
    ensures ToggleLiked(current, song).1 == Added
    ensures ToggleLiked(ToggleLiked(current, song).0, song) == (current, Removed)
  {
    ToggleTwiceAbsent(current, song);
    assert ToggleLiked(current, song).0[|current|].id == song.id;
  }

  /** The stored item after `UpdateCommand`: `canciones` is always replaced; the name, the
      Liked Songs flag and the cover are set only where the item lacks them; nothing else changes. */
  function LikedUpdate(stored: Option<PlaylistItem>, userId: string, songs: seq<Song>): (r: PlaylistItem)
    ensures KeyOf(r) == (userId, LIKED_SONGS_PLAYLIST_ID)
    ensures r.songs == Some(songs)
    ensures r.name.Some? && r.isLikedSongs.Some? && r.cover.Some?
    ensures stored.Some? ==>
      && (stored.value.name.Some? ==> r.name == stored.value.name)
      && (stored.value.isLikedSongs.Some? ==> r.isLikedSongs == stored.value.isLikedSongs)
      && (stored.value.cover.Some? ==> r.cover == stored.value.cover)
      && r.createdAt == stored.value.createdAt
    ensures stored.None? || stored.value.name.None? ==> r.name == Some(DEFAULT_LIKED_SONGS_NAME)
    ensures stored.None? || stored.value.isLikedSongs.None? ==> r.isLikedSongs == Some(true)
    ensures stored.None? || stored.value.cover.None? ==> r.cover == Some(DEFAULT_LIKED_SONGS_IMAGE)
    ensures stored.None? ==> r.createdAt == None
  {
    var before := if stored.Some? then stored.value
                  else PlaylistItem(userId, LIKED_SONGS_PLAYLIST_ID, None, None, None, None, None);
    before.(userId := userId,
            playlistId := LIKED_SONGS_PLAYLIST_ID,
            songs := Some(songs),
            name := Some(before.name.GetOr(DEFAULT_LIKED_SONGS_NAME)),
            isLikedSongs := Some(before.isLikedSongs.GetOr(true)),
            cover := Some(before.cover.GetOr(DEFAULT_LIKED_SONGS_IMAGE)))
  }

  /** `GET`: the ids of the stored songs in stored order, or `[]` without an item or a song list. */
  function LikedIds(item: Option<PlaylistItem>): (r: seq<string>)
    ensures item.None? || item.value.songs.None? ==> r == []
    ensures item.Some? && item.value.songs.Some? ==>
      |r| == |item.value.songs.value| && forall i :: 0 <= i < |r| ==> r[i] == item.value.songs.value[i].id
  {
    if item.Some? && item.value.songs.Some? then Ids(item.value.songs.value) else []
  }

  /** A `POST` followed by a `GET`: the posted id is listed afterwards exactly when it was not
      listed before. */
  lemma ToggleThenList(stored: Option<PlaylistItem>, userId: string, song: Song)
    ensures var t := ToggleLiked(CurrentSongs(stored), song);
            song.id in LikedIds(Some(LikedUpdate(stored, userId, t.0))) <==> song.id !in LikedIds(stored)
  {
    var current := CurrentSongs(stored);
    var t := ToggleLiked(current, song);
    var after := LikedIds(Some(LikedUpdate(stored, userId, t.0)));
    assert LikedIds(stored) == Ids(current);
    assert after == Ids(t.0);
    assert song.id in Ids(current) <==> HasId(current, song.id) by {
      if HasId(current, song.id) {
        var i :| 0 <= i < |current| && current[i].id == song.id;
        assert Ids(current)[i] == song.id;
      }
    }
    if t.1 == Added {
      assert Ids(t.0)[|current|] == song.id;
    }
  }
}
