/** The Playlists table together with the handlers that read and write it:
    `/api/playlists/liked-songs/manage` (`POST`, `GET`), `/api/playlists/manage` (`POST`),
    `/api/playlists` (`GET`) and `/api/playlists/create` (`POST`). */
module PlaylistStore {
  import opened Wrappers
  import opened Http
  import opened Seqs
  import opened SongLists
  import opened PlaylistItems
  import Store
  import opened LikedSongsManageRoute
  import opened PlaylistsManageRoute
  import opened PlaylistsListRoute
  import opened PlaylistsCreateRoute

  /** What a stored Liked Songs item looks like once the like handler has written it. */
  ghost predicate LikedShape(p: PlaylistItem)
  {
    && p.isLikedSongs == Some(true)
    && p.name.Some? && p.cover.Some? && p.songs.Some?
    && UniqueIds(p.songs.value)
  }

  /** The like toggle turns a missing or well-formed Liked Songs item into a well-formed one. */
  lemma ToggleKeepsLikedShape(stored: Option<PlaylistItem>, userId: string, song: Song)
    requires stored.None? || LikedShape(stored.value)
    ensures LikedShape(LikedUpdate(stored, userId, ToggleLiked(CurrentSongs(stored), song).0))
  {
    ToggleLikedKeepsUnique(CurrentSongs(stored), song);
  }

  /** The reply of a successful `/api/playlists/manage` call. */
  datatype ManageReply = SongRemoved(playlistId: string, songId: string, updated: PlaylistItem)
                       | PlaylistDeleted(playlistId: string)

  /** The items of one user, as a set. */
  ghost function ItemsOf(items: map<Store.Key, PlaylistItem>, uid: string): set<PlaylistItem>
  {
    set k | k in items && k.0 == uid :: items[k]
  }

  class PlaylistTable {
    var items: map<Store.Key, PlaylistItem>

    /** Every item sits under its own key; the Liked Songs item of a user is well-formed and
        flagged as such; every other playlist is flagged as ordinary. */
    ghost predicate Valid()
      reads this
    {
      && (forall k :: k in items ==> KeyOf(items[k]) == k)
      && (forall k :: k in items && k.1 == LIKED_SONGS_PLAYLIST_ID ==> LikedShape(items[k]))
      && (forall k :: k in items && k.1 != LIKED_SONGS_PLAYLIST_ID ==> items[k].isLikedSongs == Some(false))
    }

    constructor ()
      ensures Valid() && items == map[]
    {
      items := map[];
    }

    /** `POST /api/playlists/liked-songs/manage`. */
    method ToggleLikedSong(userId: Option<string>, song: Song) returns (r: Response<ToggleReply>)
      requires Valid()
      modifies this
      ensures Valid()
      ensures userId.None? ==> r == Error(UNAUTHORIZED) && items == old(items)
      ensures userId.Some? ==>
        var key := (userId.value, LIKED_SONGS_PLAYLIST_ID);
        var stored := Store.Lookup(old(items), key);
        var t := ToggleLiked(CurrentSongs(stored), song);
        && r == Reply(OK, ToggleReply(t.1, song.id))
        && items == old(items)[key := LikedUpdate(stored, userId.value, t.0)]
    {
      if userId.None? {
        return Error(UNAUTHORIZED);
      }
      var key := (userId.value, LIKED_SONGS_PLAYLIST_ID);
      var stored := Store.Lookup(items, key);
      var t := ToggleLiked(CurrentSongs(stored), song);
      ToggleKeepsLikedShape(stored, userId.value, song);
      items := items[key := LikedUpdate(stored, userId.value, t.0)];
      r := Reply(OK, ToggleReply(t.1, song.id));
    }

    /** `GET /api/playlists/liked-songs/manage`: the liked ids, in stored order. */
    method LikedSongIds(userId: Option<string>) returns (r: Response<seq<string>>)
      requires Valid()
      ensures userId.None? ==> r == Error(UNAUTHORIZED)
      ensures userId.Some? ==>
        var key := (userId.value, LIKED_SONGS_PLAYLIST_ID);
        && r.Reply? && r.status == OK
        && (key !in items ==> r.value == [])
        && (key in items ==> r.value == Ids(items[key].songs.value))
    {
      if userId.None? {
        return Error(UNAUTHORIZED);
      }
      var key := (userId.value, LIKED_SONGS_PLAYLIST_ID);
      r := Reply(OK, LikedIds(Store.Lookup(items, key)));
    }

    /** `POST /api/playlists/manage`. */
    method Manage(userId: Option<string>, req: ManageRequest) returns (r: Response<ManageReply>)
      requires Valid()
      modifies this
      ensures Valid()
      ensures Plan(userId, req).Refuse? ==> r == Error(Plan(userId, req).status) && items == old(items)
      ensures Plan(userId, req).RemoveSong? ==>
        var plan := Plan(userId, req);
        var key := (userId.value, plan.playlistId);
        if key !in old(items) || old(items)[key].songs.None? then
          r == Error(NOT_FOUND) && items == old(items)
        else
          var updated := RemoveSongFromItem(old(items)[key], old(items)[key].songs.value, plan.songId);
          && r == Reply(OK, SongRemoved(plan.playlistId, plan.songId, updated))
          && items == old(items)[key := updated]
      ensures Plan(userId, req).DeletePlaylist? ==>
        var plan := Plan(userId, req);
        && r == Reply(OK, PlaylistDeleted(plan.playlistId))
        && items == old(items) - {(userId.value, plan.playlistId)}
      // no Liked Songs item is ever changed or deleted here
      ensures forall k: Store.Key :: k.1 == LIKED_SONGS_PLAYLIST_ID ==>
        (k in items <==> k in old(items)) && (k in items ==> items[k] == old(items)[k])
    {
      var plan := Plan(userId, req);
      match plan
      case Refuse(status) =>
        r := Error(status);
      case RemoveSong(playlistId, songId) =>
        var key := (userId.value, playlistId);
        var stored := Store.Lookup(items, key);
        if stored.None? || stored.value.songs.None? {
          return Error(NOT_FOUND);
        }
        var updated := RemoveSongFromItem(stored.value, stored.value.songs.value, songId);
        items := items[key := updated];
        r := Reply(OK, SongRemoved(playlistId, songId, updated));
      case DeletePlaylist(playlistId) =>
        items := items - {(userId.value, playlistId)};
        r := Reply(OK, PlaylistDeleted(playlistId));
    }

    /** `GET /api/playlists`: each of the user's playlists exactly once, Liked Songs first and
        the rest by name. */
    method ListPlaylists(userId: Option<string>) returns (r: Response<seq<PlaylistItem>>)
      requires Valid()
      ensures userId.None? ==> r == Error(UNAUTHORIZED)
      ensures userId.Some? ==>
        && r.Reply? && r.status == OK
        && Sorted(r.value)
        && multiset(r.value) == multiset(ItemsOf(items, userId.value))
    {
      if userId.None? {
        return Error(UNAUTHORIZED);
      }
      var uid := userId.value;
      var keys := Store.QueryKeys(items, uid);
      var found: seq<PlaylistItem> := [];
      var i := 0;
      while i < |keys|
        invariant 0 <= i <= |keys|
        invariant |found| == i
        invariant forall j :: 0 <= j < i ==> found[j] == items[keys[j]]
      {
        found := found + [items[keys[i]]];
        i := i + 1;
      }
      assert Distinct(found) by {
        forall a, b | 0 <= a < b < |found| ensures found[a] != found[b] {
          assert KeyOf(found[a]) == keys[a] && KeyOf(found[b]) == keys[b];
        }
      }
      DistinctMultiset(found);
      assert (set x | x in found) == ItemsOf(items, uid) by {
        forall x | x in ItemsOf(items, uid) ensures x in found {
          var k :| k in items && k.0 == uid && items[k] == x;
          var j :| 0 <= j < |keys| && keys[j] == k;
          assert found[j] == x;
        }
      }
      r := Reply(OK, ListResult(Some(found)));
    }

    /** `POST /api/playlists/create`, with the fresh playlist id and the creation time given.
        A version 4 uuid never equals the reserved Liked Songs id. */
    method CreatePlaylist(userId: Option<string>, payload: CreatePayload, newId: string, now: string)
      returns (r: Response<PlaylistItem>)
      requires Valid()
      requires newId != LIKED_SONGS_PLAYLIST_ID
      modifies this
      ensures Valid()
      ensures r == Create(userId, payload, newId, now)
      ensures r.Error? ==> items == old(items)
      ensures r.Reply? ==> items == old(items)[(userId.value, newId) := r.value]
    {
      r := Create(userId, payload, newId, now);
      if r.Reply? {
        items := items[(userId.value, newId) := r.value];
      }
    }
  }
}
