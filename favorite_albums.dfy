/** `/api/me/favorite-albums`: the UserFavoriteAlbums table, keyed by (`usuario_id`, `album_id`),
    with the `GET` listing and the `POST` add/remove. The timestamp `new Date().toISOString()`
    is a parameter. */
module FavoriteAlbumsRoute {
  import opened Wrappers
  import opened Http
  import opened Seqs
  import Store

  const ADD_ACTION: string := "add"
  const REMOVE_ACTION: string := "remove"

  /** `FavoriteAlbumPayload` as posted; the id may be missing or empty. */
  datatype AlbumPayload = AlbumPayload(id: Option<string>, name: string, artist: string, cover: string, year: int)

  /** A stored item. */
  datatype FavoriteAlbumItem = FavoriteAlbumItem(
    userId: string,    // usuario_id
    albumId: string,   // album_id
    name: string,      // nombre_album
    artist: string,    // artista
    cover: string,     // foto_portada
    year: int,         // año_publicación
    addedAt: string)   // fecha_agregado

  /** An album as the `GET` returns it, `album_id` renamed to `id`. */
  datatype FavoriteAlbum = FavoriteAlbum(id: string, name: string, artist: string, cover: string, year: int, addedAt: string)

  function KeyOf(item: FavoriteAlbumItem): Store.Key
  {
    (item.userId, item.albumId)
  }

  /** The mapping applied to each queried item. */
  function ToView(item: FavoriteAlbumItem): FavoriteAlbum
  {
    FavoriteAlbum(item.albumId, item.name, item.artist, item.cover, item.year, item.addedAt)
  }

  /** `Items?.map(...) || []`. */
  function Views(items: Option<seq<FavoriteAlbumItem>>): (r: seq<FavoriteAlbum>)
    ensures items.None? ==> r == []
    ensures items.Some? ==> |r| == |items.value|
    ensures items.Some? ==> forall i :: 0 <= i < |r| ==>
      var it := items.value[i];
      r[i] == FavoriteAlbum(it.albumId, it.name, it.artist, it.cover, it.year, it.addedAt)
  {
    if items.None? then [] else seq(|items.value|, i requires 0 <= i < |items.value| => ToView(items.value[i]))
  }

  datatype FavoriteAction = AlbumAdded | AlbumRemoved

  /** The JSON reply `{ albumId, action }`. */
  datatype FavoriteReply = FavoriteReply(albumId: string, action: FavoriteAction)

  /** What the `POST` handler does to the table. */
  datatype FavoritePlan = Reject(status: nat) | Put(item: FavoriteAlbumItem) | Delete(key: Store.Key)

  function PlanPost(userId: Option<string>, albumData: Option<AlbumPayload>, action: Option<string>, now: string): (r: FavoritePlan)
    ensures r == Reject(UNAUTHORIZED) <==> userId.None?
    // 400: a missing album or album id, or an action that is neither `add` nor `remove`
    ensures r == Reject(BAD_REQUEST) <==>
      && userId.Some?
      && (albumData.None? || !Truthy(albumData.value.id) || (action != Some(ADD_ACTION) && action != Some(REMOVE_ACTION)))
    ensures r.Put? <==> userId.Some? && albumData.Some? && Truthy(albumData.value.id) && action == Some(ADD_ACTION)
    ensures r.Put? ==>
      var a := albumData.value;
      && KeyOf(r.item) == (userId.value, a.id.value)
      && r.item.name == a.name && r.item.artist == a.artist && r.item.cover == a.cover
      && r.item.year == a.year && r.item.addedAt == now
    ensures r.Delete? <==> userId.Some? && albumData.Some? && Truthy(albumData.value.id) && action == Some(REMOVE_ACTION)
    ensures r.Delete? ==> r.key == (userId.value, albumData.value.id.value)
    ensures r.Reject? ==> r.status == UNAUTHORIZED || r.status == BAD_REQUEST
  {
    if userId.None? then Reject(UNAUTHORIZED)
    else if albumData.None? || !Truthy(albumData.value.id) || !Truthy(action) then Reject(BAD_REQUEST)
    else
      var a := albumData.value;
      if action.value == ADD_ACTION then
        Put(FavoriteAlbumItem(userId.value, a.id.value, a.name, a.artist, a.cover, a.year, now))
      else if action.value == REMOVE_ACTION then Delete((userId.value, a.id.value))
      else Reject(BAD_REQUEST)
  }

  /** Every item sits under its own key. */
  ghost predicate Keyed(items: map<Store.Key, FavoriteAlbumItem>)
  {
    forall k :: k in items ==> KeyOf(items[k]) == k
  }

  /** The albums of one user, as the `GET` shows them. */
  ghost function AlbumsOf(items: map<Store.Key, FavoriteAlbumItem>, uid: string): set<FavoriteAlbum>
  {
    set k | k in items && k.0 == uid :: ToView(items[k])
  }

  class FavoriteAlbumTable {
    var items: map<Store.Key, FavoriteAlbumItem>

    ghost predicate Valid()
      reads this
    {
      Keyed(items)
    }

    constructor ()
      ensures Valid() && items == map[]
    {
      items := map[];
    }

    /** `GET`: every favourite of the user exactly once, with `album_id` shown as `id`. */
    method Get(userId: Option<string>) returns (r: Response<seq<FavoriteAlbum>>)
      requires Valid()
      ensures userId.None? ==> r == Error(UNAUTHORIZED)
      ensures userId.Some? ==>
        && r.Reply? && r.status == OK
        && multiset(r.value) == multiset(AlbumsOf(items, userId.value))
    {
      if userId.None? {
        return Error(UNAUTHORIZED);
      }
      var uid := userId.value;
      var keys := Store.QueryKeys(items, uid);
      var found: seq<FavoriteAlbumItem> := [];
      var i := 0;
      while i < |keys|
        invariant 0 <= i <= |keys|
        invariant |found| == i
        invariant forall j :: 0 <= j < i ==> found[j] == items[keys[j]]
      {
        found := found + [items[keys[i]]];
        i := i + 1;
      }
      var views := Views(Some(found));
      assert Distinct(views) by {
        forall a, b | 0 <= a < b < |views| ensures views[a] != views[b] {
          assert views[a].id == keys[a].1 && views[b].id == keys[b].1;
        }
      }
      DistinctMultiset(views);
      assert (set x | x in views) == AlbumsOf(items, uid) by {
        forall x | x in AlbumsOf(items, uid) ensures x in views {
          var k :| k in items && k.0 == uid && ToView(items[k]) == x;
          var j :| 0 <= j < |keys| && keys[j] == k;
          assert views[j] == x;
        }
      }
      r := Reply(OK, views);
    }

    /** `POST`: add or remove one favourite of the caller. */
    method Post(userId: Option<string>, albumData: Option<AlbumPayload>, action: Option<string>, now: string)
      returns (r: Response<FavoriteReply>)
      requires Valid()
      modifies this
      ensures Valid()
      ensures PlanPost(userId, albumData, action, now).Reject? ==>
        r == Error(PlanPost(userId, albumData, action, now).status) && items == old(items)
      ensures PlanPost(userId, albumData, action, now).Put? ==>
        var item := PlanPost(userId, albumData, action, now).item;
        && r == Reply(OK, FavoriteReply(item.albumId, AlbumAdded))
        && items == old(items)[KeyOf(item) := item]
      ensures PlanPost(userId, albumData, action, now).Delete? ==>
        var key := PlanPost(userId, albumData, action, now).key;
        && r == Reply(OK, FavoriteReply(key.1, AlbumRemoved))
        && items == old(items) - {key}
    {
      var plan := PlanPost(userId, albumData, action, now);
      match plan
      case Reject(status) =>
        r := Error(status);
      case Put(item) =>
        items := items[KeyOf(item) := item];
        r := Reply(OK, FavoriteReply(item.albumId, AlbumAdded));
      case Delete(key) =>
        items := items - {key};
        r := Reply(OK, FavoriteReply(key.1, AlbumRemoved));
    }
  }

  /** After an add the album is listed for the caller; after a remove no album with that id is. */
  lemma {:induction false} PostThenList(items: map<Store.Key, FavoriteAlbumItem>, userId: string,
                                        a: AlbumPayload, action: string, now: string)
    requires Keyed(items)
    requires Truthy(a.id) && (action == ADD_ACTION || action == REMOVE_ACTION)
    ensures var plan := PlanPost(Some(userId), Some(a), Some(action), now);
      var after := if plan.Put? then items[KeyOf(plan.item) := plan.item] else items - {(userId, a.id.value)};
      && (action == ADD_ACTION ==>
            FavoriteAlbum(a.id.value, a.name, a.artist, a.cover, a.year, now) in AlbumsOf(after, userId))
      && (action == REMOVE_ACTION ==> forall x :: x in AlbumsOf(after, userId) ==> x.id != a.id.value)
  {
    var plan := PlanPost(Some(userId), Some(a), Some(action), now);
    if action == ADD_ACTION {
      var after := items[KeyOf(plan.item) := plan.item];
      var k := (userId, a.id.value);
      assert k in after && after[k] == plan.item;
      assert ToView(after[k]) in AlbumsOf(after, userId);
    } else {
      var after := items - {(userId, a.id.value)};
      forall x | x in AlbumsOf(after, userId) ensures x.id != a.id.value {
        var k :| k in after && k.0 == userId && ToView(after[k]) == x;
        assert KeyOf(items[k]) == k;
      }
    }
  }
}
