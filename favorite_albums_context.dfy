/** `FavoriteAlbumsContext`: the client's favourite album ids and album data, loaded from the
    favourite-albums `GET`, with an optimistic flip when an album is toggled. */
module FavoriteAlbumsContext {
  import opened Wrappers
  import opened Http
  import opened FavoriteAlbumsRoute

  /** `new Set(albums.map(a => a.id))`. */
  function AlbumIds(albums: seq<FavoriteAlbum>): (r: set<string>)
    ensures forall x :: x in r <==> exists i :: 0 <= i < |albums| && albums[i].id == x
  {
    set i | 0 <= i < |albums| :: albums[i].id
  }

  /** The action the toggle posts: `remove` exactly for an album that is a favourite. */
  function ChosenAction(ids: set<string>, albumId: string): (r: string)
    ensures r == REMOVE_ACTION <==> albumId in ids
    ensures r == ADD_ACTION <==> albumId !in ids
  {
    if albumId in ids then REMOVE_ACTION else ADD_ACTION
  }

  /** The optimistic update for a chosen action. */
  function Applied(ids: set<string>, albumId: string, action: string): (r: set<string>)
    ensures action == REMOVE_ACTION ==> albumId !in r
    ensures action != REMOVE_ACTION ==> albumId in r
    ensures forall x :: x != albumId ==> (x in r <==> x in ids)
  {
    if action == REMOVE_ACTION then ids - {albumId} else ids + {albumId}
  }

  /** Applying the chosen action flips the album's membership and nothing else. */
  lemma ToggleFlips(ids: set<string>, albumId: string)
    ensures albumId in Applied(ids, albumId, ChosenAction(ids, albumId)) <==> albumId !in ids
    ensures forall x :: x != albumId ==> (x in Applied(ids, albumId, ChosenAction(ids, albumId)) <==> x in ids)
  {
  }

  /** A second toggle, on the state the first produced, restores the ids. */
  lemma ToggleTwiceRestores(ids: set<string>, albumId: string)
    ensures var once := Applied(ids, albumId, ChosenAction(ids, albumId));
      Applied(once, albumId, ChosenAction(once, albumId)) == ids
  {
  }

  class FavoriteAlbumsState {
    var favoriteAlbumIds: set<string>
    var favoriteAlbumsFullData: seq<FavoriteAlbum>
    var isLoadingFavorites: bool

    constructor ()
      ensures favoriteAlbumIds == {} && favoriteAlbumsFullData == [] && isLoadingFavorites
    {
      favoriteAlbumIds := {};
      favoriteAlbumsFullData := [];
      isLoadingFavorites := true;
    }

    /** `fetchUserFavoriteAlbums`, given the outcome of the `GET`. */
    method FetchUserFavoriteAlbums(isSignedIn: bool, response: Fetched<seq<FavoriteAlbum>>)
      modifies this
      ensures isSignedIn && response.Delivered? ==>
        favoriteAlbumsFullData == response.body && favoriteAlbumIds == AlbumIds(response.body)
      ensures !isSignedIn || !response.Delivered? ==>
        favoriteAlbumsFullData == [] && favoriteAlbumIds == {}
      ensures !isLoadingFavorites
    {
      if isSignedIn {
        isLoadingFavorites := true;
        if response.Delivered? {
          favoriteAlbumsFullData := response.body;
          favoriteAlbumIds := AlbumIds(response.body);
        } else {
          favoriteAlbumIds := {};
          favoriteAlbumsFullData := [];
        }
        isLoadingFavorites := false;
      } else {
        favoriteAlbumIds := {};
        favoriteAlbumsFullData := [];
        isLoadingFavorites := false;
      }
    }

    /** The part of `toggleFavoriteAlbum` before the request: nothing when signed out, otherwise
        the choice of action and the optimistic update; returns the action posted. */
    method ToggleFavoriteAlbum(isSignedIn: bool, album: FavoriteAlbum) returns (action: Option<string>)
      modifies this
      ensures !isSignedIn ==> action == None && favoriteAlbumIds == old(favoriteAlbumIds)
      ensures isSignedIn ==>
        && action == Some(ChosenAction(old(favoriteAlbumIds), album.id))
        && favoriteAlbumIds == Applied(old(favoriteAlbumIds), album.id, action.value)
      ensures favoriteAlbumsFullData == old(favoriteAlbumsFullData)
      ensures isLoadingFavorites == old(isLoadingFavorites)
    {
      if !isSignedIn {
        return None;
      }
      var chosen := ChosenAction(favoriteAlbumIds, album.id);
      favoriteAlbumIds := Applied(favoriteAlbumIds, album.id, chosen);
      action := Some(chosen);
    }
  }
}
