/** `LikedSongsContext`: the client's set of liked song ids, loaded from the liked-songs `GET`,
    flipped optimistically on a like click and flipped back when the `POST` fails. */
module LikedSongsContext {
  import opened Wrappers
  import opened Http
  import opened SongLists
  import opened PlaylistItems
  import opened LikedSongsManageRoute

  /** The ids after a load: the returned ids when signed in and the response was ok, else none. */
  function LoadedIds(isSignedIn: bool, response: Fetched<seq<string>>): (r: set<string>)
    ensures forall x :: x in r <==> isSignedIn && response.Delivered? && x in response.body
  {
    if isSignedIn && response.Delivered? then set x | x in response.body else {}
  }

  /** The optimistic update: drop the id if it was liked, add it otherwise. */
  function Flip(ids: set<string>, id: string, currentlyLiked: bool): (r: set<string>)
    ensures id in r <==> !currentlyLiked
    ensures forall x :: x != id ==> (x in r <==> x in ids)
  {
    if currentlyLiked then ids - {id} else ids + {id}
  }

  /** The revert after a failed request: put the id back if it was liked, drop it otherwise. */
  function Revert(ids: set<string>, id: string, currentlyLiked: bool): (r: set<string>)
    ensures id in r <==> currentlyLiked
    ensures forall x :: x != id ==> (x in r <==> x in ids)
  {
    if currentlyLiked then ids + {id} else ids - {id}
  }

  /** A flip followed by its revert gives back the original set. */
  lemma RevertUndoesFlip(ids: set<string>, id: string)
    ensures Revert(Flip(ids, id, id in ids), id, id in ids) == ids
  {
  }

  /** The optimistic flip predicts the server: flipping the ids the liked-songs `GET` returned
      gives the ids it returns after the like `POST`. */
  lemma FlipMatchesServer(stored: Option<PlaylistItem>, userId: string, song: Song)
    ensures var before := set x | x in LikedIds(stored);
      var t := ToggleLiked(CurrentSongs(stored), song);
      var after := set x | x in LikedIds(Some(LikedUpdate(stored, userId, t.0)));
      after == Flip(before, song.id, song.id in before)
  {
    var current := CurrentSongs(stored);
    var t := ToggleLiked(current, song);
    var next := t.0;
    assert LikedIds(stored) == Ids(current);
    assert LikedIds(Some(LikedUpdate(stored, userId, next))) == Ids(next);
    IdsMembers(current);
    IdsMembers(next);
    if t.1 == Added {
      HasIdAppend(current, song);
    } else {
      HasIdWithout(current, song.id);
    }
  }

  class LikedSongsState {
    var likedSongIds: set<string>
    var isLoadingLikes: bool

    constructor ()
      ensures likedSongIds == {} && isLoadingLikes
    {
      likedSongIds := {};
      isLoadingLikes := true;
    }

    /** `fetchInitialLikedSongs`, given the outcome of the `GET`. */
    method FetchInitialLikedSongs(isSignedIn: bool, response: Fetched<seq<string>>)
      modifies this
      ensures likedSongIds == LoadedIds(isSignedIn, response)
      ensures !isLoadingLikes
    {
      if isSignedIn {
        isLoadingLikes := true;
        if response.Delivered? {
          likedSongIds := set x | x in response.body;
        } else {
          likedSongIds := {};
        }
        isLoadingLikes := false;
      } else {
        likedSongIds := {};
        isLoadingLikes := false;
      }
    }

    /** The part of `toggleLikeSong` before the request: nothing when signed out, otherwise the
        optimistic flip; returns whether the song was liked, for the revert. */
    method BeginToggle(isSignedIn: bool, song: Song) returns (currentlyLiked: Option<bool>)
      modifies this
      ensures !isSignedIn ==> currentlyLiked == None && likedSongIds == old(likedSongIds)
      ensures isSignedIn ==>
        && currentlyLiked == Some(song.id in old(likedSongIds))
        && likedSongIds == Flip(old(likedSongIds), song.id, currentlyLiked.value)
      ensures isLoadingLikes == old(isLoadingLikes)
    {
      if !isSignedIn {
        return None;
      }
      var liked := song.id in likedSongIds;
      likedSongIds := Flip(likedSongIds, song.id, liked);
      currentlyLiked := Some(liked);
    }

    /** The `catch` branch: restore the id's membership on whatever the set is now. */
    method RevertToggle(songId: string, currentlyLiked: bool)
      modifies this
      ensures likedSongIds == Revert(old(likedSongIds), songId, currentlyLiked)
      ensures isLoadingLikes == old(isLoadingLikes)
    {
      likedSongIds := Revert(likedSongIds, songId, currentlyLiked);
    }

    /** `toggleLikeSong` run to completion with no other update in between, given the outcome
        of the `POST`. */
    method ToggleLikeSong(isSignedIn: bool, song: Song, outcome: Fetched<ToggleReply>)
      modifies this
      ensures !isSignedIn || !outcome.Delivered? ==> likedSongIds == old(likedSongIds)
      ensures isSignedIn && outcome.Delivered? ==>
        likedSongIds == Flip(old(likedSongIds), song.id, song.id in old(likedSongIds))
      ensures isLoadingLikes == old(isLoadingLikes)
    {
      var currentlyLiked := BeginToggle(isSignedIn, song);
      if currentlyLiked.Some? && !outcome.Delivered? {
        RevertToggle(song.id, currentlyLiked.value);
        RevertUndoesFlip(old(likedSongIds), song.id);
      }
    }
  }
}
