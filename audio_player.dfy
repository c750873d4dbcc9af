/** `AudioPlayerContext`: the single-current-player rule. Audio elements are named by numbers;
    `pause()` is recorded in a log. */
module AudioPlayer {
  import opened Wrappers

  /** The element `registerPlay(element)` pauses: the current one when there is one and it is
      another element. */
  function PausedBy(current: Option<nat>, element: nat): (r: Option<nat>)
    ensures r.Some? <==> current.Some? && current.value != element
    ensures r.Some? ==> r == current
  {
    if current.Some? && current.value != element then current else None
  }

  class AudioPlayerState {
    var currentlyPlaying: Option<nat>
    /** Every `pause()` call, in order. */
    var paused: seq<nat>
    /** The elements making sound, when every playback starts through `registerPlay`. */
    ghost var playing: set<nat>

    /** At most one element plays, and it is the current one. */
    ghost predicate Valid()
      reads this
    {
      if currentlyPlaying.None? then playing == {} else playing <= {currentlyPlaying.value}
    }

    constructor ()
      ensures Valid() && currentlyPlaying == None && paused == [] && playing == {}
    {
      currentlyPlaying := None;
      paused := [];
      playing := {};
    }

    /** `registerPlay`, called from an element's `onPlay`. */
    method RegisterPlay(element: nat)
      requires Valid()
      modifies this
      ensures Valid()
      ensures currentlyPlaying == Some(element)
      ensures var p := PausedBy(old(currentlyPlaying), element);
        paused == old(paused) + (if p.Some? then [p.value] else [])
      ensures playing == {element}
    {
      var p := PausedBy(currentlyPlaying, element);
      if p.Some? {
        paused := paused + [p.value];
        playing := playing - {p.value};
      }
      currentlyPlaying := Some(element);
      playing := playing + {element};
    }

    /** The user stops an element from its own controls; the context is not told. */
    method StopByUser(element: nat)
      requires Valid()
      modifies this
      ensures Valid()
      ensures playing == old(playing) - {element}
      ensures currentlyPlaying == old(currentlyPlaying) && paused == old(paused)
    {
      playing := playing - {element};
    }
  }
}
