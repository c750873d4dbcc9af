/** `CreatePlaylistModal`: the song selection (a JavaScript `Map` from song id to song data,
    kept here as its insertion-ordered list of entries), the search over the available songs,
    the submit guard and the reset when the modal closes. */
module CreatePlaylistModal {
  import opened Wrappers
  import opened Http
  import opened Text
  import opened Seqs
  import opened SongLists
  import opened PlaylistsCreateRoute

  /** A song as `/api/songs` delivers it to the modal. */
  datatype SelectableSong = SelectableSong(id: string, name: string, artist: string, photo: string, track: string, album: string)

  /** The `PlaylistSongData` built for a selected song. */
  function SelectionData(s: SelectableSong): (r: Song)
    ensures r.id == s.id && r.nombre == s.name && r.artista == s.artist
    ensures r.album == s.album && r.foto == s.photo && r.pista == s.track
  {
    Song(s.id, s.name, s.artist, s.album, s.photo, s.track)
  }

  predicate TitleOrArtistMatches(s: SelectableSong, lowerTerm: string)
  {
    Includes(Lower(s.name), lowerTerm) || Includes(Lower(s.artist), lowerTerm)
  }

  function MatchesTerm(lowerTerm: string): SelectableSong -> bool
  {
    (s: SelectableSong) => TitleOrArtistMatches(s, lowerTerm)
  }

  /** `filteredSongs`: the available songs whose title or artist contains the term, ignoring
      case, in their original order. */
  function ModalFilter(available: seq<SelectableSong>, term: string): (r: seq<SelectableSong>)
    ensures IsSubsequence(r, available)
    ensures forall s :: s in r <==> s in available && TitleOrArtistMatches(s, Lower(term))
    ensures forall s :: multiset(r)[s] == if TitleOrArtistMatches(s, Lower(term)) then multiset(available)[s] else 0
    ensures term == "" ==> r == available
  {
    var p := MatchesTerm(Lower(term));
    FilterIsSubsequence(available, p);
    FilterMembers(available, p);
    FilterCounts(available, p);
    assert term == "" ==> Filter(available, p) == available by {
      if term == "" {
        forall i | 0 <= i < |available| ensures p(available[i]) {
          IncludesEmpty(Lower(available[i].name));
        }
        FilterAllPass(available, p);
      }
    }
    Filter(available, p)
  }

  /** `handleSubmit`'s guard and body: no request when the trimmed name is empty, nothing is
      selected or the user is signed out; otherwise the untrimmed name and the selection's
      values in insertion order. */
  function SubmitPayload(isSignedIn: bool, name: string, selected: seq<Song>): (r: Option<CreatePayload>)
    ensures r.None? <==> Trim(name) == [] || selected == [] || !isSignedIn
    ensures r.Some? ==> r.value == CreatePayload(Some(name), Some(selected))
  {
    if Trim(name) == [] || selected == [] || !isSignedIn then None
    else Some(CreatePayload(Some(name), Some(selected)))
  }

  /** Whatever the modal submits passes the create handler's 400 guard. */
  lemma SubmittedIsAcceptable(isSignedIn: bool, name: string, selected: seq<Song>)
    requires SubmitPayload(isSignedIn, name, selected).Some?
    ensures Acceptable(SubmitPayload(isSignedIn, name, selected).value)
  {
  }

  /** The submitted songs are exactly the map's values: each is stored under its own id and
      every key has its song in the list. */
  lemma SubmittedAreMapValues(isSignedIn: bool, name: string, selected: seq<Song>)
    requires UniqueIds(selected)
    requires SubmitPayload(isSignedIn, name, selected).Some?
    ensures var songs := SubmitPayload(isSignedIn, name, selected).value.songs.value;
      && (forall i :: 0 <= i < |songs| ==> songs[i].id in AsMap(selected) && AsMap(selected)[songs[i].id] == songs[i])
      && (forall id :: id in AsMap(selected) <==> HasId(songs, id))
  {
    AsMapValues(selected);
    AsMapKeys(selected);
  }

  /** Deleting a key and setting it back to its value restores the map. */
  lemma RestoreEntry(m: map<string, Song>, k: string, v: Song)
    requires k in m && m[k] == v
    ensures (m - {k})[k := v] == m
  {
  }

  /** Toggling the same song twice gives back the same map; on the entry order it gives back
      the same list when the song was not selected. */
  lemma ToggleTwiceRestores(selected: seq<Song>, song: SelectableSong)
    requires UniqueIds(selected)
    requires HasId(selected, song.id) ==> SelectionData(song) in selected
    ensures var d := SelectionData(song);
      AsMap(ToggleById(ToggleById(selected, d), d)) == AsMap(selected)
    ensures !HasId(selected, song.id) ==>
      var d := SelectionData(song);
      ToggleById(ToggleById(selected, d), d) == selected
  {
    var d := SelectionData(song);
    if HasId(selected, song.id) {
      var w := WithoutId(selected, d.id);
      ToggleTwicePresent(selected, d);
      WithoutIdAsMap(selected, d.id);
      AppendAsMap(w, d);
      AsMapValues(selected);
      var i :| 0 <= i < |selected| && selected[i] == d;
      RestoreEntry(AsMap(selected), d.id, d);
    } else {
      ToggleTwiceAbsent(selected, d);
    }
  }

  class CreatePlaylistModalState {
    var playlistName: string
    var selected: seq<Song>
    var searchTerm: string
    var availableSongs: seq<SelectableSong>
    var loadingSongs: bool

    /** The selection has at most one entry per song id, as the keys of a `Map` do. */
    ghost predicate Valid()
      reads this
    {
      UniqueIds(selected)
    }

    constructor ()
      ensures Valid()
      ensures playlistName == "" && selected == [] && searchTerm == "" && availableSongs == [] && loadingSongs
    {
      playlistName := "";
      selected := [];
      searchTerm := "";
      availableSongs := [];
      loadingSongs := true;
    }

    /** The `isOpen` effect: opening loads the available songs (none when the fetch fails);
        closing clears the name, the selection and the search term. */
    method OnOpenChange(isOpen: bool, fetched: Fetched<seq<SelectableSong>>)
      requires Valid()
      modifies this
      ensures Valid()
      ensures isOpen ==>
        && availableSongs == (if fetched.Delivered? then fetched.body else [])
        && !loadingSongs
        && playlistName == old(playlistName) && selected == old(selected) && searchTerm == old(searchTerm)
      ensures !isOpen ==>
        && playlistName == "" && selected == [] && searchTerm == ""
        && availableSongs == old(availableSongs) && loadingSongs == old(loadingSongs)
    {
      if isOpen {
        loadingSongs := true;
        if fetched.Delivered? {
          availableSongs := fetched.body;
        } else {
          availableSongs := [];
        }
        loadingSongs := false;
      } else {
        playlistName := "";
        selected := [];
        searchTerm := "";
      }
    }

    /** `handleToggleSongSelection`: delete the id from the map when present, otherwise set it
        (a new key goes last in a `Map`'s order); no other entry changes. */
    method ToggleSongSelection(song: SelectableSong)
      requires Valid()
      modifies this
      ensures Valid()
      ensures selected == ToggleById(old(selected), SelectionData(song))
      ensures AsMap(selected) ==
        if song.id in AsMap(old(selected)) then AsMap(old(selected)) - {song.id}
        else AsMap(old(selected))[song.id := SelectionData(song)]
      ensures playlistName == old(playlistName) && searchTerm == old(searchTerm)
      ensures availableSongs == old(availableSongs) && loadingSongs == old(loadingSongs)
    {
      var d := SelectionData(song);
      ToggleKeepsUnique(selected, d);
      ToggleAsMap(selected, d);
      selected := ToggleById(selected, d);
    }

    /** `handleSubmit` up to the request: the payload posted, or none when the guard refuses. */
    method Submit(isSignedIn: bool) returns (payload: Option<CreatePayload>)
      ensures payload == SubmitPayload(isSignedIn, playlistName, selected)
    {
      payload := SubmitPayload(isSignedIn, playlistName, selected);
    }
  }
}
