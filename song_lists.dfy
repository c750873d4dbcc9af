/** Songs as they are kept inside a playlist (`PlaylistSongData`), and the list operations
    several handlers share: find by id, drop by id, and the remove-or-append toggle. */
module SongLists {
  import opened Seqs

  /** `PlaylistSongData`: the song fields a playlist stores. */
  datatype Song = Song(id: string, nombre: string, artista: string, album: string, foto: string, pista: string)

  ghost predicate HasId(songs: seq<Song>, id: string)
  {
    exists i :: 0 <= i < |songs| && songs[i].id == id
  }

  /** No two songs of the list share an id. */
  ghost predicate UniqueIds(songs: seq<Song>)
  {
    forall i, j :: 0 <= i < j < |songs| ==> songs[i].id != songs[j].id
  }

  /** `findIndex(s => s.id === id)`: the first position holding `id`, or -1. */
  function FindIndex(songs: seq<Song>, id: string): (i: int)
    ensures -1 <= i < |songs|
    ensures 0 <= i ==> songs[i].id == id && forall j :: 0 <= j < i ==> songs[j].id != id
    ensures i == -1 <==> !HasId(songs, id)
  {
    FirstIndex(songs, IdIs(id))
  }

  function IdIs(id: string): Song -> bool
  {
    (s: Song) => s.id == id
  }

  /** The filter callback `s => s.id !== id`. */
  function OtherId(id: string): Song -> bool
  {
    (s: Song) => s.id != id
  }

  /** `filter(s => s.id !== id)`. */
  function WithoutId(songs: seq<Song>, id: string): (r: seq<Song>)
    ensures !HasId(r, id)
  {
    Filter(songs, OtherId(id))
  }

  /** Dropping an id keeps every other song, in order, with its multiplicity. */
  lemma WithoutIdSpec(songs: seq<Song>, id: string)
    ensures IsSubsequence(WithoutId(songs, id), songs)
    ensures forall s :: s in WithoutId(songs, id) <==> s in songs && s.id != id
    ensures forall s :: multiset(WithoutId(songs, id))[s] == if s.id != id then multiset(songs)[s] else 0
  {
    FilterIsSubsequence(songs, OtherId(id));
    FilterMembers(songs, OtherId(id));
    FilterCounts(songs, OtherId(id));
  }

  /** Dropping an id no song carries changes nothing. */
  lemma WithoutAbsentId(songs: seq<Song>, id: string)
    requires !HasId(songs, id)
    ensures WithoutId(songs, id) == songs
  {
    FilterAllPass(songs, OtherId(id));
  }

  /** Any filter of a list without duplicate ids is without duplicate ids. */
  lemma {:induction false} FilterKeepsUnique(songs: seq<Song>, p: Song -> bool)
    requires UniqueIds(songs)
    ensures UniqueIds(Filter(songs, p))
  {
    if songs != [] {
      FilterKeepsUnique(songs[1..], p);
      FilterMembers(songs[1..], p);
      var rest := Filter(songs[1..], p);
      forall k | 0 <= k < |rest| ensures rest[k].id != songs[0].id {
        assert rest[k] in songs[1..];
      }
    }
  }

  /** The remove-if-present-else-append toggle shared by the liked-songs handler and the
      playlist-creation selection. */
  function ToggleById(songs: seq<Song>, song: Song): seq<Song>
  {
    if FindIndex(songs, song.id) > -1 then WithoutId(songs, song.id) else songs + [song]
  }

  lemma ToggleKeepsUnique(songs: seq<Song>, song: Song)
    requires UniqueIds(songs)
    ensures UniqueIds(ToggleById(songs, song))
  {
    if FindIndex(songs, song.id) > -1 {
      FilterKeepsUnique(songs, OtherId(song.id));
    }
  }

  /** Toggling a song that is absent, twice, gives back the original list. */
  lemma ToggleTwiceAbsent(songs: seq<Song>, song: Song)
    requires !HasId(songs, song.id)
    ensures ToggleById(ToggleById(songs, song), song) == songs
  {
    var once := songs + [song];
    assert once[|songs|].id == song.id;
    FilterAppend(songs, [song], OtherId(song.id));
    WithoutAbsentId(songs, song.id);
    assert WithoutId([song], song.id) == [];
  }

  /** Toggling a present song twice moves it (as given) to the end of the list. */
  lemma ToggleTwicePresent(songs: seq<Song>, song: Song)
    requires HasId(songs, song.id)
    ensures ToggleById(ToggleById(songs, song), song) == WithoutId(songs, song.id) + [song]
  {
  }

  /** The ids of the songs, in list order (`map(song => song.id)`). */
  function Ids(songs: seq<Song>): (r: seq<string>)
    ensures |r| == |songs|
    ensures forall i :: 0 <= i < |songs| ==> r[i] == songs[i].id
  {
    seq(|songs|, i requires 0 <= i < |songs| => songs[i].id)
  }

  /** An id is listed exactly when some song carries it. */
  lemma IdsMembers(songs: seq<Song>)
    ensures forall x :: x in Ids(songs) <==> HasId(songs, x)
  {
    forall x ensures x in Ids(songs) <==> HasId(songs, x) {
      if HasId(songs, x) {
        var i :| 0 <= i < |songs| && songs[i].id == x;
        assert Ids(songs)[i] == x;
      }
    }
  }

  /** After an append, the ids present are the old ones and the appended song's. */
  lemma HasIdAppend(songs: seq<Song>, song: Song)
    ensures forall x :: HasId(songs + [song], x) <==> HasId(songs, x) || x == song.id
  {
    var next := songs + [song];
    forall x ensures HasId(next, x) <==> HasId(songs, x) || x == song.id {
      if HasId(next, x) {
        var i :| 0 <= i < |next| && next[i].id == x;
        if i < |songs| { assert songs[i] == next[i]; }
      }
      if HasId(songs, x) {
        var i :| 0 <= i < |songs| && songs[i].id == x;
        assert next[i] == songs[i];
      }
      if x == song.id { assert next[|songs|].id == x; }
    }
  }

  /** After dropping an id, the ids present are the old ones except that one. */
  lemma HasIdWithout(songs: seq<Song>, id: string)
    ensures forall x :: HasId(WithoutId(songs, id), x) <==> HasId(songs, x) && x != id
  {
    var next := WithoutId(songs, id);
    WithoutIdSpec(songs, id);
    forall x ensures HasId(next, x) <==> HasId(songs, x) && x != id {
      if HasId(next, x) {
        var i :| 0 <= i < |next| && next[i].id == x;
        assert next[i] in songs;
      }
      if HasId(songs, x) && x != id {
        var i :| 0 <= i < |songs| && songs[i].id == x;
        assert songs[i] in next;
      }
    }
  }

  /** The list read as a JavaScript `Map` keyed by song id, built by `set` in list order
      (a later song with the same id replaces an earlier one). */
  function AsMap(songs: seq<Song>): map<string, Song>
  {
    if songs == [] then map[] else AsMap(songs[..|songs| - 1])[songs[|songs| - 1].id := songs[|songs| - 1]]
  }

  lemma {:induction false} AsMapKeys(songs: seq<Song>)
    ensures forall id :: id in AsMap(songs) <==> HasId(songs, id)
  {
    if songs != [] {
      var init := songs[..|songs| - 1];
      AsMapKeys(init);
      forall id ensures HasId(songs, id) <==> HasId(init, id) || songs[|songs| - 1].id == id {
        if HasId(songs, id) {
          var i :| 0 <= i < |songs| && songs[i].id == id;
          if i < |songs| - 1 { assert init[i] == songs[i]; }
        }
        if HasId(init, id) {
          var i :| 0 <= i < |init| && init[i].id == id;
          assert songs[i] == init[i];
        }
      }
    }
  }

  /** With unique ids, each song is found under its own id. */
  lemma {:induction false} AsMapValues(songs: seq<Song>)
    requires UniqueIds(songs)
    ensures forall i :: 0 <= i < |songs| ==> songs[i].id in AsMap(songs) && AsMap(songs)[songs[i].id] == songs[i]
  {
    if songs != [] {
      var init := songs[..|songs| - 1];
      AsMapValues(init);
      forall i | 0 <= i < |songs| ensures songs[i].id in AsMap(songs) && AsMap(songs)[songs[i].id] == songs[i] {
        if i < |songs| - 1 { assert init[i] == songs[i]; }
      }
    }
  }

  /** On the map view, appending a song is `set(song.id, song)`. */
  lemma AppendAsMap(songs: seq<Song>, song: Song)
    ensures AsMap(songs + [song]) == AsMap(songs)[song.id := song]
  {
    assert (songs + [song])[..|songs|] == songs;
  }

  lemma SetThenDelete(m: map<string, Song>, id: string, song: Song)
    ensures m[id := song] - {id} == m - {id}
  {
  }

  lemma DeleteThenSet(m: map<string, Song>, id: string, song: Song)
    requires song.id != id
    ensures (m - {id})[song.id := song] == m[song.id := song] - {id}
  {
  }

  /** On the map view, dropping an id is `delete(id)`, and every other entry stays. */
  lemma {:induction false} WithoutIdAsMap(songs: seq<Song>, id: string)
    ensures AsMap(WithoutId(songs, id)) == AsMap(songs) - {id}
  {
    if songs != [] {
      var init, last := songs[..|songs| - 1], songs[|songs| - 1];
      assert songs == init + [last];
      WithoutIdAsMap(init, id);
      FilterAppend(init, [last], OtherId(id));
      var m := AsMap(init);
      if last.id == id {
        assert WithoutId([last], id) == [];
        assert WithoutId(songs, id) == WithoutId(init, id);
        SetThenDelete(m, id, last);
      } else {
        assert WithoutId([last], id) == [last];
        AppendAsMap(WithoutId(init, id), last);
        DeleteThenSet(m, id, last);
      }
    }
  }

  /** On the map view, the toggle deletes a present key and inserts an absent one, and touches
      no other key. */
  lemma ToggleAsMap(songs: seq<Song>, song: Song)
    ensures AsMap(ToggleById(songs, song)) ==
      if song.id in AsMap(songs) then AsMap(songs) - {song.id} else AsMap(songs)[song.id := song]
  {
    AsMapKeys(songs);
    if FindIndex(songs, song.id) > -1 {
      WithoutIdAsMap(songs, song.id);
    } else {
      AppendAsMap(songs, song);
    }
  }
}
