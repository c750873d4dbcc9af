/** `GET /api/playlists`: the user's playlists sorted with Liked Songs first, then by name.
    `Items.sort(comparator)` is modelled by an insertion sort under the same comparator, with
    `localeCompare` read as lexicographic order. */
module PlaylistsListRoute {
  import opened Wrappers
  import opened Text
  import opened PlaylistItems

  /** `a.nombre_playlist || ''`. */
  function NameOrEmpty(p: PlaylistItem): string
  {
    p.name.GetOr("")
  }

  /** The comparator passed to `sort`. */
  function Compare(a: PlaylistItem, b: PlaylistItem): int
  {
    if a.playlistId == LIKED_SONGS_PLAYLIST_ID then -1
    else if b.playlistId == LIKED_SONGS_PLAYLIST_ID then 1
    else LexCompare(NameOrEmpty(a), NameOrEmpty(b))
  }

  /** `a` may stand before `b`. */
  predicate Precedes(a: PlaylistItem, b: PlaylistItem)
  {
    Compare(a, b) <= 0
  }

  lemma PrecedesTotal(a: PlaylistItem, b: PlaylistItem)
    ensures Precedes(a, b) || Precedes(b, a)
  {
    LexCompareAntisymmetric(NameOrEmpty(a), NameOrEmpty(b));
  }

  lemma PrecedesTransitive(a: PlaylistItem, b: PlaylistItem, c: PlaylistItem)
    requires Precedes(a, b) && Precedes(b, c)
    ensures Precedes(a, c)
  {
    if a.playlistId != LIKED_SONGS_PLAYLIST_ID {
      LexCompareTransitive(NameOrEmpty(a), NameOrEmpty(b), NameOrEmpty(c));
    }
  }

  ghost predicate Sorted(s: seq<PlaylistItem>)
  {
    forall i, j :: 0 <= i < j < |s| ==> Precedes(s[i], s[j])
  }

  /** A head that precedes every element of a sorted list keeps it sorted. */
  lemma ConsSorted(h: PlaylistItem, s: seq<PlaylistItem>)
    requires Sorted(s)
    requires forall j :: 0 <= j < |s| ==> Precedes(h, s[j])
    ensures Sorted([h] + s)
  {
    forall i, j | 0 <= i < j < |[h] + s| ensures Precedes(([h] + s)[i], ([h] + s)[j]) {
      if i > 0 { assert ([h] + s)[i] == s[i - 1]; }
    }
  }

  /** The head of a sorted list precedes everything else in it and any `x` it does not follow. */
  lemma HeadPrecedesRest(x: PlaylistItem, s: seq<PlaylistItem>, rest: seq<PlaylistItem>)
    requires Sorted(s) && s != [] && !Precedes(x, s[0])
    requires multiset(rest) == multiset(s[1..]) + multiset{x}
    ensures forall j :: 0 <= j < |rest| ==> Precedes(s[0], rest[j])
  {
    PrecedesTotal(x, s[0]);
    forall j | 0 <= j < |rest| ensures Precedes(s[0], rest[j]) {
      assert rest[j] in multiset(rest);
      if rest[j] != x {
        assert rest[j] in multiset(s[1..]);
        var k :| 0 <= k < |s[1..]| && s[1..][k] == rest[j];
        assert s[k + 1] == rest[j];
      }
    }
  }

  function Insert(x: PlaylistItem, s: seq<PlaylistItem>): (r: seq<PlaylistItem>)
    ensures multiset(r) == multiset(s) + multiset{x}
    ensures Sorted(s) ==> Sorted(r)
  {
    if s == [] then [x]
    else if Precedes(x, s[0]) then
      assert Sorted(s) ==> Sorted([x] + s) by {
        if Sorted(s) {
          forall j | 0 <= j < |s| ensures Precedes(x, s[j]) {
            if j > 0 { PrecedesTransitive(x, s[0], s[j]); }
          }
          ConsSorted(x, s);
        }
      }
      [x] + s
    else
      var rest := Insert(x, s[1..]);
      assert s == [s[0]] + s[1..];
      assert Sorted(s) ==> Sorted([s[0]] + rest) by {
        if Sorted(s) {
          assert Sorted(s[1..]);
          HeadPrecedesRest(x, s, rest);
          ConsSorted(s[0], rest);
        }
      }
      [s[0]] + rest
  }

  function SortPlaylists(s: seq<PlaylistItem>): (r: seq<PlaylistItem>)
    ensures multiset(r) == multiset(s)
    ensures Sorted(r)
  {
    if s == [] then [] else
      assert s == [s[0]] + s[1..];
      Insert(s[0], SortPlaylists(s[1..]))
  }

  /** `Items?.sort(...) || []`: the sorted query result, or `[]` when the query returned none. */
  function ListResult(items: Option<seq<PlaylistItem>>): (r: seq<PlaylistItem>)
    ensures items.None? ==> r == []
    ensures items.Some? ==> multiset(r) == multiset(items.value) && Sorted(r)
  {
    if items.Some? then SortPlaylists(items.value) else []
  }

  /** In a sorted listing nothing that is not Liked Songs comes before Liked Songs. */
  lemma LikedSongsFirst(r: seq<PlaylistItem>, i: nat, j: nat)
    requires Sorted(r) && i < j < |r|
    requires r[j].playlistId == LIKED_SONGS_PLAYLIST_ID
    ensures r[i].playlistId == LIKED_SONGS_PLAYLIST_ID
  {
    assert Precedes(r[i], r[j]);
  }

  /** Apart from Liked Songs, a sorted listing is in name order, a missing name counting as ''. */
  lemma OthersByName(r: seq<PlaylistItem>, i: nat, j: nat)
    requires Sorted(r) && i < j < |r|
    requires r[i].playlistId != LIKED_SONGS_PLAYLIST_ID && r[j].playlistId != LIKED_SONGS_PLAYLIST_ID
    ensures LexCompare(NameOrEmpty(r[i]), NameOrEmpty(r[j])) <= 0
  {
    assert Precedes(r[i], r[j]);
  }
}
