/** The dashboard `Songs` component: the search filter over the loaded songs, the first-ten
    display and the like-click mapping. */
module SongsView {
  import opened Text
  import opened Seqs
  import opened SongLists
  import opened SongsRoute

  const DISPLAY_LIMIT: nat := 10

  /** The filter callback for an already lower-cased term: title, artist or album contains it
      case-insensitively, or the year's decimal text contains it. */
  predicate Matches(s: SongItem, lowerTerm: string)
  {
    || Includes(Lower(s.name), lowerTerm)
    || Includes(Lower(s.artist), lowerTerm)
    || Includes(Lower(s.album), lowerTerm)
    || Includes(NatToString(s.year), lowerTerm)
  }

  function MatchesTerm(lowerTerm: string): SongItem -> bool
  {
    (s: SongItem) => Matches(s, lowerTerm)
  }

  /** `filteredSongs`. The blank check trims the term; the match uses the untrimmed term. */
  function FilteredSongs(all: seq<SongItem>, term: string): (r: seq<SongItem>)
    ensures Trim(term) == [] ==> r == all
    ensures Trim(term) != [] ==> IsSubsequence(r, all)
    ensures Trim(term) != [] ==> forall s :: s in r <==> s in all && Matches(s, Lower(term))
    ensures Trim(term) != [] ==>
      forall s :: multiset(r)[s] == if Matches(s, Lower(term)) then multiset(all)[s] else 0
  {
    if Trim(term) == [] then all
    else
      var p := MatchesTerm(Lower(term));
      FilterIsSubsequence(all, p);
      FilterMembers(all, p);
      FilterCounts(all, p);
      Filter(all, p)
  }

  /** `filteredSongs.slice(0, 10)`. */
  function Displayed(all: seq<SongItem>, term: string): (r: seq<SongItem>)
    ensures |r| == Min(|FilteredSongs(all, term)|, DISPLAY_LIMIT)
    ensures r == FilteredSongs(all, term)[..|r|]
  {
    Take(FilteredSongs(all, term), DISPLAY_LIMIT)
  }

  /** A term made only of whitespace shows the first ten songs as loaded. */
  lemma BlankTermShowsAll(all: seq<SongItem>, term: string)
    requires AllWhitespace(term)
    ensures Displayed(all, term) == all[..Min(|all|, DISPLAY_LIMIT)]
  {
    TrimEmptyIff(term);
  }

  /** The search ignores the case of the term: an upper-case term finds the same songs. */
  lemma SearchIgnoresTermCase(all: seq<SongItem>, term: string)
    ensures FilteredSongs(all, Lower(term)) == FilteredSongs(all, term)
  {
    var lower := Lower(term);
    TrimLowerEmpty(term);
    if Trim(term) != [] {
      LowerIdempotent(term);
      assert FilteredSongs(all, lower) == Filter(all, MatchesTerm(Lower(lower)));
      assert FilteredSongs(all, term) == Filter(all, MatchesTerm(lower));
    }
  }

  /** `handleLikeClick`: the liked-songs payload, field for field. */
  function LikeData(s: SongItem): (r: Song)
    ensures r.id == s.id && r.nombre == s.name && r.artista == s.artist
    ensures r.album == s.album && r.foto == s.photo && r.pista == s.track
  {
    Song(s.id, s.name, s.artist, s.album, s.photo, s.track)
  }
}
