/** What the two seed routes share: one batch write of at most 25 put requests, and a scan whose
    missing result reads as `[]`. Whether the store call throws is a parameter. */
module SeedBatch {
  import opened Wrappers
  import opened Http
  import opened Seqs

  /** The `BatchWriteCommand` limit. */
  const BATCH_LIMIT: nat := 25

  /** The outcome of a seed `POST`: its status, the put requests sent, and the count the
      success message reports. */
  datatype Upload<T> = Upload(status: nat, sent: seq<T>, reportedCount: nat)

  function UploadAll<T>(requests: seq<T>, writeFails: bool): (r: Upload<T>)
    ensures requests == [] <==> r.status == BAD_REQUEST
    ensures requests == [] ==> r.sent == []
    ensures requests != [] ==>
      && r.sent == Take(requests, BATCH_LIMIT)
      && r.reportedCount == |requests|
      && r.status == (if writeFails then SERVER_ERROR else OK)
    ensures |r.sent| <= BATCH_LIMIT
  {
    if requests == [] then Upload(BAD_REQUEST, [], 0)
    else Upload(if writeFails then SERVER_ERROR else OK, Take(requests, BATCH_LIMIT), |requests|)
  }

  /** `NextResponse.json(data.Items || [])`, or 500 when the scan throws. */
  function ScanReply<T>(items: Option<seq<T>>, scanFails: bool): (r: Response<seq<T>>)
    ensures scanFails <==> r == Error(SERVER_ERROR)
    ensures !scanFails && items.Some? ==> r == Reply(OK, items.value)
    ensures !scanFails && items.None? ==> r == Reply(OK, [])
  {
    if scanFails then Error(SERVER_ERROR) else Reply(OK, items.GetOr([]))
  }

  /** More than 25 requests: only the first 25 are sent, yet the message counts them all. */
  lemma OverLimitUndercounts<T>(requests: seq<T>)
    requires |requests| > BATCH_LIMIT
    ensures UploadAll(requests, false).reportedCount > |UploadAll(requests, false).sent|
  {
  }
}

/** `/api/songs`: the seed songs turned into items of the Canciones table. */
module SongsRoute {
  import opened Wrappers
  import opened Http
  import opened Text
  import opened Seqs
  import opened SeedBatch

  /** An entry of `songsToUpload`. */
  datatype SeedSong = SeedSong(idCancion: nat, name: string, album: string, genre: string, year: nat,
                               artist: string, composer: string, language: string, country: string,
                               track: string, photo: string)

  /** A put item; `id` is the string partition key. */
  datatype SongItem = SongItem(id: string, name: string, album: string, genre: string, year: nat,
                               artist: string, composer: string, language: string, country: string,
                               track: string, photo: string, originalId: nat)

  function ToItem(s: SeedSong): (r: SongItem)
    ensures r.id == NatToString(s.idCancion) && r.originalId == s.idCancion
    ensures r.name == s.name && r.album == s.album && r.genre == s.genre && r.year == s.year
    ensures r.artist == s.artist && r.composer == s.composer && r.language == s.language
    ensures r.country == s.country && r.track == s.track && r.photo == s.photo
  {
    SongItem(NatToString(s.idCancion), s.name, s.album, s.genre, s.year, s.artist, s.composer,
             s.language, s.country, s.track, s.photo, s.idCancion)
  }

  /** `songsToUpload.map(...)`: one item per seed, in the same order. */
  function PutItems(seeds: seq<SeedSong>): (r: seq<SongItem>)
    ensures |r| == |seeds|
    ensures forall i :: 0 <= i < |seeds| ==> r[i] == ToItem(seeds[i])
  {
    seq(|seeds|, i requires 0 <= i < |seeds| => ToItem(seeds[i]))
  }

  /** `POST`. */
  function Post(seeds: seq<SeedSong>, writeFails: bool): (r: Upload<SongItem>)
    ensures seeds == [] <==> r.status == BAD_REQUEST
    ensures seeds != [] ==> r.reportedCount == |seeds|
    ensures |r.sent| == if seeds == [] then 0 else Min(|seeds|, BATCH_LIMIT)
    ensures forall i :: 0 <= i < |r.sent| ==> r.sent[i] == ToItem(seeds[i])
  {
    UploadAll(PutItems(seeds), writeFails)
  }

  /** `GET`. */
  function Get(items: Option<seq<SongItem>>, scanFails: bool): (r: Response<seq<SongItem>>)
    ensures !scanFails ==> r == Reply(OK, items.GetOr([]))
    ensures scanFails ==> r == Error(SERVER_ERROR)
  {
    ScanReply(items, scanFails)
  }

  /** The numeric id can be read back from the string key. */
  lemma ItemIdRoundTrip(s: SeedSong)
    ensures ParseNat(ToItem(s).id) == ToItem(s).originalId
  {
    ParseNatToString(s.idCancion);
  }

  /** Seeds with distinct numeric ids get distinct keys. */
  lemma DistinctKeys(a: SeedSong, b: SeedSong)
    requires a.idCancion != b.idCancion
    ensures ToItem(a).id != ToItem(b).id
  {
    NatToStringInjective(a.idCancion, b.idCancion);
  }
}

/** `/api/albums`: the seed albums turned into items of the Albumes table. */
module AlbumsRoute {
  import opened Wrappers
  import opened Http
  import opened Text
  import opened Seqs
  import opened SeedBatch

  /** A track listed inside a seed album; stored as given. */
  datatype SeedTrack = SeedTrack(idCancion: nat, name: string, composer: string, genre: string, track: string)

  /** An entry of `albumsToUpload`. */
  datatype SeedAlbum = SeedAlbum(idAlbum: nat, name: string, artist: string, year: nat, genre: string,
                                 cover: string, songs: seq<SeedTrack>)

  /** A put item; `id` is the string partition key. */
  datatype AlbumItem = AlbumItem(id: string, name: string, artist: string, year: nat, genre: string,
                                 cover: string, songs: seq<SeedTrack>, originalId: nat)

  function ToItem(a: SeedAlbum): (r: AlbumItem)
    ensures r.id == NatToString(a.idAlbum) && r.originalId == a.idAlbum
    ensures r.name == a.name && r.artist == a.artist && r.year == a.year && r.genre == a.genre
    ensures r.cover == a.cover && r.songs == a.songs
  {
    AlbumItem(NatToString(a.idAlbum), a.name, a.artist, a.year, a.genre, a.cover, a.songs, a.idAlbum)
  }

  function PutItems(seeds: seq<SeedAlbum>): (r: seq<AlbumItem>)
    ensures |r| == |seeds|
    ensures forall i :: 0 <= i < |seeds| ==> r[i] == ToItem(seeds[i])
  {
    seq(|seeds|, i requires 0 <= i < |seeds| => ToItem(seeds[i]))
  }

  /** `POST`. */
  function Post(seeds: seq<SeedAlbum>, writeFails: bool): (r: Upload<AlbumItem>)
    ensures seeds == [] <==> r.status == BAD_REQUEST
    ensures seeds != [] ==> r.reportedCount == |seeds|
    ensures |r.sent| == if seeds == [] then 0 else Min(|seeds|, BATCH_LIMIT)
    ensures forall i :: 0 <= i < |r.sent| ==> r.sent[i] == ToItem(seeds[i])
  {
    UploadAll(PutItems(seeds), writeFails)
  }

  /** `GET`. */
  function Get(items: Option<seq<AlbumItem>>, scanFails: bool): (r: Response<seq<AlbumItem>>)
    ensures !scanFails ==> r == Reply(OK, items.GetOr([]))
    ensures scanFails ==> r == Error(SERVER_ERROR)
  {
    ScanReply(items, scanFails)
  }

  lemma ItemIdRoundTrip(a: SeedAlbum)
    ensures ParseNat(ToItem(a).id) == ToItem(a).originalId
  {
    ParseNatToString(a.idAlbum);
  }

  lemma DistinctKeys(a: SeedAlbum, b: SeedAlbum)
    requires a.idAlbum != b.idAlbum
    ensures ToItem(a).id != ToItem(b).id
  {
    NatToStringInjective(a.idAlbum, b.idAlbum);
  }
}
