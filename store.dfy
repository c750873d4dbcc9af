/** The key-value store behind the handlers, seen as a map from (partition key, sort key) to an
    item: `usuario_id` with `playlist_id` in the Playlists table, `usuario_id` with `album_id`
    in the UserFavoriteAlbums table. */
module Store {
  import opened Wrappers

  /** (partition key `usuario_id`, sort key). */
  type Key = (string, string)

  /** `GetCommand`: the item under a key, if any. */
  function Lookup<V>(m: map<Key, V>, k: Key): (r: Option<V>)
    ensures r.Some? <==> k in m
    ensures r.Some? ==> r.value == m[k]
  {
    if k in m then Some(m[k]) else None
  }

  /** `QueryCommand` with `usuario_id = :uid`: every key of that user, each once. */
  method QueryKeys<V>(m: map<Key, V>, uid: string) returns (keys: seq<Key>)
    ensures forall i :: 0 <= i < |keys| ==> keys[i] in m && keys[i].0 == uid
    ensures forall k :: k in m && k.0 == uid ==> k in keys
    ensures forall i, j :: 0 <= i < j < |keys| ==> keys[i] != keys[j]
  {
    keys := [];
    var rest := m.Keys;
    while rest != {}
      invariant rest <= m.Keys
      invariant forall i :: 0 <= i < |keys| ==> keys[i] in m && keys[i].0 == uid && keys[i] !in rest
      invariant forall k :: k in m && k.0 == uid && k !in rest ==> k in keys
      invariant forall i, j :: 0 <= i < j < |keys| ==> keys[i] != keys[j]
      decreases rest
    {
      var k :| k in rest;
      if k.0 == uid {
        keys := keys + [k];
      }
      rest := rest - {k};
    }
  }
}
