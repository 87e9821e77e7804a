/**
 * Listing the keys of a `HashMap` into a `Vec`: both `Home` types do this
 * in `room_list`/`rooms_list` and `device_list`/`devices_list`. Hash-map
 * iteration order is unspecified, so the loop picks the next key
 * arbitrarily; the contract says only which keys come out, and once each.
 */
module Keys {

  predicate Distinct<K(==)>(s: seq<K>)
  {
    forall i, j :: 0 <= i < j < |s| ==> s[i] != s[j]
  }

  method KeyList<V>(m: map<string, V>) returns (r: seq<string>)
    ensures |r| == |m|
    ensures forall k :: k in r <==> k in m
    ensures Distinct(r)
  {
    r := [];
    var rest := m.Keys;
    while rest != {}
      invariant rest <= m.Keys
      invariant forall k :: k in r <==> k in m && k !in rest
      invariant Distinct(r)
      invariant |r| + |rest| == |m|
      decreases |rest|
    {
      var k :| k in rest;
      r := r + [k];
      rest := rest - {k};
    }
  }
}
