/** Maps given by a set of keys and a function. */
module Maps {

  ghost function MapOf<V>(keys: set<string>, f: string -> V): (m: map<string, V>)
    ensures m.Keys == keys
    ensures forall k :: k in keys ==> m[k] == f(k)
  {
    if keys == {} then map[]
    else
      var k :| k in keys;
      MapOf(keys - {k}, f)[k := f(k)]
  }
}
