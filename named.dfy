/** The builder's named collections (`_preLoaders`, `_loaders`, `_postLoaders`,
    `_plugins`): JavaScript objects keyed by a user-chosen name, which
    `for (name in map)` visits in the order the names were first added. */
module NamedMaps {
  import opened Wrappers

  /** `names` lists the keys in first-insertion order; `entries` holds the
      value stored under each. */
  datatype Named<V> = Named(names: seq<string>, entries: map<string, V>)
  {
    /** Each name is listed once, and exactly the stored names are listed. */
    ghost predicate Valid()
    {
      && (forall i, j :: 0 <= i < j < |names| ==> names[i] != names[j])
      && (forall n :: n in entries <==> n in names)
    }

    /** `!Object.keys(map).length` */
    predicate IsEmpty()
    {
      |names| == 0
    }

    /** `map[name]`, `undefined` when the name was never registered. */
    function Get(name: string): Option<V>
    {
      if name in entries then Some(entries[name]) else None
    }

    /** `map[name] = value`: a new name goes to the end of the order, an
        existing one keeps its place; no other name changes. */
    function Put(name: string, value: V): (r: Named<V>)
      requires Valid()
      ensures r.Valid()
      ensures r.Get(name) == Some(value)
      ensures forall other :: other != name ==> r.Get(other) == Get(other)
      ensures r.names == if name in entries then names else names + [name]
    {
      if name in entries then Named(names, entries[name := value])
      else Named(names + [name], entries[name := value])
    }
  }

  /** `{}` */
  function Empty<V>(): (r: Named<V>)
    ensures r.Valid() && r.IsEmpty()
  {
    Named([], map[])
  }

  /** A valid collection is empty exactly when it stores nothing. */
  lemma EmptyMeansNoEntries<V>(d: Named<V>)
    requires d.Valid()
    ensures d.IsEmpty() <==> d.entries == map[]
  {
    if !d.IsEmpty() {
      assert d.names[0] in d.names;
    }
  }
}
