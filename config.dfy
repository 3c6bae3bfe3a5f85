/** index.js: the `Config` builder. It keeps a base document, three named
    loader collections and a named plugin collection, and `resolve` assembles
    them into one webpack configuration without changing the builder. */
module Builder {
  import opened Wrappers
  import opened Errors
  import opened Json
  import opened NamedMaps

  /** A plugin registered with `Config.plugin`: `{constructor, parameters}`.
      A successful registration always leaves `parameters` set. */
  datatype Declaration = Declaration(ctor: Option<Value>, parameters: Slots)

  /** The modules `index.js` requires that are not part of this model:
      `lib/mergeLoader`, `lib/resolve/loader` and `lib/resolve/plugin`. They
      are taken to be pure; `mergeLoader` may throw, while `resolveLoader`
      and `resolvePlugin` are taken never to throw. */
  datatype Helpers = Helpers(
    mergeLoader: (Option<Value>, string, seq<Arg>) -> Result<Value, Error>,
    resolveLoader: (string, Value) -> Value,
    resolvePlugin: (string, Declaration) -> Value)

  /** The argument of `Config.merge`: an object to merge in, or a function from
      (a clone of) the current document to its replacement. */
  datatype DocPatch = Fields(patch: map<string, Value>) | Rebuild(f: map<string, Value> -> map<string, Value>)

  // ---------------------------------------------------------------------------
  // plugin

  /** The parameters already registered, or `[]` for a new name. */
  function Existing(current: Option<Declaration>): Slots
  {
    if current.Some? then current.value.parameters else []
  }

  /** The body of `Config.plugin` up to the final store: the declaration it
      builds from a clone of the current one, or the reason it throws. */
  function UpdateDeclaration(current: Option<Declaration>, ctor: Value, parameters: Arg): (r: Result<Declaration, Error>)
    ensures parameters.Val? && !parameters.v.Arr? ==> r == Err(ParametersNotListOrUpdater)
    ensures parameters.Updater? && !parameters.f(Arr(Existing(current))).Arr? ==> r == Err(UpdaterNotList)
    ensures parameters.Val? && parameters.v.Arr? ==>
      r.Ok? && r.value.parameters == Existing(current) + parameters.v.slots
    ensures parameters.Updater? && parameters.f(Arr(Existing(current))).Arr? ==>
      r.Ok? && r.value.parameters == parameters.f(Arr(Existing(current))).slots
    ensures r.Ok? && Truthy(ctor) ==> r.value.ctor == Some(ctor)
    ensures r.Ok? && Falsy(ctor) ==> r.value.ctor == if current.Some? then current.value.ctor else None
  {
    var previous := if current.Some? then current.value.ctor else None;
    var resolved :=
      if parameters.Updater? then
        var made := parameters.f(Arr(Existing(current)));
        if made.Arr? then Ok(made.slots) else Err(UpdaterNotList)
      else if parameters.v.Arr? then
        Ok(Merge(Arr(Existing(current)), parameters.v, Concat).slots)
      else Err(ParametersNotListOrUpdater);
    if resolved.Err? then Err(resolved.error)
    else Ok(Declaration(if Truthy(ctor) then Some(ctor) else previous, resolved.value))
  }

  /** Registering a name twice with literal parameter lists accumulates them in
      order, and a falsy second constructor keeps the first one. */
  lemma ReRegistrationAccumulates(ctor: Value, first: Slots, second: Slots, noCtor: Value)
    requires Truthy(ctor) && Falsy(noCtor)
    ensures UpdateDeclaration(None, ctor, Val(Arr(first))).Ok?
    ensures var d := UpdateDeclaration(None, ctor, Val(Arr(first))).value;
      UpdateDeclaration(Some(d), noCtor, Val(Arr(second))) == Ok(Declaration(Some(ctor), first + second))
  {
    assert [] + first == first;
  }

  // ---------------------------------------------------------------------------
  // resolve

  /** One resolved entry per registered name, in registration order. */
  ghost function ResolvedList<V>(d: Named<V>, f: (string, V) -> Value): (r: Slots)
    requires d.Valid()
  {
    seq(|d.names|, i requires 0 <= i < |d.names| =>
      assert d.names[i] in d.names; Some(f(d.names[i], d.entries[d.names[i]])))
  }

  /** `for (var name in map) list.push(f(name, map[name]))` */
  method ResolveAll<V>(d: Named<V>, f: (string, V) -> Value) returns (list: Slots)
    requires d.Valid()
    ensures |list| == |d.names|
    ensures forall i :: 0 <= i < |list| ==>
      d.names[i] in d.entries && list[i] == Some(f(d.names[i], d.entries[d.names[i]]))
    ensures list == ResolvedList(d, f)
  {
    list := [];
    var i := 0;
    while i < |d.names|
      invariant 0 <= i <= |d.names|
      invariant |list| == i
      invariant forall j :: 0 <= j < i ==>
        d.names[j] in d.entries && list[j] == Some(f(d.names[j], d.entries[d.names[j]]))
    {
      var name := d.names[i];
      assert name in d.names;
      list := list + [Some(f(name, d.entries[name]))];
      i := i + 1;
    }
  }

  /** Lines 122-126 of `resolve` for one non-empty collection:
      `config.module = config.module || {}` and then a merge (arrays
      concatenated) of `{[property]: list}` into it. A truthy `module` that is
      not an object is left as it is. */
  function WithLoaders(config: map<string, Value>, property: string, list: Slots): (r: map<string, Value>)
    ensures r.Keys == config.Keys + {"module"}
    ensures forall k :: k in config && k != "module" ==> r[k] == config[k]
    ensures ModuleMergeable(config) ==> r["module"].Obj? && property in r["module"].fields
  {
    var base := if "module" in config && Truthy(config["module"]) then config["module"] else Obj(map[]);
    config["module" := if base.Obj? then Merge(base, Obj(map[property := Arr(list)]), Concat) else base]
  }

  /** The collections in the order `resolve` visits them, with the key each
      goes under in `module`. */
  type Section = (string, Named<Value>)

  ghost predicate SectionsValid(sections: seq<Section>)
  {
    forall i :: 0 <= i < |sections| ==> sections[i].1.Valid()
  }

  /** The loop over the loader collections: an empty collection is skipped. */
  ghost function AddSections(config: map<string, Value>, sections: seq<Section>, f: (string, Value) -> Value): (r: map<string, Value>)
    requires SectionsValid(sections)
    ensures forall k :: k != "module" ==> (k in r <==> k in config) && (k in config ==> r[k] == config[k])
  {
    if |sections| == 0 then config
    else
      var before := AddSections(config, sections[..|sections| - 1], f);
      var last := sections[|sections| - 1];
      if last.1.IsEmpty() then before else WithLoaders(before, last.0, ResolvedList(last.1, f))
  }

  /** The whole of `resolve`, on the builder's state. */
  ghost function Resolved(document: map<string, Value>, sections: seq<Section>, plugins: Named<Declaration>, h: Helpers): (r: Result<map<string, Value>, Error>)
    requires SectionsValid(sections) && plugins.Valid()
    ensures r.Err? ==> r.error == PluginsNotList && !plugins.IsEmpty()
    ensures r.Ok? ==> forall k :: k != "module" && k != "plugins" ==>
      (k in r.value <==> k in document) && (k in document ==> r.value[k] == document[k])
  {
    var config := AddSections(document, sections, h.resolveLoader);
    var list := ResolvedList(plugins, h.resolvePlugin);
    if |list| == 0 then Ok(config)
    else
      var existing := if "plugins" in config && Truthy(config["plugins"]) then config["plugins"] else Arr([]);
      if existing.Arr? then Ok(config["plugins" := Arr(existing.slots + list)]) else Err(PluginsNotList)
  }

  /** The entry under `module[property]`, if `module` is an object holding one. */
  function ModuleEntry(config: map<string, Value>, property: string): Option<Value>
  {
    if "module" in config && config["module"].Obj? && property in config["module"].fields
    then Some(config["module"].fields[property])
    else None
  }

  /** `module` is absent, falsy or an object: what `resolve` can merge into. */
  predicate ModuleMergeable(config: map<string, Value>)
  {
    "module" !in config || Falsy(config["module"]) || config["module"].Obj?
  }

  /** What `module[property]` holds after the collection `d` is resolved onto
      a previous entry `previous`. */
  ghost function Expected(previous: Option<Value>, d: Named<Value>, f: (string, Value) -> Value): Option<Value>
    requires d.Valid()
  {
    if d.IsEmpty() then previous
    else Some(Arr(if previous.Some? && previous.value.Arr? then previous.value.slots + ResolvedList(d, f) else ResolvedList(d, f)))
  }

  /** One collection resolved onto the document: only `module[property]`
      changes, and it gains the list after whatever array it held. */
  lemma WithLoadersEffect(config: map<string, Value>, property: string, list: Slots)
    requires ModuleMergeable(config)
    ensures var out := WithLoaders(config, property, list);
      && "module" in out && out["module"].Obj?
      && ModuleEntry(out, property) ==
           Some(Arr(if ModuleEntry(config, property).Some? && ModuleEntry(config, property).value.Arr?
                    then ModuleEntry(config, property).value.slots + list else list))
      && (forall p :: p != property ==> ModuleEntry(out, p) == ModuleEntry(config, p))
      && (forall k :: k != "module" ==> (k in out <==> k in config) && (k in config ==> out[k] == config[k]))
  {
    var base := if "module" in config && Truthy(config["module"]) then config["module"] else Obj(map[]);
    var source := Obj(map[property := Arr(list)]);
    var fields := MergeFields(base.fields, source, Concat);
    assert WithLoaders(config, property, list)["module"] == Obj(fields);
    if property in base.fields {
      var existing := base.fields[property];
      assert fields[property] == Merge(existing, Arr(list), Concat);
      if existing.Arr? {
        assert fields[property] == Arr(existing.slots + list);
      }
    }
  }

  /** The loader loop keeps `module` mergeable and touches no other key. */
  lemma {:induction false} AddSectionsKeepsOthers(config: map<string, Value>, sections: seq<Section>, f: (string, Value) -> Value)
    requires ModuleMergeable(config) && SectionsValid(sections)
    ensures var out := AddSections(config, sections, f);
      && ModuleMergeable(out)
      && (forall k :: k != "module" ==> (k in out <==> k in config) && (k in config ==> out[k] == config[k]))
    decreases |sections|
  {
    if |sections| > 0 {
      var n := |sections| - 1;
      var init := sections[..n];
      assert SectionsValid(init);
      AddSectionsKeepsOthers(config, init, f);
      if !sections[n].1.IsEmpty() {
        WithLoadersEffect(AddSections(config, init, f), sections[n].0, ResolvedList(sections[n].1, f));
      }
    }
  }

  /** When every collection is empty the loader loop returns the document as
      it was: no `module` is created. */
  lemma {:induction false} AddSectionsAllEmpty(config: map<string, Value>, sections: seq<Section>, f: (string, Value) -> Value)
    requires SectionsValid(sections)
    requires forall i :: 0 <= i < |sections| ==> sections[i].1.IsEmpty()
    ensures AddSections(config, sections, f) == config
    decreases |sections|
  {
    if |sections| > 0 {
      var n := |sections| - 1;
      assert SectionsValid(sections[..n]);
      AddSectionsAllEmpty(config, sections[..n], f);
    }
  }

  /** An entry of `module` that no collection is resolved under keeps its
      value. */
  lemma {:induction false} AddSectionsElsewhere(config: map<string, Value>, sections: seq<Section>, f: (string, Value) -> Value, p: string)
    requires ModuleMergeable(config) && SectionsValid(sections)
    requires forall i :: 0 <= i < |sections| ==> sections[i].0 != p
    ensures ModuleEntry(AddSections(config, sections, f), p) == ModuleEntry(config, p)
    decreases |sections|
  {
    if |sections| > 0 {
      var n := |sections| - 1;
      var init := sections[..n];
      assert SectionsValid(init);
      AddSectionsKeepsOthers(config, init, f);
      AddSectionsElsewhere(config, init, f, p);
      if !sections[n].1.IsEmpty() {
        WithLoadersEffect(AddSections(config, init, f), sections[n].0, ResolvedList(sections[n].1, f));
      }
    }
  }

  /** Each collection ends up under its own key of `module`, after any array
      already there, and an empty collection adds nothing. */
  lemma {:induction false} AddSectionsEntries(config: map<string, Value>, sections: seq<Section>, f: (string, Value) -> Value)
    requires ModuleMergeable(config) && SectionsValid(sections)
    requires forall i, j :: 0 <= i < j < |sections| ==> sections[i].0 != sections[j].0
    ensures forall i :: 0 <= i < |sections| ==>
      ModuleEntry(AddSections(config, sections, f), sections[i].0) ==
      Expected(ModuleEntry(config, sections[i].0), sections[i].1, f)
    decreases |sections|
  {
    if |sections| > 0 {
      var n := |sections| - 1;
      var init, last := sections[..n], sections[n];
      assert SectionsValid(init);
      AddSectionsEntries(config, init, f);
      AddSectionsKeepsOthers(config, init, f);
      AddSectionsElsewhere(config, init, f, last.0);
      var before := AddSections(config, init, f);
      if !last.1.IsEmpty() {
        WithLoadersEffect(before, last.0, ResolvedList(last.1, f));
      }
      forall i | 0 <= i < n
        ensures ModuleEntry(AddSections(config, sections, f), sections[i].0) ==
                Expected(ModuleEntry(config, sections[i].0), sections[i].1, f)
      {
        assert init[i] == sections[i];
      }
    }
  }

  /** The plugin step of `resolve`: with no plugins the document's `plugins`
      entry is untouched; otherwise the resolved plugins, one per name in
      registration order, are appended after the array already there (or
      after nothing), and a truthy non-array entry makes the call throw. */
  lemma ResolvedPlugins(document: map<string, Value>, sections: seq<Section>, plugins: Named<Declaration>, h: Helpers)
    requires SectionsValid(sections) && plugins.Valid()
    ensures var r := Resolved(document, sections, plugins, h);
      && (plugins.IsEmpty() ==>
            && r.Ok?
            && ("plugins" in r.value <==> "plugins" in document)
            && ("plugins" in document ==> r.value["plugins"] == document["plugins"]))
      && (!plugins.IsEmpty() ==>
            var existing := if "plugins" in document && Truthy(document["plugins"]) then document["plugins"] else Arr([]);
            && (r.Ok? <==> existing.Arr?)
            && (r.Ok? ==> r.value["plugins"] == Arr(existing.slots + ResolvedList(plugins, h.resolvePlugin))))
  {
  }

  /** The loader part of `resolve`, as seen in its result: every entry of
      `module` is as `AddSectionsEntries` describes, and apart from `module`
      and `plugins` the result has exactly the document's keys and values. */
  lemma ResolvedLoaders(document: map<string, Value>, sections: seq<Section>, plugins: Named<Declaration>, h: Helpers)
    requires ModuleMergeable(document) && SectionsValid(sections) && plugins.Valid()
    requires forall i, j :: 0 <= i < j < |sections| ==> sections[i].0 != sections[j].0
    ensures var r := Resolved(document, sections, plugins, h);
      r.Ok? ==>
        && (forall i :: 0 <= i < |sections| ==>
              ModuleEntry(r.value, sections[i].0) ==
              Expected(ModuleEntry(document, sections[i].0), sections[i].1, h.resolveLoader))
        && ((forall i :: 0 <= i < |sections| ==> sections[i].1.IsEmpty()) ==>
              ("module" in r.value <==> "module" in document))
        && (forall k :: k != "module" && k != "plugins" ==>
              (k in r.value <==> k in document) && (k in document ==> r.value[k] == document[k]))
  {
    AddSectionsKeepsOthers(document, sections, h.resolveLoader);
    AddSectionsEntries(document, sections, h.resolveLoader);
    if forall i :: 0 <= i < |sections| ==> sections[i].1.IsEmpty() {
      AddSectionsAllEmpty(document, sections, h.resolveLoader);
    }
    var r := Resolved(document, sections, plugins, h);
    if r.Ok? {
      forall i | 0 <= i < |sections|
        ensures ModuleEntry(r.value, sections[i].0) ==
                Expected(ModuleEntry(document, sections[i].0), sections[i].1, h.resolveLoader)
      {
        var out := AddSections(document, sections, h.resolveLoader);
        assert r.value == out || r.value == out["plugins" := r.value["plugins"]];
      }
    }
  }

  // ---------------------------------------------------------------------------
  // the builder

  class Config {
    const helpers: Helpers
    /** `_config` */
    var document: map<string, Value>
    /** `_preLoaders`, `_loaders`, `_postLoaders` */
    var preLoaders: Named<Value>
    var loaders: Named<Value>
    var postLoaders: Named<Value>
    /** `_plugins` */
    var plugins: Named<Declaration>

    ghost predicate Valid()
      reads this
    {
      preLoaders.Valid() && loaders.Valid() && postLoaders.Valid() && plugins.Valid()
    }

    /** The loader collections in the order `resolve` visits them. */
    function Sections(): (s: seq<Section>)
      reads this
      ensures Valid() ==> SectionsValid(s)
      ensures forall i, j :: 0 <= i < j < |s| ==> s[i].0 != s[j].0
    {
      [("preLoaders", preLoaders), ("loaders", loaders), ("postLoaders", postLoaders)]
    }

    /** `new Config()`: everything empty. */
    constructor (helpers: Helpers)
      ensures Valid() && this.helpers == helpers
      ensures document == map[]
      ensures preLoaders.IsEmpty() && loaders.IsEmpty() && postLoaders.IsEmpty() && plugins.IsEmpty()
    {
      this.helpers := helpers;
      document := map[];
      preLoaders, loaders, postLoaders := Empty(), Empty(), Empty();
      plugins := Empty();
    }

    /** `merge(config)`: a function replaces the document with its result on a
        clone of the document; an object is merged in, arrays concatenated. */
    method Merge(patch: DocPatch)
      requires Valid()
      modifies this
      ensures Valid()
      ensures patch.Fields? ==> document == MergeFields(old(document), Obj(patch.patch), Concat)
      ensures patch.Rebuild? ==> document == patch.f(old(document))
      ensures preLoaders == old(preLoaders) && loaders == old(loaders) && postLoaders == old(postLoaders)
      ensures plugins == old(plugins)
    {
      match patch
      case Rebuild(f) =>
        document := f(document);
      case Fields(m) =>
        document := MergeFields(document, Obj(m), Concat);
    }

    /** `preLoader(name, ...)`: the value `mergeLoader` computes from the
        current entry replaces the entry `name` of `_preLoaders` only. */
    method PreLoader(name: string, args: seq<Arg>) returns (r: Outcome<Error>)
      requires Valid()
      modifies this
      ensures Valid()
      ensures var merged := helpers.mergeLoader(old(preLoaders).Get(name), name, args);
        && (merged.Err? ==> r == Fail(merged.error) && preLoaders == old(preLoaders))
        && (merged.Ok? ==> r == Pass && preLoaders == old(preLoaders).Put(name, merged.value))
      ensures document == old(document) && loaders == old(loaders) && postLoaders == old(postLoaders)
      ensures plugins == old(plugins)
    {
      var merged := helpers.mergeLoader(preLoaders.Get(name), name, args);
      if merged.Err? {
        return Fail(merged.error);
      }
      preLoaders := preLoaders.Put(name, merged.value);
      return Pass;
    }

    /** `loader(name, ...)`: as `preLoader`, on `_loaders`. */
    method Loader(name: string, args: seq<Arg>) returns (r: Outcome<Error>)
      requires Valid()
      modifies this
      ensures Valid()
      ensures var merged := helpers.mergeLoader(old(loaders).Get(name), name, args);
        && (merged.Err? ==> r == Fail(merged.error) && loaders == old(loaders))
        && (merged.Ok? ==> r == Pass && loaders == old(loaders).Put(name, merged.value))
      ensures document == old(document) && preLoaders == old(preLoaders) && postLoaders == old(postLoaders)
      ensures plugins == old(plugins)
    {
      var merged := helpers.mergeLoader(loaders.Get(name), name, args);
      if merged.Err? {
        return Fail(merged.error);
      }
      loaders := loaders.Put(name, merged.value);
      return Pass;
    }

    /** `postLoader(name, ...)`: as `preLoader`, on `_postLoaders`. */
    method PostLoader(name: string, args: seq<Arg>) returns (r: Outcome<Error>)
      requires Valid()
      modifies this
      ensures Valid()
      ensures var merged := helpers.mergeLoader(old(postLoaders).Get(name), name, args);
        && (merged.Err? ==> r == Fail(merged.error) && postLoaders == old(postLoaders))
        && (merged.Ok? ==> r == Pass && postLoaders == old(postLoaders).Put(name, merged.value))
      ensures document == old(document) && preLoaders == old(preLoaders) && loaders == old(loaders)
      ensures plugins == old(plugins)
    {
      var merged := helpers.mergeLoader(postLoaders.Get(name), name, args);
      if merged.Err? {
        return Fail(merged.error);
      }
      postLoaders := postLoaders.Put(name, merged.value);
      return Pass;
    }

    /** `plugin(name, constructor, parameters)`: builds the new declaration on
        a clone and stores it under `name` only at the end, so a throw leaves
        `_plugins` as it was. */
    method Plugin(name: string, ctor: Value, parameters: Arg) returns (r: Outcome<Error>)
      requires Valid()
      modifies this
      ensures Valid()
      ensures var updated := UpdateDeclaration(old(plugins).Get(name), ctor, parameters);
        && (updated.Err? ==> r == Fail(updated.error) && plugins == old(plugins))
        && (updated.Ok? ==> r == Pass && plugins == old(plugins).Put(name, updated.value))
      ensures document == old(document) && preLoaders == old(preLoaders) && loaders == old(loaders)
      ensures postLoaders == old(postLoaders)
    {
      var updated := UpdateDeclaration(plugins.Get(name), ctor, parameters);
      if updated.Err? {
        return Fail(updated.error);
      }
      plugins := plugins.Put(name, updated.value);
      return Pass;
    }

    /** `resolve()`: works on a clone of the document and changes nothing in
        the builder, so calls with no change in between give equal results. */
    method Resolve() returns (r: Result<map<string, Value>, Error>)
      requires Valid()
      ensures r == Resolved(document, Sections(), plugins, helpers)
    {
      var config := document;
      var sections := Sections();
      var j := 0;
      while j < |sections|
        invariant 0 <= j <= |sections|
        invariant config == AddSections(document, sections[..j], helpers.resolveLoader)
      {
        var property := sections[j].0;
        var collection := sections[j].1;
        assert sections[..j + 1][..j] == sections[..j];
        if !collection.IsEmpty() {
          var list := ResolveAll(collection, helpers.resolveLoader);
          config := WithLoaders(config, property, list);
        }
        j := j + 1;
      }
      assert sections[..j] == sections;
      var list := ResolveAll(plugins, helpers.resolvePlugin);
      if |list| > 0 {
        var existing := if "plugins" in config && Truthy(config["plugins"]) then config["plugins"] else Arr([]);
        if !existing.Arr? {
          return Err(PluginsNotList);
        }
        config := config["plugins" := Arr(existing.slots + list)];
      }
      return Ok(config);
    }
  }
}
