/** lib/plugin.js: a plugin declaration `{plugin, parameters}` held in closure
    state, whose positional `parameters` array is patched by `merge` (recursive,
    slot by slot) and `set` (slots replaced whole). */
module PluginDecl {
  import opened Wrappers
  import opened Errors
  import opened Json
  import opened Indices

  // ---------------------------------------------------------------------------
  // validate

  /** The shape `validate` accepts once the input is known to be an object:
      `plugin`, when defined, is a function, and `parameters`, when defined, is
      an array. */
  predicate WellShaped(m: map<string, Value>)
  {
    && (Defined(m, "plugin") ==> m["plugin"].Fn?)
    && (Defined(m, "parameters") ==> m["parameters"].Arr?)
  }

  /** `validate`: rejects a non-object, a defined non-function `plugin` and a
      defined non-array `parameters`, in that order; otherwise returns the
      input unchanged. */
  function Validate(input: Value): (r: Result<Value, Error>)
    ensures r.Ok? <==> input.Obj? && WellShaped(input.fields)
    ensures r.Ok? ==> r.value == input
    ensures !input.Obj? ==> r == Err(NotAnObject)
    ensures input.Obj? && Defined(input.fields, "plugin") && !input.fields["plugin"].Fn? ==>
      r == Err(PluginNotFunction)
    ensures input.Obj? && !(Defined(input.fields, "plugin") && !input.fields["plugin"].Fn?) && !WellShaped(input.fields) ==>
      r == Err(ParametersNotArray)
  {
    if !input.Obj? then Err(NotAnObject)
    else if Defined(input.fields, "plugin") && !input.fields["plugin"].Fn? then Err(PluginNotFunction)
    else if Defined(input.fields, "parameters") && !input.fields["parameters"].Arr? then Err(ParametersNotArray)
    else Ok(input)
  }

  /** `config.parameters`: the stored array, or `undefined`. */
  function Params(config: map<string, Value>): Value
  {
    if "parameters" in config then config["parameters"] else Prim(Undefined)
  }

  // ---------------------------------------------------------------------------
  // sparseArray

  predicate AllIndexKeys(o: map<string, Value>)
  {
    forall k :: k in o ==> IsIndexKey(k)
  }

  function Lookup(o: map<string, Value>, k: string): Option<Value>
  {
    if k in o then Some(o[k]) else None
  }

  /** `r` is the array `sparseArray(o)` builds: position i holds `o[i]` when
      `o` has that key and is a hole otherwise, and the length is one past the
      largest key. */
  ghost predicate IsSparseOf(r: Slots, o: map<string, Value>)
  {
    && (forall i :: 0 <= i < |r| ==> r[i] == Lookup(o, KeyOf(i)))
    && (forall k :: k in o ==> IsIndexKey(k) && ParseIndex(k).value < |r|)
    && (|r| == 0 || r[|r| - 1].Some?)
  }

  /** One past the largest position named by a key of `o`. */
  ghost function Width(o: map<string, Value>): (w: nat)
    requires AllIndexKeys(o)
    ensures forall k :: k in o ==> ParseIndex(k).value < w
    ensures w > 0 ==> KeyOf(w - 1) in o
    decreases |o|
  {
    if o == map[] then 0
    else
      var k :| k in o;
      var rest := o - {k};
      assert rest.Keys == o.Keys - {k};
      var n := ParseIndex(k).value;
      var w := Width(rest);
      KeyOfParse(k);
      if w < n + 1 then n + 1 else w
  }

  /** The array `sparseArray(o)` returns when every key is an integer. */
  ghost function SparseOf(o: map<string, Value>): (r: Slots)
    requires AllIndexKeys(o)
    ensures IsSparseOf(r, o)
  {
    seq(Width(o), i requires 0 <= i => Lookup(o, KeyOf(i)))
  }

  /** The sparse array of an object is unique. */
  lemma SparseUnique(r1: Slots, r2: Slots, o: map<string, Value>)
    requires IsSparseOf(r1, o) && IsSparseOf(r2, o)
    ensures r1 == r2
  {
    if |r2| > 0 {
      ParseKeyOf(|r2| - 1);
      assert KeyOf(|r2| - 1) in o;
    }
    if |r1| > 0 {
      ParseKeyOf(|r1| - 1);
      assert KeyOf(|r1| - 1) in o;
    }
  }

  /** `array[n] = v` on a JavaScript array, for positions without JavaScript's
      2^32 - 2 bound on array indices: position n holds v, the array grows
      to n + 1 with holes when it was shorter, and no other position changes. */
  function Place(a: Slots, n: nat, v: Value): (r: Slots)
    ensures |r| == Max(|a|, n + 1) && r[n] == Some(v)
    ensures forall i :: 0 <= i < |r| && i != n ==> r[i] == if i < |a| then a[i] else None
  {
    if n < |a| then a[n := Some(v)] else a + seq(n - |a|, _ => None) + [Some(v)]
  }

  /** Adding one more key to the sparse array of part of an object. */
  lemma PlaceExtends(a: Slots, part: map<string, Value>, key: string, v: Value)
    requires IsSparseOf(a, part) && key !in part && IsIndexKey(key)
    ensures IsSparseOf(Place(a, ParseIndex(key).value, v), part[key := v])
  {
    var n := ParseIndex(key).value;
    var r := Place(a, n, v);
    var whole := part[key := v];
    KeyOfParse(key);
    forall i | 0 <= i < |r|
      ensures r[i] == Lookup(whole, KeyOf(i))
    {
      ParseKeyOf(i);
    }
  }

  function Restrict(o: map<string, Value>, keys: set<string>): map<string, Value>
  {
    map k | k in o && k in keys :: o[k]
  }

  /** `sparseArray`: a reduce over the keys of `o` that places each value at the
      position its key names, throwing at the first key that is not an
      integer. The result does not depend on the order of the keys. */
  method SparseArray(o: map<string, Value>) returns (r: Result<Slots, Error>)
    ensures r.Err? <==> !AllIndexKeys(o)
    ensures r.Err? ==> r.error == NonIntegerKey
    ensures r.Ok? ==> IsSparseOf(r.value, o)
  {
    var built: Slots := [];
    var todo := o.Keys;
    while todo != {}
      invariant todo <= o.Keys
      invariant AllIndexKeys(Restrict(o, o.Keys - todo))
      invariant IsSparseOf(built, Restrict(o, o.Keys - todo))
      decreases todo
    {
      var key :| key in todo;
      var index := ParseIndex(key);
      if index.None? {
        return Err(NonIntegerKey);
      }
      PlaceExtends(built, Restrict(o, o.Keys - todo), key, o[key]);
      assert Restrict(o, o.Keys - (todo - {key})) == Restrict(o, o.Keys - todo)[key := o[key]];
      built := Place(built, index.value, o[key]);
      todo := todo - {key};
    }
    assert Restrict(o, o.Keys - todo) == o;
    return Ok(built);
  }

  // ---------------------------------------------------------------------------
  // merge / set: resolving the arguments into a sparse patch

  /** `Utils.isInteger(index, true)`, taken to accept integral numbers that are
      not negative. */
  function AsIndex(a: Arg): Option<nat>
  {
    if a.Val? && a.v.Prim? && a.v.scalar.Int? && a.v.scalar.i >= 0 then Some(a.v.scalar.i) else None
  }

  /** `Utils.isDefined(index)` */
  predicate IsDefinedArg(a: Arg)
  {
    !(a.Val? && a.v == Prim(Undefined))
  }

  /** `changes`, or `changes(config.parameters, plugin)` when it is a function. */
  function Apply(changes: Arg, params: Value): Value
  {
    match changes
    case Val(v) => v
    case Updater(f) => f(params)
  }

  /** The patch the private `merge(plugin, config, changes, index)` and
      `set(...)` compute before touching `parameters`. */
  ghost function Source(params: Value, changes: Arg, index: Option<Arg>): (r: Result<Slots, Error>)
    ensures r.Err? ==> r.error in {BadIndex, NonIntegerKey, BadChanges}
    ensures r == Err(BadIndex) <==> index.Some? && IsDefinedArg(index.value) && AsIndex(index.value).None?
    ensures (index.None? || !IsDefinedArg(index.value)) ==>
      (r.Ok? <==> Apply(changes, params).Arr? || (Apply(changes, params).Obj? && AllIndexKeys(Apply(changes, params).fields)))
  {
    var source := Apply(changes, params);
    var indexed := index.Some? && IsDefinedArg(index.value);
    if indexed && AsIndex(index.value).None? then Err(BadIndex)
    else
      var wrapped := if indexed then Obj(map[KeyOf(AsIndex(index.value).value) := source]) else source;
      if wrapped.Obj? then
        if AllIndexKeys(wrapped.fields) then Ok(SparseOf(wrapped.fields)) else Err(NonIntegerKey)
      else if wrapped.Arr? then Ok(wrapped.slots)
      else Err(BadChanges)
  }

  /** The public `merge(index, changes)` / `set(index, changes)` dispatch on
      the number of arguments: none throws, one is `changes` alone, two or more
      are `index` then `changes` (the rest ignored). */
  ghost function Patch(params: Value, args: seq<Arg>): (r: Result<Slots, Error>)
    ensures r == Err(MissingChanges) <==> |args| == 0
    ensures |args| > 2 ==> r == Patch(params, args[..2])
  {
    if |args| == 0 then Err(MissingChanges)
    else if |args| == 1 then Source(params, args[0], None)
    else Source(params, args[1], Some(args[0]))
  }

  /** The call names no position: one argument, or an undefined index. */
  predicate Unindexed(args: seq<Arg>)
  {
    |args| == 1 || (|args| >= 2 && !IsDefinedArg(args[0]))
  }

  /** The `changes` argument of a call with at least one argument. */
  function ChangesOf(args: seq<Arg>): Arg
    requires |args| > 0
  {
    if |args| == 1 then args[0] else args[1]
  }

  /** A valid index yields a patch that fills exactly that one slot with the
      (resolved) changes, whatever they are. */
  lemma IndexedPatchAddressesOneSlot(params: Value, args: seq<Arg>, n: nat)
    requires |args| >= 2 && AsIndex(args[0]) == Some(n)
    ensures Patch(params, args).Ok?
    ensures |Patch(params, args).value| == n + 1
    ensures Patch(params, args).value[n] == Some(Apply(args[1], params))
    ensures forall i :: 0 <= i < n ==> Patch(params, args).value[i] == None
  {
    var v := Apply(args[1], params);
    var o := map[KeyOf(n) := v];
    ParseKeyOf(n);
    assert AllIndexKeys(o);
    var single := seq(n, _ => None) + [Some(v)];
    forall i | 0 <= i < |single|
      ensures single[i] == Lookup(o, KeyOf(i))
    {
      if KeyOf(i) == KeyOf(n) {
        KeyOfInjective(i, n);
      }
    }
    assert IsSparseOf(single, o);
    SparseUnique(single, SparseOf(o), o);
  }

  /** Lines shared by the private `merge` and `set`, behind the public arity
      dispatch: call a function `changes`, wrap under a given index, turn an
      object into a sparse array, and reject anything that is not an array,
      all before `parameters` is written. */
  method ResolveChanges(params: Value, args: seq<Arg>) returns (r: Result<Slots, Error>)
    ensures r == Patch(params, args)
    ensures |args| == 0 ==> r == Err(MissingChanges)
    ensures |args| >= 2 && IsDefinedArg(args[0]) && AsIndex(args[0]).None? ==> r == Err(BadIndex)
    ensures |args| >= 2 && AsIndex(args[0]).Some? ==>
      var n := AsIndex(args[0]).value;
      && r.Ok? && |r.value| == n + 1 && r.value[n] == Some(Apply(args[1], params))
      && forall i :: 0 <= i < n ==> r.value[i] == None
    ensures Unindexed(args) ==>
      var source := Apply(ChangesOf(args), params);
      && (source.Arr? ==> r == Ok(source.slots))
      && (source.Obj? && !AllIndexKeys(source.fields) ==> r == Err(NonIntegerKey))
      && (source.Obj? && AllIndexKeys(source.fields) ==> r.Ok? && IsSparseOf(r.value, source.fields))
      && (!source.Obj? && !source.Arr? ==> r == Err(BadChanges))
  {
    if |args| == 0 {
      return Err(MissingChanges);
    }
    var changes := ChangesOf(args);
    var source := Apply(changes, params);
    if |args| >= 2 && IsDefinedArg(args[0]) {
      var index := AsIndex(args[0]);
      if index.None? {
        return Err(BadIndex);
      }
      IndexedPatchAddressesOneSlot(params, args, index.value);
      source := Obj(map[KeyOf(index.value) := source]);
    }
    if source.Obj? {
      var sparse := SparseArray(source.fields);
      if sparse.Err? {
        return sparse;
      }
      SparseUnique(sparse.value, SparseOf(source.fields), source.fields);
      source := Arr(sparse.value);
    }
    if !source.Arr? {
      return Err(BadChanges);
    }
    return Ok(source.slots);
  }

  // ---------------------------------------------------------------------------
  // merge / set: applying the patch

  /** `Merge(config.parameters, source)`: the patch merges slot by slot into
      the stored array. When `parameters` is undefined lodash merges into a
      temporary object, so nothing changes. */
  function MergeParameters(config: map<string, Value>, source: Slots): (r: map<string, Value>)
    ensures r.Keys == config.Keys
    ensures forall k :: k in config && k != "parameters" ==> r[k] == config[k]
    ensures WellShaped(config) ==> WellShaped(r)
    ensures Params(config).Arr? ==> Params(r) == Arr(MergeSlots(Params(config).slots, Arr(source), IndexWise))
    ensures !Params(config).Arr? ==> r == config
  {
    var p := Params(config);
    if p.Arr? then config["parameters" := Arr(MergeSlots(p.slots, Arr(source), IndexWise))] else config
  }

  /** One past the last slot of `s` that is not a hole: the positions
      `Object.keys` reports for an array are exactly the filled ones. */
  function PresentWidth(s: Slots): (w: nat)
    ensures w <= |s|
    ensures w > 0 ==> s[w - 1].Some?
    ensures forall i :: w <= i < |s| ==> s[i].None?
  {
    if |s| == 0 then 0 else if s[|s| - 1].Some? then |s| else PresentWidth(s[..|s| - 1])
  }

  /** The array after `parameters[key] = source[key]` for every filled slot
      key of `source`: filled slots replaced whole, other slots unchanged. */
  ghost function Assigned(p: Slots, s: Slots): (r: Slots)
    ensures |r| == Max(|p|, PresentWidth(s))
    ensures forall i :: 0 <= i < |s| && s[i].Some? ==> i < |r| && r[i] == s[i]
    ensures forall i :: 0 <= i < |p| && (i >= |s| || s[i].None?) ==> r[i] == p[i]
    ensures forall i :: |p| <= i < |r| && (i >= |s| || s[i].None?) ==> r[i].None?
  {
    seq(Max(|p|, PresentWidth(s)), i requires 0 <= i < Max(|p|, PresentWidth(s)) =>
      if i < |s| && s[i].Some? then s[i] else if i < |p| then p[i] else None)
  }

  /** One more step of the `forEach` assignment loop. */
  lemma AssignedStep(p: Slots, s: Slots, i: nat)
    requires i < |s|
    ensures Assigned(p, s[..i + 1]) ==
      if s[i].Some? then Place(Assigned(p, s[..i]), i, s[i].value) else Assigned(p, s[..i])
  {
    var a, b := s[..i], s[..i + 1];
    assert b[..i] == a;
    if s[i].Some? {
      assert PresentWidth(b) == i + 1;
      var x, y := Assigned(p, b), Place(Assigned(p, a), i, s[i].value);
      assert |x| == |y|;
      forall j | 0 <= j < |x|
        ensures x[j] == y[j]
      {
      }
    } else {
      assert PresentWidth(b) == PresentWidth(a);
    }
  }

  /** When every slot the patch fills holds a scalar, and the patch has no
      trailing hole, `merge` and `set` have the same effect: they differ only
      where `merge` recurses into an object or array already in the slot. */
  lemma MergeAgreesWithSetOnScalars(p: Slots, s: Slots)
    requires forall i :: 0 <= i < |s| && s[i].Some? ==> IsScalar(s[i].value)
    requires |s| == 0 || s[|s| - 1].Some?
    ensures MergeSlots(p, Arr(s), IndexWise) == Assigned(p, s)
  {
    var m, a := MergeSlots(p, Arr(s), IndexWise), Assigned(p, s);
    assert |m| == |a|;
    forall i | 0 <= i < |m|
      ensures m[i] == a[i]
    {
      if i < |s| && s[i].Some? {
        MergeScalar(if i < |p| && p[i].Some? then p[i].value else s[i].value, s[i].value, IndexWise);
      }
    }
  }

  /** A slot that `set` names ends up holding exactly the patch's value,
      whatever it held before; `merge` combines it with the old value. */
  lemma SetReplacesMergeCombines(p: Slots, s: Slots, i: nat)
    requires i < |s| && s[i].Some?
    ensures i < |Assigned(p, s)| && Assigned(p, s)[i] == s[i]
    ensures i < |MergeSlots(p, Arr(s), IndexWise)|
    ensures MergeSlots(p, Arr(s), IndexWise)[i] ==
      if i < |p| && p[i].Some? then Some(Merge(p[i].value, s[i].value, IndexWise)) else s[i]
  {
  }

  /** The private `set` writing into `config`: the assignment throws as soon
      as it meets a filled slot while `parameters` is undefined. */
  ghost function SetParameters(config: map<string, Value>, source: Slots): (r: Result<map<string, Value>, Error>)
    ensures r.Err? <==> !Params(config).Arr? && PresentWidth(source) > 0
    ensures r.Err? ==> r.error == ParametersUndefined
    ensures r.Ok? ==> r.value.Keys == config.Keys
    ensures r.Ok? ==> forall k :: k in config && k != "parameters" ==> r.value[k] == config[k]
    ensures r.Ok? && WellShaped(config) ==> WellShaped(r.value)
    ensures r.Ok? && !Params(config).Arr? ==> r.value == config
  {
    var p := Params(config);
    if p.Arr? then Ok(config["parameters" := Arr(Assigned(p.slots, source))])
    else if PresentWidth(source) > 0 then Err(ParametersUndefined)
    else Ok(config)
  }

  // ---------------------------------------------------------------------------
  // the declaration object

  /** The object `plugin(input)` returns; `config` is the closure state. */
  class Plugin {
    var config: map<string, Value>

    ghost predicate Valid()
      reads this
    {
      WellShaped(config)
    }

    /** Storing the (cloned) validated input. */
    constructor (input: map<string, Value>)
      requires WellShaped(input)
      ensures Valid() && config == input
    {
      config := input;
    }

    /** Public `merge(index, changes)`. */
    method Merge(args: seq<Arg>) returns (r: Outcome<Error>)
      requires Valid()
      modifies this
      ensures Valid()
      ensures Patch(old(Params(config)), args).Err? ==>
        r == Fail(Patch(old(Params(config)), args).error) && config == old(config)
      ensures Patch(old(Params(config)), args).Ok? ==>
        r == Pass && config == MergeParameters(old(config), Patch(old(Params(config)), args).value)
    {
      var source := ResolveChanges(Params(config), args);
      if source.Err? {
        return Fail(source.error);
      }
      config := MergeParameters(config, source.value);
      return Pass;
    }

    /** Public `set(index, changes)`: `Object.keys(source).forEach` assigning
        each filled slot of the patch into `parameters`. */
    method Set(args: seq<Arg>) returns (r: Outcome<Error>)
      requires Valid()
      modifies this
      ensures Valid()
      ensures Patch(old(Params(config)), args).Err? ==>
        r == Fail(Patch(old(Params(config)), args).error) && config == old(config)
      ensures Patch(old(Params(config)), args).Ok? ==>
        var after := SetParameters(old(config), Patch(old(Params(config)), args).value);
        && (after.Err? ==> r == Fail(after.error) && config == old(config))
        && (after.Ok? ==> r == Pass && config == after.value)
    {
      var p := Params(config);
      var source := ResolveChanges(p, args);
      if source.Err? {
        return Fail(source.error);
      }
      var s := source.value;
      assert p.Arr? ==> config == config["parameters" := Arr(Assigned(p.slots, s[..0]))] by {
        if p.Arr? {
          assert Assigned(p.slots, s[..0]) == p.slots;
        }
      }
      var i := 0;
      while i < |s|
        invariant 0 <= i <= |s|
        invariant p.Arr? ==> config == old(config)["parameters" := Arr(Assigned(p.slots, s[..i]))]
        invariant !p.Arr? ==> config == old(config) && PresentWidth(s[..i]) == 0
      {
        AssignedStep(if p.Arr? then p.slots else [], s, i);
        if s[i].Some? {
          var current := Params(config);
          if !current.Arr? {
            assert PresentWidth(s) > 0;
            return Fail(ParametersUndefined);
          }
          config := config["parameters" := Arr(Place(current.slots, i, s[i].value))];
        } else {
          assert !p.Arr? ==> PresentWidth(s[..i + 1]) == 0 by {
            assert s[..i + 1][..i] == s[..i];
          }
        }
        i := i + 1;
      }
      assert s[..i] == s;
      return Pass;
    }

    /** Public `get()`: a deep clone of the declaration. As a value it shares
        nothing with the stored state, and it is again a valid input for
        `plugin(input)`. */
    method Get() returns (snapshot: Value)
      requires Valid()
      ensures snapshot == Obj(config)
      ensures Validate(snapshot) == Ok(snapshot)
    {
      snapshot := Obj(config);
    }

    /** Public `resolve()`: `new Plugin(...parameters)`. Invoking a user
        constructor is outside the model and given as `instantiate`, taken
        never to throw. When
        `parameters` is undefined, `[null].concat(undefined)` passes one
        `undefined` argument. */
    method Resolve(instantiate: (Value, Slots) -> Value) returns (r: Result<Value, Error>)
      requires Valid()
      ensures r.Err? <==> !Defined(config, "plugin")
      ensures r.Err? ==> r.error == NoConstructor
      ensures r.Ok? ==> config["plugin"].Fn?
      ensures r.Ok? && Params(config).Arr? ==> r.value == instantiate(config["plugin"], Params(config).slots)
      ensures r.Ok? && !Params(config).Arr? ==> r.value == instantiate(config["plugin"], [Some(Prim(Undefined))])
    {
      if !Defined(config, "plugin") {
        return Err(NoConstructor);
      }
      var p := Params(config);
      var arguments := if p.Arr? then p.slots else [Some(Prim(Undefined))];
      return Ok(instantiate(config["plugin"], arguments));
    }
  }

  /** `plugin(input)`: validate, then store a clone of the input. */
  method NewPlugin(input: Value) returns (r: Result<Plugin, Error>)
    ensures Validate(input).Err? ==> r.Err? && r.error == Validate(input).error
    ensures Validate(input).Ok? ==> r.Ok? && fresh(r.value) && r.value.Valid() && r.value.config == input.fields
  {
    var checked := Validate(input);
    if checked.Err? {
      return Err(checked.error);
    }
    var declaration := new Plugin(checked.value.fields);
    return Ok(declaration);
  }
}
