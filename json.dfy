/** JSON-like values as the configuration builder handles them, and a
    recursive merge in the manner of lodash's `merge`/`mergeWith`: objects
    merge key by key, arrays slot by slot (or by concatenation), and any other
    pairing takes the source value.

    The builder deep-clones values at every boundary so that callers and the
    builder never share mutable structure; values here are immutable, so a
    clone is the value itself. */
module Json {
  import opened Wrappers

  /** Scalars. Numbers are integral: non-integral numbers are not modelled. */
  datatype Scalar = Undefined | Null | Bool(b: bool) | Int(i: int) | Text(t: string)

  /** A value: a plain object, an array whose slots may be holes (`None`), a
      scalar, or a function reference (a plugin constructor). */
  datatype Value =
    | Obj(fields: map<string, Value>)
    | Arr(slots: seq<Option<Value>>)
    | Prim(scalar: Scalar)
    | Fn(id: nat)

  /** The contents of an array, holes included. */
  type Slots = seq<Option<Value>>

  /** An argument of a public call: a value, or a function supplied by the
      caller. A caller's function is modelled as pure: it receives the current
      value and returns a new one. */
  datatype Arg = Val(v: Value) | Updater(f: Value -> Value)

  /** JavaScript's falsy values among those modelled. */
  predicate Falsy(v: Value)
  {
    v.Prim? && v.scalar in {Undefined, Null, Bool(false), Int(0), Text("")}
  }

  predicate Truthy(v: Value)
  {
    !Falsy(v)
  }

  /** `isDefined` of the helper utilities: present and not `undefined`. */
  predicate Defined(m: map<string, Value>, key: string)
  {
    key in m && m[key] != Prim(Undefined)
  }

  /** What happens when both sides of a merge hold arrays: `IndexWise` is
      lodash's own behaviour (slot i of the source merges into slot i of the
      target); `Concat` is the customiser `lib/default/merge`, which this model
      takes to append the source array to the target array. */
  datatype ArrayPolicy = IndexWise | Concat

  /** The recursive merge of `source` into `target`: objects merge key by key,
      arrays according to `policy`, and otherwise the source value wins, except
      that an `undefined` source never overwrites. */
  function Merge(target: Value, source: Value, policy: ArrayPolicy): (r: Value)
    decreases source, 1
    ensures source == Prim(Undefined) ==> r == target
    ensures target.Obj? && source.Obj? ==>
      r.Obj? && r.fields.Keys == target.fields.Keys + source.fields.Keys
    ensures target.Arr? && source.Arr? && policy == Concat ==> r == Arr(target.slots + source.slots)
    ensures target.Arr? && source.Arr? && policy == IndexWise ==>
      r.Arr? && |r.slots| == Max(|target.slots|, |source.slots|)
    ensures source != Prim(Undefined) && !(target.Obj? && source.Obj?) && !(target.Arr? && source.Arr?) ==>
      r == source
  {
    if source == Prim(Undefined) then target
    else if target.Obj? && source.Obj? then Obj(MergeFields(target.fields, source, policy))
    else if target.Arr? && source.Arr? then Arr(MergeSlots(target.slots, source, policy))
    else source
  }

  /** Key-by-key merge of two objects: the result has the keys of both, and a
      key the source does not name keeps the target's value. */
  function MergeFields(target: map<string, Value>, source: Value, policy: ArrayPolicy): (r: map<string, Value>)
    requires source.Obj?
    decreases source, 0
    ensures r.Keys == target.Keys + source.fields.Keys
    ensures forall k :: k in target && k !in source.fields ==> r[k] == target[k]
  {
    var s := source.fields;
    map k | k in target.Keys + s.Keys ::
      if k in s then (if k in target then Merge(target[k], s[k], policy) else s[k])
      else target[k]
  }

  /** Merge of two arrays: concatenation under `Concat`; under `IndexWise`
      every slot the source fills merges into the same slot of the target and
      every other slot keeps the target's value. */
  function MergeSlots(target: Slots, source: Value, policy: ArrayPolicy): (r: Slots)
    requires source.Arr?
    decreases source, 0
    ensures policy == Concat ==> r == target + source.slots
    ensures policy == IndexWise ==> |r| == Max(|target|, |source.slots|)
    ensures policy == IndexWise ==>
      forall i :: 0 <= i < |target| && (i >= |source.slots| || source.slots[i].None?) ==> r[i] == target[i]
  {
    var s := source.slots;
    if policy == Concat then target + s
    else
      seq(Max(|target|, |s|), i requires 0 <= i < Max(|target|, |s|) =>
        if i < |s| && s[i].Some? then
          Some(if i < |target| && target[i].Some? then Merge(target[i].value, s[i].value, policy) else s[i].value)
        else if i < |target| then target[i]
        else None)
  }

  function Max(a: nat, b: nat): nat
  {
    if a < b then b else a
  }

  /** Scalars and function references other than `undefined`: the values a
      merge writes over whatever the target holds. */
  predicate IsScalar(v: Value)
  {
    (v.Prim? && v.scalar != Undefined) || v.Fn?
  }

  /** A scalar source replaces the target whole. */
  lemma MergeScalar(target: Value, source: Value, policy: ArrayPolicy)
    requires IsScalar(source)
    ensures Merge(target, source, policy) == source
  {
  }

  /** Merging objects with disjoint keys yields their union. */
  lemma DisjointMergeIsUnion(target: map<string, Value>, source: map<string, Value>, policy: ArrayPolicy)
    requires target.Keys !! source.Keys
    ensures MergeFields(target, Obj(source), policy) == target + source
  {
  }

  /** Under `Concat`, a key holding arrays on both sides ends up with the
      target's elements followed by the source's, in order and with repeats. */
  lemma ConcatMergeAppends(target: map<string, Value>, source: map<string, Value>, k: string)
    requires k in target && k in source && target[k].Arr? && source[k].Arr?
    ensures MergeFields(target, Obj(source), Concat)[k] == Arr(target[k].slots + source[k].slots)
  {
  }

  /** Merging a value into itself changes nothing (index-wise policy). */
  lemma {:induction false} MergeSelf(v: Value)
    ensures Merge(v, v, IndexWise) == v
    decreases v
  {
    match v
    case Obj(m) =>
      forall k | k in m
        ensures Merge(m[k], m[k], IndexWise) == m[k]
      {
        MergeSelf(m[k]);
      }
      assert MergeFields(m, v, IndexWise) == m;
    case Arr(a) =>
      forall i | 0 <= i < |a| && a[i].Some?
        ensures Merge(a[i].value, a[i].value, IndexWise) == a[i].value
      {
        MergeSelf(a[i].value);
      }
      assert MergeSlots(a, v, IndexWise) == a;
    case Prim(_) =>
    case Fn(_) =>
  }

  /** Applying the same index-wise patch twice has the effect of applying it
      once. */
  lemma {:induction false} MergeIdempotent(target: Value, source: Value)
    ensures Merge(Merge(target, source, IndexWise), source, IndexWise) == Merge(target, source, IndexWise)
    decreases source
  {
    var once := Merge(target, source, IndexWise);
    if source == Prim(Undefined) {
    } else if target.Obj? && source.Obj? {
      var t, s := target.fields, source.fields;
      var m := MergeFields(t, source, IndexWise);
      forall k | k in s
        ensures Merge(m[k], s[k], IndexWise) == m[k]
      {
        if k in t {
          MergeIdempotent(t[k], s[k]);
        } else {
          MergeSelf(s[k]);
        }
      }
      assert MergeFields(m, source, IndexWise) == m;
    } else if target.Arr? && source.Arr? {
      var t, s := target.slots, source.slots;
      var m := MergeSlots(t, source, IndexWise);
      forall i | 0 <= i < |s| && s[i].Some?
        ensures m[i].Some? && Merge(m[i].value, s[i].value, IndexWise) == m[i].value
      {
        if i < |t| && t[i].Some? {
          MergeIdempotent(t[i].value, s[i].value);
        } else {
          MergeSelf(s[i].value);
        }
      }
      assert MergeSlots(m, source, IndexWise) == m;
    } else {
      MergeSelf(source);
    }
  }
}
