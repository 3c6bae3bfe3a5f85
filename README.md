# webpack-configurator, modelled in Dafny

webpack-configurator builds a webpack configuration object step by step.
This project models its two central pieces:

- **The plugin declaration** (`lib/plugin.js`). `plugin(input)` validates a
  `{plugin, parameters}` record and keeps a private copy of it. The public
  `merge(index?, changes)` and `set(index?, changes)` patch the positional
  `parameters` array.
  - The patch is found as follows. The number of arguments decides which
    argument is the index and which is `changes`. A function `changes` is
    called on the current parameters. A given index wraps the changes as
    `{[index]: changes}`. An object whose keys are integers becomes a sparse
    array.
  - `merge` combines each filled slot recursively with the slot already
    there. `set` replaces each filled slot whole.
  - `get` returns a copy. `resolve` constructs the plugin from its
    parameters.
- **The `Config` builder** (`index.js`). It holds:
  - a base document;
  - three named loader collections (pre, main and post loaders);
  - a named plugin collection.

  Its methods are:
  - `merge`: folds a patch into the document, or replaces the document with
    an updater's result.
  - `preLoader` / `loader` / `postLoader`: update one named loader.
  - `plugin`: creates or patches a named plugin declaration.
  - `resolve`: assembles the final configuration without changing the
    builder.

## Files

| file | module | contents |
|---|---|---|
| `wrappers.dfy` | `Wrappers` | `Option`, `Result` and `Outcome` (a call that either returns or throws) |
| `errors.dfy` | `Errors` | one constructor per exception the code raises |
| `json.dfy` | `Json` | configuration values; the recursive merge, index-wise (lodash) or with concatenation of arrays |
| `indices.dfy` | `Indices` | array positions and the decimal property keys that name them |
| `named.dfy` | `NamedMaps` | a name-keyed collection that remembers the order in which names were first added |
| `plugin.dfy` | `PluginDecl` | `lib/plugin.js`: the spec functions `Patch`, `MergeParameters` and `SetParameters`, the `SparseArray` method and the class `Plugin` |
| `config.dfy` | `Builder` | `index.js`: `UpdateDeclaration`, the spec function `Resolved` and the class `Config` |

How the stateful parts are modelled:

- The closure state of `plugin(input)` is the field `config` of class
  `PluginDecl.Plugin`. `Merge` and `Set` update it in place.
  - Each is proved against a spec function of the old state:
    `MergeParameters` and `SetParameters` of the patch `Patch`.
  - When the call throws, the state is unchanged.
  - `Set` keeps the source's assignment loop. Its invariant ties the
    partial result to `Assigned` on the prefix of the patch handled so far.
- `SparseArray` keeps the source's reduce over an object's keys as a loop.
  It is proved to build the unique sparse array of the object.
- `Config` holds its document and its four collections as fields. Each
  public method states its whole new state.
  - `Resolve` changes nothing (it has no `modifies` clause). It is proved
    equal to the spec function `Resolved`.
  - The lemmas state what `Resolved` promises: per-name entries in
    registration order, no entry for an empty collection, plugins appended
    after existing ones, and every other key untouched.

## Model

| member | source | states |
|---|---|---|
| Json.Merge | lib/plugin.js:56 | an `undefined` source leaves the target; two objects give an object with the keys of both; two arrays are concatenated under the customiser and merged to the longer length index-wise; any other pairing takes the source value |
| Json.MergeFields | lib/plugin.js:56 | merging two objects keeps the keys of both; a key the source does not name keeps the target's value |
| Json.MergeSlots | index.js:23 | with the array-concatenating customiser, arrays are appended; index-wise, the length is the larger length and slots the source leaves empty keep the target's value |
| Json.MergeScalar | lib/plugin.js:56 | a scalar or function source replaces the target whole |
| Json.DisjointMergeIsUnion | index.js:23 | merging objects with disjoint keys gives their union |
| Json.ConcatMergeAppends | index.js:126 | under the concatenating customiser, a key holding arrays on both sides gets the target's elements followed by the source's |
| Json.MergeSelf | lib/plugin.js:56 | merging a value into itself changes nothing |
| Json.MergeIdempotent | lib/plugin.js:56 | applying the same `merge` patch twice is the same as applying it once |
| Indices.KeyOf | lib/plugin.js:43-44 | the property key of a position is a non-empty text |
| Indices.ParseKeyOf | lib/plugin.js:22-25 | the key under which position n is stored passes the integer check and names n |
| Indices.KeyOfParse | lib/plugin.js:22-25 | every key that passes the integer check is the key of the position it names |
| Indices.KeyOfInjective | lib/plugin.js:25 | distinct positions are stored under distinct keys |
| NamedMaps.Named.Put | index.js:36 | storing under a name sets that name's entry, changes no other entry, and appends the name to the iteration order only if it is new |
| NamedMaps.Empty | index.js:11-15 | a fresh collection is empty |
| NamedMaps.EmptyMeansNoEntries | index.js:113 | the `Object.keys(map).length` test is false exactly when the collection stores nothing |
| PluginDecl.Validate | lib/plugin.js:5-16 | accepts exactly the objects whose defined `plugin` is a function and whose defined `parameters` is an array, returning the input unchanged; otherwise the error of the first failed check, in source order |
| PluginDecl.SparseOf | lib/plugin.js:18-29 | an object with integer keys has a sparse array |
| PluginDecl.SparseUnique | lib/plugin.js:18-29 | that sparse array is unique, so it does not depend on the order in which the keys are visited |
| PluginDecl.Place | lib/plugin.js:25 | `array[n] = v` sets position n, pads with holes up to n, and changes no other position |
| PluginDecl.PlaceExtends | lib/plugin.js:21-28 | one reduce step extends the sparse array of the keys handled so far by one key |
| PluginDecl.SparseArray | lib/plugin.js:18-29 | throws exactly when some key is not an integer; otherwise position k holds `object[k]`, every other position is a hole, and the length is one past the largest key |
| PluginDecl.Source | lib/plugin.js:31-54 | the private `merge`/`set` patch: a defined index that is not an integer is exactly the `BadIndex` case; without an index the patch exists exactly when the (resolved) changes are an array or an object with integer keys; the only errors are a bad index, a non-integer key and bad changes |
| PluginDecl.Patch | lib/plugin.js:94-110 | `MissingChanges` is raised exactly when no argument is given, and arguments after the second are ignored |
| PluginDecl.IndexedPatchAddressesOneSlot | lib/plugin.js:38-46 | with a valid index, the patch fills exactly that slot with the resolved changes and leaves every earlier slot a hole |
| PluginDecl.ResolveChanges | lib/plugin.js:31-54 | the patch before any write: zero arguments, a bad index, a non-integer key or a `changes` that is neither object nor array each give their own error; an array is taken as is; an object becomes its sparse array; an index addresses one slot |
| PluginDecl.MergeParameters | lib/plugin.js:56 | only `parameters` changes, by an index-wise merge of the patch; an undefined `parameters` is left as it is |
| PluginDecl.PresentWidth | lib/plugin.js:85 | the positions `Object.keys` reports for the patch end at its last filled slot |
| PluginDecl.Assigned | lib/plugin.js:84-87 | after `set`, every filled slot of the patch holds the patch's value, every other slot of `parameters` keeps its value, and the array grows only up to the patch's last filled slot, with holes |
| PluginDecl.SetParameters | lib/plugin.js:84-87 | the assignment throws exactly when `parameters` is not an array and the patch fills some slot; otherwise no key other than `parameters` changes, the declaration stays well shaped, and with no `parameters` array nothing changes |
| PluginDecl.AssignedStep | lib/plugin.js:85-87 | each `forEach` step places one more filled slot of the patch, and skips a hole |
| PluginDecl.SetReplacesMergeCombines | lib/plugin.js:84-87 | a slot the patch fills holds exactly the patch's value after `set`, but the recursive combination of old and new after `merge` |
| PluginDecl.MergeAgreesWithSetOnScalars | lib/plugin.js:56 | when the patch fills slots only with scalars and does not end in a hole, `merge` and `set` give the same array |
| PluginDecl.Plugin.constructor | lib/plugin.js:92 | the declaration stores the validated input |
| PluginDecl.NewPlugin | lib/plugin.js:90-92 | `plugin(input)` fails with the validation error, or returns a fresh declaration holding the input |
| PluginDecl.Plugin.Merge | lib/plugin.js:94-114 | the public `merge`: on any error the state is unchanged; otherwise `parameters` becomes the index-wise merge of the patch, and nothing else changes |
| PluginDecl.Plugin.Set | lib/plugin.js:115-135 | the public `set`: on an error in the patch the state is unchanged; otherwise the filled slots are replaced whole and the others kept; an undefined `parameters` throws at the first filled slot, before any write |
| PluginDecl.Plugin.Get | lib/plugin.js:136-138 | returns the whole declaration, which is again a valid input to `plugin(input)` |
| PluginDecl.Plugin.Resolve | lib/plugin.js:139-147 | with construction taken never to throw, constructs the plugin from the parameter slots, or from one `undefined` argument when there are no parameters; a missing constructor is an error |
| Builder.UpdateDeclaration | index.js:74-93 | a non-array, non-function `parameters` and an updater returning a non-array each throw; a literal array is appended to the stored parameters; an updater's array replaces them; the constructor changes only when a truthy one is given |
| Builder.ReRegistrationAccumulates | index.js:75-93 | registering a name twice with literal lists concatenates them in order, and a falsy second constructor keeps the first |
| Builder.ResolveAll | index.js:116-120 | exactly one resolved entry per registered name, in registration order |
| Builder.WithLoaders | index.js:122-126 | one collection's step sets `module` and no other key; when `module` was absent, falsy or an object, it is then an object holding the collection's key |
| Builder.AddSections | index.js:107-127 | the loader loop changes no key other than `module` |
| Builder.Resolved | index.js:102-140 | with the resolve helpers taken never to throw, the only error is `PluginsNotList`, raised only when there are plugins; on success every key other than `module` and `plugins` is the document's |
| Builder.WithLoadersEffect | index.js:122-126 | resolving one collection changes only `module[property]`, which gains the list after any array it held |
| Builder.AddSectionsKeepsOthers | index.js:107-127 | the loader loop touches no key of the document other than `module` |
| Builder.AddSectionsAllEmpty | index.js:113-114 | when every loader collection is empty, the document is returned unchanged and no `module` is created |
| Builder.AddSectionsElsewhere | index.js:122-126 | an entry of `module` that no collection is resolved under keeps its value |
| Builder.AddSectionsEntries | index.js:107-127 | each non-empty collection lands under its own `module` key, after any array there; an empty collection adds nothing |
| Builder.ResolvedPlugins | index.js:130-137 | with no plugins, `plugins` is left untouched; otherwise the resolved plugins follow the existing array, and a truthy non-array `plugins` throws |
| Builder.ResolvedLoaders | index.js:102-127 | the result's `module` entries are those above, and apart from `module` and `plugins` the result has exactly the document's keys and values |
| Builder.Config.constructor | index.js:8-16 | a new builder has an empty document and empty collections |
| Builder.Config.Merge | index.js:19-26 | a function replaces the document with its result on the current document; an object is merged in with arrays concatenated; the collections are unchanged |
| Builder.Config.PreLoader | index.js:29-40 | only the entry `name` of the pre-loader collection changes, to what `mergeLoader` computes from its current value; the other collections and the document are unchanged |
| Builder.Config.Loader | index.js:45-56 | the same, for the loader collection |
| Builder.Config.PostLoader | index.js:59-70 | the same, for the post-loader collection |
| Builder.Config.Plugin | index.js:74-98 | a throw leaves the plugin collection unchanged; otherwise only the entry `name` changes, to the updated declaration; nothing else changes |
| Builder.Config.Resolve | index.js:102-140 | equals `Resolved` of the builder's state and changes nothing, so repeated calls with no change in between give equal results |

## Left out

- Helper modules are parameters of the model:
  - `lib/utils` is not part of this model. Its checks are assumed to mean:
    - `isObject`: a plain object;
    - `isArray`: an array;
    - `isFunction`: a function;
    - `isDefined`: not `undefined`;
    - `isInteger(index, true)`: an integral number that is not negative;
    - `isInteger(key)`: a canonical decimal key.
  - `lib/default/merge` is not part of this model. It is assumed to concatenate two arrays and otherwise leave the merge to lodash.
  - `lib/mergeLoader`, `lib/resolve/loader` and `lib/resolve/plugin` are not part of this model. They are parameters of `Config`, taken to be pure.
- Constructing a plugin (`new` through `Function.prototype.bind`) is a call into user code. It is the parameter `instantiate`.
- PluginDecl.Plugin.Resolve: `instantiate` is assumed never to throw.
  - A constructor that throws is not modelled.
  - Neither is a `plugin` that cannot be called with `new`, such as an arrow function. `validate` checks only that `plugin` is a function.
  - So the contract's "fails exactly when no `plugin` is defined" holds under that assumption. In JavaScript these cases also make `resolve` throw.
- User-supplied functions (`changes`, `parameters`, `merge` updaters) are pure functions of the value they receive, and never throw.
  - Their side effects on the live `parameters` array are not modelled.
  - The second argument `changes` receives (the public API object) is not passed.
  - A function given as a plain value (`Fn`) where `changes` is expected is not called. Without an index it is rejected as neither object nor array (`BadChanges`). With an index it is stored in the slot as a value, where JavaScript would store the result of calling it.
- Builder.UpdateDeclaration: a function given as a plain value (`Fn`) for `parameters` is not called. The model raises `ParametersNotListOrUpdater`, where JavaScript would call it like an updater. The same holds for `Builder.Config.Plugin`. Only the `Updater` form of an argument is called.
- Values are immutable, so every deep clone is the identity. `get` and the constructor therefore never alias state, trivially.
- lodash's own handling of holes and explicit `undefined` elements inside arrays is replaced by the model's merge.
  - A hole in the patch never overwrites.
  - An array merged into a missing slot is copied as is.
- Json.Merge: differs from lodash's `merge` in these cases:
  - A plain-object source meeting an array target. lodash 4 (`lodash.mergewith`) keeps the array and merges the object's keys into it. The model takes the source object. So `merge(0, {1: "c"})` on `[["a", "b"]]` gives `[{1: "c"}]` in the model, where lodash gives `[["a", "c"]]`.
  - An `undefined` value under a key the target lacks. The model creates the key. The lodash 3 `_.merge` that `index.js` appears to use skips it.
- Non-integral and floating-point numbers are not modelled. Numbers are integers.
- PluginDecl.Place: positions have no upper bound.
  - In JavaScript, `array[n] = v` writes an array index only for n up to 2^32 - 2. For a larger n it adds a plain property, and the length stays the same.
  - The model treats every natural number as a position. `Indices.KeyOf`/`ParseIndex`, `PluginDecl.AsIndex` and `PluginDecl.IndexedPatchAddressesOneSlot` share this.
  - So `merge(4294967295, x)` yields a patch of 4294967296 slots in the model.
- `Object.keys` and `for…in` order is modelled as the order in which names were first added.
  - JavaScript lists integer-like names first, in numeric order.
  - A plain object's keys are modelled as a set, because `sparseArray`'s result does not depend on their order (proved as `SparseUnique`).
- Builder.Config.Merge:
  - The document is always an object. An updater returning a non-object is not modelled.
  - Merging a non-object patch is not modelled.
- Builder.Resolved: `resolveLoader` and `resolvePlugin` are assumed never to throw. Their types return a plain value, though `resolvePlugin` constructs the user's plugin and a user constructor can throw. So the statement that `PluginsNotList` is the only error, and the "if and only if" in `Builder.ResolvedPlugins`, hold under that assumption. A throw from a helper is not propagated the way `Builder.Config.PreLoader` propagates a `mergeLoader` error.
- Builder.Resolved: a truthy string `plugins` is concatenated as text by JavaScript, but the model raises `PluginsNotList` as for other non-arrays.
- Builder.WithLoaders: a truthy non-object `module` is left as it is. lodash's merge into such a value has no effect that is modelled.
- Builder.UpdateDeclaration: a new declaration with a falsy constructor has no constructor of its own (`None`). JavaScript would then see the inherited `Object` constructor.
- The `preLoader`/`loader`/`postLoader` argument list is passed to `mergeLoader` as given. `arguments` and `apply` are not modelled further.
- The example configuration files are static data and are not modelled.
