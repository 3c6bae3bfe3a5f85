/** The reasons for which the configuration builder throws. */
module Errors {

  datatype Error =
      /** lib/plugin.js `validate`: the declaration is not a plain object. */
    | NotAnObject
      /** lib/plugin.js `validate`: `plugin` is defined but is not a function. */
    | PluginNotFunction
      /** lib/plugin.js `validate`: `parameters` is defined but is not an array. */
    | ParametersNotArray
      /** lib/plugin.js public `merge`/`set` called without arguments. */
    | MissingChanges
      /** lib/plugin.js `merge`/`set`: the index is defined but not an integer. */
    | BadIndex
      /** lib/plugin.js `sparseArray`: a key of the object form is not an integer. */
    | NonIntegerKey
      /** lib/plugin.js `merge`/`set`: the changes are neither object nor array. */
    | BadChanges
      /** lib/plugin.js `set`: the JavaScript TypeError raised when assigning a
          slot of `parameters` while `parameters` is undefined. */
    | ParametersUndefined
      /** lib/plugin.js `resolve`: the TypeError raised when there is no `plugin`
          constructor to bind. */
    | NoConstructor
      /** index.js `plugin`: `parameters` is neither an array nor a function. */
    | ParametersNotListOrUpdater
      /** index.js `plugin`: the `parameters` function returned a non-array. */
    | UpdaterNotList
      /** index.js `resolve`: the base document holds a `plugins` entry that is
          truthy but not an array, so it cannot be concatenated onto. */
    | PluginsNotList
      /** A failure raised by a helper module that is not part of this model
          (for instance `lib/mergeLoader`). */
    | HelperFailed(reason: string)
}
