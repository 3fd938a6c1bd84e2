/**
 * The values the plugin reads: its settings block (`custom.dotenv`), the answer of the
 * loader module, and JavaScript truthiness of optional strings.
 */
module Values {

  datatype Option<T> = None | Some(value: T)

  /** A string that may be undefined; as in JavaScript, the empty string is falsy too. */
  predicate Truthy(s: Option<string>) {
    s.Some? && s.value != ""
  }

  /**
   * The `custom.dotenv` block. Every field may be missing. `include` and `exclude` (here `includeKeys` and `excludeKeys`) are
   * arrays, so any present one is truthy, even the empty array.
   */
  datatype PluginSettings = PluginSettings(
    path: Option<string>,
    basePath: Option<string>,
    includeKeys: Option<seq<string>>,
    excludeKeys: Option<seq<string>>,
    logging: Option<bool>)

  /**
   * A plain JavaScript object of variable definitions: `keys` is what `Object.keys`
   * enumerates, in its order, and `values` maps each of those keys to its value.
   */
  datatype EnvVars = EnvVars(keys: seq<string>, values: map<string, string>)

  predicate WellFormed(o: EnvVars) {
    && (forall i, j | 0 <= i < j < |o.keys| :: o.keys[i] != o.keys[j])
    && (forall k | k in o.keys :: k in o.values)
    && (forall k | k in o.values :: k in o.keys)
  }

  type JsObject = o: EnvVars | WellFormed(o) witness EnvVars([], map[])

  /**
   * What calling the loader module on the env-file path gives: an object, a falsy
   * value (the file was not found), or a thrown error with its message.
   */
  datatype LoadResult = Loaded(vars: JsObject) | NotFound | Failed(message: string)
}
