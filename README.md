# serverless-dotenv-plugin, modelled in Dafny

The plugin is one class, `ServerlessPlugin` (index.js). When the Serverless host
constructs it, it does four things:
- it makes sure `provider.environment` exists;
- it reads its `custom.dotenv` settings and the `logging` flag;
- it picks the environment name (`NODE_ENV`, then `--env`, then `development`);
- it loads the variables of the matching `.env` file through a loader module, filters
  them by `include` or `exclude`, and writes the survivors into `provider.environment`.

While it works, it logs through the host's `cli.log`.

The model has five modules:

- `Values` (values.dfy): the settings block, the loader's answer (`Loaded(object) |
  NotFound | Failed(message)`) and JavaScript truthiness. A missing or empty string is
  falsy. Any `include`/`exclude` array is truthy, even an empty one.
- `Resolve` (resolve.dfy): `getEnvironment`, `resolveEnvFileName` and
  `resolvePluginConfigPath` as pure functions. `NODE_ENV`, the working directory, the
  plugin's own directory and the set of existing files are parameters.
- `Filter` (filter.dfy): the choice between include and exclude, the deletion pass as
  a loop, the set of surviving keys, and the merge as a fold of single-key writes.
- `Plugin` (plugin.dfy): the class `ServerlessPlugin`. Its fields are the environment
  map, the log, the error stream, the settings and the logging flag. Its constructor and
  `LoadEnv` change that state; the loops live in `Filter.DeleteRejected` and
  `ServerlessPlugin.WriteRemaining`, which `LoadEnv` reaches through `MergeLoaded`. The
  constructor and `LoadEnv` are each proved equal to the specification function
  `LoadEnvEffect`, and the three outcomes (merged, not found, errored) are stated as
  that function's postconditions.
- `Scenarios` (scenarios.dfy): concrete runs with a loader that finds `FOO=1, BAR=2`,
  one that finds nothing, and one that throws.

Two behaviours of index.js worth spelling out:
- A successful load with two variables logs three lines: the header and one line per
  key (index.js:80-85 and 100-103). The header is logged even when no key survives.
- An empty `include` array is truthy. It keeps no key, and `exclude` is then not
  consulted (index.js:71-78).

## Model

| member | source | states |
|---|---|---|
| `Resolve.GetEnvironment` | index.js:22-32 | The name is never empty. It is `NODE_ENV` when that is set and non-empty, else the `env` option when non-empty, else `development`. |
| `Resolve.FirstTruthy` | index.js:22-32 | Reference rule "first truthy candidate, else the fallback": the first truthy candidate wins; with no truthy candidate the result is the fallback; it is never empty when the fallback is not, and it is the fallback or one of the candidates. |
| `Resolve.GetEnvironmentPrecedence` | index.js:22-32 | `GetEnvironment` equals the reference rule over the candidates `[NODE_ENV, options.env]` with fallback `development`. |
| `Resolve.BasePath` | index.js:39-40 | The base directory is a truthy `config.basePath`, and the working directory otherwise (also when the settings are absent). |
| `Resolve.PreferExisting` | index.js:45 | The shared lookup rule: the local path exactly when it exists, the fallback otherwise. |
| `Resolve.ResolveEnvFileName` | index.js:34-46 | A truthy `path` is returned verbatim, whatever the environment, the base and the file system. Otherwise the result is `<base>/.env.<env>` exactly when that file exists, and `<base>/.env` when it does not. |
| `Resolve.ResolvePluginConfigPath` | index.js:48-58 | `<base>/dotenv.config.js` when it exists, else the `dotenv.config.js` in the plugin's own directory. |
| `Filter.ChooseFilter` | index.js:68-78 | A truthy `include` is used and `exclude` is ignored. `exclude` is used only when `include` is falsy. With neither, every key is kept. The two are never both applied. |
| `Filter.SurvivorsAreAdmitted` | index.js:86-99 | A key survives exactly when it was loaded and the filter admits it. There are never more survivors than loaded keys, and none is repeated when the loaded keys are distinct. |
| `Filter.IncludedKeySet` | index.js:86-92 | With `include`, the surviving keys are exactly the loaded keys listed in `include`. |
| `Filter.ExcludedKeySet` | index.js:93-99 | With only `exclude`, the surviving keys are exactly the loaded keys not listed in `exclude`. |
| `Filter.EmptyIncludeKeepsNothing` | index.js:71-92 | `include: []` selects the include filter and drops every key. |
| `Filter.KeepAllKeepsEverything` | index.js:86-100 | With neither list, every loaded key survives, in its original order. |
| `Filter.DeleteRejected` | index.js:86-99 | The deletion loop removes exactly the keys the filter rejects. Every other entry keeps its value. |
| `Filter.MergeWritesExactly` | index.js:100-105 | After the writes, the map's keys are the old keys plus the written ones. Each written key holds its loaded value. Every other key keeps its old value, and no key is removed. |
| `Filter.MergeIsOverride` | index.js:100-105 | The sequence of writes equals overriding the old map with the written part of the loaded object. |
| `Plugin.KeyLinesInOrder` | index.js:100-103 | One `"\t - key"` line per surviving key, in key order. |
| `Plugin.ErrorReport` | index.js:111-118 | The error stream gets the banner and then a line made of two spaces and the error's message. |
| `Plugin.LoggingEnabled` | index.js:14-17 | Logging is off only when the settings define `logging` as false. It defaults to true. |
| `Plugin.InitialEnvironment` | index.js:10-11 | An existing `provider.environment` is kept as it is. An absent one starts as `{}`. |
| `Plugin.LoadEnvEffect` | index.js:60-119 | Merged: only the survivors are written, with their loaded values, and every other key is unchanged or stays absent. With logging on, there is one header line naming the file, then one line per survivor. Not found: the environment is unchanged, with exactly one "Could not find" line when logging is on. Errored: the environment and log are unchanged, the message reaches the error stream, and nothing escapes. With logging off, nothing is logged. |
| `Plugin.ExcludeIgnoredWithInclude` | index.js:68-78 | When `include` is set, changing `exclude` changes nothing in the whole effect of `loadEnv`. |
| `Plugin.ServerlessPlugin.constructor` | index.js:8-20 | Stores the settings and the logging flag, prepares the environment map, and leaves the state that `loadEnv` produces for the resolved environment name. |
| `Plugin.ServerlessPlugin.LoadEnv` | index.js:60-119 | The new environment, log and error stream are exactly those of `LoadEnvEffect` on the old ones. |
| `Plugin.ServerlessPlugin.MergeLoaded` | index.js:80-105 | Logs the header when logging is on, deletes the rejected keys, then writes the survivors: the environment becomes the merge of the survivors. |
| `Plugin.ServerlessPlugin.WriteRemaining` | index.js:100-105 | The write loop over the remaining keys, in order. The environment becomes the fold of their writes, and the log gains one line per key when logging is on. |
| `Scenarios.MergesEveryLoadedKey` | index.js:80-105 | With no filter, loading `FOO=1, BAR=2` sets both keys and logs the header plus one line per key. |
| `Scenarios.IncludeWritesOnlyListedKeys` | index.js:68-105 | `include: ["FOO"]` with `exclude: ["FOO"]` writes FOO only: the exclude list is ignored. With `logging` unset, the log is the header and one line for FOO. |
| `Scenarios.NotFoundLogsOnce` | index.js:106-110 | A falsy loader result leaves the environment unchanged. It logs one line with logging on and none with it off. |
| `Scenarios.FailureIsReported` | index.js:111-118 | A thrown "bad syntax" reaches the error stream and changes neither the environment nor the log. |
| `Scenarios.NodeEnvBeatsOption` | index.js:22-32 | `NODE_ENV=production` beats `--env staging`. An empty `NODE_ENV` falls through to the option, and an empty option falls through to `development`. |

## Left out

- The unconditional `console.log(envFileName)` (index.js:62) is debug output, independent of `logging`; it is not modelled.
- `chalk` colouring of the error lines is not modelled; the error stream holds the uncoloured text.
- `fs.existsSync` is the membership test in a set of existing paths.
- `path.resolve` is plain `dir + "/" + name`. There is no normalisation, and a relative `basePath` is not resolved against the working directory.
- `process.cwd()`, `__dirname` and `process.env.NODE_ENV` are parameters.
- The dynamically required loader module is an opaque total function from (module path, env-file path) to a result, because its code lies outside the plugin.
- A loaded object is modelled as its `Object.keys` order plus a string-to-string map. Non-string values, special keys such as `__proto__`, and truthy non-object loader results are not modelled.
- `include`/`exclude` are modelled only as arrays or absent. A truthy non-array value is not modelled: a string would filter by substring, and other values throw after the header line.
- `logging` is modelled as absent or a boolean. A defined but non-boolean value (such as `null`) is not modelled apart from its truthiness.
- `provider.environment` is modelled as a string-to-string map. Values of other types already in it (such as CloudFormation `{Ref: ...}` objects) are not modelled; the plugin only overwrites the surviving keys and leaves every other entry as it is, which the model states for string values.
- The rest of the host `serverless` object is not modelled. The model keeps only `provider.environment`, the settings and the `cli.log` lines.
- The write loop walks the snapshot of the loaded keys and skips the deleted ones, rather than calling `Object.keys` again. Both visit the remaining keys in the same order.
