/**
 * The plugin object: its construction from the host's service description and
 * `loadEnv`, which merges the loaded variables into `provider.environment`.
 * The host's logger (`cli.log`) and the error stream are sequences of lines.
 */
module Plugin {
  import opened Values
  import opened Resolve
  import opened Filter

  const NotFoundLine := "DOTENV: Could not find .env file."
  const ErrorBanner := "\n Serverless Plugin Error --------------------------------------\n"

  function LoadingLine(file: string): string {
    "DOTENV: Loading environment variables from " + file + ":"
  }

  function KeyLine(key: string): string {
    "\t - " + key
  }

  /** The log lines for the written keys. */
  function KeyLines(keys: seq<string>): seq<string>
    decreases |keys|
  {
    if keys == [] then [] else KeyLines(keys[..|keys| - 1]) + [KeyLine(keys[|keys| - 1])]
  }

  /** One log line per key, in the keys' order. */
  lemma {:induction false} KeyLinesInOrder(keys: seq<string>)
    ensures |KeyLines(keys)| == |keys|
    ensures forall i | 0 <= i < |keys| :: KeyLines(keys)[i] == KeyLine(keys[i])
    decreases |keys|
  {
    if keys != [] {
      KeyLinesInOrder(keys[..|keys| - 1]);
    }
  }

  /** What goes to the error stream when the loader throws: a banner, then the message. */
  function ErrorReport(message: string): (lines: seq<string>)
    ensures |lines| == 2 && lines[0] == ErrorBanner
    ensures |lines[1]| == |message| + 2 && lines[1][..2] == "  " && lines[1][2..] == message
  {
    [ErrorBanner, "  " + message]
  }

  /** Logging is on unless the settings define `logging`; then it is that value. */
  function LoggingEnabled(config: Option<PluginSettings>): (on: bool)
    ensures !on <==> config.Some? && config.value.logging == Some(false)
  {
    if config.Some? && config.value.logging.Some? then config.value.logging.value else true
  }

  /** `provider.environment || {}`: an existing map is kept, an absent one starts empty. */
  function InitialEnvironment(provided: Option<map<string, string>>): (environment: map<string, string>)
    ensures provided.Some? ==> environment == provided.value
    ensures provided.None? ==> environment == map[]
  {
    if provided.Some? then provided.value else map[]
  }

  /** Everything `loadEnv` can change: the environment map, the log and the error stream. */
  datatype Sinks = Sinks(environment: map<string, string>, log: seq<string>, errors: seq<string>)

  /** The loader module, resolved as `resolvePluginConfigPath` does, called on the resolved env file. */
  function LoaderResult(config: Option<PluginSettings>, env: string, cwd: string, pluginDir: string,
                        files: set<string>, loader: (string, string) -> LoadResult): LoadResult
  {
    loader(ResolvePluginConfigPath(config, cwd, pluginDir, files), ResolveEnvFileName(config, env, cwd, files))
  }

  /** The keys of a loaded object that survive a filter, in `Object.keys` order. */
  function Kept(vars: JsObject, f: KeyFilter): (kept: seq<string>)
    ensures forall k :: k in kept ==> k in vars.values
  {
    SurvivorsAreAdmitted(vars.keys, f);
    Survivors(vars.keys, f)
  }

  /**
   * The effect of `loadEnv(env)` on the sinks. There are three outcomes:
   * - merged: exactly the surviving keys are written, each with its loaded value,
   *   and every other key keeps its value or stays absent; with logging on, one
   *   header line naming the file (even when no key survives) and one line per
   *   surviving key, in key order;
   * - not found: the environment is unchanged, and with logging on exactly one
   *   "not found" line is logged;
   * - errored: the environment and the log are unchanged, and the error stream
   *   receives the message; the error does not escape.
   * With logging off, no informational line is ever logged.
   */
  function LoadEnvEffect(before: Sinks, config: Option<PluginSettings>, logging: bool, env: string, cwd: string,
                         pluginDir: string, files: set<string>, loader: (string, string) -> LoadResult): (after: Sinks)
    ensures var result := LoaderResult(config, env, cwd, pluginDir, files, loader);
      && (!result.Loaded? ==> after.environment == before.environment)
      && (result.Loaded? ==>
            var kept := Kept(result.vars, ChooseFilter(config));
            && after.environment.Keys == before.environment.Keys + (set k | k in kept)
            && (forall k | k in kept :: after.environment[k] == result.vars.values[k])
            && (forall k | k in before.environment && k !in kept :: after.environment[k] == before.environment[k]))
    ensures var result := LoaderResult(config, env, cwd, pluginDir, files, loader);
      && (result.Failed? ==> after.errors == before.errors + ErrorReport(result.message) && after.log == before.log)
      && (!result.Failed? ==> after.errors == before.errors)
    ensures var result := LoaderResult(config, env, cwd, pluginDir, files, loader);
      && (!logging ==> after.log == before.log)
      && (logging && result.NotFound? ==> after.log == before.log + [NotFoundLine])
      && (logging && result.Loaded? ==>
            var kept, n := Kept(result.vars, ChooseFilter(config)), |before.log|;
            && |after.log| == n + 1 + |kept|
            && after.log[..n] == before.log
            && after.log[n] == LoadingLine(ResolveEnvFileName(config, env, cwd, files))
            && (forall i | 0 <= i < |kept| :: after.log[n + 1 + i] == KeyLine(kept[i])))
  {
    var file := ResolveEnvFileName(config, env, cwd, files);
    match LoaderResult(config, env, cwd, pluginDir, files, loader)
    case Failed(message) => before.(errors := before.errors + ErrorReport(message))
    case NotFound => if logging then before.(log := before.log + [NotFoundLine]) else before
    case Loaded(vars) =>
      var kept := Kept(vars, ChooseFilter(config));
      MergeWritesExactly(before.environment, vars.values, kept);
      KeyLinesInOrder(kept);
      var log := if logging then before.log + [LoadingLine(file)] + KeyLines(kept) else before.log;
      Sinks(Merge(before.environment, vars.values, kept), log, before.errors)
  }

  /** When `include` is set, what `exclude` says makes no difference at all. */
  lemma ExcludeIgnoredWithInclude(before: Sinks, settings: PluginSettings, otherExclude: Option<seq<string>>,
                                  env: string, cwd: string, pluginDir: string, files: set<string>,
                                  loader: (string, string) -> LoadResult)
    requires settings.includeKeys.Some?
    ensures var other := Some(settings.(excludeKeys := otherExclude));
      LoadEnvEffect(before, Some(settings), LoggingEnabled(Some(settings)), env, cwd, pluginDir, files, loader)
      == LoadEnvEffect(before, other, LoggingEnabled(other), env, cwd, pluginDir, files, loader)
  {
    var other := Some(settings.(excludeKeys := otherExclude));
    assert ChooseFilter(Some(settings)) == ChooseFilter(other);
    assert ResolveEnvFileName(Some(settings), env, cwd, files) == ResolveEnvFileName(other, env, cwd, files);
    assert LoaderResult(Some(settings), env, cwd, pluginDir, files, loader)
      == LoaderResult(other, env, cwd, pluginDir, files, loader);
  }

  // One iteration of the write loop, one fact at a time.

  lemma StepSurvivors(keys: seq<string>, i: nat, f: KeyFilter)
    requires i < |keys|
    ensures Admits(f, keys[i]) ==> Survivors(keys[..i + 1], f) == Survivors(keys[..i], f) + [keys[i]]
    ensures !Admits(f, keys[i]) ==> Survivors(keys[..i + 1], f) == Survivors(keys[..i], f)
  {
    assert keys[..i + 1][..i] == keys[..i];
  }

  lemma StepLog(log0: seq<string>, written: seq<string>, key: string)
    ensures log0 + KeyLines(written + [key]) == log0 + KeyLines(written) + [KeyLine(key)]
  {
    assert (written + [key])[..|written|] == written;
  }

  lemma StepMerge(environment: map<string, string>, vars: map<string, string>, done: seq<string>, key: string)
    requires forall k | k in done :: k in vars
    requires key in vars
    ensures Merge(environment, vars, done + [key]) == Merge(environment, vars, done)[key := vars[key]]
  {
    assert (done + [key])[..|done|] == done;
  }

  class ServerlessPlugin {
    /** The host's `provider.environment`. */
    var environment: map<string, string>
    /** The lines sent to the host's `cli.log`. */
    var log: seq<string>
    /** The lines sent to the error stream. */
    var errors: seq<string>
    /** `custom.dotenv`, absent when the service does not define it. */
    var config: Option<PluginSettings>
    var logging: bool

    /**
     * Prepares `provider.environment`, reads the settings and the logging flag,
     * then loads the variables for the resolved environment.
     */
    constructor (provided: Option<map<string, string>>, dotenv: Option<PluginSettings>,
                 nodeEnv: Option<string>, optionsEnv: Option<string>,
                 cwd: string, pluginDir: string, files: set<string>, loader: (string, string) -> LoadResult)
      ensures config == dotenv && logging == LoggingEnabled(dotenv)
      ensures Sinks(environment, log, errors)
        == LoadEnvEffect(Sinks(InitialEnvironment(provided), [], []), dotenv, LoggingEnabled(dotenv),
                         GetEnvironment(nodeEnv, optionsEnv), cwd, pluginDir, files, loader)
    {
      environment := InitialEnvironment(provided);
      config := dotenv;
      logging := LoggingEnabled(dotenv);
      log := [];
      errors := [];
      new;
      LoadEnv(GetEnvironment(nodeEnv, optionsEnv), cwd, pluginDir, files, loader);
    }

    /**
     * Resolves the env file and the loader module, calls the loader and, on success,
     * deletes the filtered-out keys and writes the rest into the environment one by
     * one, logging as it goes. A thrown error is caught and reported.
     */
    method LoadEnv(env: string, cwd: string, pluginDir: string, files: set<string>,
                   loader: (string, string) -> LoadResult)
      modifies this`environment, this`log, this`errors
      ensures Sinks(environment, log, errors)
        == LoadEnvEffect(Sinks(old(environment), old(log), old(errors)), config, logging,
                         env, cwd, pluginDir, files, loader)
    {
      var envFileName := ResolveEnvFileName(config, env, cwd, files);
      var pluginConfigPath := ResolvePluginConfigPath(config, cwd, pluginDir, files);
      match loader(pluginConfigPath, envFileName)
      case Failed(message) =>
        errors := errors + ErrorReport(message);
      case NotFound =>
        if logging {
          log := log + [NotFoundLine];
        }
      case Loaded(envVars) =>
        MergeLoaded(envFileName, envVars, ChooseFilter(config));
    }

    /**
     * The successful branch of `loadEnv`: logs the header, deletes the keys the filter
     * rejects, then writes each remaining key into the environment, logging it.
     */
    method MergeLoaded(envFileName: string, envVars: JsObject, filter: KeyFilter)
      modifies this`environment, this`log
      ensures environment == Merge(old(environment), envVars.values, Kept(envVars, filter))
      ensures logging ==> log == old(log) + [LoadingLine(envFileName)] + KeyLines(Kept(envVars, filter))
      ensures !logging ==> log == old(log)
    {
      if logging {
        log := log + [LoadingLine(envFileName)];
      }
      var vars := envVars.values;
      if filter != KeepAll {
        vars := DeleteRejected(vars, envVars.keys, filter);
      }
      assert forall k | k in envVars.keys :: k in vars <==> Admits(filter, k);
      WriteRemaining(envVars.keys, envVars.values, vars, filter);
    }

    /**
     * `Object.keys(envVars).forEach(...)` after the deletion pass: each remaining key, in
     * its original order, is logged and written into the environment with its value.
     */
    method WriteRemaining(keys: seq<string>, values: map<string, string>, vars: map<string, string>, filter: KeyFilter)
      requires forall k | k in keys :: k in values
      requires forall k | k in keys :: k in vars <==> Admits(filter, k)
      requires forall k | k in vars :: k in values && vars[k] == values[k]
      modifies this`environment, this`log
      ensures environment == Merge(old(environment), values, (SurvivorsAreAdmitted(keys, filter); Survivors(keys, filter)))
      ensures logging ==> log == old(log) + KeyLines(Survivors(keys, filter))
      ensures !logging ==> log == old(log)
    {
      ghost var environment0, log0 := environment, log;
      ghost var written: seq<string> := [];
      var verbose := logging;
      var i := 0;
      assert keys[..0] == [];
      while i < |keys|
        invariant 0 <= i <= |keys|
        invariant written == Survivors(keys[..i], filter)
        invariant forall k | k in written :: k in values
        invariant environment == Merge(environment0, values, written)
        invariant verbose ==> log == log0 + KeyLines(written)
        invariant !verbose ==> log == log0
      {
        var key := keys[i];
        StepSurvivors(keys, i, filter);
        if key in vars {
          StepMerge(environment0, values, written, key);
          if verbose {
            StepLog(log0, written, key);
            log := log + [KeyLine(key)];
          }
          environment := environment[key := vars[key]];
          written := written + [key];
        }
        i := i + 1;
      }
      assert keys[..i] == keys;
    }
  }
}
