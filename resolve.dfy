/**
 * Which environment is active and which files the plugin reads for it.
 * The file system is the set of paths that exist, and `path.resolve(dir, name)`
 * is `dir + "/" + name`.
 */
module Resolve {
  import opened Values

  const DefaultEnvironment := "development"
  const PluginConfigName := "dotenv.config.js"

  /**
   * The environment name: `NODE_ENV` when it is set and non-empty, else the `env`
   * option when it is non-empty, else "development".
   */
  function GetEnvironment(nodeEnv: Option<string>, optionsEnv: Option<string>): (env: string)
    ensures env != ""
    ensures Truthy(nodeEnv) ==> env == nodeEnv.value
    ensures !Truthy(nodeEnv) && Truthy(optionsEnv) ==> env == optionsEnv.value
    ensures !Truthy(nodeEnv) && !Truthy(optionsEnv) ==> env == DefaultEnvironment
  {
    if Truthy(nodeEnv) then nodeEnv.value
    else if Truthy(optionsEnv) then optionsEnv.value
    else DefaultEnvironment
  }

  /** The first truthy candidate in order of precedence, or the fallback when there is none. */
  function FirstTruthy(candidates: seq<Option<string>>, fallback: string): (r: string)
    ensures (forall i | 0 <= i < |candidates| :: !Truthy(candidates[i])) ==> r == fallback
    ensures fallback != "" ==> r != ""
    ensures r == fallback || exists i | 0 <= i < |candidates| :: candidates[i] == Some(r)
    ensures forall i | 0 <= i < |candidates| && Truthy(candidates[i]) &&
                       (forall j | 0 <= j < i :: !Truthy(candidates[j])) :: r == candidates[i].value
  {
    if candidates == [] then fallback
    else if Truthy(candidates[0]) then candidates[0].value
    else
      var r := FirstTruthy(candidates[1..], fallback);
      assert r != fallback ==> exists i | 0 <= i < |candidates[1..]| :: candidates[1..][i] == Some(r);
      r
  }

  /** `NODE_ENV` ranks above the caller's option, and both above the default. */
  lemma GetEnvironmentPrecedence(nodeEnv: Option<string>, optionsEnv: Option<string>)
    ensures GetEnvironment(nodeEnv, optionsEnv) == FirstTruthy([nodeEnv, optionsEnv], DefaultEnvironment)
  {
    var c := [nodeEnv, optionsEnv];
    if !Truthy(nodeEnv) {
      assert c[1..] == [optionsEnv];
      if !Truthy(optionsEnv) {
        assert c[1..][1..] == [];
      }
    }
  }

  function Join(dir: string, name: string): string {
    dir + "/" + name
  }

  /**
   * The shared "local file if it exists, else the default" rule of both lookups.
   */
  function PreferExisting(local: string, fallback: string, files: set<string>): (r: string)
    ensures local in files ==> r == local
    ensures local !in files ==> r == fallback
  {
    if local in files then local else fallback
  }

  function ExplicitPath(config: Option<PluginSettings>): Option<string> {
    if config.Some? then config.value.path else None
  }

  /** `config.basePath` when it is truthy, else the working directory. */
  function BasePath(config: Option<PluginSettings>, cwd: string): (base: string)
    ensures config.Some? && Truthy(config.value.basePath) ==> base == config.value.basePath.value
    ensures !(config.Some? && Truthy(config.value.basePath)) ==> base == cwd
  {
    if config.Some? && Truthy(config.value.basePath) then config.value.basePath.value else cwd
  }

  function EnvSpecificFile(config: Option<PluginSettings>, env: string, cwd: string): string {
    Join(BasePath(config, cwd), ".env." + env)
  }

  function DefaultEnvFile(config: Option<PluginSettings>, cwd: string): string {
    Join(BasePath(config, cwd), ".env")
  }

  /**
   * The env file to load. A truthy `path` setting is returned as it is, whatever the
   * base directory, the environment and the file system. Otherwise the result is
   * `<base>/.env.<env>` exactly when that file exists, and `<base>/.env` when it does not.
   */
  function ResolveEnvFileName(config: Option<PluginSettings>, env: string, cwd: string, files: set<string>): (file: string)
    ensures Truthy(ExplicitPath(config)) ==> file == ExplicitPath(config).value
    ensures !Truthy(ExplicitPath(config)) ==>
      && (file == EnvSpecificFile(config, env, cwd) <==> EnvSpecificFile(config, env, cwd) in files)
      && (file != EnvSpecificFile(config, env, cwd) ==> file == DefaultEnvFile(config, cwd))
  {
    if Truthy(ExplicitPath(config)) then ExplicitPath(config).value
    else
      assert |EnvSpecificFile(config, env, cwd)| != |DefaultEnvFile(config, cwd)|;
      PreferExisting(EnvSpecificFile(config, env, cwd), DefaultEnvFile(config, cwd), files)
  }

  /**
   * The loader module: `<base>/dotenv.config.js` when it exists, else the one shipped
   * in the plugin's own directory.
   */
  function ResolvePluginConfigPath(config: Option<PluginSettings>, cwd: string, pluginDir: string, files: set<string>): (loaderPath: string)
    ensures Join(BasePath(config, cwd), PluginConfigName) in files ==> loaderPath == Join(BasePath(config, cwd), PluginConfigName)
    ensures Join(BasePath(config, cwd), PluginConfigName) !in files ==> loaderPath == Join(pluginDir, PluginConfigName)
  {
    PreferExisting(Join(BasePath(config, cwd), PluginConfigName), Join(pluginDir, PluginConfigName), files)
  }
}
