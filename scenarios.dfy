/**
 * Concrete runs of `loadEnv`: a loader that finds `FOO=1` and `BAR=2`, one that finds
 * nothing and one that throws.
 */
module Scenarios {
  import opened Values
  import opened Resolve
  import opened Filter
  import opened Plugin

  const FooBar: JsObject := EnvVars(["FOO", "BAR"], map["FOO" := "1", "BAR" := "2"])

  function NoSettings(): PluginSettings {
    PluginSettings(None, None, None, None, None)
  }

  /** No filter: both variables are merged, with a header and one line per key. */
  lemma MergesEveryLoadedKey(before: map<string, string>)
    ensures var after := LoadEnvEffect(Sinks(before, [], []), None, true, "development", "/app", "/plugin", {},
                                       (loaderPath, file) => Loaded(FooBar));
      && after.environment == before["FOO" := "1"]["BAR" := "2"]
      && after.log == [LoadingLine(Join("/app", ".env")), KeyLine("FOO"), KeyLine("BAR")]
      && after.errors == []
  {
    var keys := FooBar.keys;
    KeepAllKeepsEverything(keys);
    assert Kept(FooBar, KeepAll) == keys;
    assert keys[..1] == ["FOO"] && keys[..1][..0] == [];
    assert Merge(before, FooBar.values, keys) == before["FOO" := "1"]["BAR" := "2"];
    assert KeyLines(keys) == [KeyLine("FOO"), KeyLine("BAR")];
  }

  /** `include: ["FOO"]`: only FOO is written, and BAR keeps whatever it had. */
  lemma IncludeWritesOnlyListedKeys(before: map<string, string>)
    ensures var config := Some(NoSettings().(includeKeys := Some(["FOO"]), excludeKeys := Some(["FOO"])));
      var after := LoadEnvEffect(Sinks(before, [], []), config, LoggingEnabled(config), "production", "/app",
                                 "/plugin", {}, (loaderPath, file) => Loaded(FooBar));
      && after.environment == before["FOO" := "1"]
      && after.log == [LoadingLine(Join("/app", ".env")), KeyLine("FOO")]
  {
    var f := KeepOnly(["FOO"]);
    assert FooBar.keys[..1] == ["FOO"];
    assert Survivors(["FOO"], f) == ["FOO"];
    assert Survivors(FooBar.keys, f) == ["FOO"];
    assert KeyLines(["FOO"]) == [KeyLine("FOO")];
  }

  /** The loader finds nothing: one "not found" line with logging on, none with it off. */
  lemma NotFoundLogsOnce(before: map<string, string>, logging: bool)
    ensures var after := LoadEnvEffect(Sinks(before, [], []), None, logging, "development", "/app", "/plugin", {},
                                       (loaderPath, file) => NotFound);
      && after.environment == before
      && after.log == (if logging then [NotFoundLine] else [])
  {
  }

  /** The loader throws "bad syntax": the message reaches the error stream and nothing else changes. */
  lemma FailureIsReported(before: map<string, string>)
    ensures var after := LoadEnvEffect(Sinks(before, [], []), None, true, "development", "/app", "/plugin", {},
                                       (loaderPath, file) => Failed("bad syntax"));
      && after.environment == before
      && after.log == []
      && |after.errors| == 2 && after.errors[0] == ErrorBanner && after.errors[1][2..] == "bad syntax"
  {
  }

  /** `NODE_ENV=production` beats `--env staging`. */
  lemma NodeEnvBeatsOption()
    ensures GetEnvironment(Some("production"), Some("staging")) == "production"
    ensures GetEnvironment(Some(""), Some("staging")) == "staging"
    ensures GetEnvironment(None, Some("")) == "development"
  {
  }
}
