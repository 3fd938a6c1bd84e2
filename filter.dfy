/**
 * The include/exclude filter and the merge of the surviving variables into the
 * provider's environment map.
 */
module Filter {
  import opened Values

  /** The filter `loadEnv` ends up applying: at most one of include and exclude. */
  datatype KeyFilter = KeepAll | KeepOnly(allowed: seq<string>) | Drop(denied: seq<string>)

  /**
   * A truthy `include` is used and `exclude` is then ignored entirely; `exclude` is
   * used only when `include` is falsy; with neither, every key is kept.
   */
  function ChooseFilter(config: Option<PluginSettings>): (f: KeyFilter)
    ensures config.Some? && config.value.includeKeys.Some? ==> f == KeepOnly(config.value.includeKeys.value)
    ensures f.Drop? <==> config.Some? && config.value.includeKeys.None? && config.value.excludeKeys.Some?
    ensures f.Drop? ==> f.denied == config.value.excludeKeys.value
    ensures f == KeepAll <==> config.None? || (config.value.includeKeys.None? && config.value.excludeKeys.None?)
  {
    if config.Some? && config.value.includeKeys.Some? then KeepOnly(config.value.includeKeys.value)
    else if config.Some? && config.value.excludeKeys.Some? then Drop(config.value.excludeKeys.value)
    else KeepAll
  }

  /** Whether a key survives the filter. */
  predicate Admits(f: KeyFilter, key: string) {
    match f
    case KeepAll => true
    case KeepOnly(allowed) => key in allowed
    case Drop(denied) => key !in denied
  }

  predicate Distinct(s: seq<string>) {
    forall i, j | 0 <= i < j < |s| :: s[i] != s[j]
  }

  /** The keys that survive the filter, in their original order. */
  function Survivors(keys: seq<string>, f: KeyFilter): seq<string>
    decreases |keys|
  {
    if keys == [] then []
    else if Admits(f, keys[|keys| - 1]) then Survivors(keys[..|keys| - 1], f) + [keys[|keys| - 1]]
    else Survivors(keys[..|keys| - 1], f)
  }

  /**
   * The survivors are exactly the keys of `keys` that the filter admits, none of them
   * twice when `keys` has no repetition.
   */
  lemma {:induction false} SurvivorsAreAdmitted(keys: seq<string>, f: KeyFilter)
    ensures forall k :: k in Survivors(keys, f) <==> k in keys && Admits(f, k)
    ensures |Survivors(keys, f)| <= |keys|
    ensures Distinct(keys) ==> Distinct(Survivors(keys, f))
    decreases |keys|
  {
    if keys != [] {
      var init, last := keys[..|keys| - 1], keys[|keys| - 1];
      assert keys == init + [last];
      SurvivorsAreAdmitted(init, f);
      assert Distinct(keys) ==> Distinct(init) && last !in init;
    }
  }

  /** With `include`, the survivors are exactly the loaded keys listed in it. */
  lemma IncludedKeySet(keys: seq<string>, allowed: seq<string>)
    ensures (set k | k in Survivors(keys, KeepOnly(allowed))) == (set k | k in keys) * (set k | k in allowed)
  {
    var kept := Survivors(keys, KeepOnly(allowed));
    SurvivorsAreAdmitted(keys, KeepOnly(allowed));
    forall k ensures k in kept <==> k in keys && k in allowed {
    }
  }

  /** With only `exclude`, the survivors are exactly the loaded keys not listed in it. */
  lemma ExcludedKeySet(keys: seq<string>, denied: seq<string>)
    ensures (set k | k in Survivors(keys, Drop(denied))) == (set k | k in keys) - (set k | k in denied)
  {
    var kept := Survivors(keys, Drop(denied));
    SurvivorsAreAdmitted(keys, Drop(denied));
    forall k ensures k in kept <==> k in keys && k !in denied {
    }
  }

  /**
   * An empty `include` array is still truthy: it keeps no key at all, and `exclude`
   * is not consulted.
   */
  lemma EmptyIncludeKeepsNothing(config: Option<PluginSettings>, keys: seq<string>)
    requires config.Some? && config.value.includeKeys == Some([])
    ensures ChooseFilter(config) == KeepOnly([])
    ensures Survivors(keys, ChooseFilter(config)) == []
  {
    var kept := Survivors(keys, KeepOnly([]));
    SurvivorsAreAdmitted(keys, KeepOnly([]));
    if kept != [] {
      assert kept[0] in kept;
    }
  }

  /** With neither, every loaded key survives, in its order. */
  lemma {:induction false} KeepAllKeepsEverything(keys: seq<string>)
    ensures Survivors(keys, KeepAll) == keys
    decreases |keys|
  {
    if keys != [] {
      var init := keys[..|keys| - 1];
      KeepAllKeepsEverything(init);
      assert keys == init + [keys[|keys| - 1]];
    }
  }

  /**
   * `Object.keys(envVars).filter(rejected).forEach(key => delete envVars[key])`: every
   * key of `keys` the filter rejects is deleted; nothing else changes.
   */
  method DeleteRejected(vars: map<string, string>, keys: seq<string>, f: KeyFilter)
    returns (remaining: map<string, string>)
    ensures forall k :: k in remaining <==> k in vars && !(k in keys && !Admits(f, k))
    ensures forall k | k in remaining :: remaining[k] == vars[k]
  {
    remaining := vars;
    var i := 0;
    while i < |keys|
      invariant 0 <= i <= |keys|
      invariant forall k :: k in remaining <==> k in vars && !(k in keys[..i] && !Admits(f, k))
      invariant forall k | k in remaining :: remaining[k] == vars[k]
    {
      var key := keys[i];
      assert keys[..i + 1] == keys[..i] + [key];
      if !Admits(f, key) {
        remaining := remaining - {key};
      }
      i := i + 1;
    }
    assert keys[..i] == keys;
  }

  /** The environment after `environment[key] = vars[key]` for each key of `written` in turn. */
  function Merge(environment: map<string, string>, vars: map<string, string>, written: seq<string>): map<string, string>
    requires forall k | k in written :: k in vars
    decreases |written|
  {
    if written == [] then environment
    else Merge(environment, vars, written[..|written| - 1])[written[|written| - 1] := vars[written[|written| - 1]]]
  }

  /**
   * Exactly the written keys are added or overwritten, each with its value in `vars`;
   * every other key keeps its value, and no key is removed.
   */
  lemma {:induction false} MergeWritesExactly(environment: map<string, string>, vars: map<string, string>, written: seq<string>)
    requires forall k | k in written :: k in vars
    ensures Merge(environment, vars, written).Keys == environment.Keys + (set k | k in written)
    ensures forall k | k in written :: Merge(environment, vars, written)[k] == vars[k]
    ensures forall k | k in environment && k !in written :: Merge(environment, vars, written)[k] == environment[k]
    decreases |written|
  {
    if written != [] {
      var init, last := written[..|written| - 1], written[|written| - 1];
      assert written == init + [last];
      MergeWritesExactly(environment, vars, init);
    }
  }

  /** The order of the writes does not matter: merging is overriding by the written part of `vars`. */
  lemma MergeIsOverride(environment: map<string, string>, vars: map<string, string>, written: seq<string>)
    requires forall k | k in written :: k in vars
    ensures Merge(environment, vars, written) == environment + map k | k in written :: vars[k]
  {
    MergeWritesExactly(environment, vars, written);
  }
}
