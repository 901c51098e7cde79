/**
 * How FetchAnalyzerAssemblies finds the analyzer plugins for a set of active rules:
 * each rule's repository key gives at most one partial repository key, and each
 * partial key gives a plugin when the server settings publish its three properties.
 */
module AssemblyResolution {
  import opened Wrappers
  import opened Paths
  import opened Model

  const RoslynRepositoryPrefix: string := "roslyn."
  const SonarAnalyzerPartialRepoKeyPrefix: string := "sonaranalyzer-"
  const CSharpSquidRepositoryKey: string := "csharpsquid"
  const VBNetRepositoryKey: string := "vbnet"

  const PluginKeySuffix: string := ".pluginKey"
  const PluginVersionSuffix: string := ".pluginVersion"
  const StaticResourceNameSuffix: string := ".staticResourceName"

  /** string.Format("sonaranalyzer-{0}", language). */
  function SonarAnalyzerPartialRepoKey(language: string): string {
    SonarAnalyzerPartialRepoKeyPrefix + language
  }

  /** A repository key of the language's own SonarAnalyzer rules. */
  predicate IsSonarAnalyzerRepository(repoKey: string) {
    repoKey == CSharpSquidRepositoryKey || repoKey == VBNetRepositoryKey
  }

  /**
   * The partial repository key one active rule contributes: the rest of a "roslyn."
   * key, the language's SonarAnalyzer key for "csharpsquid" and "vbnet", else none.
   */
  function PartialRepoKeyOf(rule: ActiveRule, language: string): (key: Option<string>)
    ensures key.Some? <==> StartsWith(rule.repoKey, RoslynRepositoryPrefix) || IsSonarAnalyzerRepository(rule.repoKey)
    ensures key.Some? && StartsWith(rule.repoKey, RoslynRepositoryPrefix) ==> RoslynRepositoryPrefix + key.value == rule.repoKey
    ensures key.Some? && !StartsWith(rule.repoKey, RoslynRepositoryPrefix) ==> key.value == SonarAnalyzerPartialRepoKey(language)
  {
    if StartsWith(rule.repoKey, RoslynRepositoryPrefix) then
      assert rule.repoKey == RoslynRepositoryPrefix + rule.repoKey[|RoslynRepositoryPrefix|..];
      Some(rule.repoKey[|RoslynRepositoryPrefix|..])
    else if IsSonarAnalyzerRepository(rule.repoKey) then Some(SonarAnalyzerPartialRepoKey(language))
    else None
  }

  /** The set ActiveRulesPartialRepoKey builds, rule by rule. */
  function PartialRepoKeys(rules: seq<ActiveRule>, language: string): set<string>
    decreases |rules|
  {
    if rules == [] then {}
    else
      var front := PartialRepoKeys(rules[..|rules| - 1], language);
      match PartialRepoKeyOf(rules[|rules| - 1], language)
      case Some(key) => front + {key}
      case None => front
  }

  /** "csharpsquid" and "vbnet" are not "roslyn." keys, so the two branches never overlap. */
  lemma SonarAnalyzerRepositoryIsNotRoslyn(repoKey: string)
    requires IsSonarAnalyzerRepository(repoKey)
    ensures !StartsWith(repoKey, RoslynRepositoryPrefix)
  {
    assert repoKey[0] != RoslynRepositoryPrefix[0];
  }

  /** The key one rule contributes, stated without the prefix arithmetic. */
  lemma PartialRepoKeyOfIs(rule: ActiveRule, language: string, key: string)
    ensures PartialRepoKeyOf(rule, language) == Some(key) <==>
      || rule.repoKey == RoslynRepositoryPrefix + key
      || (key == SonarAnalyzerPartialRepoKey(language) && IsSonarAnalyzerRepository(rule.repoKey))
  {
    var roslyn := RoslynRepositoryPrefix + key;
    assert StartsWith(roslyn, RoslynRepositoryPrefix) && roslyn[|RoslynRepositoryPrefix|..] == key;
    if IsSonarAnalyzerRepository(rule.repoKey) {
      SonarAnalyzerRepositoryIsNotRoslyn(rule.repoKey);
    }
    if StartsWith(rule.repoKey, RoslynRepositoryPrefix) && PartialRepoKeyOf(rule, language) == Some(key) {
      assert rule.repoKey == roslyn;
    }
  }

  /**
   * A partial key is derived exactly when some rule's repository key is "roslyn." followed
   * by it, or it is the language's SonarAnalyzer key and some rule is "csharpsquid" or "vbnet".
   */
  lemma {:induction false} PartialRepoKeysMembership(rules: seq<ActiveRule>, language: string, key: string)
    ensures key in PartialRepoKeys(rules, language) <==>
      || (exists rule :: rule in rules && rule.repoKey == RoslynRepositoryPrefix + key)
      || (key == SonarAnalyzerPartialRepoKey(language) && exists rule :: rule in rules && IsSonarAnalyzerRepository(rule.repoKey))
  {
    if rules != [] {
      var front, last := rules[..|rules| - 1], rules[|rules| - 1];
      assert rules == front + [last];
      PartialRepoKeysMembership(front, language, key);
      PartialRepoKeyOfIs(last, language, key);
      assert key in PartialRepoKeys(rules, language) <==>
        key in PartialRepoKeys(front, language) || PartialRepoKeyOf(last, language) == Some(key);
      forall rule | rule in rules
        ensures rule in front || rule == last
      {
      }
    }
  }

  /** The partial keys of three examples: both C# rule kinds lead to "sonaranalyzer-cs". */
  lemma PartialRepoKeysConverge(parameters: map<string, string>)
    ensures PartialRepoKeys([ActiveRule("roslyn.sonaranalyzer-cs", "S100", parameters)], "cs") == {"sonaranalyzer-cs"}
    ensures PartialRepoKeys([ActiveRule("csharpsquid", "S100", parameters)], "cs") == {"sonaranalyzer-cs"}
    ensures PartialRepoKeys([ActiveRule("vbnet", "S100", parameters), ActiveRule("other", "S1", parameters)], "vbnet")
         == {"sonaranalyzer-vbnet"}
  {
    var rule := ActiveRule("roslyn.sonaranalyzer-cs", "S100", parameters);
    assert StartsWith(rule.repoKey, RoslynRepositoryPrefix);
    SonarAnalyzerRepositoryIsNotRoslyn("csharpsquid");
    SonarAnalyzerRepositoryIsNotRoslyn("vbnet");
    assert !StartsWith("other", RoslynRepositoryPrefix) by {
      assert "other"[0] != RoslynRepositoryPrefix[0];
    }
    assert SonarAnalyzerPartialRepoKey("cs") == "sonaranalyzer-cs";
    assert SonarAnalyzerPartialRepoKey("vbnet") == "sonaranalyzer-vbnet";
    var one := [ActiveRule("csharpsquid", "S100", parameters)];
    assert one[..0] == [];
    assert PartialRepoKeyOf(one[0], "cs") == Some("sonaranalyzer-cs");
    var two := [ActiveRule("vbnet", "S100", parameters), ActiveRule("other", "S1", parameters)];
    assert two[..1] == [two[0]] && two[..1][..0] == [];
    assert PartialRepoKeyOf(two[0], "vbnet") == Some("sonaranalyzer-vbnet");
    assert PartialRepoKeyOf(two[1], "vbnet") == None;
    assert PartialRepoKeys(two[..1], "vbnet") == {"sonaranalyzer-vbnet"};
  }

  /**
   * ActiveRulesPartialRepoKey: collects the partial repository keys of the active
   * rules into a set, so each key appears once.
   */
  method ActiveRulesPartialRepoKey(activeRules: seq<ActiveRule>, language: string) returns (keys: set<string>)
    ensures keys == PartialRepoKeys(activeRules, language)
  {
    keys := {};
    var i := 0;
    while i < |activeRules|
      invariant 0 <= i <= |activeRules|
      invariant keys == PartialRepoKeys(activeRules[..i], language)
    {
      var rule := activeRules[i];
      if StartsWith(rule.repoKey, RoslynRepositoryPrefix) {
        keys := keys + {rule.repoKey[|RoslynRepositoryPrefix|..]};
      } else if rule.repoKey == CSharpSquidRepositoryKey || rule.repoKey == VBNetRepositoryKey {
        keys := keys + {SonarAnalyzerPartialRepoKey(language)};
      }
      assert activeRules[..i + 1][..i] == activeRules[..i];
      i := i + 1;
    }
    assert activeRules[..i] == activeRules;
  }

  /** partialRepoKey + ".pluginKey" */
  function PluginKeyPropertyKey(partialRepoKey: string): (property: string)
    ensures StartsWith(property, partialRepoKey) && EndsWith(property, PluginKeySuffix)
    ensures |property| == |partialRepoKey| + |PluginKeySuffix|
  {
    partialRepoKey + PluginKeySuffix
  }

  /** partialRepoKey + ".pluginVersion" */
  function PluginVersionPropertyKey(partialRepoKey: string): (property: string)
    ensures StartsWith(property, partialRepoKey) && EndsWith(property, PluginVersionSuffix)
    ensures |property| == |partialRepoKey| + |PluginVersionSuffix|
  {
    partialRepoKey + PluginVersionSuffix
  }

  /** partialRepoKey + ".staticResourceName" */
  function StaticResourceNamePropertyKey(partialRepoKey: string): (property: string)
    ensures StartsWith(property, partialRepoKey) && EndsWith(property, StaticResourceNameSuffix)
    ensures |property| == |partialRepoKey| + |StaticResourceNameSuffix|
  {
    partialRepoKey + StaticResourceNameSuffix
  }

  lemma {:induction false} SameSuffixSamePrefix(a: string, b: string, suffix: string)
    requires a + suffix == b + suffix
    ensures a == b
  {
    assert a == (a + suffix)[..|a|];
    assert b == (b + suffix)[..|b|];
  }

  /**
   * The property keys name their partial key and their kind unambiguously: no two
   * different (partial key, kind) pairs share a server setting.
   */
  lemma PropertyKeysUnambiguous(key1: string, key2: string)
    ensures PluginKeyPropertyKey(key1) == PluginKeyPropertyKey(key2) <==> key1 == key2
    ensures PluginVersionPropertyKey(key1) == PluginVersionPropertyKey(key2) <==> key1 == key2
    ensures StaticResourceNamePropertyKey(key1) == StaticResourceNamePropertyKey(key2) <==> key1 == key2
    ensures PluginKeyPropertyKey(key1) != PluginVersionPropertyKey(key2)
    ensures PluginKeyPropertyKey(key1) != StaticResourceNamePropertyKey(key2)
    ensures PluginVersionPropertyKey(key1) != StaticResourceNamePropertyKey(key2)
  {
    if PluginKeyPropertyKey(key1) == PluginKeyPropertyKey(key2) {
      SameSuffixSamePrefix(key1, key2, PluginKeySuffix);
    }
    if PluginVersionPropertyKey(key1) == PluginVersionPropertyKey(key2) {
      SameSuffixSamePrefix(key1, key2, PluginVersionSuffix);
    }
    if StaticResourceNamePropertyKey(key1) == StaticResourceNamePropertyKey(key2) {
      SameSuffixSamePrefix(key1, key2, StaticResourceNameSuffix);
    }
    var k, v, s := PluginKeyPropertyKey(key1), PluginVersionPropertyKey(key2), StaticResourceNamePropertyKey(key2);
    EndsWithLast(k, PluginKeySuffix);
    EndsWithLast(v, PluginVersionSuffix);
    EndsWithLast(s, StaticResourceNameSuffix);
    EndsWithLast(PluginVersionPropertyKey(key1), PluginVersionSuffix);
  }

  /** The plugin a partial key resolves to: all three properties must be present. */
  function ResolvePlugin(serverSettings: map<string, string>, partialRepoKey: string): Option<Plugin> {
    var keyProperty := PluginKeyPropertyKey(partialRepoKey);
    var versionProperty := PluginVersionPropertyKey(partialRepoKey);
    var resourceProperty := StaticResourceNamePropertyKey(partialRepoKey);
    if keyProperty in serverSettings && versionProperty in serverSettings && resourceProperty in serverSettings
    then Some(Plugin(serverSettings[keyProperty], serverSettings[versionProperty], serverSettings[resourceProperty]))
    else None
  }

  /** The three server settings by which a server publishes `plugin` under `partialRepoKey`. */
  function PluginProperties(partialRepoKey: string, plugin: Plugin): map<string, string> {
    map[PluginKeyPropertyKey(partialRepoKey) := plugin.key,
        PluginVersionPropertyKey(partialRepoKey) := plugin.version,
        StaticResourceNamePropertyKey(partialRepoKey) := plugin.staticResourceName]
  }

  predicate IsSubMap(small: map<string, string>, large: map<string, string>) {
    forall k :: k in small ==> k in large && large[k] == small[k]
  }

  /**
   * A partial key resolves to `plugin` exactly when the server settings publish that
   * plugin's three properties under the key; whatever else they hold does not matter.
   */
  lemma ResolvePluginIffPublished(serverSettings: map<string, string>, partialRepoKey: string, plugin: Plugin)
    ensures ResolvePlugin(serverSettings, partialRepoKey) == Some(plugin)
        <==> IsSubMap(PluginProperties(partialRepoKey, plugin), serverSettings)
  {
    PropertyKeysUnambiguous(partialRepoKey, partialRepoKey);
    var published := PluginProperties(partialRepoKey, plugin);
    if IsSubMap(published, serverSettings) {
      assert PluginKeyPropertyKey(partialRepoKey) in published;
      assert PluginVersionPropertyKey(partialRepoKey) in published;
      assert StaticResourceNamePropertyKey(partialRepoKey) in published;
    }
  }

  /** A server that publishes a plugin under a key makes that key resolve to it (round trip). */
  lemma PublishedPluginResolves(serverSettings: map<string, string>, partialRepoKey: string, plugin: Plugin)
    ensures ResolvePlugin(serverSettings + PluginProperties(partialRepoKey, plugin), partialRepoKey) == Some(plugin)
  {
    ResolvePluginIffPublished(serverSettings + PluginProperties(partialRepoKey, plugin), partialRepoKey, plugin);
  }

  /** The plugins of the keys taken in `order`, keys without plugin metadata skipped. */
  function ResolveAll(serverSettings: map<string, string>, order: seq<string>): seq<Plugin>
    decreases |order|
  {
    if order == [] then []
    else
      var front := ResolveAll(serverSettings, order[..|order| - 1]);
      match ResolvePlugin(serverSettings, order[|order| - 1])
      case Some(plugin) => front + [plugin]
      case None => front
  }

  predicate Distinct(order: seq<string>) {
    forall i, j :: 0 <= i < j < |order| ==> order[i] != order[j]
  }

  /** `order` lists each key of `keys` once: one possible iteration order of a HashSet. */
  ghost predicate IsEnumeration(order: seq<string>, keys: set<string>) {
    Distinct(order) && forall key :: key in order <==> key in keys
  }

  /** The keys of `keys` that resolve to a plugin. */
  function ResolvableKeys(serverSettings: map<string, string>, keys: set<string>): set<string> {
    set key | key in keys && ResolvePlugin(serverSettings, key).Some?
  }

  /** `plugins` is what the resolution loop appends, for some iteration order of `keys`. */
  ghost predicate ResolvedPluginList(plugins: seq<Plugin>, keys: set<string>, serverSettings: map<string, string>) {
    exists order :: IsEnumeration(order, keys) && plugins == ResolveAll(serverSettings, order)
  }

  lemma {:induction false} ResolveAllMembership(serverSettings: map<string, string>, order: seq<string>, plugin: Plugin)
    ensures plugin in ResolveAll(serverSettings, order)
        <==> exists key :: key in order && ResolvePlugin(serverSettings, key) == Some(plugin)
  {
    if order != [] {
      var front, last := order[..|order| - 1], order[|order| - 1];
      assert order == front + [last];
      ResolveAllMembership(serverSettings, front, plugin);
      forall key | key in order
        ensures key in front || key == last
      {
      }
    }
  }

  lemma {:induction false} ResolveAllLength(serverSettings: map<string, string>, order: seq<string>)
    requires Distinct(order)
    ensures |ResolveAll(serverSettings, order)| == |set key | key in order && ResolvePlugin(serverSettings, key).Some?|
  {
    if order == [] {
      assert (set key | key in order && ResolvePlugin(serverSettings, key).Some?) == {};
    } else {
      var front := order[..|order| - 1];
      assert Distinct(front);
      ResolveAllLength(serverSettings, front);
      ResolvingKeysSnoc(serverSettings, order);
      DistinctLastNotInFront(order);
    }
  }

  /** Over distinct keys, each plugin occurs once per key that resolves to it: duplicates are kept. */
  lemma {:induction false} ResolveAllCount(serverSettings: map<string, string>, order: seq<string>, plugin: Plugin)
    requires Distinct(order)
    ensures multiset(ResolveAll(serverSettings, order))[plugin] == |KeysResolvingTo(serverSettings, order, plugin)|
  {
    if order == [] {
      assert KeysResolvingTo(serverSettings, order, plugin) == {};
    } else {
      var front, last := order[..|order| - 1], order[|order| - 1];
      assert Distinct(front);
      ResolveAllCount(serverSettings, front, plugin);
      KeysResolvingToSnoc(serverSettings, order, plugin);
      DistinctLastNotInFront(order);
      var resolved := ResolveAll(serverSettings, front);
      match ResolvePlugin(serverSettings, last)
      case Some(other) =>
        assert multiset(resolved + [other]) == multiset(resolved) + multiset{other};
      case None =>
    }
  }

  /** The keys of `order` that resolve to `plugin`. */
  function KeysResolvingTo(serverSettings: map<string, string>, order: seq<string>, plugin: Plugin): set<string> {
    set key | key in order && ResolvePlugin(serverSettings, key) == Some(plugin)
  }

  lemma KeysResolvingToSnoc(serverSettings: map<string, string>, order: seq<string>, plugin: Plugin)
    requires order != []
    ensures var front, last := order[..|order| - 1], order[|order| - 1];
      KeysResolvingTo(serverSettings, order, plugin)
      == KeysResolvingTo(serverSettings, front, plugin) + (if ResolvePlugin(serverSettings, last) == Some(plugin) then {last} else {})
  {
    assert order == order[..|order| - 1] + [order[|order| - 1]];
  }

  lemma ResolvingKeysSnoc(serverSettings: map<string, string>, order: seq<string>)
    requires order != []
    ensures var front, last := order[..|order| - 1], order[|order| - 1];
      (set key | key in order && ResolvePlugin(serverSettings, key).Some?)
      == (set key | key in front && ResolvePlugin(serverSettings, key).Some?)
         + (if ResolvePlugin(serverSettings, last).Some? then {last} else {})
  {
    assert order == order[..|order| - 1] + [order[|order| - 1]];
  }

  /** In a list without repeats, the last key does not occur before it. */
  lemma DistinctLastNotInFront(order: seq<string>)
    requires Distinct(order) && order != []
    ensures order[|order| - 1] !in order[..|order| - 1]
  {
    var front, last := order[..|order| - 1], order[|order| - 1];
    forall i | 0 <= i < |front| ensures front[i] != last {
      assert order[i] == front[i];
    }
  }

  /**
   * Whatever order the keys are visited in, the plugin list holds exactly the plugins of
   * the keys that resolve, one occurrence per such key (two keys publishing the same
   * plugin give it twice); it is empty exactly when no key resolves.
   */
  lemma ResolvedPluginListSpec(plugins: seq<Plugin>, keys: set<string>, serverSettings: map<string, string>)
    requires ResolvedPluginList(plugins, keys, serverSettings)
    ensures forall plugin :: plugin in plugins <==> exists key :: key in keys && ResolvePlugin(serverSettings, key) == Some(plugin)
    ensures |plugins| == |ResolvableKeys(serverSettings, keys)|
    ensures plugins == [] <==> ResolvableKeys(serverSettings, keys) == {}
    ensures forall plugin ::
              multiset(plugins)[plugin] == |set key | key in keys && ResolvePlugin(serverSettings, key) == Some(plugin)|
  {
    ResolvedPluginListCounts(plugins, keys, serverSettings);
    var order :| IsEnumeration(order, keys) && plugins == ResolveAll(serverSettings, order);
    forall plugin
      ensures plugin in plugins <==> exists key :: key in keys && ResolvePlugin(serverSettings, key) == Some(plugin)
    {
      ResolveAllMembership(serverSettings, order, plugin);
    }
    ResolveAllLength(serverSettings, order);
    assert (set key | key in order && ResolvePlugin(serverSettings, key).Some?) == ResolvableKeys(serverSettings, keys);
  }

  /** The multiplicity part of ResolvedPluginListSpec. */
  lemma ResolvedPluginListCounts(plugins: seq<Plugin>, keys: set<string>, serverSettings: map<string, string>)
    requires ResolvedPluginList(plugins, keys, serverSettings)
    ensures forall plugin ::
              multiset(plugins)[plugin] == |set key | key in keys && ResolvePlugin(serverSettings, key) == Some(plugin)|
  {
    var order :| IsEnumeration(order, keys) && plugins == ResolveAll(serverSettings, order);
    forall plugin
      ensures multiset(plugins)[plugin] == |set key | key in keys && ResolvePlugin(serverSettings, key) == Some(plugin)|
    {
      ResolveAllCount(serverSettings, order, plugin);
      assert KeysResolvingTo(serverSettings, order, plugin)
          == (set key | key in keys && ResolvePlugin(serverSettings, key) == Some(plugin));
    }
  }

  lemma SingletonEnumeration(order: seq<string>, key: string)
    requires IsEnumeration(order, {key})
    ensures order == [key]
  {
    assert key in order;
    var i :| 0 <= i < |order| && order[i] == key;
    var last := |order| - 1;
    assert order[0] in order && order[last] in order;
    assert i == 0 && i == last;
  }

  /**
   * The server settings of the C# scenario: exactly the three properties
   * "sonaranalyzer-cs.pluginKey", ".pluginVersion" and ".staticResourceName" of the C# plugin.
   */
  const ScenarioServerSettings: map<string, string> := PluginProperties("sonaranalyzer-cs", Plugin("csharp", "1.0", "res.jar"))

  lemma ScenarioPluginResolves()
    ensures ResolvePlugin(ScenarioServerSettings, "sonaranalyzer-cs") == Some(Plugin("csharp", "1.0", "res.jar"))
  {
    ResolvePluginIffPublished(ScenarioServerSettings, "sonaranalyzer-cs", Plugin("csharp", "1.0", "res.jar"));
  }

  /** One "csharpsquid" rule for "cs" with the C# plugin published resolves to exactly that plugin. */
  lemma ScenarioPlugins(plugins: seq<Plugin>, parameters: map<string, string>)
    requires ResolvedPluginList(plugins, PartialRepoKeys([ActiveRule("csharpsquid", "S100", parameters)], "cs"), ScenarioServerSettings)
    ensures plugins == [Plugin("csharp", "1.0", "res.jar")]
  {
    PartialRepoKeysConverge(parameters);
    var order :| IsEnumeration(order, {"sonaranalyzer-cs"}) && plugins == ResolveAll(ScenarioServerSettings, order);
    SingletonEnumeration(order, "sonaranalyzer-cs");
    ScenarioPluginResolves();
    assert order == ["sonaranalyzer-cs"];
    assert order[..0] == [];
    assert ResolveAll(ScenarioServerSettings, []) == [];
    assert ResolveAll(ScenarioServerSettings, order) == [Plugin("csharp", "1.0", "res.jar")];
  }
}
