/**
 * RoslynAnalyzerProvider: sets up the Roslyn analyzers for one language by writing
 * its ruleset, its SonarLint.xml additional file and fetching its analyzer assemblies.
 */
module Roslyn {
  import opened Wrappers
  import opened Paths
  import opened Model
  import opened RoslynNaming
  import opened AssemblyResolution
  import opened Collaborators
  import opened Provisioning

  class RoslynAnalyzerProvider {
    const analyzerInstaller: AnalyzerInstaller
    const fileSystem: FileSystem
    /** Stands for `new RoslynRuleSetGenerator(serverSettings).Generate(activeRules, inactiveRules, language)`. */
    const ruleSetGenerator: (map<string, string>, seq<ActiveRule>, seq<string>, string) -> Option<RuleSet>
    /** Stands for RoslynSonarLint.GenerateXml(activeRules, serverSettings, language, repository). */
    const sonarLintGenerator: (seq<ActiveRule>, map<string, string>, string, string) -> string

    var sqSettings: Option<TeamBuildSettings>
    var sqServerSettings: Option<map<string, string>>

    constructor (analyzerInstaller: AnalyzerInstaller, fileSystem: FileSystem,
                 ruleSetGenerator: (map<string, string>, seq<ActiveRule>, seq<string>, string) -> Option<RuleSet>,
                 sonarLintGenerator: (seq<ActiveRule>, map<string, string>, string, string) -> string)
      ensures this.analyzerInstaller == analyzerInstaller && this.fileSystem == fileSystem
      ensures this.ruleSetGenerator == ruleSetGenerator && this.sonarLintGenerator == sonarLintGenerator
      ensures sqSettings.None? && sqServerSettings.None?
    {
      this.analyzerInstaller := analyzerInstaller;
      this.fileSystem := fileSystem;
      this.ruleSetGenerator := ruleSetGenerator;
      this.sonarLintGenerator := sonarLintGenerator;
      sqSettings := None;
      sqServerSettings := None;
    }

    /** The files, directories and installer calls as they are now. */
    ghost function Current(): World
      reads fileSystem, analyzerInstaller
    {
      World(fileSystem.files, fileSystem.directories, analyzerInstaller.calls)
    }

    function Env(): Environment {
      Environment(ruleSetGenerator, sonarLintGenerator, analyzerInstaller.install)
    }

    /**
     * Checks the arguments, stores the settings and configures the analyzer for `language`.
     * `plugins` is the list handed to the installer when the installer stage is reached.
     */
    method SetupAnalyzer(settings: Option<TeamBuildSettings>, serverSettings: Option<map<string, string>>,
                         activeRules: Option<seq<ActiveRule>>, inactiveRules: Option<seq<string>>, language: Option<string>)
      returns (analyzer: Outcome<Option<AnalyzerSettings>>, ghost plugins: seq<Plugin>)
      modifies this, fileSystem, analyzerInstaller
      ensures Step(analyzer, Current())
           == SetupStep(old(Current()), Env(), settings, serverSettings, activeRules, inactiveRules, language, plugins)
      ensures ReachesInstallerStage(Env(), settings, serverSettings, activeRules, inactiveRules, language)
          ==> ResolvedPluginList(plugins, PartialRepoKeys(activeRules.value, language.value), serverSettings.value)
      ensures if FirstNullArgument(settings, language, serverSettings, inactiveRules, activeRules).None? && activeRules.value != []
              then sqSettings == settings && sqServerSettings == serverSettings
              else sqSettings == old(sqSettings) && sqServerSettings == old(sqServerSettings)
    {
      plugins := [];
      if settings.None? {
        return Threw(ArgumentNull("settings")), plugins;
      }
      if language.None? {
        return Threw(ArgumentNull("language")), plugins;
      }
      if serverSettings.None? {
        return Threw(ArgumentNull("serverSettings")), plugins;
      }
      if inactiveRules.None? {
        return Threw(ArgumentNull("inactiveRules")), plugins;
      }
      if activeRules.None? {
        return Threw(ArgumentNull("activeRules")), plugins;
      }
      if |activeRules.value| == 0 {
        return Returned(None), plugins;
      }

      sqSettings := settings;
      sqServerSettings := serverSettings;

      analyzer, plugins := ConfigureAnalyzer(language.value, activeRules.value, inactiveRules.value);
    }

    /**
     * Writes the ruleset and, only if one was written, the additional file, then fetches
     * the analyzer assemblies.
     */
    method ConfigureAnalyzer(language: string, activeRules: seq<ActiveRule>, inactiveRules: seq<string>)
      returns (analyzer: Outcome<Option<AnalyzerSettings>>, ghost plugins: seq<Plugin>)
      requires sqSettings.Some? && sqServerSettings.Some?
      modifies fileSystem, analyzerInstaller
      ensures Step(analyzer, Current())
           == ConfigureStep(old(Current()), Env(), sqSettings.value, sqServerSettings.value, activeRules, inactiveRules, language, plugins)
      ensures HasRules(ruleSetGenerator(sqServerSettings.value, activeRules, inactiveRules, language))
          ==> ResolvedPluginList(plugins, PartialRepoKeys(activeRules, language), sqServerSettings.value)
    {
      plugins := [];
      var ruleSet := ruleSetGenerator(sqServerSettings.value, activeRules, inactiveRules, language);
      var rulesetFilePath := WriteRuleset(ruleSet, language);
      if rulesetFilePath.Threw? {
        return Threw(rulesetFilePath.exception), plugins;
      }
      if rulesetFilePath.value.None? {
        // the ruleset had no rules: nothing else runs
        return Returned(None), plugins;
      }

      var additionalFiles := WriteAdditionalFiles(language, activeRules);
      var analyzersAssemblies;
      analyzersAssemblies, plugins := FetchAnalyzerAssemblies(activeRules, language);
      if analyzersAssemblies.Threw? {
        return Threw(analyzersAssemblies.exception), plugins;
      }

      analyzer := Returned(Some(AnalyzerSettings(language, rulesetFilePath.value.value,
                                                 analyzersAssemblies.value.GetOr([]), additionalFiles)));
    }

    /** Saves a ruleset that has rules to the language's ruleset file and returns that path. */
    method WriteRuleset(ruleSet: Option<RuleSet>, language: string) returns (rulesetFilePath: Outcome<Option<string>>)
      modifies fileSystem
      ensures Step(rulesetFilePath, Current()) == WriteRulesetStep(old(Current()), sqSettings, ruleSet, language)
    {
      if !(ruleSet.Some? && ruleSet.value.rules.Some? && |ruleSet.value.rules.value| > 0) {
        rulesetFilePath := Returned(None);
      } else if sqSettings.None? {
        rulesetFilePath := Threw(NullReference);
      } else {
        var path := GetRulesetFilePath(sqSettings.value, language);
        fileSystem.SaveRuleSet(path, ruleSet.value);
        rulesetFilePath := Returned(Some(path));
      }
    }

    /** The list of additional files written: the SonarLint.xml, if one was written. */
    method WriteAdditionalFiles(language: string, activeRules: seq<ActiveRule>) returns (additionalFiles: seq<string>)
      requires sqSettings.Some? && sqServerSettings.Some?
      modifies fileSystem
      ensures var step := WriteSonarLintXmlStep(old(Current()), sqSettings.value.sonarConfigDirectory, language,
                                                sonarLintGenerator(activeRules, sqServerSettings.value, language, SonarLintRepository(language)));
        && Current() == step.world
        && additionalFiles == match step.result case Some(path) => [path] case None => []
    {
      additionalFiles := [];
      var filePath := WriteSonarLintXmlFile(language, activeRules);
      if filePath.Some? {
        additionalFiles := additionalFiles + [filePath.value];
      }
    }

    /** Writes `<config>/<language>/SonarLint.xml` unless the language is blank or the file exists. */
    method WriteSonarLintXmlFile(language: string, activeRules: seq<ActiveRule>) returns (filePath: Option<string>)
      requires sqSettings.Some? && sqServerSettings.Some?
      modifies fileSystem
      ensures Step(filePath, Current())
           == WriteSonarLintXmlStep(old(Current()), sqSettings.value.sonarConfigDirectory, language,
                                    sonarLintGenerator(activeRules, sqServerSettings.value, language, SonarLintRepository(language)))
    {
      if IsNullOrWhiteSpace(language) {
        return None;
      }

      var content;
      if language == CSharpLanguage {
        content := sonarLintGenerator(activeRules, sqServerSettings.value, language, CSharpSonarLintRepository);
      } else {
        content := sonarLintGenerator(activeRules, sqServerSettings.value, language, VBNetSonarLintRepository);
      }

      var langDir := Combine(sqSettings.value.sonarConfigDirectory, language);
      fileSystem.CreateDirectory(langDir);

      var fullPath := Combine(langDir, SonarLintFileName);
      if fileSystem.FileExists(fullPath) {
        return None;
      }

      fileSystem.WriteAllText(fullPath, content);
      filePath := Some(fullPath);
    }

    /**
     * Resolves the partial repository keys of the active rules to plugins, in the set's
     * iteration order, skipping keys without plugin metadata, and hands the list to the
     * installer unless it is empty.
     */
    method FetchAnalyzerAssemblies(activeRules: seq<ActiveRule>, language: string)
      returns (analyzerAssemblyPaths: Outcome<Option<seq<string>>>, ghost plugins: seq<Plugin>)
      modifies analyzerInstaller
      ensures Step(analyzerAssemblyPaths, Current())
           == FetchStep(old(Current()), sqServerSettings, PartialRepoKeys(activeRules, language), plugins, analyzerInstaller.install)
      ensures sqServerSettings.Some? ==> ResolvedPluginList(plugins, PartialRepoKeys(activeRules, language), sqServerSettings.value)
      ensures sqServerSettings.None? ==> plugins == []
    {
      var repoKeys := ActiveRulesPartialRepoKey(activeRules, language);
      var resolved: seq<Plugin> := [];
      ghost var order: seq<string> := [];
      var remaining := repoKeys;
      while remaining != {}
        invariant remaining <= repoKeys
        invariant sqServerSettings.None? ==> remaining == repoKeys && resolved == []
        invariant Distinct(order)
        invariant forall key :: key in order <==> key in repoKeys && key !in remaining
        invariant resolved == ResolveAll(sqServerSettings.GetOr(map[]), order)
        decreases remaining
      {
        var repoKey :| repoKey in remaining;
        if sqServerSettings.None? {
            return Threw(NullReference), resolved;
        }
        var serverSettings := sqServerSettings.value;
        if PluginKeyPropertyKey(repoKey) in serverSettings
           && PluginVersionPropertyKey(repoKey) in serverSettings
           && StaticResourceNamePropertyKey(repoKey) in serverSettings
        {
          resolved := resolved + [Plugin(serverSettings[PluginKeyPropertyKey(repoKey)],
                                         serverSettings[PluginVersionPropertyKey(repoKey)],
                                         serverSettings[StaticResourceNamePropertyKey(repoKey)])];
        }
        assert (order + [repoKey])[..|order|] == order;
        order := order + [repoKey];
        remaining := remaining - {repoKey};
      }
      assert IsEnumeration(order, repoKeys);
      ResolvedPluginListSpec(resolved, repoKeys, sqServerSettings.GetOr(map[]));
      plugins := resolved;

      if |resolved| == 0 {
        analyzerAssemblyPaths := Returned(None);
      } else {
        analyzerAssemblyPaths := analyzerInstaller.InstallAssemblies(resolved);
      }
    }
  }
}
