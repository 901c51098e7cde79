/** What a SetupAnalyzer call promises, proved from the step functions of Provisioning. */
module SetupProperties {
  import opened Wrappers
  import opened Paths
  import opened Model
  import opened RoslynNaming
  import opened AssemblyResolution
  import opened Provisioning

  /**
   * The arguments are checked in the order settings, language, serverSettings,
   * inactiveRules, activeRules; the first absent one is named in the exception and
   * nothing outside the provider changes.
   */
  lemma NullArgumentsRejectedInOrder(w: World, env: Environment, settings: Option<TeamBuildSettings>,
                                     serverSettings: Option<map<string, string>>, activeRules: Option<seq<ActiveRule>>,
                                     inactiveRules: Option<seq<string>>, language: Option<string>, plugins: seq<Plugin>)
    ensures var step := SetupStep(w, env, settings, serverSettings, activeRules, inactiveRules, language, plugins);
      && (settings.None? ==> step == Step(Threw(ArgumentNull("settings")), w))
      && (settings.Some? && language.None? ==> step == Step(Threw(ArgumentNull("language")), w))
      && (settings.Some? && language.Some? && serverSettings.None? ==> step == Step(Threw(ArgumentNull("serverSettings")), w))
      && (settings.Some? && language.Some? && serverSettings.Some? && inactiveRules.None?
          ==> step == Step(Threw(ArgumentNull("inactiveRules")), w))
      && (settings.Some? && language.Some? && serverSettings.Some? && inactiveRules.Some? && activeRules.None?
          ==> step == Step(Threw(ArgumentNull("activeRules")), w))
  {
  }

  /** With no active rules there is no configuration, and no file or installer call. */
  lemma NoActiveRulesNoEffect(w: World, env: Environment, settings: TeamBuildSettings, serverSettings: map<string, string>,
                              inactiveRules: seq<string>, language: string, plugins: seq<Plugin>)
    ensures SetupStep(w, env, Some(settings), Some(serverSettings), Some([]), Some(inactiveRules), Some(language), plugins)
         == Step(Returned(None), w)
  {
  }

  /**
   * A generated ruleset without rules gates everything downstream: no ruleset file, no
   * SonarLint.xml, no directory, no installer call, and no configuration.
   */
  lemma EmptyRuleSetNoEffect(w: World, env: Environment, settings: TeamBuildSettings, serverSettings: map<string, string>,
                             activeRules: seq<ActiveRule>, inactiveRules: seq<string>, language: string, plugins: seq<Plugin>)
    requires !HasRules(env.generateRuleSet(serverSettings, activeRules, inactiveRules, language))
    ensures SetupStep(w, env, Some(settings), Some(serverSettings), Some(activeRules), Some(inactiveRules), Some(language), plugins)
         == Step(Returned(None), w)
  {
  }

  /** WriteRuleset returns a path exactly when the ruleset has rules, and saves the ruleset only then, there. */
  lemma WriteRulesetSavesOnlyRules(w: World, settings: TeamBuildSettings, ruleSet: Option<RuleSet>, language: string)
    ensures var step := WriteRulesetStep(w, Some(settings), ruleSet, language);
      && (step.result == Returned(None) <==> !HasRules(ruleSet))
      && (!HasRules(ruleSet) ==> step.world == w)
      && (HasRules(ruleSet) ==>
            var path := GetRulesetFilePath(settings, language);
            && step.result == Returned(Some(path))
            && step.world.files.Keys == w.files.Keys + {path}
            && step.world.files[path] == RuleSetDocument(ruleSet.value)
            && (forall other :: other in w.files && other != path ==> step.world.files[other] == w.files[other])
            && step.world.directories == w.directories
            && step.world.installerCalls == w.installerCalls)
  {
  }

  /**
   * Writing SonarLint.xml twice for one language: the second write reports nothing and
   * leaves every file as the first write left it.
   */
  lemma SonarLintXmlWriteIsIdempotent(w: World, configDirectory: string, language: string, first: string, second: string)
    requires !IsNullOrWhiteSpace(language)
    ensures var once := WriteSonarLintXmlStep(w, configDirectory, language, first);
            var twice := WriteSonarLintXmlStep(once.world, configDirectory, language, second);
      && twice.result == None
      && twice.world == once.world
      && once.world.files[SonarLintXmlPath(configDirectory, language)]
         == (if SonarLintXmlPath(configDirectory, language) in w.files then w.files[SonarLintXmlPath(configDirectory, language)]
             else Text(first))
  {
  }

  /**
   * SonarLint.xml is written, and named, exactly when the language is not blank and the
   * file does not exist yet; any other file is left as it was.
   */
  lemma SonarLintXmlStepSpec(w: World, configDirectory: string, language: string, content: string)
    ensures var step := WriteSonarLintXmlStep(w, configDirectory, language, content);
            var path := SonarLintXmlPath(configDirectory, language);
      && (step.result.Some? <==> !IsNullOrWhiteSpace(language) && path !in w.files)
      && (step.result.Some? ==> step.result.value == path && step.world.files == w.files[path := Text(content)])
      && (step.result.None? ==> step.world.files == w.files)
      && (!IsNullOrWhiteSpace(language) ==> step.world.directories == w.directories + {LanguageDirectory(configDirectory, language)})
      && step.world.installerCalls == w.installerCalls
  {
  }

  /** A blank language gets no SonarLint.xml and no directory. */
  lemma BlankLanguageWritesNoSonarLintXml(w: World, configDirectory: string, language: string, content: string)
    requires IsNullOrWhiteSpace(language)
    ensures WriteSonarLintXmlStep(w, configDirectory, language, content) == Step(None, w)
  {
  }

  /**
   * A SonarLint.xml that exists before SetupAnalyzer, for any language, still holds the
   * same content afterwards: the ruleset is saved elsewhere and the writer never overwrites.
   */
  lemma ExistingSonarLintXmlKept(w: World, env: Environment, settings: TeamBuildSettings, serverSettings: Option<map<string, string>>,
                                 activeRules: Option<seq<ActiveRule>>, inactiveRules: Option<seq<string>>,
                                 language: Option<string>, plugins: seq<Plugin>, otherLanguage: string)
    requires SonarLintXmlPath(settings.sonarConfigDirectory, otherLanguage) in w.files
    ensures var path := SonarLintXmlPath(settings.sonarConfigDirectory, otherLanguage);
            var step := SetupStep(w, env, Some(settings), serverSettings, activeRules, inactiveRules, language, plugins);
      path in step.world.files && step.world.files[path] == w.files[path]
  {
    if FirstNullArgument(Some(settings), language, serverSettings, inactiveRules, activeRules).None? && activeRules.value != [] {
      RulesetFilePathIsNotSonarLintXmlPath(settings, language.value, otherLanguage);
      ConfigureOverwritesOnlyRuleset(w, env, settings, serverSettings.value, activeRules.value, inactiveRules.value, language.value, plugins);
    }
  }

  /** ConfigureAnalyzer overwrites no existing file other than the language's ruleset. */
  lemma ConfigureOverwritesOnlyRuleset(w: World, env: Environment, settings: TeamBuildSettings, serverSettings: map<string, string>,
                                       activeRules: seq<ActiveRule>, inactiveRules: seq<string>, language: string, plugins: seq<Plugin>)
    ensures var step := ConfigureStep(w, env, settings, serverSettings, activeRules, inactiveRules, language, plugins);
      forall path :: path in w.files && path != GetRulesetFilePath(settings, language)
        ==> path in step.world.files && step.world.files[path] == w.files[path]
  {
    var ruleSet := env.generateRuleSet(serverSettings, activeRules, inactiveRules, language);
    WriteRulesetSavesOnlyRules(w, settings, ruleSet, language);
    if HasRules(ruleSet) {
      var ruleset := WriteRulesetStep(w, Some(settings), ruleSet, language);
      ProvisionKeepsExistingFiles(ruleset.world, env, settings, serverSettings, activeRules, language, plugins,
                                  GetRulesetFilePath(settings, language));
    }
  }

  /** Once the ruleset is saved, the rest of ConfigureAnalyzer never overwrites a file. */
  lemma ProvisionKeepsExistingFiles(w: World, env: Environment, settings: TeamBuildSettings, serverSettings: map<string, string>,
                                    activeRules: seq<ActiveRule>, language: string, plugins: seq<Plugin>, rulesetFilePath: string)
    ensures var step := ProvisionStep(w, env, settings, serverSettings, activeRules, language, plugins, rulesetFilePath);
      forall path :: path in w.files ==> path in step.world.files && step.world.files[path] == w.files[path]
  {
    var content := env.generateXml(activeRules, serverSettings, language, SonarLintRepository(language));
    SonarLintXmlStepSpec(w, settings.sonarConfigDirectory, language, content);
  }

  /**
   * The installer is called at most once per SetupAnalyzer, with the whole plugin list,
   * and only when the ruleset has rules and the list is not empty.
   */
  lemma InstallerCalledAtMostOnce(w: World, env: Environment, settings: Option<TeamBuildSettings>,
                                  serverSettings: Option<map<string, string>>, activeRules: Option<seq<ActiveRule>>,
                                  inactiveRules: Option<seq<string>>, language: Option<string>, plugins: seq<Plugin>)
    ensures var step := SetupStep(w, env, settings, serverSettings, activeRules, inactiveRules, language, plugins);
            var called := ReachesInstallerStage(env, settings, serverSettings, activeRules, inactiveRules, language) && plugins != [];
      && (called ==> step.world.installerCalls == w.installerCalls + [plugins])
      && (!called ==> step.world.installerCalls == w.installerCalls)
  {
  }

  /**
   * With the plugin list the resolution loop builds, the installer is called exactly when
   * some partial repository key of the active rules has all three plugin properties.
   */
  lemma InstallerCalledIffPluginResolves(w: World, env: Environment, settings: TeamBuildSettings,
                                         serverSettings: map<string, string>, activeRules: seq<ActiveRule>,
                                         inactiveRules: seq<string>, language: string, plugins: seq<Plugin>)
    requires ReachesInstallerStage(env, Some(settings), Some(serverSettings), Some(activeRules), Some(inactiveRules), Some(language))
    requires ResolvedPluginList(plugins, PartialRepoKeys(activeRules, language), serverSettings)
    ensures var step := SetupStep(w, env, Some(settings), Some(serverSettings), Some(activeRules), Some(inactiveRules), Some(language), plugins);
      |step.world.installerCalls| == |w.installerCalls| + 1
      <==> exists key :: key in PartialRepoKeys(activeRules, language) && ResolvePlugin(serverSettings, key).Some?
  {
    ResolvedPluginListSpec(plugins, PartialRepoKeys(activeRules, language), serverSettings);
    InstallerCalledAtMostOnce(w, env, Some(settings), Some(serverSettings), Some(activeRules), Some(inactiveRules), Some(language), plugins);
    var keys := PartialRepoKeys(activeRules, language);
    if exists key :: key in keys && ResolvePlugin(serverSettings, key).Some? {
      var key :| key in keys && ResolvePlugin(serverSettings, key).Some?;
      assert key in ResolvableKeys(serverSettings, keys);
    }
  }

  /**
   * FetchAnalyzerAssemblies with the plugin list its loop builds: when no partial key
   * resolves, no installer call and no paths; otherwise one call with that list, whose
   * answer is returned unchanged. No file or directory changes either way.
   */
  lemma FetchInstallsIffPluginResolves(w: World, serverSettings: map<string, string>, keys: set<string>, plugins: seq<Plugin>,
                                       install: seq<Plugin> -> Outcome<Option<seq<string>>>)
    requires ResolvedPluginList(plugins, keys, serverSettings)
    ensures var step := FetchStep(w, Some(serverSettings), keys, plugins, install);
      && (ResolvableKeys(serverSettings, keys) == {} ==> step == Step(Returned(None), w))
      && (ResolvableKeys(serverSettings, keys) != {} ==>
            && plugins != []
            && step.result == install(plugins)
            && step.world == w.(installerCalls := w.installerCalls + [plugins]))
  {
    ResolvedPluginListSpec(plugins, keys, serverSettings);
  }

  /**
   * An installer that throws aborts SetupAnalyzer with the same exception, after the
   * ruleset has been saved.
   */
  lemma InstallerFailurePropagates(w: World, env: Environment, settings: TeamBuildSettings, serverSettings: map<string, string>,
                                   activeRules: seq<ActiveRule>, inactiveRules: seq<string>, language: string, plugins: seq<Plugin>)
    requires ReachesInstallerStage(env, Some(settings), Some(serverSettings), Some(activeRules), Some(inactiveRules), Some(language))
    requires plugins != [] && env.install(plugins).Threw?
    ensures var step := SetupStep(w, env, Some(settings), Some(serverSettings), Some(activeRules), Some(inactiveRules), Some(language), plugins);
      && step.result == Threw(env.install(plugins).exception)
      && step.world.files[GetRulesetFilePath(settings, language)]
         == RuleSetDocument(env.generateRuleSet(serverSettings, activeRules, inactiveRules, language).value)
  {
    var ruleSet := env.generateRuleSet(serverSettings, activeRules, inactiveRules, language);
    var rulesetFilePath := GetRulesetFilePath(settings, language);
    var ruleset := WriteRulesetStep(w, Some(settings), ruleSet, language);
    WriteRulesetSavesOnlyRules(w, settings, ruleSet, language);
    assert SetupStep(w, env, Some(settings), Some(serverSettings), Some(activeRules), Some(inactiveRules), Some(language), plugins)
        == ProvisionStep(ruleset.world, env, settings, serverSettings, activeRules, language, plugins, rulesetFilePath);
    ProvisionKeepsExistingFiles(ruleset.world, env, settings, serverSettings, activeRules, language, plugins, rulesetFilePath);
    ProvisionDescribesArtifacts(ruleset.world, env, settings, serverSettings, activeRules, language, plugins, rulesetFilePath);
  }

  /**
   * The configuration SetupAnalyzer returns describes what it produced: the language,
   * the ruleset file just saved, and the installer's paths (none when it answered null
   * or was not called).
   */
  lemma ConfigurationDescribesArtifacts(w: World, env: Environment, settings: TeamBuildSettings, serverSettings: map<string, string>,
                                        activeRules: seq<ActiveRule>, inactiveRules: seq<string>, language: string,
                                        plugins: seq<Plugin>, analyzer: AnalyzerSettings)
    requires SetupStep(w, env, Some(settings), Some(serverSettings), Some(activeRules), Some(inactiveRules), Some(language), plugins).result
             == Returned(Some(analyzer))
    ensures var world := SetupStep(w, env, Some(settings), Some(serverSettings), Some(activeRules), Some(inactiveRules), Some(language), plugins).world;
            var ruleSet := env.generateRuleSet(serverSettings, activeRules, inactiveRules, language);
      && HasRules(ruleSet)
      && analyzer.language == language
      && analyzer.ruleSetFilePath == GetRulesetFilePath(settings, language)
      && analyzer.ruleSetFilePath in world.files
      && world.files[analyzer.ruleSetFilePath] == RuleSetDocument(ruleSet.value)
      && analyzer.analyzerAssemblyPaths == (if plugins == [] then [] else env.install(plugins).value.GetOr([]))
  {
    var ruleSet := env.generateRuleSet(serverSettings, activeRules, inactiveRules, language);
    var rulesetFilePath := GetRulesetFilePath(settings, language);
    var ruleset := WriteRulesetStep(w, Some(settings), ruleSet, language);
    WriteRulesetSavesOnlyRules(w, settings, ruleSet, language);
    assert HasRules(ruleSet);
    assert SetupStep(w, env, Some(settings), Some(serverSettings), Some(activeRules), Some(inactiveRules), Some(language), plugins)
        == ProvisionStep(ruleset.world, env, settings, serverSettings, activeRules, language, plugins, rulesetFilePath);
    ProvisionKeepsExistingFiles(ruleset.world, env, settings, serverSettings, activeRules, language, plugins, rulesetFilePath);
    ProvisionDescribesArtifacts(ruleset.world, env, settings, serverSettings, activeRules, language, plugins, rulesetFilePath);
  }

  /**
   * What the rest of ConfigureAnalyzer returns: the language and ruleset path it was
   * given, the installer's paths (none when it answered null or was not called) or the
   * installer's exception.
   */
  lemma ProvisionDescribesArtifacts(w: World, env: Environment, settings: TeamBuildSettings, serverSettings: map<string, string>,
                                    activeRules: seq<ActiveRule>, language: string, plugins: seq<Plugin>, rulesetFilePath: string)
    ensures var step := ProvisionStep(w, env, settings, serverSettings, activeRules, language, plugins, rulesetFilePath);
      && (plugins != [] && env.install(plugins).Threw? ==> step.result == Threw(env.install(plugins).exception))
      && (plugins == [] || env.install(plugins).Returned? ==>
            && step.result.Returned? && step.result.value.Some?
            && step.result.value.value.language == language
            && step.result.value.value.ruleSetFilePath == rulesetFilePath
            && step.result.value.value.analyzerAssemblyPaths
               == (if plugins == [] then [] else env.install(plugins).value.GetOr([])))
  {
  }

  /**
   * The configuration lists at most one additional file: the language's SonarLint.xml,
   * exactly when the language is not blank and the file did not exist before, and then
   * the file holds the xml generated for the language's repository.
   */
  lemma AdditionalFileIsNewSonarLintXml(w: World, env: Environment, settings: TeamBuildSettings, serverSettings: map<string, string>,
                                        activeRules: seq<ActiveRule>, inactiveRules: seq<string>, language: string,
                                        plugins: seq<Plugin>, analyzer: AnalyzerSettings)
    requires SetupStep(w, env, Some(settings), Some(serverSettings), Some(activeRules), Some(inactiveRules), Some(language), plugins).result
             == Returned(Some(analyzer))
    ensures var world := SetupStep(w, env, Some(settings), Some(serverSettings), Some(activeRules), Some(inactiveRules), Some(language), plugins).world;
            var xmlPath := SonarLintXmlPath(settings.sonarConfigDirectory, language);
      && analyzer.additionalFilePaths == (if !IsNullOrWhiteSpace(language) && xmlPath !in w.files then [xmlPath] else [])
      && (analyzer.additionalFilePaths == [xmlPath] ==>
            xmlPath in world.files
            && world.files[xmlPath] == Text(env.generateXml(activeRules, serverSettings, language, SonarLintRepository(language))))
  {
    var ruleSet := env.generateRuleSet(serverSettings, activeRules, inactiveRules, language);
    var rulesetFilePath := GetRulesetFilePath(settings, language);
    var ruleset := WriteRulesetStep(w, Some(settings), ruleSet, language);
    WriteRulesetSavesOnlyRules(w, settings, ruleSet, language);
    assert HasRules(ruleSet);
    RulesetFilePathIsNotSonarLintXmlPath(settings, language, language);
    assert SetupStep(w, env, Some(settings), Some(serverSettings), Some(activeRules), Some(inactiveRules), Some(language), plugins)
        == ProvisionStep(ruleset.world, env, settings, serverSettings, activeRules, language, plugins, rulesetFilePath);
    ProvisionAdditionalFile(ruleset.world, env, settings, serverSettings, activeRules, language, plugins, rulesetFilePath, analyzer);
  }

  /** AdditionalFileIsNewSonarLintXml, stated for the part of ConfigureAnalyzer after the ruleset. */
  lemma ProvisionAdditionalFile(w: World, env: Environment, settings: TeamBuildSettings, serverSettings: map<string, string>,
                                activeRules: seq<ActiveRule>, language: string, plugins: seq<Plugin>, rulesetFilePath: string,
                                analyzer: AnalyzerSettings)
    requires ProvisionStep(w, env, settings, serverSettings, activeRules, language, plugins, rulesetFilePath).result
             == Returned(Some(analyzer))
    ensures var world := ProvisionStep(w, env, settings, serverSettings, activeRules, language, plugins, rulesetFilePath).world;
            var xmlPath := SonarLintXmlPath(settings.sonarConfigDirectory, language);
      && analyzer.additionalFilePaths == (if !IsNullOrWhiteSpace(language) && xmlPath !in w.files then [xmlPath] else [])
      && (analyzer.additionalFilePaths == [xmlPath] ==>
            xmlPath in world.files
            && world.files[xmlPath] == Text(env.generateXml(activeRules, serverSettings, language, SonarLintRepository(language))))
  {
    var content := env.generateXml(activeRules, serverSettings, language, SonarLintRepository(language));
    SonarLintXmlStepSpec(w, settings.sonarConfigDirectory, language, content);
  }

  /**
   * The C# scenario end to end: one "csharpsquid" rule for "cs", the C# plugin published
   * under "sonaranalyzer-cs" and a ruleset with rules. SetupAnalyzer calls the installer
   * once, with exactly the C# plugin, and the configuration carries the installer's paths.
   */
  lemma ScenarioSetupInstallsCSharpPlugin(w: World, env: Environment, settings: TeamBuildSettings, parameters: map<string, string>,
                                          inactiveRules: seq<string>, plugins: seq<Plugin>)
    requires HasRules(env.generateRuleSet(ScenarioServerSettings, [ActiveRule("csharpsquid", "S100", parameters)], inactiveRules, "cs"))
    requires ResolvedPluginList(plugins, PartialRepoKeys([ActiveRule("csharpsquid", "S100", parameters)], "cs"), ScenarioServerSettings)
    ensures var step := SetupStep(w, env, Some(settings), Some(ScenarioServerSettings), Some([ActiveRule("csharpsquid", "S100", parameters)]),
                                  Some(inactiveRules), Some("cs"), plugins);
            var csharp := Plugin("csharp", "1.0", "res.jar");
      && step.world.installerCalls == w.installerCalls + [[csharp]]
      && (env.install([csharp]).Returned? ==>
            && step.result.Returned? && step.result.value.Some?
            && step.result.value.value.analyzerAssemblyPaths == env.install([csharp]).value.GetOr([]))
  {
    var activeRules := [ActiveRule("csharpsquid", "S100", parameters)];
    ScenarioPlugins(plugins, parameters);
    InstallerCalledAtMostOnce(w, env, Some(settings), Some(ScenarioServerSettings), Some(activeRules), Some(inactiveRules), Some("cs"), plugins);
    var ruleSet := env.generateRuleSet(ScenarioServerSettings, activeRules, inactiveRules, "cs");
    var rulesetFilePath := GetRulesetFilePath(settings, "cs");
    var ruleset := WriteRulesetStep(w, Some(settings), ruleSet, "cs");
    WriteRulesetSavesOnlyRules(w, settings, ruleSet, "cs");
    assert SetupStep(w, env, Some(settings), Some(ScenarioServerSettings), Some(activeRules), Some(inactiveRules), Some("cs"), plugins)
        == ProvisionStep(ruleset.world, env, settings, ScenarioServerSettings, activeRules, "cs", plugins, rulesetFilePath);
    ProvisionDescribesArtifacts(ruleset.world, env, settings, ScenarioServerSettings, activeRules, "cs", plugins, rulesetFilePath);
  }
}
