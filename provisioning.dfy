/**
 * What each step of RoslynAnalyzerProvider does, as functions from the state of the
 * world before the step (files, directories, installer calls) to the step's result and
 * the world after it. The provider's methods are proved to behave as these say, and the
 * lemmas below state what the provider promises about a whole SetupAnalyzer call.
 */
module Provisioning {
  import opened Wrappers
  import opened Paths
  import opened Model
  import opened RoslynNaming
  import opened AssemblyResolution

  /** Everything outside the provider that a call can change. */
  datatype World = World(
    files: map<string, FileContent>,
    directories: set<string>,
    installerCalls: seq<seq<Plugin>>)

  /** The result of a step and the world it leaves behind. */
  datatype Step<+T> = Step(result: T, world: World)

  /**
   * The behaviour the provider takes from code it does not own: the ruleset generator
   * (server settings, active rules, inactive rules, language), RoslynSonarLint.GenerateXml
   * (active rules, server settings, language, repository) and the injected installer.
   */
  datatype Environment = Environment(
    generateRuleSet: (map<string, string>, seq<ActiveRule>, seq<string>, string) -> Option<RuleSet>,
    generateXml: (seq<ActiveRule>, map<string, string>, string, string) -> string,
    install: seq<Plugin> -> Outcome<Option<seq<string>>>)

  /** WriteRuleset: saves and names the ruleset file only when the ruleset has rules. */
  function WriteRulesetStep(w: World, settings: Option<TeamBuildSettings>, ruleSet: Option<RuleSet>, language: string)
    : Step<Outcome<Option<string>>>
  {
    if !HasRules(ruleSet) then Step(Returned(None), w)
    else if settings.None? then Step(Threw(NullReference), w)
    else
      var path := GetRulesetFilePath(settings.value, language);
      Step(Returned(Some(path)), w.(files := w.files[path := RuleSetDocument(ruleSet.value)]))
  }

  /**
   * WriteSonarLintXmlFile: for a language that is not blank, creates the language directory
   * and writes `content` to its SonarLint.xml unless that file already exists.
   */
  function WriteSonarLintXmlStep(w: World, configDirectory: string, language: string, content: string): Step<Option<string>> {
    if IsNullOrWhiteSpace(language) then Step(None, w)
    else
      var created := w.(directories := w.directories + {LanguageDirectory(configDirectory, language)});
      var path := SonarLintXmlPath(configDirectory, language);
      if path in created.files then Step(None, created)
      else Step(Some(path), created.(files := created.files[path := Text(content)]))
  }

  /**
   * FetchAnalyzerAssemblies, given the plugin list its loop builds: no installer call and
   * no paths for an empty list, otherwise one call whose answer is returned as is. Looking
   * up a key in absent server settings throws.
   */
  function FetchStep(w: World, serverSettings: Option<map<string, string>>, keys: set<string>, plugins: seq<Plugin>,
                     install: seq<Plugin> -> Outcome<Option<seq<string>>>): Step<Outcome<Option<seq<string>>>>
  {
    if serverSettings.None? && keys != {} then Step(Threw(NullReference), w)
    else if plugins == [] then Step(Returned(None), w)
    else Step(install(plugins), w.(installerCalls := w.installerCalls + [plugins]))
  }

  /** ConfigureAnalyzer: ruleset first; without one nothing else happens. */
  function ConfigureStep(w: World, env: Environment, settings: TeamBuildSettings, serverSettings: map<string, string>,
                         activeRules: seq<ActiveRule>, inactiveRules: seq<string>, language: string, plugins: seq<Plugin>)
    : Step<Outcome<Option<AnalyzerSettings>>>
  {
    var ruleset := WriteRulesetStep(w, Some(settings), env.generateRuleSet(serverSettings, activeRules, inactiveRules, language), language);
    match ruleset.result
    case Threw(e) => Step(Threw(e), ruleset.world)
    case Returned(None) => Step(Returned(None), ruleset.world)
    case Returned(Some(rulesetFilePath)) =>
      ProvisionStep(ruleset.world, env, settings, serverSettings, activeRules, language, plugins, rulesetFilePath)
  }

  /**
   * The rest of ConfigureAnalyzer once the ruleset is saved at `rulesetFilePath`: the
   * additional file, the analyzer assemblies, and the configuration that lists them.
   */
  function ProvisionStep(w: World, env: Environment, settings: TeamBuildSettings, serverSettings: map<string, string>,
                         activeRules: seq<ActiveRule>, language: string, plugins: seq<Plugin>, rulesetFilePath: string)
    : Step<Outcome<Option<AnalyzerSettings>>>
  {
    var xml := WriteSonarLintXmlStep(w, settings.sonarConfigDirectory, language,
                                     env.generateXml(activeRules, serverSettings, language, SonarLintRepository(language)));
    var additionalFiles := match xml.result case Some(path) => [path] case None => [];
    var fetch := FetchStep(xml.world, Some(serverSettings), PartialRepoKeys(activeRules, language), plugins, env.install);
    match fetch.result
    case Threw(e) => Step(Threw(e), fetch.world)
    case Returned(paths) =>
      Step(Returned(Some(AnalyzerSettings(language, rulesetFilePath, paths.GetOr([]), additionalFiles))), fetch.world)
  }

  /** The name of the first absent argument, in the order SetupAnalyzer checks them. */
  function FirstNullArgument(settings: Option<TeamBuildSettings>, language: Option<string>,
                             serverSettings: Option<map<string, string>>, inactiveRules: Option<seq<string>>,
                             activeRules: Option<seq<ActiveRule>>): (name: Option<string>)
    ensures name.None? <==> settings.Some? && language.Some? && serverSettings.Some? && inactiveRules.Some? && activeRules.Some?
  {
    if settings.None? then Some("settings")
    else if language.None? then Some("language")
    else if serverSettings.None? then Some("serverSettings")
    else if inactiveRules.None? then Some("inactiveRules")
    else if activeRules.None? then Some("activeRules")
    else None
  }

  /** SetupAnalyzer: argument checks, the "no active rules" exit, then ConfigureAnalyzer. */
  function SetupStep(w: World, env: Environment, settings: Option<TeamBuildSettings>, serverSettings: Option<map<string, string>>,
                     activeRules: Option<seq<ActiveRule>>, inactiveRules: Option<seq<string>>, language: Option<string>,
                     plugins: seq<Plugin>): Step<Outcome<Option<AnalyzerSettings>>>
  {
    match FirstNullArgument(settings, language, serverSettings, inactiveRules, activeRules)
    case Some(name) => Step(Threw(ArgumentNull(name)), w)
    case None =>
      if activeRules.value == [] then Step(Returned(None), w)
      else ConfigureStep(w, env, settings.value, serverSettings.value, activeRules.value, inactiveRules.value, language.value, plugins)
  }

  /** The arguments get past SetupAnalyzer's checks and the generated ruleset has rules. */
  predicate ReachesInstallerStage(env: Environment, settings: Option<TeamBuildSettings>, serverSettings: Option<map<string, string>>,
                                  activeRules: Option<seq<ActiveRule>>, inactiveRules: Option<seq<string>>, language: Option<string>)
  {
    && FirstNullArgument(settings, language, serverSettings, inactiveRules, activeRules).None?
    && activeRules.value != []
    && HasRules(env.generateRuleSet(serverSettings.value, activeRules.value, inactiveRules.value, language.value))
  }
}
