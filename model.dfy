/** The values the provider reads and produces. */
module Model {
  import opened Wrappers

  /** TeamBuildSettings, reduced to the one property the provider reads. */
  datatype TeamBuildSettings = TeamBuildSettings(sonarConfigDirectory: string)

  /** A rule the server enabled: its repository key, its rule key and its parameters. */
  datatype ActiveRule = ActiveRule(repoKey: string, ruleKey: string, parameters: map<string, string>)

  /** One entry of a ruleset: a fully qualified rule id and its action. */
  datatype Rule = Rule(id: string, action: string)

  /** A ruleset document; `rules` is `None` where the generated object's rule list is null. */
  datatype RuleSet = RuleSet(rules: Option<seq<Rule>>)

  /** The coordinates of an analyzer plugin, compared by value. */
  datatype Plugin = Plugin(key: string, version: string, staticResourceName: string)

  /** What SetupAnalyzer returns for one language. */
  datatype AnalyzerSettings = AnalyzerSettings(
    language: string,
    ruleSetFilePath: string,
    analyzerAssemblyPaths: seq<string>,
    additionalFilePaths: seq<string>)

  /** The exceptions that can leave the provider. */
  datatype Exception =
    | ArgumentNull(paramName: string)
    | NullReference
    | InstallerFailure(message: string)

  /** How a call ends: it returns a value or throws. */
  datatype Outcome<+T> = Returned(value: T) | Threw(exception: Exception)

  /** What a file on disk holds: a saved ruleset, or text. */
  datatype FileContent = RuleSetDocument(ruleSet: RuleSet) | Text(text: string)

  /** A ruleset that is there and has a non-empty rule list is the only one written. */
  predicate HasRules(ruleSet: Option<RuleSet>) {
    ruleSet.Some? && ruleSet.value.rules.Some? && |ruleSet.value.rules.value| > 0
  }
}
