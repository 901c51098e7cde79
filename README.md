# Roslyn analyzer provisioning for the SonarQube Scanner for MSBuild

This project models `RoslynAnalyzerProvider`, the pre-processor component that prepares
the Roslyn analyzers for one language (`cs` or `vbnet`) before an MSBuild analysis.
`SetupAnalyzer` works in stages, and each stage runs only when the one before it got through:

- It checks its arguments. If there are no active rules, it returns null and does nothing else.
  Otherwise it stores the team-build settings and the server settings.
- It saves the generated ruleset to `<config>/SonarQubeRoslyn-<language>.ruleset`, but only if the ruleset has rules.
  If the ruleset has no rules, it returns null: no file or directory is created and the installer is not called.
- After a ruleset was saved, it writes `<config>/<language>/SonarLint.xml` unless the language is blank or the file already exists.
- After a ruleset was saved, it also maps the active rules' repository keys to partial repository keys and resolves each key to a plugin.
  A key resolves through the `<key>.pluginKey`, `<key>.pluginVersion` and `<key>.staticResourceName` server settings.
  The injected installer is then called once with the resolved plugins, if there are any.

Layout (one module per file):

- `wrappers.dfy` (`Wrappers`): `Option`, which stands for C# `null`.
- `paths.dfy` (`Paths`): ordinal `StartsWith`, `Char.IsWhiteSpace` / `String.IsNullOrWhiteSpace`, and .NET Framework `Path.IsPathRooted` / `Path.Combine`.
- `model.dfy` (`Model`): the settings, active rules, rulesets, plugins, the result `AnalyzerSettings`, exceptions (`Outcome` = returned or threw) and file contents.
- `naming.dfy` (`RoslynNaming`): format names, ruleset file names and paths, the SonarLint.xml path and repository.
- `resolution.dfy` (`AssemblyResolution`): partial repository keys, the three property keys, plugin resolution.
- `collaborators.dfy` (`Collaborators`): the file system (files by path, created directories) and the injected installer, which records each call in a ghost log.
- `provisioning.dfy` (`Provisioning`): every provider step as a pure function from a `World` (files, directories, installer calls) to the step's result and the next `World`.
- `properties.dfy` (`SetupProperties`): what a whole `SetupAnalyzer` call promises, proved from those step functions.
- `provider.dfy` (`Roslyn`): the class `RoslynAnalyzerProvider`.
  Its two fields `sqSettings` and `sqServerSettings` are assigned by `SetupAnalyzer`.
  Each of its methods is proved to produce exactly the result and the new `World` that its step function gives.

The partial keys live in a `HashSet`, whose iteration order is unspecified.
`FetchAnalyzerAssemblies` therefore visits the keys in an arbitrary order and returns, as a ghost value, the plugin list it built.
`ResolvedPluginList` says that the list is the resolution of the keys in *some* order.
The lemmas about it hold for every order.

The ruleset generator and `RoslynSonarLint.GenerateXml` are not part of this model.
They are function-valued fields of the provider. The installer's answer is a function of the plugin list: paths, null, or an exception.

Three facts about the code shape the model:

- SetupAnalyzer checks `inactiveRules` for null before `activeRules` (`RoslynAnalyzerProvider.cs`:84-91).
- The plugin list follows the iteration order of the `HashSet` of partial keys (`RoslynAnalyzerProvider.cs`:222-239). That order is not specified.
- A blank language string passes the argument checks (`RoslynAnalyzerProvider.cs`:72-91). It only suppresses SonarLint.xml (`RoslynAnalyzerProvider.cs`:189-193).

## Model

| member | source | states |
|---|---|---|
| Paths.Combine | SonarQube.TeamBuild.PreProcessor/Roslyn/RoslynAnalyzerProvider.cs:205-208 | .NET Framework Path.Combine: the result ends with the second path; an empty second path gives the first; a rooted second path replaces the first; otherwise the second follows the first, with a backslash between them unless the first is empty or already ends in a separator |
| RoslynNaming.GetRoslynFormatName | SonarQube.TeamBuild.PreProcessor/Roslyn/RoslynAnalyzerProvider.cs:109-112 | the format name is "roslyn-" followed by the language |
| RoslynNaming.FormatNameRoundTrip | SonarQube.TeamBuild.PreProcessor/Roslyn/RoslynAnalyzerProvider.cs:109-112 | a format name decodes to a language exactly when it is that language's format name |
| RoslynNaming.GetRoslynRulesetFileName | SonarQube.TeamBuild.PreProcessor/Roslyn/RoslynAnalyzerProvider.cs:114-117 | the ruleset file name starts with "SonarQubeRoslyn-", ends with ".ruleset", and the language is in between |
| RoslynNaming.RulesetFileNameRoundTrip | SonarQube.TeamBuild.PreProcessor/Roslyn/RoslynAnalyzerProvider.cs:114-117 | a ruleset file name decodes to a language exactly when it is that language's ruleset file name |
| RoslynNaming.GetRulesetFilePath | SonarQube.TeamBuild.PreProcessor/Roslyn/RoslynAnalyzerProvider.cs:167-170 | the ruleset path ends with the language's ruleset file name |
| RoslynNaming.RulesetFilePathInConfigDirectory | SonarQube.TeamBuild.PreProcessor/Roslyn/RoslynAnalyzerProvider.cs:167-170 | the ruleset path is the config directory joined with the file name (the name is never rooted) |
| RoslynNaming.RulesetFilePathsDistinct | SonarQube.TeamBuild.PreProcessor/Roslyn/RoslynAnalyzerProvider.cs:167-170 | different languages never share a ruleset path |
| RoslynNaming.SonarLintXmlPath | SonarQube.TeamBuild.PreProcessor/Roslyn/RoslynAnalyzerProvider.cs:205-208 | the additional file's path ends with "SonarLint.xml" |
| RoslynNaming.SonarLintXmlPathInLanguageDirectory | SonarQube.TeamBuild.PreProcessor/Roslyn/RoslynAnalyzerProvider.cs:205-208 | SonarLint.xml is the language directory Combine(SonarConfigDirectory, language) followed by "SonarLint.xml", with a separator only when the directory does not already end in one |
| RoslynNaming.RulesetFilePathIsNotSonarLintXmlPath | SonarQube.TeamBuild.PreProcessor/Roslyn/RoslynAnalyzerProvider.cs:160-208 | no ruleset path equals any language's SonarLint.xml path, so saving the ruleset never touches an additional file |
| RoslynNaming.SonarLintRepository | SonarQube.TeamBuild.PreProcessor/Roslyn/RoslynAnalyzerProvider.cs:196-203 | the xml is generated for "csharpsquid" exactly when the language is "cs", otherwise for "vbnet" |
| AssemblyResolution.PartialRepoKeyOf | SonarQube.TeamBuild.PreProcessor/Roslyn/RoslynAnalyzerProvider.cs:275-282 | a rule contributes a key exactly for a "roslyn." repository or "csharpsquid"/"vbnet"; a "roslyn." key is the prefix's remainder, the others give "sonaranalyzer-" + language |
| AssemblyResolution.SonarAnalyzerRepositoryIsNotRoslyn | SonarQube.TeamBuild.PreProcessor/Roslyn/RoslynAnalyzerProvider.cs:275-279 | "csharpsquid" and "vbnet" do not start with "roslyn.", so the two branches never overlap |
| AssemblyResolution.PartialRepoKeyOfIs | SonarQube.TeamBuild.PreProcessor/Roslyn/RoslynAnalyzerProvider.cs:275-282 | a rule's key is k exactly when its repository is "roslyn." + k, or k is the language's SonarAnalyzer key and the repository is "csharpsquid"/"vbnet" |
| AssemblyResolution.PartialRepoKeysMembership | SonarQube.TeamBuild.PreProcessor/Roslyn/RoslynAnalyzerProvider.cs:269-286 | k is derived exactly when some rule's repository is "roslyn." + k, or k is "sonaranalyzer-" + language and some rule is "csharpsquid"/"vbnet"; nothing else is derived |
| AssemblyResolution.PartialRepoKeysConverge | SonarQube.TeamBuild.PreProcessor/Roslyn/RoslynAnalyzerProvider.cs:275-282 | "roslyn.sonaranalyzer-cs" and "csharpsquid" both give exactly {"sonaranalyzer-cs"} for "cs"; "vbnet" next to an unrelated repository gives only {"sonaranalyzer-vbnet"} |
| AssemblyResolution.ActiveRulesPartialRepoKey | SonarQube.TeamBuild.PreProcessor/Roslyn/RoslynAnalyzerProvider.cs:269-286 | the loop collects exactly the partial-key set of all active rules, each key once |
| AssemblyResolution.PluginKeyPropertyKey | SonarQube.TeamBuild.PreProcessor/Roslyn/RoslynAnalyzerProvider.cs:254-257 | the property key is the partial key followed by ".pluginKey": it starts with the partial key, ends with the suffix, and is exactly as long as the two |
| AssemblyResolution.PluginVersionPropertyKey | SonarQube.TeamBuild.PreProcessor/Roslyn/RoslynAnalyzerProvider.cs:259-262 | the property key is the partial key followed by ".pluginVersion": it starts with the partial key, ends with the suffix, and is exactly as long as the two |
| AssemblyResolution.StaticResourceNamePropertyKey | SonarQube.TeamBuild.PreProcessor/Roslyn/RoslynAnalyzerProvider.cs:264-267 | the property key is the partial key followed by ".staticResourceName": it starts with the partial key, ends with the suffix, and is exactly as long as the two |
| AssemblyResolution.PropertyKeysUnambiguous | SonarQube.TeamBuild.PreProcessor/Roslyn/RoslynAnalyzerProvider.cs:254-267 | each property key determines its partial key, and the three kinds never collide, so no setting serves two lookups |
| AssemblyResolution.ResolvePluginIffPublished | SonarQube.TeamBuild.PreProcessor/Roslyn/RoslynAnalyzerProvider.cs:230-238 | a key resolves to a plugin exactly when the settings hold that plugin's three properties under the key; other settings do not matter |
| AssemblyResolution.PublishedPluginResolves | SonarQube.TeamBuild.PreProcessor/Roslyn/RoslynAnalyzerProvider.cs:230-238 | publishing a plugin's three properties under a key makes the key resolve to that plugin |
| AssemblyResolution.ResolveAllMembership | SonarQube.TeamBuild.PreProcessor/Roslyn/RoslynAnalyzerProvider.cs:225-239 | the loop's list holds a plugin exactly when some visited key resolves to it |
| AssemblyResolution.ResolveAllCount | SonarQube.TeamBuild.PreProcessor/Roslyn/RoslynAnalyzerProvider.cs:225-239 | over distinct keys, the loop's list holds each plugin once per visited key that resolves to it |
| AssemblyResolution.ResolveAllLength | SonarQube.TeamBuild.PreProcessor/Roslyn/RoslynAnalyzerProvider.cs:225-239 | over distinct keys, the loop's list has one plugin per resolving key |
| AssemblyResolution.ResolvedPluginListSpec | SonarQube.TeamBuild.PreProcessor/Roslyn/RoslynAnalyzerProvider.cs:222-239 | in any iteration order, each plugin occurs in the list exactly as often as there are keys resolving to it (duplicates kept); hence membership, one entry per resolving key, and an empty list exactly when no key resolves |
| AssemblyResolution.ScenarioPlugins | SonarQube.TeamBuild.PreProcessor/Roslyn/RoslynAnalyzerProvider.cs:222-239 | one "csharpsquid" rule for "cs", with the sonaranalyzer-cs plugin published, resolves to exactly [Plugin("csharp", "1.0", "res.jar")] |
| SetupProperties.ScenarioSetupInstallsCSharpPlugin | SonarQube.TeamBuild.PreProcessor/Roslyn/RoslynAnalyzerProvider.cs:69-145 | in that scenario, with a ruleset that has rules, SetupAnalyzer calls the installer exactly once with [Plugin("csharp", "1.0", "res.jar")] and returns its paths in the configuration |
| Provisioning.FirstNullArgument | SonarQube.TeamBuild.PreProcessor/Roslyn/RoslynAnalyzerProvider.cs:72-91 | no argument is named exactly when all five are present |
| SetupProperties.NullArgumentsRejectedInOrder | SonarQube.TeamBuild.PreProcessor/Roslyn/RoslynAnalyzerProvider.cs:72-91 | the first null of settings, language, serverSettings, inactiveRules, activeRules is the one named in the ArgumentNullException, and nothing outside the provider changes |
| SetupProperties.NoActiveRulesNoEffect | SonarQube.TeamBuild.PreProcessor/Roslyn/RoslynAnalyzerProvider.cs:92-95 | no active rules: null result, no file, no directory, no installer call |
| SetupProperties.EmptyRuleSetNoEffect | SonarQube.TeamBuild.PreProcessor/Roslyn/RoslynAnalyzerProvider.cs:127-136 | a ruleset without rules gates everything: null result, no ruleset, no SonarLint.xml, no directory, no installer call |
| SetupProperties.WriteRulesetSavesOnlyRules | SonarQube.TeamBuild.PreProcessor/Roslyn/RoslynAnalyzerProvider.cs:151-165 | a path is returned exactly when the ruleset has rules; only then is the ruleset saved, at the language's ruleset path, and nothing else changes |
| SetupProperties.SonarLintXmlStepSpec | SonarQube.TeamBuild.PreProcessor/Roslyn/RoslynAnalyzerProvider.cs:187-218 | SonarLint.xml is written and named exactly when the language is not blank and the file is absent; the directory is created even when the file exists |
| SetupProperties.BlankLanguageWritesNoSonarLintXml | SonarQube.TeamBuild.PreProcessor/Roslyn/RoslynAnalyzerProvider.cs:189-193 | an empty or white-space language gives no path and changes nothing |
| SetupProperties.SonarLintXmlWriteIsIdempotent | SonarQube.TeamBuild.PreProcessor/Roslyn/RoslynAnalyzerProvider.cs:205-217 | a second write for the same language gives no path and leaves the first write's content |
| SetupProperties.ExistingSonarLintXmlKept | SonarQube.TeamBuild.PreProcessor/Roslyn/RoslynAnalyzerProvider.cs:205-213 | a SonarLint.xml that exists before SetupAnalyzer, for any language, keeps its content |
| SetupProperties.ConfigureOverwritesOnlyRuleset | SonarQube.TeamBuild.PreProcessor/Roslyn/RoslynAnalyzerProvider.cs:127-145 | ConfigureAnalyzer leaves every existing file other than the language's ruleset present and unchanged |
| SetupProperties.ProvisionDescribesArtifacts | SonarQube.TeamBuild.PreProcessor/Roslyn/RoslynAnalyzerProvider.cs:138-144 | after the ruleset, the configuration carries the given language and ruleset path and the installer's paths; an installer exception is passed on |
| SetupProperties.InstallerCalledAtMostOnce | SonarQube.TeamBuild.PreProcessor/Roslyn/RoslynAnalyzerProvider.cs:241-251 | the installer is called at most once, with the whole plugin list, and only when the ruleset has rules and the list is non-empty |
| SetupProperties.FetchInstallsIffPluginResolves | SonarQube.TeamBuild.PreProcessor/Roslyn/RoslynAnalyzerProvider.cs:220-252 | no resolving key: null and no call; otherwise one call with the full list, whose answer is returned unchanged |
| SetupProperties.InstallerCalledIffPluginResolves | SonarQube.TeamBuild.PreProcessor/Roslyn/RoslynAnalyzerProvider.cs:220-252 | once past the ruleset, the installer is called exactly when some partial key of the active rules resolves |
| SetupProperties.InstallerFailurePropagates | SonarQube.TeamBuild.PreProcessor/Roslyn/RoslynAnalyzerProvider.cs:249 | SetupAnalyzer throws the installer's exception, and the ruleset saved before the call stays on disk |
| SetupProperties.ConfigurationDescribesArtifacts | SonarQube.TeamBuild.PreProcessor/Roslyn/RoslynAnalyzerProvider.cs:138-144 | the returned settings carry the language, the saved ruleset's path, and the installer's paths (empty when it answered null or was not called) |
| SetupProperties.AdditionalFileIsNewSonarLintXml | SonarQube.TeamBuild.PreProcessor/Roslyn/RoslynAnalyzerProvider.cs:172-185 | the additional files are exactly [the language's SonarLint.xml] when the language is not blank and the file was absent, and [] otherwise; a listed file holds the generated xml |
| Roslyn.RoslynAnalyzerProvider.constructor | SonarQube.TeamBuild.PreProcessor/Roslyn/RoslynAnalyzerProvider.cs:55-67 | the provider keeps its collaborators and starts with no stored settings |
| Roslyn.RoslynAnalyzerProvider.SetupAnalyzer | SonarQube.TeamBuild.PreProcessor/Roslyn/RoslynAnalyzerProvider.cs:69-107 | result and new files/directories/installer calls are those of SetupStep; the fields are assigned only after the checks pass and active rules exist; the plugin list is a resolution of the partial keys |
| Roslyn.RoslynAnalyzerProvider.ConfigureAnalyzer | SonarQube.TeamBuild.PreProcessor/Roslyn/RoslynAnalyzerProvider.cs:127-145 | result and new state are those of ConfigureStep: ruleset first, then additional file and assemblies only if a ruleset was written |
| Roslyn.RoslynAnalyzerProvider.WriteRuleset | SonarQube.TeamBuild.PreProcessor/Roslyn/RoslynAnalyzerProvider.cs:151-165 | result and new state are those of WriteRulesetStep (null and no save without rules; a null-reference exception with rules but no stored settings) |
| Roslyn.RoslynAnalyzerProvider.WriteAdditionalFiles | SonarQube.TeamBuild.PreProcessor/Roslyn/RoslynAnalyzerProvider.cs:172-185 | the list is [path] when SonarLint.xml was written and [] otherwise; the new state is that of WriteSonarLintXmlStep |
| Roslyn.RoslynAnalyzerProvider.WriteSonarLintXmlFile | SonarQube.TeamBuild.PreProcessor/Roslyn/RoslynAnalyzerProvider.cs:187-218 | result and new state are those of WriteSonarLintXmlStep, with the xml generated for SonarLintRepository(language) |
| Roslyn.RoslynAnalyzerProvider.FetchAnalyzerAssemblies | SonarQube.TeamBuild.PreProcessor/Roslyn/RoslynAnalyzerProvider.cs:220-252 | result and new state are those of FetchStep for the plugin list the loop built; that list is a resolution of the partial keys in the set's iteration order, and empty when no server settings are stored |

## Left out

- Logging: the ILogger messages are not modelled. They do not affect results or files.
- The constructor's null checks: Dafny references are never null, so a null installer or logger cannot be passed.
- The ruleset generator, RoslynSonarLint.GenerateXml and the installer are modelled as function values only.
  The ruleset's rule ids and actions, and the XML format, come from code that is not part of this model.
  RuleSet.Save stores the ruleset value itself as the file content.
- Exceptions other than those named are not modelled: exceptions from the generators, I/O errors, invalid path characters, and unauthorized access.
- Null arguments to the public WriteRuleset and FetchAnalyzerAssemblies are not modelled: a null language, a null rule list, null rules, or null repository keys.
  Neither is a null SonarConfigDirectory. Every string and sequence in the model is non-null.
- Paths are compared as exact strings. There is no case-insensitivity and no normalisation.
- Directory.CreateDirectory records only the one directory; its parents are not recorded.
  Writes do not check that the directory exists.
- StartsWith("roslyn.") is culture-sensitive in .NET but is modelled as an ordinal prefix test. For this ASCII prefix the two differ only on ignorable characters.
- Debug.Assert calls are debug-only checks and are not modelled.
- The rest of the repository is not part of this model: the VSTS build tasks, the packaging scripts and the test utilities.
