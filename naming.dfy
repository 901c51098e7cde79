/**
 * The names and paths RoslynAnalyzerProvider derives from a language identifier:
 * the Roslyn format name, the ruleset file name and path, the per-language
 * SonarLint.xml path and the SonarLint repository the xml is generated for.
 */
module RoslynNaming {
  import opened Wrappers
  import opened Paths
  import opened Model

  const RoslynFormatNamePrefix: string := "roslyn-"
  const RoslynRulesetFilePrefix: string := "SonarQubeRoslyn-"
  const RoslynRulesetFileExtension: string := ".ruleset"
  const SonarLintFileName: string := "SonarLint.xml"

  const CSharpLanguage: string := "cs"
  const CSharpSonarLintRepository: string := "csharpsquid"
  const VBNetSonarLintRepository: string := "vbnet"

  /** string.Format("roslyn-{0}", language). */
  function GetRoslynFormatName(language: string): (name: string)
    ensures StartsWith(name, RoslynFormatNamePrefix)
    ensures |name| == |RoslynFormatNamePrefix| + |language|
  {
    RoslynFormatNamePrefix + language
  }

  /** The inverse of GetRoslynFormatName: the language a format name was made for. */
  function FormatNameLanguage(name: string): Option<string> {
    if StartsWith(name, RoslynFormatNamePrefix) then Some(name[|RoslynFormatNamePrefix|..]) else None
  }

  /** A format name denotes exactly one language, and every language has its format name. */
  lemma FormatNameRoundTrip(language: string, name: string)
    ensures FormatNameLanguage(name) == Some(language) <==> name == GetRoslynFormatName(language)
  {
    if name == GetRoslynFormatName(language) {
      assert name[|RoslynFormatNamePrefix|..] == language;
    }
    if FormatNameLanguage(name) == Some(language) {
      assert name == name[..|RoslynFormatNamePrefix|] + name[|RoslynFormatNamePrefix|..];
    }
  }

  /** string.Format("SonarQubeRoslyn-{0}.ruleset", language). */
  function GetRoslynRulesetFileName(language: string): (name: string)
    ensures StartsWith(name, RoslynRulesetFilePrefix) && EndsWith(name, RoslynRulesetFileExtension)
    ensures |name| == |RoslynRulesetFilePrefix| + |language| + |RoslynRulesetFileExtension|
  {
    RoslynRulesetFilePrefix + language + RoslynRulesetFileExtension
  }

  /** The inverse of GetRoslynRulesetFileName. */
  function RulesetFileNameLanguage(name: string): Option<string> {
    if |RoslynRulesetFilePrefix| + |RoslynRulesetFileExtension| <= |name|
       && StartsWith(name, RoslynRulesetFilePrefix) && EndsWith(name, RoslynRulesetFileExtension)
    then Some(name[|RoslynRulesetFilePrefix|..|name| - |RoslynRulesetFileExtension|])
    else None
  }

  /** A ruleset file name denotes exactly one language. */
  lemma RulesetFileNameRoundTrip(language: string, name: string)
    ensures RulesetFileNameLanguage(name) == Some(language) <==> name == GetRoslynRulesetFileName(language)
  {
    var p, e := |RoslynRulesetFilePrefix|, |RoslynRulesetFileExtension|;
    if name == GetRoslynRulesetFileName(language) {
      assert name[p..|name| - e] == language;
    }
    if RulesetFileNameLanguage(name) == Some(language) {
      assert name == name[..p] + name[p..|name| - e] + name[|name| - e..];
    }
  }

  /** Path.Combine(settings.SonarConfigDirectory, GetRoslynRulesetFileName(language)). */
  function GetRulesetFilePath(settings: TeamBuildSettings, language: string): (path: string)
    ensures EndsWith(path, GetRoslynRulesetFileName(language))
  {
    Combine(settings.sonarConfigDirectory, GetRoslynRulesetFileName(language))
  }

  /** The ruleset file name is relative, so it always lands inside the config directory. */
  lemma RulesetFilePathInConfigDirectory(settings: TeamBuildSettings, language: string)
    ensures GetRulesetFilePath(settings, language)
         == CombinePrefix(settings.sonarConfigDirectory) + GetRoslynRulesetFileName(language)
  {
    var name := GetRoslynRulesetFileName(language);
    assert name[0] == 'S' && name[1] == 'o';
  }

  /**
   * Two languages never share a ruleset file, so runs for different languages
   * do not overwrite each other's ruleset.
   */
  lemma {:induction false} RulesetFilePathsDistinct(settings: TeamBuildSettings, language1: string, language2: string)
    requires language1 != language2
    ensures GetRulesetFilePath(settings, language1) != GetRulesetFilePath(settings, language2)
  {
    RulesetFilePathInConfigDirectory(settings, language1);
    RulesetFilePathInConfigDirectory(settings, language2);
    var prefix := CombinePrefix(settings.sonarConfigDirectory);
    var name1, name2 := GetRoslynRulesetFileName(language1), GetRoslynRulesetFileName(language2);
    if prefix + name1 == prefix + name2 {
      assert name1 == (prefix + name1)[|prefix|..];
      assert name2 == (prefix + name2)[|prefix|..];
      RulesetFileNameRoundTrip(language1, name1);
      RulesetFileNameRoundTrip(language2, name1);
    }
  }

  /** Path.Combine(SonarConfigDirectory, language): the directory SonarLint.xml goes into. */
  function LanguageDirectory(configDirectory: string, language: string): string {
    Combine(configDirectory, language)
  }

  /** Path.Combine(LanguageDirectory(...), "SonarLint.xml"). */
  function SonarLintXmlPath(configDirectory: string, language: string): (path: string)
    ensures EndsWith(path, SonarLintFileName)
  {
    Combine(LanguageDirectory(configDirectory, language), SonarLintFileName)
  }

  /**
   * SonarLint.xml lands inside the language directory that WriteSonarLintXmlFile creates:
   * the file name is relative, so Path.Combine appends it.
   */
  lemma SonarLintXmlPathInLanguageDirectory(configDirectory: string, language: string)
    ensures SonarLintXmlPath(configDirectory, language)
         == CombinePrefix(LanguageDirectory(configDirectory, language)) + SonarLintFileName
  {
    assert SonarLintFileName[0] == 'S' && SonarLintFileName[1] == 'o';
  }

  /**
   * No ruleset path is a SonarLint.xml path, whatever the two languages: saving the
   * ruleset never touches an additional file.
   */
  lemma RulesetFilePathIsNotSonarLintXmlPath(settings: TeamBuildSettings, language1: string, language2: string)
    ensures GetRulesetFilePath(settings, language1) != SonarLintXmlPath(settings.sonarConfigDirectory, language2)
  {
    var rulesetPath := GetRulesetFilePath(settings, language1);
    var xmlPath := SonarLintXmlPath(settings.sonarConfigDirectory, language2);
    var rulesetName := GetRoslynRulesetFileName(language1);
    EndsWithLast(rulesetPath, rulesetName);
    EndsWithLast(rulesetName, RoslynRulesetFileExtension);
    EndsWithLast(xmlPath, SonarLintFileName);
  }

  /** The repository the SonarLint.xml is generated for: "csharpsquid" for "cs", "vbnet" for anything else. */
  function SonarLintRepository(language: string): (repository: string)
    ensures repository == CSharpSonarLintRepository <==> language == CSharpLanguage
    ensures repository == VBNetSonarLintRepository <==> language != CSharpLanguage
  {
    if language == CSharpLanguage then CSharpSonarLintRepository else VBNetSonarLintRepository
  }
}
