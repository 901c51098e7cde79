/**
 * The state outside the provider that its methods change: the file system it writes
 * to and the injected analyzer installer it calls.
 */
module Collaborators {
  import opened Wrappers
  import opened Model

  /** The files on disk, by exact path string, and the directories created so far. */
  class FileSystem {
    var files: map<string, FileContent>
    var directories: set<string>

    constructor (files: map<string, FileContent>, directories: set<string>)
      ensures this.files == files && this.directories == directories
    {
      this.files := files;
      this.directories := directories;
    }

    /** File.Exists */
    predicate FileExists(path: string)
      reads this
    {
      path in files
    }

    /** Directory.CreateDirectory: idempotent, leaves the files alone. */
    method CreateDirectory(path: string)
      modifies this
      ensures directories == old(directories) + {path}
      ensures files == old(files)
    {
      directories := directories + {path};
    }

    /** File.WriteAllText: creates or replaces the file at `path`. */
    method WriteAllText(path: string, text: string)
      modifies this
      ensures files == old(files)[path := Text(text)]
      ensures directories == old(directories)
    {
      files := files[path := Text(text)];
    }

    /** RuleSet.Save: creates or replaces the file at `path` with the ruleset document. */
    method SaveRuleSet(path: string, ruleSet: RuleSet)
      modifies this
      ensures files == old(files)[path := RuleSetDocument(ruleSet)]
      ensures directories == old(directories)
    {
      files := files[path := RuleSetDocument(ruleSet)];
    }
  }

  /**
   * IAnalyzerInstaller: `install` is what the injected implementation answers for a plugin
   * list (paths, null, or an exception), and `calls` records every plugin list it was given.
   */
  class AnalyzerInstaller {
    const install: seq<Plugin> -> Outcome<Option<seq<string>>>
    ghost var calls: seq<seq<Plugin>>

    constructor (install: seq<Plugin> -> Outcome<Option<seq<string>>>)
      ensures this.install == install && calls == []
    {
      this.install := install;
      calls := [];
    }

    /** InstallAssemblies: one recorded call, whose answer is passed back as is. */
    method InstallAssemblies(plugins: seq<Plugin>) returns (paths: Outcome<Option<seq<string>>>)
      modifies this
      ensures calls == old(calls) + [plugins]
      ensures paths == install(plugins)
    {
      calls := calls + [plugins];
      paths := install(plugins);
    }
  }
}
