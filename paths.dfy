/**
 * The parts of System.String and System.IO.Path (.NET Framework, Windows) that the
 * provider relies on: ordinal prefix tests, white-space tests and Path.Combine.
 */
module Paths {

  const DirectorySeparatorChar: char := '\\'
  const AltDirectorySeparatorChar: char := '/'
  const VolumeSeparatorChar: char := ':'

  predicate StartsWith(s: string, prefix: string) {
    |prefix| <= |s| && s[..|prefix|] == prefix
  }

  predicate EndsWith(s: string, suffix: string) {
    |suffix| <= |s| && s[|s| - |suffix|..] == suffix
  }

  /** Char.IsWhiteSpace: the Unicode separators plus U+0009..U+000D and U+0085. */
  predicate IsWhiteSpace(c: char) {
    || c == ' '
    || ('\t' <= c <= '\r')
    || c == '\U{0085}'
    || c == '\U{00A0}'
    || c == '\U{1680}'
    || ('\U{2000}' <= c <= '\U{200A}')
    || c == '\U{2028}'
    || c == '\U{2029}'
    || c == '\U{202F}'
    || c == '\U{205F}'
    || c == '\U{3000}'
  }

  /** String.IsNullOrWhiteSpace for a non-null string: empty, or white space only. */
  predicate IsNullOrWhiteSpace(s: string) {
    forall i :: 0 <= i < |s| ==> IsWhiteSpace(s[i])
  }

  predicate IsDirectorySeparator(c: char) {
    c == DirectorySeparatorChar || c == AltDirectorySeparatorChar || c == VolumeSeparatorChar
  }

  /** Path.IsPathRooted: a leading separator, or a drive letter followed by ':'. */
  predicate IsPathRooted(path: string) {
    || (|path| >= 1 && (path[0] == DirectorySeparatorChar || path[0] == AltDirectorySeparatorChar))
    || (|path| >= 2 && path[1] == VolumeSeparatorChar)
  }

  /** What Path.Combine puts in front of a relative, non-empty second argument. */
  function CombinePrefix(path1: string): string {
    if path1 == "" then ""
    else if IsDirectorySeparator(path1[|path1| - 1]) then path1
    else path1 + [DirectorySeparatorChar]
  }

  /**
   * Path.Combine(path1, path2): an empty second argument gives the first, an empty first
   * argument or a rooted second one gives the second, and otherwise the two are joined
   * with a backslash unless the first already ends with a separator.
   */
  function Combine(path1: string, path2: string): (path: string)
    ensures EndsWith(path, path2)
    ensures path2 == "" ==> path == path1
    ensures IsPathRooted(path2) ==> path == path2
    ensures path2 != "" && !IsPathRooted(path2) ==> path == CombinePrefix(path1) + path2
  {
    if path2 == "" then path1
    else if path1 == "" then path2
    else if IsPathRooted(path2) then path2
    else if IsDirectorySeparator(path1[|path1| - 1]) then path1 + path2
    else path1 + [DirectorySeparatorChar] + path2
  }

  /** A path and a name it ends with agree on their last character. */
  lemma EndsWithLast(s: string, suffix: string)
    requires EndsWith(s, suffix) && suffix != ""
    ensures s[|s| - 1] == suffix[|suffix| - 1]
  {
    assert s[|s| - |suffix|..][|suffix| - 1] == s[|s| - 1];
  }
}
