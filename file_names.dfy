/** The string searches and file-name derivations the main window and the
    output writer share: the last or first occurrence of a character, a
    file name's extension, the name shown for a project, and the first
    extension of an FFmpeg format name. */
module PathNames {
  import opened Common

  /** `find_last_of(c)` and `lastIndexOf(c)`: where the last `c` is. */
  function LastIndexOf(s: string, c: char): (r: Option<nat>)
    ensures r.Some? ==> r.value < |s| && s[r.value] == c
    ensures r.Some? ==> forall j :: r.value < j < |s| ==> s[j] != c
    ensures r.None? <==> c !in s
  {
    if s == [] then None
    else if s[|s| - 1] == c then Some(|s| - 1)
    else
      var r := LastIndexOf(s[..|s| - 1], c);
      assert s == s[..|s| - 1] + [s[|s| - 1]];
      r
  }

  /** `find(c)`: where the first `c` is. */
  function FirstIndexOf(s: string, c: char): (r: Option<nat>)
    ensures r.Some? ==> r.value < |s| && s[r.value] == c
    ensures r.Some? ==> forall j :: 0 <= j < r.value ==> s[j] != c
    ensures r.None? <==> c !in s
  {
    if s == [] then None
    else if s[0] == c then Some(0)
    else
      assert s == [s[0]] + s[1..];
      match FirstIndexOf(s[1..], c)
      case None => None
      case Some(k) => Some(k + 1)
  }

  /** Any position that holds `c` with no `c` after it is the last one. */
  lemma LastIndexOfIs(s: string, c: char, k: nat)
    requires k < |s| && s[k] == c
    requires forall j :: k < j < |s| ==> s[j] != c
    ensures LastIndexOf(s, c) == Some(k)
  {
  }

  /** The extension of a file name: from its last '.' inclusive, or empty
      when it has none. */
  function Extension(name: string): (ext: string)
    ensures ext == [] || (ext[0] == '.' && '.' !in ext[1..])
    ensures ext == [] <==> '.' !in name
  {
    match LastIndexOf(name, '.')
    case None => []
    case Some(k) => name[k..]
  }

  /** An extension is its own extension. */
  lemma ExtensionOfExtension(name: string)
    ensures Extension(Extension(name)) == Extension(name)
  {
    var ext := Extension(name);
    if ext != [] {
      LastIndexOfIs(ext, '.', 0);
    }
  }

  /** The file name without its extension. */
  function Stem(name: string): (stem: string)
    ensures stem + Extension(name) == name
  {
    match LastIndexOf(name, '.')
    case None => name
    case Some(k) => name[..k]
  }

  /** An extension glued after a text is the extension of the whole. */
  lemma ExtensionAfter(prefix: string, name: string)
    requires '.' in name
    ensures Extension(prefix + name) == Extension(name)
    ensures Stem(prefix + name) == prefix + Stem(name)
  {
    var k := LastIndexOf(name, '.').value;
    var all := prefix + name;
    assert all[|prefix| + k] == '.';
    LastIndexOfIs(all, '.', |prefix| + k);
    assert all[|prefix| + k..] == name[k..];
    assert all[..|prefix| + k] == prefix + name[..k];
  }

  /** The default output file name of `create_output`: "_output" goes in
      front of the extension, or at the end when there is none. */
  function OutputName(input: string): (r: string)
    ensures |r| == |input| + 7
  {
    match LastIndexOf(input, '.')
    case Some(k) => input[..k] + "_output" + input[k..]
    case None => input + "_output"
  }

  /** The default output name keeps the input's extension, and its stem is
      the input's stem followed by "_output". */
  lemma OutputNameKeepsExtension(input: string)
    ensures Extension(OutputName(input)) == Extension(input)
    ensures Stem(OutputName(input)) == Stem(input) + "_output"
  {
    var out := OutputName(input);
    match LastIndexOf(input, '.')
    case Some(k) =>
      assert out == (input[..k] + "_output") + input[k..];
      assert input[k..][0] == '.';
      ExtensionAfter(input[..k] + "_output", input[k..]);
      assert LastIndexOf(input[k..], '.') == Some(0) by {
        LastIndexOfIs(input[k..], '.', 0);
      }
    case None =>
      assert '.' !in out by {
        assert forall j :: 0 <= j < |out| ==> out[j] == if j < |input| then input[j] else "_output"[j - |input|];
      }
  }

  predicate EndsWith(s: string, suffix: string) {
    |suffix| <= |s| && s[|s| - |suffix|..] == suffix
  }

  /** `if (!filename.endsWith(suffix)) filename += suffix`. */
  function WithSuffix(name: string, suffix: string): (r: string)
    ensures EndsWith(r, suffix)
    ensures r == name || r == name + suffix
  {
    if EndsWith(name, suffix) then name
    else
      assert (name + suffix)[|name|..] == suffix;
      name + suffix
  }

  /** Adding the suffix a second time changes nothing, and a name that
      already ends with it is left alone. */
  lemma WithSuffixIdempotent(name: string, suffix: string)
    ensures WithSuffix(WithSuffix(name, suffix), suffix) == WithSuffix(name, suffix)
    ensures EndsWith(name, suffix) <==> WithSuffix(name, suffix) == name
  {
    if !EndsWith(name, suffix) && suffix != [] {
      assert WithSuffix(name, suffix) == name + suffix;
    }
  }

  /** The project's display name: what follows the last '/', or the whole
      path when it has none. */
  function ProjectName(path: string): (r: string)
    ensures '/' !in r
    ensures |r| <= |path| && path[|path| - |r|..] == r
  {
    match LastIndexOf(path, '/')
    case None => path
    case Some(k) => path[k + 1..]
  }

  /** The display name is the whole path after the directory part, which is
      empty or ends with '/'. */
  lemma ProjectNameSplitsPath(path: string)
    ensures var dir := path[..|path| - |ProjectName(path)|];
      dir + ProjectName(path) == path && (dir == [] || dir[|dir| - 1] == '/')
    ensures '/' !in path ==> ProjectName(path) == path
  {
  }

  /** The first extension of an FFmpeg format name: up to the first ',', or
      the whole name when there is none. */
  function FormatExtension(formatName: string): (ext: string)
    ensures ',' !in ext
    ensures |ext| <= |formatName| && formatName[..|ext|] == ext
    ensures ext == formatName <==> ',' !in formatName
  {
    match FirstIndexOf(formatName, ',')
    case None => formatName
    case Some(k) => formatName[..k]
  }
}
