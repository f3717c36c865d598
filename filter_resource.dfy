/**
 * The resource-name predicates of FilterResource: by prefix and suffix of the
 * file name, by suffix of the whole name, by prefix of the whole name.
 */
module FilterResource {
  import opened Text

  /** The three matchers; resource names always use '/' as their separator. */
  datatype Filter =
    | ByPrefixSuffix(prefix: string, suffix: string)
    | BySuffix(suffix: string)
    | ByPrefix(prefix: string)

  /** The file-name part of a resource name: what follows its last '/'. */
  function FileName(resourceName: string): string {
    AfterLastSlash(resourceName)
  }

  /** Predicate.test of each matcher. */
  predicate Test(f: Filter, resourceName: string) {
    match f
    case ByPrefixSuffix(prefix, suffix) =>
      var fileName := FileName(resourceName);
      StartsWith(fileName, prefix) && EndsWith(fileName, suffix)
    case BySuffix(suffix) => EndsWith(resourceName, suffix)
    case ByPrefix(prefix) => StartsWith(resourceName, prefix)
  }

  /**
   * byPrefixSuffix looks only at the file name: a name without '/' is tested
   * whole, and a name "dir/file" is tested as "file", whatever "dir" holds.
   */
  lemma PrefixSuffixSeesOnlyFileName(prefix: string, suffix: string, dir: string, file: string)
    requires '/' !in file
    ensures Test(ByPrefixSuffix(prefix, suffix), file) <==> StartsWith(file, prefix) && EndsWith(file, suffix)
    ensures Test(ByPrefixSuffix(prefix, suffix), dir + "/" + file) == Test(ByPrefixSuffix(prefix, suffix), file)
  {
    AfterLastSlashOfPath(dir, file);
    assert LastIndexOf(file, '/') == -1;
  }

  /** A suffix of a suffix of a name is a suffix of the name. */
  lemma EndsWithTransitive(s: string, t: string, suffix: string)
    requires |t| <= |s| && t == s[|s| - |t|..]
    requires EndsWith(t, suffix)
    ensures EndsWith(s, suffix)
  {
    assert s[|s| - |suffix|..] == t[|t| - |suffix|..];
  }

  /** Whatever byPrefixSuffix(p, s) accepts, bySuffix(s) accepts too. */
  lemma PrefixSuffixImpliesSuffix(prefix: string, suffix: string, resourceName: string)
    requires Test(ByPrefixSuffix(prefix, suffix), resourceName)
    ensures Test(BySuffix(suffix), resourceName)
  {
    EndsWithTransitive(resourceName, FileName(resourceName), suffix);
  }

  /** byPrefixSuffix("", "") accepts every name. */
  lemma EmptyPrefixSuffixAcceptsAll(resourceName: string)
    ensures Test(ByPrefixSuffix("", ""), resourceName)
  {
    var fileName := FileName(resourceName);
    assert fileName[..0] == [] && fileName[|fileName|..] == [];
  }

  /**
   * A directory segment starting with the prefix does not make a name match:
   * with a file name that does not start with the prefix, the name is rejected.
   */
  lemma DirectoryPrefixIgnored(prefix: string, suffix: string, dir: string, file: string)
    requires '/' !in file
    requires StartsWith(dir, prefix) && !StartsWith(file, prefix)
    ensures !Test(ByPrefixSuffix(prefix, suffix), dir + "/" + file)
    ensures Test(ByPrefix(prefix), dir + "/" + file)
  {
    PrefixSuffixSeesOnlyFileName(prefix, suffix, dir, file);
    var name := dir + "/" + file;
    assert name[..|prefix|] == dir[..|prefix|];
  }
}
