/**
 * FileSystemClassPathLocationScanner: the resource names under a classpath
 * location that lives in a directory on disk, made relative to the classpath
 * root and skipping the library's own packages. The file separator is '/'.
 */
module FileSystemLocationScanner {
  import opened Wrappers
  import opened Text
  import opened SortedNames
  import opened Platform

  /**
   * The classpath root on disk: the file path less its last |location| chars,
   * with a '/' appended when it does not end in one. A location longer than the
   * file path is the StringIndexOutOfBoundsException of the substring.
   */
  function ClassPathRoot(filePath: string, location: string): (r: Result<string>)
    ensures r.Err? <==> |location| > |filePath|
    ensures r.Err? ==> r.error == IndexOutOfBounds
    ensures r.Ok? ==> EndsWith(r.value, "/")
    ensures r.Ok? ==> var cut := filePath[..|filePath| - |location|];
      r.value == cut || r.value == cut + "/"
    ensures r.Ok? && EndsWith(filePath[..|filePath| - |location|], "/") ==> r.value == filePath[..|filePath| - |location|]
  {
    if |location| > |filePath| then Err(IndexOutOfBounds)
    else
      var root := filePath[..|filePath| - |location|];
      if EndsWith(root, "/") then Ok(root) else Ok(root + "/")
  }

  /** ignorePath: the library's own packages are not descended into. */
  predicate IgnorePath(resourcePath: string) {
    StartsWith(resourcePath, "io/avaje/classpath") || StartsWith(resourcePath, "io/ebean")
  }

  /** toResourceNameOnClasspath: the absolute path with '\' turned into '/', less the root. */
  function ToResourceNameOnClasspath(root: string, absolutePath: string): (name: string)
    requires |root| <= |absolutePath|
    ensures |name| == |absolutePath| - |root|
    ensures forall k :: 0 <= k < |name| ==>
      name[k] == if absolutePath[|root| + k] == '\\' then '/' else absolutePath[|root| + k]
    ensures '\\' !in name
  {
    var fileName := Replace(absolutePath, '\\', '/');
    assert '\\' !in fileName;
    fileName[|root|..]
  }

  /** The names recorded for one entry of a folder at `folderPath`. */
  function EntryNames(root: string, folderPath: string, e: FsEntry): set<string>
    requires |root| <= |folderPath| + 1
    decreases e, 1, 0
  {
    if !e.readable then {}
    else
      var path := ChildPath(folderPath, e.name);
      var resourcePath := ToResourceNameOnClasspath(root, path);
      if e.File? then {resourcePath}
      else if IgnorePath(resourcePath) then {}
      else FolderNames(root, path, e)
  }

  /** The names recorded for the first k children of a directory. */
  function ListingNames(root: string, folderPath: string, dir: FsEntry, k: nat): set<string>
    requires |root| <= |folderPath| + 1
    requires dir.Directory? && k <= |dir.children|
    decreases dir, 0, k
  {
    if k == 0 then {}
    else ListingNames(root, folderPath, dir, k - 1) + EntryNames(root, folderPath, dir.children[k - 1])
  }

  /** The names recorded for a folder: none when listFiles() returns null. */
  function FolderNames(root: string, folderPath: string, folder: FsEntry): set<string>
    requires |root| <= |folderPath| + 1
    decreases folder, 0, if folder.Directory? then |folder.children| + 1 else 0
  {
    if ListFiles(folder).None? then {} else ListingNames(root, folderPath, folder, |folder.children|)
  }

  /** findResourceNamesFromFileSystem: walks one folder, recursing into the directories it does not ignore. */
  method FindResourceNamesFromFileSystem(root: string, scanRootLocation: string, folderPath: string, folder: FsEntry)
    returns (resourceNames: seq<string>)
    requires |root| <= |folderPath| + 1
    ensures StrictlySorted(resourceNames)
    ensures Elems(resourceNames) == FolderNames(root, folderPath, folder)
    decreases folder
  {
    resourceNames := [];
    var listing := ListFiles(folder);
    if listing.None? {
      return;
    }
    var files := listing.value;
    var i := 0;
    while i < |files|
      invariant 0 <= i <= |files|
      invariant StrictlySorted(resourceNames)
      invariant Elems(resourceNames) == ListingNames(root, folderPath, folder, i)
    {
      var file := files[i];
      if file.readable {
        var path := ChildPath(folderPath, file.name);
        var resourcePath := ToResourceNameOnClasspath(root, path);
        if file.Directory? {
          if !IgnorePath(resourcePath) {
            var sub := FindResourceNamesFromFileSystem(root, scanRootLocation, path, file);
            resourceNames := AddAll(resourceNames, sub);
          }
        } else {
          resourceNames := Insert(resourceNames, resourcePath);
        }
      }
      i := i + 1;
    }
  }

  /** The names findResourceNames promises for a location and the entry found at the URL's file path. */
  function ScanNames(location: string, filePath: string, found: Option<FsEntry>): Result<set<string>> {
    if found.None? || !found.value.Directory? then Ok({})
    else
      match ClassPathRoot(filePath, location)
      case Err(e) => Err(e)
      case Ok(root) => Ok(FolderNames(root, filePath, found.value))
  }

  /**
   * findResourceNames: nothing when the URL's file path is not a directory,
   * otherwise the walk from that directory with names relative to the root.
   */
  method FindResourceNames(location: string, locationUrl: Url, toFilePath: Url -> string, fileAt: string -> Option<FsEntry>)
    returns (r: Result<seq<string>>)
    ensures var listing := ScanNames(location, toFilePath(locationUrl), fileAt(toFilePath(locationUrl)));
      && (r.Err? <==> listing.Err?)
      && (r.Err? ==> r.error == listing.error)
      && (r.Ok? ==> StrictlySorted(r.value) && Elems(r.value) == listing.value)
  {
    var filePath := toFilePath(locationUrl);
    var folder := fileAt(filePath);
    if folder.None? || !folder.value.Directory? {
      return Ok([]);
    }
    var root :- ClassPathRoot(filePath, location);
    var names := FindResourceNamesFromFileSystem(root, location, filePath, folder.value);
    return Ok(names);
  }

  /** The part of a resource name before its last '/', or "" when it has none. */
  function DirectoryOf(name: string): string {
    var i := LastIndexOf(name, '/');
    if i < 0 then [] else name[..i]
  }

  /** The root-relative form of a path on disk. */
  function Relative(root: string, path: string): string
    requires |root| <= |path|
  {
    ToResourceNameOnClasspath(root, path)
  }

  lemma RelativeOfChild(root: string, folderPath: string, name: string)
    requires |root| <= |folderPath|
    ensures Relative(root, ChildPath(folderPath, name)) == Relative(root, folderPath) + "/" + Replace(name, '\\', '/')
  {
    ReplaceAppend(folderPath + "/", name, '\\', '/');
    ReplaceAppend(folderPath, "/", '\\', '/');
    var whole := Replace(folderPath + "/" + name, '\\', '/');
    assert whole == Replace(folderPath, '\\', '/') + "/" + Replace(name, '\\', '/');
  }

  /** Every name recorded under a folder starts with the folder's root-relative path and a '/'. */
  lemma {:induction false} EntryNamesUnder(root: string, folderPath: string, e: FsEntry)
    requires |root| <= |folderPath|
    ensures forall n :: n in EntryNames(root, folderPath, e) ==> StartsWith(n, Relative(root, folderPath) + "/")
    decreases e, 1, 0
  {
    if e.readable {
      var path := ChildPath(folderPath, e.name);
      var prefix := Relative(root, folderPath) + "/";
      RelativeOfChild(root, folderPath, e.name);
      assert StartsWith(Relative(root, path), prefix) by {
        assert Relative(root, path)[..|prefix|] == prefix;
      }
      if e.Directory? && !IgnorePath(Relative(root, path)) && e.listable {
        ListingNamesUnder(root, path, e, |e.children|);
        assert EntryNames(root, folderPath, e) == ListingNames(root, path, e, |e.children|);
        var sub := Relative(root, path);
        assert StartsWith(sub + "/", sub) by {
          assert (sub + "/")[..|sub|] == sub;
        }
        StartsWithTransitive(sub + "/", sub, prefix);
        forall n | n in EntryNames(root, folderPath, e)
          ensures StartsWith(n, prefix)
        {
          StartsWithTransitive(n, Relative(root, path) + "/", prefix);
        }
      }
    }
  }

  lemma {:induction false} ListingNamesUnder(root: string, folderPath: string, dir: FsEntry, k: nat)
    requires |root| <= |folderPath|
    requires dir.Directory? && k <= |dir.children|
    ensures forall n :: n in ListingNames(root, folderPath, dir, k) ==> StartsWith(n, Relative(root, folderPath) + "/")
    decreases dir, 0, k
  {
    if k > 0 {
      ListingNamesUnder(root, folderPath, dir, k - 1);
      EntryNamesUnder(root, folderPath, dir.children[k - 1]);
    }
  }

  /** What one listed child contributes is part of what the first k children contribute. */
  lemma {:induction false} ListingNamesContain(root: string, folderPath: string, dir: FsEntry, k: nat, i: nat)
    requires |root| <= |folderPath| + 1
    requires dir.Directory? && i < k <= |dir.children|
    ensures EntryNames(root, folderPath, dir.children[i]) <= ListingNames(root, folderPath, dir, k)
  {
    if i < k - 1 {
      ListingNamesContain(root, folderPath, dir, k - 1, i);
    }
  }

  /**
   * A readable file in a listable folder is recorded by its root-relative
   * name, and a readable subdirectory contributes all of its names unless its
   * root-relative path is ignored, in which case it contributes none.
   */
  lemma ChildrenRecorded(root: string, folderPath: string, folder: FsEntry, i: nat)
    requires |root| <= |folderPath| + 1
    requires folder.Directory? && folder.listable && i < |folder.children|
    requires folder.children[i].readable
    ensures var child := folder.children[i];
      var path := ChildPath(folderPath, child.name);
      child.File? ==> ToResourceNameOnClasspath(root, path) in FolderNames(root, folderPath, folder)
    ensures var child := folder.children[i];
      var path := ChildPath(folderPath, child.name);
      child.Directory? && !IgnorePath(ToResourceNameOnClasspath(root, path)) ==>
        FolderNames(root, path, child) <= FolderNames(root, folderPath, folder)
    ensures var child := folder.children[i];
      var path := ChildPath(folderPath, child.name);
      child.Directory? && IgnorePath(ToResourceNameOnClasspath(root, path)) ==>
        EntryNames(root, folderPath, child) == {}
  {
    ListingNamesContain(root, folderPath, folder, |folder.children|, i);
  }

  /** Entry names as java.io.File lists them: no separator of either kind inside a name. */
  ghost predicate PlainNames(e: FsEntry)
    decreases e
  {
    && '/' !in e.name && '\\' !in e.name
    && (e.Directory? ==> forall i :: 0 <= i < |e.children| ==> PlainNames(e.children[i]))
  }

  lemma DirectoryOfChild(root: string, folderPath: string, name: string)
    requires |root| <= |folderPath| && '/' !in name && '\\' !in name
    ensures DirectoryOf(Relative(root, ChildPath(folderPath, name))) == Relative(root, folderPath)
  {
    var rel := Relative(root, folderPath);
    var s := Relative(root, ChildPath(folderPath, name));
    RelativeOfChild(root, folderPath, name);
    ReplaceAbsent(name, '\\', '/');
    assert s == rel + "/" + name;
    LastSlashOfPath(rel, name);
    assert s[..|rel|] == rel;
  }

  /** Every name lies directly in `dir` or in a directory whose path is not ignored. */
  ghost predicate AvoidsIgnored(names: set<string>, dir: string) {
    forall n :: n in names ==> DirectoryOf(n) == dir || !IgnorePath(DirectoryOf(n))
  }

  lemma AvoidsIgnoredUnion(a: set<string>, b: set<string>, dir: string)
    requires AvoidsIgnored(a, dir) && AvoidsIgnored(b, dir)
    ensures AvoidsIgnored(a + b, dir)
  {
  }

  /** Names under a directory that is not ignored avoid ignored directories, seen from any parent. */
  lemma AvoidsIgnoredBelow(names: set<string>, sub: string, dir: string)
    requires AvoidsIgnored(names, sub) && !IgnorePath(sub)
    ensures AvoidsIgnored(names, dir)
  {
  }

  /**
   * The ignore check applies to directories only: each name lies directly in
   * the scanned folder or in a directory whose root-relative path is not ignored.
   */
  lemma {:induction false} EntryNamesAvoidIgnored(root: string, folderPath: string, e: FsEntry)
    requires |root| <= |folderPath| && PlainNames(e)
    ensures AvoidsIgnored(EntryNames(root, folderPath, e), Relative(root, folderPath))
    decreases e, 1, 0
  {
    if e.readable {
      var path := ChildPath(folderPath, e.name);
      if e.File? {
        DirectoryOfChild(root, folderPath, e.name);
        assert EntryNames(root, folderPath, e) == {Relative(root, path)};
      } else if !IgnorePath(Relative(root, path)) && e.listable {
        ListingNamesAvoidIgnored(root, path, e, |e.children|);
        assert EntryNames(root, folderPath, e) == ListingNames(root, path, e, |e.children|);
        AvoidsIgnoredBelow(EntryNames(root, folderPath, e), Relative(root, path), Relative(root, folderPath));
      } else {
        assert EntryNames(root, folderPath, e) == {};
      }
    } else {
      assert EntryNames(root, folderPath, e) == {};
    }
  }

  lemma {:induction false} ListingNamesAvoidIgnored(root: string, folderPath: string, dir: FsEntry, k: nat)
    requires |root| <= |folderPath| && PlainNames(dir)
    requires dir.Directory? && k <= |dir.children|
    ensures AvoidsIgnored(ListingNames(root, folderPath, dir, k), Relative(root, folderPath))
    decreases dir, 0, k
  {
    if k > 0 {
      var child := dir.children[k - 1];
      assert PlainNames(child);
      ListingNamesAvoidIgnored(root, folderPath, dir, k - 1);
      EntryNamesAvoidIgnored(root, folderPath, child);
      AvoidsIgnoredUnion(ListingNames(root, folderPath, dir, k - 1), EntryNames(root, folderPath, child),
        Relative(root, folderPath));
    } else {
      assert ListingNames(root, folderPath, dir, k) == {};
    }
  }

  /**
   * When the URL's file path is a base directory, a '/', and the location,
   * every name found starts with the location and a '/'.
   */
  lemma ScanNamesUnderLocation(location: string, base: string, found: Option<FsEntry>)
    requires location != [] && '\\' !in base + "/" + location
    ensures var r := ScanNames(location, base + "/" + location, found);
      r.Ok? && forall n :: n in r.value ==> StartsWith(n, location + "/")
  {
    var filePath := base + "/" + location;
    var cut := filePath[..|filePath| - |location|];
    assert cut == base + "/";
    assert EndsWith(cut, "/");
    if found.Some? && found.value.Directory? && found.value.listable {
      var root := cut;
      ReplaceAbsent(filePath, '\\', '/');
      assert Relative(root, filePath) == location;
      ListingNamesUnder(root, filePath, found.value, |found.value.children|);
    }
  }
}
