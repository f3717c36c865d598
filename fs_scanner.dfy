/**
 * FileSystemScanner: the resources under a "filesystem:" location, found by
 * walking the directory tree. Unlike the classpath location scanner it keeps
 * each file's path as java.io.File reports it and descends into every
 * readable directory.
 */
module FileSystemScanning {
  import opened Wrappers
  import opened Text
  import opened SortedNames
  import opened Platform
  import opened Locations

  /** The paths recorded for one entry of the folder at `folderPath`. */
  function EntryPaths(folderPath: string, e: FsEntry): set<string>
    decreases e, 1, 0
  {
    if !e.readable then {}
    else
      var path := ChildPath(folderPath, e.name);
      if e.File? then {path} else FolderPaths(path, e)
  }

  /** The paths recorded for the first k children of a directory. */
  function ListingPaths(folderPath: string, dir: FsEntry, k: nat): set<string>
    requires dir.Directory? && k <= |dir.children|
    decreases dir, 0, k
  {
    if k == 0 then {}
    else ListingPaths(folderPath, dir, k - 1) + EntryPaths(folderPath, dir.children[k - 1])
  }

  /** The paths recorded for a folder: none when listFiles() returns null. */
  function FolderPaths(folderPath: string, folder: FsEntry): set<string>
    decreases folder, 0, if folder.Directory? then |folder.children| + 1 else 0
  {
    if ListFiles(folder).None? then {} else ListingPaths(folderPath, folder, |folder.children|)
  }

  /** findResourceNamesFromFileSystem: every readable file below the folder, by its path. */
  method FindResourceNamesFromFileSystem(scanRootLocation: string, folderPath: string, folder: FsEntry)
    returns (resourceNames: seq<string>)
    ensures StrictlySorted(resourceNames)
    ensures Elems(resourceNames) == FolderPaths(folderPath, folder)
    decreases folder
  {
    resourceNames := [];
    var files := ListFiles(folder);
    if files.Some? {
      var i := 0;
      while i < |files.value|
        invariant 0 <= i <= |files.value|
        invariant StrictlySorted(resourceNames)
        invariant Elems(resourceNames) == ListingPaths(folderPath, folder, i)
      {
        var file := files.value[i];
        if file.readable {
          var path := ChildPath(folderPath, file.name);
          if file.Directory? {
            var sub := FindResourceNamesFromFileSystem(scanRootLocation, path, file);
            resourceNames := AddAll(resourceNames, sub);
          } else {
            resourceNames := Insert(resourceNames, path);
          }
        }
        i := i + 1;
      }
    }
  }

  /** findResourceNames: the walk from `path`, then only the names the predicate accepts. */
  method FindResourceNames(path: string, dir: FsEntry, accept: string -> bool) returns (resourceNames: seq<string>)
    ensures StrictlySorted(resourceNames)
    ensures Elems(resourceNames) == set n | n in FolderPaths(path, dir) && accept(n)
  {
    var all := FindResourceNamesFromFileSystem(path, path, dir);
    resourceNames := FilterResourceNames(all, accept);
  }

  /** A resource on the file system, known by its path. */
  datatype FileSystemResource = FileSystemResource(location: string)

  function ResourceLocations(resources: seq<FileSystemResource>): seq<string> {
    MapToStrings(resources, (r: FileSystemResource) => r.location)
  }

  /** The paths scanForResources promises: none unless the location is a readable directory. */
  function ScanPaths(path: string, found: Option<FsEntry>, accept: string -> bool): set<string> {
    if found.None? || !found.value.Directory? || !found.value.readable then {}
    else set n | n in FolderPaths(path, found.value) && accept(n)
  }

  /**
   * scanForResources: one resource per accepted path, in the order of the
   * sorted name set; nothing when the location's path is not a readable
   * directory.
   */
  method ScanForResources(location: Location, accept: string -> bool, fileAt: string -> Option<FsEntry>)
    returns (resources: seq<FileSystemResource>)
    ensures StrictlySorted(ResourceLocations(resources))
    ensures Elems(ResourceLocations(resources)) == ScanPaths(location.path, fileAt(location.path), accept)
  {
    var path := location.path;
    var dir := fileAt(path);
    if dir.None? || !dir.value.Directory? || !dir.value.readable {
      return [];
    }
    var resourceNames := FindResourceNames(path, dir.value, accept);
    resources := [];
    var i := 0;
    while i < |resourceNames|
      invariant 0 <= i <= |resourceNames|
      invariant ResourceLocations(resources) == resourceNames[..i]
    {
      resources := resources + [FileSystemResource(resourceNames[i])];
      i := i + 1;
    }
    assert resourceNames[..i] == resourceNames;
  }

  /** Every path recorded under a folder lies below it: it starts with the folder's path and a '/'. */
  lemma {:induction false} EntryPathsUnder(folderPath: string, e: FsEntry)
    ensures forall n :: n in EntryPaths(folderPath, e) ==> StartsWith(n, folderPath + "/")
    decreases e, 1, 0
  {
    if e.readable {
      var path := ChildPath(folderPath, e.name);
      assert StartsWith(path, folderPath + "/") by {
        assert path[..|folderPath + "/"|] == folderPath + "/";
      }
      if e.Directory? && e.listable {
        ListingPathsUnder(path, e, |e.children|);
        assert StartsWith(path + "/", folderPath + "/") by {
          assert (path + "/")[..|folderPath + "/"|] == folderPath + "/";
        }
        assert EntryPaths(folderPath, e) == ListingPaths(path, e, |e.children|);
        forall n | n in EntryPaths(folderPath, e)
          ensures StartsWith(n, folderPath + "/")
        {
          StartsWithTransitive(n, path + "/", folderPath + "/");
        }
      }
    }
  }

  lemma {:induction false} ListingPathsUnder(folderPath: string, dir: FsEntry, k: nat)
    requires dir.Directory? && k <= |dir.children|
    ensures forall n :: n in ListingPaths(folderPath, dir, k) ==> StartsWith(n, folderPath + "/")
    decreases dir, 0, k
  {
    if k > 0 {
      ListingPathsUnder(folderPath, dir, k - 1);
      EntryPathsUnder(folderPath, dir.children[k - 1]);
    }
  }

  /** What one listed child contributes is part of what the first k children contribute. */
  lemma {:induction false} ListingPathsContain(folderPath: string, dir: FsEntry, k: nat, i: nat)
    requires dir.Directory? && i < k <= |dir.children|
    ensures EntryPaths(folderPath, dir.children[i]) <= ListingPaths(folderPath, dir, k)
  {
    if i < k - 1 {
      ListingPathsContain(folderPath, dir, k - 1, i);
    }
  }

  /**
   * A readable file in a listable folder is recorded by its path, and every
   * path under a readable subdirectory is recorded too: the walk skips no
   * directory, whatever its name.
   */
  lemma ChildrenRecorded(folderPath: string, folder: FsEntry, i: nat)
    requires folder.Directory? && folder.listable && i < |folder.children|
    requires folder.children[i].readable
    ensures var child := folder.children[i];
      child.File? ==> ChildPath(folderPath, child.name) in FolderPaths(folderPath, folder)
    ensures var child := folder.children[i];
      child.Directory? ==> FolderPaths(ChildPath(folderPath, child.name), child) <= FolderPaths(folderPath, folder)
  {
    ListingPathsContain(folderPath, folder, |folder.children|, i);
  }

  /** A rejected path is never returned, and an accepted path is returned exactly when the walk finds it. */
  lemma ScanPathsFiltered(path: string, dir: FsEntry, accept: string -> bool, n: string)
    requires dir.Directory? && dir.readable
    ensures n in ScanPaths(path, Some(dir), accept) <==> n in FolderPaths(path, dir) && accept(n)
    ensures n in ScanPaths(path, Some(dir), accept) ==> StartsWith(n, path + "/")
  {
    if dir.listable {
      ListingPathsUnder(path, dir, |dir.children|);
    }
  }
}
