/**
 * The collaborators the scanner talks to but does not implement: URLs, the
 * file system seen through java.io.File, class loading and the OSGi
 * framework. Each is a value or an oracle (a function fixed for one run).
 */
module Platform {
  import opened Wrappers

  /** A java.net.URL, reduced to the parts the scanner reads. */
  datatype Url = Url(protocol: string, host: string, path: string)

  /** A class returned by ClassLoader.loadClass. */
  datatype ClassHandle = ClassHandle(name: string)

  /** Why ClassLoader.loadClass failed. */
  datatype LoadFailure =
    | ClassNotFound      // ClassNotFoundException
    | NoClassDefFound    // NoClassDefFoundError
    | OtherThrowable     // any other Throwable, such as a LinkageError or ExceptionInInitializerError

  datatype LoadResult = Loaded(cls: ClassHandle) | LoadFailed(failure: LoadFailure)

  /** ClassLoader.loadClass. */
  type ClassLoading = string -> LoadResult

  /**
   * What java.io.File reports about one entry: its name within its parent
   * folder, whether it can be read and, for a directory, whether listFiles()
   * succeeds (it returns null on an I/O error) and the children it lists.
   */
  datatype FsEntry =
    | File(name: string, readable: bool)
    | Directory(name: string, readable: bool, listable: bool, children: seq<FsEntry>)

  /** File.listFiles(): null for anything that is not a directory or cannot be listed. */
  function ListFiles(e: FsEntry): (r: Option<seq<FsEntry>>)
    ensures r.Some? <==> e.Directory? && e.listable
    ensures r.Some? ==> r.value == e.children
  {
    if e.Directory? && e.listable then Some(e.children) else None
  }

  /** The path of a child, as java.io.File builds it from its parent's path. */
  function ChildPath(folderPath: string, name: string): string {
    folderPath + "/" + name
  }

  /** An OSGi bundle, known by its id. */
  datatype Bundle = Bundle(id: nat)

  /** BundleContext.getBundle(long): a bundle, null, or an exception. */
  datatype BundleLookup = Found(bundle: Bundle) | NotFound | LookupThrew

  /**
   * The OSGi framework as the OSGi scanner sees it: the bundle that holds the
   * scanner (FrameworkUtil.getBundle), bundle lookup by id, and
   * Bundle.findEntries(path, "*", true) (None when it returns null).
   */
  datatype OsgiFramework = OsgiFramework(
    current: Bundle,
    getBundle: nat -> BundleLookup,
    findEntries: (Bundle, string) -> Option<seq<Url>>)
}
