# avaje classpath-scanner, modelled in Dafny

This project models the discovery engine of avaje classpath-scanner, a Java
library. It finds resources and classes under a *location*. A location is a
descriptor such as `classpath:db/migration` or `filesystem:/opt/sql`. The model
covers these parts:

- **Location parsing** (`Locations`). The descriptor is trimmed, `\` becomes `/`,
  and a missing prefix defaults to `classpath:`. Classpath paths turn `.` into
  `/` and lose one leading `/`. Every path loses one trailing `/`. Unknown
  prefixes are errors. Equality, ordering and hashing all go through the
  descriptor.
- **Name predicates** (`FilterResource`). Three predicates over resource names:
  by prefix, by suffix, and by prefix plus suffix. The last one looks only at the
  part after the last `/`.
- **The classpath scanner** (`ClassPathScanning`). A class with three caches:
  location to URLs, protocol to location scanner, and scanner to a map from URL to
  names.
  - A scan fetches the location's URLs and resolves each one.
  - It picks a scanner by the resolved protocol and lists each URL through that
    scanner. Listings are cached.
  - It merges the names into a sorted, duplicate-free set and filters that set.
  - Class discovery turns `a/b/C.class` into `a.b.C` and loads it. A candidate
    whose class cannot be found, or has a missing dependency, is dropped.
  - Two ghost logs record every question to the class loader (`fetches`) and
    every listing of a URL by a scanner (`listings`). The class invariant says
    that no location is fetched again, and no URL is listed again by the same
    scanner, once an earlier attempt succeeded. A failed attempt caches
    nothing, so it is retried on the next scan.
  - A scan changes the caches and logs only for its own location and for
    the scanners and resolved URLs that location's URLs reach
    (`ScanTouchedOnly`). So it never prefetches or prelists for another
    location.
- **Directory walkers**, over a tree of file-system entries:
  - `FileSystemLocationScanner` computes the classpath root. It records names
    relative to that root and skips the library's own packages.
  - `FileSystemScanning` walks a plain path and records each file by its own
    path.
- **The OSGi location scanner** (`OsgiScanner`). It reads the bundle id from the
  URL host, falls back to the current bundle, and strips one leading `/` from each
  entry.
- **Classpath resources** (`ClassPathResources`). File-name derivation, identity
  by location, and the error when a resource has no stream.
- **Environment detection** (`EnvironmentDetections`). Three capability flags,
  each memoised per instance and probed by loading a marker class.

Java's `TreeSet<String>` is modelled as a strictly increasing `seq<string>`. The
order is Java's `String.compareTo`, and `Insert`/`AddAll` are its `add`/`addAll`.
`SortedUnique` shows that such a sequence is fixed by its elements. Exceptions
become `Err` values of `Result`.

Each external collaborator is a function-typed value, fixed for one run:

- the class loader (`getResources`, `loadClass`, resource streams, its class
  name);
- URL decoding;
- the JBoss VFS 2 URL conversion;
- the jar and JBoss VFS 3 listings;
- the file system as `java.io.File` reports it. `Platform.ListFiles` is `listFiles()`: the children of a
  listable directory, and null otherwise;
- the OSGi framework.

Points where the code's behaviour is easy to misread:

- Environment detection is memoised per instance, not once per process.
  `createUrlResolver` and `createLocationScanner` each build a new
  `EnvironmentDetection`, so the flags are probed again on every call
  (lines 205 and 239 of `internal/scanner/classpath/ClassPathScanner.java`).
- `scanForClasses` does not skip `module-info`. Every `.class` name is turned into
  a class name and loaded.
- The resource-name cache is keyed by scanner and resolved URL only. The
  location path used for the listing is not part of the key. So two locations
  whose URLs resolve to the same URL share one listing. The model records the
  path each cached listing was made for (`listedFor`). A scan's result is stated
  against the cache it starts from (`ScanSpec`). A cached name set is used as
  it is. A missing one is what the scanner lists for this location's path.
  `FirstScanListsPath` spells out the case where nothing is cached yet.
- Re-parsing a location's descriptor is not idempotent. For example,
  `"//a"` parses to `"/a"`, whose descriptor parses to `"a"`.

## Model

| member | source | states |
|---|---|---|
| Text.Trim | src/main/java/io/avaje/classpath/scanner/core/Location.java:50 | `String.trim`: the result is no longer than the input, starts and ends with a character above `' '`, and an input already without such edges is unchanged |
| Text.TrimIsStretch | src/main/java/io/avaje/classpath/scanner/core/Location.java:50 | `String.trim` keeps a contiguous stretch of the input and removes only characters at or below `' '`, all before or after that stretch |
| Text.Replace | src/main/java/io/avaje/classpath/scanner/core/Location.java:50 | `String.replace(char, char)`: same length, every `from` replaced by `to` and every other character kept |
| Text.AfterLastSlash | src/main/java/io/avaje/classpath/scanner/internal/scanner/classpath/ClassPathResource.java:55 | `substring(lastIndexOf('/') + 1)`: a suffix of the input without `/`, preceded by a `/` when shorter than the input |
| Text.LastSlashOfPath | src/main/java/io/avaje/classpath/scanner/FilterResource.java:47 | the last `/` of `dir + "/" + file` is the one after `dir` when `file` has none |
| Text.CompareToZero | src/main/java/io/avaje/classpath/scanner/core/Location.java:111 | `String.compareTo` is 0 exactly for equal strings |
| Text.CompareToAntisymmetric | src/main/java/io/avaje/classpath/scanner/core/Location.java:111 | swapping the operands of `String.compareTo` negates the result |
| Text.CompareToTransitive | src/main/java/io/avaje/classpath/scanner/core/Location.java:111 | `String.compareTo` orders strings transitively |
| SortedNames.Insert | src/main/java/io/avaje/classpath/scanner/internal/scanner/classpath/ClassPathScanner.java:132 | `TreeSet.add`: the sequence stays strictly sorted and gains exactly the new element |
| SortedNames.AddAll | src/main/java/io/avaje/classpath/scanner/internal/scanner/classpath/ClassPathScanner.java:152 | `TreeSet.addAll`: strictly sorted, holding the union of both collections |
| SortedNames.SortedUnique | src/main/java/io/avaje/classpath/scanner/internal/scanner/classpath/ClassPathScanner.java:132 | two strictly sorted sequences with the same elements are equal, so a name set fixes its iteration order |
| SortedNames.FilterResourceNames | src/main/java/io/avaje/classpath/scanner/internal/scanner/classpath/ClassPathScanner.java:261-269 | `filterResourceNames`: strictly sorted, holding exactly the names the predicate accepts |
| Locations.Parse | src/main/java/io/avaje/classpath/scanner/core/Location.java:49-73 | the constructor accepts a descriptor exactly when its trimmed, `\`-to-`/` form has no `:` or starts with `classpath:` or `filesystem:`; it is a classpath location exactly in the first two cases; a rejected one is the IllegalStateException naming the normalised descriptor; an accepted path has no `\`, and a classpath path has no `.` |
| Locations.ParseNormalized | src/main/java/io/avaje/classpath/scanner/core/Location.java:52-72 | fails exactly when the prefix is neither `classpath:` nor `filesystem:`, with that error; on success keeps the prefix, leaves no `\` in the path and no `.` in a classpath path |
| Locations.NormalizedAcceptsExactly | src/main/java/io/avaje/classpath/scanner/core/Location.java:52-68 | after normalisation, the prefix split succeeds exactly when there is no `:` or a known prefix leads, and yields a classpath location exactly without `:` or with `classpath:` |
| Locations.ParseClassPathPath | src/main/java/io/avaje/classpath/scanner/core/Location.java:55-72 | a descriptor without a prefix, or with `classpath:`, is a classpath location whose path has `.` turned into `/` and one leading and one trailing `/` dropped |
| Locations.ParseFileSystemPath | src/main/java/io/avaje/classpath/scanner/core/Location.java:52-72 | a `filesystem:` descriptor keeps its path apart from one trailing `/` |
| Locations.ParseWithoutColon | src/main/java/io/avaje/classpath/scanner/core/Location.java:55-58 | a descriptor without `:` defaults to the classpath prefix |
| Locations.ParseCleanDescriptor | src/main/java/io/avaje/classpath/scanner/core/Location.java:49-108 | parsing the descriptor of a location already in normal form gives back that location |
| Locations.ParseDescriptorRoundTrip | src/main/java/io/avaje/classpath/scanner/core/Location.java:49-108 | parsing a parsed location's descriptor gives the same location back when its path does not end in `/` or in a character at or below `' '` and, for a classpath location, does not start with `/` |
| Locations.NotIdempotentOnDoubleSlash | src/main/java/io/avaje/classpath/scanner/core/Location.java:62-64 | for every plain path p, `"//" + p` parses to `/p`, whose descriptor re-parses to `p`: re-parsing is not idempotent |
| Locations.ParseDoubleSlash | src/main/java/io/avaje/classpath/scanner/core/Location.java:60-64 | only one leading `/` is stripped from a classpath path |
| Locations.DescriptorDeterminesLocation | src/main/java/io/avaje/classpath/scanner/core/Location.java:115-121 | two parsed locations are `equals` exactly when they are the same location |
| Locations.CompareToConsistentWithEquals | src/main/java/io/avaje/classpath/scanner/core/Location.java:110-126 | `compareTo` is 0 exactly when `equals` holds, and is antisymmetric |
| Locations.ParseDefaultsToClassPath | src/test/java/io/avaje/classpath/scanner/other/LocationTest.java:12-18 | `db/migration` is the classpath location `classpath:db/migration` |
| Locations.ParseFileSystemAbsolute | src/test/java/io/avaje/classpath/scanner/other/LocationTest.java:39-45 | `filesystem:/db/migration` keeps its leading `/` |
| FilterResource.PrefixSuffixSeesOnlyFileName | src/main/java/io/avaje/classpath/scanner/FilterResource.java:45-49 | the prefix+suffix predicate tests only the part after the last `/`: `dir/file` is accepted exactly when `file` is |
| FilterResource.PrefixSuffixImpliesSuffix | src/main/java/io/avaje/classpath/scanner/FilterResource.java:45-63 | whatever the prefix+suffix predicate accepts, the suffix predicate accepts |
| FilterResource.EmptyPrefixSuffixAcceptsAll | src/main/java/io/avaje/classpath/scanner/FilterResource.java:48 | the predicate with empty prefix and suffix accepts every name |
| FilterResource.DirectoryPrefixIgnored | src/main/java/io/avaje/classpath/scanner/FilterResource.java:47-77 | a directory starting with the prefix does not make a name match prefix+suffix, although the prefix predicate accepts it |
| ClassPathResources.ClassPathResource.GetFilename | src/main/java/io/avaje/classpath/scanner/internal/scanner/classpath/ClassPathResource.java:54-56 | the part after the last `/`: a suffix of the location without `/`, or the whole location when it has no `/` |
| ClassPathResources.ClassPathResource.LoadAsString | src/main/java/io/avaje/classpath/scanner/internal/scanner/classpath/ClassPathResource.java:70-81 | no stream is the IllegalStateException naming the location; otherwise the stream's text or its I/O error |
| ClassPathResources.CompareToConsistentWithEquals | src/main/java/io/avaje/classpath/scanner/internal/scanner/classpath/ClassPathResource.java:85-100 | `compareTo` is 0 exactly when `equals` holds, is antisymmetric, and equal resources hash alike |
| ClassPathResources.CompareToTransitive | src/main/java/io/avaje/classpath/scanner/internal/scanner/classpath/ClassPathResource.java:98-100 | resources are ordered transitively |
| ClassPathResources.FilenameOfPath | src/main/java/io/avaje/classpath/scanner/internal/scanner/classpath/ClassPathResource.java:54-56 | the resource `dir/file` has file name `file` |
| EnvironmentDetections.EnvironmentDetection.constructor | src/main/java/io/avaje/classpath/scanner/internal/EnvironmentDetection.java:40-50 | a new instance has all three flags unknown and has probed nothing |
| EnvironmentDetections.EnvironmentDetection.IsJBossVFSv2 | src/main/java/io/avaje/classpath/scanner/internal/EnvironmentDetection.java:57-112 | answers whether `org.jboss.virtual.VFS` loads; probes only while the flag is unknown, then remembers it |
| EnvironmentDetections.EnvironmentDetection.IsJBossVFSv3 | src/main/java/io/avaje/classpath/scanner/internal/EnvironmentDetection.java:69-112 | the same for `org.jboss.vfs.VFS` |
| EnvironmentDetections.EnvironmentDetection.IsOsgi | src/main/java/io/avaje/classpath/scanner/internal/EnvironmentDetection.java:81-112 | the same for `org.osgi.framework.Bundle` |
| EnvironmentDetections.AskTwice | src/main/java/io/avaje/classpath/scanner/internal/EnvironmentDetection.java:69-74 | asking twice gives the same answer, the class-loader presence of `org.jboss.vfs.VFS`; the detector has probed that one class exactly once, remembers the answer, and leaves the VFS 2 and OSGi flags unknown |
| OsgiScanner.LeadingDigits | src/main/java/io/avaje/classpath/scanner/internal/scanner/classpath/OsgiClassPathLocationScanner.java:41-68 | the maximal run of decimal digits at the start of the host |
| OsgiScanner.BundleId | src/main/java/io/avaje/classpath/scanner/internal/scanner/classpath/OsgiClassPathLocationScanner.java:66-72 | fails, as the IllegalArgumentException, exactly when the host does not start with a digit |
| OsgiScanner.BundleIdOfHost | src/main/java/io/avaje/classpath/scanner/internal/scanner/classpath/OsgiClassPathLocationScanner.java:66-70 | a host made of the decimal form of an id, then a non-digit, yields that id |
| OsgiScanner.DigitsValueOfDecimalString | src/main/java/io/avaje/classpath/scanner/internal/scanner/classpath/OsgiClassPathLocationScanner.java:69 | reading back the decimal digits of n gives n |
| OsgiScanner.TargetBundleOrCurrent | src/main/java/io/avaje/classpath/scanner/internal/scanner/classpath/OsgiClassPathLocationScanner.java:57-64 | the bundle found for the host's id, or the current bundle when there is no id, no bundle, or the lookup throws |
| OsgiScanner.PathWithoutLeadingSlash | src/main/java/io/avaje/classpath/scanner/internal/scanner/classpath/OsgiClassPathLocationScanner.java:74-77 | exactly one leading `/` is removed; other paths are unchanged |
| OsgiScanner.FindResourceNames | src/main/java/io/avaje/classpath/scanner/internal/scanner/classpath/OsgiClassPathLocationScanner.java:43-55 | the sorted, duplicate-free set of stripped entry paths of the target bundle; empty when findEntries returns null |
| FileSystemLocationScanner.ClassPathRoot | src/main/java/io/avaje/classpath/scanner/internal/scanner/classpath/FileSystemClassPathLocationScanner.java:39-42 | the file path less its last `location.length()` characters, with a `/` appended when missing; an out-of-range cut is the StringIndexOutOfBoundsException |
| FileSystemLocationScanner.ToResourceNameOnClasspath | src/main/java/io/avaje/classpath/scanner/internal/scanner/classpath/FileSystemClassPathLocationScanner.java:88-94 | the absolute path with its first root-length characters dropped and every `\` in the rest turned into `/`, character by character: no `\` remains |
| FileSystemLocationScanner.FindResourceNamesFromFileSystem | src/main/java/io/avaje/classpath/scanner/internal/scanner/classpath/FileSystemClassPathLocationScanner.java:55-75 | strictly sorted, holding exactly the names of readable files, with subdirectories descended unless ignored |
| FileSystemLocationScanner.FindResourceNames | src/main/java/io/avaje/classpath/scanner/internal/scanner/classpath/FileSystemClassPathLocationScanner.java:33-45 | empty when the URL's path is not a directory, the root error when the location is longer than the path, otherwise the walk |
| FileSystemLocationScanner.EntryNamesUnder | src/main/java/io/avaje/classpath/scanner/internal/scanner/classpath/FileSystemClassPathLocationScanner.java:61-94 | every name recorded under a folder starts with the folder's root-relative path and `/` |
| FileSystemLocationScanner.ChildrenRecorded | src/main/java/io/avaje/classpath/scanner/internal/scanner/classpath/FileSystemClassPathLocationScanner.java:61-70 | a readable file is recorded by its root-relative name; a readable subdirectory contributes all its names unless ignored, and nothing if ignored |
| FileSystemLocationScanner.EntryNamesAvoidIgnored | src/main/java/io/avaje/classpath/scanner/internal/scanner/classpath/FileSystemClassPathLocationScanner.java:64-79 | each name lies directly in the scanned folder or in a directory whose root-relative path is not ignored |
| FileSystemLocationScanner.ScanNamesUnderLocation | src/test/java/io/avaje/classpath/scanner/internal/scanner/classpath/FileSystemLocationScannerMediumTest.java:40-48 | scanning `base/location` succeeds and every name starts with `location/` |
| FileSystemScanning.FindResourceNamesFromFileSystem | src/main/java/io/avaje/classpath/scanner/core/scanner/filesystem/FileSystemScanner.java:75-95 | strictly sorted, holding the paths of all readable files at any depth; a null listing contributes nothing |
| FileSystemScanning.FindResourceNames | src/main/java/io/avaje/classpath/scanner/core/scanner/filesystem/FileSystemScanner.java:63-108 | the walk's paths that the predicate accepts, sorted |
| FileSystemScanning.ScanForResources | src/main/java/io/avaje/classpath/scanner/core/scanner/filesystem/FileSystemScanner.java:42-57 | one resource per accepted path in sorted order; nothing when the location is not a readable directory |
| FileSystemScanning.EntryPathsUnder | src/main/java/io/avaje/classpath/scanner/core/scanner/filesystem/FileSystemScanner.java:83-91 | every recorded path starts with its folder's path and `/` |
| FileSystemScanning.ChildrenRecorded | src/main/java/io/avaje/classpath/scanner/core/scanner/filesystem/FileSystemScanner.java:83-91 | a readable file is recorded by its path and every readable subdirectory is walked, whatever its name |
| FileSystemScanning.ScanPathsFiltered | src/main/java/io/avaje/classpath/scanner/core/scanner/filesystem/FileSystemScanner.java:43-108 | a path is returned exactly when the walk finds it and the predicate accepts it, and it lies under the location |
| ClassPathScanning.DecodeAll | src/main/java/io/avaje/classpath/scanner/internal/scanner/classpath/ClassPathScanner.java:179-182 | succeeds exactly when every URL decodes, giving the decoded URLs in order |
| ClassPathScanning.DecodeAllFailedPrefix | src/main/java/io/avaje/classpath/scanner/internal/scanner/classpath/ClassPathScanner.java:179-182 | the first URL that fails to decode ends the lookup with its error |
| ClassPathScanning.UnionNamesExtend | src/main/java/io/avaje/classpath/scanner/internal/scanner/classpath/ClassPathScanner.java:147-152 | names already cached stay the same as the name cache grows |
| ClassPathScanning.InUnionNames | src/main/java/io/avaje/classpath/scanner/internal/scanner/classpath/ClassPathScanner.java:135-153 | a name is in a scan's union exactly when some URL of the location contributes it |
| ClassPathScanning.JoinNamesFailure | src/main/java/io/avaje/classpath/scanner/internal/scanner/classpath/ClassPathScanner.java:135-154 | the URL loop fails exactly when the step for some URL fails |
| ClassPathScanning.JoinNamesFirstFailure | src/main/java/io/avaje/classpath/scanner/internal/scanner/classpath/ClassPathScanner.java:135-154 | a failed URL loop fails with the error of the first URL whose step fails; every earlier URL's step succeeded |
| ClassPathScanning.JoinNamesMembers | src/main/java/io/avaje/classpath/scanner/internal/scanner/classpath/ClassPathScanner.java:135-154 | a successful URL loop holds a name exactly when the step for some URL yields it |
| ClassPathScanning.JoinNamesFailedPrefix | src/main/java/io/avaje/classpath/scanner/internal/scanner/classpath/ClassPathScanner.java:135-154 | once the first k URLs fail, the whole loop fails with the same error |
| ClassPathScanning.FirstScanListsPath | src/main/java/io/avaje/classpath/scanner/internal/scanner/classpath/ClassPathScanner.java:130-157 | with nothing cached, a successful scan has fetched the URLs, and a name is in it exactly when the predicate accepts it and, for some URL, the URL resolves, its protocol has a scanner, and that scanner's listing for the location's own path holds the name |
| ClassPathScanning.TargetsMembers | src/main/java/io/avaje/classpath/scanner/internal/scanner/classpath/ClassPathScanner.java:135-153 | a scanner and resolved URL are among those a list of URLs reaches exactly when some URL of the list resolves to that URL and its protocol picks that scanner |
| ClassPathScanning.TouchedOnlyTransitive | src/main/java/io/avaje/classpath/scanner/internal/scanner/classpath/ClassPathScanner.java:135-154 | two steps of the URL loop, each adding scanners, name entries and listings only for its own URLs, together add them only for the URLs of both |
| ClassPathScanning.ListedSinceSameSpec | src/main/java/io/avaje/classpath/scanner/internal/scanner/classpath/ClassPathScanner.java:142-153 | when the cache only grew, and every new entry was listed for this path, each URL's step gives the same result against the grown cache as against the old one |
| ClassPathScanning.CollectSpecSnoc | src/main/java/io/avaje/classpath/scanner/internal/scanner/classpath/ClassPathScanner.java:135-154 | one more URL for the loop: its failure is the loop's failure with that error; its success adds its names to the union so far |
| ClassPathScanning.ToClassName | src/main/java/io/avaje/classpath/scanner/internal/scanner/classpath/ClassPathScanner.java:121-124 | six characters shorter, no `/`, every `/` turned into `.` |
| ClassPathScanning.ClassNameOfResource | src/main/java/io/avaje/classpath/scanner/internal/scanner/classpath/ClassPathScanner.java:121-124 | the resource name of a class leads back to the class name |
| ClassPathScanning.LoadMatchingMeaning | src/main/java/io/avaje/classpath/scanner/internal/scanner/classpath/ClassPathScanner.java:94-108 | fails exactly when some candidate's loading throws something other than the two ignored errors; otherwise holds exactly the loaded classes the predicate accepts |
| ClassPathScanning.LoadMatchingInOrder | src/main/java/io/avaje/classpath/scanner/internal/scanner/classpath/ClassPathScanner.java:94-108 | on success the classes come from a strictly increasing list of candidate positions: each one loads to that class and is accepted, and every candidate that loads to an accepted class is on the list; so the classes follow name order, one per accepted candidate |
| ClassPathScanning.LoadMatchingFirstFatal | src/main/java/io/avaje/classpath/scanner/internal/scanner/classpath/ClassPathScanner.java:96-107 | on failure the error is the linkage failure naming the class of the first candidate whose loading throws something other than the two ignored errors |
| ClassPathScanning.LoadMatchingFailedPrefix | src/main/java/io/avaje/classpath/scanner/internal/scanner/classpath/ClassPathScanner.java:96-107 | the first fatal load ends the scan with its error |
| ClassPathScanning.NameCacheStore | src/main/java/io/avaje/classpath/scanner/internal/scanner/classpath/ClassPathScanner.java:149-150 | storing a fresh listing keeps every cached name set equal to its scanner's listing |
| ClassPathScanning.ClassPathScanner.constructor | src/main/java/io/avaje/classpath/scanner/internal/scanner/classpath/ClassPathScanner.java:46-70 | a new scanner has empty location, scanner and name caches, has fetched and listed nothing, has recorded no listing path, and satisfies the cache invariant |
| ClassPathScanning.ClassPathScanner.GetLocationUrlsForPath | src/main/java/io/avaje/classpath/scanner/internal/scanner/classpath/ClassPathScanner.java:166-196 | the loader's answer (the WebSphere loader asked by descriptor with each URL decoded, others by path); a cached location answers from the cache, changing nothing and asking the loader nothing; a miss asks the loader once, logs that one fetch, and caches the answer, even an empty one |
| ClassPathScanning.ClassPathScanner.LookUpUrls | src/main/java/io/avaje/classpath/scanner/internal/scanner/classpath/ClassPathScanner.java:171-192 | the loader's URLs for the location: by descriptor with each URL decoded under an IBM loader, failing at the first URL that does not decode; by path otherwise |
| ClassPathScanning.FetchLogAppend | src/main/java/io/avaje/classpath/scanner/internal/scanner/classpath/ClassPathScanner.java:166-194 | asking about an uncached location, and caching a successful answer, keeps the rule that no location is fetched again after a successful fetch |
| ClassPathScanning.ClassPathScanner.CreateUrlResolver | src/main/java/io/avaje/classpath/scanner/internal/scanner/classpath/ClassPathScanner.java:204-209 | the JBoss VFS 2 resolver only for a `vfs…` protocol with VFS 2 present, otherwise the default |
| ClassPathScanning.ClassPathScanner.CreateLocationScanner | src/main/java/io/avaje/classpath/scanner/internal/scanner/classpath/ClassPathScanner.java:217-256 | the scanner the dispatch picks; a new scanner is cached with an empty name map; an unsupported protocol caches nothing; the cache invariant is kept |
| ClassPathScanning.ClassPathScanner.Register | src/main/java/io/avaje/classpath/scanner/internal/scanner/classpath/ClassPathScanner.java:224-252 | a new scanner goes into the scanner cache under its protocol together with an empty name map; nothing already cached changes |
| ClassPathScanning.ScannerCacheRegister | src/main/java/io/avaje/classpath/scanner/internal/scanner/classpath/ClassPathScanner.java:224-225 | registering a scanner the dispatch picks, for an uncached protocol, keeps both cache invariants and only adds entries |
| ClassPathScanning.ClassPathScanner.ListResourceNames | src/main/java/io/avaje/classpath/scanner/internal/scanner/classpath/ClassPathScanner.java:149 | each scanner's listing, sorted, with its error passed on |
| ClassPathScanning.ClassPathScanner.NamesForUrl | src/main/java/io/avaje/classpath/scanner/internal/scanner/classpath/ClassPathScanner.java:138-153 | the URL's step against the cache the call starts from: the resolver's error, nothing for an unsupported protocol, the cached names on a hit, else the scanner's listing for the location's path with its error; every entry it caches was listed for that path; the only scanner it may add is for the resolved URL's protocol, and the only name entry it may add or list is the resolved URL under that scanner; a URL already covered changes no cache and lists nothing |
| ClassPathScanning.ClassPathScanner.NamesForResolved | src/main/java/io/avaje/classpath/scanner/internal/scanner/classpath/ClassPathScanner.java:142-153 | nothing for an unsupported protocol; otherwise the cached names on a hit, else the scanner's listing for the location's path, with its error; every entry it caches was listed for that path; the only scanner it may add is for the URL's protocol, and the only name entry it may add or list is this URL under that scanner; a URL already covered changes no cache and lists nothing |
| ClassPathScanning.ClassPathScanner.NamesFromScanner | src/main/java/io/avaje/classpath/scanner/internal/scanner/classpath/ClassPathScanner.java:146-152 | the branch where the protocol has a scanner, against the caches before that scanner was looked up or registered: the cached names on a hit, else the scanner's listing for the location's path, with its error; it adds only this scanner, for this URL's protocol, and only this URL's names under it, and it lists nothing else; a URL already covered changes no cache and lists nothing |
| ClassPathScanning.ClassPathScanner.CachedOrListed | src/main/java/io/avaje/classpath/scanner/internal/scanner/classpath/ClassPathScanner.java:147-152 | on a hit, the cached names, with nothing changed and nothing listed; on a miss, exactly one listing, logged, for the location's path, whose result or error is returned; the new name cache is the old one plus this URL's names under this scanner on success, and unchanged on failure; a successful listing is recorded as made for that path |
| ClassPathScanning.ClassPathScanner.StoreNames | src/main/java/io/avaje/classpath/scanner/internal/scanner/classpath/ClassPathScanner.java:150 | the fresh listing goes into its scanner's name map under the resolved URL, recorded as made for the location's path; nothing else in the cache changes |
| ClassPathScanning.ListingLogAppend | src/main/java/io/avaje/classpath/scanner/internal/scanner/classpath/ClassPathScanner.java:147-151 | listing a URL the scanner has no names for, and caching a successful listing, keeps the rule that no scanner lists a URL again after a successful listing |
| ClassPathScanning.ClassPathScanner.CollectUrl | src/main/java/io/avaje/classpath/scanner/internal/scanner/classpath/ClassPathScanner.java:136-152 | one pass of the URL loop: the next URL's step, against the cache the pass starts from, either fails and the loop so far fails with its error, or adds its names to the union so far, still sorted; the pass adds scanners, name entries and listings only for what this URL resolves to |
| ClassPathScanning.ClassPathScanner.CollectNames | src/main/java/io/avaje/classpath/scanner/internal/scanner/classpath/ClassPathScanner.java:132-154 | the URL loop against the cache it starts from: the error of the first URL whose step fails, or the sorted union of every URL's names; every entry it caches was listed for the location's path; caches only grow, and only with scanners, name entries and listings that the given URLs resolve to |
| ClassPathScanning.ClassPathScanner.FindResourceNames | src/main/java/io/avaje/classpath/scanner/internal/scanner/classpath/ClassPathScanner.java:130-157 | against the cache it starts from: the URL lookup's error, else the URL loop's error, else exactly the accepted names of the loop's union, sorted; every entry it caches was listed for the location's path; it fetches only this location, once and only when it is not cached, and caches only that answer; it adds scanners, name entries and listings only for what this location's URLs resolve to; rescanning a scanned location changes no cache, fetches no URLs and lists nothing |
| ClassPathScanning.ClassPathScanner.ScanForResources | src/main/java/io/avaje/classpath/scanner/internal/scanner/classpath/ClassPathScanner.java:73-84 | fails exactly when findResourceNames does, with its error; otherwise one resource on the scanner's class loader per accepted name, in name order; it changes the caches and logs only as findResourceNames does for this location |
| ClassPathScanning.ClassPathScanner.ScanForClasses | src/main/java/io/avaje/classpath/scanner/internal/scanner/classpath/ClassPathScanner.java:87-113 | fails with findResourceNames's error when that fails; otherwise the candidates are exactly the `.class` names it finds, in sorted order, and the result is LoadMatching over them; it changes the caches and logs only as findResourceNames does for this location |
| ClassPathScanning.ClassPathScanner.LoadClasses | src/main/java/io/avaje/classpath/scanner/internal/scanner/classpath/ClassPathScanner.java:94-108 | the class loop equals LoadMatching |
| ClassPathScanning.ScanTwice | src/main/java/io/avaje/classpath/scanner/internal/scanner/classpath/ClassPathScanner.java:147-169 | after a successful scan, a second scan of the same location returns the same names, and fetches and lists nothing; after a failed scan nothing is promised, since nothing was cached and the second scan tries again |

## Left out

- Logging, and all `LOG`/`log` calls.
- Concurrency. The caches are plain `HashMap`s and the model is single-threaded.
- Stream I/O. Reading a resource's text is an oracle (`ResourceStreams`). `FileCopyUtils`, `loadAsLines` and the file-system resource streams are not part of this model.
- `ClassLoader.getResources`, `loadClass`, `URLDecoder.decode` with `new URL`, and `UrlUtils.toFilePath` are oracles.
- `JarFileClassPathLocationScanner` and `JBossVFSv3ClassPathLocationScanner` are not part of this model. Their listings are oracles.
- `JBossVFSv2UrlResolver` is an oracle.
- `DefaultUrlResolver` is not part of this model. It is taken to return its URL unchanged.
- Android scanning and `EnvironmentDetection.isAndroid`, because they depend on platform APIs and system properties.
- `DScanner` and the scanner factories. Their only logic routes `filesystem:` locations to FileSystemScanner.
- OsgiScanner.BundleId: the id is the exact value of the digit run. The source parses it through `Double.valueOf(...).longValue()`, which loses precision for long ids. Floating point is not modelled.
- java.io.File path handling: the separator is `/`, a child's path is its parent's path, `/` and its name, and `getAbsolutePath` is that path. Normalisation of `File` paths, such as collapsing doubled separators, is not modelled.
- `FileSystemResource` is reduced to its path. Its streams and `fileName`/`location` accessors are not part of this model.
- Text.CompareTo: compares Unicode scalar values, one per character. Java compares UTF-16 code units, so the two orders differ for strings with characters above U+FFFF (Java puts U+10000, a surrogate pair, before U+FFFF). Characters outside the Basic Multilingual Plane are not modelled.
- Text.HashCode: hashes Unicode scalar values, one per character. Java hashes UTF-16 code units, so the hashes differ for characters above U+FFFF.
- `Location.hashCode` and `ClassPathResource.hashCode` are `String.hashCode` taken mod 2^32. Signed 32-bit reinterpretation is not modelled; only equality of hashes matters here.
- `URL.equals` is structural equality of protocol, host and path. Host-name resolution in `URL.equals` is not modelled.
- ClassPathScanning.ClassPathScanner.ScanForClasses: the `Class` objects are values named by their class name, and the class predicate is a function on them.
