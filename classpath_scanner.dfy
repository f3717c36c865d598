/**
 * ClassPathScanner: finds resources and classes under a classpath location.
 * It asks the class loader for the URLs behind the location, picks a location
 * scanner by URL protocol, and lists each URL once, keeping three caches:
 * location to URLs, protocol to scanner, and scanner to (URL to names).
 */
module ClassPathScanning {
  import opened Wrappers
  import opened Text
  import opened SortedNames
  import opened Platform
  import opened Locations
  import FilterResource
  import opened ClassPathResources
  import opened EnvironmentDetections
  import FileSystemLocationScanner
  import OsgiScanner

  /** The scanner kinds createLocationScanner can build. */
  datatype ScannerKind = FileSystemKind | JarFileKind | JBossVfsV3Kind | OsgiKind

  /**
   * A location scanner. The source builds one instance per protocol and
   * caches it, so the pair (kind, protocol) identifies the instance.
   */
  datatype LocationScanner = LocationScanner(kind: ScannerKind, protocol: string)

  /** The URL resolvers createUrlResolver can build. */
  datatype UrlResolver = DefaultResolver | JBossVfsV2Resolver

  /**
   * Everything the scanner consults but does not implement, each fixed for
   * one run: the class loader (class loading, its class name, getResources
   * and resource streams), URL decoding, the JBoss VFS 2 URL conversion, the
   * listing done by the jar and JBoss VFS 3 scanners, the file system as
   * java.io.File sees it, and the OSGi framework.
   */
  datatype Environment = Environment(
    loadClass: ClassLoading,
    loaderClassName: string,
    getResources: string -> Result<seq<Url>>,
    decodeUrl: Url -> Result<Url>,
    vfs2ToStandardUrl: Url -> Result<Url>,
    listJar: (string, Url) -> Result<seq<string>>,
    listVfs3: (string, Url) -> Result<seq<string>>,
    toFilePath: Url -> string,
    fileAt: string -> Option<FsEntry>,
    osgi: OsgiFramework,
    streams: ResourceStreams)

  /** Each URL decoded in turn; the first failure is the error. */
  function DecodeAll(decodeUrl: Url -> Result<Url>, urls: seq<Url>): (r: Result<seq<Url>>)
    ensures r.Ok? <==> forall i :: 0 <= i < |urls| ==> decodeUrl(urls[i]).Ok?
    ensures r.Ok? ==> |r.value| == |urls| && forall i :: 0 <= i < |urls| ==> r.value[i] == decodeUrl(urls[i]).value
  {
    if urls == [] then Ok([])
    else
      var init :- DecodeAll(decodeUrl, urls[..|urls| - 1]);
      var last :- decodeUrl(urls[|urls| - 1]);
      Ok(init + [last])
  }

  /** Once a prefix fails to decode, so does the whole list, with the same error. */
  lemma {:induction false} DecodeAllFailedPrefix(decodeUrl: Url -> Result<Url>, urls: seq<Url>, k: nat)
    requires k <= |urls| && DecodeAll(decodeUrl, urls[..k]).Err?
    ensures DecodeAll(decodeUrl, urls) == DecodeAll(decodeUrl, urls[..k])
  {
    if k < |urls| {
      assert urls[..|urls| - 1][..k] == urls[..k];
      DecodeAllFailedPrefix(decodeUrl, urls[..|urls| - 1], k);
    } else {
      assert urls[..k] == urls;
    }
  }

  /**
   * The URLs behind a location, as getLocationUrlsForPath asks for them: a
   * WebSphere class loader is asked with the whole descriptor and each answer
   * is URL-decoded, any other loader is asked with the path.
   */
  function FetchUrls(env: Environment, location: Location): Result<seq<Url>> {
    if StartsWith(env.loaderClassName, "com.ibm") then
      var urls :- env.getResources(location.ToString());
      DecodeAll(env.decodeUrl, urls)
    else
      env.getResources(location.path)
  }

  /** The resolver createUrlResolver picks: the JBoss VFS 2 one only for "vfs..." protocols when VFS 2 is present. */
  function ResolverFor(env: Environment, protocol: string): UrlResolver {
    if IsPresent(JBossVfsV2Class, env.loadClass) && StartsWith(protocol, "vfs") then JBossVfsV2Resolver
    else DefaultResolver
  }

  /** UrlResolver.toStandardJavaUrl; the default resolver keeps the URL. */
  function ToStandardJavaUrl(env: Environment, resolver: UrlResolver, url: Url): Result<Url> {
    match resolver
    case DefaultResolver => Ok(url)
    case JBossVfsV2Resolver => env.vfs2ToStandardUrl(url)
  }

  function ResolveUrl(env: Environment, url: Url): Result<Url> {
    ToStandardJavaUrl(env, ResolverFor(env, url.protocol), url)
  }

  /**
   * The protocol dispatch of createLocationScanner: fixed entries for "file"
   * and the archive protocols, and two entries that need a framework on the
   * class path.
   */
  function SelectScanner(env: Environment, protocol: string): Option<ScannerKind> {
    if protocol == "file" then Some(FileSystemKind)
    else if protocol == "jar" || protocol == "zip" || protocol == "wsjar" then Some(JarFileKind)
    else if IsPresent(JBossVfsV3Class, env.loadClass) && protocol == "vfs" then Some(JBossVfsV3Kind)
    else if IsPresent(OsgiClass, env.loadClass) && (protocol == "bundle" || protocol == "bundleresource") then Some(OsgiKind)
    else None
  }

  function ScannerFor(env: Environment, protocol: string): Option<LocationScanner> {
    match SelectScanner(env, protocol)
    case None => None
    case Some(kind) => Some(LocationScanner(kind, protocol))
  }

  /** What a scanner's findResourceNames yields for a location path and a resolved URL. */
  function ListingSpec(env: Environment, kind: ScannerKind, locationPath: string, url: Url): Result<set<string>> {
    match kind
    case FileSystemKind =>
      var filePath := env.toFilePath(url);
      FileSystemLocationScanner.ScanNames(locationPath, filePath, env.fileAt(filePath))
    case OsgiKind => Ok(OsgiScanner.EntryNames(OsgiScanner.EntriesFor(env.osgi, url)))
    case JarFileKind =>
      var names :- env.listJar(locationPath, url);
      Ok(Elems(names))
    case JBossVfsV3Kind =>
      var names :- env.listVfs3(locationPath, url);
      Ok(Elems(names))
  }

  type NameCache = map<LocationScanner, map<Url, seq<string>>>

  /** When the resolved URL's protocol has a scanner, that scanner has names for it. */
  ghost predicate ResolvedCovered(env: Environment, nameCache: NameCache, resolved: Url) {
    match ScannerFor(env, resolved.protocol)
    case None => true
    case Some(scanner) => scanner in nameCache && resolved in nameCache[scanner]
  }

  /** The names a covered resolved URL contributes: none for an unsupported protocol. */
  ghost function ResolvedNames(env: Environment, nameCache: NameCache, resolved: Url): set<string>
    requires ResolvedCovered(env, nameCache, resolved)
  {
    match ScannerFor(env, resolved.protocol)
    case None => {}
    case Some(scanner) => Elems(nameCache[scanner][resolved])
  }

  /** The URL resolves and its resolved form is covered. */
  ghost predicate UrlCovered(env: Environment, nameCache: NameCache, url: Url) {
    ResolveUrl(env, url).Ok? && ResolvedCovered(env, nameCache, ResolveUrl(env, url).value)
  }

  ghost function UrlNames(env: Environment, nameCache: NameCache, url: Url): set<string>
    requires UrlCovered(env, nameCache, url)
  {
    ResolvedNames(env, nameCache, ResolveUrl(env, url).value)
  }

  ghost predicate Covered(env: Environment, nameCache: NameCache, urls: seq<Url>) {
    forall i :: 0 <= i < |urls| ==> UrlCovered(env, nameCache, urls[i])
  }

  /** The union of the names of all the URLs. */
  ghost function UnionNames(env: Environment, nameCache: NameCache, urls: seq<Url>): set<string>
    requires Covered(env, nameCache, urls)
  {
    if urls == [] then {}
    else UnionNames(env, nameCache, urls[..|urls| - 1]) + UrlNames(env, nameCache, urls[|urls| - 1])
  }

  /** Every entry of m1 is in m2, unchanged. */
  ghost predicate MapExtends<K, V>(m1: map<K, V>, m2: map<K, V>) {
    forall k :: k in m1 ==> k in m2 && m2[k] == m1[k]
  }

  ghost predicate NameCacheExtends(c1: NameCache, c2: NameCache) {
    forall s :: s in c1 ==> s in c2 && MapExtends(c1[s], c2[s])
  }

  lemma MapExtendsTransitive<K, V>(m1: map<K, V>, m2: map<K, V>, m3: map<K, V>)
    requires MapExtends(m1, m2) && MapExtends(m2, m3)
    ensures MapExtends(m1, m3)
  {
  }

  lemma NameCacheExtendsTransitive(c1: NameCache, c2: NameCache, c3: NameCache)
    requires NameCacheExtends(c1, c2) && NameCacheExtends(c2, c3)
    ensures NameCacheExtends(c1, c3)
  {
    forall s | s in c1
      ensures s in c3 && MapExtends(c1[s], c3[s])
    {
      MapExtendsTransitive(c1[s], c2[s], c3[s]);
    }
  }

  /** Names already cached for a URL stay what they were as the cache grows. */
  lemma {:induction false} UnionNamesExtend(env: Environment, c1: NameCache, c2: NameCache, urls: seq<Url>)
    requires Covered(env, c1, urls) && NameCacheExtends(c1, c2)
    ensures Covered(env, c2, urls)
    ensures UnionNames(env, c2, urls) == UnionNames(env, c1, urls)
  {
    forall i | 0 <= i < |urls|
      ensures UrlCovered(env, c2, urls[i]) && UrlNames(env, c2, urls[i]) == UrlNames(env, c1, urls[i])
    {
      assert UrlCovered(env, c1, urls[i]);
    }
    if urls != [] {
      UnionNamesExtend(env, c1, c2, urls[..|urls| - 1]);
    }
  }

  /** The names of a URL list grown by one URL. */
  lemma UnionNamesAppend(env: Environment, c: NameCache, urls: seq<Url>, url: Url)
    requires Covered(env, c, urls) && UrlCovered(env, c, url)
    ensures Covered(env, c, urls + [url])
    ensures UnionNames(env, c, urls + [url]) == UnionNames(env, c, urls) + UrlNames(env, c, url)
  {
    assert (urls + [url])[..|urls|] == urls;
  }

  /** A name is in the union exactly when some URL of the list contributes it. */
  lemma {:induction false} InUnionNames(env: Environment, c: NameCache, urls: seq<Url>, n: string)
    requires Covered(env, c, urls)
    ensures n in UnionNames(env, c, urls) <==> exists i :: 0 <= i < |urls| && n in UrlNames(env, c, urls[i])
  {
    if urls != [] {
      var init := urls[..|urls| - 1];
      InUnionNames(env, c, init, n);
      if n in UnionNames(env, c, urls) && n !in UnionNames(env, c, init) {
        assert n in UrlNames(env, c, urls[|urls| - 1]);
      }
      if exists i :: 0 <= i < |urls| && n in UrlNames(env, c, urls[i]) {
        var i :| 0 <= i < |urls| && n in UrlNames(env, c, urls[i]);
        if i < |urls| - 1 {
          assert urls[i] == init[i];
        }
      }
    }
  }

  /** A name list as the name set it stands for, keeping its error. */
  function NameSet(r: Result<seq<string>>): Result<set<string>> {
    match r
    case Ok(names) => Ok(Elems(names))
    case Err(e) => Err(e)
  }

  /**
   * The cache step of findResourceNames against a name cache: the names
   * cached for the scanner and resolved URL, or else what the scanner lists
   * for the location path.
   */
  ghost function CachedOrListing(env: Environment, c: NameCache, path: string, s: LocationScanner, u: Url): Result<set<string>> {
    if s in c && u in c[s] then Ok(Elems(c[s][u])) else ListingSpec(env, s.kind, path, u)
  }

  /** One resolved URL: nothing for an unsupported protocol, else the cache step. */
  ghost function ResolvedSpec(env: Environment, c: NameCache, path: string, resolved: Url): Result<set<string>> {
    match ScannerFor(env, resolved.protocol)
    case None => Ok({})
    case Some(s) => CachedOrListing(env, c, path, s, resolved)
  }

  /** One URL of the location: its resolution fails, or the resolved URL's names. */
  ghost function UrlSpec(env: Environment, c: NameCache, path: string, url: Url): Result<set<string>> {
    var resolved :- ResolveUrl(env, url);
    ResolvedSpec(env, c, path, resolved)
  }

  /** The step of the URL loop of findResourceNames, as a function of the URL. */
  ghost function UrlStep(env: Environment, c: NameCache, path: string): Url -> Result<set<string>> {
    (url: Url) => UrlSpec(env, c, path, url)
  }

  /** Each URL's names joined in order: their union, or the error of the first URL that fails. */
  ghost function JoinNames(step: Url -> Result<set<string>>, urls: seq<Url>): Result<set<string>> {
    if urls == [] then Ok({})
    else
      var init :- JoinNames(step, urls[..|urls| - 1]);
      var last :- step(urls[|urls| - 1]);
      Ok(init + last)
  }

  /** The URL loop of findResourceNames against the name cache it starts from. */
  ghost function CollectSpec(env: Environment, c: NameCache, path: string, urls: seq<Url>): Result<set<string>> {
    JoinNames(UrlStep(env, c, path), urls)
  }

  /**
   * findResourceNames against the name cache it starts from: the loader's
   * URLs for the location, then the names of every URL that the predicate
   * accepts. A location with no URLs gives no names.
   */
  ghost function ScanSpec(env: Environment, c: NameCache, location: Location, accept: string -> bool): Result<set<string>> {
    var urls :- FetchUrls(env, location);
    var names :- CollectSpec(env, c, location.path, urls);
    Ok(set n | n in names && accept(n))
  }

  /** Once a prefix of the URLs fails, so does the whole join, with the same error. */
  lemma {:induction false} JoinNamesFailedPrefix(step: Url -> Result<set<string>>, urls: seq<Url>, k: nat)
    requires k <= |urls| && JoinNames(step, urls[..k]).Err?
    ensures JoinNames(step, urls) == JoinNames(step, urls[..k])
  {
    if k < |urls| {
      assert urls[..|urls| - 1][..k] == urls[..k];
      JoinNamesFailedPrefix(step, urls[..|urls| - 1], k);
    } else {
      assert urls[..k] == urls;
    }
  }

  /** URL k is the first of the list whose step fails. */
  ghost predicate FirstFailure(step: Url -> Result<set<string>>, urls: seq<Url>, k: int) {
    && 0 <= k < |urls|
    && step(urls[k]).Err?
    && forall j :: 0 <= j < k ==> step(urls[j]).Ok?
  }

  /** The join fails exactly when some URL's step fails. */
  lemma {:induction false} JoinNamesFailure(step: Url -> Result<set<string>>, urls: seq<Url>)
    ensures JoinNames(step, urls).Err? <==> exists i :: 0 <= i < |urls| && step(urls[i]).Err?
  {
    if urls != [] {
      var init := urls[..|urls| - 1];
      JoinNamesFailure(step, init);
      assert forall i :: 0 <= i < |init| ==> init[i] == urls[i];
    }
  }

  /** A failed join fails with the error of the first URL whose step fails. */
  lemma {:induction false} JoinNamesFirstFailure(step: Url -> Result<set<string>>, urls: seq<Url>)
    requires JoinNames(step, urls).Err?
    ensures exists k :: FirstFailure(step, urls, k) && JoinNames(step, urls) == Err(step(urls[k]).error)
  {
    var init := urls[..|urls| - 1];
    assert forall i :: 0 <= i < |init| ==> init[i] == urls[i];
    if JoinNames(step, init).Err? {
      JoinNamesFirstFailure(step, init);
      var k :| FirstFailure(step, init, k) && JoinNames(step, init) == Err(step(init[k]).error);
      assert FirstFailure(step, urls, k);
    } else {
      JoinNamesFailure(step, init);
      assert FirstFailure(step, urls, |urls| - 1);
    }
  }

  /** What a successful join finds: a name exactly when some URL's step contributes it. */
  lemma {:induction false} JoinNamesMembers(step: Url -> Result<set<string>>, urls: seq<Url>, n: string)
    requires JoinNames(step, urls).Ok?
    ensures n in JoinNames(step, urls).value <==> exists i :: 0 <= i < |urls| && step(urls[i]).Ok? && n in step(urls[i]).value
  {
    if urls != [] {
      var init := urls[..|urls| - 1];
      JoinNamesMembers(step, init, n);
      assert forall i :: 0 <= i < |init| ==> init[i] == urls[i];
    }
  }

  /**
   * A URL named by a scan over an empty name cache: it resolves, its
   * protocol has a scanner, and that scanner lists the name for the path.
   */
  ghost predicate ListedUnder(env: Environment, path: string, url: Url, n: string) {
    && ResolveUrl(env, url).Ok?
    && ScannerFor(env, ResolveUrl(env, url).value.protocol).Some?
    && var listing := ListingSpec(env, ScannerFor(env, ResolveUrl(env, url).value.protocol).value.kind, path, ResolveUrl(env, url).value);
       listing.Ok? && n in listing.value
  }

  /**
   * The first scan of a location, before anything is cached: the names are
   * exactly those the scanners list for the location's own path under the
   * location's resolved URLs, kept when the predicate accepts them.
   */
  lemma FirstScanListsPath(env: Environment, location: Location, accept: string -> bool, n: string)
    requires ScanSpec(env, map[], location, accept).Ok?
    ensures FetchUrls(env, location).Ok?
    ensures var urls := FetchUrls(env, location).value;
      n in ScanSpec(env, map[], location, accept).value <==>
        accept(n) && exists i :: 0 <= i < |urls| && ListedUnder(env, location.path, urls[i], n)
  {
    var urls := FetchUrls(env, location).value;
    var step := UrlStep(env, map[], location.path);
    JoinNamesMembers(step, urls, n);
    JoinNamesFailure(step, urls);
    forall i | 0 <= i < |urls|
      ensures step(urls[i]).Ok? && (n in step(urls[i]).value <==> ListedUnder(env, location.path, urls[i], n))
    {
      assert step(urls[i]) == UrlSpec(env, map[], location.path, urls[i]);
    }
  }

  /** Every name set cached in c2 but not in c1 is what its scanner lists for the path. */
  ghost predicate ListedSince(env: Environment, c1: NameCache, c2: NameCache, path: string) {
    forall s, u {:trigger c2[s][u]} ::
      s in c2 && u in c2[s] && !(s in c1 && u in c1[s]) ==> ListingSpec(env, s.kind, path, u) == Ok(Elems(c2[s][u]))
  }

  /** Names cached during a scan were listed for the same path, so they give what a fresh listing would. */
  lemma ListedSinceSameSpec(env: Environment, c1: NameCache, c2: NameCache, path: string, url: Url)
    requires NameCacheExtends(c1, c2) && ListedSince(env, c1, c2, path)
    ensures UrlSpec(env, c2, path, url) == UrlSpec(env, c1, path, url)
  {
    var resolved := ResolveUrl(env, url);
    if resolved.Ok? {
      match ScannerFor(env, resolved.value.protocol)
      case None =>
      case Some(s) =>
        var u := resolved.value;
        if s in c1 && u in c1[s] {
          assert MapExtends(c1[s], c2[s]);
        }
    }
  }

  /**
   * One more URL for the URL loop: its step against a cache grown since the
   * loop started, where every new entry was listed for the same path, is
   * its step against the starting cache.
   */
  lemma CollectSpecSnoc(env: Environment, start: NameCache, before: NameCache, path: string, done: seq<Url>, url: Url,
                        names: set<string>, step: Result<set<string>>)
    requires CollectSpec(env, start, path, done) == Ok(names)
    requires NameCacheExtends(start, before) && ListedSince(env, start, before, path)
    requires step == UrlSpec(env, before, path, url)
    ensures step.Err? ==> CollectSpec(env, start, path, done + [url]) == Err(step.error)
    ensures step.Ok? ==> CollectSpec(env, start, path, done + [url]) == Ok(names + step.value)
  {
    ListedSinceSameSpec(env, start, before, path, url);
    assert (done + [url])[..|done|] == done;
  }

  /** Registering a scanner with an empty name map changes no cache step and caches no names. */
  lemma RegisteredSameSpec(env: Environment, c1: NameCache, c2: NameCache, path: string, s: LocationScanner, u: Url)
    requires c2 == c1 || (s !in c1 && c2 == c1[s := map[]])
    ensures CachedOrListing(env, c2, path, s, u) == CachedOrListing(env, c1, path, s, u)
    ensures ListedSince(env, c1, c2, path)
  {
  }

  lemma ListedSinceTransitive(env: Environment, c1: NameCache, c2: NameCache, c3: NameCache, path: string)
    requires ListedSince(env, c1, c2, path) && ListedSince(env, c2, c3, path)
    requires NameCacheExtends(c1, c2) && NameCacheExtends(c2, c3)
    ensures ListedSince(env, c1, c3, path)
  {
    forall s, u | s in c3 && u in c3[s] && !(s in c1 && u in c1[s])
      ensures ListingSpec(env, s.kind, path, u) == Ok(Elems(c3[s][u]))
    {
      if s in c2 && u in c2[s] {
        assert MapExtends(c2[s], c3[s]);
        assert c2[s][u] == c3[s][u];
      }
    }
  }

  /** The scanner and resolved URL a resolved URL reaches: none when its protocol has no scanner. */
  ghost function ResolvedTargets(env: Environment, resolved: Url): set<(LocationScanner, Url)> {
    match ScannerFor(env, resolved.protocol)
    case None => {}
    case Some(s) => {(s, resolved)}
  }

  /** The scanner and resolved URL a URL of a location reaches: none when it does not resolve. */
  ghost function UrlTargets(env: Environment, url: Url): set<(LocationScanner, Url)> {
    match ResolveUrl(env, url)
    case Err(_) => {}
    case Ok(resolved) => ResolvedTargets(env, resolved)
  }

  /** What the URL loop of findResourceNames can reach over these URLs. */
  ghost function Targets(env: Environment, urls: seq<Url>): set<(LocationScanner, Url)> {
    if urls == [] then {} else Targets(env, urls[..|urls| - 1]) + UrlTargets(env, urls[|urls| - 1])
  }

  /** What a scan of the location can reach: nothing when its URLs cannot be fetched. */
  ghost function ScanTargets(env: Environment, location: Location): set<(LocationScanner, Url)> {
    match FetchUrls(env, location)
    case Err(_) => {}
    case Ok(urls) => Targets(env, urls)
  }

  ghost function ProtocolsOf(targets: set<(LocationScanner, Url)>): set<string> {
    set t | t in targets :: t.1.protocol
  }

  /** Protocol p is cached in scanners2 but not in scanners1. */
  ghost predicate NewProtocol(scanners1: map<string, LocationScanner>, scanners2: map<string, LocationScanner>, p: string) {
    p in scanners2 && p !in scanners1
  }

  /** Scanner s has names for URL u in names2 but not in names1. */
  ghost predicate NewEntry(names1: NameCache, names2: NameCache, s: LocationScanner, u: Url) {
    s in names2 && u in names2[s] && !(s in names1 && u in names1[s])
  }

  /** Entry k of log2 is past the end of log1. */
  ghost predicate NewListing(log1: seq<Listing>, log2: seq<Listing>, k: int) {
    |log1| <= k < |log2|
  }

  /**
   * From the first state to the second, the scanner cache gains only
   * protocols of the targets' URLs, the name cache gains only entries for
   * targets, and the listing log only grows, by listings of targets.
   */
  ghost predicate TouchedOnly(targets: set<(LocationScanner, Url)>,
                              scanners1: map<string, LocationScanner>, scanners2: map<string, LocationScanner>,
                              names1: NameCache, names2: NameCache, log1: seq<Listing>, log2: seq<Listing>)
  {
    && (forall p {:trigger NewProtocol(scanners1, scanners2, p)} ::
          NewProtocol(scanners1, scanners2, p) ==> p in ProtocolsOf(targets))
    && (forall s, u {:trigger NewEntry(names1, names2, s, u)} ::
          NewEntry(names1, names2, s, u) ==> (s, u) in targets)
    && |log1| <= |log2| && log2[..|log1|] == log1
    && (forall k {:trigger NewListing(log1, log2, k)} ::
          NewListing(log1, log2, k) ==> (log2[k].scanner, log2[k].url) in targets)
  }

  /** Looking up or registering the scanner for a URL's protocol is confined to that scanner and URL. */
  lemma RegisterTouchesOnly(s1: map<string, LocationScanner>, s2: map<string, LocationScanner>, n1: NameCache, n2: NameCache,
                            log: seq<Listing>, scanner: LocationScanner, u: Url)
    requires (s2 == s1 && n2 == n1) || (s2 == s1[u.protocol := scanner] && n2 == n1[scanner := map[]])
    ensures TouchedOnly({(scanner, u)}, s1, s2, n1, n2, log, log)
  {
    assert (scanner, u) in {(scanner, u)};
  }

  /** A step that changes nothing is confined to any targets. */
  lemma TouchedNothing(targets: set<(LocationScanner, Url)>, scanners: map<string, LocationScanner>, names: NameCache, log: seq<Listing>)
    ensures TouchedOnly(targets, scanners, scanners, names, names, log, log)
  {
    assert log[..|log|] == log;
  }

  /** Listing a URL with a scanner, and caching the names on success, is confined to that scanner and URL. */
  lemma ListingTouchesOnly(scanners: map<string, LocationScanner>, n1: NameCache, n2: NameCache, log: seq<Listing>,
                           s: LocationScanner, u: Url, names: seq<string>, succeeded: bool)
    requires s in n1
    requires n2 == if succeeded then n1[s := n1[s][u := names]] else n1
    ensures TouchedOnly({(s, u)}, scanners, scanners, n1, n2, log, log + [Listing(s, u, succeeded)])
  {
    var log2 := log + [Listing(s, u, succeeded)];
    assert log2[..|log|] == log;
    forall k | NewListing(log, log2, k) ensures (log2[k].scanner, log2[k].url) in {(s, u)} {
      assert k == |log|;
    }
  }

  /** Two steps, each confined to its targets, are together confined to the union of both. */
  lemma TouchedOnlyTransitive(t1: set<(LocationScanner, Url)>, t2: set<(LocationScanner, Url)>,
                              s1: map<string, LocationScanner>, s2: map<string, LocationScanner>, s3: map<string, LocationScanner>,
                              n1: NameCache, n2: NameCache, n3: NameCache, l1: seq<Listing>, l2: seq<Listing>, l3: seq<Listing>)
    requires TouchedOnly(t1, s1, s2, n1, n2, l1, l2) && TouchedOnly(t2, s2, s3, n2, n3, l2, l3)
    ensures TouchedOnly(t1 + t2, s1, s3, n1, n3, l1, l3)
  {
    forall p | NewProtocol(s1, s3, p) ensures p in ProtocolsOf(t1 + t2) {
      if NewProtocol(s1, s2, p) {
        var t :| t in t1 && t.1.protocol == p;
        assert t in t1 + t2;
      } else {
        assert NewProtocol(s2, s3, p);
        var t :| t in t2 && t.1.protocol == p;
        assert t in t1 + t2;
      }
    }
    forall s, u | NewEntry(n1, n3, s, u) ensures (s, u) in t1 + t2 {
      assert NewEntry(n1, n2, s, u) || NewEntry(n2, n3, s, u);
    }
    assert l3[..|l1|] == l2[..|l1|];
    forall k | NewListing(l1, l3, k) ensures (l3[k].scanner, l3[k].url) in t1 + t2 {
      if k < |l2| {
        assert NewListing(l1, l2, k) && l3[k] == l2[k];
      } else {
        assert NewListing(l2, l3, k);
      }
    }
  }

  /** Confinement to some targets is confinement to any larger set of targets. */
  lemma TouchedOnlyWiden(t1: set<(LocationScanner, Url)>, t2: set<(LocationScanner, Url)>,
                         s1: map<string, LocationScanner>, s2: map<string, LocationScanner>,
                         n1: NameCache, n2: NameCache, l1: seq<Listing>, l2: seq<Listing>)
    requires TouchedOnly(t1, s1, s2, n1, n2, l1, l2) && t1 <= t2
    ensures TouchedOnly(t2, s1, s2, n1, n2, l1, l2)
  {
    forall p | NewProtocol(s1, s2, p) ensures p in ProtocolsOf(t2) {
      var t :| t in t1 && t.1.protocol == p;
    }
  }

  /** One more URL reaches what the URLs before it reach and what it reaches itself. */
  lemma TargetsSnoc(env: Environment, done: seq<Url>, url: Url)
    ensures Targets(env, done + [url]) == Targets(env, done) + UrlTargets(env, url)
  {
    assert (done + [url])[..|done|] == done;
  }

  /** A scanner and resolved URL are reached exactly when some URL resolves to it and its protocol picks that scanner. */
  lemma {:induction false} TargetsMembers(env: Environment, urls: seq<Url>, s: LocationScanner, u: Url)
    ensures (s, u) in Targets(env, urls) <==>
      exists i :: 0 <= i < |urls| && ResolveUrl(env, urls[i]) == Ok(u) && ScannerFor(env, u.protocol) == Some(s)
  {
    if urls != [] {
      var init := urls[..|urls| - 1];
      TargetsMembers(env, init, s, u);
      assert forall i :: 0 <= i < |init| ==> init[i] == urls[i];
    }
  }

  /** A prefix of the URLs reaches no more than all of them. */
  lemma {:induction false} TargetsPrefix(env: Environment, urls: seq<Url>, k: nat)
    requires k <= |urls|
    ensures Targets(env, urls[..k]) <= Targets(env, urls)
  {
    if k < |urls| {
      assert urls[..|urls| - 1][..k] == urls[..k];
      TargetsPrefix(env, urls[..|urls| - 1], k);
    } else {
      assert urls[..k] == urls;
    }
  }

  /** toClassName: '/' becomes '.', and the ".class" suffix is cut off. */
  function ToClassName(resourceName: string): (className: string)
    requires |resourceName| >= |".class"|
    ensures |className| == |resourceName| - |".class"|
    ensures '/' !in className
    ensures forall i :: 0 <= i < |className| ==>
      className[i] == (if resourceName[i] == '/' then '.' else resourceName[i])
  {
    var nameWithDots := Replace(resourceName, '/', '.');
    nameWithDots[..|nameWithDots| - |".class"|]
  }

  /** The resource of a class without '/' in its name leads back to that class name. */
  lemma ClassNameOfResource(className: string)
    requires '/' !in className
    ensures ToClassName(Replace(className, '.', '/') + ".class") == className
  {
    var resourceName := Replace(className, '.', '/') + ".class";
    var r := ToClassName(resourceName);
    forall i | 0 <= i < |className|
      ensures r[i] == className[i]
    {
      assert resourceName[i] == Replace(className, '.', '/')[i];
    }
  }

  /** A class name whose resource failed to load with anything but the two ignored errors. */
  predicate FatalLoad(loadClass: ClassLoading, resourceName: string)
    requires |resourceName| >= |".class"|
  {
    loadClass(ToClassName(resourceName)) == LoadFailed(OtherThrowable)
  }

  /** The name test scanForClasses scans with: FilterResource.bySuffix(".class"). */
  predicate IsClassResource(n: string) {
    FilterResource.Test(FilterResource.BySuffix(".class"), n)
  }

  /**
   * The class loop of scanForClasses over candidate names in order: a class
   * that loads and passes the predicate is kept, ClassNotFoundException and
   * NoClassDefFoundError drop the candidate, and any other failure ends the
   * scan.
   */
  function LoadMatching(loadClass: ClassLoading, accept: ClassHandle -> bool, names: seq<string>): Result<seq<ClassHandle>>
    requires forall i :: 0 <= i < |names| ==> |names[i]| >= |".class"|
  {
    if names == [] then Ok([])
    else
      var init := names[..|names| - 1];
      var last := names[|names| - 1];
      match LoadMatching(loadClass, accept, init)
      case Err(e) => Err(e)
      case Ok(classes) =>
        var className := ToClassName(last);
        match loadClass(className)
        case Loaded(c) => if accept(c) then Ok(classes + [c]) else Ok(classes)
        case LoadFailed(OtherThrowable) => Err(ClassLinkageFailure(className))
        case LoadFailed(_) => Ok(classes)
  }

  /**
   * What the class loop promises: it fails exactly when some candidate fails
   * with anything but the two ignored errors, and otherwise returns exactly
   * the loaded classes the predicate accepts.
   */
  lemma {:induction false} LoadMatchingMeaning(loadClass: ClassLoading, accept: ClassHandle -> bool, names: seq<string>)
    requires forall i :: 0 <= i < |names| ==> |names[i]| >= |".class"|
    ensures LoadMatching(loadClass, accept, names).Err? <==>
      exists i :: 0 <= i < |names| && FatalLoad(loadClass, names[i])
    ensures LoadMatching(loadClass, accept, names).Err? ==>
      LoadMatching(loadClass, accept, names).error.ClassLinkageFailure?
    ensures LoadMatching(loadClass, accept, names).Ok? ==>
      forall c :: c in LoadMatching(loadClass, accept, names).value ==>
        (accept(c) && exists i :: 0 <= i < |names| && loadClass(ToClassName(names[i])) == Loaded(c))
    ensures LoadMatching(loadClass, accept, names).Ok? ==>
      forall i :: 0 <= i < |names| ==>
        (loadClass(ToClassName(names[i])).Loaded? && accept(loadClass(ToClassName(names[i])).cls) ==>
          loadClass(ToClassName(names[i])).cls in LoadMatching(loadClass, accept, names).value)
  {
    if names != [] {
      var init := names[..|names| - 1];
      LoadMatchingMeaning(loadClass, accept, init);
      assert forall i :: 0 <= i < |init| ==> init[i] == names[i];
    }
  }

  /** The candidate loads to a class the predicate accepts. */
  ghost predicate Accepted(loadClass: ClassLoading, accept: ClassHandle -> bool, name: string)
    requires |name| >= |".class"|
  {
    loadClass(ToClassName(name)).Loaded? && accept(loadClass(ToClassName(name)).cls)
  }

  /**
   * idx lists, in increasing order, exactly the candidates that load to an
   * accepted class, and classes holds those classes in the same order.
   */
  ghost predicate PicksAccepted(loadClass: ClassLoading, accept: ClassHandle -> bool, names: seq<string>,
                                idx: seq<int>, classes: seq<ClassHandle>)
    requires forall i :: 0 <= i < |names| ==> |names[i]| >= |".class"|
  {
    && |idx| == |classes|
    && (forall k :: 0 <= k < |idx| ==>
          0 <= idx[k] < |names| && loadClass(ToClassName(names[idx[k]])) == Loaded(classes[k]) && accept(classes[k]))
    && (forall k, l :: 0 <= k < l < |idx| ==> idx[k] < idx[l])
    && (forall i :: 0 <= i < |names| && Accepted(loadClass, accept, names[i]) ==> i in idx)
  }

  /** Candidate k is the first whose loading fails with anything but the two ignored errors. */
  ghost predicate FirstFatal(loadClass: ClassLoading, names: seq<string>, k: int)
    requires forall i :: 0 <= i < |names| ==> |names[i]| >= |".class"|
  {
    && 0 <= k < |names|
    && FatalLoad(loadClass, names[k])
    && forall j :: 0 <= j < k ==> !FatalLoad(loadClass, names[j])
  }

  /** Extending the candidates by one keeps the picked classes, plus the new one when it is accepted. */
  lemma PicksAcceptedSnoc(loadClass: ClassLoading, accept: ClassHandle -> bool, names: seq<string>,
                          idx: seq<int>, classes: seq<ClassHandle>)
    requires forall i :: 0 <= i < |names| ==> |names[i]| >= |".class"|
    requires names != [] && PicksAccepted(loadClass, accept, names[..|names| - 1], idx, classes)
    ensures Accepted(loadClass, accept, names[|names| - 1]) ==>
      PicksAccepted(loadClass, accept, names, idx + [|names| - 1], classes + [loadClass(ToClassName(names[|names| - 1])).cls])
    ensures !Accepted(loadClass, accept, names[|names| - 1]) ==> PicksAccepted(loadClass, accept, names, idx, classes)
  {
    assert forall i :: 0 <= i < |names| - 1 ==> names[..|names| - 1][i] == names[i];
  }

  /** A fatal last candidate after candidates none of which is fatal is the first fatal one. */
  lemma FirstFatalSnoc(loadClass: ClassLoading, names: seq<string>, init: seq<string>)
    requires forall i :: 0 <= i < |names| ==> |names[i]| >= |".class"|
    requires names != [] && init == names[..|names| - 1] && FatalLoad(loadClass, names[|names| - 1])
    requires forall i :: 0 <= i < |init| ==> !FatalLoad(loadClass, init[i])
    ensures FirstFatal(loadClass, names, |names| - 1)
  {
    assert forall i :: 0 <= i < |init| ==> init[i] == names[i];
  }

  /** A first fatal candidate stays the first one when a candidate is added after it. */
  lemma FirstFatalExtend(loadClass: ClassLoading, names: seq<string>, k: int)
    requires forall i :: 0 <= i < |names| ==> |names[i]| >= |".class"|
    requires names != [] && FirstFatal(loadClass, names[..|names| - 1], k)
    ensures FirstFatal(loadClass, names, k) && names[k] == names[..|names| - 1][k]
  {
    assert forall i :: 0 <= i < |names| - 1 ==> names[..|names| - 1][i] == names[i];
  }

  /**
   * The class loop keeps candidate order: on success the classes are those
   * of the accepted candidates, one each, in name order.
   */
  lemma {:induction false} LoadMatchingInOrder(loadClass: ClassLoading, accept: ClassHandle -> bool, names: seq<string>)
    requires forall i :: 0 <= i < |names| ==> |names[i]| >= |".class"|
    requires LoadMatching(loadClass, accept, names).Ok?
    ensures exists idx :: PicksAccepted(loadClass, accept, names, idx, LoadMatching(loadClass, accept, names).value)
  {
    if names == [] {
      assert PicksAccepted(loadClass, accept, names, [], []);
    } else {
      var init := names[..|names| - 1];
      LoadMatchingInOrder(loadClass, accept, init);
      var classes := LoadMatching(loadClass, accept, init).value;
      var idx :| PicksAccepted(loadClass, accept, init, idx, classes);
      PicksAcceptedSnoc(loadClass, accept, names, idx, classes);
    }
  }

  /** On failure the class loop's error names the class of the first fatal candidate. */
  lemma {:induction false} LoadMatchingFirstFatal(loadClass: ClassLoading, accept: ClassHandle -> bool, names: seq<string>)
    requires forall i :: 0 <= i < |names| ==> |names[i]| >= |".class"|
    requires LoadMatching(loadClass, accept, names).Err?
    ensures exists k ::
      FirstFatal(loadClass, names, k) && LoadMatching(loadClass, accept, names).error == ClassLinkageFailure(ToClassName(names[k]))
  {
    var init := names[..|names| - 1];
    if LoadMatching(loadClass, accept, init).Err? {
      LoadMatchingFirstFatal(loadClass, accept, init);
      var k :| FirstFatal(loadClass, init, k) &&
        LoadMatching(loadClass, accept, init).error == ClassLinkageFailure(ToClassName(init[k]));
      FirstFatalExtend(loadClass, names, k);
    } else {
      LoadMatchingMeaning(loadClass, accept, init);
      FirstFatalSnoc(loadClass, names, init);
    }
  }

  /** One more candidate: the loop body of scanForClasses. */
  lemma LoadMatchingSnoc(loadClass: ClassLoading, accept: ClassHandle -> bool, names: seq<string>, name: string)
    requires forall i :: 0 <= i < |names| ==> |names[i]| >= |".class"|
    requires |name| >= |".class"|
    ensures var all := names + [name];
      (forall i :: 0 <= i < |all| ==> |all[i]| >= |".class"|) &&
      LoadMatching(loadClass, accept, all) ==
        match LoadMatching(loadClass, accept, names)
        case Err(e) => Err(e)
        case Ok(classes) =>
          match loadClass(ToClassName(name))
          case Loaded(c) => if accept(c) then Ok(classes + [c]) else Ok(classes)
          case LoadFailed(OtherThrowable) => Err(ClassLinkageFailure(ToClassName(name)))
          case LoadFailed(_) => Ok(classes)
  {
    assert (names + [name])[..|names|] == names;
  }

  /** Once a prefix of the candidates fails, the whole scan fails with the same error. */
  lemma {:induction false} LoadMatchingFailedPrefix(loadClass: ClassLoading, accept: ClassHandle -> bool, names: seq<string>, k: nat)
    requires forall i :: 0 <= i < |names| ==> |names[i]| >= |".class"|
    requires k <= |names| && LoadMatching(loadClass, accept, names[..k]).Err?
    ensures LoadMatching(loadClass, accept, names) == LoadMatching(loadClass, accept, names[..k])
  {
    if k < |names| {
      assert names[..|names| - 1][..k] == names[..k];
      LoadMatchingFailedPrefix(loadClass, accept, names[..|names| - 1], k);
    } else {
      assert names[..k] == names;
    }
  }

  function ResourceLocations(resources: seq<ClassPathResource>): seq<string> {
    MapToStrings(resources, (r: ClassPathResource) => r.GetLocation())
  }

  ghost predicate ScannerCacheValid(env: Environment, scannerCache: map<string, LocationScanner>, nameCache: NameCache) {
    && (forall p :: p in scannerCache ==> ScannerFor(env, p) == Some(scannerCache[p]))
    && (forall p :: p in scannerCache ==> scannerCache[p] in nameCache)
    && (forall s :: s in nameCache ==> s.protocol in scannerCache && scannerCache[s.protocol] == s)
  }

  ghost predicate UrlCacheValid(env: Environment, urlCache: map<Location, seq<Url>>) {
    forall loc {:trigger FetchUrls(env, loc)} :: loc in urlCache ==> FetchUrls(env, loc) == Ok(urlCache[loc])
  }

  /** A cached name set is sorted and is what its scanner lists for the URL and the recorded location path. */
  ghost predicate NameEntryValid(env: Environment, s: LocationScanner, u: Url, names: seq<string>, listedFor: map<(LocationScanner, Url), string>) {
    && (s, u) in listedFor
    && StrictlySorted(names)
    && ListingSpec(env, s.kind, listedFor[(s, u)], u) == Ok(Elems(names))
  }

  ghost predicate NameCacheValid(env: Environment, nameCache: NameCache, listedFor: map<(LocationScanner, Url), string>) {
    forall s, u {:trigger NameEntryValid(env, s, u, nameCache[s][u], listedFor)} ::
      s in nameCache && u in nameCache[s] ==> NameEntryValid(env, s, u, nameCache[s][u], listedFor)
  }

  /** Storing a freshly listed name set keeps the name cache valid. */
  lemma NameCacheStore(env: Environment, c: NameCache, listedFor: map<(LocationScanner, Url), string>,
                       s: LocationScanner, u: Url, path: string, names: seq<string>)
    requires NameCacheValid(env, c, listedFor) && s in c && u !in c[s]
    requires StrictlySorted(names) && ListingSpec(env, s.kind, path, u) == Ok(Elems(names))
    ensures NameCacheValid(env, c[s := c[s][u := names]], listedFor[(s, u) := path])
  {
    var c2 := c[s := c[s][u := names]];
    var l2 := listedFor[(s, u) := path];
    forall s', u' | s' in c2 && u' in c2[s']
      ensures NameEntryValid(env, s', u', c2[s'][u'], l2)
    {
      if s' != s || u' != u {
        assert NameEntryValid(env, s', u', c[s'][u'], listedFor);
      }
    }
  }

  /** Adding names under an existing scanner keeps the scanner cache valid. */
  lemma ScannerCacheSameScanners(env: Environment, scannerCache: map<string, LocationScanner>, c1: NameCache, c2: NameCache)
    requires ScannerCacheValid(env, scannerCache, c1) && c1.Keys == c2.Keys
    ensures ScannerCacheValid(env, scannerCache, c2)
  {
  }

  /** Caching a new scanner with an empty name map keeps both caches valid and only adds entries. */
  lemma ScannerCacheRegister(env: Environment, scannerCache: map<string, LocationScanner>, nameCache: NameCache,
                             listedFor: map<(LocationScanner, Url), string>, s: LocationScanner)
    requires ScannerCacheValid(env, scannerCache, nameCache) && NameCacheValid(env, nameCache, listedFor)
    requires s.protocol !in scannerCache && ScannerFor(env, s.protocol) == Some(s)
    ensures s !in nameCache
    ensures ScannerCacheValid(env, scannerCache[s.protocol := s], nameCache[s := map[]])
    ensures NameCacheValid(env, nameCache[s := map[]], listedFor)
    ensures MapExtends(scannerCache, scannerCache[s.protocol := s])
    ensures NameCacheExtends(nameCache, nameCache[s := map[]])
  {
    var c2 := nameCache[s := map[]];
    forall s', u | s' in c2 && u in c2[s']
      ensures NameEntryValid(env, s', u, c2[s'][u], listedFor)
    {
      assert s' != s;
      assert NameEntryValid(env, s', u, nameCache[s'][u], listedFor);
    }
  }

  /** One question to the class loader for a location's URLs, and whether it was answered. */
  datatype Fetch = Fetch(location: Location, succeeded: bool)

  /** One listing of a resolved URL by a scanner, and whether it succeeded. */
  datatype Listing = Listing(scanner: LocationScanner, url: Url, succeeded: bool)

  /**
   * Every answered question is cached, and no location is asked about again
   * after an answered question: each location's URLs are fetched at most once.
   */
  ghost predicate FetchLogValid(log: seq<Fetch>, urlCache: map<Location, seq<Url>>) {
    && (forall i :: 0 <= i < |log| && log[i].succeeded ==> log[i].location in urlCache)
    && (forall i, j :: 0 <= i < j < |log| && log[i].location == log[j].location ==> !log[i].succeeded)
  }

  /**
   * Every successful listing is cached, and no scanner lists a URL again
   * after listing it successfully: each (scanner, URL) pair is listed at most once.
   */
  ghost predicate ListingLogValid(log: seq<Listing>, nameCache: NameCache) {
    && (forall i :: 0 <= i < |log| && log[i].succeeded ==> log[i].scanner in nameCache && log[i].url in nameCache[log[i].scanner])
    && (forall i, j :: 0 <= i < j < |log| && log[i].scanner == log[j].scanner && log[i].url == log[j].url ==> !log[i].succeeded)
  }

  /** Asking about an uncached location, and caching the answer when there is one, keeps the fetch log valid. */
  lemma {:induction false} FetchLogAppend(log: seq<Fetch>, c1: map<Location, seq<Url>>, c2: map<Location, seq<Url>>,
                                          location: Location, succeeded: bool)
    requires FetchLogValid(log, c1) && location !in c1 && MapExtends(c1, c2)
    requires succeeded ==> location in c2
    ensures FetchLogValid(log + [Fetch(location, succeeded)], c2)
  {
    var log2 := log + [Fetch(location, succeeded)];
    forall i, j | 0 <= i < j < |log2| && log2[i].location == log2[j].location
      ensures !log2[i].succeeded
    {
      if j == |log| {
        assert log2[i] == log[i] && log[i].location == location;
      }
    }
  }

  /** Growing the name cache keeps the listing log valid. */
  lemma ListingLogExtend(log: seq<Listing>, c1: NameCache, c2: NameCache)
    requires ListingLogValid(log, c1) && NameCacheExtends(c1, c2)
    ensures ListingLogValid(log, c2)
  {
    forall i | 0 <= i < |log| && log[i].succeeded
      ensures log[i].scanner in c2 && log[i].url in c2[log[i].scanner]
    {
      assert log[i].scanner in c1 && MapExtends(c1[log[i].scanner], c2[log[i].scanner]);
    }
  }

  /** Listing a URL the scanner has no names for, and caching the names when there are some, keeps the listing log valid. */
  lemma {:induction false} ListingLogAppend(log: seq<Listing>, c1: NameCache, c2: NameCache,
                                            s: LocationScanner, u: Url, succeeded: bool)
    requires ListingLogValid(log, c1) && s in c1 && u !in c1[s] && NameCacheExtends(c1, c2)
    requires succeeded ==> s in c2 && u in c2[s]
    ensures ListingLogValid(log + [Listing(s, u, succeeded)], c2)
  {
    ListingLogExtend(log, c1, c2);
    var log2 := log + [Listing(s, u, succeeded)];
    forall i, j | 0 <= i < j < |log2| && log2[i].scanner == log2[j].scanner && log2[i].url == log2[j].url
      ensures !log2[i].succeeded
    {
      if j == |log| {
        assert log2[i] == log[i] && log[i].scanner == s && log[i].url == u;
      }
    }
  }

  class ClassPathScanner {
    const env: Environment
    var locationUrlCache: map<Location, seq<Url>>
    var locationScannerCache: map<string, LocationScanner>
    var resourceNameCache: NameCache
    /** The location path each cached name set was listed for. */
    ghost var listedFor: map<(LocationScanner, Url), string>
    /** Every question to the class loader for a location's URLs, in order. */
    ghost var fetches: seq<Fetch>
    /** Every listing of a resolved URL by a scanner, in order. */
    ghost var listings: seq<Listing>

    /**
     * Every cached scanner is the one the dispatch picks for its protocol and
     * has a name map (so the lookup of findResourceNames never finds null),
     * every name map belongs to a cached scanner, every cached URL list is
     * the loader's answer, and every cached name set is what its scanner
     * lists for the URL and the location path it was listed for. No location
     * is fetched, and no URL listed by a scanner, again after it succeeded.
     */
    ghost predicate Valid()
      reads this
    {
      && ScannerCacheValid(env, locationScannerCache, resourceNameCache)
      && UrlCacheValid(env, locationUrlCache)
      && NameCacheValid(env, resourceNameCache, listedFor)
      && FetchLogValid(fetches, locationUrlCache)
      && ListingLogValid(listings, resourceNameCache)
    }

    /** The location's URLs are cached and each of them is resolved and listed. */
    ghost predicate Scanned(location: Location)
      reads this
    {
      location in locationUrlCache && Covered(env, resourceNameCache, locationUrlCache[location])
    }

    ghost function ScannedNames(location: Location): set<string>
      reads this
      requires Scanned(location)
    {
      UnionNames(env, resourceNameCache, locationUrlCache[location])
    }

    /** The caches only grow: no entry is replaced or removed. */
    twostate predicate CachesGrew()
      reads this
    {
      && MapExtends(old(locationUrlCache), locationUrlCache)
      && MapExtends(old(locationScannerCache), locationScannerCache)
      && NameCacheExtends(old(resourceNameCache), resourceNameCache)
    }

    /**
     * What a scan of the location may change: the URL cache and the fetch
     * log only for the location itself, asking the loader once on a miss;
     * the other caches and the listing log only for the scanners and
     * resolved URLs the location's URLs reach.
     */
    twostate predicate ScanTouchedOnly(location: Location)
      reads this
    {
      && (location in old(locationUrlCache) ==> locationUrlCache == old(locationUrlCache) && fetches == old(fetches))
      && (location !in old(locationUrlCache) ==>
            && fetches == old(fetches) + [Fetch(location, FetchUrls(env, location).Ok?)]
            && locationUrlCache ==
                 if FetchUrls(env, location).Ok? then old(locationUrlCache)[location := FetchUrls(env, location).value]
                 else old(locationUrlCache))
      && TouchedOnly(ScanTargets(env, location), old(locationScannerCache), locationScannerCache,
                     old(resourceNameCache), resourceNameCache, old(listings), listings)
    }

    constructor(env: Environment)
      ensures Valid()
      ensures this.env == env
      ensures locationUrlCache == map[] && locationScannerCache == map[] && resourceNameCache == map[]
      ensures listedFor == map[] && fetches == [] && listings == []
    {
      this.env := env;
      locationUrlCache := map[];
      locationScannerCache := map[];
      resourceNameCache := map[];
      listedFor := map[];
      fetches := [];
      listings := [];
    }

    /**
     * getLocationUrlsForPath: a cached location answers from the cache;
     * otherwise the loader is asked, once, and its answer, even an empty one,
     * is cached. A failing lookup caches nothing.
     */
    method GetLocationUrlsForPath(location: Location) returns (r: Result<seq<Url>>)
      requires Valid()
      modifies this`locationUrlCache, this`fetches
      ensures Valid()
      ensures r == FetchUrls(env, location)
      ensures location in old(locationUrlCache) ==> locationUrlCache == old(locationUrlCache) && fetches == old(fetches)
      ensures location !in old(locationUrlCache) ==> fetches == old(fetches) + [Fetch(location, r.Ok?)]
      ensures location !in old(locationUrlCache) && r.Ok? ==> locationUrlCache == old(locationUrlCache)[location := r.value]
      ensures r.Err? ==> locationUrlCache == old(locationUrlCache)
    {
      if location in locationUrlCache {
        return Ok(locationUrlCache[location]);
      }
      r := LookUpUrls(location);
      if r.Ok? {
        locationUrlCache := locationUrlCache[location := r.value];
      }
      FetchLogAppend(fetches, old(locationUrlCache), locationUrlCache, location, r.Ok?);
      fetches := fetches + [Fetch(location, r.Ok?)];
    }

    /**
     * The lookup getLocationUrlsForPath makes on a miss: the loader's URLs for
     * the location, decoded one by one under an IBM loader.
     */
    method LookUpUrls(location: Location) returns (r: Result<seq<Url>>)
      ensures r == FetchUrls(env, location)
    {
      var locationUrls: seq<Url> := [];
      if StartsWith(env.loaderClassName, "com.ibm") {
        var urls :- env.getResources(location.ToString());
        var i := 0;
        while i < |urls|
          invariant 0 <= i <= |urls|
          invariant DecodeAll(env.decodeUrl, urls[..i]) == Ok(locationUrls)
        {
          assert urls[..i + 1][..i] == urls[..i];
          var decoded := env.decodeUrl(urls[i]);
          if decoded.Err? {
            DecodeAllFailedPrefix(env.decodeUrl, urls, i + 1);
            return Err(decoded.error);
          }
          var url := decoded.value;
          locationUrls := locationUrls + [url];
          i := i + 1;
        }
        assert urls[..i] == urls;
      } else {
        var urls :- env.getResources(location.path);
        var i := 0;
        while i < |urls|
          invariant 0 <= i <= |urls|
          invariant locationUrls == urls[..i]
        {
          locationUrls := locationUrls + [urls[i]];
          i := i + 1;
        }
        assert urls[..i] == urls;
      }
      return Ok(locationUrls);
    }

    /** createUrlResolver: asks a fresh EnvironmentDetection whether JBoss VFS 2 is present. */
    method CreateUrlResolver(protocol: string) returns (resolver: UrlResolver)
      ensures resolver == ResolverFor(env, protocol)
      ensures resolver == JBossVfsV2Resolver ==> StartsWith(protocol, "vfs")
    {
      var detection := new EnvironmentDetection(env.loadClass);
      var vfs2 := detection.IsJBossVFSv2();
      if vfs2 && StartsWith(protocol, "vfs") {
        return JBossVfsV2Resolver;
      }
      return DefaultResolver;
    }

    /**
     * createLocationScanner: a cached protocol answers from the cache; a
     * protocol the dispatch supports gets a new scanner, cached together with
     * an empty name map; an unsupported one gets None and nothing is cached,
     * so it is examined afresh on every scan.
     */
    method CreateLocationScanner(protocol: string) returns (scanner: Option<LocationScanner>)
      requires Valid()
      modifies this`locationScannerCache, this`resourceNameCache
      ensures Valid()
      ensures scanner == ScannerFor(env, protocol)
      ensures scanner.Some? ==> protocol in locationScannerCache && scanner.value in resourceNameCache
      ensures protocol in old(locationScannerCache) || scanner.None? ==>
        locationScannerCache == old(locationScannerCache) && resourceNameCache == old(resourceNameCache)
      ensures protocol !in old(locationScannerCache) && scanner.Some? ==>
        && locationScannerCache == old(locationScannerCache)[protocol := scanner.value]
        && resourceNameCache == old(resourceNameCache)[scanner.value := map[]]
      ensures MapExtends(old(locationScannerCache), locationScannerCache)
      ensures NameCacheExtends(old(resourceNameCache), resourceNameCache)
    {
      if protocol in locationScannerCache {
        return Some(locationScannerCache[protocol]);
      }
      if protocol == "file" {
        scanner := Some(LocationScanner(FileSystemKind, protocol));
        Register(scanner.value);
        return;
      }
      if protocol == "jar" || protocol == "zip" || protocol == "wsjar" {
        scanner := Some(LocationScanner(JarFileKind, protocol));
        Register(scanner.value);
        return;
      }
      var featureDetector := new EnvironmentDetection(env.loadClass);
      var vfs3 := featureDetector.IsJBossVFSv3();
      if vfs3 && protocol == "vfs" {
        scanner := Some(LocationScanner(JBossVfsV3Kind, protocol));
        Register(scanner.value);
        return;
      }
      var osgi := featureDetector.IsOsgi();
      if osgi && (protocol == "bundle" || protocol == "bundleresource") {
        scanner := Some(LocationScanner(OsgiKind, protocol));
        Register(scanner.value);
        return;
      }
      return None;
    }

    /** The two puts each branch of createLocationScanner makes for a new scanner. */
    method Register(scanner: LocationScanner)
      requires Valid()
      requires scanner.protocol !in locationScannerCache
      requires ScannerFor(env, scanner.protocol) == Some(scanner)
      modifies this`locationScannerCache, this`resourceNameCache
      ensures Valid()
      ensures locationScannerCache == old(locationScannerCache)[scanner.protocol := scanner]
      ensures resourceNameCache == old(resourceNameCache)[scanner := map[]]
      ensures MapExtends(old(locationScannerCache), locationScannerCache)
      ensures NameCacheExtends(old(resourceNameCache), resourceNameCache)
    {
      ScannerCacheRegister(env, locationScannerCache, resourceNameCache, listedFor, scanner);
      ListingLogExtend(listings, resourceNameCache, resourceNameCache[scanner := map[]]);
      locationScannerCache := locationScannerCache[scanner.protocol := scanner];
      resourceNameCache := resourceNameCache[scanner := map[]];
    }

    /** The scanner's own findResourceNames for a location path and a resolved URL. */
    method ListResourceNames(kind: ScannerKind, locationPath: string, url: Url) returns (r: Result<seq<string>>)
      ensures var listing := ListingSpec(env, kind, locationPath, url);
        && (r.Err? <==> listing.Err?)
        && (r.Err? ==> r.error == listing.error)
        && (r.Ok? ==> StrictlySorted(r.value) && Elems(r.value) == listing.value)
    {
      match kind
      case FileSystemKind =>
        r := FileSystemLocationScanner.FindResourceNames(locationPath, url, env.toFilePath, env.fileAt);
      case OsgiKind =>
        var names := OsgiScanner.FindResourceNames(env.osgi, locationPath, url);
        r := Ok(names);
      case JarFileKind =>
        var names :- env.listJar(locationPath, url);
        r := Ok(AddAll([], names));
      case JBossVfsV3Kind =>
        var names :- env.listVfs3(locationPath, url);
        r := Ok(AddAll([], names));
    }

    /**
     * One pass of the URL loop of findResourceNames: resolve the URL, pick a
     * scanner by the resolved protocol, and take the names from the cache or
     * list them and cache them. An unsupported protocol contributes nothing.
     */
    method NamesForUrl(location: Location, locationUrl: Url) returns (r: Result<seq<string>>)
      requires Valid()
      modifies this`locationScannerCache, this`resourceNameCache, this`listedFor, this`listings
      ensures Valid()
      ensures CachesGrew()
      ensures r.Ok? ==> UrlCovered(env, resourceNameCache, locationUrl)
      ensures r.Ok? ==> Elems(r.value) == UrlNames(env, resourceNameCache, locationUrl)
      ensures old(UrlCovered(env, resourceNameCache, locationUrl)) ==>
        && r.Ok?
        && locationScannerCache == old(locationScannerCache)
        && resourceNameCache == old(resourceNameCache)
        && listings == old(listings)
      ensures NameSet(r) == UrlSpec(env, old(resourceNameCache), location.path, locationUrl)
      ensures ListedSince(env, old(resourceNameCache), resourceNameCache, location.path)
      ensures TouchedOnly(UrlTargets(env, locationUrl), old(locationScannerCache), locationScannerCache,
                          old(resourceNameCache), resourceNameCache, old(listings), listings)
    {
      var urlResolver := CreateUrlResolver(locationUrl.protocol);
      var resolvedUrl :- ToStandardJavaUrl(env, urlResolver, locationUrl);
      assert ResolveUrl(env, locationUrl) == Ok(resolvedUrl);
      r := NamesForResolved(location, resolvedUrl);
    }

    /** The URL loop of findResourceNames after resolution: pick the scanner, then use or fill its cache. */
    method NamesForResolved(location: Location, resolvedUrl: Url) returns (r: Result<seq<string>>)
      requires Valid()
      modifies this`locationScannerCache, this`resourceNameCache, this`listedFor, this`listings
      ensures Valid()
      ensures CachesGrew()
      ensures r.Ok? ==> ResolvedCovered(env, resourceNameCache, resolvedUrl)
      ensures r.Ok? ==> Elems(r.value) == ResolvedNames(env, resourceNameCache, resolvedUrl)
      ensures old(ResolvedCovered(env, resourceNameCache, resolvedUrl)) ==>
        && r.Ok?
        && locationScannerCache == old(locationScannerCache)
        && resourceNameCache == old(resourceNameCache)
        && listings == old(listings)
      ensures NameSet(r) == ResolvedSpec(env, old(resourceNameCache), location.path, resolvedUrl)
      ensures ListedSince(env, old(resourceNameCache), resourceNameCache, location.path)
      ensures TouchedOnly(ResolvedTargets(env, resolvedUrl), old(locationScannerCache), locationScannerCache,
                          old(resourceNameCache), resourceNameCache, old(listings), listings)
    {
      var protocol := resolvedUrl.protocol;
      var classPathLocationScanner := CreateLocationScanner(protocol);
      if classPathLocationScanner.None? {
        return Ok([]);
      }
      r := NamesFromScanner(location, old(locationScannerCache), old(resourceNameCache), classPathLocationScanner.value, resolvedUrl);
    }

    /**
     * The branch of the URL loop of findResourceNames where the resolved
     * URL's protocol has a scanner: the scanner's cached names or its fresh
     * listing. The ghost scanners0 and names0 are the caches before
     * createLocationScanner, which at most registered this scanner.
     */
    method NamesFromScanner(location: Location, ghost scanners0: map<string, LocationScanner>, ghost names0: NameCache,
                            scanner: LocationScanner, resolvedUrl: Url) returns (r: Result<seq<string>>)
      requires Valid() && scanner in resourceNameCache
      requires ScannerFor(env, resolvedUrl.protocol) == Some(scanner)
      requires || (locationScannerCache == scanners0 && resourceNameCache == names0)
               || (&& resolvedUrl.protocol !in scanners0 && scanner !in names0
                   && locationScannerCache == scanners0[resolvedUrl.protocol := scanner]
                   && resourceNameCache == names0[scanner := map[]])
      modifies this`resourceNameCache, this`listedFor, this`listings
      ensures Valid()
      ensures MapExtends(scanners0, locationScannerCache) && NameCacheExtends(names0, resourceNameCache)
      ensures r.Ok? ==> ResolvedCovered(env, resourceNameCache, resolvedUrl)
      ensures r.Ok? ==> Elems(r.value) == ResolvedNames(env, resourceNameCache, resolvedUrl)
      ensures ResolvedCovered(env, names0, resolvedUrl) ==>
        && r.Ok?
        && locationScannerCache == scanners0
        && resourceNameCache == names0
        && listings == old(listings)
      ensures NameSet(r) == ResolvedSpec(env, names0, location.path, resolvedUrl)
      ensures ListedSince(env, names0, resourceNameCache, location.path)
      ensures TouchedOnly(ResolvedTargets(env, resolvedUrl), scanners0, locationScannerCache,
                          names0, resourceNameCache, old(listings), listings)
    {
      ghost var targets := {(scanner, resolvedUrl)};
      RegisteredSameSpec(env, names0, resourceNameCache, location.path, scanner, resolvedUrl);
      RegisterTouchesOnly(scanners0, locationScannerCache, names0, resourceNameCache, listings, scanner, resolvedUrl);
      r := CachedOrListed(location, scanner, resolvedUrl);
      NameCacheExtendsTransitive(names0, old(resourceNameCache), resourceNameCache);
      ListedSinceTransitive(env, names0, old(resourceNameCache), resourceNameCache, location.path);
      TouchedOnlyTransitive(targets, targets, scanners0, locationScannerCache, locationScannerCache,
                            names0, old(resourceNameCache), resourceNameCache, old(listings), old(listings), listings);
    }

    /**
     * The cache step of the URL loop of findResourceNames: the scanner's
     * cached names for the URL, or, on a miss, its fresh listing, which is
     * then cached.
     */
    method CachedOrListed(location: Location, scanner: LocationScanner, resolvedUrl: Url) returns (r: Result<seq<string>>)
      requires Valid() && scanner in resourceNameCache
      modifies this`resourceNameCache, this`listedFor, this`listings
      ensures Valid()
      ensures NameCacheExtends(old(resourceNameCache), resourceNameCache)
      ensures r.Ok? ==> resolvedUrl in resourceNameCache[scanner] && r.value == resourceNameCache[scanner][resolvedUrl]
      ensures resolvedUrl in old(resourceNameCache)[scanner] ==>
        r.Ok? && resourceNameCache == old(resourceNameCache) && listings == old(listings)
      ensures resolvedUrl !in old(resourceNameCache)[scanner] ==>
        listings == old(listings) + [Listing(scanner, resolvedUrl, r.Ok?)]
      ensures NameSet(r) == CachedOrListing(env, old(resourceNameCache), location.path, scanner, resolvedUrl)
      ensures resolvedUrl !in old(resourceNameCache)[scanner] && r.Ok? ==>
        listedFor == old(listedFor)[(scanner, resolvedUrl) := location.path]
      ensures resolvedUrl !in old(resourceNameCache)[scanner] ==>
        resourceNameCache ==
          if r.Ok? then old(resourceNameCache)[scanner := old(resourceNameCache)[scanner][resolvedUrl := r.value]]
          else old(resourceNameCache)
      ensures ListedSince(env, old(resourceNameCache), resourceNameCache, location.path)
      ensures TouchedOnly({(scanner, resolvedUrl)}, locationScannerCache, locationScannerCache,
                          old(resourceNameCache), resourceNameCache, old(listings), listings)
    {
      if resolvedUrl in resourceNameCache[scanner] {
        TouchedNothing({(scanner, resolvedUrl)}, locationScannerCache, resourceNameCache, listings);
        return Ok(resourceNameCache[scanner][resolvedUrl]);
      }
      r := ListResourceNames(scanner.kind, location.path, resolvedUrl);
      if r.Ok? {
        StoreNames(scanner, resolvedUrl, location.path, r.value);
      }
      ListingTouchesOnly(locationScannerCache, old(resourceNameCache), resourceNameCache, listings, scanner, resolvedUrl,
                         if r.Ok? then r.value else [], r.Ok?);
      ListingLogAppend(listings, old(resourceNameCache), resourceNameCache, scanner, resolvedUrl, r.Ok?);
      listings := listings + [Listing(scanner, resolvedUrl, r.Ok?)];
    }

    /** The put of findResourceNames: a freshly listed name set goes into its scanner's name map. */
    method StoreNames(scanner: LocationScanner, resolvedUrl: Url, locationPath: string, names: seq<string>)
      requires Valid()
      requires scanner in resourceNameCache && resolvedUrl !in resourceNameCache[scanner]
      requires StrictlySorted(names) && ListingSpec(env, scanner.kind, locationPath, resolvedUrl) == Ok(Elems(names))
      modifies this`resourceNameCache, this`listedFor
      ensures Valid()
      ensures resourceNameCache == old(resourceNameCache)[scanner := old(resourceNameCache)[scanner][resolvedUrl := names]]
      ensures listedFor == old(listedFor)[(scanner, resolvedUrl) := locationPath]
      ensures NameCacheExtends(old(resourceNameCache), resourceNameCache)
      ensures ListedSince(env, old(resourceNameCache), resourceNameCache, locationPath)
    {
      var stored := resourceNameCache[scanner := resourceNameCache[scanner][resolvedUrl := names]];
      NameCacheStore(env, resourceNameCache, listedFor, scanner, resolvedUrl, locationPath, names);
      ListingLogExtend(listings, resourceNameCache, stored);
      assert stored.Keys == resourceNameCache.Keys;
      ScannerCacheSameScanners(env, locationScannerCache, resourceNameCache, stored);
      resourceNameCache := stored;
      listedFor := listedFor[(scanner, resolvedUrl) := locationPath];
    }

    /**
     * findResourceNames: the union of the names of every URL behind the
     * location, sorted and without duplicates, then only those the predicate
     * accepts. Once a location is scanned, scanning it again touches no cache.
     */
    method FindResourceNames(location: Location, accept: string -> bool) returns (r: Result<seq<string>>)
      requires Valid()
      modifies this`locationUrlCache, this`locationScannerCache, this`resourceNameCache, this`listedFor, this`fetches, this`listings
      ensures Valid()
      ensures CachesGrew()
      ensures r.Ok? ==> Scanned(location)
      ensures r.Ok? ==> StrictlySorted(r.value)
      ensures r.Ok? ==> Elems(r.value) == set n | n in ScannedNames(location) && accept(n)
      ensures old(Scanned(location)) ==>
        && r.Ok?
        && locationUrlCache == old(locationUrlCache)
        && locationScannerCache == old(locationScannerCache)
        && resourceNameCache == old(resourceNameCache)
        && fetches == old(fetches)
        && listings == old(listings)
      ensures NameSet(r) == ScanSpec(env, old(resourceNameCache), location, accept)
      ensures ListedSince(env, old(resourceNameCache), resourceNameCache, location.path)
      ensures ScanTouchedOnly(location)
    {
      ghost var scanned := Scanned(location);
      var locationsUrls := GetLocationUrlsForPath(location);
      if locationsUrls.Err? {
        r := Err(locationsUrls.error);
      } else {
        assert locationUrlCache[location] == locationsUrls.value;
        assert scanned ==> Covered(env, resourceNameCache, locationsUrls.value);
        var resourceNames := CollectNames(location, locationsUrls.value);
        if resourceNames.Err? {
          r := Err(resourceNames.error);
        } else {
          assert ScannedNames(location) == Elems(resourceNames.value);
          var filtered := FilterResourceNames(resourceNames.value, accept);
          r := Ok(filtered);
        }
      }
    }

    /**
     * The URL loop of findResourceNames: the sorted union of the names of
     * every URL. A URL list already covered by the caches changes nothing.
     */
    method CollectNames(location: Location, locationsUrls: seq<Url>) returns (r: Result<seq<string>>)
      requires Valid()
      modifies this`locationScannerCache, this`resourceNameCache, this`listedFor, this`listings
      ensures Valid()
      ensures CachesGrew()
      ensures r.Ok? ==> Covered(env, resourceNameCache, locationsUrls)
      ensures r.Ok? ==> StrictlySorted(r.value) && Elems(r.value) == UnionNames(env, resourceNameCache, locationsUrls)
      ensures old(Covered(env, resourceNameCache, locationsUrls)) ==>
        && r.Ok?
        && locationScannerCache == old(locationScannerCache)
        && resourceNameCache == old(resourceNameCache)
        && listings == old(listings)
      ensures NameSet(r) == CollectSpec(env, old(resourceNameCache), location.path, locationsUrls)
      ensures ListedSince(env, old(resourceNameCache), resourceNameCache, location.path)
      ensures TouchedOnly(Targets(env, locationsUrls), old(locationScannerCache), locationScannerCache,
                          old(resourceNameCache), resourceNameCache, old(listings), listings)
    {
      var resourceNames: seq<string> := [];
      ghost var namesAtStart := resourceNameCache;
      ghost var covered := Covered(env, namesAtStart, locationsUrls);
      var i := 0;
      while i < |locationsUrls|
        invariant 0 <= i <= |locationsUrls|
        invariant Valid()
        invariant CachesGrew()
        invariant StrictlySorted(resourceNames)
        invariant Covered(env, resourceNameCache, locationsUrls[..i])
        invariant Elems(resourceNames) == UnionNames(env, resourceNameCache, locationsUrls[..i])
        invariant covered ==>
          && locationScannerCache == old(locationScannerCache)
          && resourceNameCache == namesAtStart
          && listings == old(listings)
        invariant CollectSpec(env, namesAtStart, location.path, locationsUrls[..i]) == Ok(Elems(resourceNames))
        invariant ListedSince(env, namesAtStart, resourceNameCache, location.path)
        invariant TouchedOnly(Targets(env, locationsUrls[..i]), old(locationScannerCache), locationScannerCache,
                              namesAtStart, resourceNameCache, old(listings), listings)
      {
        ghost var before := resourceNameCache;
        ghost var scannersBefore := locationScannerCache;
        if covered {
          assert UrlCovered(env, namesAtStart, locationsUrls[i]);
        }
        var result := CollectUrl(location, namesAtStart, old(locationScannerCache), old(listings),
                                 locationsUrls[..i], locationsUrls[i], resourceNames);
        MapExtendsTransitive(old(locationScannerCache), scannersBefore, locationScannerCache);
        NameCacheExtendsTransitive(old(resourceNameCache), before, resourceNameCache);
        assert locationsUrls[..i + 1] == locationsUrls[..i] + [locationsUrls[i]];
        if result.Err? {
          JoinNamesFailedPrefix(UrlStep(env, namesAtStart, location.path), locationsUrls, i + 1);
          TargetsPrefix(env, locationsUrls, i + 1);
          TouchedOnlyWiden(Targets(env, locationsUrls[..i + 1]), Targets(env, locationsUrls), old(locationScannerCache),
                           locationScannerCache, namesAtStart, resourceNameCache, old(listings), listings);
          return Err(result.error);
        }
        resourceNames := result.value;
        i := i + 1;
      }
      assert locationsUrls[..i] == locationsUrls;
      return Ok(resourceNames);
    }

    /** One pass of the URL loop of findResourceNames: the names so far, with the next URL's names added. */
    method CollectUrl(location: Location, ghost start: NameCache, ghost startScanners: map<string, LocationScanner>,
                      ghost startListings: seq<Listing>, done: seq<Url>, url: Url, resourceNames: seq<string>)
      returns (r: Result<seq<string>>)
      requires Valid() && Covered(env, resourceNameCache, done)
      requires StrictlySorted(resourceNames) && Elems(resourceNames) == UnionNames(env, resourceNameCache, done)
      requires NameCacheExtends(start, resourceNameCache) && ListedSince(env, start, resourceNameCache, location.path)
      requires CollectSpec(env, start, location.path, done) == Ok(Elems(resourceNames))
      requires TouchedOnly(Targets(env, done), startScanners, locationScannerCache, start, resourceNameCache, startListings, listings)
      modifies this`locationScannerCache, this`resourceNameCache, this`listedFor, this`listings
      ensures Valid()
      ensures CachesGrew()
      ensures r.Ok? ==> Covered(env, resourceNameCache, done + [url])
      ensures r.Ok? ==> StrictlySorted(r.value) && Elems(r.value) == UnionNames(env, resourceNameCache, done + [url])
      ensures old(UrlCovered(env, resourceNameCache, url)) ==>
        && r.Ok?
        && locationScannerCache == old(locationScannerCache)
        && resourceNameCache == old(resourceNameCache)
        && listings == old(listings)
      ensures r.Err? ==> UrlSpec(env, old(resourceNameCache), location.path, url) == Err(r.error)
      ensures r.Ok? ==> UrlSpec(env, old(resourceNameCache), location.path, url).Ok?
      ensures r.Ok? ==> Elems(r.value) == Elems(resourceNames) + UrlSpec(env, old(resourceNameCache), location.path, url).value
      ensures ListedSince(env, old(resourceNameCache), resourceNameCache, location.path)
      ensures NameCacheExtends(start, resourceNameCache) && ListedSince(env, start, resourceNameCache, location.path)
      ensures r.Err? ==> CollectSpec(env, start, location.path, done + [url]) == Err(r.error)
      ensures r.Ok? ==> CollectSpec(env, start, location.path, done + [url]) == Ok(Elems(r.value))
      ensures TouchedOnly(UrlTargets(env, url), old(locationScannerCache), locationScannerCache,
                          old(resourceNameCache), resourceNameCache, old(listings), listings)
      ensures TouchedOnly(Targets(env, done + [url]), startScanners, locationScannerCache, start, resourceNameCache,
                          startListings, listings)
    {
      var names := NamesForUrl(location, url);
      TouchedOnlyTransitive(Targets(env, done), UrlTargets(env, url), startScanners, old(locationScannerCache),
                            locationScannerCache, start, old(resourceNameCache), resourceNameCache,
                            startListings, old(listings), listings);
      TargetsSnoc(env, done, url);
      NameCacheExtendsTransitive(start, old(resourceNameCache), resourceNameCache);
      ListedSinceTransitive(env, start, old(resourceNameCache), resourceNameCache, location.path);
      CollectSpecSnoc(env, start, old(resourceNameCache), location.path, done, url, Elems(resourceNames),
                      UrlSpec(env, old(resourceNameCache), location.path, url));
      if names.Err? {
        r := Err(names.error);
      } else {
        UnionNamesExtend(env, old(resourceNameCache), resourceNameCache, done);
        UnionNamesAppend(env, resourceNameCache, done, url);
        r := Ok(AddAll(resourceNames, names.value));
      }
    }

    /**
     * scanForResources: one ClassPathResource, on this scanner's class
     * loader, per accepted name, in name order.
     */
    method ScanForResources(location: Location, accept: string -> bool) returns (r: Result<seq<ClassPathResource>>)
      requires Valid()
      modifies this`locationUrlCache, this`locationScannerCache, this`resourceNameCache, this`listedFor, this`fetches, this`listings
      ensures Valid()
      ensures CachesGrew()
      ensures r.Ok? ==> Scanned(location)
      ensures r.Ok? ==> StrictlySorted(ResourceLocations(r.value))
      ensures r.Ok? ==> Elems(ResourceLocations(r.value)) == set n | n in ScannedNames(location) && accept(n)
      ensures r.Ok? ==> forall i :: 0 <= i < |r.value| ==> r.value[i].classLoader == env.streams
      ensures var spec := ScanSpec(env, old(resourceNameCache), location, accept);
        && (r.Err? <==> spec.Err?)
        && (r.Err? ==> r.error == spec.error)
        && (r.Ok? ==> Elems(ResourceLocations(r.value)) == spec.value)
      ensures ScanTouchedOnly(location)
    {
      var resourceNames :- FindResourceNames(location, accept);
      var resources: seq<ClassPathResource> := [];
      var i := 0;
      while i < |resourceNames|
        invariant 0 <= i <= |resourceNames|
        invariant ResourceLocations(resources) == resourceNames[..i]
        invariant forall j :: 0 <= j < |resources| ==> resources[j].classLoader == env.streams
      {
        resources := resources + [ClassPathResource(resourceNames[i], env.streams)];
        i := i + 1;
      }
      assert resourceNames[..i] == resourceNames;
      return Ok(resources);
    }

    /**
     * scanForClasses: the ".class" resources under the location, in name
     * order, turned into class names and loaded; see LoadMatching. The ghost
     * `candidates` is the sorted name set the loop runs over.
     */
    method ScanForClasses(location: Location, accept: ClassHandle -> bool)
      returns (r: Result<seq<ClassHandle>>, ghost candidates: seq<string>)
      requires Valid()
      modifies this`locationUrlCache, this`locationScannerCache, this`resourceNameCache, this`listedFor, this`fetches, this`listings
      ensures Valid()
      ensures CachesGrew()
      ensures r.Ok? ==> Scanned(location)
      ensures r.Ok? ==> StrictlySorted(candidates)
      ensures r.Ok? ==> Elems(candidates) == set n | n in ScannedNames(location) && EndsWith(n, ".class")
      ensures r.Ok? ==> forall i :: 0 <= i < |candidates| ==> |candidates[i]| >= |".class"|
      ensures r.Ok? ==> r == LoadMatching(env.loadClass, accept, candidates)
      ensures var spec := ScanSpec(env, old(resourceNameCache), location, IsClassResource);
        && (spec.Err? ==> r == Err(spec.error))
        && (spec.Ok? ==> StrictlySorted(candidates) && Elems(candidates) == spec.value)
        && (spec.Ok? ==> (forall i :: 0 <= i < |candidates| ==> |candidates[i]| >= |".class"|) &&
                         r == LoadMatching(env.loadClass, accept, candidates))
      ensures ScanTouchedOnly(location)
    {
      candidates := [];
      var found := FindResourceNames(location, IsClassResource);
      if found.Err? {
        r := Err(found.error);
      } else {
        var resourceNames := found.value;
        candidates := resourceNames;
        assert forall i :: 0 <= i < |resourceNames| ==> EndsWith(resourceNames[i], ".class") by {
          forall i | 0 <= i < |resourceNames| ensures EndsWith(resourceNames[i], ".class") {
            assert resourceNames[i] in Elems(resourceNames);
          }
        }
        r := LoadClasses(resourceNames, accept);
      }
    }

    /** The class loop of scanForClasses over candidate names in order. */
    method LoadClasses(resourceNames: seq<string>, accept: ClassHandle -> bool) returns (r: Result<seq<ClassHandle>>)
      requires forall i :: 0 <= i < |resourceNames| ==> |resourceNames[i]| >= |".class"|
      ensures r == LoadMatching(env.loadClass, accept, resourceNames)
    {
      var classes: seq<ClassHandle> := [];
      var i := 0;
      while i < |resourceNames|
        invariant 0 <= i <= |resourceNames|
        invariant LoadMatching(env.loadClass, accept, resourceNames[..i]) == Ok(classes)
      {
        LoadMatchingSnoc(env.loadClass, accept, resourceNames[..i], resourceNames[i]);
        assert resourceNames[..i + 1] == resourceNames[..i] + [resourceNames[i]];
        var className := ToClassName(resourceNames[i]);
        var loaded := env.loadClass(className);
        match loaded {
          case Loaded(clazz) =>
            if accept(clazz) {
              classes := classes + [clazz];
            }
          case LoadFailed(failure) =>
            if failure == OtherThrowable {
              LoadMatchingFailedPrefix(env.loadClass, accept, resourceNames, i + 1);
              return Err(ClassLinkageFailure(className));
            }
        }
        i := i + 1;
      }
      assert resourceNames[..i] == resourceNames;
      return Ok(classes);
    }
  }

  /**
   * Scanning the same location twice gives the same names, and the second
   * scan asks the loader nothing and lists nothing: it answers from the caches.
   */
  method ScanTwice(scanner: ClassPathScanner, location: Location, accept: string -> bool)
    returns (first: Result<seq<string>>, second: Result<seq<string>>,
             ghost fetchesAfterFirst: seq<Fetch>, ghost listingsAfterFirst: seq<Listing>)
    requires scanner.Valid()
    modifies scanner
    ensures first.Ok? ==> second == first
    ensures first.Ok? ==> scanner.fetches == fetchesAfterFirst && scanner.listings == listingsAfterFirst
  {
    first := scanner.FindResourceNames(location, accept);
    fetchesAfterFirst := scanner.fetches;
    listingsAfterFirst := scanner.listings;
    second := scanner.FindResourceNames(location, accept);
    if first.Ok? {
      SortedUnique(first.value, second.value);
    }
  }
}
