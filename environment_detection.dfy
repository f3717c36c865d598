/**
 * EnvironmentDetection: which optional frameworks the class loader can see,
 * each answered by trying to load one marker class and remembered per instance.
 */
module EnvironmentDetections {
  import opened Wrappers
  import opened Platform

  const JBossVfsV2Class: string := "org.jboss.virtual.VFS"
  const JBossVfsV3Class: string := "org.jboss.vfs.VFS"
  const OsgiClass: string := "org.osgi.framework.Bundle"

  /** isPresent: the class loads; any Throwable while loading means absent. */
  predicate IsPresent(className: string, loadClass: ClassLoading) {
    loadClass(className).Loaded?
  }

  /** No element occurs twice. */
  ghost predicate NoDuplicates<T>(s: seq<T>) {
    forall i, j :: 0 <= i < j < |s| ==> s[i] != s[j]
  }

  /** A memoised flag is either unknown or the answer of the probe for its class. */
  ghost predicate FlagAgrees(flag: Option<bool>, className: string, loadClass: ClassLoading, probes: seq<string>) {
    && (flag.Some? ==> flag.value == IsPresent(className, loadClass))
    && (flag.Some? <==> className in probes)
  }

  class EnvironmentDetection {
    const loadClass: ClassLoading
    var jbossVFSv2: Option<bool>
    var jbossVFSv3: Option<bool>
    var osgi: Option<bool>
    /** The marker classes this instance has tried to load, in order. */
    ghost var probes: seq<string>

    /**
     * Each known flag holds the probe's answer, a flag is known exactly when
     * its class has been probed, and no class has been probed twice.
     */
    ghost predicate Valid()
      reads this
    {
      && FlagAgrees(jbossVFSv2, JBossVfsV2Class, loadClass, probes)
      && FlagAgrees(jbossVFSv3, JBossVfsV3Class, loadClass, probes)
      && FlagAgrees(osgi, OsgiClass, loadClass, probes)
      && (forall c :: c in probes ==> c == JBossVfsV2Class || c == JBossVfsV3Class || c == OsgiClass)
      && NoDuplicates(probes)
    }

    /** A fresh instance knows nothing yet. */
    constructor(loadClass: ClassLoading)
      ensures Valid()
      ensures this.loadClass == loadClass
      ensures jbossVFSv2 == None && jbossVFSv3 == None && osgi == None
      ensures probes == []
    {
      this.loadClass := loadClass;
      jbossVFSv2 := None;
      jbossVFSv3 := None;
      osgi := None;
      probes := [];
    }

    method IsJBossVFSv2() returns (present: bool)
      requires Valid()
      modifies this`jbossVFSv2, this`probes
      ensures Valid()
      ensures present == IsPresent(JBossVfsV2Class, loadClass)
      ensures jbossVFSv2 == Some(present)
      ensures old(jbossVFSv2).Some? ==> probes == old(probes)
      ensures old(jbossVFSv2).None? ==> probes == old(probes) + [JBossVfsV2Class]
    {
      if jbossVFSv2 == None {
        jbossVFSv2 := Some(IsPresent(JBossVfsV2Class, loadClass));
        probes := probes + [JBossVfsV2Class];
      }
      present := jbossVFSv2.value;
    }

    method IsJBossVFSv3() returns (present: bool)
      requires Valid()
      modifies this`jbossVFSv3, this`probes
      ensures Valid()
      ensures present == IsPresent(JBossVfsV3Class, loadClass)
      ensures jbossVFSv3 == Some(present)
      ensures old(jbossVFSv3).Some? ==> probes == old(probes)
      ensures old(jbossVFSv3).None? ==> probes == old(probes) + [JBossVfsV3Class]
    {
      if jbossVFSv3 == None {
        jbossVFSv3 := Some(IsPresent(JBossVfsV3Class, loadClass));
        probes := probes + [JBossVfsV3Class];
      }
      present := jbossVFSv3.value;
    }

    method IsOsgi() returns (present: bool)
      requires Valid()
      modifies this`osgi, this`probes
      ensures Valid()
      ensures present == IsPresent(OsgiClass, loadClass)
      ensures osgi == Some(present)
      ensures old(osgi).Some? ==> probes == old(probes)
      ensures old(osgi).None? ==> probes == old(probes) + [OsgiClass]
    {
      if osgi == None {
        osgi := Some(IsPresent(OsgiClass, loadClass));
        probes := probes + [OsgiClass];
      }
      present := osgi.value;
    }
  }

  /**
   * Asking the same question twice probes once: the second call answers from
   * the remembered flag, the loader is asked about the JBoss VFS 3 class only,
   * and the other two flags stay unknown.
   */
  method AskTwice(loadClass: ClassLoading) returns (first: bool, second: bool, detector: EnvironmentDetection)
    ensures first == second == IsPresent(JBossVfsV3Class, loadClass)
    ensures detector.probes == [JBossVfsV3Class]
    ensures detector.jbossVFSv3 == Some(first)
    ensures detector.jbossVFSv2 == None && detector.osgi == None
  {
    detector := new EnvironmentDetection(loadClass);
    first := detector.IsJBossVFSv3();
    second := detector.IsJBossVFSv3();
  }
}
