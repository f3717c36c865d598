/**
 * A resource found on the classpath: its location string (a '/'-separated
 * resource name) and the class loader that can open it.
 */
module ClassPathResources {
  import opened Wrappers
  import opened Text

  /**
   * ClassLoader.getResourceAsStream followed by reading the whole stream:
   * None when the loader has no stream, otherwise the text or the IOException.
   */
  type ResourceStreams = string -> Option<Result<string>>

  datatype ClassPathResource = ClassPathResource(location: string, classLoader: ResourceStreams) {

    function ToString(): string {
      location
    }

    function GetLocation(): string {
      location
    }

    /** The part of the location after its last '/'. */
    function GetFilename(): (fileName: string)
      ensures |fileName| <= |location| && fileName == location[|location| - |fileName|..]
      ensures '/' !in fileName
      ensures |fileName| < |location| ==> location[|location| - |fileName| - 1] == '/'
      ensures '/' !in location ==> fileName == location
    {
      AfterLastSlash(location)
    }

    /** Two resources are equal when their locations are; the class loader plays no part. */
    predicate Equals(other: ClassPathResource) {
      location == other.location
    }

    function HashCode(): int {
      Text.HashCode(location)
    }

    function CompareTo(other: ClassPathResource): int {
      Text.CompareTo(location, other.location)
    }

    /** loadAsString: no stream is an IllegalStateException naming the location. */
    function LoadAsString(): (r: Result<string>)
      ensures classLoader(location).None? ==> r == Err(NoInputStream(location))
      ensures classLoader(location).Some? ==> r == classLoader(location).value
    {
      match classLoader(location)
      case None => Err(NoInputStream(location))
      case Some(content) => content
    }
  }

  /**
   * compareTo is 0 exactly when equals holds, flips sign when the operands are
   * swapped, and equal resources have equal hash codes.
   */
  lemma CompareToConsistentWithEquals(a: ClassPathResource, b: ClassPathResource)
    ensures a.CompareTo(b) == 0 <==> a.Equals(b)
    ensures a.CompareTo(b) == -b.CompareTo(a)
    ensures a.Equals(b) ==> a.HashCode() == b.HashCode()
  {
    CompareToZero(a.location, b.location);
    CompareToAntisymmetric(a.location, b.location);
  }

  /** compareTo orders resources transitively. */
  lemma CompareToTransitive(a: ClassPathResource, b: ClassPathResource, c: ClassPathResource)
    requires a.CompareTo(b) < 0 && b.CompareTo(c) < 0
    ensures a.CompareTo(c) < 0
  {
    Text.CompareToTransitive(a.location, b.location, c.location);
  }

  /** A resource "dir/file" has the file name "file". */
  lemma FilenameOfPath(dir: string, file: string, classLoader: ResourceStreams)
    requires '/' !in file
    ensures ClassPathResource(dir + "/" + file, classLoader).GetFilename() == file
  {
    AfterLastSlashOfPath(dir, file);
  }
}
