/** Option and Result, and the exceptions of the scanner as error values. */
module Wrappers {

  datatype Option<+T> = None | Some(value: T)

  /** The exceptions the scanner lets escape, one constructor per kind. */
  datatype Error =
    | UnknownLocationPrefix(descriptor: string)  // IllegalStateException from the Location constructor
    | NoBundleId(host: string)                   // IllegalArgumentException from the OSGi bundle id parser
    | NoInputStream(location: string)            // IllegalStateException from ClassPathResource.loadAsString
    | IndexOutOfBounds                           // StringIndexOutOfBoundsException from a substring
    | IOFailure(detail: string)                  // IOException from the class loader or a backend listing
    | VfsResolveFailure                          // RuntimeException from the JBoss VFS v2 URL resolver
    | ClassLinkageFailure(className: string)     // a loadClass failure other than the two that are ignored

  datatype Result<+T> = Ok(value: T) | Err(error: Error) {

    predicate IsFailure() {
      Err?
    }

    function PropagateFailure<U>(): Result<U>
      requires Err?
    {
      Err(error)
    }

    function Extract(): T
      requires Ok?
    {
      value
    }
  }
}
