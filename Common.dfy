/** Failure-carrying wrappers and the errors the migration raises. */
module Common {

  datatype Option<+T> = None | Some(value: T)

  /** The outcome of an operation that either returns a value or raises. */
  datatype Result<+R> = Ok(value: R) | Err(error: Error) {
    predicate IsFailure() { Err? }
    function PropagateFailure<U>(): Result<U>
      requires Err?
    {
      Err(error)
    }
    function Extract(): R
      requires Ok?
    {
      value
    }
  }

  /** The outcome of an operation that returns nothing or raises. */
  datatype Outcome = Pass | Fail(error: Error)

  /**
   * The exceptions of the migration, one constructor per place the program
   * raises or lets an exception escape. The Python exception class is noted
   * beside each.
   */
  datatype Error =
    | MissingKey(key: string)                       // KeyError: a dict or listing without that key
    | UnknownKind(kind: string)                     // KeyError: a kind outside ids_to_map
    | UnmappedId(tag: string, text: Option<string>) // ValueError: no identifier mapping for a remapped child
    | UriMismatch(sourcePath: string, uri: string)  // ValueError: URI does not contain the source root
    | MissingDatatypes(missing: set<string>)        // ValueError: source datatypes not enabled on destination
    | UnsupportedDatatype(xsiType: string)          // RuntimeError: experiment type unknown to destination
    | SourceNotFound(project: string)               // HTTPError: the source project record cannot be fetched
    | EmptyProjectList                              // IndexError: no project pair at all
    | UnequalLengths                                // ValueError: zip(strict=True) over lists of different length
    | MissingAttribute(name: string)                // AttributeError: an attribute or method the object lacks
}
