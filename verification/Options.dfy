/** What the components of this model share. */
module Options {
  /** A value that may be absent: a missing file, an empty answer, no match. */
  datatype Option<+T> = None | Some(value: T)

  /** Writing a file in place: all of it; not begun; torn after the truncation; complete, but the mode could not be
      set. */
  datatype Writing = Written | NotBegun | Torn | ModeFailed

  predicate OnFile(how: Writing) { how == Written || how == ModeFailed }

  /** What a reader finds in a file that held `before`; torn content is no record. */
  function FileAfter<T>(before: Option<T>, content: T, how: Writing): Option<T> {
    match how
    case Written | ModeFailed => Some(content)
    case NotBegun => before
    case Torn => None
  }
}
