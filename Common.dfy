/**
 * Result types shared by the emitter and the interpreter. The Python code signals every
 * failure by raising an exception that nothing catches; here each raise becomes an error
 * value that names the exception class.
 */
module Common {

  datatype Option<+T> = None | Some(value: T)

  /** The outcome of an operation that either completes or raises. */
  datatype Outcome<+E> = Pass | Fail(error: E)

  /** A value, or the error raised while computing it. */
  datatype Result<+T, +E> = Ok(value: T) | Err(error: E)

  /** The Python exception classes the generator and the interpreter raise. */
  datatype ErrorKind =
    | TypeError       // blank line, unknown command, wrong token count, bad accessor letters
    | ValueError      // the class name differs from the bound file name
    | KeyError        // superclass or interfaces declared before any class
    | IndexError      // a parameter element without ':'
    | AttributeError  // a declaration before any language command (no generator yet)
}
