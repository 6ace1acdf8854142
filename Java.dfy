/** The few Java library values the agent's code handles: optional (nullable)
    references, results that may carry a thrown exception, and the exception
    kinds raised by the agent's class initialiser and transform method. */
module Java {

  /** A reference that may be null. */
  datatype Option<+T> = None | Some(value: T)

  /** The outcome of a call that either returns a value or throws. */
  datatype Result<+T, +E> = Ok(value: T) | Err(error: E)

  /** java.io.IOException with its detail message and optional cause. */
  datatype IOException = IOException(message: string, cause: Option<IOException>)

  /** The exceptions that can escape the code that is modelled. */
  datatype Throwable =
    | Checked(io: IOException)  // a thrown java.io.IOException
    | NullPointerException

  /** java.lang.ExceptionInInitializerError: the error that marks a class
      whose static initialiser failed; such a class can never be used. */
  datatype InitError = ExceptionInInitializerError(cause: Throwable)
}
