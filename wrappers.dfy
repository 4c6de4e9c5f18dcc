/** Failure-carrying datatypes shared by every module, and the Java
    throwables that the modelled code raises, catches and rethrows. */
module Wrappers {

  /** A Java reference that may be null. */
  datatype Option<+T> = None | Some(value: T)

  /** The value a Java call returns, or what it throws. */
  datatype Result<+T, +E> = Success(value: T) | Failure(error: E)

  /** A Java call that returns nothing, or what it throws. */
  datatype Outcome<+E> = Pass | Fail(error: E)

  /** A Java throwable, by its class and message. Two throwables are the
      same object exactly when they are equal values. */
  datatype Throwable = Throwable(className: string, message: string)

  /** `new Exception(message)`. */
  function ExceptionOf(message: string): Throwable
  {
    Throwable("java.lang.Exception", message)
  }

  /** `new IllegalArgumentException(message)`, thrown by Spring's `Assert.notNull`,
      by `Random.nextInt(0)` and by `Executors.newFixedThreadPool(n)` for `n <= 0`. */
  function IllegalArgument(message: string): Throwable
  {
    Throwable("java.lang.IllegalArgumentException", message)
  }

  /** A `NullPointerException` thrown by the JVM (no message). */
  function NullPointer(): Throwable
  {
    Throwable("java.lang.NullPointerException", "")
  }
}
