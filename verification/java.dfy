/**
 * The few shapes of the Java runtime that the plugin relies on: optional
 * (nullable) values, bytes, class-path URLs, thrown exceptions, class
 * identities and the thread that carries the context class loader.
 */
module Java {

  datatype Option<T> = None | Some(value: T)

  newtype byte = x: int | 0 <= x < 256

  /** A class-path location, as produced by new File(s).toURI().toURL(). */
  datatype Url = Url(spec: string)

  /**
   * What a Java statement can throw, sorted the way the plugin's catch
   * clauses sort it: IOException is isolated per type, every other
   * java.lang.Exception is wrapped, and a java.lang.Error is caught by neither.
   */
  datatype Thrown =
    | IOException(message: string)
    | OtherException(message: string)
    | JavaError(message: string)

  /** String concatenation renders a null reference as "null". */
  function StringValueOf(s: Option<string>): string
  {
    match s
    case None => "null"
    case Some(v) => v
  }

  /**
   * A loaded class. Two Clazz references are the same class exactly when
   * they are the same object, as with java.lang.Class.
   */
  class Clazz {
    const name: string
    const origin: Url

    constructor (name: string, origin: Url)
      ensures this.name == name && this.origin == origin
    {
      this.name := name;
      this.origin := origin;
    }
  }

  /** The current thread; only its context class loader is modelled. */
  class JavaThread {
    var contextClassLoader: object?
  }
}
