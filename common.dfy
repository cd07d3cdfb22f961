/** Types shared by the tag cache and the networking addon. */
module Common {

  /** A namespaced resource location such as `minecraft:register`. */
  datatype Identifier = Identifier(namespace: string, path: string)

  /** A possibly absent value; `None` stands for a Java `null`. */
  datatype Option<T> = None | Some(value: T)

  /** The outcome of a call that may throw: its value, or the class name of what it threw. */
  datatype Outcome<R> = Returned(value: R) | Threw(exception: string)

  const ILLEGAL_ARGUMENT_EXCEPTION: string := "java.lang.IllegalArgumentException"
}
