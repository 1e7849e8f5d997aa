/** The exceptions the error model carries, reduced to what it observes of them. */
module Faults {

  /** An `Exception`: the name of its runtime type (`GetType().Name`) and its `Message`. */
  datatype Cause = Cause(typeName: string, message: string)

  /** The type name of `System.InvalidOperationException`. */
  const InvalidOperationTypeName: string := "InvalidOperationException"
}
