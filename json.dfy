/** The JSON document tree that project.json files are parsed into, and the
    failures that the migration can run into while it rewrites such a tree. */
module JsonTree {

  /** A JSON value. Numbers are kept as their literal text: the migration
      moves them around but never looks inside them. */
  datatype Json =
    | JObject(props: seq<Property>)
    | JArray(items: seq<Json>)
    | JString(s: string)
    | JNumber(literal: string)
    | JBool(b: bool)
    | JNull

  /** One name/value pair of an object, in the order the object keeps them. */
  datatype Property = Property(name: string, value: Json)

  datatype Option<+T> = None | Some(value: T)

  /** The exceptions the migration can raise; each one aborts the run. */
  datatype Error =
    | NotAnObject(name: string)   // a cast to an object of a value that is not one
    | DuplicateName(name: string) // adding a name the object already holds
    | MissingFrameworks           // enumerating the properties of an absent "frameworks"

  datatype Result<+T> = Ok(value: T) | Err(error: Error) {
    predicate IsFailure() { Err? }

    function PropagateFailure<U>(): Result<U>
      requires Err?
    {
      Err(error)
    }

    function Extract(): T
      requires Ok?
    {
      value
    }
  }

  /** What a step that only changes a tree reports. */
  datatype Outcome = Pass | Fail(error: Error)
}
