/** Shared vocabulary: optional values, document ids, HTTP replies and
    JavaScript truthiness of the values the handlers inspect. */
module Base {

  /** A value that may be missing. On a required path of a request body
      `None` is a path left out or sent as `null`, which the `required`
      check refuses alike; Number paths with a default tell the two apart
      (`NumberField`). On a signup's `status`, which has a default, `None`
      is a path left out: no route sends a `null` status, so that case is
      not modelled. */
  datatype Option<+T> = None | Some(value: T)

  /** A Number path of a request body: left out, `null`, or a number.
      Mongoose fills in a path's default only when the path is left out. */
  datatype NumberField = Absent | Null | Number(n: int)

  /** An ObjectId. The store draws every new id from a counter. */
  type Id = nat

  /** One path that failed Mongoose validation, in the order of the schema. */
  datatype ValidationError =
    | Required(path: string)
    | NotInEnum(path: string, value: string)

  /** The JSON body of a reply: a document, a `{ message }` object, or the
      `{ message }` object Mongoose builds from a failed validation. */
  datatype Body<+T> =
    | Json(value: T)
    | Message(text: string)
    | Invalid(errors: seq<ValidationError>)

  datatype Response<+T> = Response(status: nat, body: Body<T>)

  /** What `Model.create` does with a document: it stores the record built
      from it, or rejects it with the paths that failed validation. */
  datatype Outcome<+T> = Created(value: T) | Rejected(errors: seq<ValidationError>)

  /** Mongoose's `required` check on a String path: the value is present and
      not the empty string. */
  predicate Filled(o: Option<string>)
  {
    o.Some? && |o.value| > 0
  }

  /** The value of an optional path, or the schema's default when absent. */
  function WithDefault<T>(o: Option<T>, default: T): T
  {
    if o.Some? then o.value else default
  }

  /** A JavaScript string value is truthy iff it is present and not "". */
  predicate TruthyString(o: Option<string>)
  {
    o.Some? && o.value != ""
  }

  /** `a || b` on two optional strings. */
  function OrString(a: Option<string>, b: Option<string>): Option<string>
  {
    if TruthyString(a) then a else b
  }

  /** `a || b` when `a` is an array: every present array, even `[]`, is truthy. */
  function OrArray<T>(a: Option<seq<T>>, b: Option<seq<T>>): Option<seq<T>>
  {
    if a.Some? then a else b
  }
}
