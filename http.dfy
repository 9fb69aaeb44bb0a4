/** Values the route handlers receive from a parsed JSON request body, how
    JavaScript treats them (truthiness, template interpolation), how the
    SQLite driver binds them, and the shape of an HTTP response. */
module Http {

  datatype Option<T> = None | Some(value: T)

  /** A request-body property as a handler reads it: absent (`undefined`),
      an explicit JSON `null`, or a string. */
  datatype Field = Undefined | Null | Str(s: string)

  /** JavaScript truthiness of a field: only a non-empty string is truthy. */
  predicate Truthy(f: Field)
  {
    f.Str? && f.s != ""
  }

  /** The text a template literal `${f}` produces for the field. */
  function Interpolate(f: Field): string
  {
    match f
    case Undefined => "undefined"
    case Null => "null"
    case Str(s) => s
  }

  /** The SQL value the driver stores for a bound parameter: `undefined` and
      `null` both become NULL. */
  function Bind(f: Field): Option<string>
  {
    if f.Str? then Some(f.s) else None
  }

  /** An HTTP response: a status code and a JSON body of the route's own type. */
  datatype Response<B> = Response(status: int, body: B)
}
