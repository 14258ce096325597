/**
 * The values that travel between the tracker's front end and its backend:
 * decoded JSON values and the request bodies made of them.
 */
module Json {

  datatype Option<+T> = None | Some(value: T)

  /** A decoded JSON value, as far as the backend distinguishes them. `Other`
      stands for floats, booleans, arrays and objects. */
  datatype Value = Int(i: int) | Str(s: string) | Null | Other

  /** A decoded JSON object: each field is present or absent. */
  type Body = map<string, Value>
}
