/** The PHP values that can appear in a log record's context and extra arrays. */
module PhpValues {

  /** A PHP value. Arrays are string-keyed (a log context is an associative array);
      a date-time object is opaque and identified by the instant it denotes. Any other
      value (a float, an exception or other object, a resource) is `Opaque`: the
      handler only ever copies such values, so their identity is all that matters. */
  datatype Value =
    | Null
    | Bool(flag: bool)
    | Int(number: int)
    | Str(text: string)
    | Array(entries: map<string, Value>)
    | DateTime(instant: int)
    | Opaque(identity: int)

  /** An associative PHP array, such as a record's context or its extra data. */
  type Context = map<string, Value>

  /** PHP's `isset($array[$key])`: the key is present and its value is not `null`. */
  predicate IsSet(m: Context, key: string) {
    key in m && !m[key].Null?
  }
}
