/** The values a PHP session holds. */
module Values {

  /** A PHP value as it is kept in a session variable. Floats, arrays and
      objects are carried as opaque `Other` values, told apart by a tag. */
  datatype Value = Null | Bool(b: bool) | Int(i: int) | Str(s: string) | Other(tag: string)

  /** PHP's `false`. The storage returns it for a variable that is not set,
      so a variable that holds `false` cannot be told from a missing one. */
  const False: Value := Bool(false)

  /** A PHP array of session variables, keyed by variable name. */
  type Vars = map<string, Value>
}
