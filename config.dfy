/**
  Driver configuration: a PHP array from string keys to scalar values.
 */
module Config {

  import opened Strings

  /** The values a configuration entry can hold. */
  datatype Value = Null | Str(s: string) | Int(i: int)

  type Config = map<string, Value>

  /** PHP's conversion of a value to a string, as concatenation does it (null is ""). */
  function Text(v: Value): string
  {
    match v
    case Null => ""
    case Str(s) => s
    case Int(i) => IntToDec(i)
  }

  /** `$config[key]` used as a string; a missing key reads as null (with a PHP warning). */
  function Get(config: Config, key: string): string
  {
    if key in config then Text(config[key]) else ""
  }
}
