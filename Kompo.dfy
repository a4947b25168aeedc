/** Shared vocabulary of the Kompo model: optional values, results, the dynamic
    values the PHP code passes around, and PHP's notion of truthiness. */
module Kompo {

  datatype Option<+T> = None | Some(value: T) {
    /** `$x ?? $default` */
    function GetOr(default: T): T {
      match this
      case Some(v) => v
      case None => default
    }
  }

  datatype Result<+R, +E> = Ok(value: R) | Err(error: E)

  /** A dynamic value held by a field, a request bag or a record attribute.
      PHP arrays appear in their two common shapes: lists (keys 0..n-1) and
      string-keyed dictionaries. Floats are not modelled. */
  datatype Value =
    | Null
    | Bool(b: bool)
    | Int(i: int)
    | Str(s: string)
    | List(items: seq<Value>)
    | Dict(entries: map<string, Value>)
    | Record(attributes: map<string, Value>, keyName: string)  // an Eloquent model instance
    | Other(tag: nat)                                          // any other object

  /** A string that PHP reads as true: neither "" nor "0". */
  predicate StrTruthy(s: string) {
    s != "" && s != "0"
  }

  /** PHP's conversion of a value to bool (`if ($v)`, `$v ?: $w`, `!$v`). */
  predicate Truthy(v: Value) {
    match v
    case Null => false
    case Bool(b) => b
    case Int(i) => i != 0
    case Str(s) => StrTruthy(s)
    case List(xs) => xs != []
    case Dict(m) => m != map[]
    case Record(_, _) => true
    case Other(_) => true
  }

  /** An optional string setting (`$this->optionsKey`) read as a boolean. */
  predicate OptTruthy(s: Option<string>) {
    s.Some? && StrTruthy(s.value)
  }

  /** `$v->{$key}`: an attribute of a record, null when it is absent or when
      `$v` has no such property. */
  function Prop(v: Value, key: string): Value {
    match v
    case Record(attrs, _) => if key in attrs then attrs[key] else Null
    case _ => Null
  }

  /** Lookup in a request or array bag: `$bag[$key] ?? null`. */
  function Lookup(bag: map<string, Value>, key: string): Value {
    if key in bag then bag[key] else Null
  }

  /** The three kinds of Komposer the framework boots. */
  datatype KomposerType = Form | Query | Menu
}
