/**
 * The PHP values that the serializer and the builder receive. A PHP array is
 * an ordered list of key/value pairs; its keys are integers or strings.
 */
module PhpValues {

  datatype Option<+T> = None | Some(value: T)

  /**
   * An array key. PHP would store a decimal string key as an integer; this
   * type does not enforce that (the caller encodes keys).
   */
  datatype Key = IntKey(i: int) | StrKey(s: string)

  /**
   * A PHP value. `Float` carries the text that PHP's `(string)` cast gives
   * for the float, which this model takes as given. `Other` stands for every
   * kind the serializer does not handle (objects, resources, closures).
   */
  datatype Value =
    | Str(s: string)
    | Int(i: int)
    | Float(text: string)
    | Null
    | Bool(b: bool)
    | Arr(entries: seq<(Key, Value)>)
    | Other

  /** PHP's conversion of a value to `bool`, as used by `if ($x)`. */
  predicate Truthy(v: Value)
  {
    match v
    case Str(s) => s != "" && s != "0"
    case Int(i) => i != 0
    case Float(text) => text != "0" && text != "-0"
    case Null => false
    case Bool(b) => b
    case Arr(es) => |es| > 0
    case Other => true
  }

  /** PHP's conversion of an array key to `bool`. */
  predicate KeyTruthy(k: Key)
  {
    match k
    case IntKey(i) => i != 0
    case StrKey(s) => s != "" && s != "0"
  }

  /** PHP's false values: `null`, `false`, zero, the empty string, `'0'` and the empty array. */
  lemma FalseValues(v: Value)
    ensures !Truthy(v) <==> v in {Null, Bool(false), Int(0), Float("0"), Float("-0"), Str(""), Str("0"), Arr([])}
  {
  }

  /** The false keys: `0`, `''` and `'0'`. */
  lemma FalseKeys(k: Key)
    ensures !KeyTruthy(k) <==> k in {IntKey(0), StrKey(""), StrKey("0")}
  {
  }

  /** The key seen as a value, as `toSource($key)` receives it. */
  function KeyValue(k: Key): Value
  {
    match k
    case IntKey(i) => Int(i)
    case StrKey(s) => Str(s)
  }
}
