/**
 * The values a LicenseJet resource holds: the decoded JSON the API returns,
 * as PHP sees it after `json_decode($body, true)`.
 */
module Values {

  datatype Option<T> = None | Some(value: T)

  /** A decoded JSON value; objects become string-keyed maps, arrays lists. */
  datatype Value =
    | Null
    | Bool(b: bool)
    | Int(i: int)
    | Str(s: string)
    | List(elems: seq<Value>)
    | Dict(entries: map<string, Value>)

  /** The attribute array of a resource (a PHP associative array). */
  type Attrs = map<string, Value>

  /**
   * PHP truthiness, as used by `!$x`, `(bool) $x` and `?:`: null, false, 0,
   * the empty string, "0" and the empty array are false.
   */
  predicate Truthy(v: Value)
  {
    match v
    case Null => false
    case Bool(b) => b
    case Int(i) => i != 0
    case Str(s) => s != "" && s != "0"
    case List(xs) => xs != []
    case Dict(m) => m != map[]
  }

  /**
   * PHP 8's loose `$v == 1`: true for `true`, the integer 1 and the string
   * "1"; false for null, `false`, other integers, other strings and arrays.
   */
  predicate EqualsOne(v: Value)
  {
    match v
    case Bool(b) => b
    case Int(i) => i == 1
    case Str(s) => s == "1"
    case _ => false
  }

  /** PHP `is_array`. */
  predicate IsArray(v: Value)
  {
    v.List? || v.Dict?
  }

  /** `$a[$k]` followed by `is_null`: absent keys read as null. */
  function Lookup(a: Attrs, k: string): Value
  {
    if k in a then a[k] else Null
  }

  /** A nullable string as stored in an attribute. */
  function StrOrNull(s: Option<string>): Value
  {
    match s
    case None => Null
    case Some(x) => Str(x)
  }

  /** The list `xs` as a PHP array: keys 0 .. |xs|-1. */
  function Indexed(xs: seq<Value>): map<int, Value>
  {
    map i | 0 <= i < |xs| :: xs[i]
  }

  lemma {:induction false} IndexedCount(xs: seq<Value>)
    ensures |Indexed(xs)| == |xs|
  {
    if xs == [] {
      assert Indexed(xs) == map[];
    } else {
      var init := xs[..|xs| - 1];
      IndexedCount(init);
      assert Indexed(xs) == Indexed(init)[|init| := xs[|xs| - 1]];
      assert |init| !in Indexed(init);
    }
  }
}
