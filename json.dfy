/** JSON values as Python sees them after `json.loads`: the request bodies and the constraint
  * templates are kept in this untyped form because the code inspects their shape. */
module Json {
  import opened Wrappers
  import opened Texts

  datatype Json =
    | JNull
    | JBool(b: bool)
    | JNum(r: real)
    | JStr(s: string)
    | JArr(a: seq<Json>)
    | JObj(o: map<string, Json>)

  /** Python's `type(v).__name__` for a decoded JSON value. */
  function TypeName(v: Json): string {
    match v
    case JNull => "NoneType"
    case JBool(_) => "bool"
    case JNum(_) => "float"
    case JStr(_) => "str"
    case JArr(_) => "list"
    case JObj(_) => "dict"
  }

  /** Python's `key in v`: a dict tests its keys, a list its elements, a string its substrings;
    * the other values are not iterable. */
  function In(key: string, v: Json): (r: Result<bool>)
    ensures r.Err? <==> v.JNull? || v.JBool? || v.JNum?
    ensures v.JObj? ==> r == Ok(key in v.o)
  {
    match v
    case JObj(o) => Ok(key in o)
    case JArr(a) => Ok(JStr(key) in a)
    case JStr(s) => Ok(Contains(s, key))
    case _ => Err(TypeError("argument of type '" + TypeName(v) + "' is not iterable"))
  }

  /** Python's `v[key]` with a string key. */
  function Index(v: Json, key: string): (r: Result<Json>)
    ensures r.Ok? <==> v.JObj? && key in v.o
  {
    match v
    case JObj(o) => if key in o then Ok(o[key]) else Err(KeyError(key))
    case JArr(_) => Err(TypeError("list indices must be integers or slices, not str"))
    case JStr(_) => Err(TypeError("string indices must be integers"))
    case _ => Err(TypeError("'" + TypeName(v) + "' object is not subscriptable"))
  }

  /** Python's `float(v)` on a decoded value: numbers and booleans convert, a string converts when
    * it spells a decimal, the rest raise. */
  function ToFloat(v: Json): (r: Result<real>)
    ensures v.JNum? ==> r == Ok(v.r)
    ensures v.JStr? ==> (r.Ok? <==> ParseFloat(v.s).Some?) && (r.Ok? ==> r.value == ParseFloat(v.s).value)
    ensures v.JStr? && r.Err? ==> r.error.ValueError?
    ensures v.JNull? || v.JArr? || v.JObj? ==> r.Err? && r.error.TypeError?
  {
    match v
    case JNum(x) => Ok(x)
    case JBool(b) => Ok(if b then 1.0 else 0.0)
    case JNull => Err(TypeError("float() argument must be a string or a real number, not 'NoneType'"))
    case JStr(s) =>
      (match ParseFloat(s)
       case Some(x) => Ok(x)
       case None => Err(ValueError("could not convert string to float: " + Quote(s))))
    case _ => Err(TypeError("float() argument must be a string or a real number, not '" + TypeName(v) + "'"))
  }

  /** `float(str(n))` is `n`, and `float("-" + str(n))` is `-n`. */
  lemma ToFloatNat(n: nat)
    ensures ToFloat(JStr(NatToString(n))) == Ok(n as real)
    ensures ToFloat(JStr("-" + NatToString(n))) == Ok(-(n as real))
  {
    ParseFloatNat(n);
  }
}
