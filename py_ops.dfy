/**
 * The Python built-ins the converters apply to parsed documents: truth
 * tests, `d.get(k, default)`, `d[k]`, iteration, `in`, `int()` and
 * `float()`, each with the exception it raises on a value of the wrong kind.
 */
module PyOps {
  import opened Wrappers
  import opened Text
  import opened Values

  /** Python truthiness. */
  predicate Truthy(v: Value) {
    match v
    case Null => false
    case Bool(b) => b
    case Int(i) => i != 0
    case Real(d) => !DecIsZero(d)
    case Str(s) => |s| > 0
    case Time(_) => true
    case Moment(_) => true
    case List(items) => |items| > 0
    case Obj(fields) => |fields| > 0
  }

  /** `v.get(key, default)`: only a dict has `get`. */
  function GetOr(v: Value, key: string, default: Value): (r: Result<Value, Fault>)
    ensures r.Ok? <==> v.Obj?
    ensures v.Obj? && HasKey(v.fields, key) ==> r == Ok(Lookup(v.fields, key).value)
    ensures v.Obj? && !HasKey(v.fields, key) ==> r == Ok(default)
  {
    if !v.Obj? then Err(Raised("AttributeError", "object has no attribute 'get'"))
    else Ok(Lookup(v.fields, key).UnwrapOr(default))
  }

  /** `d[key]` on a dict: a missing key raises KeyError. */
  function Item(d: Fields, key: string): (r: Result<Value, Fault>)
    ensures r.Ok? <==> HasKey(d, key)
    ensures r.Ok? ==> Lookup(d, key) == Some(r.value)
  {
    match Lookup(d, key)
    case None => Err(Raised("KeyError", key))
    case Some(v) => Ok(v)
  }

  /** `v[key]` on any value: a dict looks the key up, anything else cannot be indexed by a string. */
  function Subscript(v: Value, key: string): (r: Result<Value, Fault>)
    ensures r.Ok? <==> v.Obj? && HasKey(v.fields, key)
  {
    if v.Obj? then Item(v.fields, key) else Err(Raised("TypeError", "object is not subscriptable"))
  }

  /** `v[i]` with a non-negative int index: a list's item, a str's character; a dict has no int keys here. */
  function Index(v: Value, i: nat): (r: Result<Value, Fault>)
    ensures v.List? ==> (r.Ok? <==> i < |v.items|)
    ensures v.List? && i < |v.items| ==> r == Ok(v.items[i])
    ensures v.List? && i >= |v.items| ==> r == Err(Raised("IndexError", "list index out of range"))
    ensures r.Ok? ==> v.List? || v.Str?
    ensures r.Err? ==> r.error.Raised?
  {
    match v
    case List(items) => if i < |items| then Ok(items[i]) else Err(Raised("IndexError", "list index out of range"))
    case Str(s) => if i < |s| then Ok(Str([s[i]])) else Err(Raised("IndexError", "string index out of range"))
    case Obj(_) => Err(Raised("KeyError", IntToString(i)))
    case _ => Err(Raised("TypeError", "object is not subscriptable"))
  }

  /** The keys of a dict, as `for k in d` yields them. */
  function Keys(fields: Fields): (r: seq<Value>)
    ensures |r| == |fields| && forall i :: 0 <= i < |fields| ==> r[i] == Str(fields[i].0)
  {
    seq(|fields|, i requires 0 <= i < |fields| => Str(fields[i].0))
  }

  /** `for x in v`: a list yields its items, a dict its keys, a string its characters. */
  function Iterate(v: Value): (r: Result<seq<Value>, Fault>)
    ensures v.List? ==> r == Ok(v.items)
    ensures v.Obj? ==> r == Ok(Keys(v.fields))
    ensures r.Ok? <==> v.List? || v.Obj? || v.Str?
  {
    match v
    case List(items) => Ok(items)
    case Obj(fields) => Ok(Keys(fields))
    case Str(s) => Ok(seq(|s|, i requires 0 <= i < |s| => Str([s[i]])))
    case _ => Err(Raised("TypeError", "object is not iterable"))
  }

  /** `x in v`: list membership, substring, or dict key. */
  function In(x: Value, v: Value): (r: Result<bool, Fault>)
    ensures v.List? ==> r == Ok(x in v.items)
    ensures v.Obj? && x.Str? ==> r == Ok(HasKey(v.fields, x.s))
    ensures v.Str? && x.Str? ==> r == Ok(Contains(v.s, x.s))
    ensures x.Str? ==> (r.Ok? <==> v.List? || v.Obj? || v.Str?)
    ensures !v.List? && !v.Obj? && !v.Str? ==> r.Err?
  {
    match v
    case List(items) => Ok(x in items)
    case Obj(fields) => if x.Str? then Ok(HasKey(fields, x.s)) else Ok(false)
    case Str(s) => if x.Str? then Ok(Contains(s, x.s)) else Err(Raised("TypeError", "'in <string>' requires string as left operand"))
    case _ => Err(Raised("TypeError", "argument of type is not iterable"))
  }

  /** A decimal truncated toward zero, as `int()` truncates a float. */
  function Truncate(d: Decimal): (r: int)
    ensures Abs(r) * Pow10(d.scale) <= Abs(d.digits) < (Abs(r) + 1) * Pow10(d.scale)
    ensures d.digits >= 0 ==> r >= 0
    ensures d.digits < 0 ==> r <= 0
  {
    var n := Abs(d.digits);
    var p := Pow10(d.scale);
    var q := n / p;
    DivBounds(n, p);
    if d.digits >= 0 then q else -q
  }

  lemma DivBounds(n: nat, p: nat)
    requires p >= 1
    ensures 0 <= n / p
    ensures (n / p) * p <= n < (n / p + 1) * p
  {
  }

  /** `int(v)`. */
  function IntOf(v: Value): (r: Result<int, Fault>)
    ensures v.Int? ==> r == Ok(v.i)
    ensures v.Null? || v.List? || v.Obj? ==> r.Err? && r.error.Raised? && r.error.kind == "TypeError"
    ensures v.Str? ==> (r.Ok? <==> ParseInt(v.s).Some?)
    ensures r.Err? ==> r.error.Raised?
  {
    match v
    case Int(i) => Ok(i)
    case Bool(b) => Ok(if b then 1 else 0)
    case Real(d) => Ok(Truncate(d))
    case Str(s) => if ParseInt(s).Some? then Ok(ParseInt(s).value) else Err(Raised("ValueError", "invalid literal for int()"))
    case _ => Err(Raised("TypeError", "int() argument must be a string or a number"))
  }

  /** `float(v)`, over exact decimals. */
  function FloatOf(v: Value): (r: Result<Decimal, Fault>)
    ensures v.Int? ==> r == Ok(DecOfInt(v.i))
    ensures v.Real? ==> r == Ok(v.d)
    ensures v.Null? || v.List? || v.Obj? ==> r.Err? && r.error.Raised? && r.error.kind == "TypeError"
    ensures r.Err? ==> r.error.Raised?
  {
    match v
    case Int(i) => Ok(DecOfInt(i))
    case Bool(b) => Ok(DecOfInt(if b then 1 else 0))
    case Real(d) => Ok(d)
    case Str(s) => if ParseDecimal(s).Some? then Ok(ParseDecimal(s).value) else Err(Raised("ValueError", "could not convert string to float"))
    case _ => Err(Raised("TypeError", "float() argument must be a string or a number"))
  }

  /** `int(str(i))` gives `i` back. */
  lemma IntOfIntString(i: int)
    ensures IntOf(Str(IntToString(i))) == Ok(i)
  {
    ParseIntOfString(i);
  }
}
