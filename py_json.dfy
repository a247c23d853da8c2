/** The values `json.loads` produces and the Python operations the core applies to them:
    `.get`, `in`, `[...]`, truthiness, `<` against a float threshold and `==`.
    Operations Python would refuse come back as `Failure(str(e))`; the messages are those of
    CPython 3.11 and earlier (from 3.12 on, slicing a dict raises `KeyError` instead). */
module PyJson {
  import opened Wrappers
  import PyDict
  import Text

  datatype Json =
    | JNull
    | JBool(b: bool)
    | JInt(i: int)
    | JFloat(f: real)
    | JStr(s: string)
    | JList(items: seq<Json>)
    | JObject(fields: seq<(string, Json)>)

  type Fields = seq<(string, Json)>

  /** `type(j).__name__` */
  function TypeName(j: Json): string
  {
    match j
    case JNull => "NoneType"
    case JBool(_) => "bool"
    case JInt(_) => "int"
    case JFloat(_) => "float"
    case JStr(_) => "str"
    case JList(_) => "list"
    case JObject(_) => "dict"
  }

  /** The message of the `AttributeError` raised by `j.name` on a value without that attribute. */
  function NoAttribute(j: Json, name: string): string
  {
    "'" + TypeName(j) + "' object has no attribute '" + name + "'"
  }

  /** `bool(j)` */
  predicate Truthy(j: Json)
  {
    match j
    case JNull => false
    case JBool(b) => b
    case JInt(i) => i != 0
    case JFloat(f) => f != 0.0
    case JStr(s) => s != []
    case JList(xs) => xs != []
    case JObject(fs) => fs != []
  }

  /** `j.get(key, default)`: only a dict has `.get`. */
  function Get(j: Json, key: string, default: Json): (r: Result<Json, string>)
    ensures r.Success? <==> j.JObject?
    ensures j.JObject? ==> r.value == PyDict.Lookup(j.fields, key).GetOr(default)
    ensures j.JObject? && key !in PyDict.Keys(j.fields) ==> r.value == default
    ensures !j.JObject? ==> r.error == NoAttribute(j, "get")
  {
    match j
    case JObject(fs) =>
      PyDict.LookupFound(fs, key);
      Success(PyDict.Lookup(fs, key).GetOr(default))
    case _ => Failure(NoAttribute(j, "get"))
  }

  /** `fields.get(key, default)` on a value already known to be a dict. */
  function FieldOr(fields: Fields, key: string, default: Json): Json
  {
    PyDict.Lookup(fields, key).GetOr(default)
  }

  /** `key in j` for a string `key`. */
  function In(key: string, j: Json): (r: Result<bool, string>)
    ensures j.JObject? ==> r == Success(key in PyDict.Keys(j.fields))
    ensures j.JStr? ==> r == Success(Text.Contains(j.s, key))
    ensures j.JList? ==> r == Success(JStr(key) in j.items)
    ensures r.Failure? <==> !(j.JObject? || j.JStr? || j.JList?)
  {
    match j
    case JObject(fs) => Success(key in PyDict.Keys(fs))
    case JStr(s) => Success(Text.Contains(s, key))
    case JList(xs) => Success(JStr(key) in xs)
    case _ => Failure("argument of type '" + TypeName(j) + "' is not iterable")
  }

  /** `j[key]` for a string `key`. */
  function Subscript(j: Json, key: string): (r: Result<Json, string>)
    ensures r.Success? <==> j.JObject? && key in PyDict.Keys(j.fields)
    ensures r.Success? ==> PyDict.Lookup(j.fields, key) == Some(r.value)
  {
    match j
    case JObject(fs) =>
      PyDict.LookupFound(fs, key);
      (match PyDict.Lookup(fs, key)
       case Some(v) => Success(v)
       case None => Failure("'" + key + "'"))
    case JList(_) => Failure("list indices must be integers or slices, not str")
    case JStr(_) => Failure("string indices must be integers, not 'str'")
    case _ => Failure("'" + TypeName(j) + "' object is not subscriptable")
  }

  /** The numeric value of a `bool`, `int` or `float`. */
  function AsNumber(j: Json): Option<real>
  {
    match j
    case JBool(b) => Some(if b then 1.0 else 0.0)
    case JInt(i) => Some(i as real)
    case JFloat(f) => Some(f)
    case _ => None
  }

  /** `j < threshold` for a float `threshold`: only numbers (and booleans) compare. */
  function LessThan(j: Json, threshold: real): (r: Result<bool, string>)
    ensures r.Success? <==> AsNumber(j).Some?
    ensures r.Success? ==> (r.value <==> AsNumber(j).value < threshold)
  {
    match AsNumber(j)
    case Some(x) => Success(x < threshold)
    case None => Failure("'<' not supported between instances of '" + TypeName(j) + "' and 'float'")
  }

  /** Python's `a == b`: numbers compare by value across `bool`, `int` and `float`;
      dicts compare regardless of key order. */
  predicate PyEq(a: Json, b: Json)
    decreases a
  {
    if AsNumber(a).Some? || AsNumber(b).Some? then AsNumber(a) == AsNumber(b)
    else match a
      case JNull => b.JNull?
      case JStr(s) => b.JStr? && b.s == s
      case JList(xs) =>
        b.JList? && |xs| == |b.items| && forall i :: 0 <= i < |xs| ==> PyEq(xs[i], b.items[i])
      case JObject(fs) =>
        b.JObject? && |fs| == |b.fields|
        && forall i :: 0 <= i < |fs| ==>
             PyDict.Lookup(b.fields, fs[i].0).Some? && PyEq(fs[i].1, PyDict.Lookup(b.fields, fs[i].0).value)
      case _ => false
  }

  /** A string equals only the same string. */
  lemma PyEqStr(a: Json, s: string)
    ensures PyEq(a, JStr(s)) <==> a == JStr(s)
  {
  }
  /** `j[:n]` for `n >= 0`: only strings and lists slice. A dict fails with the CPython 3.11
      message; CPython 3.12 and later fail with `KeyError(slice(None, n, None))` instead. */
  function SliceTo(j: Json, n: nat): (r: Result<Json, string>)
    ensures r.Success? <==> j.JStr? || j.JList?
    ensures j.JStr? ==> r == Success(JStr(Text.Take(j.s, n)))
    ensures j.JList? ==> r == Success(JList(Text.Take(j.items, n)))
  {
    match j
    case JStr(s) => Success(JStr(Text.Take(s, n)))
    case JList(xs) => Success(JList(Text.Take(xs, n)))
    case JObject(_) => Failure("unhashable type: 'slice'")
    case _ => Failure("'" + TypeName(j) + "' object is not subscriptable")
  }

  /** `str(j)` as an f-string renders it: a string is itself, anything else is rendered by `show`. */
  function Str(j: Json, show: Json -> string): string
  {
    if j.JStr? then j.s else show(j)
  }

  /** The items `for x in j` visits: the characters of a string, the items of a list,
      the keys of a dict; other values are not iterable. */
  function Iterate(j: Json): (r: Option<seq<Json>>)
    ensures r.Some? <==> j.JStr? || j.JList? || j.JObject?
    ensures j.JList? ==> r == Some(j.items)
  {
    match j
    case JStr(s) => Some(seq(|s|, i requires 0 <= i < |s| => JStr([s[i]])))
    case JList(xs) => Some(xs)
    case JObject(fs) => Some(seq(|fs|, i requires 0 <= i < |fs| => JStr(fs[i].0)))
    case _ => None
  }

  /** The strings of `xs`, or the `TypeError` of the first item that is not one; `offset` is the
      index of `xs[0]` in the whole sequence. */
  function StrItems(xs: seq<Json>, offset: nat): (r: Result<seq<string>, string>)
    ensures r.Success? <==> forall i :: 0 <= i < |xs| ==> xs[i].JStr?
    ensures r.Success? ==> |r.value| == |xs| && forall i :: 0 <= i < |xs| ==> r.value[i] == xs[i].s
    ensures r.Failure? ==> exists k :: 0 <= k < |xs| && !xs[k].JStr? && (forall i :: 0 <= i < k ==> xs[i].JStr?)
                                       && r.error == "sequence item " + Text.NatToString(offset + k) + ": expected str instance, " + TypeName(xs[k]) + " found"
    decreases |xs|
  {
    if xs == [] then Success([])
    else if !xs[0].JStr? then
      Failure("sequence item " + Text.NatToString(offset) + ": expected str instance, " + TypeName(xs[0]) + " found")
    else
      var rest :- StrItems(xs[1..], offset + 1);
      assert forall i :: 1 <= i < |xs| ==> xs[i] == xs[1..][i - 1];
      Success([xs[0].s] + rest)
  }

  /** `sep.join(j)`. */
  function StrJoin(sep: string, j: Json): (r: Result<string, string>)
    ensures Iterate(j).None? ==> r == Failure("can only join an iterable")
  {
    match Iterate(j)
    case None => Failure("can only join an iterable")
    case Some(xs) =>
      var strs :- StrItems(xs, 0);
      Success(Text.Join(strs, sep))
  }

  /** Joining a list of strings with a separator none of them contains can be undone by
      splitting: `sep.join(steps).split(sep) == steps`. */
  lemma StrJoinSplit(steps: seq<string>, sep: char)
    requires |steps| >= 1 && forall i :: 0 <= i < |steps| ==> sep !in steps[i]
    ensures var items := seq(|steps|, i requires 0 <= i < |steps| => JStr(steps[i]));
            StrJoin([sep], JList(items)).Success?
            && Text.SplitOn(StrJoin([sep], JList(items)).value, sep) == steps
  {
    var items := seq(|steps|, i requires 0 <= i < |steps| => JStr(steps[i]));
    var strs := StrItems(items, 0).value;
    assert strs == steps;
    Text.SplitJoin(steps, sep);
  }

  /** A list holding a non-string makes `join` fail, naming the first such item. */
  lemma StrJoinRejects(sep: string, xs: seq<Json>, k: nat)
    requires k < |xs| && !xs[k].JStr? && forall i :: 0 <= i < k ==> xs[i].JStr?
    ensures StrJoin(sep, JList(xs))
         == Failure("sequence item " + Text.NatToString(k) + ": expected str instance, " + TypeName(xs[k]) + " found")
  {
    var r := StrItems(xs, 0);
    assert r.Failure?;
    var k' :| 0 <= k' < |xs| && !xs[k'].JStr? && (forall i :: 0 <= i < k' ==> xs[i].JStr?)
              && r.error == "sequence item " + Text.NatToString(k') + ": expected str instance, " + TypeName(xs[k']) + " found";
    assert !(k' < k) && !(k < k');
  }
}
