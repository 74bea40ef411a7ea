/**
 * The encoder and decoder of script values: results are wrapped for the wire, with nodes replaced
 * by ids of the element cache, and arguments are unwrapped again. Wrapping fills and sweeps the
 * cache while it goes; unwrapping removes the ids it finds stale.
 */
module WrapValues {
  import opened Sequences
  import opened ElementCaches

  const ELEMENT_KEY := "ELEMENT"
  const W3C_ELEMENT_KEY := "element-6066-11e4-a52e-4f735466cecf"
  const WINDOW_KEY := "WINDOW"

  /** A value without cycles. An object is its own keys, in order, and their values. */
  datatype Value =
    | Undefined
    | Null
    | Bool(b: bool)
    | Num(n: int)
    | Str(s: string)
    | Function(source: string)
    | Node(node: NodeId)
    | Arr(items: seq<Value>)
    | Obj(names: seq<string>, values: seq<Value>)

  datatype Json =
    | JNull
    | JBool(b: bool)
    | JNum(n: int)
    | JStr(s: string)
    | JArr(items: seq<Json>)
    | JObj(names: seq<string>, items: seq<Json>)

  datatype Result<+T> = Ok(value: T) | Fail(cause: Lookup)

  // ---------------------------------------------------------------------------------------------
  // Wrapping
  // ---------------------------------------------------------------------------------------------

  function Handle(key: string): Json
  {
    JObj([ELEMENT_KEY, W3C_ELEMENT_KEY], [JStr(key), JStr(key)])
  }

  ghost function Wrap(v: Value, c: Cache, d: Dom): (Json, Cache)
    requires Forest(d)
  {
    match v
    case Undefined => (JNull, c)
    case Null => (JNull, c)
    case Bool(b) => (JBool(b), c)
    case Num(n) => (JNum(n), c)
    case Str(s) => (JStr(s), c)
    case Function(source) => (JStr(source), c)
    case Node(n) => var (c', key) := Add(c, d, n); (Handle(key), c')
    case Arr(items) => var (js, c') := WrapAll(items, c, d); (JArr(js), c')
    case Obj(names, values) => var (js, c') := WrapAll(values, c, d); (JObj(names, js), c')
  }

  ghost function WrapAll(vs: seq<Value>, c: Cache, d: Dom): (r: (seq<Json>, Cache))
    requires Forest(d)
    ensures |r.0| == |vs|
  {
    if vs == [] then ([], c)
    else
      var (js, c1) := WrapAll(vs[..|vs| - 1], c, d);
      var (j, c2) := Wrap(vs[|vs| - 1], c1, d);
      (js + [j], c2)
  }

  // ---------------------------------------------------------------------------------------------
  // Unwrapping
  // ---------------------------------------------------------------------------------------------

  /** The property `key` of an object. */
  function FieldOf(names: seq<string>, items: seq<Json>, key: string): Option<Json>
  {
    if names == [] || items == [] then None
    else if names[0] == key then Some(items[0])
    else FieldOf(names[1..], items[1..], key)
  }

  /** The property whose value a wrapped handle is looked up by. */
  function HandleKey(names: seq<string>, items: seq<Json>): Option<Json>
  {
    if FieldOf(names, items, ELEMENT_KEY).Some? then FieldOf(names, items, ELEMENT_KEY)
    else if FieldOf(names, items, W3C_ELEMENT_KEY).Some? then FieldOf(names, items, W3C_ELEMENT_KEY)
    else FieldOf(names, items, WINDOW_KEY)
  }

  /** The string a value becomes where a key is expected. */
  function Text(j: Json): string
  {
    match j
    case JNull => "null"
    case JBool(b) => if b then "true" else "false"
    case JNum(n) => if n < 0 then "-" + Decimal(-n) else Decimal(n)
    case JStr(s) => s
    case JArr(items) => Joined(items)
    case JObj(_, _) => "[object Object]"
  }

  function Joined(js: seq<Json>): string
  {
    if js == [] then []
    else
      (if |js| == 1 then [] else Joined(js[..|js| - 1]) + ",")
      + (if js[|js| - 1].JNull? then [] else Text(js[|js| - 1]))
  }

  function AsNode(l: Lookup): Result<Value>
  {
    if l.Found? then Ok(Node(l.node)) else Fail(l)
  }

  function Unwrap(j: Json, c: Cache, d: Dom): (Result<Value>, Cache)
    requires Forest(d)
  {
    match j
    case JNull => (Ok(Null), c)
    case JBool(b) => (Ok(Bool(b)), c)
    case JNum(n) => (Ok(Num(n)), c)
    case JStr(s) => (Ok(Str(s)), c)
    case JArr(items) =>
      var (r, c') := UnwrapAll(items, c, d);
      (if r.Ok? then Ok(Arr(r.value)) else Fail(r.cause), c')
    case JObj(names, items) =>
      var handle := HandleKey(names, items);
      if handle.Some? then
        var (c', l) := Get(c, d, Text(handle.value));
        (AsNode(l), c')
      else
        var (r, c') := UnwrapAll(items, c, d);
        (if r.Ok? then Ok(Obj(names, r.value)) else Fail(r.cause), c')
  }

  /** Left to right; the first failure ends it. */
  function UnwrapAll(js: seq<Json>, c: Cache, d: Dom): (Result<seq<Value>>, Cache)
    requires Forest(d)
  {
    if js == [] then (Ok([]), c)
    else
      var (r, c1) := UnwrapAll(js[..|js| - 1], c, d);
      if r.Fail? then (r, c1)
      else
        var (last, c2) := Unwrap(js[|js| - 1], c1, d);
        (if last.Ok? then Ok(r.value + [last.value]) else Fail(last.cause), c2)
  }

  // ---------------------------------------------------------------------------------------------
  // The traversals of the source, over the cache of the document
  // ---------------------------------------------------------------------------------------------

  method WrapValue(cache: ElementCache, d: Dom, v: Value) returns (j: Json)
    requires Forest(d) && Valid(cache.View())
    modifies cache
    ensures Valid(cache.View()) && (j, cache.View()) == Wrap(v, old(cache.View()), d)
    decreases v
  {
    match v
    case Undefined => j := JNull;
    case Null => j := JNull;
    case Bool(b) => j := JBool(b);
    case Num(n) => j := JNum(n);
    case Str(s) => j := JStr(s);
    case Function(source) => j := JStr(source);
    case Node(n) =>
      AddKeepsValid(cache.View(), d, n);
      var key := cache.AddElement(d, n);
      j := Handle(key);
    case Arr(items) =>
      var js := WrapItems(cache, d, items);
      j := JArr(js);
    case Obj(names, values) =>
      var js := WrapItems(cache, d, values);
      j := JObj(names, js);
  }

  /** The elements of an array or the values of an object, one after the other. */
  method WrapItems(cache: ElementCache, d: Dom, vs: seq<Value>) returns (js: seq<Json>)
    requires Forest(d) && Valid(cache.View())
    modifies cache
    ensures Valid(cache.View()) && (js, cache.View()) == WrapAll(vs, old(cache.View()), d)
    decreases vs
  {
    js := [];
    for i := 0 to |vs|
      invariant Valid(cache.View())
      invariant (js, cache.View()) == WrapAll(vs[..i], old(cache.View()), d)
    {
      assert vs[..i + 1][..i] == vs[..i];
      var j := WrapValue(cache, d, vs[i]);
      js := js + [j];
    }
    assert vs[..|vs|] == vs;
  }

  method UnwrapValue(cache: ElementCache, d: Dom, j: Json) returns (r: Result<Value>)
    requires Forest(d)
    modifies cache
    ensures (r, cache.View()) == Unwrap(j, old(cache.View()), d)
    decreases j
  {
    match j
    case JNull => r := Ok(Null);
    case JBool(b) => r := Ok(Bool(b));
    case JNum(n) => r := Ok(Num(n));
    case JStr(s) => r := Ok(Str(s));
    case JArr(items) =>
      var vs := UnwrapItems(cache, d, items);
      r := if vs.Ok? then Ok(Arr(vs.value)) else Fail(vs.cause);
    case JObj(names, items) =>
      var handle := HandleKey(names, items);
      if handle.Some? {
        var l := cache.GetElement(d, Text(handle.value));
        r := AsNode(l);
      } else {
        var vs := UnwrapItems(cache, d, items);
        r := if vs.Ok? then Ok(Obj(names, vs.value)) else Fail(vs.cause);
      }
  }

  method UnwrapItems(cache: ElementCache, d: Dom, js: seq<Json>) returns (r: Result<seq<Value>>)
    requires Forest(d)
    modifies cache
    ensures (r, cache.View()) == UnwrapAll(js, old(cache.View()), d)
    decreases js
  {
    var vs := [];
    for i := 0 to |js|
      invariant (Ok(vs), cache.View()) == UnwrapAll(js[..i], old(cache.View()), d)
    {
      assert js[..i + 1][..i] == js[..i];
      var v := UnwrapValue(cache, d, js[i]);
      if v.Fail? {
        FailureStays(js, i + 1, old(cache.View()), d);
        return Fail(v.cause);
      }
      vs := vs + [v.value];
    }
    assert js[..|js|] == js;
    r := Ok(vs);
  }

  /** What fails early is the outcome of the whole. */
  lemma {:induction false} FailureStays(js: seq<Json>, n: nat, c: Cache, d: Dom)
    requires Forest(d) && n <= |js| && UnwrapAll(js[..n], c, d).0.Fail?
    ensures UnwrapAll(js, c, d) == UnwrapAll(js[..n], c, d)
    decreases |js|
  {
    if n == |js| {
      assert js[..n] == js;
    } else {
      assert js[..|js| - 1][..n] == js[..n];
      FailureStays(js[..|js| - 1], n, c, d);
    }
  }
}
