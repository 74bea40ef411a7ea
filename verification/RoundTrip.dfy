/**
 * A value that leaves a script wrapped and comes back as an argument: when it is the same value,
 * even though wrapping sweeps the cache and the page runs in between.
 */
module RoundTrips {
  import opened Sequences
  import opened ElementCaches
  import opened WrapValues

  predicate Reserved(name: string)
  {
    name == ELEMENT_KEY || name == W3C_ELEMENT_KEY || name == WINDOW_KEY
  }

  /** The value has a wire form of its own: no `undefined`, no function, no reserved key in an object. */
  predicate Transferable(v: Value)
  {
    match v
    case Undefined => false
    case Function(_) => false
    case Arr(items) => forall i :: 0 <= i < |items| ==> Transferable(items[i])
    case Obj(names, values) =>
      && (forall i :: 0 <= i < |names| ==> !Reserved(names[i]))
      && (forall i :: 0 <= i < |values| ==> Transferable(values[i]))
    case _ => true
  }

  /** Every object has one value for each key. */
  predicate Shaped(v: Value)
  {
    match v
    case Arr(items) => forall i :: 0 <= i < |items| ==> Shaped(items[i])
    case Obj(names, values) =>
      |names| == |values| && forall i :: 0 <= i < |values| ==> Shaped(values[i])
    case _ => true
  }

  /** Every node in the value passes the staleness check. */
  predicate Attached(v: Value, d: Dom)
    requires Forest(d)
  {
    match v
    case Node(n) => !IsStale(d, n)
    case Arr(items) => forall i :: 0 <= i < |items| ==> Attached(items[i], d)
    case Obj(_, values) => forall i :: 0 <= i < |values| ==> Attached(values[i], d)
    case _ => true
  }

  /** The two fields of an element handle, and the id under both. */
  predicate IsHandle(j: Json, key: string)
  {
    && j.JObj? && |j.names| == |j.items| == 2
    && FieldOf(j.names, j.items, "ELEMENT") == Some(JStr(key))
    && FieldOf(j.names, j.items, "element-6066-11e4-a52e-4f735466cecf") == Some(JStr(key))
  }

  lemma HandleHasBothFields(key: string)
    ensures IsHandle(Handle(key), key)
  {
    var j := Handle(key);
    assert j.names[1..] == [W3C_ELEMENT_KEY] && j.items[1..] == [JStr(key)];
  }

  /** `j` is `v` with each node replaced by an id bound to it, and with `live` an id still in the cache. */
  ghost predicate Encodes(j: Json, v: Value, c: Cache, live: bool)
  {
    match v
    case Undefined => j == JNull
    case Null => j == JNull
    case Bool(b) => j == JBool(b)
    case Num(n) => j == JNum(n)
    case Str(s) => j == JStr(s)
    case Function(source) => j == JStr(source)
    case Node(n) => exists key :: IsHandle(j, key) && Bound(c, key, n) && (live ==> key in c.entries)
    case Arr(items) =>
      && j.JArr? && |j.items| == |items|
      && forall i :: 0 <= i < |items| ==> Encodes(j.items[i], items[i], c, live)
    case Obj(names, values) =>
      && j.JObj? && j.names == names && |j.items| == |values|
      && forall i :: 0 <= i < |values| ==> Encodes(j.items[i], values[i], c, live)
  }

  ghost predicate EncodeAll(js: seq<Json>, vs: seq<Value>, c: Cache, live: bool)
  {
    |js| == |vs| && forall i :: 0 <= i < |vs| ==> Encodes(js[i], vs[i], c, live)
  }

  // ---------------------------------------------------------------------------------------------
  // What additions and lookups in one document keep of the ids already issued
  // ---------------------------------------------------------------------------------------------

  ghost predicate KeepsKey(c: Cache, c': Cache, d: Dom, key: string)
    requires Forest(d)
  {
    && Issued(c', key)
    && (key in c'.entries ==> key in c.entries && c'.entries[key] == c.entries[key])
    && (key in c.entries && !IsStale(d, c.entries[key]) ==> key in c'.entries)
  }

  /** Issued ids stay bound as they were, and those of attached nodes stay in the cache. */
  ghost predicate Carries(c: Cache, c': Cache, d: Dom)
    requires Forest(d)
  {
    Valid(c') && forall key :: Issued(c, key) ==> KeepsKey(c, c', d, key)
  }

  lemma CarriesTransitive(a: Cache, b: Cache, c: Cache, d: Dom)
    requires Forest(d) && Carries(a, b, d) && Carries(b, c, d)
    ensures Carries(a, c, d)
  {
  }

  lemma AddCarries(c: Cache, d: Dom, n: NodeId)
    requires Forest(d) && Valid(c)
    ensures Carries(c, Add(c, d, n).0, d)
  {
    AddKeepsValid(c, d, n);
    forall key | Issued(c, key) ensures KeepsKey(c, Add(c, d, n).0, d, key) {
      AddKeepsIssued(c, d, n, key);
    }
  }

  lemma GetCarries(c: Cache, d: Dom, key: string)
    requires Forest(d) && Valid(c)
    ensures Carries(c, Get(c, d, key).0, d)
  {
  }

  lemma {:induction false} WrapCarries(v: Value, c: Cache, d: Dom)
    requires Forest(d) && Valid(c)
    ensures Carries(c, Wrap(v, c, d).1, d)
    decreases v
  {
    match v
    case Node(n) => AddCarries(c, d, n);
    case Arr(items) => WrapAllCarries(items, c, d);
    case Obj(_, values) => WrapAllCarries(values, c, d);
    case _ =>
  }

  lemma {:induction false} WrapAllCarries(vs: seq<Value>, c: Cache, d: Dom)
    requires Forest(d) && Valid(c)
    ensures Carries(c, WrapAll(vs, c, d).1, d)
    decreases vs
  {
    if vs != [] {
      var c1 := WrapAll(vs[..|vs| - 1], c, d).1;
      WrapAllCarries(vs[..|vs| - 1], c, d);
      WrapCarries(vs[|vs| - 1], c1, d);
      CarriesTransitive(c, c1, WrapAll(vs, c, d).1, d);
    }
  }

  lemma {:induction false} UnwrapCarries(j: Json, c: Cache, d: Dom)
    requires Forest(d) && Valid(c)
    ensures Carries(c, Unwrap(j, c, d).1, d)
    decreases j
  {
    match j
    case JArr(items) => UnwrapAllCarries(items, c, d);
    case JObj(names, items) =>
      if HandleKey(names, items).Some? {
        GetCarries(c, d, Text(HandleKey(names, items).value));
      } else {
        UnwrapAllCarries(items, c, d);
      }
    case _ =>
  }

  lemma {:induction false} UnwrapAllCarries(js: seq<Json>, c: Cache, d: Dom)
    requires Forest(d) && Valid(c)
    ensures Carries(c, UnwrapAll(js, c, d).1, d)
    decreases js
  {
    if js != [] {
      var c1 := UnwrapAll(js[..|js| - 1], c, d).1;
      UnwrapAllCarries(js[..|js| - 1], c, d);
      UnwrapCarries(js[|js| - 1], c1, d);
      CarriesTransitive(c, c1, Unwrap(js[|js| - 1], c1, d).1, d);
    }
  }

  // ---------------------------------------------------------------------------------------------
  // Wrapping produces an encoding
  // ---------------------------------------------------------------------------------------------

  lemma {:induction false} EncodingCarries(j: Json, v: Value, c: Cache, c': Cache, d: Dom, live: bool)
    requires Forest(d) && Carries(c, c', d) && Encodes(j, v, c, live)
    requires live ==> Attached(v, d)
    ensures Encodes(j, v, c', live)
    decreases v
  {
    match v
    case Node(n) =>
      var key :| IsHandle(j, key) && Bound(c, key, n) && (live ==> key in c.entries);
      assert KeepsKey(c, c', d, key);
    case Arr(items) =>
      forall i | 0 <= i < |items| ensures Encodes(j.items[i], items[i], c', live) {
        EncodingCarries(j.items[i], items[i], c, c', d, live);
      }
    case Obj(_, values) =>
      forall i | 0 <= i < |values| ensures Encodes(j.items[i], values[i], c', live) {
        EncodingCarries(j.items[i], values[i], c, c', d, live);
      }
    case _ =>
  }

  /**
   * What every value looks like on the wire: plain data as it is, `undefined` as null, a function as
   * its source, and each node as a handle with an id of its own; with `live`, each id is in the cache.
   */
  lemma {:induction false} WrapEncodes(v: Value, c: Cache, d: Dom, live: bool)
    requires Forest(d) && Valid(c) && (live ==> Attached(v, d))
    ensures var (j, c') := Wrap(v, c, d); Encodes(j, v, c', live)
    decreases v
  {
    match v
    case Node(n) =>
      AddKeepsValid(c, d, n);
      var (c', key) := Add(c, d, n);
      HandleHasBothFields(key);
      assert Wrap(v, c, d) == (Handle(key), c') && Bound(c', key, n);
    case Arr(items) => WrapAllEncodes(items, c, d, live);
    case Obj(_, values) => WrapAllEncodes(values, c, d, live);
    case _ =>
  }

  lemma {:induction false} WrapAllEncodes(vs: seq<Value>, c: Cache, d: Dom, live: bool)
    requires Forest(d) && Valid(c)
    requires live ==> forall i :: 0 <= i < |vs| ==> Attached(vs[i], d)
    ensures var (js, c') := WrapAll(vs, c, d); EncodeAll(js, vs, c', live)
    decreases vs
  {
    if vs != [] {
      var init, v := vs[..|vs| - 1], vs[|vs| - 1];
      var (js, c1) := WrapAll(init, c, d);
      WrapAllCarries(init, c, d);
      WrapAllEncodes(init, c, d, live);
      WrapEncodes(v, c1, d, live);
      WrapCarries(v, c1, d);
      var c2 := Wrap(v, c1, d).1;
      forall i | 0 <= i < |init| ensures Encodes(js[i], vs[i], c2, live) {
        EncodingCarries(js[i], init[i], c1, c2, d, live);
      }
    }
  }

  /** A node on the wire: both fields hold the id that the cache has for it, in the form of all ids. */
  lemma NodeOnTheWire(n: NodeId, c: Cache, d: Dom)
    requires Forest(d) && Valid(c)
    ensures var (j, c') := Wrap(Node(n), c, d);
      exists serial ::
        var key := ":wdc:" + Decimal(serial);
        IsHandle(j, key) && key in c'.entries && c'.entries[key] == n
  {
    AddKeepsValid(c, d, n);
    var (c', key) := Add(c, d, n);
    HandleHasBothFields(key);
    var serial :| 0 <= serial < c'.nextId && key == KeyOf(serial);
  }

  /** Either field alone is enough to find the node again, while it is attached. */
  lemma EitherFieldIsEnough(n: NodeId, key: string, c: Cache, d: Dom, name: string)
    requires Forest(d) && Valid(c) && key in c.entries && c.entries[key] == n && !IsStale(d, n)
    requires name == "ELEMENT" || name == "element-6066-11e4-a52e-4f735466cecf"
    ensures Unwrap(JObj([name], [JStr(key)]), c, d) == (Ok(Node(n)), c)
  {
    BoundKeyIsFound(c, d, key, n);
    var names, items := [name], [JStr(key)];
    assert names[1..] == [] && items[1..] == [];
    assert |ELEMENT_KEY| == 7 && |W3C_ELEMENT_KEY| == 35;
    assert FieldOf(names, items, name) == Some(JStr(key));
    if name != ELEMENT_KEY {
      NoField(names, items, ELEMENT_KEY);
    }
    assert HandleKey(names, items) == Some(JStr(key));
  }

  // ---------------------------------------------------------------------------------------------
  // Unwrapping an encoding
  // ---------------------------------------------------------------------------------------------

  lemma HandleIsLookedUp(j: Json, key: string)
    requires IsHandle(j, key)
    ensures HandleKey(j.names, j.items) == Some(JStr(key))
  {
  }

  lemma {:induction false} NoField(names: seq<string>, items: seq<Json>, key: string)
    requires forall i :: 0 <= i < |names| ==> names[i] != key
    ensures FieldOf(names, items, key).None?
  {
    if names != [] && items != [] {
      NoField(names[1..], items[1..], key);
    }
  }

  lemma {:induction false} SomeField(names: seq<string>, items: seq<Json>, key: string, i: nat)
    requires |names| == |items| && i < |names| && names[i] == key
    ensures FieldOf(names, items, key).Some?
  {
    if names[0] != key {
      SomeField(names[1..], items[1..], key, i - 1);
    }
  }

  /** An object is taken for a handle exactly when it has a reserved key. */
  lemma HandlesAreReserved(names: seq<string>, items: seq<Json>)
    requires |names| == |items|
    ensures HandleKey(names, items).Some? <==> exists i :: 0 <= i < |names| && Reserved(names[i])
  {
    if i :| 0 <= i < |names| && Reserved(names[i]) {
      SomeField(names, items, names[i], i);
    } else {
      NoField(names, items, ELEMENT_KEY);
      NoField(names, items, W3C_ELEMENT_KEY);
      NoField(names, items, WINDOW_KEY);
    }
  }

  lemma BoundKeyIsFound(c: Cache, d: Dom, key: string, n: NodeId)
    requires Forest(d) && Bound(c, key, n)
    ensures key != COUNTER_KEY
    ensures IsStale(d, n) ==> Get(c, d, key).1 == StaleReference
    ensures !IsStale(d, n) && key in c.entries ==> Get(c, d, key) == (c, Found(n))
  {
    var i :| 0 <= i < c.nextId && key == KeyOf(i);
    KeysDiffer(i, i);
  }

  /** A live encoding of transferable data with attached nodes unwraps to the value itself. */
  lemma {:induction false} UnwrapsBack(j: Json, v: Value, c: Cache, d: Dom)
    requires Forest(d) && Encodes(j, v, c, true)
    requires Shaped(v) && Transferable(v) && Attached(v, d)
    ensures Unwrap(j, c, d) == (Ok(v), c)
    decreases v
  {
    match v
    case Node(n) =>
      var key :| IsHandle(j, key) && Bound(c, key, n) && key in c.entries;
      HandleIsLookedUp(j, key);
      BoundKeyIsFound(c, d, key, n);
    case Arr(items) => UnwrapAllBack(j.items, items, c, d);
    case Obj(names, values) =>
      HandlesAreReserved(names, j.items);
      UnwrapAllBack(j.items, values, c, d);
    case _ =>
  }

  lemma {:induction false} UnwrapAllBack(js: seq<Json>, vs: seq<Value>, c: Cache, d: Dom)
    requires Forest(d) && EncodeAll(js, vs, c, true)
    requires forall i :: 0 <= i < |vs| ==> Shaped(vs[i]) && Transferable(vs[i]) && Attached(vs[i], d)
    ensures UnwrapAll(js, c, d) == (Ok(vs), c)
    decreases vs
  {
    if vs != [] {
      UnwrapAllBack(js[..|js| - 1], vs[..|vs| - 1], c, d);
      UnwrapsBack(js[|js| - 1], vs[|vs| - 1], c, d);
      assert vs == vs[..|vs| - 1] + [vs[|vs| - 1]];
    }
  }

  /** The value comes back as itself. */
  predicate Survives(v: Value, d: Dom)
    requires Forest(d)
  {
    Transferable(v) && Attached(v, d)
  }

  /** Transferable data comes back as itself or is refused as stale, never as something else. */
  lemma {:induction false} ItselfOrStale(j: Json, v: Value, c: Cache, d: Dom)
    requires Forest(d) && Valid(c) && Encodes(j, v, c, false) && Shaped(v) && Transferable(v)
    ensures Unwrap(j, c, d).0 == Ok(v) || Unwrap(j, c, d).0 == Fail(StaleReference)
    decreases v
  {
    match v
    case Node(n) =>
      var key :| IsHandle(j, key) && Bound(c, key, n);
      HandleIsLookedUp(j, key);
      BoundKeyIsFound(c, d, key, n);
    case Arr(items) => AllOrStale(j.items, items, c, d);
    case Obj(names, values) =>
      HandlesAreReserved(names, j.items);
      AllOrStale(j.items, values, c, d);
    case _ =>
  }

  lemma {:induction false} AllOrStale(js: seq<Json>, vs: seq<Value>, c: Cache, d: Dom)
    requires Forest(d) && Valid(c) && EncodeAll(js, vs, c, false)
    requires forall i :: 0 <= i < |vs| ==> Shaped(vs[i]) && Transferable(vs[i])
    ensures UnwrapAll(js, c, d).0 == Ok(vs) || UnwrapAll(js, c, d).0 == Fail(StaleReference)
    decreases vs
  {
    if vs != [] {
      var n := |vs| - 1;
      var (r, c1) := UnwrapAll(js[..n], c, d);
      AllOrStale(js[..n], vs[..n], c, d);
      UnwrapAllCarries(js[..n], c, d);
      EncodingCarries(js[n], vs[n], c, c1, d, false);
      ItselfOrStale(js[n], vs[n], c1, d);
      assert vs == vs[..n] + [vs[n]];
    }
  }

  /** Any value with a detached node or without a wire form of its own does not come back. */
  lemma {:induction false} UnwrapsOtherwise(j: Json, v: Value, c: Cache, d: Dom)
    requires Forest(d) && Valid(c) && Encodes(j, v, c, false) && Shaped(v) && !Survives(v, d)
    ensures Unwrap(j, c, d).0 != Ok(v)
    decreases v
  {
    match v
    case Node(n) =>
      var key :| IsHandle(j, key) && Bound(c, key, n);
      HandleIsLookedUp(j, key);
      BoundKeyIsFound(c, d, key, n);
    case Arr(items) => AllOtherwise(j.items, items, c, d);
    case Obj(names, values) =>
      HandlesAreReserved(names, j.items);
      if HandleKey(names, j.items).None? {
        AllOtherwise(j.items, values, c, d);
      }
    case _ =>
  }

  lemma {:induction false} AllOtherwise(js: seq<Json>, vs: seq<Value>, c: Cache, d: Dom)
    requires Forest(d) && Valid(c) && EncodeAll(js, vs, c, false)
    requires forall i :: 0 <= i < |vs| ==> Shaped(vs[i])
    requires exists i :: 0 <= i < |vs| && !Survives(vs[i], d)
    ensures UnwrapAll(js, c, d).0 != Ok(vs)
    decreases vs
  {
    var n := |vs| - 1;
    var c1 := UnwrapAll(js[..n], c, d).1;
    assert vs == vs[..n] + [vs[n]];
    if Survives(vs[n], d) {
      var i :| 0 <= i < |vs| && !Survives(vs[i], d);
      assert !Survives(vs[..n][i], d);
      AllOtherwise(js[..n], vs[..n], c, d);
    } else {
      UnwrapAllCarries(js[..n], c, d);
      EncodingCarries(js[n], vs[n], c, c1, d, false);
      UnwrapsOtherwise(js[n], vs[n], c1, d);
    }
  }

  /**
   * The round trip in one document, for every value and every state of the cache, however often
   * wrapping sweeps it: the value comes back exactly when it is transferable data whose nodes are
   * all attached, and then the cache is untouched. Transferable data with a detached node is
   * refused as stale.
   */
  lemma RoundTripExactly(v: Value, c: Cache, d: Dom)
    requires Forest(d) && Valid(c) && Shaped(v)
    ensures var (j, c') := Wrap(v, c, d);
      && (Unwrap(j, c', d).0 == Ok(v) <==> Transferable(v) && Attached(v, d))
      && (Transferable(v) && Attached(v, d) ==> Unwrap(j, c', d).1 == c')
      && (Transferable(v) && !Attached(v, d) ==> Unwrap(j, c', d).0 == Fail(StaleReference))
  {
    var (j, c') := Wrap(v, c, d);
    WrapCarries(v, c, d);
    if Survives(v, d) {
      WrapEncodes(v, c, d, true);
      UnwrapsBack(j, v, c', d);
    } else {
      WrapEncodes(v, c, d, false);
      UnwrapsOtherwise(j, v, c', d);
      if Transferable(v) {
        ItselfOrStale(j, v, c', d);
      }
    }
  }

  // ---------------------------------------------------------------------------------------------
  // With the page running between the two scripts
  // ---------------------------------------------------------------------------------------------

  /** Every node in the value stays attached through the run. */
  ghost predicate AllStay(v: Value, w: World, es: seq<Event>)
    requires Forest(w.dom) && EventsOk(es)
  {
    match v
    case Node(n) => StaysAttached(w, es, n)
    case Arr(items) => forall i :: 0 <= i < |items| ==> AllStay(items[i], w, es)
    case Obj(_, values) => forall i :: 0 <= i < |values| ==> AllStay(values[i], w, es)
    case _ => true
  }

  lemma {:induction false} EncodingSurvivesRun(j: Json, v: Value, w: World, es: seq<Event>)
    requires WorldOk(w) && EventsOk(es) && Encodes(j, v, w.cache, true) && AllStay(v, w, es)
    ensures Encodes(j, v, Run(w, es).cache, true) && Attached(v, Run(w, es).dom)
    decreases v
  {
    match v
    case Node(n) =>
      var key :| IsHandle(j, key) && Bound(w.cache, key, n) && key in w.cache.entries;
      IdLivesUntilReaped(w, es, key, n);
      NeverReaped(w, es, key, n);
    case Arr(items) =>
      forall i | 0 <= i < |items|
        ensures Encodes(j.items[i], items[i], Run(w, es).cache, true) && Attached(items[i], Run(w, es).dom)
      {
        EncodingSurvivesRun(j.items[i], items[i], w, es);
      }
    case Obj(_, values) =>
      forall i | 0 <= i < |values|
        ensures Encodes(j.items[i], values[i], Run(w, es).cache, true) && Attached(values[i], Run(w, es).dom)
      {
        EncodingSurvivesRun(j.items[i], values[i], w, es);
      }
    case _ =>
  }

  lemma {:induction false} AttachedAtFirst(v: Value, w: World, es: seq<Event>)
    requires Forest(w.dom) && EventsOk(es) && AllStay(v, w, es)
    ensures Attached(v, w.dom)
    decreases v
  {
    match v
    case Node(n) => assert !IsStale(Run(w, es[..0]).dom, n);
    case Arr(items) =>
      forall i | 0 <= i < |items| ensures Attached(items[i], w.dom) {
        AttachedAtFirst(items[i], w, es);
      }
    case Obj(_, values) =>
      forall i | 0 <= i < |values| ensures Attached(values[i], w.dom) {
        AttachedAtFirst(values[i], w, es);
      }
    case _ =>
  }

  /**
   * Any page activity between the two scripts, with other scripts adding and looking up whatever
   * they like: transferable data whose nodes stay attached comes back unchanged.
   */
  lemma RoundTripAcrossScripts(v: Value, c: Cache, d: Dom, es: seq<Event>)
    requires Forest(d) && Valid(c) && Shaped(v) && Transferable(v) && EventsOk(es)
    requires AllStay(v, World(Wrap(v, c, d).1, d), es)
    ensures var (j, c') := Wrap(v, c, d);
      var w := Run(World(c', d), es);
      Unwrap(j, w.cache, w.dom) == (Ok(v), w.cache)
  {
    var (j, c') := Wrap(v, c, d);
    var w := World(c', d);
    AttachedAtFirst(v, w, es);
    WrapCarries(v, c, d);
    WrapEncodes(v, c, d, true);
    EncodingSurvivesRun(j, v, w, es);
    UnwrapsBack(j, v, Run(w, es).cache, Run(w, es).dom);
  }
}
