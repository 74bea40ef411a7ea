/**
 * The cache that gives DOM nodes their ids on the wire: adding a node, looking an id up, and the
 * sweep of detached nodes that an addition triggers once the cache has grown.
 */
module ElementCaches {
  import opened Sequences

  /** The identity of a DOM node. */
  type NodeId = nat

  /**
   * The document as the staleness check sees it: its `documentElement`, each node's `parentNode`,
   * and the host of each shadow root. `depth` is what makes it a finite forest; a shadow root has
   * no parent and hosts are not themselves shadow roots.
   */
  datatype Dom = Dom(
    root: Option<NodeId>,
    parent: NodeId -> Option<NodeId>,
    host: NodeId -> Option<NodeId>,
    depth: NodeId -> nat)

  ghost predicate Forest(d: Dom)
  {
    && (forall n {:trigger d.parent(n)} :: d.parent(n).Some? ==> d.depth(d.parent(n).value) < d.depth(n))
    && (forall n {:trigger d.host(n)} :: d.host(n).Some? ==>
         && d.depth(d.host(n).value) < d.depth(n)
         && d.parent(n).None? && d.host(d.host(n).value).None?)
  }

  // ---------------------------------------------------------------------------------------------
  // Staleness
  // ---------------------------------------------------------------------------------------------

  /** The next node of the walk: the parent, where a shadow root stands for its host. */
  function Up(d: Dom, n: NodeId): Option<NodeId>
  {
    if d.host(n).Some? then d.parent(d.host(n).value) else d.parent(n)
  }

  lemma UpClimbs(d: Dom, n: NodeId)
    requires Forest(d) && Up(d, n).Some?
    ensures d.depth(Up(d, n).value) < d.depth(n)
  {
  }

  predicate IsStale(d: Dom, n: NodeId)
    requires Forest(d)
    decreases d.depth(n)
  {
    if d.root == Some(n) then false
    else if Up(d, n).None? then true
    else
      UpClimbs(d, n);
      IsStale(d, Up(d, n).value)
  }

  /** `isStale`, as the loop of the source. */
  method CheckStale(d: Dom, el: NodeId) returns (stale: bool)
    requires Forest(d)
    ensures stale == IsStale(d, el)
  {
    var node := Some(el);
    while node.Some?
      invariant node.Some? ==> IsStale(d, node.value) == IsStale(d, el)
      invariant node.None? ==> IsStale(d, el)
      decreases node.Some?, if node.Some? then d.depth(node.value) else 0
    {
      if node == d.root {
        return false;
      }
      ghost var n := node.value;
      if d.host(node.value).Some? {
        node := d.host(node.value);
      }
      node := d.parent(node.value);
      if node.Some? {
        UpClimbs(d, n);
      }
    }
    stale := true;
  }

  /** A path of shadow-including ancestors, as the DOM Standard has them: parents and hosts. */
  predicate Lineage(d: Dom, p: seq<NodeId>)
  {
    && p != []
    && forall i :: 0 <= i < |p| - 1 ==> Some(p[i + 1]) == d.parent(p[i]) || Some(p[i + 1]) == d.host(p[i])
  }

  predicate FromTo(p: seq<NodeId>, n: NodeId, root: Option<NodeId>)
  {
    p != [] && p[0] == n && Some(p[|p| - 1]) == root
  }

  /** The last step of the path enters its end from a child, not from its shadow root. */
  predicate EntersFromChild(d: Dom, p: seq<NodeId>)
    requires p != []
  {
    |p| == 1 || d.parent(p[|p| - 2]) == Some(p[|p| - 1])
  }

  lemma {:induction false} FreshHasLineage(d: Dom, n: NodeId) returns (p: seq<NodeId>)
    requires Forest(d) && !IsStale(d, n)
    ensures Lineage(d, p) && FromTo(p, n, d.root) && EntersFromChild(d, p)
    decreases d.depth(n)
  {
    if d.root == Some(n) {
      p := [n];
    } else {
      UpClimbs(d, n);
      var q := FreshHasLineage(d, Up(d, n).value);
      p := (if d.host(n).Some? then [n, d.host(n).value] else [n]) + q;
    }
  }

  lemma {:induction false} LineageIsFresh(d: Dom, n: NodeId, p: seq<NodeId>)
    requires Forest(d) && Lineage(d, p) && FromTo(p, n, d.root) && EntersFromChild(d, p)
    ensures !IsStale(d, n)
    decreases |p|
  {
    if d.root != Some(n) {
      assert Some(p[1]) == d.parent(n) || Some(p[1]) == d.host(n);
      if d.host(n).Some? {
        assert Some(p[2]) == d.parent(p[1]);
        LineageIsFresh(d, p[2], p[2..]);
      } else {
        LineageIsFresh(d, p[1], p[1..]);
      }
    }
  }

  /** Some path of shadow-including ancestors leads from the node to the document element. */
  ghost predicate Connected(d: Dom, n: NodeId)
  {
    exists p :: Lineage(d, p) && FromTo(p, n, d.root)
  }

  /** The nodes that pass the check: those with a path that does not end in the root's own shadow tree. */
  lemma FreshExactly(d: Dom, n: NodeId)
    requires Forest(d)
    ensures !IsStale(d, n) <==>
      exists p :: Lineage(d, p) && FromTo(p, n, d.root) && EntersFromChild(d, p)
  {
    if !IsStale(d, n) {
      var p := FreshHasLineage(d, n);
    } else {
      forall p | Lineage(d, p) && FromTo(p, n, d.root) ensures !EntersFromChild(d, p) {
        if EntersFromChild(d, p) {
          LineageIsFresh(d, n, p);
        }
      }
    }
  }

  /** Unless the document element hosts a shadow tree, fresh means connected. */
  lemma FreshMeansConnected(d: Dom, n: NodeId)
    requires Forest(d) && forall m :: d.host(m).Some? ==> d.host(m) != d.root
    ensures !IsStale(d, n) <==> Connected(d, n)
  {
    FreshExactly(d, n);
    forall p | Lineage(d, p) && FromTo(p, n, d.root) ensures EntersFromChild(d, p) {
      if |p| > 1 {
        var i := |p| - 2;
        assert Some(p[i + 1]) == d.parent(p[i]);
      }
    }
  }

  /** The walk never comes back down: above the document element everything is stale. */
  lemma {:induction false} AboveRootIsStale(d: Dom, n: NodeId)
    requires Forest(d) && d.root.Some? && d.depth(n) < d.depth(d.root.value)
    ensures IsStale(d, n)
    decreases d.depth(n)
  {
    if Up(d, n).Some? {
      UpClimbs(d, n);
      AboveRootIsStale(d, Up(d, n).value);
    }
  }

  lemma {:induction false} LineageDescends(d: Dom, n: NodeId, p: seq<NodeId>)
    requires Forest(d) && Lineage(d, p) && FromTo(p, n, d.root) && |p| > 1
    ensures d.depth(d.root.value) < d.depth(n)
    decreases |p|
  {
    assert Some(p[1]) == d.parent(n) || Some(p[1]) == d.host(n);
    if |p| > 2 {
      LineageDescends(d, p[1], p[1..]);
    }
  }

  lemma {:induction false} ShadowLineageIsStale(d: Dom, n: NodeId, p: seq<NodeId>)
    requires Forest(d) && Lineage(d, p) && FromTo(p, n, d.root) && !EntersFromChild(d, p)
    ensures IsStale(d, n)
    decreases |p|
  {
    LineageDescends(d, n, p);
    assert Some(p[1]) == d.parent(n) || Some(p[1]) == d.host(n);
    if |p| == 2 {
      if Up(d, n).Some? {
        AboveRootIsStale(d, Up(d, n).value);
      }
    } else if d.host(n).Some? {
      assert Some(p[2]) == d.parent(p[1]);
      ShadowLineageIsStale(d, p[2], p[2..]);
    } else {
      ShadowLineageIsStale(d, p[1], p[1..]);
    }
  }

  /**
   * A connected node is judged stale if and only if its path enters the document element from the
   * shadow root that it hosts: all nodes in that shadow tree, at any depth and through further shadow
   * trees, and no others.
   */
  lemma StaleByLineage(d: Dom, n: NodeId, p: seq<NodeId>)
    requires Forest(d) && Lineage(d, p) && FromTo(p, n, d.root)
    ensures IsStale(d, n) <==> |p| > 1 && d.host(p[|p| - 2]) == d.root
  {
    if EntersFromChild(d, p) {
      LineageIsFresh(d, n, p);
      if |p| > 1 {
        assert d.host(p[|p| - 2]).None?;
      }
    } else {
      ShadowLineageIsStale(d, n, p);
      var i := |p| - 2;
      assert Some(p[i + 1]) == d.parent(p[i]) || Some(p[i + 1]) == d.host(p[i]);
    }
  }

  // ---------------------------------------------------------------------------------------------
  // The cache
  // ---------------------------------------------------------------------------------------------

  const PREFIX := ":wdc:"
  const SWEEP_THRESHOLD: nat := 200

  /** The property of the cache object that holds the counter; it is no id. */
  const COUNTER_KEY := "nextId"

  function Decimal(n: nat): (r: string)
    ensures r != []
  {
    (if n < 10 then [] else Decimal(n / 10)) + [('0' as int + n % 10) as char]
  }

  lemma {:induction false} DecimalInjective(a: nat, b: nat)
    requires Decimal(a) == Decimal(b)
    ensures a == b
  {
    var s, t := Decimal(a), Decimal(b);
    assert s[|s| - 1] == t[|t| - 1] && s[..|s| - 1] == t[..|t| - 1];
    assert s[..|s| - 1] == (if a < 10 then [] else Decimal(a / 10));
    assert t[..|t| - 1] == (if b < 10 then [] else Decimal(b / 10));
    if a >= 10 && b >= 10 {
      DecimalInjective(a / 10, b / 10);
    }
  }

  /** The number that a string of digits denotes. */
  function Denotes(s: string): int
  {
    if s == [] then 0 else 10 * Denotes(s[..|s| - 1]) + (s[|s| - 1] as int - '0' as int)
  }

  /** The decimal form: digits only, without leading zeros, that denote the number. */
  lemma {:induction false} DecimalDenotes(n: nat)
    ensures var s := Decimal(n);
      && Denotes(s) == n && (forall ch :: ch in s ==> '0' <= ch <= '9')
      && (|s| > 1 ==> s[0] != '0')
  {
    var s, last := Decimal(n), ('0' as int + n % 10) as char;
    if n >= 10 {
      DecimalDenotes(n / 10);
      assert s == Decimal(n / 10) + [last] && s[..|s| - 1] == Decimal(n / 10);
      if |Decimal(n / 10)| == 1 {
        assert Decimal(n / 10)[..0] == [];
      }
    } else {
      assert s == [last] && s[..0] == [];
    }
  }

  function KeyOf(serial: nat): string { PREFIX + Decimal(serial) }

  lemma KeysDiffer(a: nat, b: nat)
    ensures KeyOf(a) == KeyOf(b) ==> a == b
    ensures KeyOf(a) != COUNTER_KEY
  {
    assert KeyOf(a)[0] == ':';
    if KeyOf(a) == KeyOf(b) {
      assert KeyOf(a)[|PREFIX|..] == Decimal(a) && KeyOf(b)[|PREFIX|..] == Decimal(b);
      DecimalInjective(a, b);
    }
  }

  datatype Cache = Cache(entries: map<string, NodeId>, nextId: nat)

  datatype Lookup = Found(node: NodeId) | StaleReference | TypeError

  function Swept(c: Cache, d: Dom): Cache
    requires Forest(d)
  {
    c.(entries := map k | k in c.entries && !IsStale(d, c.entries[k]) :: c.entries[k])
  }

  predicate Sweeps(c: Cache) { |c.entries| >= SWEEP_THRESHOLD }

  function BeforeAdding(c: Cache, d: Dom): Cache
    requires Forest(d)
  {
    if Sweeps(c) then Swept(c, d) else c
  }

  ghost function KeyFor(c: Cache, n: NodeId): Option<string>
  {
    if n in c.entries.Values then
      var k :| k in c.entries && c.entries[k] == n; Some(k)
    else None
  }

  /** `addElement`: the cache it leaves and the id it returns. */
  ghost function Add(c: Cache, d: Dom, n: NodeId): (r: (Cache, string))
    requires Forest(d)
  {
    var c' := BeforeAdding(c, d);
    var known := KeyFor(c', n);
    if known.Some? then (c', known.value)
    else (Cache(c'.entries[KeyOf(c'.nextId) := n], c'.nextId + 1), KeyOf(c'.nextId))
  }

  /** `getElement`. A name that is no property of the cache and one whose node is gone end alike. */
  function Get(c: Cache, d: Dom, key: string): (r: (Cache, Lookup))
    requires Forest(d)
  {
    if key == COUNTER_KEY then (c, TypeError)
    else if key !in c.entries then (c, StaleReference)
    else if !IsStale(d, c.entries[key]) then (c, Found(c.entries[key]))
    else (c.(entries := c.entries - {key}), StaleReference)
  }

  lemma OnlyKey(c: Cache, n: NodeId, key: string)
    requires key in c.entries && c.entries[key] == n
    requires forall j, k :: j in c.entries && k in c.entries && c.entries[j] == c.entries[k] ==> j == k
    ensures KeyFor(c, n) == Some(key)
  {
  }

  class ElementCache {
    var entries: map<string, NodeId>
    var nextId: nat

    function View(): Cache
      reads this
    {
      Cache(entries, nextId)
    }

    constructor (now: nat)
      ensures View() == Cache(map[], now)
    {
      entries, nextId := map[], now;
    }

    method Sweep(d: Dom)
      requires Forest(d)
      modifies this
      ensures View() == Swept(old(View()), d)
    {
      var keys := entries.Keys;
      while keys != {}
        invariant keys <= old(entries).Keys && nextId == old(nextId)
        invariant entries.Keys <= old(entries).Keys
        invariant forall k :: k in entries ==> entries[k] == old(entries)[k]
        invariant forall k :: k in keys ==> k in entries
        invariant forall k :: k in old(entries) && k !in keys ==>
          (k in entries <==> !IsStale(d, old(entries)[k]))
        decreases |keys|
      {
        var key :| key in keys;
        keys := keys - {key};
        var stale := CheckStale(d, entries[key]);
        if stale {
          entries := entries - {key};
        }
      }
    }

    method AddElement(d: Dom, el: NodeId) returns (id: string)
      requires Forest(d) && Valid(View())
      modifies this
      ensures (View(), id) == Add(old(View()), d, el)
    {
      if |entries| >= SWEEP_THRESHOLD {
        Sweep(d);
      }
      assert View() == BeforeAdding(old(View()), d);
      var found := FindKey(el);
      if found.Some? {
        OnlyKey(View(), el, found.value);
        return found.value;
      }
      id := KeyOf(nextId);
      entries := entries[id := el];
      nextId := nextId + 1;
    }

    method FindKey(el: NodeId) returns (found: Option<string>)
      ensures found.Some? ==> found.value in entries && entries[found.value] == el
      ensures found.None? ==> el !in entries.Values
    {
      found := None;
      var keys := entries.Keys;
      while keys != {} && found.None?
        invariant keys <= entries.Keys
        invariant found.None? ==> forall k :: k in entries && k !in keys ==> entries[k] != el
        invariant found.Some? ==> found.value in entries && entries[found.value] == el
        decreases |keys|
      {
        var key :| key in keys;
        keys := keys - {key};
        if entries[key] == el {
          found := Some(key);
        }
      }
    }

    method GetElement(d: Dom, key: string) returns (r: Lookup)
      requires Forest(d)
      modifies this
      ensures (View(), r) == Get(old(View()), d, key)
    {
      if key == COUNTER_KEY {
        return TypeError;
      }
      if key !in entries {
        return StaleReference;
      }
      var el := entries[key];
      var stale := CheckStale(d, el);
      if !stale {
        return Found(el);
      }
      entries := entries - {key};
      r := StaleReference;
    }
  }

  // ---------------------------------------------------------------------------------------------
  // What every operation keeps
  // ---------------------------------------------------------------------------------------------

  /** The cache has given `key` out at some time. */
  ghost predicate Issued(c: Cache, key: string)
  {
    exists i :: 0 <= i < c.nextId && key == KeyOf(i)
  }

  /** No two ids for one node; every id was issued, and the ids still to be issued are unused. */
  ghost predicate Valid(c: Cache)
  {
    && (forall j, k :: j in c.entries && k in c.entries && c.entries[j] == c.entries[k] ==> j == k)
    && (forall k :: k in c.entries ==> Issued(c, k))
    && (forall i :: i >= c.nextId ==> KeyOf(i) !in c.entries)
  }

  /** `key` names `n`, or has named it and is dead. */
  ghost predicate Bound(c: Cache, key: string, n: NodeId)
  {
    Issued(c, key) && (key in c.entries ==> c.entries[key] == n)
  }

  lemma IssuedLater(c: Cache, c': Cache, key: string)
    requires Issued(c, key) && c.nextId <= c'.nextId
    ensures Issued(c', key)
  {
  }

  lemma AddKeepsValid(c: Cache, d: Dom, n: NodeId)
    requires Forest(d) && Valid(c)
    ensures var (c', key) := Add(c, d, n);
      && Valid(c') && key in c'.entries && c'.entries[key] == n && c'.nextId >= c.nextId
  {
    var c1 := BeforeAdding(c, d);
    var (c', key) := Add(c, d, n);
    forall k | k in c'.entries ensures Issued(c', k) {
      if k in c.entries {
        IssuedLater(c, c', k);
      }
    }
    if KeyFor(c1, n).None? {
      forall i | i >= c1.nextId + 1 ensures KeyOf(i) != KeyOf(c1.nextId) {
        KeysDiffer(i, c1.nextId);
      }
    }
  }

  /** Adding any node leaves an issued id alone, except that the sweep removes it with its node. */
  lemma AddKeepsIssued(c: Cache, d: Dom, n: NodeId, key: string)
    requires Forest(d) && Valid(c) && Issued(c, key)
    ensures var c' := Add(c, d, n).0;
      && Issued(c', key)
      && (key in c'.entries <==> key in c.entries && !(Sweeps(c) && IsStale(d, c.entries[key])))
      && (key in c'.entries ==> c'.entries[key] == c.entries[key])
  {
    var i :| 0 <= i < c.nextId && key == KeyOf(i);
    KeysDiffer(i, c.nextId);
  }

  // ---------------------------------------------------------------------------------------------
  // The bound
  // ---------------------------------------------------------------------------------------------

  /** The ids in the cache whose nodes are attached. */
  function LiveKeys(c: Cache, d: Dom): set<string>
    requires Forest(d)
  {
    set k | k in c.entries && !IsStale(d, c.entries[k])
  }

  /** The ids an addition keeps: all below 200, and else those of attached nodes. One more is added at most. */
  lemma AddKeepsExactly(c: Cache, d: Dom, n: NodeId)
    requires Forest(d) && Valid(c)
    ensures var (c', key) := Add(c, d, n);
      c'.entries.Keys == (if |c.entries| < 200 then c.entries.Keys else LiveKeys(c, d)) + {key}
  {
    assert |c.entries| == |c.entries.Keys|;
  }

  /** What the sweep is for: while fewer than 200 cached nodes are attached, there are at most 200 entries. */
  lemma AddIsBounded(c: Cache, d: Dom, n: NodeId)
    requires Forest(d) && Valid(c) && |LiveKeys(c, d)| < 200
    ensures |Add(c, d, n).0.entries| <= 200
  {
    AddKeepsExactly(c, d, n);
    var (c', key) := Add(c, d, n);
    var kept := if |c.entries| < 200 then c.entries.Keys else LiveKeys(c, d);
    assert c'.entries.Keys == kept + {key} && |kept + {key}| <= |kept| + 1;
    assert |c'.entries| == |c'.entries.Keys| && |c.entries| == |c.entries.Keys|;
  }

  // ---------------------------------------------------------------------------------------------
  // Runs: additions, lookups and changes of the document in any order
  // ---------------------------------------------------------------------------------------------

  datatype Event = AddNode(node: NodeId) | LookUp(key: string) | DomChanges(to: Dom)

  datatype World = World(cache: Cache, dom: Dom)

  ghost predicate WorldOk(w: World) { Forest(w.dom) && Valid(w.cache) }

  ghost predicate EventOk(e: Event) { e.DomChanges? ==> Forest(e.to) }

  ghost function Step(w: World, e: Event): World
    requires Forest(w.dom)
  {
    match e
    case AddNode(n) => w.(cache := Add(w.cache, w.dom, n).0)
    case LookUp(key) => w.(cache := Get(w.cache, w.dom, key).0)
    case DomChanges(d) => w.(dom := d)
  }

  ghost predicate EventsOk(es: seq<Event>) { forall i :: 0 <= i < |es| ==> EventOk(es[i]) }

  ghost function Run(w: World, es: seq<Event>): (r: World)
    requires Forest(w.dom) && EventsOk(es)
    ensures Forest(r.dom)
  {
    if es == [] then w else Step(Run(w, es[..|es| - 1]), es[|es| - 1])
  }

  lemma {:induction false} RunKeepsValid(w: World, es: seq<Event>)
    requires WorldOk(w) && EventsOk(es)
    ensures WorldOk(Run(w, es))
  {
    if es != [] {
      var v, e := Run(w, es[..|es| - 1]), es[|es| - 1];
      RunKeepsValid(w, es[..|es| - 1]);
      if e.AddNode? {
        AddKeepsValid(v.cache, v.dom, e.node);
      }
    }
  }

  /** Each addition finds fewer than 200 cached nodes attached. */
  ghost predicate FewAttached(w: World, es: seq<Event>)
    requires Forest(w.dom) && EventsOk(es)
  {
    forall i :: 0 <= i < |es| && es[i].AddNode? ==> |LiveKeys(Run(w, es[..i]).cache, Run(w, es[..i]).dom)| < 200
  }

  lemma GetShrinks(c: Cache, d: Dom, key: string)
    requires Forest(d)
    ensures |Get(c, d, key).0.entries| <= |c.entries|
  {
    if key in c.entries {
      assert |c.entries - {key}| == |(c.entries - {key}).Keys| && (c.entries - {key}).Keys == c.entries.Keys - {key};
      assert |c.entries| == |c.entries.Keys|;
    }
  }

  /** Over every run: nodes that come and go do not make the cache grow beyond 200 entries. */
  lemma {:induction false} CacheIsBounded(w: World, es: seq<Event>)
    requires WorldOk(w) && EventsOk(es) && |w.cache.entries| <= 200 && FewAttached(w, es)
    ensures |Run(w, es).cache.entries| <= 200
  {
    if es != [] {
      var init, e := es[..|es| - 1], es[|es| - 1];
      assert forall i :: 0 <= i < |init| ==> init[..i] == es[..i];
      CacheIsBounded(w, init);
      RunKeepsValid(w, init);
      var v := Run(w, init);
      match e
      case AddNode(n) => AddIsBounded(v.cache, v.dom, n);
      case LookUp(key) => GetShrinks(v.cache, v.dom, key);
      case DomChanges(_) =>
    }
  }

  /** This event removes `key`, whose node is `n`: a lookup of it, or a sweep, finds `n` detached. */
  ghost predicate Reaps(w: World, e: Event, key: string, n: NodeId)
    requires Forest(w.dom)
  {
    IsStale(w.dom, n) && (e == LookUp(key) || (e.AddNode? && Sweeps(w.cache)))
  }

  lemma StepOnKey(w: World, e: Event, key: string)
    requires WorldOk(w) && EventOk(e) && Issued(w.cache, key)
    ensures var w' := Step(w, e);
      && Issued(w'.cache, key)
      && (key in w'.cache.entries <==> key in w.cache.entries && !Reaps(w, e, key, w.cache.entries[key]))
      && (key in w'.cache.entries ==> w'.cache.entries[key] == w.cache.entries[key])
  {
    var i :| 0 <= i < w.cache.nextId && key == KeyOf(i);
    KeysDiffer(i, 0);
    if e.AddNode? {
      AddKeepsIssued(w.cache, w.dom, e.node, key);
    }
  }

  ghost predicate ReapsAt(w: World, es: seq<Event>, i: nat, key: string, n: NodeId)
    requires Forest(w.dom) && EventsOk(es) && i < |es|
  {
    Reaps(Run(w, es[..i]), es[i], key, n)
  }

  ghost predicate Reaped(w: World, es: seq<Event>, key: string, n: NodeId)
    requires Forest(w.dom) && EventsOk(es)
  {
    exists i :: 0 <= i < |es| && ReapsAt(w, es, i, key, n)
  }

  lemma ReapsAtAppend(w: World, es: seq<Event>, e: Event, i: nat, key: string, n: NodeId)
    requires Forest(w.dom) && EventsOk(es) && EventOk(e) && i <= |es|
    ensures ReapsAt(w, es + [e], i, key, n)
         == if i < |es| then ReapsAt(w, es, i, key, n) else Reaps(Run(w, es), e, key, n)
  {
    assert (es + [e])[..i] == es[..i] && es[..|es|] == es;
  }

  lemma ReapedAppend(w: World, es: seq<Event>, e: Event, key: string, n: NodeId)
    requires Forest(w.dom) && EventsOk(es) && EventOk(e)
    ensures Reaped(w, es + [e], key, n) <==> Reaped(w, es, key, n) || Reaps(Run(w, es), e, key, n)
  {
    forall i: nat | i <= |es|
      ensures ReapsAt(w, es + [e], i, key, n)
           == if i < |es| then ReapsAt(w, es, i, key, n) else Reaps(Run(w, es), e, key, n)
    {
      ReapsAtAppend(w, es, e, i, key, n);
    }
    if Reaped(w, es + [e], key, n) {
      var i: nat :| i < |es| + 1 && ReapsAt(w, es + [e], i, key, n);
      assert i < |es| ==> ReapsAt(w, es, i, key, n);
    }
    if Reaped(w, es, key, n) {
      var i: nat :| i < |es| && ReapsAt(w, es, i, key, n);
      assert ReapsAt(w, es + [e], i, key, n);
    }
    if Reaps(Run(w, es), e, key, n) {
      assert ReapsAt(w, es + [e], |es|, key, n);
    }
  }

  /**
   * The life of an id over every run: it keeps naming its node until an event reaps it, and once
   * it is out of the cache it stays out. So no id ever comes to name a second node.
   */
  lemma {:induction false} IdLivesUntilReaped(w: World, es: seq<Event>, key: string, n: NodeId)
    requires WorldOk(w) && EventsOk(es) && Bound(w.cache, key, n)
    ensures var c, c' := w.cache, Run(w, es).cache;
      && Bound(c', key, n)
      && (key in c'.entries <==> key in c.entries && !Reaped(w, es, key, n))
  {
    if es != [] {
      var init, e := es[..|es| - 1], es[|es| - 1];
      IdLivesUntilReaped(w, init, key, n);
      RunKeepsValid(w, init);
      StepOnKey(Run(w, init), e, key);
      ReapedAppend(w, init, e, key, n);
      assert es == init + [e];
    }
  }

  /** What an issued id finds after any run: its node exactly if it is attached and was never reaped. */
  lemma LookupExactly(w: World, es: seq<Event>, key: string, n: NodeId)
    requires WorldOk(w) && EventsOk(es) && key in w.cache.entries && w.cache.entries[key] == n
    ensures var v := Run(w, es);
      Get(v.cache, v.dom, key).1
      == if !IsStale(v.dom, n) && !Reaped(w, es, key, n) then Found(n) else StaleReference
  {
    IdLivesUntilReaped(w, es, key, n);
    var i :| 0 <= i < w.cache.nextId && key == KeyOf(i);
    KeysDiffer(i, 0);
  }

  /** A key that was never given out finds nothing, and changes nothing. */
  lemma UnknownKeysFindNothing(c: Cache, d: Dom, key: string)
    requires Forest(d) && Valid(c) && !Issued(c, key)
    ensures Get(c, d, key) == (c, if key == "nextId" then TypeError else StaleReference)
  {
  }

  /** The node passes the check in the document as it is now and as the run makes it. */
  ghost predicate StaysAttached(w: World, es: seq<Event>, n: NodeId)
    requires Forest(w.dom) && EventsOk(es)
  {
    forall i :: 0 <= i <= |es| ==> !IsStale(Run(w, es[..i]).dom, n)
  }

  lemma NeverReaped(w: World, es: seq<Event>, key: string, n: NodeId)
    requires Forest(w.dom) && EventsOk(es) && StaysAttached(w, es, n)
    ensures !Reaped(w, es, key, n) && !IsStale(Run(w, es).dom, n)
  {
    assert es[..|es|] == es;
  }

  /** While a node stays attached its id finds it, and adding it again gives the same id. */
  lemma AttachedNodeKeepsItsId(w: World, es: seq<Event>, n: NodeId)
    requires WorldOk(w) && EventsOk(es)
    requires var w' := Step(w, AddNode(n)); StaysAttached(w', es, n)
    ensures var key, v := Add(w.cache, w.dom, n).1, Run(Step(w, AddNode(n)), es);
      && Get(v.cache, v.dom, key).1 == Found(n)
      && Add(v.cache, v.dom, n).1 == key
  {
    var (c', key) := Add(w.cache, w.dom, n);
    var w' := w.(cache := c');
    AddKeepsValid(w.cache, w.dom, n);
    LookupExactly(w', es, key, n);
    IdLivesUntilReaped(w', es, key, n);
    RunKeepsValid(w', es);
    NeverReaped(w', es, key, n);
    var v := Run(w', es);
    assert key in BeforeAdding(v.cache, v.dom).entries;
  }
}
