/** The renderer's module-level state and the operations that use it: the
    identity cache `idCache` with its key order, the counters `stateCnt`,
    `total` and `edgeCount`, label lookup (`getGraphId`), `drawState`,
    `drawEdge` and the orchestration in `draw`. The text measurements, the
    layout algorithm and the label placement are function parameters. */
module StateRenderer {
  import opened Wrappers
  import opened Geometry
  import opened NodeShapes
  import opened Edges

  /** An identity-cache entry (`stateInfo`); `name` is its `label` field. */
  datatype StateInfo = StateInfo(id: string, name: string, width: real, height: real)

  /** The width every relation's edge is registered with in the layout graph. */
  const EdgeWidth: real := 38.0

  /** An edge handed to the layout graph. An endpoint is None when its label
      resolved to nothing; the edge is registered all the same. */
  datatype GraphEdge = GraphEdge(v: Option<string>, w: Option<string>, relation: Relation, width: real)

  datatype LayoutGraph = LayoutGraph(nodes: seq<StateInfo>, edges: seq<GraphEdge>)

  /** A node's centre and size as the layout algorithm leaves them. */
  datatype Placement = Placement(x: real, y: real, width: real, height: real)

  /** A node of the laid-out graph; `record` is None for a node the graph
      created on its own (an unresolved endpoint), which has no record. */
  datatype LayoutNode = LayoutNode(v: string, record: Option<Placement>)

  /** An edge record after layout: the routed points and the relation. */
  datatype EdgeData = EdgeData(points: seq<Point>, relation: Relation)

  /** The layout algorithm's result, in the graph's own node and edge order. */
  datatype Layout = Layout(nodes: seq<LayoutNode>, edges: seq<Option<EdgeData>>, width: real, height: real)

  /** `transform="translate(x, y)"` on the element whose id is `target`. */
  datatype Transform = Transform(target: string, offset: Point2)

  datatype DrawnNode = DrawnNode(info: StateInfo, contents: seq<NodeContent>)

  /** What one `draw` call produces. */
  datatype Diagram = Diagram(nodes: seq<DrawnNode>, graph: LayoutGraph, transforms: seq<Transform>,
                             edges: seq<DrawnEdge>, viewBox: Box)

  /** The cache entry `drawState` builds: keyed and labelled by the state's
      id, sized as the measured group plus the padding on both sides. */
  function NodeInfo(s: StateDef, groupBox: Box): (info: StateInfo)
    ensures info.id == info.name == s.id
    ensures info.width == groupBox.width + 2.0 * Padding && info.height == groupBox.height + 2.0 * Padding
  {
    var size := NodeSize(groupBox);
    StateInfo(s.id, s.id, size.width, size.height)
  }

  predicate KeysCached(keys: seq<string>, cache: map<string, StateInfo>) {
    forall i :: 0 <= i < |keys| ==> keys[i] in cache
  }

  /** `getGraphId`: the first key, in key order, whose entry carries the label. */
  function FindByLabel(keys: seq<string>, cache: map<string, StateInfo>, wanted: string): (r: Option<string>)
    requires KeysCached(keys, cache)
    ensures r.Some? ==> r.value in keys && r.value in cache && cache[r.value].name == wanted
    ensures r.None? <==> forall i :: 0 <= i < |keys| ==> cache[keys[i]].name != wanted
  {
    if keys == [] then None
    else if cache[keys[0]].name == wanted then Some(keys[0])
    else FindByLabel(keys[1..], cache, wanted)
  }

  /** When several entries carry the label, the first in key order wins. */
  lemma {:induction false} FindByLabelFirst(keys: seq<string>, cache: map<string, StateInfo>, wanted: string, i: nat)
    requires KeysCached(keys, cache)
    requires i < |keys| && cache[keys[i]].name == wanted
    requires forall j :: 0 <= j < i ==> cache[keys[j]].name != wanted
    ensures FindByLabel(keys, cache, wanted) == Some(keys[i])
  {
    if i > 0 {
      FindByLabelFirst(keys[1..], cache, wanted, i - 1);
    }
  }

  /** In a cache whose entries are labelled by their own keys, every key
      resolves to itself. */
  lemma {:induction false} FindOwnLabel(keys: seq<string>, cache: map<string, StateInfo>, k: string)
    requires KeysCached(keys, cache)
    requires forall i :: 0 <= i < |keys| ==> cache[keys[i]].name == keys[i]
    requires k in keys
    ensures FindByLabel(keys, cache, k) == Some(k)
  {
    if keys[0] != k {
      FindOwnLabel(keys[1..], cache, k);
    }
  }

  /** `idCache[id] = stateInfo`: the entry is replaced, and a new key goes
      to the end of the key order while an existing one keeps its place. */
  function Store(cache: map<string, StateInfo>, keys: seq<string>, info: StateInfo): (r: (map<string, StateInfo>, seq<string>))
    ensures r.0.Keys == cache.Keys + {info.id} && r.0[info.id] == info
    ensures forall k :: k in cache && k != info.id ==> r.0[k] == cache[k]
    ensures info.id in cache ==> r.1 == keys
    ensures info.id !in cache ==> r.1 == keys + [info.id]
  {
    (cache[info.id := info], if info.id in cache then keys else keys + [info.id])
  }

  /** No entry after position `j` has the same id as `infos[j]`. */
  predicate LastWithId(infos: seq<StateInfo>, j: nat)
    requires j < |infos|
  {
    forall i :: j < i < |infos| ==> infos[i].id != infos[j].id
  }

  /** The cache after storing `infos` one after the other: the stored ids
      are added to the keys, and no key is dropped or moved. */
  function StoreAll(cache: map<string, StateInfo>, keys: seq<string>, infos: seq<StateInfo>): (r: (map<string, StateInfo>, seq<string>))
    ensures r.0.Keys == cache.Keys + Ids(infos)
    ensures keys <= r.1
  {
    if infos == [] then (cache, keys)
    else
      var prev := StoreAll(cache, keys, infos[..|infos| - 1]);
      IdsSnoc(infos);
      Store(prev.0, prev.1, infos[|infos| - 1])
  }

  /** The ids of a sequence of entries. */
  function Ids(infos: seq<StateInfo>): set<string> {
    set j | 0 <= j < |infos| :: infos[j].id
  }

  lemma IdsSnoc(infos: seq<StateInfo>)
    requires infos != []
    ensures Ids(infos) == Ids(infos[..|infos| - 1]) + {infos[|infos| - 1].id}
  {
    var init := infos[..|infos| - 1];
    forall k | k in Ids(infos) ensures k in Ids(init) + {infos[|infos| - 1].id} {
      var j :| 0 <= j < |infos| && infos[j].id == k;
      if j < |init| { assert init[j] == infos[j]; }
    }
    forall k | k in Ids(init) ensures k in Ids(infos) {
      var j :| 0 <= j < |init| && init[j].id == k;
      assert infos[j] == init[j];
    }
  }

  /** An id stored several times by `StoreAll` keeps the last entry stored under it. */
  lemma {:induction false} StoreAllLast(cache: map<string, StateInfo>, keys: seq<string>, infos: seq<StateInfo>, j: nat)
    requires j < |infos| && LastWithId(infos, j)
    ensures StoreAll(cache, keys, infos).0[infos[j].id] == infos[j]
  {
    var init := infos[..|infos| - 1];
    var prev := StoreAll(cache, keys, init);
    assert StoreAll(cache, keys, infos) == Store(prev.0, prev.1, infos[|infos| - 1]);
    if j < |init| {
      assert infos[j] == init[j];
      assert LastWithId(init, j) by {
        forall i | j < i < |init| ensures init[i].id != init[j].id {
          assert init[i] == infos[i];
        }
      }
      StoreAllLast(cache, keys, init, j);
      assert init[j].id in Ids(init);
      assert infos[j].id in prev.0 && infos[j].id != infos[|infos| - 1].id;
    }
  }

  /** An id that `StoreAll` never stores keeps its old entry. */
  lemma {:induction false} StoreAllUntouched(cache: map<string, StateInfo>, keys: seq<string>, infos: seq<StateInfo>, k: string)
    requires k in cache && forall j :: 0 <= j < |infos| ==> infos[j].id != k
    ensures StoreAll(cache, keys, infos).0[k] == cache[k]
  {
    if infos != [] {
      var init := infos[..|infos| - 1];
      var prev := StoreAll(cache, keys, init);
      assert StoreAll(cache, keys, infos) == Store(prev.0, prev.1, infos[|infos| - 1]);
      forall j | 0 <= j < |init| ensures init[j].id != k {
        assert init[j] == infos[j];
      }
      StoreAllUntouched(cache, keys, init, k);
    }
  }

  /** The cache entries of `states`, in order. */
  function Infos(states: seq<StateDef>, measure: StateDef -> Measures): (r: seq<StateInfo>)
    ensures |r| == |states|
    ensures forall j :: 0 <= j < |states| ==> r[j] == NodeInfo(states[j], measure(states[j]).groupBox)
    ensures forall j :: 0 <= j < |states| ==> r[j].id == r[j].name == states[j].id
  {
    if states == [] then []
    else
      var last := states[|states| - 1];
      Infos(states[..|states| - 1], measure) + [NodeInfo(last, measure(last).groupBox)]
  }

  /** A state's drawn group: its cache entry and the content drawn in it. */
  function DrawnNodeOf(s: StateDef, m: Measures): DrawnNode {
    DrawnNode(NodeInfo(s, m.groupBox), DrawnContents(s, m))
  }

  /** The groups drawn for `states`, in order. */
  function DrawnNodes(states: seq<StateDef>, measure: StateDef -> Measures): (r: seq<DrawnNode>)
    ensures |r| == |states|
    ensures forall j :: 0 <= j < |states| ==> r[j] == DrawnNodeOf(states[j], measure(states[j]))
  {
    if states == [] then []
    else
      var last := states[|states| - 1];
      DrawnNodes(states[..|states| - 1], measure) + [DrawnNodeOf(last, measure(last))]
  }

  /** The edge registered for one relation, both endpoints resolved by label. */
  function ResolveEdge(keys: seq<string>, cache: map<string, StateInfo>, rel: Relation): (e: GraphEdge)
    requires KeysCached(keys, cache)
    ensures e.relation == rel && e.width == EdgeWidth
    ensures e.v.Some? ==> e.v.value in cache && cache[e.v.value].name == rel.id1
    ensures e.w.Some? ==> e.w.value in cache && cache[e.w.value].name == rel.id2
    ensures e.v.None? <==> forall i :: 0 <= i < |keys| ==> cache[keys[i]].name != rel.id1
    ensures e.w.None? <==> forall i :: 0 <= i < |keys| ==> cache[keys[i]].name != rel.id2
  {
    GraphEdge(FindByLabel(keys, cache, rel.id1), FindByLabel(keys, cache, rel.id2), rel, EdgeWidth)
  }

  function ResolveRelations(keys: seq<string>, cache: map<string, StateInfo>, rels: seq<Relation>): (r: seq<GraphEdge>)
    requires KeysCached(keys, cache)
    ensures |r| == |rels|
  {
    seq(|rels|, i requires 0 <= i < |rels| => ResolveEdge(keys, cache, rels[i]))
  }

  function TransformOf(n: LayoutNode): (t: Transform)
    requires n.record.Some?
    ensures t.target == n.v
    ensures Centre(Box(t.offset.x, t.offset.y, n.record.value.width, n.record.value.height))
         == Point2(n.record.value.x, n.record.value.y)
  {
    var p := n.record.value;
    Transform(n.v, NodeTranslate(p.x, p.y, p.width, p.height))
  }

  /** The translate applied to each node of the laid-out graph that has a
      record, in the graph's node order. */
  function NodeTransforms(ns: seq<LayoutNode>): (r: seq<Transform>)
    ensures |r| <= |ns|
  {
    if ns == [] then [] else TransformsOfNode(ns[0]) + NodeTransforms(ns[1..])
  }

  /** The transform of one node: one if it has a record, none otherwise. */
  function TransformsOfNode(n: LayoutNode): seq<Transform> {
    if n.record.Some? then [TransformOf(n)] else []
  }

  /** A transform is applied exactly for the nodes that have a record, and
      each one puts its node's centre where the layout placed it. */
  lemma {:induction false} NodeTransformsExactly(ns: seq<LayoutNode>, t: Transform)
    ensures t in NodeTransforms(ns) <==> exists i :: 0 <= i < |ns| && ns[i].record.Some? && t == TransformOf(ns[i])
    ensures t in NodeTransforms(ns) ==>
      exists i :: (0 <= i < |ns| && ns[i].record.Some? && t.target == ns[i].v
        && Centre(Box(t.offset.x, t.offset.y, ns[i].record.value.width, ns[i].record.value.height))
           == Point2(ns[i].record.value.x, ns[i].record.value.y))
  {
    if ns != [] {
      NodeTransformsExactly(ns[1..], t);
      if t in NodeTransforms(ns[1..]) {
        var i :| 0 <= i < |ns[1..]| && ns[1..][i].record.Some? && t == TransformOf(ns[1..][i]);
        assert ns[i + 1] == ns[1..][i];
      }
      if exists i :: 0 <= i < |ns| && ns[i].record.Some? && t == TransformOf(ns[i]) {
        var i :| 0 <= i < |ns| && ns[i].record.Some? && t == TransformOf(ns[i]);
        if i > 0 {
          assert ns[1..][i - 1] == ns[i];
        }
      }
    }
  }

  /** The transforms of a concatenation are those of each part, in order. */
  lemma {:induction false} NodeTransformsAppend(a: seq<LayoutNode>, b: seq<LayoutNode>)
    ensures NodeTransforms(a + b) == NodeTransforms(a) + NodeTransforms(b)
  {
    if a == [] {
      assert a + b == b;
    } else {
      assert (a + b)[1..] == a[1..] + b;
      NodeTransformsAppend(a[1..], b);
    }
  }

  /** The number of edge records the layout returns (each one is drawn). */
  function DefinedCount(es: seq<Option<EdgeData>>): nat {
    if es == [] then 0
    else DefinedCount(es[..|es| - 1]) + (if es[|es| - 1].Some? then 1 else 0)
  }

  /** The edges drawn, in the graph's edge order, starting from counter value `n`. */
  function EdgesDrawing(n: nat, es: seq<Option<EdgeData>>,
                        labelPosition: seq<Point> -> Point2,
                        measureLabel: (string, Point2) -> Box): (r: seq<DrawnEdge>)
    ensures |r| == DefinedCount(es)
    ensures forall j :: 0 <= j < |r| ==> r[j].id == EdgeId(n + j)
  {
    if es == [] then []
    else
      var prefix := EdgesDrawing(n, es[..|es| - 1], labelPosition, measureLabel);
      match es[|es| - 1]
      case None => prefix
      case Some(d) => prefix + [EdgeDrawing(n + |prefix|, d.points, d.relation, labelPosition, measureLabel)]
  }

  /** Drawing the records of `a + b` draws those of `a`, then those of `b`
      numbered on from where `a` stopped. */
  lemma {:induction false} EdgesDrawingAppend(n: nat, a: seq<Option<EdgeData>>, b: seq<Option<EdgeData>>,
                                              labelPosition: seq<Point> -> Point2, measureLabel: (string, Point2) -> Box)
    ensures EdgesDrawing(n, a + b, labelPosition, measureLabel)
         == EdgesDrawing(n, a, labelPosition, measureLabel)
          + EdgesDrawing(n + DefinedCount(a), b, labelPosition, measureLabel)
  {
    if b == [] {
      assert a + b == a;
    } else {
      var b', x := b[..|b| - 1], b[|b| - 1];
      SnocSplit(a, b);
      EdgesDrawingAppend(n, a, b', labelPosition, measureLabel);
      var front := EdgesDrawing(n, a, labelPosition, measureLabel);
      var back := EdgesDrawing(n + DefinedCount(a), b', labelPosition, measureLabel);
      assert EdgesDrawing(n, a + b', labelPosition, measureLabel) == front + back;
      match x {
        case None =>
        case Some(d) =>
          var e := EdgeDrawing(n + |front + back|, d.points, d.relation, labelPosition, measureLabel);
          assert EdgesDrawing(n, a + b, labelPosition, measureLabel) == (front + back) + [e];
          assert EdgesDrawing(n + DefinedCount(a), b, labelPosition, measureLabel) == back + [e];
          ConcatAssoc(front, back, [e]);
      }
    }
  }

  lemma SnocSplit<T>(a: seq<T>, b: seq<T>)
    requires b != []
    ensures (a + b)[..|a + b| - 1] == a + b[..|b| - 1]
    ensures (a + b)[|a + b| - 1] == b[|b| - 1]
  {
    assert (a + b)[..|a + b| - 1] == a + b[..|b| - 1];
  }

  lemma ConcatAssoc<T>(a: seq<T>, b: seq<T>, c: seq<T>)
    ensures (a + b) + c == a + (b + c)
  {
  }

  /** One record drawn on its own: a record becomes exactly the edge
      `drawEdge` draws for it with counter `n`, and a hole draws nothing. */
  lemma EdgesDrawingOne(n: nat, d: Option<EdgeData>,
                        labelPosition: seq<Point> -> Point2, measureLabel: (string, Point2) -> Box)
    ensures EdgesDrawing(n, [d], labelPosition, measureLabel)
         == match d
            case None => []
            case Some(x) => [EdgeDrawing(n, x.points, x.relation, labelPosition, measureLabel)]
  {
    assert [d][..0] == [];
  }

  /** Within one pass, no two edges share an identifier. */
  lemma EdgeIdsDistinct(n: nat, es: seq<Option<EdgeData>>,
                        labelPosition: seq<Point> -> Point2, measureLabel: (string, Point2) -> Box)
    ensures var r := EdgesDrawing(n, es, labelPosition, measureLabel);
      forall i, j :: 0 <= i < j < |r| ==> r[i].id != r[j].id
  {
    var r := EdgesDrawing(n, es, labelPosition, measureLabel);
    forall i, j | 0 <= i < j < |r|
      ensures r[i].id != r[j].id
    {
      EdgeIdInjective(n + i, n + j);
    }
  }

  /** A later pass, which starts from a counter at least past the earlier
      pass's edges, never reuses one of its identifiers. */
  lemma EdgeIdsAcrossPasses(n1: nat, es1: seq<Option<EdgeData>>, n2: nat, es2: seq<Option<EdgeData>>,
                            labelPosition: seq<Point> -> Point2, measureLabel: (string, Point2) -> Box)
    requires n1 + DefinedCount(es1) <= n2
    ensures var r1 := EdgesDrawing(n1, es1, labelPosition, measureLabel);
      var r2 := EdgesDrawing(n2, es2, labelPosition, measureLabel);
      forall i, j :: 0 <= i < |r1| && 0 <= j < |r2| ==> r1[i].id != r2[j].id
  {
    var r1 := EdgesDrawing(n1, es1, labelPosition, measureLabel);
    var r2 := EdgesDrawing(n2, es2, labelPosition, measureLabel);
    forall i, j | 0 <= i < |r1| && 0 <= j < |r2|
      ensures r1[i].id != r2[j].id
    {
      EdgeIdInjective(n1 + i, n2 + j);
    }
  }

  /** The cache invariant: every key is listed once in the key order,
      every entry is keyed and labelled by its state's id, and the state
      counter is at least the number of entries (a state drawn again under
      the same id is counted again but keeps one entry). */
  ghost predicate CacheValid(cache: map<string, StateInfo>, keys: seq<string>, count: nat) {
    && (forall k :: k in cache <==> k in keys)
    && (forall i, j :: 0 <= i < j < |keys| ==> keys[i] != keys[j])
    && (forall k :: k in cache ==> cache[k].id == k && cache[k].name == k)
    && |keys| <= count
  }

  /** What storing one entry built by `drawState` does to a valid cache: the
      invariant holds for one more counted state, exactly the entry's id is
      added to the keys, no other entry changes, and the id resolves to itself. */
  lemma StoreEffect(cache: map<string, StateInfo>, keys: seq<string>, count: nat, info: StateInfo)
    requires CacheValid(cache, keys, count) && info.id == info.name
    ensures var after := Store(cache, keys, info);
      && CacheValid(after.0, after.1, count + 1)
      && after.0.Keys == cache.Keys + {info.id} && after.0[info.id] == info
      && (forall k :: k in cache && k != info.id ==> after.0[k] == cache[k])
      && keys <= after.1
      && FindByLabel(after.1, after.0, info.id) == Some(info.id)
  {
    var after := Store(cache, keys, info);
    if info.id !in cache {
      assert info.id !in keys;
      forall k | k in after.0 ensures k in after.1 {
        if k != info.id { assert k in keys; }
      }
      forall k | k in after.1 ensures k in after.0 {
        if k != info.id { assert k in keys; }
      }
    }
    ValidResolves(after.0, after.1, count + 1, info.id);
  }

  /** In a valid cache, every entry's own id resolves to that entry. */
  lemma ValidResolves(cache: map<string, StateInfo>, keys: seq<string>, count: nat, k: string)
    requires CacheValid(cache, keys, count) && k in cache
    ensures KeysCached(keys, cache)
    ensures FindByLabel(keys, cache, k) == Some(k)
  {
    forall i | 0 <= i < |keys|
      ensures keys[i] in cache && cache[keys[i]].name == keys[i]
    {
      assert keys[i] in keys;
    }
    FindOwnLabel(keys, cache, k);
  }

  /** In a valid cache, a label lookup finds nothing exactly when no cached
      entry carries the label. */
  lemma ValidFind(cache: map<string, StateInfo>, keys: seq<string>, count: nat, wanted: string)
    requires CacheValid(cache, keys, count)
    ensures KeysCached(keys, cache)
    ensures FindByLabel(keys, cache, wanted).None? <==> forall k :: k in cache ==> cache[k].name != wanted
  {
    ValidCached(cache, keys, count);
    if FindByLabel(keys, cache, wanted).None? {
      forall k | k in cache ensures cache[k].name != wanted {
        assert k in keys;
        var i :| 0 <= i < |keys| && keys[i] == k;
      }
    }
  }

  lemma ValidCached(cache: map<string, StateInfo>, keys: seq<string>, count: nat)
    requires CacheValid(cache, keys, count)
    ensures KeysCached(keys, cache)
  {
    forall i | 0 <= i < |keys|
      ensures keys[i] in cache
    {
      assert keys[i] in keys;
    }
  }

  /** The renderer module's mutable state. Nothing ever clears it: it lives
      as long as the module and is shared by every `draw` call. */
  class RenderState {
    var idCache: map<string, StateInfo>
    /** The keys of `idCache` in insertion order, standing for `Object.keys(idCache)`. */
    var keys: seq<string>
    var stateCnt: nat
    var total: nat
    var edgeCount: nat

    ghost predicate Valid()
      reads this
    {
      CacheValid(idCache, keys, stateCnt)
    }

    /** The state when the module is loaded. */
    constructor ()
      ensures Valid()
      ensures idCache == map[] && keys == []
      ensures stateCnt == 0 && total == 0 && edgeCount == 0
    {
      idCache := map[];
      keys := [];
      stateCnt := 0;
      total := 0;
      edgeCount := 0;
    }

    /** `getGraphId`: the loop over the keys with its early return. */
    method GetGraphId(wanted: string) returns (r: Option<string>)
      requires Valid()
      ensures KeysCached(keys, idCache) && r == FindByLabel(keys, idCache, wanted)
      ensures r.Some? ==> r.value in idCache && idCache[r.value].name == wanted
      ensures r.None? <==> forall k :: k in idCache ==> idCache[k].name != wanted
    {
      ValidFind(idCache, keys, stateCnt, wanted);
      var i := 0;
      while i < |keys|
        invariant 0 <= i <= |keys|
        invariant KeysCached(keys[i..], idCache)
        invariant FindByLabel(keys, idCache, wanted) == FindByLabel(keys[i..], idCache, wanted)
      {
        if idCache[keys[i]].name == wanted {
          return Some(keys[i]);
        }
        assert keys[i..][1..] == keys[i + 1..];
        i := i + 1;
      }
      return None;
    }

    /** `drawState`: draws the variant the four guards select, stores the
        sized entry under the state's id and counts the state. */
    method DrawState(s: StateDef, m: Measures) returns (node: DrawnNode)
      requires Valid()
      modifies this`idCache, this`keys, this`stateCnt
      ensures Valid()
      ensures node == DrawnNodeOf(s, m)
      ensures (idCache, keys) == Store(old(idCache), old(keys), node.info)
      ensures stateCnt == old(stateCnt) + 1
    {
      var contents := DrawContents(s, m);
      var info := NodeInfo(s, m.groupBox);
      StoreEffect(idCache, keys, stateCnt, info);
      if s.id !in idCache {
        keys := keys + [s.id];
      }
      idCache := idCache[s.id := info];
      stateCnt := stateCnt + 1;
      node := DrawnNode(info, contents);
    }

    /** The loop of `draw` that draws every state, in key order, and hands
        its entry to the layout graph. */
    method DrawStates(states: seq<StateDef>, measure: StateDef -> Measures)
      returns (nodes: seq<DrawnNode>, graphNodes: seq<StateInfo>)
      requires Valid()
      modifies this`idCache, this`keys, this`stateCnt
      ensures Valid()
      ensures nodes == DrawnNodes(states, measure) && graphNodes == Infos(states, measure)
      ensures (idCache, keys) == StoreAll(old(idCache), old(keys), graphNodes)
      ensures stateCnt == old(stateCnt) + |states|
      ensures old(keys) <= keys && old(idCache).Keys <= idCache.Keys
    {
      nodes, graphNodes := [], [];
      var i := 0;
      while i < |states|
        invariant 0 <= i <= |states|
        invariant Valid()
        invariant stateCnt == old(stateCnt) + i
        invariant nodes == DrawnNodes(states[..i], measure) && graphNodes == Infos(states[..i], measure)
        invariant (idCache, keys) == StoreAll(old(idCache), old(keys), graphNodes)
      {
        assert states[..i + 1][..i] == states[..i];
        assert (graphNodes + [NodeInfo(states[i], measure(states[i]).groupBox)])[..i] == graphNodes;
        var node := DrawState(states[i], measure(states[i]));
        nodes := nodes + [node];
        graphNodes := graphNodes + [node.info];
        i := i + 1;
      }
      assert states[..|states|] == states;
    }

    /** The `forEach` of `draw` over the relations: both endpoints of each
        are looked up by label, and the edge is registered whatever the
        lookups return. */
    method RegisterEdges(relations: seq<Relation>) returns (edges: seq<GraphEdge>)
      requires Valid()
      ensures KeysCached(keys, idCache) && edges == ResolveRelations(keys, idCache, relations)
    {
      ValidCached(idCache, keys, stateCnt);
      edges := [];
      var r := 0;
      while r < |relations|
        invariant 0 <= r <= |relations|
        invariant |edges| == r
        invariant forall j :: 0 <= j < r ==> edges[j] == ResolveEdge(keys, idCache, relations[j])
      {
        var v := GetGraphId(relations[r].id1);
        var w := GetGraphId(relations[r].id2);
        edges := edges + [GraphEdge(v, w, relations[r], EdgeWidth)];
        r := r + 1;
      }
    }

    /** `drawEdge`: filters the points, names the path after the counter,
        attaches the marker and the optional label, then counts the edge. */
    method DrawEdge(points: seq<Point>, relation: Relation,
                    labelPosition: seq<Point> -> Point2, measureLabel: (string, Point2) -> Box)
      returns (e: DrawnEdge)
      modifies this`edgeCount
      ensures e == EdgeDrawing(old(edgeCount), points, relation, labelPosition, measureLabel)
      ensures edgeCount == old(edgeCount) + 1
    {
      var cleaned := SanitizePoints(points);
      var id := EdgeId(edgeCount);
      var caption: Option<EdgeLabel> := None;
      if relation.title.Some? {
        var anchor := labelPosition(cleaned);
        var bounds := measureLabel(relation.title.value, anchor);
        caption := Some(EdgeLabel(relation.title.value, anchor, EdgeLabelBox(bounds)));
      }
      e := DrawnEdge(id, cleaned, MarkerEnd(), caption);
      edgeCount := edgeCount + 1;
    }

    /** The `forEach` of `draw` over the laid-out edges, calling `drawEdge`
        for each one that has a record. */
    method DrawEdges(es: seq<Option<EdgeData>>,
                     labelPosition: seq<Point> -> Point2, measureLabel: (string, Point2) -> Box)
      returns (drawn: seq<DrawnEdge>)
      modifies this`edgeCount
      ensures drawn == EdgesDrawing(old(edgeCount), es, labelPosition, measureLabel)
      ensures edgeCount == old(edgeCount) + |drawn|
    {
      drawn := [];
      var i := 0;
      while i < |es|
        invariant 0 <= i <= |es|
        invariant drawn == EdgesDrawing(old(edgeCount), es[..i], labelPosition, measureLabel)
        invariant edgeCount == old(edgeCount) + |drawn|
      {
        assert es[..i + 1][..i] == es[..i];
        match es[i] {
          case None =>
          case Some(d) =>
            var e := DrawEdge(d.points, d.relation, labelPosition, measureLabel);
            drawn := drawn + [e];
        }
        i := i + 1;
      }
      assert es[..|es|] == es;
    }

    /** `draw`: draws and registers every state, resolves every relation's
        endpoints by label, lays the graph out, moves each node into place,
        draws the edges and sets the viewBox. The cache and the counters are
        not reset first, so entries and edge numbers carry over from earlier
        calls. */
    method Draw(states: seq<StateDef>, relations: seq<Relation>,
                measure: StateDef -> Measures, layout: LayoutGraph -> Layout,
                labelPosition: seq<Point> -> Point2, measureLabel: (string, Point2) -> Box)
      returns (d: Diagram)
      requires Valid()
      modifies this
      ensures Valid() && KeysCached(keys, idCache)
      ensures total == |states| && stateCnt == old(stateCnt) + |states|
      ensures (idCache, keys) == StoreAll(old(idCache), old(keys), Infos(states, measure))
      ensures old(keys) <= keys && old(idCache).Keys <= idCache.Keys
      ensures forall i :: 0 <= i < |states| ==> FindByLabel(keys, idCache, states[i].id) == Some(states[i].id)
      ensures forall k :: k in old(idCache) ==> FindByLabel(keys, idCache, k) == Some(k)
      ensures d.nodes == DrawnNodes(states, measure)
      ensures d.graph == LayoutGraph(Infos(states, measure), ResolveRelations(keys, idCache, relations))
      ensures d.transforms == NodeTransforms(layout(d.graph).nodes)
      ensures d.edges == EdgesDrawing(old(edgeCount), layout(d.graph).edges, labelPosition, measureLabel)
      ensures edgeCount == old(edgeCount) + |d.edges|
      ensures d.viewBox == ViewBox(layout(d.graph).width, layout(d.graph).height)
    {
      total := |states|;
      var nodes, graphNodes := DrawStates(states, measure);
      var graphEdges := RegisterEdges(relations);
      var graph := LayoutGraph(graphNodes, graphEdges);
      var laidOut := layout(graph);
      var transforms := NodeTransforms(laidOut.nodes);
      var edges := DrawEdges(laidOut.edges, labelPosition, measureLabel);
      d := Diagram(nodes, graph, transforms, edges, ViewBox(laidOut.width, laidOut.height));
      ValidCached(idCache, keys, stateCnt);
      forall k | k in old(idCache)
        ensures FindByLabel(keys, idCache, k) == Some(k)
      {
        ValidResolves(idCache, keys, stateCnt, k);
      }
      forall j | 0 <= j < |states|
        ensures FindByLabel(keys, idCache, states[j].id) == Some(states[j].id)
      {
        assert graphNodes[j].id == states[j].id;
        assert graphNodes[j].id in idCache;
        ValidResolves(idCache, keys, stateCnt, states[j].id);
      }
    }
  }
}
