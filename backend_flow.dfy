/** The first step of the older PlantBuilder (PlantsimBackend/Backend/Builder.py,
    `ParsePlantInfo`): the front end's flow is a list of components, nodes and
    edges alike; the builder keeps one record per node, in order, with the
    node's `data` as its parameters minus the display-only `label` and
    `color`. Edge records are built and then dropped. */
module BackendFlow {
  import opened Values

  /** One entry of the flow's `components` list; a key the entry lacks is
      None. */
  datatype FlowComponent = FlowComponent(
    id: Option<string>,
    kind: Option<string>,                 // the "type" key
    data: Option<map<string, Value>>,
    source: Option<Value>,
    target: Option<Value>)

  /** The record kept for a node: "id", "type" and "parameters". */
  datatype NodeInfo = NodeInfo(id: string, kind: string, parameters: map<string, Value>)

  /** The record built for an edge and never used. */
  datatype EdgeInfo = EdgeInfo(id: string, source: Value, target: Value)

  /** `d.get(key, default)`. */
  function GetOr<T>(o: Option<T>, default: T): T {
    if o.Some? then o.value else default
  }

  /** The display-only keys the builder skips. */
  predicate DisplayOnly(key: string) {
    key == "label" || key == "color"
  }

  /** A node's parameters: every `data` entry except `label` and `color`. */
  function Parameters(data: map<string, Value>): (p: map<string, Value>)
    ensures p.Keys == data.Keys - {"label", "color"}
    ensures forall k :: k in p ==> p[k] == data[k]
  {
    map k | k in data && !DisplayOnly(k) :: data[k]
  }

  /** A component is an edge when its type is "edge"; a missing type is "",
      which is a node. */
  predicate IsEdge(c: FlowComponent) {
    GetOr(c.kind, "") == "edge"
  }

  /** The node record for a component; no `data` gives no parameters. */
  function NodeOf(c: FlowComponent): NodeInfo {
    NodeInfo(GetOr(c.id, ""), GetOr(c.kind, ""), if c.data.Some? then Parameters(c.data.value) else map[])
  }

  /** The node records of `ParsePlantInfo`, one per non-edge component, in
      order. */
  function ParseNodes(cs: seq<FlowComponent>): seq<NodeInfo> {
    if cs == [] then []
    else
      var c := cs[|cs| - 1];
      ParseNodes(cs[..|cs| - 1]) + if IsEdge(c) then [] else [NodeOf(c)]
  }

  lemma {:induction false} ParseNodesAppend(a: seq<FlowComponent>, b: seq<FlowComponent>)
    ensures ParseNodes(a + b) == ParseNodes(a) + ParseNodes(b)
    decreases |b|
  {
    if b == [] {
      assert a + b == a;
    } else {
      var n := |b|;
      ParseNodesAppend(a, b[..n - 1]);
      assert (a + b)[..|a + b| - 1] == a + b[..n - 1];
    }
  }

  /** Each component's record, if it has one, sits after the records of the
      components before it and before those of the components after it. */
  lemma {:induction false} ParseNodesSplit(cs: seq<FlowComponent>, i: nat)
    requires i < |cs|
    ensures ParseNodes(cs) ==
              ParseNodes(cs[..i]) + (if IsEdge(cs[i]) then [] else [NodeOf(cs[i])]) + ParseNodes(cs[i + 1..])
  {
    var front, back := cs[..i + 1], cs[i + 1..];
    assert front + back == cs;
    ParseNodesAppend(front, back);
    assert front[..|front| - 1] == cs[..i];
    assert front[|front| - 1] == cs[i];
  }

  /** No record is an edge, and every record is some component's. */
  lemma {:induction false} ParseNodesAreNodes(cs: seq<FlowComponent>)
    ensures forall n :: n in ParseNodes(cs) ==> n.kind != "edge"
    ensures forall n :: n in ParseNodes(cs) ==> exists c :: c in cs && !IsEdge(c) && n == NodeOf(c)
  {
    if cs != [] {
      var p := cs[..|cs| - 1];
      ParseNodesAreNodes(p);
      forall n | n in ParseNodes(cs)
        ensures n.kind != "edge"
        ensures exists c :: c in cs && !IsEdge(c) && n == NodeOf(c)
      {
        if n in ParseNodes(p) {
          var c :| c in p && !IsEdge(c) && n == NodeOf(c);
          assert c in cs;
        } else {
          assert n == NodeOf(cs[|cs| - 1]) && !IsEdge(cs[|cs| - 1]);
        }
      }
    }
  }

  /** A flow without edges keeps every component, one record each, in
      order. */
  lemma {:induction false} ParseNodesWithoutEdges(cs: seq<FlowComponent>)
    requires forall i :: 0 <= i < |cs| ==> !IsEdge(cs[i])
    ensures |ParseNodes(cs)| == |cs|
    ensures forall i :: 0 <= i < |cs| ==> ParseNodes(cs)[i] == NodeOf(cs[i])
  {
    if cs != [] {
      ParseNodesWithoutEdges(cs[..|cs| - 1]);
    }
  }

  /** A flow of edges only keeps nothing. */
  lemma {:induction false} ParseNodesOnlyEdges(cs: seq<FlowComponent>)
    requires forall i :: 0 <= i < |cs| ==> IsEdge(cs[i])
    ensures ParseNodes(cs) == []
  {
    if cs != [] {
      ParseNodesOnlyEdges(cs[..|cs| - 1]);
    }
  }

  /** The inner loop of `ParsePlantInfo` over `data.items()`: every entry
      except `label` and `color` is copied. */
  method ExtractParameters(data: map<string, Value>) returns (params: map<string, Value>)
    ensures params == Parameters(data)
  {
    params := map[];
    var rest := data.Keys;
    while rest != {}
      invariant rest <= data.Keys
      invariant params == map k | k in data.Keys - rest && !DisplayOnly(k) :: data[k]
      decreases rest
    {
      var key :| key in rest;
      if !DisplayOnly(key) {
        params := params[key := data[key]];
      }
      rest := rest - {key};
    }
  }

  /** The loop of `ParsePlantInfo`: nodes are kept, edges built and
      dropped. */
  method ParseComponents(cs: seq<FlowComponent>) returns (nodes: seq<NodeInfo>)
    ensures nodes == ParseNodes(cs)
  {
    nodes := [];
    var edges: seq<EdgeInfo> := [];
    for i := 0 to |cs|
      invariant nodes == ParseNodes(cs[..i])
    {
      var c := cs[i];
      assert cs[..i + 1][..i] == cs[..i];
      if GetOr(c.kind, "") != "edge" {
        var params := map[];
        if c.data.Some? {
          params := ExtractParameters(c.data.value);
        }
        nodes := nodes + [NodeInfo(GetOr(c.id, ""), GetOr(c.kind, ""), params)];
      } else {
        edges := edges + [EdgeInfo(GetOr(c.id, ""), GetOr(c.source, Str("")), GetOr(c.target, Str("")))];
      }
    }
    assert cs[..|cs|] == cs;
  }
}
