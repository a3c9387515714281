/** The older PlantBuilder (PlantsimBackend/Backend/Builder.py). `ParsePlantInfo`
    keeps the flow's node records; `Initialize` empties the four global lists
    of the `config` module, builds one entity per node record in order (type
    "source", "station" or "drain", and a Conveyor for every other type),
    files it under its id (a later node with the same id wins), and then, list
    by list, replaces each entity's raw `outputs` value by the entities its
    ids name, skipping unknown ids. */
module BackendBuilder {
  import opened Values
  import opened BackendFlow
  import opened BackendRouting
  import BackendSource
  import BackendStation
  import BackendConveyor
  import BackendDrain

  /** A reference to a built entity; outputs are themselves components. */
  datatype Component =
    | SourceRef(source: BackendSource.Source<Component>)
    | StationRef(station: BackendStation.Station<Component>)
    | ConveyorRef(conveyor: BackendConveyor.Conveyor<Component>)
    | DrainRef(drain: BackendDrain.Drain<Component>)

  /** Whether a component defines `Process_Order`: a Source does not. */
  predicate Accepts(c: Component) {
    !c.SourceRef?
  }

  /** The object that holds a component's `outputs`. */
  function Holder(c: Component): object {
    match c
    case SourceRef(s) => s.port
    case StationRef(s) => s.port
    case ConveyorRef(v) => v.port
    case DrainRef(d) => d
  }

  function OutputsOf(c: Component): seq<Component>
    reads Holder(c)
  {
    match c
    case SourceRef(s) => s.port.outputs
    case StationRef(s) => s.port.outputs
    case ConveyorRef(v) => v.port.outputs
    case DrainRef(d) => d.outputs
  }

  /** The constructor arguments of an entity. */
  datatype Plan =
    | SourcePlan(id: string, limit: Option<int>, interval: int, startTime: int, endTime: Option<int>, strategy: Strategy)
    | StationPlan(id: string, processingTime: int, capacity: int, strategy: Strategy)
    | DrainPlan(id: string, capacity: int, processingTime: int)
    | ConveyorPlan(id: string, speed: int, length: int, capacity: int, strategy: Strategy)

  /** The arguments a component was built with. */
  function PlanOf(c: Component): Plan {
    match c
    case SourceRef(s) => SourcePlan(s.id, s.limit, s.interval, s.startTime, s.endTime, s.port.strategy)
    case StationRef(s) => StationPlan(s.id, s.processingTime, s.capacity, s.port.strategy)
    case DrainRef(d) => DrainPlan(d.id, d.capacity, d.processingTime)
    case ConveyorRef(v) => ConveyorPlan(v.id, v.speed, v.length, v.capacity, v.port.strategy)
  }

  /** Arguments the entity constructors accept: simpy's Resource wants at
      least one slot, and a conveyor's transit time divides by its speed. */
  predicate Buildable(p: Plan) {
    match p
    case SourcePlan(_, _, _, _, _, _) => true
    case StationPlan(_, _, capacity, _) => 0 < capacity
    case DrainPlan(_, capacity, _) => 0 < capacity
    case ConveyorPlan(_, speed, _, capacity, _) => 0 < capacity && speed != 0
  }

  datatype InitError =
    | BadInt(id: string)              // int() raised on one of the node's numeric parameters
    | NonPositiveCapacity(id: string) // simpy.Resource refused the capacity (ValueError)
    | ZeroSpeed(id: string)           // the conveyor's transit time divided by zero
    | OutputsUnbound(id: string)      // a drain read `outputs` before any node set it
    | NotIterable(id: string)         // the node's outputs value cannot be iterated
    | Unhashable(id: string)          // an output id is a list, which cannot key a dict

  /** `int(value)` of the numeric parameter `key`, 0 when the node does not
      set it; None where `int()` raises. */
  function IntParam(params: map<string, Value>, key: string): (r: Option<int>)
    ensures key !in params ==> r == Some(0)
  {
    if key in params then ToInt(params[key]) else Some(0)
  }

  /** The `strategy` parameter, "" when absent. */
  function StrategyParam(params: map<string, Value>): Strategy {
    StrategyOf(if "strategy" in params then params["strategy"] else Str(""))
  }

  /** Whether building this node assigns the `outputs` local: every branch
      but the drain's sets it, the drain's only from its own parameter. */
  predicate SetsOutputs(n: NodeInfo) {
    n.kind != "drain" || "outputs" in n.parameters
  }

  /** The value a node's branch assigns to `outputs`: its parameter, or `[]`
      where the branch starts from an empty list. */
  function OutputsValue(n: NodeInfo): Value {
    if "outputs" in n.parameters then n.parameters["outputs"] else List([])
  }

  /** The `outputs` local after a node's branch, given its value before. */
  function NextLeak(n: NodeInfo, leaked: Option<Value>): Option<Value> {
    if SetsOutputs(n) then Some(OutputsValue(n)) else leaked
  }

  /** The `outputs` local after the branches of `nodes`; None while unbound. */
  function LeakAfter(nodes: seq<NodeInfo>): Option<Value> {
    if nodes == [] then None else NextLeak(nodes[|nodes| - 1], LeakAfter(nodes[..|nodes| - 1]))
  }

  /** The source branch: four integers, then the constructor. */
  function SourceBlueprint(n: NodeInfo): (r: Result<(Plan, Value), InitError>)
    ensures r.Ok? ==> r.value.0.SourcePlan? && r.value.0.id == n.id && r.value.1 == OutputsValue(n)
    ensures r.Ok? ==> r.value.0.strategy == StrategyParam(n.parameters)
    ensures r.Err? ==> r.error == BadInt(n.id)
  {
    var p := n.parameters;
    var endTime, startTime := IntParam(p, "endTime"), IntParam(p, "startTime");
    var limit, interval := IntParam(p, "limit"), IntParam(p, "interval");
    if endTime.None? || startTime.None? || limit.None? || interval.None? then Err(BadInt(n.id))
    else
      Ok((SourcePlan(n.id, Some(limit.value), interval.value, startTime.value, Some(endTime.value), StrategyParam(p)),
          OutputsValue(n)))
  }

  /** The station branch: two integers, then the constructor, whose
      resource refuses a capacity below 1. */
  function StationBlueprint(n: NodeInfo): (r: Result<(Plan, Value), InitError>)
    ensures r.Ok? ==> r.value.0.StationPlan? && r.value.0.id == n.id && 0 < r.value.0.capacity
    ensures r.Ok? ==> r.value.1 == OutputsValue(n) && r.value.0.strategy == StrategyParam(n.parameters)
    ensures r.Err? ==> r.error in {BadInt(n.id), NonPositiveCapacity(n.id)}
  {
    var p := n.parameters;
    var capacity, processingTime := IntParam(p, "capacity"), IntParam(p, "processingTime");
    if capacity.None? || processingTime.None? then Err(BadInt(n.id))
    else if capacity.value <= 0 then Err(NonPositiveCapacity(n.id))
    else Ok((StationPlan(n.id, processingTime.value, capacity.value, StrategyParam(p)), OutputsValue(n)))
  }

  /** The drain branch: two integers, the constructor, and then the
      `outputs` local, inherited from an earlier node when the drain has no
      `outputs` parameter of its own. */
  function DrainBlueprint(n: NodeInfo, leaked: Option<Value>): (r: Result<(Plan, Value), InitError>)
    requires n.kind == "drain"
    ensures r.Ok? ==> r.value.0.DrainPlan? && r.value.0.id == n.id && 0 < r.value.0.capacity
    ensures r.Ok? ==> Some(r.value.1) == NextLeak(n, leaked)
    ensures r.Err? ==> r.error in {BadInt(n.id), NonPositiveCapacity(n.id), OutputsUnbound(n.id)}
    ensures r.Err? && r.error.OutputsUnbound? ==> leaked.None? && !SetsOutputs(n)
  {
    var p := n.parameters;
    var capacity, processingTime := IntParam(p, "capacity"), IntParam(p, "processingTime");
    if capacity.None? || processingTime.None? then Err(BadInt(n.id))
    else if capacity.value <= 0 then Err(NonPositiveCapacity(n.id))
    else if "outputs" in p then Ok((DrainPlan(n.id, capacity.value, processingTime.value), p["outputs"]))
    else if leaked.None? then Err(OutputsUnbound(n.id))
    else Ok((DrainPlan(n.id, capacity.value, processingTime.value), leaked.value))
  }

  /** The branch for every other type: a conveyor, whose resource is made
      before its transit time divides by the speed. */
  function ConveyorBlueprint(n: NodeInfo): (r: Result<(Plan, Value), InitError>)
    ensures r.Ok? ==> r.value.0.ConveyorPlan? && r.value.0.id == n.id
    ensures r.Ok? ==> 0 < r.value.0.capacity && r.value.0.speed != 0
    ensures r.Ok? ==> r.value.1 == OutputsValue(n) && r.value.0.strategy == StrategyParam(n.parameters)
    ensures r.Err? ==> r.error in {BadInt(n.id), NonPositiveCapacity(n.id), ZeroSpeed(n.id)}
  {
    var p := n.parameters;
    var length, speed, capacity := IntParam(p, "length"), IntParam(p, "speed"), IntParam(p, "capacity");
    if length.None? || speed.None? || capacity.None? then Err(BadInt(n.id))
    else if capacity.value <= 0 then Err(NonPositiveCapacity(n.id))
    else if speed.value == 0 then Err(ZeroSpeed(n.id))
    else Ok((ConveyorPlan(n.id, speed.value, length.value, capacity.value, StrategyParam(p)), OutputsValue(n)))
  }

  /** One node's branch of `Initialize`, chosen by its type: the constructor
      arguments and the raw outputs value, or the exception it raises. */
  function Blueprint(n: NodeInfo, leaked: Option<Value>): (r: Result<(Plan, Value), InitError>)
    ensures r.Ok? ==> r.value.0.id == n.id && Buildable(r.value.0)
    ensures r.Ok? ==> (r.value.0.SourcePlan? <==> n.kind == "source")
    ensures r.Ok? ==> (r.value.0.StationPlan? <==> n.kind == "station")
    ensures r.Ok? ==> (r.value.0.DrainPlan? <==> n.kind == "drain")
    ensures r.Ok? ==> (r.value.0.ConveyorPlan? <==> n.kind !in {"source", "station", "drain"})
    ensures r.Ok? ==> Some(r.value.1) == NextLeak(n, leaked)
    ensures r.Ok? && !r.value.0.DrainPlan? ==> r.value.0.strategy == StrategyParam(n.parameters)
    ensures r.Err? && r.error.ZeroSpeed? ==> n.kind !in {"source", "station", "drain"}
    ensures r.Err? && r.error.OutputsUnbound? ==> n.kind == "drain" && leaked.None?
  {
    if n.kind == "source" then SourceBlueprint(n)
    else if n.kind == "station" then StationBlueprint(n)
    else if n.kind == "drain" then DrainBlueprint(n, leaked)
    else ConveyorBlueprint(n)
  }

  /** A station, drain or conveyor without a `capacity` parameter gets the
      default 0, which the resource refuses. */
  lemma DefaultCapacityFails(n: NodeInfo, leaked: Option<Value>)
    requires n.kind != "source" && "capacity" !in n.parameters
    requires "processingTime" in n.parameters ==> ToInt(n.parameters["processingTime"]).Some?
    requires "length" in n.parameters ==> ToInt(n.parameters["length"]).Some?
    requires "speed" in n.parameters ==> ToInt(n.parameters["speed"]).Some?
    ensures Blueprint(n, leaked) == Err(NonPositiveCapacity(n.id))
  {
  }

  /** A conveyor with a usable capacity but no `speed` parameter divides by
      the default speed 0. */
  lemma DefaultSpeedFails(n: NodeInfo, leaked: Option<Value>)
    requires n.kind !in {"source", "station", "drain"} && "speed" !in n.parameters
    requires "length" in n.parameters ==> ToInt(n.parameters["length"]).Some?
    requires "capacity" in n.parameters && ToInt(n.parameters["capacity"]).Some?
    requires ToInt(n.parameters["capacity"]).value > 0
    ensures Blueprint(n, leaked) == Err(ZeroSpeed(n.id))
  {
  }

  /** The first loop of `Initialize`: every node's arguments and raw outputs,
      or the first node's exception. */
  function Plans(nodes: seq<NodeInfo>): Result<seq<(Plan, Value)>, InitError> {
    if nodes == [] then Ok([])
    else
      var prefix := nodes[..|nodes| - 1];
      match Plans(prefix)
      case Err(e) => Err(e)
      case Ok(ps) =>
        match Blueprint(nodes[|nodes| - 1], LeakAfter(prefix))
        case Err(e) => Err(e)
        case Ok(p) => Ok(ps + [p])
  }

  /** The branch of node i, run after the nodes before it. */
  function Step(nodes: seq<NodeInfo>, i: nat): Result<(Plan, Value), InitError>
    requires i < |nodes|
  {
    Blueprint(nodes[i], LeakAfter(nodes[..i]))
  }

  lemma StepPrefix(nodes: seq<NodeInfo>, m: nat, i: nat)
    requires i < m <= |nodes|
    ensures Step(nodes[..m], i) == Step(nodes, i)
  {
    assert nodes[..m][..i] == nodes[..i];
  }

  /** The first loop either builds every node, each from its own parameters
      and the outputs local its predecessors left, or stops at the first node
      whose branch raises, with that node's exception. */
  lemma {:induction false} PlansShape(nodes: seq<NodeInfo>)
    ensures Plans(nodes).Ok? ==>
              && |Plans(nodes).value| == |nodes|
              && forall i :: 0 <= i < |nodes| ==> Step(nodes, i) == Ok(Plans(nodes).value[i])
    ensures Plans(nodes).Err? ==>
              exists f :: && 0 <= f < |nodes| && Step(nodes, f) == Err(Plans(nodes).error)
                          && forall i :: 0 <= i < f ==> Step(nodes, i).Ok?
  {
    if nodes != [] {
      var n := |nodes|;
      var prefix := nodes[..n - 1];
      PlansShape(prefix);
      PlansNext(nodes, n - 1);
      assert nodes[..n] == nodes;
      forall i | 0 <= i < n - 1
        ensures Step(prefix, i) == Step(nodes, i)
      {
        StepPrefix(nodes, n - 1, i);
      }
      if Plans(prefix).Err? {
        var f :| && 0 <= f < |prefix| && Step(prefix, f) == Err(Plans(prefix).error)
                 && forall i :: 0 <= i < f ==> Step(prefix, i).Ok?;
        assert Step(nodes, f) == Err(Plans(nodes).error);
      } else if Step(nodes, n - 1).Ok? {
        var ps := Plans(prefix).value;
        assert Plans(nodes).value == ps + [Step(nodes, n - 1).value];
        forall i | 0 <= i < n
          ensures Step(nodes, i) == Ok(Plans(nodes).value[i])
        {
          if i < n - 1 {
            assert Plans(nodes).value[i] == ps[i];
          }
        }
      }
    }
  }

  /** One more iteration of the first loop. */
  lemma PlansNext(nodes: seq<NodeInfo>, i: nat)
    requires i < |nodes|
    ensures LeakAfter(nodes[..i + 1]) == NextLeak(nodes[i], LeakAfter(nodes[..i]))
    ensures Plans(nodes[..i + 1]) ==
              if Plans(nodes[..i]).Err? then Plans(nodes[..i])
              else if Step(nodes, i).Err? then Err(Step(nodes, i).error)
              else Ok(Plans(nodes[..i]).value + [Step(nodes, i).value])
  {
    assert nodes[..i + 1][..i] == nodes[..i];
  }

  /** The `outputs` local is unbound exactly while every node so far was a
      drain without outputs of its own. */
  lemma {:induction false} LeakAfterNone(nodes: seq<NodeInfo>)
    ensures LeakAfter(nodes).None? <==> forall k :: 0 <= k < |nodes| ==> !SetsOutputs(nodes[k])
  {
    if nodes != [] {
      var prefix := nodes[..|nodes| - 1];
      LeakAfterNone(prefix);
      assert forall k :: 0 <= k < |prefix| ==> prefix[k] == nodes[k];
    }
  }

  /** Otherwise it holds the value the last node that set it assigned. */
  lemma {:induction false} LeakAfterLastSetter(nodes: seq<NodeInfo>, j: nat)
    requires j < |nodes| && SetsOutputs(nodes[j])
    requires forall k :: j < k < |nodes| ==> !SetsOutputs(nodes[k])
    ensures LeakAfter(nodes) == Some(OutputsValue(nodes[j]))
    decreases |nodes|
  {
    if j < |nodes| - 1 {
      var prefix := nodes[..|nodes| - 1];
      LeakAfterLastSetter(prefix, j);
    }
  }

  /** `component_dict` after filing `cs` in order under their ids. */
  function Dict(cs: seq<Component>): map<string, Component> {
    if cs == [] then map[]
    else
      var c := cs[|cs| - 1];
      Dict(cs[..|cs| - 1])[PlanOf(c).id := c]
  }

  /** Every component's id is filed, and every filed id names a component
      filed under it. */
  lemma {:induction false} DictKeys(cs: seq<Component>)
    ensures forall i :: 0 <= i < |cs| ==> PlanOf(cs[i]).id in Dict(cs)
    ensures forall id :: id in Dict(cs) ==> exists i :: 0 <= i < |cs| && PlanOf(cs[i]).id == id && Dict(cs)[id] == cs[i]
  {
    if cs != [] {
      var prefix := cs[..|cs| - 1];
      DictKeys(prefix);
      assert forall i :: 0 <= i < |prefix| ==> prefix[i] == cs[i];
    }
  }

  /** An id names the last component filed under it. */
  lemma {:induction false} DictLastWins(cs: seq<Component>, i: nat)
    requires i < |cs|
    requires forall j :: i < j < |cs| ==> PlanOf(cs[j]).id != PlanOf(cs[i]).id
    ensures PlanOf(cs[i]).id in Dict(cs) && Dict(cs)[PlanOf(cs[i]).id] == cs[i]
    decreases |cs|
  {
    if i < |cs| - 1 {
      DictLastWins(cs[..|cs| - 1], i);
    }
  }

  /** The list entries of one node's outputs, in order; None where an entry
      is a list, which Python cannot look up in a dict. An id no component
      has is skipped with a warning, and so is any other scalar, since every
      id is a string. */
  function ResolveItems(items: seq<Value>, dict: map<string, Component>): Option<seq<Component>> {
    if items == [] then Some([])
    else
      match ResolveItems(items[..|items| - 1], dict)
      case None => None
      case Some(rs) =>
        var x := items[|items| - 1];
        if x.List? then None
        else if x.Str? && x.s in dict then Some(rs + [dict[x.s]])
        else Some(rs)
  }

  /** Resolving the outputs value of node `id`. */
  function Resolve(v: Value, dict: map<string, Component>, id: string): Result<seq<Component>, InitError> {
    match Iterate(v)
    case None => Err(NotIterable(id))
    case Some(items) =>
      match ResolveItems(items, dict)
      case None => Err(Unhashable(id))
      case Some(rs) => Ok(rs)
  }

  /** Resolution fails exactly when some entry is a list. */
  lemma {:induction false} ResolveItemsFails(items: seq<Value>, dict: map<string, Component>)
    ensures ResolveItems(items, dict).None? <==> exists i :: 0 <= i < |items| && items[i].List?
  {
    if items != [] {
      var prefix := items[..|items| - 1];
      ResolveItemsFails(prefix, dict);
      assert forall i :: 0 <= i < |prefix| ==> prefix[i] == items[i];
      if ResolveItems(prefix, dict).None? {
        var i :| 0 <= i < |prefix| && prefix[i].List?;
        assert items[i].List?;
      }
    }
  }

  /** Every resolved output is a filed component, and there are no more of
      them than entries. */
  lemma {:induction false} ResolveItemsFiled(items: seq<Value>, dict: map<string, Component>)
    requires ResolveItems(items, dict).Some?
    ensures |ResolveItems(items, dict).value| <= |items|
    ensures forall r :: r in ResolveItems(items, dict).value ==> r in dict.Values
  {
    if items != [] {
      ResolveItemsFiled(items[..|items| - 1], dict);
    }
  }

  /** When every entry is a known id, the outputs are the components those
      ids name, one for one and in order. */
  lemma {:induction false} ResolveItemsAllKnown(items: seq<Value>, dict: map<string, Component>)
    requires forall i :: 0 <= i < |items| ==> items[i].Str? && items[i].s in dict
    ensures ResolveItems(items, dict).Some?
    ensures |ResolveItems(items, dict).value| == |items|
    ensures forall i :: 0 <= i < |items| ==> ResolveItems(items, dict).value[i] == dict[items[i].s]
  {
    if items != [] {
      ResolveItemsAllKnown(items[..|items| - 1], dict);
    }
  }

  /** Entries that name no component contribute nothing. */
  lemma {:induction false} ResolveItemsNoneKnown(items: seq<Value>, dict: map<string, Component>)
    requires forall i :: 0 <= i < |items| ==> !items[i].List? && !(items[i].Str? && items[i].s in dict)
    ensures ResolveItems(items, dict) == Some([])
  {
    if items != [] {
      ResolveItemsNoneKnown(items[..|items| - 1], dict);
    }
  }

  /** Resolution works entry by entry: the outputs of a concatenation are
      the outputs of its parts, concatenated. */
  lemma {:induction false} ResolveItemsAppend(a: seq<Value>, b: seq<Value>, dict: map<string, Component>)
    requires ResolveItems(a, dict).Some? && ResolveItems(b, dict).Some?
    ensures ResolveItems(a + b, dict) == Some(ResolveItems(a, dict).value + ResolveItems(b, dict).value)
    decreases |b|
  {
    if b == [] {
      assert a + b == a;
      assert ResolveItems(a, dict).value + [] == ResolveItems(a, dict).value;
    } else {
      var b' := b[..|b| - 1];
      assert (a + b)[..|a + b| - 1] == a + b';
      assert (a + b)[|a + b| - 1] == b[|b| - 1];
      ResolveItemsAppend(a, b', dict);
      var ra, rb := ResolveItems(a, dict).value, ResolveItems(b', dict).value;
      var x := b[|b| - 1];
      if x.Str? && x.s in dict {
        assert ra + (rb + [dict[x.s]]) == (ra + rb) + [dict[x.s]];
      }
    }
  }

  /** One `for output_id in x.outputs` loop of `Initialize`. */
  method ResolveOutputs(v: Value, dict: map<string, Component>, id: string) returns (r: Result<seq<Component>, InitError>)
    ensures r == Resolve(v, dict, id)
  {
    var items: seq<Value>;
    match v {
      case List(xs) => items := xs;
      case Str(s) => items := Iterate(v).value;
      case _ => return Err(NotIterable(id));
    }
    var resolved: seq<Component> := [];
    for i := 0 to |items|
      invariant ResolveItems(items[..i], dict) == Some(resolved)
    {
      var x := items[i];
      assert items[..i + 1][..i] == items[..i];
      if x.List? {
        assert ResolveItems(items[..i + 1], dict).None?;
        ResolveItemsFails(items, dict);
        return Err(Unhashable(id));
      }
      if x.Str? && x.s in dict {
        resolved := resolved + [dict[x.s]];
      }
    }
    assert items[..|items|] == items;
    r := Ok(resolved);
  }

  /** The four lists of resolution, in the order `Initialize` walks them. */
  datatype Pass = SourcePass | StationPass | ConveyorPass | DrainPass

  predicate InPass(c: Component, p: Pass) {
    match p
    case SourcePass => c.SourceRef?
    case StationPass => c.StationRef?
    case ConveyorPass => c.ConveyorRef?
    case DrainPass => c.DrainRef?
  }

  function Holders(cs: seq<Component>): set<object> {
    set i | 0 <= i < |cs| :: Holder(cs[i])
  }

  /** A component whose holder is new keeps the holders apart. */
  lemma Extend(cs: seq<Component>, c: Component)
    requires Separate(cs) && Holder(c) !in Holders(cs)
    ensures Separate(cs + [c]) && Holders(cs + [c]) == Holders(cs) + {Holder(c)}
  {
    var cs' := cs + [c];
    assert forall i :: 0 <= i < |cs| ==> cs'[i] == cs[i];
    assert cs'[|cs|] == c;
  }

  /** No two components share an outputs holder. */
  ghost predicate Separate(cs: seq<Component>) {
    forall a, b :: 0 <= a < b < |cs| ==> Holder(cs[a]) != Holder(cs[b])
  }

  /** The components that `config.Sources` holds, in order. */
  function Sources(cs: seq<Component>): seq<BackendSource.Source<Component>> {
    if cs == [] then []
    else Sources(cs[..|cs| - 1]) + if cs[|cs| - 1].SourceRef? then [cs[|cs| - 1].source] else []
  }

  function Stations(cs: seq<Component>): seq<BackendStation.Station<Component>> {
    if cs == [] then []
    else Stations(cs[..|cs| - 1]) + if cs[|cs| - 1].StationRef? then [cs[|cs| - 1].station] else []
  }

  function Conveyors(cs: seq<Component>): seq<BackendConveyor.Conveyor<Component>> {
    if cs == [] then []
    else Conveyors(cs[..|cs| - 1]) + if cs[|cs| - 1].ConveyorRef? then [cs[|cs| - 1].conveyor] else []
  }

  function Drains(cs: seq<Component>): seq<BackendDrain.Drain<Component>> {
    if cs == [] then []
    else Drains(cs[..|cs| - 1]) + if cs[|cs| - 1].DrainRef? then [cs[|cs| - 1].drain] else []
  }

  /** Every component lands in exactly one of the four lists. */
  lemma {:induction false} ListsPartition(cs: seq<Component>)
    ensures |Sources(cs)| + |Stations(cs)| + |Conveyors(cs)| + |Drains(cs)| == |cs|
  {
    if cs != [] {
      ListsPartition(cs[..|cs| - 1]);
    }
  }

  /** Resolution of one list: its components in creation order, each given
      the components its raw outputs name, stopping at the first that
      raises. Components of the other lists keep their outputs. */
  method ResolvePass(built: seq<Component>, raws: seq<Value>, dict: map<string, Component>, p: Pass)
    returns (err: Option<InitError>)
    requires |raws| == |built| && Separate(built)
    modifies Holders(built)
    ensures forall i :: 0 <= i < |built| && !InPass(built[i], p) ==> OutputsOf(built[i]) == old(OutputsOf(built[i]))
    ensures err.None? <==>
              forall i :: 0 <= i < |built| && InPass(built[i], p) ==> Resolve(raws[i], dict, PlanOf(built[i]).id).Ok?
    ensures err.None? ==>
              forall i :: 0 <= i < |built| && InPass(built[i], p) ==>
                OutputsOf(built[i]) == Resolve(raws[i], dict, PlanOf(built[i]).id).value
    ensures err.Some? ==>
              exists f :: && 0 <= f < |built| && InPass(built[f], p)
                          && Resolve(raws[f], dict, PlanOf(built[f]).id) == Err(err.value)
                          && forall i :: 0 <= i < f && InPass(built[i], p) ==> Resolve(raws[i], dict, PlanOf(built[i]).id).Ok?
  {
    for k := 0 to |built|
      invariant forall i :: 0 <= i < |built| && !(i < k && InPass(built[i], p)) ==>
                  OutputsOf(built[i]) == old(OutputsOf(built[i]))
      invariant forall i :: 0 <= i < k && InPass(built[i], p) ==>
                  && Resolve(raws[i], dict, PlanOf(built[i]).id).Ok?
                  && OutputsOf(built[i]) == Resolve(raws[i], dict, PlanOf(built[i]).id).value
    {
      var c := built[k];
      if InPass(c, p) {
        var r := ResolveOutputs(raws[k], dict, PlanOf(c).id);
        if r.Err? {
          return Some(r.error);
        }
        SetOutputsOn(built, k, r.value);
      }
    }
    err := None;
  }

  /** `x.outputs = resolved_outputs` on the k-th component. */
  method SetOutputsOn(built: seq<Component>, k: nat, targets: seq<Component>)
    requires k < |built| && Separate(built)
    modifies Holder(built[k])
    ensures OutputsOf(built[k]) == targets
    ensures forall i :: 0 <= i < |built| && i != k ==> OutputsOf(built[i]) == old(OutputsOf(built[i]))
  {
    match built[k]
    case SourceRef(s) => s.port.SetOutputs(targets);
    case StationRef(s) => s.port.SetOutputs(targets);
    case ConveyorRef(v) => v.port.SetOutputs(targets);
    case DrainRef(d) => d.SetOutputs(targets);
  }

  /** Runs the constructor a plan describes. */
  method Construct(plan: Plan) returns (c: Component)
    requires Buildable(plan)
    ensures PlanOf(c) == plan && fresh(Holder(c)) && OutputsOf(c) == []
  {
    match plan
    case SourcePlan(id, limit, interval, startTime, endTime, strategy) =>
      var s := new BackendSource.Source(limit, interval, startTime, endTime, id, strategy);
      c := SourceRef(s);
    case StationPlan(id, processingTime, capacity, strategy) =>
      var s := new BackendStation.Station(id, processingTime, capacity, strategy);
      c := StationRef(s);
    case DrainPlan(id, capacity, processingTime) =>
      var d := new BackendDrain.Drain(id, capacity, processingTime);
      c := DrainRef(d);
    case ConveyorPlan(id, speed, length, capacity, strategy) =>
      var v := new BackendConveyor.Conveyor(id, speed, length, capacity, strategy);
      c := ConveyorRef(v);
  }

  /** The `PlantsimBackend.config` module's global lists. */
  class PlantConfig {
    var sources: seq<BackendSource.Source<Component>>
    var stations: seq<BackendStation.Station<Component>>
    var conveyors: seq<BackendConveyor.Conveyor<Component>>
    var drains: seq<BackendDrain.Drain<Component>>

    constructor ()
      ensures sources == [] && stations == [] && conveyors == [] && drains == []
    {
      sources := [];
      stations := [];
      conveyors := [];
      drains := [];
    }
  }

  class PlantBuilder {
    /** The node records of the last `ParsePlantInfo`. */
    var components: seq<NodeInfo>

    constructor ()
      ensures components == []
    {
      components := [];
    }

    /** `ParsePlantInfo(flow)`; a flow without "components" has none. */
    method ParsePlantInfo(flow: Option<seq<FlowComponent>>) returns (r: seq<NodeInfo>)
      modifies this
      ensures r == ParseNodes(GetOr(flow, [])) && components == r
    {
      r := ParseComponents(GetOr(flow, []));
      components := r;
    }

    /** `Initialize()`: the config lists end up holding the built entities of
        each type in node order, and `built` are those entities in node
        order. A node whose branch raises stops the build with its
        exception, and the entities of the nodes before it stay built and
        filed; otherwise every entity is built as its node says and,
        unless some node's outputs raise, each one's outputs are the entities
        its raw outputs name. */
    method Initialize(config: PlantConfig) returns (err: Option<InitError>, built: seq<Component>)
      modifies config
      ensures config.sources == Sources(built) && config.stations == Stations(built)
      ensures config.conveyors == Conveyors(built) && config.drains == Drains(built)
      ensures Plans(components).Err? ==> err == Some(Plans(components).error)
      ensures Plans(components).Err? ==>
                && |built| < |components| && Step(components, |built|) == Err(err.value)
                && Plans(components[..|built|]).Ok? && |Plans(components[..|built|]).value| == |built|
                && forall i :: 0 <= i < |built| ==> PlanOf(built[i]) == Plans(components[..|built|]).value[i].0
      ensures Plans(components).Ok? ==>
                && |built| == |Plans(components).value| == |components|
                && forall i :: 0 <= i < |built| ==> PlanOf(built[i]) == Plans(components).value[i].0
      ensures Plans(components).Ok? ==>
                (err.None? <==>
                   forall i :: 0 <= i < |built| ==>
                     Resolve(Plans(components).value[i].1, Dict(built), PlanOf(built[i]).id).Ok?)
      ensures err.None? ==>
                && Plans(components).Ok?
                && forall i :: 0 <= i < |built| ==>
                     OutputsOf(built[i]) == Resolve(Plans(components).value[i].1, Dict(built), PlanOf(built[i]).id).value
    {
      var raws, dict;
      err, built, raws, dict := BuildAll(config, components);
      if err.Some? {
        return;
      }
      PlansShape(components);
      err := ResolveAll(built, raws, dict);
    }
  }

  /** The config lists hold the components of each type, in order. */
  ghost predicate Filed(config: PlantConfig, built: seq<Component>)
    reads config
  {
    && config.sources == Sources(built) && config.stations == Stations(built)
    && config.conveyors == Conveyors(built) && config.drains == Drains(built)
  }

  /** `config.X.append(x)` for the list of c's type. */
  method File(config: PlantConfig, built: seq<Component>, c: Component)
    requires Filed(config, built)
    modifies config
    ensures Filed(config, built + [c])
  {
    assert (built + [c])[..|built|] == built;
    match c {
      case SourceRef(s) => config.sources := config.sources + [s];
      case StationRef(s) => config.stations := config.stations + [s];
      case ConveyorRef(v) => config.conveyors := config.conveyors + [v];
      case DrainRef(d) => config.drains := config.drains + [d];
    }
  }

  /** One node's entity is built, filed in its config list and filed
      under its id. */
  method Add(config: PlantConfig, built: seq<Component>, raws: seq<Value>, dict: map<string, Component>,
             step: (Plan, Value))
    returns (built': seq<Component>, raws': seq<Value>, dict': map<string, Component>)
    requires Buildable(step.0) && Filed(config, built) && Separate(built) && dict == Dict(built)
    modifies config
    ensures Filed(config, built') && Separate(built') && dict' == Dict(built')
    ensures |built'| == |built| + 1 && built'[..|built|] == built && raws' == raws + [step.1]
    ensures PlanOf(built'[|built|]) == step.0
    ensures Holders(built') == Holders(built) + {Holder(built'[|built|])} && fresh(Holder(built'[|built|]))
  {
    var c := Construct(step.0);
    File(config, built, c);
    Extend(built, c);
    built' := built + [c];
    assert built'[..|built|] == built;
    raws' := raws + [step.1];
    dict' := dict[PlanOf(c).id := c];
  }

  /** The first loop of `Initialize`: the config lists are emptied, then one
      entity is built and filed per node, until a node's branch raises. */
  method BuildAll(config: PlantConfig, nodes: seq<NodeInfo>)
    returns (err: Option<InitError>, built: seq<Component>, raws: seq<Value>, dict: map<string, Component>)
    modifies config
    ensures Filed(config, built)
    ensures |raws| == |built| && dict == Dict(built)
    ensures Separate(built) && fresh(Holders(built))
    ensures err.Some? ==> Plans(nodes) == Err(err.value)
    ensures err.Some? ==>
              && |built| < |nodes| && Step(nodes, |built|) == Err(err.value)
              && Plans(nodes[..|built|]).Ok? && |Plans(nodes[..|built|]).value| == |built|
              && forall k :: 0 <= k < |built| ==> (PlanOf(built[k]), raws[k]) == Plans(nodes[..|built|]).value[k]
    ensures err.None? ==>
              && Plans(nodes).Ok? && |Plans(nodes).value| == |built|
              && forall k :: 0 <= k < |built| ==> (PlanOf(built[k]), raws[k]) == Plans(nodes).value[k]
  {
    config.sources, config.stations, config.conveyors, config.drains := [], [], [], [];
    dict := map[];
    raws := [];
    built := [];
    var leaked: Option<Value> := None;
    ghost var ps: seq<(Plan, Value)> := [];
    for i := 0 to |nodes|
      invariant Plans(nodes[..i]) == Ok(ps)
      invariant |built| == i && Follows(built, raws, ps)
      invariant leaked == LeakAfter(nodes[..i])
      invariant dict == Dict(built)
      invariant Filed(config, built)
      invariant Separate(built) && fresh(Holders(built))
    {
      var n := nodes[i];
      PlansNext(nodes, i);
      var bp := Blueprint(n, leaked);
      assert bp == Step(nodes, i);
      if bp.Err? {
        PlansErr(nodes, i + 1);
        return Some(bp.error), built, raws, dict;
      }
      ghost var builtBefore, rawsBefore := built, raws;
      built, raws, dict := Add(config, built, raws, dict, bp.value);
      FollowsExtend(builtBefore, rawsBefore, ps, built, bp.value);
      ps := ps + [bp.value];
      leaked := NextLeak(n, leaked);
    }
    assert nodes[..|nodes|] == nodes;
    err := None;
  }

  /** `built` and `raws` are the entities and raw outputs the plans `ps`
      describe, one for one. */
  ghost predicate Follows(built: seq<Component>, raws: seq<Value>, ps: seq<(Plan, Value)>) {
    && |raws| == |built| && |ps| == |built|
    && forall k :: 0 <= k < |built| ==> (PlanOf(built[k]), raws[k]) == ps[k]
  }

  lemma FollowsExtend(built: seq<Component>, raws: seq<Value>, ps: seq<(Plan, Value)>,
                      built': seq<Component>, step: (Plan, Value))
    requires Follows(built, raws, ps)
    requires |built'| == |built| + 1 && built'[..|built|] == built && PlanOf(built'[|built|]) == step.0
    ensures Follows(built', raws + [step.1], ps + [step])
  {
    forall k | 0 <= k < |built|
      ensures built'[k] == built[k]
    {
      assert built'[..|built|][k] == built'[k];
    }
  }

  /** The four resolution loops of `Initialize`, sources first, then
      stations, conveyors and drains: they succeed exactly when every
      component's raw outputs resolve, and then every component has its
      resolved outputs. */
  method ResolveAll(built: seq<Component>, raws: seq<Value>, dict: map<string, Component>)
    returns (err: Option<InitError>)
    requires |raws| == |built| && Separate(built)
    modifies Holders(built)
    ensures err.None? <==> forall i :: 0 <= i < |built| ==> Resolve(raws[i], dict, PlanOf(built[i]).id).Ok?
    ensures err.None? ==>
              forall i :: 0 <= i < |built| ==> OutputsOf(built[i]) == Resolve(raws[i], dict, PlanOf(built[i]).id).value
  {
    err := ResolvePass(built, raws, dict, SourcePass);
    if err.Some? {
      return;
    }
    err := ResolvePass(built, raws, dict, StationPass);
    if err.Some? {
      return;
    }
    err := ResolvePass(built, raws, dict, ConveyorPass);
    if err.Some? {
      return;
    }
    err := ResolvePass(built, raws, dict, DrainPass);
  }

  /** A failure in the first m nodes is the failure of the whole loop. */
  lemma {:induction false} PlansErr(nodes: seq<NodeInfo>, m: nat)
    requires m <= |nodes| && Plans(nodes[..m]).Err?
    ensures Plans(nodes) == Plans(nodes[..m])
    decreases |nodes| - m
  {
    if m == |nodes| {
      assert nodes[..m] == nodes;
    } else {
      assert nodes[..m + 1][..m] == nodes[..m];
      PlansErr(nodes, m + 1);
    }
  }
}
