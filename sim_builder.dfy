/** The newer simulator's PlantBuilder (src/sim/builder.py). It works in two
    passes over the component configurations: the first instantiates one node
    per configuration into a name-to-node map, rejecting repeated names; the
    second wires producers to consumers with `set_output`, checking roles and
    target names. Errors stop the pass where they occur. */
module SimBuilder {
  import opened Values
  import opened Parts
  import SimSource
  import SimStation
  import SimConveyor
  import SimRouter

  /** The classes of COMPONENT_MAP. */
  datatype Kind = SourceKind | DrainKind | ConveyorKind | StationKind | RouterKind | StoreKind

  /** COMPONENT_MAP: the class a `type` tag selects; None where the lookup
      raises KeyError. */
  function KindOfTag(tag: string): (k: Option<Kind>)
    ensures k.None? <==> tag !in {"Source", "Drain", "Conveyor", "Station", "Router", "Store"}
  {
    if tag == "Source" then Some(SourceKind)
    else if tag == "Drain" then Some(DrainKind)
    else if tag == "Conveyor" then Some(ConveyorKind)
    else if tag == "Station" then Some(StationKind)
    else if tag == "Router" then Some(RouterKind)
    else if tag == "Store" then Some(StoreKind)
    else None
  }

  /** The classes that inherit Producer: all but Drain. */
  predicate IsProducer(k: Kind) {
    k != DrainKind
  }

  /** The classes that inherit Consumer: all but Source. */
  predicate IsConsumer(k: Kind) {
    k != SourceKind
  }

  /** The keyword arguments each class's `__init__` takes besides `env` and
      `name`. */
  function Keywords(k: Kind): set<string> {
    match k
    case SourceKind => {"interval", "limit", "start_immedietely"}
    case DrainKind => {}
    case ConveyorKind => {"travel_time", "capacity"}
    case StationKind => {"processing_time", "capacity"}
    case RouterKind => {"routing_logic"}
    case StoreKind => {"capacity"}
  }

  /** The `outputs` entry: one name, or a list of names. */
  datatype Outputs = OneName(name: string) | Names(names: seq<string>)

  /** A string `outputs` value is treated as a one-element list. */
  function TargetNames(o: Outputs): seq<string> {
    match o
    case OneName(n) => [n]
    case Names(ns) => ns
  }

  /** One entry of `components`; a missing `params` is the empty map. */
  datatype ComponentConfig = ComponentConfig(name: string, tag: string, params: map<string, Value>, outputs: Option<Outputs>)

  datatype BuildError =
    | DuplicateName(name: string)                   // ValueError "Duplicate component name found: <name>"
    | UnknownType(tag: string)                      // KeyError from the COMPONENT_MAP lookup
    | AbstractClass(name: string)                   // TypeError: Store leaves set_output abstract
    | UnexpectedKeyword(name: string)               // TypeError from cls(env=..., name=..., **params)
    | BadParameter(name: string, key: string)       // a parameter value of a type the model does not take
    | NonPositiveCapacity(name: string)             // ValueError from simpy.Resource
    | MissingComponent(name: string)                // KeyError from self.components[source_name]
    | NotAProducer(name: string)                    // TypeError "... is not a Producer."
    | UnknownTarget(source: string, target: string) // ValueError "... has an unknown output target: '<target>'"
    | NotAConsumer(target: string)                  // TypeError "... is not a valid Consumer."

  /** What the builder can observe of a node: its class, its settings and its
      wiring. */
  datatype NodeView =
    | SourceView(interval: real, limit: Option<int>, started: bool, target: Option<NodeId>)
    | DrainView
    | ConveyorView(travelTime: real, capacity: int, target: Option<NodeId>)
    | StationView(processingTime: real, capacity: int, target: Option<NodeId>)
    | RouterView(logic: SimRouter.RoutingLogic, targets: seq<NodeId>)

  function KindOf(v: NodeView): Kind {
    match v
    case SourceView(_, _, _, _) => SourceKind
    case DrainView => DrainKind
    case ConveyorView(_, _, _) => ConveyorKind
    case StationView(_, _, _) => StationKind
    case RouterView(_, _) => RouterKind
  }

  /** A node as `__init__` leaves it: nothing wired, a positive capacity. */
  predicate Initial(v: NodeView) {
    match v
    case SourceView(_, _, _, t) => t.None?
    case DrainView => true
    case ConveyorView(_, c, t) => 0 < c && t.None?
    case StationView(_, c, t) => 0 < c && t.None?
    case RouterView(_, ts) => ts == []
  }

  /** A time parameter: Python numbers (a bool is an int). */
  function Number(v: Value): Option<real> {
    match v
    case Int(i) => Some(i as real)
    case Real(r) => Some(r)
    case Bool(b) => Some(if b then 1.0 else 0.0)
    case _ => None
  }

  function TimeParam(params: map<string, Value>, key: string, default: real): Option<real> {
    if key in params then Number(params[key]) else Some(default)
  }

  /** The whole-number limit that a float limit r acts as: the loop test
      `parts_created < r` on the integer counter holds exactly when the
      counter is below the ceiling of r. */
  function LimitOfReal(r: real): (c: int)
    ensures (c - 1) as real < r <= c as real
  {
    if r.Floor as real == r then r.Floor else r.Floor + 1
  }

  /** An integer counter is below a float limit exactly when it is below the
      whole-number limit that stands for it. */
  lemma LimitOfRealTest(r: real, n: int)
    ensures n as real < r <==> n < LimitOfReal(r)
  {
    var c := LimitOfReal(r);
    if n < c {
      assert n as real <= (c - 1) as real;
    }
  }

  /** `limit`: a number, or None for no limit (the default). A float limit
      is stored as the whole number it acts as in the loop test. */
  function LimitParam(params: map<string, Value>): Option<Option<int>> {
    if "limit" !in params then Some(None)
    else match params["limit"]
      case Null => Some(None)
      case Int(i) => Some(Some(i))
      case Real(r) => Some(Some(LimitOfReal(r)))
      case Bool(b) => Some(Some(if b then 1 else 0))
      case _ => None
  }

  /** `capacity`: an int, 1 by default. */
  function CapacityParam(params: map<string, Value>): Option<int> {
    if "capacity" !in params then Some(1)
    else match params["capacity"]
      case Int(i) => Some(i)
      case Bool(b) => Some(if b then 1 else 0)
      case _ => None
  }

  /** `cls(env=self.env, name=name, **params)` for the class of kind k. */
  function Instantiate(name: string, k: Kind, params: map<string, Value>): (r: Result<NodeView, BuildError>)
    ensures r.Ok? ==> KindOf(r.value) == k && Initial(r.value)
    ensures r.Ok? ==> k != StoreKind && params.Keys <= Keywords(k)
  {
    if k == StoreKind then Err(AbstractClass(name))
    else if !(params.Keys <= Keywords(k)) then Err(UnexpectedKeyword(name))
    else match k
      case SourceKind =>
        var interval := TimeParam(params, "interval", SimSource.DefaultInterval);
        var limit := LimitParam(params);
        var start := if "start_immedietely" in params then Truthy(params["start_immedietely"])
                     else SimSource.DefaultStartImmediately;
        if interval.None? then Err(BadParameter(name, "interval"))
        else if limit.None? then Err(BadParameter(name, "limit"))
        else Ok(SourceView(interval.value, limit.value, start, None))
      case DrainKind => Ok(DrainView)
      case ConveyorKind =>
        var travel := TimeParam(params, "travel_time", SimConveyor.DefaultTravelTime);
        var capacity := CapacityParam(params);
        if travel.None? then Err(BadParameter(name, "travel_time"))
        else if capacity.None? then Err(BadParameter(name, "capacity"))
        else if capacity.value <= 0 then Err(NonPositiveCapacity(name))
        else Ok(ConveyorView(travel.value, capacity.value, None))
      case StationKind =>
        var processing := TimeParam(params, "processing_time", SimStation.DefaultProcessingTime);
        var capacity := CapacityParam(params);
        if processing.None? then Err(BadParameter(name, "processing_time"))
        else if capacity.None? then Err(BadParameter(name, "capacity"))
        else if capacity.value <= 0 then Err(NonPositiveCapacity(name))
        else Ok(StationView(processing.value, capacity.value, None))
      case RouterKind =>
        var logic := if "routing_logic" in params then SimRouter.LogicOf(params["routing_logic"])
                     else SimRouter.DefaultLogic;
        Ok(RouterView(logic, []))
  }

  /** One iteration of `_instantiate_components` against the map m. */
  function InstantiateOne(c: ComponentConfig, m: map<string, NodeView>): Result<NodeView, BuildError> {
    if c.name in m then Err(DuplicateName(c.name))
    else match KindOfTag(c.tag)
      case None => Err(UnknownType(c.tag))
      case Some(k) => Instantiate(c.name, k, c.params)
  }

  /** `_instantiate_components`: the error it stops with, if any, and the map
      it leaves. */
  function InstantiateAll(cs: seq<ComponentConfig>, m: map<string, NodeView>): (Option<BuildError>, map<string, NodeView>) {
    if cs == [] then (None, m)
    else match InstantiateOne(cs[0], m)
      case Err(e) => (Some(e), m)
      case Ok(v) => InstantiateAll(cs[1..], m[cs[0].name := v])
  }

  /** What `set_output(target)` does to a node: a Router appends, the other
      producers replace their single target. */
  function SetOutputView(v: NodeView, t: NodeId): (r: NodeView)
    ensures KindOf(r) == KindOf(v)
  {
    match v
    case SourceView(i, l, s, _) => SourceView(i, l, s, Some(t))
    case DrainView => DrainView
    case ConveyorView(tt, c, _) => ConveyorView(tt, c, Some(t))
    case StationView(p, c, _) => StationView(p, c, Some(t))
    case RouterView(l, ts) => RouterView(l, ts + [t])
  }

  /** `set_output` called once per name of ts, in order. */
  function AttachAll(v: NodeView, ts: seq<NodeId>): NodeView
    decreases |ts|
  {
    if ts == [] then v else AttachAll(SetOutputView(v, ts[0]), ts[1..])
  }

  /** The inner loop of `_wire_components` for the producer `src`. */
  function WireTargets(src: string, ts: seq<string>, m: map<string, NodeView>): (Option<BuildError>, map<string, NodeView>)
    requires src in m
    decreases |ts|
  {
    if ts == [] then (None, m)
    else if ts[0] !in m then (Some(UnknownTarget(src, ts[0])), m)
    else if !IsConsumer(KindOf(m[ts[0]])) then (Some(NotAConsumer(ts[0])), m)
    else WireTargets(src, ts[1..], m[src := SetOutputView(m[src], ts[0])])
  }

  /** One iteration of the outer loop of `_wire_components`. */
  function WireOne(c: ComponentConfig, m: map<string, NodeView>): (Option<BuildError>, map<string, NodeView>) {
    if c.outputs.None? then (None, m)
    else if c.name !in m then (Some(MissingComponent(c.name)), m)
    else if !IsProducer(KindOf(m[c.name])) then (Some(NotAProducer(c.name)), m)
    else WireTargets(c.name, TargetNames(c.outputs.value), m)
  }

  /** Continue with the remaining configurations unless r is an error. */
  function Then(r: (Option<BuildError>, map<string, NodeView>), cs: seq<ComponentConfig>): (Option<BuildError>, map<string, NodeView>)
    decreases cs, 1
  {
    if r.0.Some? then r else WireAll(cs, r.1)
  }

  /** `_wire_components`: the error it stops with, if any, and the map it
      leaves. */
  function WireAll(cs: seq<ComponentConfig>, m: map<string, NodeView>): (Option<BuildError>, map<string, NodeView>)
    decreases cs, 0
  {
    if cs == [] then (None, m) else Then(WireOne(cs[0], m), cs[1..])
  }

  /** `build_from_dict`: instantiate, then wire if that succeeded. */
  function BuildAll(cs: seq<ComponentConfig>, m: map<string, NodeView>): (Option<BuildError>, map<string, NodeView>) {
    var (e, m1) := InstantiateAll(cs, m);
    if e.Some? then (e, m1) else WireAll(cs, m1)
  }

  // ---------------------------------------------------------------------
  // Properties of the two passes

  /** Every configuration carries its own name. */
  predicate DistinctNames(cs: seq<ComponentConfig>) {
    forall i, j :: 0 <= i < j < |cs| ==> cs[i].name != cs[j].name
  }

  function Names(cs: seq<ComponentConfig>): set<string> {
    set c | c in cs :: c.name
  }

  /** The names of the configurations that have an `outputs` entry. */
  function OutputNames(cs: seq<ComponentConfig>): set<string> {
    set c | c in cs && c.outputs.Some? :: c.name
  }

  /** Two maps hold nodes of the same kinds under the same names. */
  predicate SameShape(m: map<string, NodeView>, m': map<string, NodeView>) {
    && m.Keys == m'.Keys
    && forall n :: n in m ==> KindOf(m[n]) == KindOf(m'[n])
  }

  /** A target name the wiring pass rejects. */
  predicate BadTarget(t: string, m: map<string, NodeView>) {
    t !in m || !IsConsumer(KindOf(m[t]))
  }

  /** The error a rejected target raises. */
  function TargetError(src: string, t: string, m: map<string, NodeView>): BuildError {
    if t !in m then UnknownTarget(src, t) else NotAConsumer(t)
  }

  /** The position of the first rejected target, |ts| if there is none. */
  function FirstBad(ts: seq<string>, m: map<string, NodeView>): (b: nat)
    ensures b <= |ts|
    ensures forall k :: 0 <= k < b ==> !BadTarget(ts[k], m)
    ensures b < |ts| ==> BadTarget(ts[b], m)
  {
    if ts == [] then 0
    else if BadTarget(ts[0], m) then 0
    else 1 + FirstBad(ts[1..], m)
  }

  lemma {:induction false} FirstBadShape(ts: seq<string>, m: map<string, NodeView>, m': map<string, NodeView>)
    requires SameShape(m, m')
    ensures FirstBad(ts, m) == FirstBad(ts, m')
  {
    if ts != [] {
      assert BadTarget(ts[0], m) == BadTarget(ts[0], m');
      FirstBadShape(ts[1..], m, m');
    }
  }

  /** Attaching outputs never changes what kind of node it is. */
  lemma {:induction false} AttachAllKind(v: NodeView, ts: seq<NodeId>)
    ensures KindOf(AttachAll(v, ts)) == KindOf(v)
    decreases |ts|
  {
    if ts != [] {
      AttachAllKind(SetOutputView(v, ts[0]), ts[1..]);
    }
  }

  /** A Router keeps every target it is given, in order. */
  lemma {:induction false} AttachAllRouter(v: NodeView, ts: seq<NodeId>)
    requires v.RouterView?
    ensures AttachAll(v, ts) == RouterView(v.logic, v.targets + ts)
    decreases |ts|
  {
    if ts != [] {
      AttachAllRouter(SetOutputView(v, ts[0]), ts[1..]);
      assert v.targets + [ts[0]] + ts[1..] == v.targets + ts;
    }
  }

  /** Any other producer keeps only the last target it is given. */
  lemma {:induction false} AttachAllSingle(v: NodeView, ts: seq<NodeId>)
    requires !v.RouterView? && ts != []
    ensures AttachAll(v, ts) == SetOutputView(v, ts[|ts| - 1])
    decreases |ts|
  {
    if |ts| > 1 {
      AttachAllSingle(SetOutputView(v, ts[0]), ts[1..]);
    }
  }

  /** The inner wiring loop attaches the targets before the first rejected
      one, keeps those edges, and raises that target's error. */
  lemma {:induction false} WireTargetsEffect(src: string, ts: seq<string>, m: map<string, NodeView>)
    requires src in m
    ensures var r := WireTargets(src, ts, m);
            var b := FirstBad(ts, m);
            && r.1 == m[src := AttachAll(m[src], ts[..b])]
            && r.0 == (if b == |ts| then None else Some(TargetError(src, ts[b], m)))
    decreases |ts|
  {
    if ts == [] {
      assert m[src := m[src]] == m;
    } else if !BadTarget(ts[0], m) {
      var m1 := m[src := SetOutputView(m[src], ts[0])];
      assert SameShape(m, m1);
      FirstBadShape(ts[1..], m, m1);
      WireTargetsEffect(src, ts[1..], m1);
      var b := FirstBad(ts, m);
      assert ts[..b] == [ts[0]] + ts[1..][..b - 1];
      assert m1[src := AttachAll(m1[src], ts[1..][..b - 1])] == m[src := AttachAll(m[src], ts[..b])];
    } else {
      assert m[src := m[src]] == m;
    }
  }

  /** One wiring step leaves every name and kind in place. */
  lemma WireOneShape(c: ComponentConfig, m: map<string, NodeView>)
    ensures SameShape(m, WireOne(c, m).1)
    ensures forall n :: n in m && n != c.name ==> WireOne(c, m).1[n] == m[n]
    ensures c.outputs.None? ==> WireOne(c, m) == (None, m)
  {
    if c.outputs.Some? && c.name in m && IsProducer(KindOf(m[c.name])) {
      var ts := TargetNames(c.outputs.value);
      WireTargetsEffect(c.name, ts, m);
      AttachAllKind(m[c.name], ts[..FirstBad(ts, m)]);
    }
  }

  /** Wiring keeps every name and kind, and changes only the nodes named by a
      configuration with an `outputs` entry. */
  lemma {:induction false} WireAllShape(cs: seq<ComponentConfig>, m: map<string, NodeView>)
    ensures SameShape(m, WireAll(cs, m).1)
    ensures forall n :: n in m && n !in OutputNames(cs) ==> WireAll(cs, m).1[n] == m[n]
  {
    if cs != [] {
      WireOneShape(cs[0], m);
      var r := WireOne(cs[0], m);
      if r.0.None? {
        WireAllShape(cs[1..], r.1);
        assert OutputNames(cs[1..]) <= OutputNames(cs) by {
          forall n | n in OutputNames(cs[1..]) ensures n in OutputNames(cs) {
            var c :| c in cs[1..] && c.outputs.Some? && c.name == n;
            assert c in cs;
          }
        }
        assert cs[0].outputs.Some? ==> cs[0].name in OutputNames(cs);
      }
    }
  }

  /** When wiring succeeds over configurations with distinct names, each
      producer named with `outputs` had all its targets attached, every one an
      existing consumer. */
  lemma {:induction false} WireAllSuccess(cs: seq<ComponentConfig>, m: map<string, NodeView>)
    requires DistinctNames(cs)
    ensures var r := WireAll(cs, m);
            r.0 == None ==>
              forall j :: 0 <= j < |cs| && cs[j].outputs.Some? ==>
                && cs[j].name in m && IsProducer(KindOf(m[cs[j].name])) && cs[j].name in r.1
                && (forall t :: t in TargetNames(cs[j].outputs.value) ==> t in m && IsConsumer(KindOf(m[t])))
                && r.1[cs[j].name] == AttachAll(m[cs[j].name], TargetNames(cs[j].outputs.value))
  {
    if cs != [] {
      var c := cs[0];
      var r1 := WireOne(c, m);
      WireOneShape(c, m);
      if r1.0.None? {
        assert DistinctNames(cs[1..]);
        WireAllSuccess(cs[1..], r1.1);
        WireAllShape(cs[1..], r1.1);
        var r := WireAll(cs, m);
        assert r == Then(r1, cs[1..]);
        if c.outputs.Some? {
          var ts := TargetNames(c.outputs.value);
          WireTargetsEffect(c.name, ts, m);
          assert FirstBad(ts, m) == |ts|;
          assert ts[..|ts|] == ts;
          assert c.name !in OutputNames(cs[1..]);
          forall t | t in ts ensures t in m && IsConsumer(KindOf(m[t])) {
            var k :| 0 <= k < |ts| && ts[k] == t;
            assert !BadTarget(ts[k], m);
          }
        }
        if r.0 == None {
          forall j | 1 <= j < |cs| && cs[j].outputs.Some?
            ensures cs[j].name in m && cs[j].name in r.1
            ensures r.1[cs[j].name] == AttachAll(m[cs[j].name], TargetNames(cs[j].outputs.value))
          {
            assert cs[j] == cs[1..][j - 1];
            assert cs[j].name != c.name;
          }
        }
      }
    }
  }

  /** Instantiation never replaces a node already in the map, and adds only
      names from the configurations. */
  lemma {:induction false} InstantiateAllKeeps(cs: seq<ComponentConfig>, m: map<string, NodeView>)
    ensures var r := InstantiateAll(cs, m);
            && (forall n :: n in m ==> n in r.1 && r.1[n] == m[n])
            && r.1.Keys <= m.Keys + Names(cs)
  {
    if cs != [] {
      var v := InstantiateOne(cs[0], m);
      if v.Ok? {
        InstantiateAllKeeps(cs[1..], m[cs[0].name := v.value]);
        assert Names(cs) == {cs[0].name} + Names(cs[1..]);
      }
    }
  }

  /** When instantiation succeeds, the names were distinct and new, and the
      map gained exactly them. */
  lemma {:induction false} InstantiateAllNames(cs: seq<ComponentConfig>, m: map<string, NodeView>)
    requires InstantiateAll(cs, m).0 == None
    ensures DistinctNames(cs)
    ensures Names(cs) !! m.Keys
    ensures InstantiateAll(cs, m).1.Keys == m.Keys + Names(cs)
  {
    if cs != [] {
      var v := InstantiateOne(cs[0], m);
      var m1 := m[cs[0].name := v.value];
      InstantiateAllNames(cs[1..], m1);
      assert Names(cs) == {cs[0].name} + Names(cs[1..]);
      forall i, j | 0 <= i < j < |cs| ensures cs[i].name != cs[j].name {
        assert cs[j] == cs[1..][j - 1];
        if i > 0 {
          assert cs[i] == cs[1..][i - 1];
        } else {
          assert cs[j].name in Names(cs[1..]);
        }
      }
    }
  }

  /** When instantiation succeeds, configuration j's node is what its class's
      constructor makes of its parameters. */
  lemma {:induction false} InstantiateAllNode(cs: seq<ComponentConfig>, m: map<string, NodeView>, j: nat)
    requires InstantiateAll(cs, m).0 == None && j < |cs|
    ensures KindOfTag(cs[j].tag).Some?
    ensures cs[j].name in InstantiateAll(cs, m).1
    ensures Instantiate(cs[j].name, KindOfTag(cs[j].tag).value, cs[j].params) == Ok(InstantiateAll(cs, m).1[cs[j].name])
  {
    var v := InstantiateOne(cs[0], m);
    var m1 := m[cs[0].name := v.value];
    assert InstantiateAll(cs, m) == InstantiateAll(cs[1..], m1);
    if j > 0 {
      assert cs[j] == cs[1..][j - 1];
      InstantiateAllNode(cs[1..], m1, j - 1);
    } else {
      InstantiateAllKeeps(cs[1..], m1);
    }
  }

  /** When instantiation succeeds, the names were distinct and new, and each
      configuration's node is what its class's constructor makes of its
      parameters. */
  lemma InstantiateAllSuccess(cs: seq<ComponentConfig>, m: map<string, NodeView>)
    ensures var r := InstantiateAll(cs, m);
            r.0 == None ==>
              && DistinctNames(cs)
              && Names(cs) !! m.Keys
              && r.1.Keys == m.Keys + Names(cs)
              && forall j :: 0 <= j < |cs| ==>
                   && KindOfTag(cs[j].tag).Some?
                   && Instantiate(cs[j].name, KindOfTag(cs[j].tag).value, cs[j].params) == Ok(r.1[cs[j].name])
  {
    if InstantiateAll(cs, m).0 == None {
      InstantiateAllNames(cs, m);
      forall j | 0 <= j < |cs|
        ensures KindOfTag(cs[j].tag).Some?
        ensures Instantiate(cs[j].name, KindOfTag(cs[j].tag).value, cs[j].params) == Ok(InstantiateAll(cs, m).1[cs[j].name])
      {
        InstantiateAllNode(cs, m, j);
      }
    }
  }

  /** A name given to two configurations makes the build fail. */
  lemma DuplicateNameFails(cs: seq<ComponentConfig>, m: map<string, NodeView>, i: nat, j: nat)
    requires i < j < |cs| && cs[i].name == cs[j].name
    ensures InstantiateAll(cs, m).0.Some?
    ensures BuildAll(cs, m).0.Some?
  {
    InstantiateAllSuccess(cs, m);
  }

  /** The loop runs configuration by configuration: once the first j have
      been registered without error, the rest continue from the map they
      left. */
  lemma {:induction false} InstantiateAllPrefix(cs: seq<ComponentConfig>, m: map<string, NodeView>, j: nat)
    requires j <= |cs| && InstantiateAll(cs[..j], m).0 == None
    ensures InstantiateAll(cs, m) == InstantiateAll(cs[j..], InstantiateAll(cs[..j], m).1)
  {
    if j > 0 {
      var v := InstantiateOne(cs[0], m);
      assert cs[..j][0] == cs[0] && cs[..j][1..] == cs[1..][..j - 1];
      assert v.Ok?;
      InstantiateAllPrefix(cs[1..], m[cs[0].name := v.value], j - 1);
      assert cs[1..][j - 1..] == cs[j..];
    }
  }

  /** `ValueError("Duplicate component name found: ...")`: when
      configuration j repeats a name that an earlier configuration or the
      map already holds, and the configurations before it registered
      cleanly, the build stops there with the duplicate-name error, and the
      nodes registered before it stay in the map. */
  lemma DuplicateNameError(cs: seq<ComponentConfig>, m: map<string, NodeView>, j: nat)
    requires j < |cs| && InstantiateAll(cs[..j], m).0 == None
    requires cs[j].name in Names(cs[..j]) + m.Keys
    ensures InstantiateAll(cs, m) == (Some(DuplicateName(cs[j].name)), InstantiateAll(cs[..j], m).1)
    ensures BuildAll(cs, m) == InstantiateAll(cs, m)
  {
    var m1 := InstantiateAll(cs[..j], m).1;
    InstantiateAllPrefix(cs, m, j);
    InstantiateAllNames(cs[..j], m);
    assert cs[j..][0] == cs[j];
    assert cs[j].name in m1;
  }

  /** A node wired with the targets ts, in order, from its initial state:
      a Router holds all of them, another producer the last one. */
  predicate WiredAs(v: NodeView, ts: seq<NodeId>) {
    && (v.RouterView? ==> v.targets == ts)
    && (!v.RouterView? && !v.DrainView? ==> v.target == if ts == [] then None else Some(ts[|ts| - 1]))
  }

  lemma AttachAllInitial(v: NodeView, ts: seq<NodeId>)
    requires Initial(v)
    ensures KindOf(AttachAll(v, ts)) == KindOf(v)
    ensures WiredAs(AttachAll(v, ts), ts)
  {
    AttachAllKind(v, ts);
    if v.RouterView? {
      AttachAllRouter(v, ts);
    } else if ts != [] {
      AttachAllSingle(v, ts);
    }
  }

  /** The targets a configuration lists, none when it has no `outputs`. */
  function ListedTargets(c: ComponentConfig): seq<string> {
    if c.outputs.Some? then TargetNames(c.outputs.value) else []
  }

  /** What a successful `build_from_dict` yields from an empty map: one node
      per configuration, of the class its tag names; a Router wired to every
      listed target in order, any other producer to its last listed target,
      and every listed target an existing consumer. */
  lemma BuildAllSuccess(cs: seq<ComponentConfig>)
    ensures var r := BuildAll(cs, map[]);
            r.0 == None ==>
              && DistinctNames(cs)
              && r.1.Keys == Names(cs)
              && forall j :: 0 <= j < |cs| ==>
                   && cs[j].name in r.1
                   && KindOfTag(cs[j].tag) == Some(KindOf(r.1[cs[j].name]))
                   && (forall t :: t in ListedTargets(cs[j]) ==> t in r.1 && IsConsumer(KindOf(r.1[t])))
                   && WiredAs(r.1[cs[j].name], ListedTargets(cs[j]))
  {
    var (e, m1) := InstantiateAll(cs, map[]);
    if e == None {
      InstantiateAllSuccess(cs, map[]);
      assert m1.Keys == Names(cs);
      var r := WireAll(cs, m1);
      assert BuildAll(cs, map[]) == r;
      WireAllSuccess(cs, m1);
      WireAllShape(cs, m1);
      if r.0 == None {
        forall j | 0 <= j < |cs|
          ensures cs[j].name in r.1
          ensures KindOfTag(cs[j].tag) == Some(KindOf(r.1[cs[j].name]))
          ensures forall t :: t in ListedTargets(cs[j]) ==> t in r.1 && IsConsumer(KindOf(r.1[t]))
          ensures WiredAs(r.1[cs[j].name], ListedTargets(cs[j]))
        {
          BuildNode(cs, m1, r.1, j);
        }
      }
    }
  }

  /** One configuration's node after both passes succeeded. */
  lemma BuildNode(cs: seq<ComponentConfig>, m1: map<string, NodeView>, m2: map<string, NodeView>, j: nat)
    requires j < |cs| && DistinctNames(cs) && m1.Keys == Names(cs) && SameShape(m1, m2)
    requires forall n :: n in m1 && n !in OutputNames(cs) ==> m2[n] == m1[n]
    requires KindOfTag(cs[j].tag).Some?
    requires Instantiate(cs[j].name, KindOfTag(cs[j].tag).value, cs[j].params) == Ok(m1[cs[j].name])
    requires cs[j].outputs.Some? ==>
               && (forall t :: t in TargetNames(cs[j].outputs.value) ==> t in m1 && IsConsumer(KindOf(m1[t])))
               && m2[cs[j].name] == AttachAll(m1[cs[j].name], TargetNames(cs[j].outputs.value))
    ensures cs[j].name in m2
    ensures KindOfTag(cs[j].tag) == Some(KindOf(m2[cs[j].name]))
    ensures forall t :: t in ListedTargets(cs[j]) ==> t in m2 && IsConsumer(KindOf(m2[t]))
    ensures WiredAs(m2[cs[j].name], ListedTargets(cs[j]))
  {
    var n := cs[j].name;
    assert n in Names(cs);
    var ts := ListedTargets(cs[j]);
    if cs[j].outputs.None? {
      assert n !in OutputNames(cs);
    }
    assert m2[n] == AttachAll(m1[n], ts);
    AttachAllInitial(m1[n], ts);
  }

  // ---------------------------------------------------------------------
  // The builder object and the nodes it holds

  /** A node of the component map: a reference to the object `cls(...)`
      returned. A Drain holds nothing the builder uses. */
  datatype Node =
    | SourceNode(source: SimSource.Source)
    | DrainNode
    | ConveyorNode(conveyor: SimConveyor.Conveyor)
    | StationNode(station: SimStation.Station)
    | RouterNode(router: SimRouter.Router)

  function Objects(n: Node): set<object> {
    match n
    case SourceNode(s) => {s}
    case DrainNode => {}
    case ConveyorNode(c) => {c}
    case StationNode(s) => {s}
    case RouterNode(r) => {r}
  }

  ghost predicate NodeValid(n: Node)
    reads Objects(n)
  {
    match n
    case SourceNode(s) => s.Valid()
    case DrainNode => true
    case ConveyorNode(c) => c.Valid()
    case StationNode(s) => s.Valid()
    case RouterNode(r) => r.Valid()
  }

  function ViewOf(n: Node): NodeView
    reads Objects(n)
  {
    match n
    case SourceNode(s) => SourceView(s.interval, s.limit, !s.phase.NotStarted?, s.outputTarget)
    case DrainNode => DrainView
    case ConveyorNode(c) => ConveyorView(c.travelTime, c.capacity, c.outputTarget)
    case StationNode(s) => StationView(s.processingTime, s.capacity, s.outputTarget)
    case RouterNode(r) => RouterView(r.logic, r.outputTargets)
  }

  class PlantBuilder {
    /** The simulation clock when the builder runs (sources that start
        immediately start then). */
    const now: real
    var components: map<string, Node>
    ghost var Repr: set<object>

    /** Every node's objects belong to the builder's footprint, and no two
        names share an object. */
    ghost predicate Valid()
      reads this, Repr
    {
      && this !in Repr
      && (forall n :: n in components ==> Objects(components[n]) <= Repr)
      && (forall n, n' :: n in components && n' in components && n != n' ==>
            Objects(components[n]) !! Objects(components[n']))
      && (forall n :: n in components ==> NodeValid(components[n]))
    }

    /** The map as the builder sees it. */
    function View(): map<string, NodeView>
      reads this, Repr
      requires Valid()
    {
      map n | n in components :: ViewOf(components[n])
    }

    constructor (now: real)
      ensures Valid() && Repr == {}
      ensures this.now == now && components == map[]
    {
      this.now := now;
      components := map[];
      Repr := {};
    }

    /** `cls(env=self.env, name=name, **params)` for a view that
        `Instantiate` produced. */
    method NewNode(name: string, v: NodeView) returns (node: Node)
      requires Initial(v)
      ensures fresh(Objects(node)) && NodeValid(node) && ViewOf(node) == v
    {
      match v
      case SourceView(interval, limit, started, _) =>
        var s := new SimSource.Source(name, interval, limit, started, now);
        node := SourceNode(s);
      case DrainView =>
        node := DrainNode;
      case ConveyorView(travel, capacity, _) =>
        var c := new SimConveyor.Conveyor(name, travel, capacity);
        node := ConveyorNode(c);
      case StationView(processing, capacity, _) =>
        var s := new SimStation.Station(name, processing, capacity);
        node := StationNode(s);
      case RouterView(logic, _) =>
        var r := new SimRouter.Router(name, logic);
        node := RouterNode(r);
    }

    /** `_instantiate_components`. */
    method InstantiateComponents(configs: seq<ComponentConfig>) returns (err: Option<BuildError>)
      requires Valid()
      modifies this
      ensures Valid() && fresh(Repr - old(Repr))
      ensures (err, View()) == InstantiateAll(configs, old(View()))
    {
      var i := 0;
      while i < |configs|
        invariant 0 <= i <= |configs|
        invariant Valid() && fresh(Repr - old(Repr))
        invariant InstantiateAll(configs, old(View())) == InstantiateAll(configs[i..], View())
      {
        assert configs[i..][1..] == configs[i + 1..];
        err := InstantiateStep(configs[i]);
        if err.Some? {
          return;
        }
        i := i + 1;
      }
      return None;
    }

    /** One turn of the loop of `_instantiate_components`: the duplicate
        check, the class lookup, the constructor call and the registration. */
    method InstantiateStep(c: ComponentConfig) returns (err: Option<BuildError>)
      requires Valid()
      modifies this
      ensures Valid() && fresh(Repr - old(Repr))
      ensures err.Some? <==> InstantiateOne(c, old(View())).Err?
      ensures err.Some? ==> err.value == InstantiateOne(c, old(View())).error && View() == old(View())
      ensures err.None? ==> View() == old(View())[c.name := InstantiateOne(c, old(View())).value]
    {
      ghost var m := View();
      if c.name in components {
        assert c.name in m;
        return Some(DuplicateName(c.name));
      }
      assert c.name !in m;
      var kind := KindOfTag(c.tag);
      if kind.None? {
        return Some(UnknownType(c.tag));
      }
      var v := Instantiate(c.name, kind.value, c.params);
      assert InstantiateOne(c, m) == v;
      if v.Err? {
        return Some(v.error);
      }
      Create(c.name, v.value);
      return None;
    }

    /** `cls(...)` followed by `self.components[name] = component`. */
    method Create(name: string, v: NodeView)
      requires Valid() && name !in components && Initial(v)
      modifies this
      ensures Valid() && fresh(Repr - old(Repr))
      ensures View() == old(View())[name := v]
    {
      ghost var m := View();
      var node := NewNode(name, v);
      assert View() == m;
      Register(name, node);
      assert ViewOf(node) == v;
    }

    /** Adds `node` to the map under the fresh name `name`. */
    method Register(name: string, node: Node)
      requires Valid() && name !in components
      requires Objects(node) !! Repr && this !in Objects(node) && NodeValid(node)
      modifies this
      ensures Valid() && Repr == old(Repr) + Objects(node)
      ensures components == old(components)[name := node]
      ensures View() == old(View())[name := ViewOf(node)]
    {
      ghost var before := View();
      components := components[name := node];
      Repr := Repr + Objects(node);
      forall n | n in components && n != name
        ensures ViewOf(components[n]) == before[n]
      {
      }
    }

    /** `source_component.set_output(target_component)` on the node named
        `src`. */
    method SetOutputOn(src: string, t: NodeId)
      requires Valid() && src in components
      modifies Objects(components[src])
      ensures Valid()
      ensures View() == old(View())[src := SetOutputView(old(View())[src], t)]
    {
      match components[src]
      case SourceNode(_) => SetSourceOutput(src, t);
      case DrainNode => assert View() == old(View())[src := old(View())[src]];
      case ConveyorNode(_) => SetConveyorOutput(src, t);
      case StationNode(_) => SetStationOutput(src, t);
      case RouterNode(_) => SetRouterOutput(src, t);
    }

    /** `set_output` on the Source named `src`. */
    method SetSourceOutput(src: string, t: NodeId)
      requires Valid() && src in components && components[src].SourceNode?
      modifies Objects(components[src])
      ensures Valid()
      ensures View() == old(View())[src := SetOutputView(old(View())[src], t)]
    {
      ghost var before := View();
      components[src].source.SetOutput(t);
      forall n | n in components && n != src
        ensures ViewOf(components[n]) == before[n]
        ensures NodeValid(components[n]) == old(NodeValid(components[n]))
      {
      }
    }

    /** `set_output` on the Conveyor named `src`. */
    method SetConveyorOutput(src: string, t: NodeId)
      requires Valid() && src in components && components[src].ConveyorNode?
      modifies Objects(components[src])
      ensures Valid()
      ensures View() == old(View())[src := SetOutputView(old(View())[src], t)]
    {
      ghost var before := View();
      components[src].conveyor.SetOutput(t);
      forall n | n in components && n != src
        ensures ViewOf(components[n]) == before[n]
        ensures NodeValid(components[n]) == old(NodeValid(components[n]))
      {
      }
    }

    /** `set_output` on the Station named `src`. */
    method SetStationOutput(src: string, t: NodeId)
      requires Valid() && src in components && components[src].StationNode?
      modifies Objects(components[src])
      ensures Valid()
      ensures View() == old(View())[src := SetOutputView(old(View())[src], t)]
    {
      ghost var before := View();
      components[src].station.SetOutput(t);
      forall n | n in components && n != src
        ensures ViewOf(components[n]) == before[n]
        ensures NodeValid(components[n]) == old(NodeValid(components[n]))
      {
      }
    }

    /** `set_output` on the Router named `src`. */
    method SetRouterOutput(src: string, t: NodeId)
      requires Valid() && src in components && components[src].RouterNode?
      modifies Objects(components[src])
      ensures Valid()
      ensures View() == old(View())[src := SetOutputView(old(View())[src], t)]
    {
      ghost var before := View();
      components[src].router.SetOutput(t);
      forall n | n in components && n != src
        ensures ViewOf(components[n]) == before[n]
        ensures NodeValid(components[n]) == old(NodeValid(components[n]))
      {
      }
    }

    /** `_wire_components`. */
    method WireComponents(configs: seq<ComponentConfig>) returns (err: Option<BuildError>)
      requires Valid()
      modifies Repr
      ensures Valid() && Repr == old(Repr) && components == old(components)
      ensures (err, View()) == WireAll(configs, old(View()))
    {
      var i := 0;
      while i < |configs|
        invariant 0 <= i <= |configs|
        invariant Valid() && Repr == old(Repr) && components == old(components)
        invariant WireAll(configs, old(View())) == WireAll(configs[i..], View())
      {
        assert configs[i..][1..] == configs[i + 1..];
        err := WireStep(configs[i]);
        if err.Some? {
          return;
        }
        i := i + 1;
      }
      return None;
    }

    /** One turn of the outer loop of `_wire_components`: a configuration
        without outputs is skipped; otherwise its node must exist and be a
        producer, and its targets are attached in order. */
    method WireStep(c: ComponentConfig) returns (err: Option<BuildError>)
      requires Valid()
      modifies Repr
      ensures Valid() && Repr == old(Repr) && components == old(components)
      ensures (err, View()) == WireOne(c, old(View()))
    {
      if c.outputs.None? {
        return None;
      }
      if c.name !in components {
        return Some(MissingComponent(c.name));
      }
      if !IsProducer(KindOf(ViewOf(components[c.name]))) {
        return Some(NotAProducer(c.name));
      }
      err := AttachTargets(c.name, TargetNames(c.outputs.value));
    }

    /** The inner loop of `_wire_components`: each target must exist and be
        a consumer, and is then attached to the producer `src`. */
    method AttachTargets(src: string, names: seq<string>) returns (err: Option<BuildError>)
      requires Valid() && src in components
      modifies Repr
      ensures Valid() && Repr == old(Repr) && components == old(components)
      ensures (err, View()) == WireTargets(src, names, old(View()))
    {
      var k := 0;
      while k < |names|
        invariant 0 <= k <= |names|
        invariant Valid() && Repr == old(Repr) && components == old(components)
        invariant WireTargets(src, names, old(View())) == WireTargets(src, names[k..], View())
      {
        var t := names[k];
        assert names[k..][1..] == names[k + 1..];
        if t !in components {
          return Some(UnknownTarget(src, t));
        }
        if !IsConsumer(KindOf(ViewOf(components[t]))) {
          return Some(NotAConsumer(t));
        }
        SetOutputOn(src, t);
        k := k + 1;
      }
      return None;
    }

    /** `build_from_dict`: both passes; the result is the component map. */
    method BuildFromDict(configs: seq<ComponentConfig>) returns (err: Option<BuildError>, result: map<string, Node>)
      requires Valid()
      modifies this, Repr
      ensures Valid() && fresh(Repr - old(Repr)) && result == components
      ensures (err, View()) == BuildAll(configs, old(View()))
    {
      err := InstantiateComponents(configs);
      if err.None? {
        err := WireComponents(configs);
      }
      result := components;
    }
  }
}
