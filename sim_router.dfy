/** The newer simulator's Router (src/sim/entities/router.py): a node with no
    delay and no capacity that hands each part to one of its output targets. */
module SimRouter {
  import opened Values
  import opened Parts
  import opened RoundRobinCursor

  /** The `routing_logic` value as a closed variant: "round_robin", "random",
      and every other value, which routes to the first output. */
  datatype RoutingLogic = RoundRobin | RandomChoice | FirstOutput

  /** The logic a `routing_logic` value selects. */
  function LogicOf(v: Value): (l: RoutingLogic)
    ensures l == RoundRobin <==> v == Str("round_robin")
    ensures l == RandomChoice <==> v == Str("random")
  {
    if v == Str("round_robin") then RoundRobin
    else if v == Str("random") then RandomChoice
    else FirstOutput
  }

  /** The constructor's default `routing_logic`. */
  const DefaultLogic: RoutingLogic := RoundRobin

  class Router {
    const name: NodeId
    const logic: RoutingLogic
    var outputTargets: seq<NodeId>
    var nextTargetIdx: nat

    /** The cursor indexes a target, or is 0 while there is none. */
    ghost predicate Valid()
      reads this
    {
      nextTargetIdx == 0 || nextTargetIdx < |outputTargets|
    }

    constructor (name: NodeId, logic: RoutingLogic)
      ensures Valid()
      ensures this.name == name && this.logic == logic
      ensures outputTargets == [] && nextTargetIdx == 0
    {
      this.name := name;
      this.logic := logic;
      outputTargets := [];
      nextTargetIdx := 0;
    }

    /** `set_output` appends: every target stays, in the order it was set. */
    method SetOutput(target: NodeId)
      requires Valid()
      modifies this`outputTargets
      ensures Valid()
      ensures outputTargets == old(outputTargets) + [target]
    {
      outputTargets := outputTargets + [target];
    }

    /** `put`: with no targets the part is discarded and nothing changes;
        otherwise exactly one target receives the unchanged part. The random
        choice is any member of the targets. */
    method Put(part: Part) returns (d: Option<Delivery>)
      requires Valid()
      modifies this`nextTargetIdx
      ensures Valid()
      ensures outputTargets == [] ==> d == None && nextTargetIdx == old(nextTargetIdx)
      ensures outputTargets != [] ==> d.Some? && d.value.part == part && d.value.target in outputTargets
      ensures outputTargets != [] && logic == RoundRobin ==>
                d.value.target == outputTargets[old(nextTargetIdx)]
                && nextTargetIdx == NextCursor(old(nextTargetIdx), |outputTargets|)
      ensures logic != RoundRobin ==> nextTargetIdx == old(nextTargetIdx)
      ensures outputTargets != [] && logic == FirstOutput ==> d.value.target == outputTargets[0]
    {
      if outputTargets == [] {
        return None;
      }
      match logic
      case RoundRobin =>
        d := Some(Delivery(outputTargets[nextTargetIdx], part));
        nextTargetIdx := NextCursor(nextTargetIdx, |outputTargets|);
      case RandomChoice =>
        var i :| 0 <= i < |outputTargets|;
        d := Some(Delivery(outputTargets[i], part));
      case FirstOutput =>
        d := Some(Delivery(outputTargets[0], part));
    }
  }
}
