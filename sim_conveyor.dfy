/** The newer simulator's Conveyor (src/sim/entities/conveyor.py): every part
    starts its own transport activity, which holds one slot of the conveyor's
    resource for `travel_time`, releases it, and only then hands the part to
    `output_target`. Unlike Station, `__init__` never assigns `output_target`,
    so an unwired conveyor's activity raises AttributeError when it forwards. */
module SimConveyor {
  import opened Values
  import opened Parts
  import opened Slots

  /** The constructor's defaults. */
  const DefaultTravelTime: real := 1.0
  const DefaultCapacity: int := 1

  /** Reading `output_target` before any `set_output` (AttributeError). */
  datatype ConveyorError = OutputTargetUnset

  class Conveyor {
    const name: NodeId
    const travelTime: real
    const capacity: int
    /** None while `output_target` was never assigned. */
    var outputTarget: Option<NodeId>
    /** One job per `put`, in arrival order. */
    var jobs: seq<Job<Part>>
    /** Slots of the resource currently held. */
    var held: nat

    ghost predicate Valid()
      reads this
    {
      && 0 < capacity
      && held == CountIf(jobs, HoldsSlot)
      && held <= capacity
      && forall i :: 0 <= i < |jobs| ==> ForwardsAfterRelease(jobs[i].phase)
    }

    /** `__init__`; `output_target` is left unassigned. simpy's Resource
        refuses a capacity below 1, which the builder checks before
        constructing. */
    constructor (name: NodeId, travelTime: real, capacity: int)
      requires 0 < capacity
      ensures Valid()
      ensures this.name == name && this.travelTime == travelTime && this.capacity == capacity
      ensures outputTarget == None && jobs == [] && held == 0
    {
      this.name := name;
      this.travelTime := travelTime;
      this.capacity := capacity;
      outputTarget := None;
      jobs := [];
      held := 0;
    }

    /** `set_output` replaces the target: the last one set wins. */
    method SetOutput(target: NodeId)
      requires Valid()
      modifies this`outputTarget
      ensures Valid()
      ensures outputTarget == Some(target)
    {
      outputTarget := Some(target);
    }

    /** `put` starts an independent activity for the part, which asks for a
        slot, and returns at once; job j is that activity. */
    method Put(part: Part) returns (j: nat)
      requires Valid()
      modifies this`jobs
      ensures Valid()
      ensures jobs == old(jobs) + [Job(part, Requested)] && j == |old(jobs)|
    {
      CountIfAppend(jobs, Job(part, Requested), HoldsSlot);
      j := |jobs|;
      jobs := jobs + [Job(part, Requested)];
    }

    /** The resource grants job j a slot at time `now` (only while one is
        free); the job then waits `travel_time`. A negative time makes
        simpy's timeout raise, and the `with` block gives the slot back. */
    method Grant(j: nat, now: real)
      requires Valid() && j < |jobs| && jobs[j].phase == Requested && held < capacity
      modifies this`jobs, this`held
      ensures Valid()
      ensures travelTime >= 0.0 ==>
                jobs == old(jobs)[j := Job(old(jobs)[j].item, InService(now + travelTime))]
                && held == old(held) + 1
      ensures travelTime < 0.0 ==>
                jobs == old(jobs)[j := Job(old(jobs)[j].item, Aborted(false))] && held == old(held)
    {
      var next := if travelTime >= 0.0 then InService(now + travelTime) else Aborted(false);
      CountIfUpdate(jobs, j, Job(jobs[j].item, next), HoldsSlot);
      jobs := jobs[j := Job(jobs[j].item, next)];
      if travelTime >= 0.0 {
        held := held + 1;
      }
    }

    /** The wait of job j ends: leaving the `with` block releases the slot,
        before anything is handed on. Returns the time it happens at. */
    method Release(j: nat) returns (t: real)
      requires Valid() && j < |jobs| && jobs[j].phase.InService?
      modifies this`jobs, this`held
      ensures Valid()
      ensures t == old(jobs)[j].phase.readyAt
      ensures jobs == old(jobs)[j := Job(old(jobs)[j].item, ReleasedPending)]
      ensures held == old(held) - 1
    {
      t := jobs[j].phase.readyAt;
      CountIfUpdate(jobs, j, Job(jobs[j].item, ReleasedPending), HoldsSlot);
      jobs := jobs[j := Job(jobs[j].item, ReleasedPending)];
      held := held - 1;
    }

    /** After the release, job j hands its part, unchanged, to the target;
        with no target ever set the activity dies (the slot is already free). */
    method Forward(j: nat) returns (r: Result<Delivery, ConveyorError>)
      requires Valid() && j < |jobs| && jobs[j].phase == ReleasedPending
      modifies this`jobs
      ensures Valid()
      ensures outputTarget.Some? ==>
                jobs == old(jobs)[j := Job(old(jobs)[j].item, Done)]
                && r == Ok(Delivery(outputTarget.value, old(jobs)[j].item))
      ensures outputTarget.None? ==>
                jobs == old(jobs)[j := Job(old(jobs)[j].item, Aborted(true))]
                && r == Err(OutputTargetUnset)
    {
      var part := jobs[j].item;
      if outputTarget.Some? {
        CountIfUpdate(jobs, j, Job(part, Done), HoldsSlot);
        jobs := jobs[j := Job(part, Done)];
        r := Ok(Delivery(outputTarget.value, part));
      } else {
        CountIfUpdate(jobs, j, Job(part, Aborted(true)), HoldsSlot);
        jobs := jobs[j := Job(part, Aborted(true))];
        r := Err(OutputTargetUnset);
      }
    }
  }
}
