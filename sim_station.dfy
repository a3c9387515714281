/** The newer simulator's Station (src/sim/entities/station.py): every part
    starts its own processing activity, which holds one slot of the station's
    resource for `processing_time`, releases it, and only then hands the part
    to `output_target` (or drops it while that is None). */
module SimStation {
  import opened Values
  import opened Parts
  import opened Slots

  /** The constructor's defaults. */
  const DefaultProcessingTime: real := 1.0
  const DefaultCapacity: int := 1

  class Station {
    const name: NodeId
    const processingTime: real
    const capacity: int
    var outputTarget: Option<NodeId>
    /** One job per `put`, in arrival order. */
    var jobs: seq<Job<Part>>
    /** Slots of the resource currently held. */
    var held: nat

    ghost predicate Valid()
      reads this
    {
      && 0 < capacity
      && held == CountIf(jobs, HoldsSlot)
      && held <= capacity
      && forall i :: 0 <= i < |jobs| ==> ForwardsAfterRelease(jobs[i].phase)
    }

    /** `__init__`; simpy's Resource refuses a capacity below 1, which the
        builder checks before constructing. */
    constructor (name: NodeId, processingTime: real, capacity: int)
      requires 0 < capacity
      ensures Valid()
      ensures this.name == name && this.processingTime == processingTime && this.capacity == capacity
      ensures outputTarget == None && jobs == [] && held == 0
    {
      this.name := name;
      this.processingTime := processingTime;
      this.capacity := capacity;
      outputTarget := None;
      jobs := [];
      held := 0;
    }

    /** `set_output` replaces the target: the last one set wins. */
    method SetOutput(target: NodeId)
      requires Valid()
      modifies this`outputTarget
      ensures Valid()
      ensures outputTarget == Some(target)
    {
      outputTarget := Some(target);
    }

    /** `put` starts an independent activity for the part, which asks for a
        slot, and returns at once; job j is that activity. */
    method Put(part: Part) returns (j: nat)
      requires Valid()
      modifies this`jobs
      ensures Valid()
      ensures jobs == old(jobs) + [Job(part, Requested)] && j == |old(jobs)|
    {
      CountIfAppend(jobs, Job(part, Requested), HoldsSlot);
      j := |jobs|;
      jobs := jobs + [Job(part, Requested)];
    }

    /** The resource grants job j a slot at time `now` (only while one is
        free); the job then waits `processing_time`. A negative time makes
        simpy's timeout raise, and the `with` block gives the slot back. */
    method Grant(j: nat, now: real)
      requires Valid() && j < |jobs| && jobs[j].phase == Requested && held < capacity
      modifies this`jobs, this`held
      ensures Valid()
      ensures processingTime >= 0.0 ==>
                jobs == old(jobs)[j := Job(old(jobs)[j].item, InService(now + processingTime))]
                && held == old(held) + 1
      ensures processingTime < 0.0 ==>
                jobs == old(jobs)[j := Job(old(jobs)[j].item, Aborted(false))] && held == old(held)
    {
      var next := if processingTime >= 0.0 then InService(now + processingTime) else Aborted(false);
      CountIfUpdate(jobs, j, Job(jobs[j].item, next), HoldsSlot);
      jobs := jobs[j := Job(jobs[j].item, next)];
      if processingTime >= 0.0 {
        held := held + 1;
      }
    }

    /** The wait of job j ends: leaving the `with` block releases the slot,
        before anything is handed on. Returns the time it happens at. */
    method Release(j: nat) returns (t: real)
      requires Valid() && j < |jobs| && jobs[j].phase.InService?
      modifies this`jobs, this`held
      ensures Valid()
      ensures t == old(jobs)[j].phase.readyAt
      ensures jobs == old(jobs)[j := Job(old(jobs)[j].item, ReleasedPending)]
      ensures held == old(held) - 1
    {
      t := jobs[j].phase.readyAt;
      CountIfUpdate(jobs, j, Job(jobs[j].item, ReleasedPending), HoldsSlot);
      jobs := jobs[j := Job(jobs[j].item, ReleasedPending)];
      held := held - 1;
    }

    /** After the release, job j hands its part, unchanged, to the target, or
        drops it while the target is None. */
    method Forward(j: nat) returns (d: Option<Delivery>)
      requires Valid() && j < |jobs| && jobs[j].phase == ReleasedPending
      modifies this`jobs
      ensures Valid()
      ensures jobs == old(jobs)[j := Job(old(jobs)[j].item, Done)]
      ensures d == if outputTarget.Some?
                   then Some(Delivery(outputTarget.value, old(jobs)[j].item))
                   else None
    {
      CountIfUpdate(jobs, j, Job(jobs[j].item, Done), HoldsSlot);
      var part := jobs[j].item;
      jobs := jobs[j := Job(part, Done)];
      if outputTarget.Some? {
        d := Some(Delivery(outputTarget.value, part));
      } else {
        d := None;
      }
    }
  }
}
