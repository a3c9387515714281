/** The older simulator's Drain (PlantsimBackend/entities/Drain.py): the end
    of the line. Every order is counted on arrival, holds a slot for
    `processingTime`, is counted as processed and goes nowhere. */
module BackendDrain {
  import opened Values
  import opened Slots
  import opened BackendRouting

  class Drain<T> {
    const id: string
    const capacity: int
    const processingTime: int
    /** The `outputs` attribute the builder assigns; no method reads it.
        `__init__` does not create it: until the builder's assignment, the
        empty sequence here stands for the missing attribute. */
    var outputs: seq<T>
    /** `OrdersRecieved`. */
    var ordersReceived: int
    /** `OrdersProcessed`. */
    var ordersProcessed: int
    /** One job per `Process_Order` activity, in arrival order. */
    var jobs: seq<Job<Order>>
    /** Slots of the resource currently held. */
    var held: nat

    /** Every arrival is counted, every activity past its wait is counted as
        processed, and the slots held are those of the activities in service.
        No order is ever handed on. */
    ghost predicate Valid()
      reads this
    {
      && 0 < capacity
      && held == CountIf(jobs, HoldsSlot) <= capacity
      && ordersReceived == |jobs|
      && ordersProcessed == CountIf(jobs, Served)
      && forall i :: 0 <= i < |jobs| ==> !jobs[i].phase.ForwardedHolding? && !jobs[i].phase.ReleasedPending?
    }

    /** `__init__`: both counters start at 0 and the resource has `capacity`
        slots; simpy refuses a capacity below 1, which the builder checks
        before constructing. `outputs` is not set by `__init__`; it starts
        empty here (see the field). */
    constructor (id: string, capacity: int, processingTime: int)
      requires 0 < capacity
      ensures Valid()
      ensures this.id == id && this.capacity == capacity && this.processingTime == processingTime
      ensures outputs == [] && ordersReceived == 0 && ordersProcessed == 0 && jobs == [] && held == 0
    {
      this.id := id;
      this.capacity := capacity;
      this.processingTime := processingTime;
      outputs := [];
      ordersReceived := 0;
      ordersProcessed := 0;
      jobs := [];
      held := 0;
    }

    /** `drain.outputs = targets`. */
    method SetOutputs(targets: seq<T>)
      modifies this`outputs
      ensures outputs == targets
    {
      outputs := targets;
    }

    /** `Process_Order(order)` starts: the slot is requested and the order is
        counted before any slot is granted; job j is this activity. */
    method ProcessOrder(order: Order) returns (j: nat)
      requires Valid()
      modifies this`jobs, this`ordersReceived
      ensures Valid()
      ensures jobs == old(jobs) + [Job(order, Requested)] && j == |old(jobs)|
      ensures ordersReceived == old(ordersReceived) + 1
    {
      CountIfAppend(jobs, Job(order, Requested), HoldsSlot);
      CountIfAppend(jobs, Job(order, Requested), Served);
      j := |jobs|;
      jobs := jobs + [Job(order, Requested)];
      ordersReceived := ordersReceived + 1;
    }

    /** The resource grants job j a slot at time `now` (only while one is
        free); the job then waits `processingTime`. A negative time makes
        simpy's timeout raise, and the `with` block gives the slot back. */
    method Grant(j: nat, now: real)
      requires Valid() && j < |jobs| && jobs[j].phase == Requested && held < capacity
      modifies this`jobs, this`held
      ensures Valid()
      ensures processingTime >= 0 ==>
                jobs == old(jobs)[j := Job(old(jobs)[j].item, InService(now + processingTime as real))]
                && held == old(held) + 1
      ensures processingTime < 0 ==>
                jobs == old(jobs)[j := Job(old(jobs)[j].item, Aborted(false))] && held == old(held)
    {
      var next := if processingTime >= 0 then InService(now + processingTime as real) else Aborted(false);
      CountIfUpdate(jobs, j, Job(jobs[j].item, next), HoldsSlot);
      CountIfUpdate(jobs, j, Job(jobs[j].item, next), Served);
      jobs := jobs[j := Job(jobs[j].item, next)];
      if processingTime >= 0 {
        held := held + 1;
      }
    }

    /** The wait of job j ends: the order is counted as processed and leaving
        the `with` block releases the slot; nothing is sent anywhere. */
    method Complete(j: nat)
      requires Valid() && j < |jobs| && jobs[j].phase.InService?
      modifies this`jobs, this`held, this`ordersProcessed
      ensures Valid()
      ensures ordersProcessed == old(ordersProcessed) + 1
      ensures jobs == old(jobs)[j := Job(old(jobs)[j].item, Done)]
      ensures held == old(held) - 1
    {
      CountIfUpdate(jobs, j, Job(jobs[j].item, Done), HoldsSlot);
      CountIfUpdate(jobs, j, Job(jobs[j].item, Done), Served);
      jobs := jobs[j := Job(jobs[j].item, Done)];
      ordersProcessed := ordersProcessed + 1;
      held := held - 1;
    }
  }

  /** No more orders are processed than were received. */
  lemma ProcessedWithinReceived<T>(d: Drain<T>)
    requires d.Valid()
    ensures 0 <= d.ordersProcessed <= d.ordersReceived
  {
  }
}
