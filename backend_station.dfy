/** The older simulator's Station (PlantsimBackend/entities/Station.py). Every
    order runs its own `Process_Order` activity: it is counted on arrival, asks
    for a slot of the station's resource, holds it for `processingTime`, is
    counted as processed and is sent on while the slot is still held; leaving
    the `with` block then releases the slot. */
module BackendStation {
  import opened Values
  import opened Slots
  import opened BackendRouting

  class Station<T(==)> {
    const id: string
    const processingTime: int
    const capacity: int
    /** `outputs`, `strategy` and `last_output_index`. */
    const port: OutputPort<T>
    /** `OrdersRecieved`. */
    var ordersReceived: int
    /** `OrdersProcessed`. */
    var ordersProcessed: int
    /** One job per `Process_Order` activity, in arrival order. */
    var jobs: seq<Job<Order>>
    /** Slots of the resource currently held. */
    var held: nat

    /** Every arrival is counted, every activity past its wait is counted as
        processed, and the slots held are those of the activities in service
        or sending. This station never hands an order on after releasing. */
    ghost predicate Valid()
      reads this
    {
      && 0 < capacity
      && held == CountIf(jobs, HoldsSlot) <= capacity
      && ordersReceived == |jobs|
      && ordersProcessed == CountIf(jobs, Served)
      && forall i :: 0 <= i < |jobs| ==> !jobs[i].phase.ReleasedPending?
    }

    /** `__init__`: both counters start at 0 and the resource has `capacity`
        slots; simpy refuses a capacity below 1, which the builder checks
        before constructing. */
    constructor (id: string, processingTime: int, capacity: int, strategy: Strategy)
      requires 0 < capacity
      ensures Valid()
      ensures this.id == id && this.processingTime == processingTime && this.capacity == capacity
      ensures ordersReceived == 0 && ordersProcessed == 0 && jobs == [] && held == 0
      ensures fresh(port) && port.strategy == strategy && port.outputs == [] && port.lastOutputIndex == None
    {
      this.id := id;
      this.processingTime := processingTime;
      this.capacity := capacity;
      port := new OutputPort(strategy);
      ordersReceived := 0;
      ordersProcessed := 0;
      jobs := [];
      held := 0;
    }

    /** `Process_Order(order)` starts: the slot is requested and the order is
        counted before any slot is granted; job j is this activity. */
    method ProcessOrder(order: Order) returns (j: nat)
      requires Valid()
      modifies this`jobs, this`ordersReceived
      ensures Valid()
      ensures jobs == old(jobs) + [Job(order, Requested)] && j == |old(jobs)|
      ensures ordersReceived == old(ordersReceived) + 1
    {
      CountIfAppend(jobs, Job(order, Requested), HoldsSlot);
      CountIfAppend(jobs, Job(order, Requested), Served);
      j := |jobs|;
      jobs := jobs + [Job(order, Requested)];
      ordersReceived := ordersReceived + 1;
    }

    /** The resource grants job j a slot at time `now` (only while one is
        free); the job then waits `processingTime`. A negative time makes
        simpy's timeout raise, and the `with` block gives the slot back. */
    method Grant(j: nat, now: real)
      requires Valid() && j < |jobs| && jobs[j].phase == Requested && held < capacity
      modifies this`jobs, this`held
      ensures Valid()
      ensures processingTime >= 0 ==>
                jobs == old(jobs)[j := Job(old(jobs)[j].item, InService(now + processingTime as real))]
                && held == old(held) + 1
      ensures processingTime < 0 ==>
                jobs == old(jobs)[j := Job(old(jobs)[j].item, Aborted(false))] && held == old(held)
    {
      var next := if processingTime >= 0 then InService(now + processingTime as real) else Aborted(false);
      CountIfUpdate(jobs, j, Job(jobs[j].item, next), HoldsSlot);
      CountIfUpdate(jobs, j, Job(jobs[j].item, next), Served);
      jobs := jobs[j := Job(jobs[j].item, next)];
      if processingTime >= 0 {
        held := held + 1;
      }
    }

    /** The wait of job j ends: the order is counted as processed and sent on
        while the slot is still held. If the send raises, the activity dies
        and leaving the `with` block releases the slot. */
    method Complete(j: nat, accepts: T -> bool) returns (r: Result<Delivery<T>, SendError<T>>)
      requires Valid() && j < |jobs| && jobs[j].phase.InService?
      modifies this`jobs, this`held, this`ordersProcessed, port`lastOutputIndex
      ensures Valid()
      ensures ordersProcessed == old(ordersProcessed) + 1
      ensures SentBy(port.strategy, port.outputs, old(port.lastOutputIndex), port.lastOutputIndex,
                     old(jobs)[j].item, accepts, r)
      ensures r.Ok? ==> jobs == old(jobs)[j := Job(old(jobs)[j].item, ForwardedHolding)] && held == old(held)
      ensures r.Err? ==> jobs == old(jobs)[j := Job(old(jobs)[j].item, Aborted(true))] && held == old(held) - 1
    {
      var order := jobs[j].item;
      r := port.Send(order, accepts);
      var next := if r.Ok? then ForwardedHolding else Aborted(true);
      CountIfUpdate(jobs, j, Job(order, next), HoldsSlot);
      CountIfUpdate(jobs, j, Job(order, next), Served);
      jobs := jobs[j := Job(order, next)];
      ordersProcessed := ordersProcessed + 1;
      if r.Err? {
        held := held - 1;
      }
    }

    /** Job j leaves the `with` block after sending: the slot is released. */
    method Release(j: nat)
      requires Valid() && j < |jobs| && jobs[j].phase == ForwardedHolding
      modifies this`jobs, this`held
      ensures Valid()
      ensures jobs == old(jobs)[j := Job(old(jobs)[j].item, Done)]
      ensures held == old(held) - 1
    {
      CountIfUpdate(jobs, j, Job(jobs[j].item, Done), HoldsSlot);
      CountIfUpdate(jobs, j, Job(jobs[j].item, Done), Served);
      jobs := jobs[j := Job(jobs[j].item, Done)];
      held := held - 1;
    }
  }

  /** No more orders are processed than were received. */
  lemma ProcessedWithinReceived<T>(s: Station<T>)
    requires s.Valid()
    ensures 0 <= s.ordersProcessed <= s.ordersReceived
  {
  }
}
