/** The older simulator's Conveyor (PlantsimBackend/entities/Conveyor.py).
    It behaves like the older Station, except that the time an order waits is
    computed from the conveyor's length and speed. */
module BackendConveyor {
  import opened Values
  import opened Slots
  import opened BackendRouting

  /** Python's `a // b`: the floor of a / b. Dafny's `/` on int is Euclidean,
      which is the floor only for a positive divisor. */
  function FloorDiv(a: int, b: int): (q: int)
    requires b != 0
    ensures q * b <= a < q * b + b || (b < 0 && q * b + b < a <= q * b)
  {
    if b > 0 then a / b else (-a) / (-b)
  }

  /** The transit time as `__init__` computes it: `/` is true division in
      Python 3, so the result is fractional whenever the speed does not divide
      length + speed - 1. */
  function TransitTimeAsWritten(length: int, speed: int): (t: real)
    requires speed != 0
    ensures speed > 0 ==> length as real / speed as real <= t < length as real / speed as real + 1.0
  {
    var s, l := speed as real, length as real;
    assert (l + (s - 1.0)) / s == l / s + (s - 1.0) / s;
    assert s > 0.0 ==> 0.0 <= (s - 1.0) / s < 1.0;
    (length + (speed - 1)) as real / speed as real
  }

  /** The transit time the formula is written for: `(length + speed - 1) //
      speed`, the whole number of time units a part needs to cover `length`
      at `speed` units per time unit, that is the ceiling of length / speed. */
  function TransitTime(length: int, speed: int): (t: int)
    requires speed != 0
    ensures speed > 0 ==> (t - 1) * speed < length <= t * speed
  {
    var a := length + (speed - 1);
    var t := FloorDiv(a, speed);
    assert speed > 0 ==> a == t * speed + a % speed;
    t
  }

  /** A conveyor of length 2 and speed 4: the formula as written gives 1.25
      time units, not a whole number, while the ceiling is 1. */
  lemma TransitTimeAsWrittenIsFractional()
    ensures TransitTimeAsWritten(2, 4) == 1.25
    ensures TransitTime(2, 4) == 1
    ensures TransitTimeAsWritten(2, 4) != TransitTime(2, 4) as real
  {
  }

  /** The two agree exactly when the speed divides length + speed - 1. */
  lemma TransitTimeAgreement(length: int, speed: int)
    requires speed > 0
    ensures TransitTimeAsWritten(length, speed) == TransitTime(length, speed) as real
            <==> (length + speed - 1) % speed == 0
  {
    var a := length + (speed - 1);
    var t := TransitTime(length, speed);
    assert a == t * speed + a % speed;
    assert TransitTimeAsWritten(length, speed) == (t * speed) as real / speed as real + (a % speed) as real / speed as real;
    assert (t * speed) as real / speed as real == t as real;
  }

  class Conveyor<T(==)> {
    const id: string
    const speed: int
    const length: int
    const capacity: int
    /** The transit time every order waits, as `__init__` computes it. */
    const processingTime: real
    /** `outputs`, `strategy` and `last_output_index`. */
    const port: OutputPort<T>
    /** `OrdersRecieved`. */
    var ordersReceived: int
    /** `OrdersProcessed`. */
    var ordersProcessed: int
    /** One job per `Process_Order` activity, in arrival order. */
    var jobs: seq<Job<Order>>
    /** Slots of the resource currently held. */
    var held: nat

    /** Every arrival is counted, every activity past its wait is counted as
        processed, and the slots held are those of the activities in service
        or sending. This conveyor never hands an order on after releasing. */
    ghost predicate Valid()
      reads this
    {
      && 0 < capacity
      && held == CountIf(jobs, HoldsSlot) <= capacity
      && ordersReceived == |jobs|
      && ordersProcessed == CountIf(jobs, Served)
      && forall i :: 0 <= i < |jobs| ==> !jobs[i].phase.ReleasedPending?
    }

    /** `__init__`: both counters start at 0, the resource has `capacity`
        slots and the transit time is the true quotient (length + speed - 1)
        / speed, fractional in general (see `TransitTimeAsWritten`). The
        resource is made first, so a capacity below 1 fails before a zero
        speed does; the builder checks both before constructing. */
    constructor (id: string, speed: int, length: int, capacity: int, strategy: Strategy)
      requires 0 < capacity && speed != 0
      ensures Valid()
      ensures this.id == id && this.speed == speed && this.length == length && this.capacity == capacity
      ensures processingTime == TransitTimeAsWritten(length, speed)
      ensures ordersReceived == 0 && ordersProcessed == 0 && jobs == [] && held == 0
      ensures fresh(port) && port.strategy == strategy && port.outputs == [] && port.lastOutputIndex == None
    {
      this.id := id;
      this.speed := speed;
      this.length := length;
      this.capacity := capacity;
      processingTime := TransitTimeAsWritten(length, speed);
      port := new OutputPort(strategy);
      ordersReceived := 0;
      ordersProcessed := 0;
      jobs := [];
      held := 0;
    }

    /** `Process_Order(order)` starts: the slot is requested and the order is
        counted before any slot is granted; job j is this activity. */
    method ProcessOrder(order: Order) returns (j: nat)
      requires Valid()
      modifies this`jobs, this`ordersReceived
      ensures Valid()
      ensures jobs == old(jobs) + [Job(order, Requested)] && j == |old(jobs)|
      ensures ordersReceived == old(ordersReceived) + 1
    {
      CountIfAppend(jobs, Job(order, Requested), HoldsSlot);
      CountIfAppend(jobs, Job(order, Requested), Served);
      j := |jobs|;
      jobs := jobs + [Job(order, Requested)];
      ordersReceived := ordersReceived + 1;
    }

    /** The resource grants job j a slot at time `now` (only while one is
        free); the job then waits `processingTime`. A negative time makes
        simpy's timeout raise, and the `with` block gives the slot back. */
    method Grant(j: nat, now: real)
      requires Valid() && j < |jobs| && jobs[j].phase == Requested && held < capacity
      modifies this`jobs, this`held
      ensures Valid()
      ensures processingTime >= 0.0 ==>
                jobs == old(jobs)[j := Job(old(jobs)[j].item, InService(now + processingTime))]
                && held == old(held) + 1
      ensures processingTime < 0.0 ==>
                jobs == old(jobs)[j := Job(old(jobs)[j].item, Aborted(false))] && held == old(held)
    {
      var next := if processingTime >= 0.0 then InService(now + processingTime) else Aborted(false);
      CountIfUpdate(jobs, j, Job(jobs[j].item, next), HoldsSlot);
      CountIfUpdate(jobs, j, Job(jobs[j].item, next), Served);
      jobs := jobs[j := Job(jobs[j].item, next)];
      if processingTime >= 0.0 {
        held := held + 1;
      }
    }

    /** The wait of job j ends: the order is counted as processed and sent on
        while the slot is still held. If the send raises, the activity dies
        and leaving the `with` block releases the slot. */
    method Complete(j: nat, accepts: T -> bool) returns (r: Result<Delivery<T>, SendError<T>>)
      requires Valid() && j < |jobs| && jobs[j].phase.InService?
      modifies this`jobs, this`held, this`ordersProcessed, port`lastOutputIndex
      ensures Valid()
      ensures ordersProcessed == old(ordersProcessed) + 1
      ensures SentBy(port.strategy, port.outputs, old(port.lastOutputIndex), port.lastOutputIndex,
                     old(jobs)[j].item, accepts, r)
      ensures r.Ok? ==> jobs == old(jobs)[j := Job(old(jobs)[j].item, ForwardedHolding)] && held == old(held)
      ensures r.Err? ==> jobs == old(jobs)[j := Job(old(jobs)[j].item, Aborted(true))] && held == old(held) - 1
    {
      var order := jobs[j].item;
      r := port.Send(order, accepts);
      var next := if r.Ok? then ForwardedHolding else Aborted(true);
      CountIfUpdate(jobs, j, Job(order, next), HoldsSlot);
      CountIfUpdate(jobs, j, Job(order, next), Served);
      jobs := jobs[j := Job(order, next)];
      ordersProcessed := ordersProcessed + 1;
      if r.Err? {
        held := held - 1;
      }
    }

    /** Job j leaves the `with` block after sending: the slot is released. */
    method Release(j: nat)
      requires Valid() && j < |jobs| && jobs[j].phase == ForwardedHolding
      modifies this`jobs, this`held
      ensures Valid()
      ensures jobs == old(jobs)[j := Job(old(jobs)[j].item, Done)]
      ensures held == old(held) - 1
    {
      CountIfUpdate(jobs, j, Job(jobs[j].item, Done), HoldsSlot);
      CountIfUpdate(jobs, j, Job(jobs[j].item, Done), Served);
      jobs := jobs[j := Job(jobs[j].item, Done)];
      held := held - 1;
    }
  }

  /** No more orders are processed than were received. */
  lemma ProcessedWithinReceived<T>(s: Conveyor<T>)
    requires s.Valid()
    ensures 0 <= s.ordersProcessed <= s.ordersReceived
  {
  }
}
