/** The older simulator's Source (PlantsimBackend/entities/Source.py). Its
    `Generate` generator is a process that simpy resumes after every timeout;
    here it is a state machine: `Generate` runs the process up to its first
    wait, and each `Resume` runs one pass of the loop, from the end of a wait
    to the next one. */
module BackendSource {
  import opened Values
  import opened BackendRouting

  /** Why a generation process died: `send_to_outputs` raised, or simpy
      refused a negative timeout (ValueError). */
  datatype SourceError = SendFailed | NegativeDelay

  datatype GenPhase =
    | NotStarted
    | Sleeping(wakeAt: real)   // waiting in a `yield self.env.timeout(...)`
    | Stopped                  // one of the two `break`s ran
    | Crashed(error: SourceError)

  /** The loop goes on at time `now` unless one of its two `break` tests
      holds: the limit is reached, or the end time has come. */
  predicate Continues(limit: Option<int>, endTime: Option<int>, generated: int, now: real) {
    && !(limit.Some? && generated >= limit.value)
    && !(endTime.Some? && now >= endTime.value as real)
  }

  /** `Create_MU` while `OrdersGenerated` is `generated`: the id uses the count
      before the increment. */
  function CreateMU(id: string, generated: int, now: real): Order {
    Order("order_" + IntToString(generated), now, id)
  }

  /** `yield self.env.timeout(self.interval)`. */
  function Wait(interval: int, now: real): GenPhase {
    if interval < 0 then Crashed(NegativeDelay) else Sleeping(now + interval as real)
  }

  /** The time of the first loop test for a process started at t0: after the
      initial wait when `startTime > 0`, at once otherwise. */
  function FirstTest(startTime: int, t0: real): real {
    if startTime > 0 then t0 + startTime as real else t0
  }

  /** The process state a Source keeps: `OrdersGenerated` and the phase. */
  datatype Gen = Gen(generated: int, phase: GenPhase)

  /** One pass of the loop at `now` whose send succeeds: the loop stops, or
      one order is made, counted and sent, and the process waits. */
  function Loop(id: string, limit: Option<int>, endTime: Option<int>, interval: int,
                generated: int, now: real): (Gen, Option<Order>)
  {
    if !Continues(limit, endTime, generated, now) then (Gen(generated, Stopped), None)
    else (Gen(generated + 1, Wait(interval, now)), Some(CreateMU(id, generated, now)))
  }

  class Source<T(==)> {
    const id: string
    const limit: Option<int>
    const interval: int
    const startTime: int
    const endTime: Option<int>
    /** `outputs`, `strategy` and `last_output_index`. */
    const port: OutputPort<T>
    var ordersGenerated: int
    /** `OrdersPushedOut`: set to 0 and never updated. */
    var ordersPushedOut: int
    var phase: GenPhase

    /** The counter never passes a non-negative limit. */
    ghost predicate Valid()
      reads this
    {
      && 0 <= ordersGenerated
      && ordersPushedOut == 0
      && (limit.Some? ==> ordersGenerated <= Max(limit.value, 0))
    }

    constructor (limit: Option<int>, interval: int, startTime: int, endTime: Option<int>, id: string, strategy: Strategy)
      ensures Valid()
      ensures this.limit == limit && this.interval == interval && this.startTime == startTime
      ensures this.endTime == endTime && this.id == id
      ensures ordersGenerated == 0 && phase == NotStarted
      ensures fresh(port) && port.strategy == strategy && port.outputs == [] && port.lastOutputIndex == None
    {
      this.limit := limit;
      this.interval := interval;
      this.startTime := startTime;
      this.endTime := endTime;
      this.id := id;
      port := new OutputPort(strategy);
      ordersGenerated := 0;
      ordersPushedOut := 0;
      phase := NotStarted;
    }

    /** The process `Generate()` started at `now`, run up to its first wait.
        One process runs at a time. */
    method Generate(now: real, accepts: T -> bool) returns (r: Option<Result<Delivery<T>, SendError<T>>>)
      requires Valid() && !phase.Sleeping?
      modifies this`ordersGenerated, this`phase, port`lastOutputIndex
      ensures Valid()
      ensures startTime > 0 ==>
                && phase == Sleeping(FirstTest(startTime, now)) && r == None
                && ordersGenerated == old(ordersGenerated)
                && port.lastOutputIndex == old(port.lastOutputIndex)
      ensures startTime <= 0 ==> LoopRan(old(ordersGenerated), old(port.lastOutputIndex), now, accepts, r)
    {
      if startTime > 0 {
        phase := Sleeping(now + startTime as real);
        r := None;
      } else {
        r := RunLoop(now, accepts);
      }
    }

    /** simpy resumes the process at the end of its wait. */
    method Resume(accepts: T -> bool) returns (r: Option<Result<Delivery<T>, SendError<T>>>)
      requires Valid() && phase.Sleeping?
      modifies this`ordersGenerated, this`phase, port`lastOutputIndex
      ensures Valid()
      ensures LoopRan(old(ordersGenerated), old(port.lastOutputIndex), old(phase).wakeAt, accepts, r)
    {
      r := RunLoop(phase.wakeAt, accepts);
    }

    /** What one pass of the loop at `now` did, from the counter and cursor it
        started with: it agrees with `Loop`, except that a failed send kills
        the process instead of waiting. */
    ghost predicate LoopRan(generated0: int, cursor0: Option<int>, now: real,
                            accepts: T -> bool, r: Option<Result<Delivery<T>, SendError<T>>>)
      reads this, port
    {
      var (g, o) := Loop(id, limit, endTime, interval, generated0, now);
      && ordersGenerated == g.generated
      && (o.None? ==> r.None? && phase == Stopped && port.lastOutputIndex == cursor0)
      && (o.Some? ==>
            && r.Some?
            && SentBy(port.strategy, port.outputs, cursor0, port.lastOutputIndex, o.value, accepts, r.value)
            && phase == if r.value.Ok? then g.phase else Crashed(SendFailed))
    }

    /** The body of the `while True` loop at `now`. */
    method RunLoop(now: real, accepts: T -> bool) returns (r: Option<Result<Delivery<T>, SendError<T>>>)
      requires Valid()
      modifies this`ordersGenerated, this`phase, port`lastOutputIndex
      ensures Valid()
      ensures LoopRan(old(ordersGenerated), old(port.lastOutputIndex), now, accepts, r)
    {
      if limit.Some? && ordersGenerated >= limit.value {
        phase := Stopped;
        return None;
      }
      if endTime.Some? && now >= endTime.value as real {
        phase := Stopped;
        return None;
      }
      var order := CreateMU(id, ordersGenerated, now);
      ordersGenerated := ordersGenerated + 1;
      var sent := port.Send(order, accepts);
      r := Some(sent);
      if sent.Err? {
        phase := Crashed(SendFailed);
      } else {
        phase := Wait(interval, now);
      }
    }
  }

  /** A process whose first loop test is at `base` and whose sends all
      succeed, after n loop tests: its state and the orders it made, in order.
      Before any test it is waiting for `base`; tests after it stopped change
      nothing. */
  function Run(id: string, limit: Option<int>, endTime: Option<int>, interval: int,
               base: real, n: nat): (Gen, seq<Order>)
  {
    if n == 0 then (Gen(0, Sleeping(base)), [])
    else
      var (g, os) := Run(id, limit, endTime, interval, base, n - 1);
      if !g.phase.Sleeping? then (g, os)
      else
        var (g', o) := Loop(id, limit, endTime, interval, g.generated, g.phase.wakeAt);
        (g', if o.Some? then os + [o.value] else os)
  }

  /** The time of the k-th loop test (0-based) when every wait is one
      interval. */
  function TestTime(base: real, interval: int, k: int): real {
    base + k as real * interval as real
  }

  lemma TestTimeStep(base: real, interval: int, k: int)
    ensures TestTime(base, interval, k) + interval as real == TestTime(base, interval, k + 1)
  {
    assert (k + 1) as real * interval as real == k as real * interval as real + interval as real;
  }

  /** The state after n loop tests with a non-negative interval: the counter
      equals the number of orders; while the process is asleep every test has
      made an order and the next test is due at the n-th test time; once it
      is not asleep it has stopped at a `break` test. */
  lemma {:induction false} RunShape(id: string, limit: Option<int>, endTime: Option<int>, interval: int,
                                    base: real, n: nat)
    requires interval >= 0
    ensures var (g, os) := Run(id, limit, endTime, interval, base, n);
            && g.generated == |os| <= n
            && (g.phase.Sleeping? ==> |os| == n && g.phase.wakeAt == TestTime(base, interval, n))
            && (!g.phase.Sleeping? ==> g.phase == Stopped && !Continues(limit, endTime, |os|, TestTime(base, interval, |os|)))
  {
    if n > 0 {
      RunShape(id, limit, endTime, interval, base, n - 1);
      TestTimeStep(base, interval, n - 1);
    }
  }

  /** One more loop test keeps the orders made so far and adds at most one:
      the order numbered by the count so far, made at that test's time,
      which passed both `break` tests. */
  lemma RunLast(id: string, limit: Option<int>, endTime: Option<int>, interval: int, base: real, n: nat)
    requires interval >= 0 && n > 0
    ensures var os := Run(id, limit, endTime, interval, base, n - 1).1;
            var os' := Run(id, limit, endTime, interval, base, n).1;
            && |os| <= |os'| <= |os| + 1
            && (forall i :: 0 <= i < |os| ==> os'[i] == os[i])
            && (|os'| == |os| + 1 ==>
                  && os'[|os|] == CreateMU(id, |os|, TestTime(base, interval, |os|))
                  && Continues(limit, endTime, |os|, TestTime(base, interval, |os|)))
  {
    RunShape(id, limit, endTime, interval, base, n - 1);
    var (g, os) := Run(id, limit, endTime, interval, base, n - 1);
    var os' := Run(id, limit, endTime, interval, base, n).1;
    if g.phase.Sleeping? && Continues(limit, endTime, g.generated, g.phase.wakeAt) {
      assert g.generated == |os| && g.phase.wakeAt == TestTime(base, interval, |os|);
      assert os' == os + [CreateMU(id, |os|, TestTime(base, interval, |os|))];
    } else {
      assert os' == os;
    }
  }

  /** The k-th order (0-based) made in n loop tests is "order_k", made at
      the k-th test time, which passed both `break` tests. */
  lemma {:induction false} RunOrderAt(id: string, limit: Option<int>, endTime: Option<int>, interval: int,
                                      base: real, n: nat, k: nat)
    requires interval >= 0
    requires k < |Run(id, limit, endTime, interval, base, n).1|
    ensures Run(id, limit, endTime, interval, base, n).1[k] == CreateMU(id, k, TestTime(base, interval, k))
    ensures Continues(limit, endTime, k, TestTime(base, interval, k))
  {
    var os := Run(id, limit, endTime, interval, base, n - 1).1;
    var os' := Run(id, limit, endTime, interval, base, n).1;
    RunLast(id, limit, endTime, interval, base, n);
    if k < |os| {
      RunOrderAt(id, limit, endTime, interval, base, n - 1, k);
    } else {
      assert k == |os|;
    }
  }

  /** The emission schedule of `Generate` with a non-negative interval: every
      order is the one `RunOrderAt` names. */
  lemma RunSchedule(id: string, limit: Option<int>, endTime: Option<int>, interval: int,
                    base: real, n: nat)
    requires interval >= 0
    ensures var os := Run(id, limit, endTime, interval, base, n).1;
            forall k :: 0 <= k < |os| ==>
              && os[k] == CreateMU(id, k, TestTime(base, interval, k))
              && Continues(limit, endTime, k, TestTime(base, interval, k))
  {
    var os := Run(id, limit, endTime, interval, base, n).1;
    forall k | 0 <= k < |os|
      ensures os[k] == CreateMU(id, k, TestTime(base, interval, k))
      ensures Continues(limit, endTime, k, TestTime(base, interval, k))
    {
      RunOrderAt(id, limit, endTime, interval, base, n, k);
    }
  }

  /** At most `limit` orders are made, and none when `limit <= 0`. */
  lemma OrdersWithinLimit(id: string, l: int, endTime: Option<int>, interval: int, base: real, n: nat)
    requires interval >= 0
    ensures |Run(id, Some(l), endTime, interval, base, n).1| <= Max(l, 0)
  {
    RunSchedule(id, Some(l), endTime, interval, base, n);
    var os := Run(id, Some(l), endTime, interval, base, n).1;
    if os != [] {
      assert Continues(Some(l), endTime, |os| - 1, TestTime(base, interval, |os| - 1));
    }
  }

  /** Every order is made before the end time, and none at all when the end
      time is not after the first test (the builder's default end time 0 with
      start time 0 and a process started at 0). */
  lemma OrdersBeforeEnd(id: string, limit: Option<int>, e: int, interval: int, base: real, n: nat)
    requires interval >= 0
    ensures forall k :: 0 <= k < |Run(id, limit, Some(e), interval, base, n).1| ==>
              Run(id, limit, Some(e), interval, base, n).1[k].createdAt < e as real
    ensures e as real <= base ==> Run(id, limit, Some(e), interval, base, n).1 == []
  {
    RunSchedule(id, limit, Some(e), interval, base, n);
    var os := Run(id, limit, Some(e), interval, base, n).1;
    if os != [] {
      assert Continues(limit, Some(e), 0, TestTime(base, interval, 0));
    }
  }

  /** With no end time and a limit l >= 0, the process makes exactly
      min(n, l) orders in n tests and stops at the test after the l-th order. */
  lemma {:induction false} LimitReached(id: string, l: int, interval: int, base: real, n: nat)
    requires interval >= 0 && 0 <= l
    ensures |Run(id, Some(l), None, interval, base, n).1| == Min(n, l)
    ensures Run(id, Some(l), None, interval, base, n).0.phase.Sleeping? <==> n <= l
    ensures n > l ==> Run(id, Some(l), None, interval, base, n).0.phase == Stopped
  {
    RunShape(id, Some(l), None, interval, base, n);
    RunSchedule(id, Some(l), None, interval, base, n);
    if n > 0 {
      LimitReached(id, l, interval, base, n - 1);
    }
  }

  /** Orders from one source carry distinct ids. */
  lemma OrderIdsDistinct(id: string, limit: Option<int>, endTime: Option<int>, interval: int,
                         base: real, n: nat, i: nat, j: nat)
    requires interval >= 0
    requires i < j < |Run(id, limit, endTime, interval, base, n).1|
    ensures Run(id, limit, endTime, interval, base, n).1[i].id != Run(id, limit, endTime, interval, base, n).1[j].id
  {
    RunSchedule(id, limit, endTime, interval, base, n);
    IntToStringInjective(i, j);
    var si, sj := IntToString(i), IntToString(j);
    assert ("order_" + si)[6..] == si && ("order_" + sj)[6..] == sj;
  }
}
