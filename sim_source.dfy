/** The newer simulator's Source (src/sim/entities/source.py). Its `run`
    generator is a process that simpy resumes after every timeout; here it is a
    state machine: `Start` runs the process up to its first wait, and each
    `Resume` runs one loop iteration, from the end of a wait to the next one. */
module SimSource {
  import opened Values
  import opened Parts

  /** Why a generation process died: simpy refuses a negative timeout
      (ValueError), or `output_target` was read before any `set_output`
      (AttributeError, since `__init__` never assigns it). */
  datatype SourceError = NegativeDelay | OutputTargetUnset

  datatype GenPhase =
    | NotStarted
    | Sleeping(wakeAt: real)   // waiting in `yield env.timeout(interval)`
    | Stopped                  // the `while` test failed
    | Crashed(error: SourceError)

  /** The constructor's defaults. */
  const DefaultInterval: real := 1.0
  const DefaultStartImmediately: bool := true

  /** The `while` test of `run`. */
  predicate MayCreate(limit: Option<int>, created: int) {
    limit.None? || created < limit.value
  }

  /** From the loop test at time `now` to the next suspension: the loop ends,
      or the process waits one interval. */
  function LoopTest(interval: real, limit: Option<int>, created: int, now: real): GenPhase {
    if !MayCreate(limit, created) then Stopped
    else if interval < 0.0 then Crashed(NegativeDelay)
    else Sleeping(now + interval)
  }

  /** The process state a Source keeps: `parts_created` and the process phase. */
  datatype Gen = Gen(created: int, phase: GenPhase)

  /** One wake-up at the end of a wait: the counter increments, a part stamped
      with the wake-up time is made and delivered (the process dies here if no
      target was ever set), and the loop test runs again. */
  function Wake(interval: real, limit: Option<int>, wired: bool, g: Gen): Gen
    requires g.phase.Sleeping?
  {
    var created := g.created + 1;
    if !wired then Gen(created, Crashed(OutputTargetUnset))
    else Gen(created, LoopTest(interval, limit, created, g.phase.wakeAt))
  }

  class Source {
    const name: NodeId
    const interval: real
    const limit: Option<int>
    var partsCreated: int
    /** None while `output_target` was never assigned. */
    var outputTarget: Option<NodeId>
    var phase: GenPhase

    function State(): Gen
      reads this
    {
      Gen(partsCreated, phase)
    }

    /** A sleeping process passed the loop test, and the counter never
        passes the limit. */
    ghost predicate Valid()
      reads this
    {
      && 0 <= partsCreated
      && (phase.Sleeping? ==> MayCreate(limit, partsCreated) && interval >= 0.0)
      && (limit.Some? ==> partsCreated <= Max(limit.value, 0))
    }

    /** `__init__`: with `startImmediately` the process starts at once (at the
        build time `now`); otherwise nothing happens until `Start`. */
    constructor (name: NodeId, interval: real, limit: Option<int>, startImmediately: bool, now: real)
      ensures Valid()
      ensures this.name == name && this.interval == interval && this.limit == limit
      ensures partsCreated == 0 && outputTarget == None
      ensures phase == if startImmediately then LoopTest(interval, limit, 0, now) else NotStarted
    {
      this.name := name;
      this.interval := interval;
      this.limit := limit;
      partsCreated := 0;
      outputTarget := None;
      phase := NotStarted;
      new;
      if startImmediately {
        Start(now);
      }
    }

    /** `set_output` replaces the target: the last one set wins. */
    method SetOutput(target: NodeId)
      requires Valid()
      modifies this`outputTarget
      ensures Valid()
      ensures outputTarget == Some(target)
    {
      outputTarget := Some(target);
    }

    /** `start` at time `now`: the process runs up to its first wait. */
    method Start(now: real)
      requires Valid() && !phase.Sleeping?
      modifies this`phase
      ensures Valid()
      ensures phase == LoopTest(interval, limit, partsCreated, now)
    {
      phase := LoopTest(interval, limit, partsCreated, now);
    }

    /** One loop iteration after a wait: the part made (with the fresh id
        `id`) is delivered, at the wake-up time, after the counter moved. */
    method Resume(id: PartId) returns (d: Option<Delivery>)
      requires Valid() && phase.Sleeping?
      modifies this`partsCreated, this`phase
      ensures Valid()
      ensures State() == Wake(interval, limit, outputTarget.Some?, old(State()))
      ensures d == if outputTarget.Some?
                   then Some(Delivery(outputTarget.value, Part(id, old(phase).wakeAt)))
                   else None
    {
      var now := phase.wakeAt;
      partsCreated := partsCreated + 1;
      var part := Part(id, now);
      if outputTarget.None? {
        phase := Crashed(OutputTargetUnset);
        return None;
      }
      d := Some(Delivery(outputTarget.value, part));
      phase := LoopTest(interval, limit, partsCreated, now);
    }
  }

  /** The state of a wired source's process started at t0 and woken n times
      (wake-ups after it stopped change nothing). */
  function Run(interval: real, limit: Option<int>, t0: real, n: nat): Gen {
    if n == 0 then Gen(0, LoopTest(interval, limit, 0, t0))
    else
      var g := Run(interval, limit, t0, n - 1);
      if g.phase.Sleeping? then Wake(interval, limit, true, g) else g
  }

  /** The number of parts n wake-ups produce. */
  function Expected(limit: Option<int>, n: nat): int {
    if limit.None? then n else Min(n, Max(limit.value, 0))
  }

  /** The emission schedule of `run` with a non-negative interval: after n
      wake-ups the source has made min(n, limit) parts; it is asleep exactly
      while it is under its limit, and then wakes at t0 + (created + 1) *
      interval, so the k-th part (1-based) is stamped t0 + k * interval. */
  lemma {:induction false} RunSchedule(interval: real, limit: Option<int>, t0: real, n: nat)
    requires interval >= 0.0
    ensures Run(interval, limit, t0, n).created == Expected(limit, n)
    ensures Run(interval, limit, t0, n).phase.Sleeping? <==> MayCreate(limit, Expected(limit, n))
    ensures !Run(interval, limit, t0, n).phase.Sleeping? ==> Run(interval, limit, t0, n).phase == Stopped
    ensures Run(interval, limit, t0, n).phase.Sleeping? ==>
              Run(interval, limit, t0, n).phase.wakeAt == t0 + (Expected(limit, n) + 1) as real * interval
  {
    if n > 0 {
      RunSchedule(interval, limit, t0, n - 1);
      var g := Run(interval, limit, t0, n - 1);
      if g.phase.Sleeping? {
        var c := g.created;
        assert t0 + (c + 1) as real * interval + interval == t0 + (c + 2) as real * interval;
      }
    }
  }

  /** Without a limit the process never finishes: it is asleep after every
      number of wake-ups. */
  lemma NoLimitNeverStops(interval: real, t0: real, n: nat)
    requires interval >= 0.0
    ensures Run(interval, None, t0, n).phase.Sleeping?
    ensures Run(interval, None, t0, n).created == n
  {
    RunSchedule(interval, None, t0, n);
  }

  /** With a limit l >= 0 the process stops after exactly l parts. */
  lemma LimitReached(interval: real, l: int, t0: real, n: nat)
    requires interval >= 0.0 && 0 <= l <= n
    ensures Run(interval, Some(l), t0, n).phase == Stopped
    ensures Run(interval, Some(l), t0, n).created == l
  {
    RunSchedule(interval, Some(l), t0, n);
  }

  /** Started at time 0 with a positive interval, no part is made at time 0:
      the k-th wake-up (1-based) is at k * interval > 0. */
  lemma NoPartAtStart(interval: real, limit: Option<int>, n: nat)
    requires interval > 0.0
    requires Run(interval, limit, 0.0, n).phase.Sleeping?
    ensures Run(interval, limit, 0.0, n).phase.wakeAt == (n + 1) as real * interval > 0.0
  {
    RunSchedule(interval, limit, 0.0, n);
    var c := Expected(limit, n);
    assert c == n;
  }
}
