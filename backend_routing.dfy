/** The older simulator's orders and its `send_to_outputs` routing, which
    PlantsimBackend/entities/Source.py, Station.py and Conveyor.py each repeat
    word for word. Here it is one class, OutputPort, that each of those
    entities holds: the `outputs` list, the `strategy` string and the lazily
    created `last_output_index` cursor. */
module BackendRouting {
  import opened Values
  import opened RoundRobinCursor

  /** The order record `Create_MU` builds: "id", "created_at", "source". */
  datatype Order = Order(id: string, createdAt: real, source: string)

  /** The `strategy` value as a closed variant: "RoundRobin", "Random", and
      every other value, which sends to the first output. */
  datatype Strategy = RoundRobin | RandomPick | FirstOutput

  function StrategyOf(v: Value): (s: Strategy)
    ensures s == RoundRobin <==> v == Str("RoundRobin")
    ensures s == RandomPick <==> v == Str("Random")
  {
    if v == Str("RoundRobin") then RoundRobin
    else if v == Str("Random") then RandomPick
    else FirstOutput
  }

  /** `self.env.process(output.Process_Order(order))`: the order handed to
      one output. */
  datatype Delivery<T> = Delivery(target: T, order: Order)

  datatype SendError<T> =
    | NoOutputConnections     // IndexError("No output connections")
    | NoProcessOrder(target: T) // the chosen output has no Process_Order (AttributeError)

  /** The output a send chose, when it got as far as choosing one. */
  predicate Chose<T>(r: Result<Delivery<T>, SendError<T>>) {
    r.Ok? || r.error.NoProcessOrder?
  }

  function Chosen<T>(r: Result<Delivery<T>, SendError<T>>): T
    requires Chose(r)
  {
    if r.Ok? then r.value.target else r.error.target
  }

  /** The cursor's value as read by a send: -1 when the attribute does not
      exist yet. */
  function LastIndex(cursor: Option<int>): int {
    if cursor.Some? then cursor.value else -1
  }

  /** The round-robin step `(last_output_index + 1) % len(outputs)`; Python's
      `%` by a positive number is never negative, like Dafny's. From a cursor
      in range it is the shared round-robin step `NextCursor`; the only
      other value the cursor takes is the initial -1, which steps to 0. */
  function NextIndex(last: int, k: nat): (i: nat)
    requires k > 0
    ensures i < k
    ensures i == (last + 1) % k
  {
    if last >= 0 then NextCursor(last, k) else (last + 1) % k
  }

  /** What one call of `send_to_outputs(order)` does, given the outputs, the
      cursor before and after, and whether an output accepts orders:
      no outputs raise IndexError and leave the cursor alone; otherwise the
      cursor attribute exists afterwards, exactly one output is chosen by the
      strategy and, if it accepts orders, receives the unchanged order. */
  predicate SentBy<T(==)>(s: Strategy, outputs: seq<T>, before: Option<int>, after: Option<int>,
                          order: Order, accepts: T -> bool, r: Result<Delivery<T>, SendError<T>>)
  {
    if outputs == [] then r == Err(NoOutputConnections) && after == before
    else
      && Chose(r)
      && Chosen(r) in outputs
      && (r.Ok? <==> accepts(Chosen(r)))
      && (r.Ok? ==> r.value.order == order)
      && match s
         case RoundRobin =>
           var i := NextIndex(LastIndex(before), |outputs|);
           after == Some(i) && Chosen(r) == outputs[i]
         case RandomPick =>
           after == Some(LastIndex(before))
         case FirstOutput =>
           after == Some(LastIndex(before)) && Chosen(r) == outputs[0]
  }

  class OutputPort<T(==)> {
    const strategy: Strategy
    var outputs: seq<T>
    /** `last_output_index`: None until the first send creates it. */
    var lastOutputIndex: Option<int>

    constructor (strategy: Strategy)
      ensures this.strategy == strategy && outputs == [] && lastOutputIndex == None
    {
      this.strategy := strategy;
      outputs := [];
      lastOutputIndex := None;
    }

    /** `x.outputs = targets`. */
    method SetOutputs(targets: seq<T>)
      modifies this`outputs
      ensures outputs == targets
    {
      outputs := targets;
    }

    /** `send_to_outputs(order)`. The random choice is any member of the
        outputs; `accepts` says which outputs define Process_Order. */
    method Send(order: Order, accepts: T -> bool) returns (r: Result<Delivery<T>, SendError<T>>)
      modifies this`lastOutputIndex
      ensures SentBy(strategy, outputs, old(lastOutputIndex), lastOutputIndex, order, accepts, r)
    {
      if outputs == [] {
        return Err(NoOutputConnections);
      }
      if lastOutputIndex.None? {
        lastOutputIndex := Some(-1);
      }
      var target: T;
      match strategy {
        case RoundRobin =>
          var i := NextIndex(lastOutputIndex.value, |outputs|);
          lastOutputIndex := Some(i);
          target := outputs[i];
        case RandomPick =>
          var i :| 0 <= i < |outputs|;
          target := outputs[i];
        case FirstOutput =>
          target := outputs[0];
      }
      if accepts(target) {
        r := Ok(Delivery(target, order));
      } else {
        r := Err(NoProcessOrder(target));
      }
    }
  }

  /** The cursor after n round-robin sends over k fixed outputs, from the
      missing attribute (read as -1). */
  function LastAfter(k: nat, n: nat): int
    requires k > 0
  {
    if n == 0 then -1 else NextIndex(LastAfter(k, n - 1), k)
  }

  /** Starting one step before 0, the old cursor runs one send ahead of the
      newer Router's. */
  lemma {:induction false} LastAfterCursor(k: nat, n: nat)
    requires k > 0
    ensures LastAfter(k, n + 1) == CursorAfter(k, n)
  {
    if n > 0 {
      LastAfterCursor(k, n - 1);
    }
  }

  /** Round robin over k fixed outputs: the n-th order sent (0-based) goes to
      `outputs[n mod k]`. */
  lemma SendNth(k: nat, n: nat)
    requires k > 0
    ensures NextIndex(LastAfter(k, n), k) == n % k
  {
    LastAfterCursor(k, n);
    RoundRobinNth(k, n);
  }
}
