# Plant-flow simulator, modelled in Dafny

This project models the core of a plant-flow simulator built on simpy. A
plant is a graph of nodes. Sources make parts (orders). Stations and
conveyors hold a part for a while in one of a limited number of slots and
pass it on. Routers pick one of several outputs. Drains absorb parts. The
repository has two generations, and both are modelled.

- **The newer `src/sim` package.**
  - `PlantBuilder` instantiates nodes from configurations into a name-to-node
    map, rejecting repeated names, unknown types, unexpected keywords and
    unusable capacities. It then wires producers to consumers with
    `set_output`, checking roles and target names.
  - The `Router` routes round robin, at random or to its first output.
  - The `Source` makes a part every `interval` up to an optional `limit`.
  - The `Station` and `Conveyor` hold a slot for a fixed time, release it and
    then forward.
- **The older `PlantsimBackend` package.**
  - `PlantBuilder.ParsePlantInfo` flattens a front-end flow into node records.
  - `PlantBuilder.Initialize` builds typed entities into the four global lists
    of the `config` module and resolves output ids to entities.
  - The `Source` generates named orders between a start time, a limit and an
    end time.
  - The `Station`, `Conveyor` and `Drain` count orders received and processed.
    They forward while still holding their slot.
  - `send_to_outputs` routes with a cursor that starts at -1. The three
    entities that send repeat it word for word, so it is one class here,
    `OutputPort`.

## How the model is organised

- **Entities as classes.** Each entity whose fields the source updates is a
  class:
  - its methods carry `modifies` clauses;
  - `Valid()` states the invariants the methods keep;
  - the constructor states the initial state.
- **Processes as state machines.** simpy's generator processes are state
  machines stepped one wait at a time:
  - `Start`/`Resume` for sources;
  - `Put`/`ProcessOrder`, `Grant`, `Release`/`Complete` and `Forward` for one
    part's activity.

  Each part's activity is a `Job` with a `Phase` (`slots.dfy`).
- **Slots.** simpy's `Resource` is abstracted to a slot counter `held` equal
  to the number of jobs holding a slot. A slot is granted only while
  `held < capacity`.
- **Pure specifications for loops.** Sequential logic with loops has a pure
  specification function, and the loop is proved against it:
  - the builders' passes;
  - output resolution;
  - `ParsePlantInfo`;
  - a source's run over many wake-ups.

  Lemmas state the properties of those functions.
- **Python values.** Values from JSON are the `Value` datatype. Python's
  `int()`, `str()` of an integer, truthiness and `for`-iteration are written
  out in `values.dfy`.
- **Old-generation outputs.** The outputs are `Component` references to the
  generic entity classes.
- **Randomness.** `random.choice` is any member of the outputs.

Some behaviours of the source, modelled as written:

- **Unset output target (newer Source and Conveyor).** `__init__` never
  assigns `output_target`, so an unwired one fails at its first forward.
- **Unset outputs local (older `Initialize`).** The drain branch does not
  reset the `outputs` local. A drain without an `outputs` parameter takes the
  value the previous node's branch left. If no earlier node set it, the drain
  fails with `UnboundLocalError`.
- **Builder defaults (older `Initialize`).** The defaults are `limit = 0` and
  `endTime = 0`. So a source built without them makes no orders
  (`BackendSource.OrdersBeforeEnd`, `BackendSource.OrdersWithinLimit`).
- **Default capacity (older `Initialize`).** The default capacity of 0 makes
  every station, drain and conveyor without a `capacity` fail.

## Model

| member | source | states |
|---|---|---|
| Values.Truncate | PlantsimBackend/Backend/Builder.py:72-80 | `int()` of a float truncates toward zero: the result is within one of the input, on the side of zero |
| Values.ParseIntRoundTrip | PlantsimBackend/entities/Source.py:40-45 | the decimal rendering of an integer parses back to that integer |
| Values.ParseIntIgnoresSpace | PlantsimBackend/Backend/Builder.py:72-80 | `int()` of a string ignores whitespace before and after the literal |
| Values.ParseIntGrouping | PlantsimBackend/Backend/Builder.py:72-80 | a single underscore between two runs of digits does not change the value `int()` gives |
| Values.ParseIntBadUnderscores | PlantsimBackend/Backend/Builder.py:72-80 | a leading, trailing or doubled underscore makes `int()` raise |
| Values.IntToStringInjective | PlantsimBackend/entities/Source.py:42 | distinct integers render as distinct strings |
| Values.Iterate | PlantsimBackend/Backend/Builder.py:155 | a `for` loop visits a list's items or a string's one-character strings, and raises on any other value |
| RoundRobinCursor.NextCursor | src/sim/entities/router.py:34 | the advanced cursor always indexes one of the k targets |
| RoundRobinCursor.CursorAfter | src/sim/entities/router.py:20-34 | the cursor after any number of deliveries indexes a target |
| RoundRobinCursor.NextCursorWraps | src/sim/entities/router.py:34 | advancing moves to the next index, and from the last back to 0 |
| RoundRobinCursor.CursorAfterFirstRound | src/sim/entities/router.py:20-34 | in the first round the i-th part goes to target i |
| RoundRobinCursor.CursorAfterPeriodic | src/sim/entities/router.py:31-34 | k more deliveries over k fixed targets bring the cursor back where it was |
| RoundRobinCursor.RoundRobinRounds | src/sim/entities/router.py:31-34 | the part numbered m*k + i goes to target i |
| RoundRobinCursor.RoundRobinNth | src/sim/entities/router.py:20-34 | with k fixed targets the n-th part (0-based) goes to target n mod k |
| SimRouter.LogicOf | src/sim/entities/router.py:31-42 | "round_robin" and only it selects round robin, "random" and only it selects random; every other value routes to the first output |
| SimRouter.Router.constructor | src/sim/entities/router.py:14-20 | a router starts with no targets and the cursor at 0 |
| SimRouter.Router.SetOutput | src/sim/entities/router.py:22-23 | targets are appended in order, and the cursor stays in range |
| SimRouter.Router.Put | src/sim/entities/router.py:25-42 | with no targets the part is dropped and nothing changes, the cursor included. Otherwise exactly one target gets the unchanged part. Round robin delivers to the target under the cursor and advances it modulo the number of targets. Random picks any target and keeps the cursor. Any other logic always picks the first target |
| SimSource.Source.constructor | src/sim/entities/source.py:12-22 | the counter starts at 0 and no target is set; with `start_immedietely` the process runs to its first wait at build time, otherwise it is not started |
| SimSource.Source.SetOutput | src/sim/entities/source.py:24-25 | the last target set replaces any earlier one |
| SimSource.Source.Start | src/sim/entities/source.py:27-29 | starting runs the loop test: stop at the limit, fail on a negative interval, or wait one interval |
| SimSource.Source.Resume | src/sim/entities/source.py:31-44 | after a wait the counter increments, and a part stamped with the wake-up time goes to the target. The process dies if no target was ever set. Then the loop test runs again; the counter never passes the limit |
| SimSource.RunSchedule | src/sim/entities/source.py:33-44 | after n wake-ups a source has made min(n, limit) parts and sleeps exactly while under its limit; the k-th part is made at t0 + k * interval |
| SimSource.NoLimitNeverStops | src/sim/entities/source.py:33 | without a limit the process is asleep after any number of wake-ups and has made one part per wake-up |
| SimSource.LimitReached | src/sim/entities/source.py:33-37 | with a limit l the process stops after exactly l parts |
| SimSource.NoPartAtStart | src/sim/entities/source.py:33-40 | started at 0 with a positive interval, every wake-up is at a positive time, so no part is made at time 0 |
| SimStation.Station.constructor | src/sim/entities/station.py:11-16 | no target, no jobs, no slot held; the capacity and processing time are the arguments |
| SimStation.Station.SetOutput | src/sim/entities/station.py:18-19 | the last target set replaces any earlier one |
| SimStation.Station.Put | src/sim/entities/station.py:21-23 | `put` only starts a new activity that requests a slot; nothing else changes |
| SimStation.Station.Grant | src/sim/entities/station.py:27-29 | a granted job holds a slot until `now + processing_time`; a negative time aborts it and frees the slot; held slots never exceed the capacity |
| SimStation.Station.Release | src/sim/entities/station.py:27-29 | at the end of the wait the slot is freed before anything is forwarded |
| SimStation.Station.Forward | src/sim/entities/station.py:31-32 | after the release the unchanged part goes to the target, or is dropped when there is none |
| SimConveyor.Conveyor.constructor | src/sim/entities/conveyor.py:11-15 | no target is assigned, no jobs, no slot held |
| SimConveyor.Conveyor.SetOutput | src/sim/entities/conveyor.py:17-18 | the last target set replaces any earlier one |
| SimConveyor.Conveyor.Put | src/sim/entities/conveyor.py:20-22 | `put` only starts a new transport activity that requests a slot |
| SimConveyor.Conveyor.Grant | src/sim/entities/conveyor.py:26-28 | a granted job holds a slot until `now + travel_time`; a negative time aborts it; held slots never exceed the capacity |
| SimConveyor.Conveyor.Release | src/sim/entities/conveyor.py:26-28 | at the end of the travel time the slot is freed before forwarding |
| SimConveyor.Conveyor.Forward | src/sim/entities/conveyor.py:30-31 | the unchanged part goes to the target; with no target ever set the activity fails instead |
| SimBuilder.KindOfTag | src/sim/builder.py:15-22 | the lookup fails exactly for tags outside the six class names |
| SimBuilder.Instantiate | src/sim/builder.py:68-69 | a built node has the class its tag selects and is unwired with a positive capacity. Store is never built, and only the class's own keywords are accepted |
| SimBuilder.SetOutputView | src/sim/builder.py:105 | `set_output` never changes a node's class |
| SimBuilder.FirstBad | src/sim/builder.py:91-103 | the first rejected target: every earlier target exists and is a consumer |
| SimBuilder.FirstBadShape | src/sim/builder.py:91-103 | which target is rejected depends only on the names and classes in the map |
| SimBuilder.AttachAllKind | src/sim/builder.py:91-105 | wiring any list of targets keeps the node's class |
| SimBuilder.AttachAllRouter | src/sim/entities/router.py:22-23 | a router wired with targets ts ends with all of them appended, in order |
| SimBuilder.AttachAllSingle | src/sim/builder.py:91-105 | any other producer ends with only the last target listed |
| SimBuilder.WireTargetsEffect | src/sim/builder.py:91-105 | the edges before the first rejected target are made and kept, and that target's error is raised |
| SimBuilder.WireOneShape | src/sim/builder.py:74-79 | a configuration without outputs is skipped; otherwise only the source node changes, and no name or class changes |
| SimBuilder.WireAllShape | src/sim/builder.py:73-105 | wiring keeps every name and class, and changes only nodes that list outputs |
| SimBuilder.WireAllSuccess | src/sim/builder.py:73-105 | when wiring succeeds, every node that lists outputs is a producer wired with exactly its targets, and each target is an existing consumer |
| SimBuilder.InstantiateAllKeeps | src/sim/builder.py:59-71 | instantiation never replaces a registered node, even when it fails, and adds only configured names |
| SimBuilder.InstantiateAllSuccess | src/sim/builder.py:59-71 | when instantiation succeeds, the names were distinct and new. Each name maps to what its class's constructor makes of its parameters |
| SimBuilder.DuplicateNameFails | src/sim/builder.py:65-66 | a name configured twice makes instantiation, and so the build, fail |
| SimBuilder.InstantiateAllPrefix | src/sim/builder.py:59-71 | once the first configurations register cleanly, the loop goes on from the map they left |
| SimBuilder.DuplicateNameError | src/sim/builder.py:65-71 | a configuration whose name is already registered stops the build with the duplicate-name error for that name, and the nodes registered before it stay in the map |
| SimBuilder.LimitOfReal | src/sim/entities/source.py:12-17 | a float `limit` is stored as the whole number within one above it |
| SimBuilder.LimitOfRealTest | src/sim/entities/source.py:33 | the integer counter is below a float limit exactly when it is below that whole number, so the loop stops at the same part |
| SimBuilder.AttachAllInitial | src/sim/builder.py:91-105 | wiring a freshly built node with ts leaves it wired exactly as ts says |
| SimBuilder.BuildAllSuccess | src/sim/builder.py:54-57 | a successful build has one node per configured name, of the tag's class. Each is wired with its listed targets, and every target is a consumer |
| SimBuilder.BuildNode | src/sim/builder.py:59-105 | one configuration's node after both passes has its class and its wiring |
| SimBuilder.PlantBuilder.constructor | src/sim/builder.py:34-36 | the builder starts with no components |
| SimBuilder.PlantBuilder.NewNode | src/sim/builder.py:68-69 | the constructed node is new and looks exactly like the specification's node |
| SimBuilder.PlantBuilder.InstantiateComponents | src/sim/builder.py:59-71 | the loop's error and final map are those of the instantiation specification |
| SimBuilder.PlantBuilder.Register | src/sim/builder.py:71 | registering adds one name and leaves every other node as it was |
| SimBuilder.PlantBuilder.Create | src/sim/builder.py:68-71 | constructing and registering a component adds exactly that name, mapped to the node the configuration describes, with only new objects in the footprint |
| SimBuilder.PlantBuilder.SetOutputOn | src/sim/builder.py:105 | `set_output` on one node changes that node's wiring only |
| SimBuilder.PlantBuilder.SetSourceOutput | src/sim/entities/source.py:24-25 | on a source the target is replaced; no other node changes |
| SimBuilder.PlantBuilder.SetConveyorOutput | src/sim/entities/conveyor.py:17-18 | on a conveyor the target is replaced; no other node changes |
| SimBuilder.PlantBuilder.SetStationOutput | src/sim/entities/station.py:18-19 | on a station the target is replaced; no other node changes |
| SimBuilder.PlantBuilder.SetRouterOutput | src/sim/entities/router.py:22-23 | on a router the target is appended; no other node changes |
| SimBuilder.PlantBuilder.WireComponents | src/sim/builder.py:73-105 | the nested loops' error and resulting wiring are those of the wiring specification; no node is added or removed |
| SimBuilder.PlantBuilder.BuildFromDict | src/sim/builder.py:54-57 | the two passes together give the error and map of the build specification, and the map is returned |
| BackendRouting.StrategyOf | PlantsimBackend/entities/Source.py:56-65 | "RoundRobin" and only it selects round robin, "Random" and only it selects random; anything else sends to the first output |
| BackendRouting.NextIndex | PlantsimBackend/entities/Source.py:58 | the pre-incremented cursor always indexes an output; from a cursor in range it is the round-robin step of the newer router |
| BackendRouting.OutputPort.constructor | PlantsimBackend/entities/Station.py:5-11 | no outputs, the given strategy, and no cursor attribute yet |
| BackendRouting.OutputPort.SetOutputs | PlantsimBackend/Backend/Builder.py:160 | assigning `outputs` replaces the list |
| BackendRouting.OutputPort.Send | PlantsimBackend/entities/Source.py:47-66 | no outputs raise IndexError and leave the cursor alone. Otherwise the cursor exists afterwards and exactly one output is chosen by the strategy (round robin at the pre-incremented cursor, random any member, else the first). That output receives the unchanged order, or the send fails if it has no `Process_Order` |
| BackendRouting.LastAfterCursor | PlantsimBackend/entities/Source.py:53-58 | the cursor starting at -1 runs one send ahead of a cursor starting at 0 |
| BackendRouting.SendNth | PlantsimBackend/entities/Station.py:36-42 | with k fixed outputs the n-th order sent (0-based) goes to output n mod k |
| BackendSource.Source.constructor | PlantsimBackend/entities/Source.py:4-14 | both counters start at 0, the outputs are empty and the arguments are stored |
| BackendSource.Source.Generate | PlantsimBackend/entities/Source.py:17-38 | with `startTime > 0` the process first waits until `startTime`; otherwise it runs the loop at once |
| BackendSource.Source.Resume | PlantsimBackend/entities/Source.py:21-38 | after a wait the process runs one pass of the loop at the wake-up time |
| BackendSource.Source.RunLoop | PlantsimBackend/entities/Source.py:21-38 | one pass stops at the limit or the end time. Otherwise it makes "order_<count>" from the count before the increment, counts it and sends it, then waits one interval. A failed send kills the process |
| BackendSource.RunShape | PlantsimBackend/entities/Source.py:21-38 | after n loop tests the counter equals the number of orders. While asleep the next test is due at base + n * interval; otherwise the process stopped at a `break` |
| BackendSource.RunSchedule | PlantsimBackend/entities/Source.py:21-45 | the k-th order (0-based) is "order_k", made at base + k * interval, and passed both `break` tests |
| BackendSource.OrdersWithinLimit | PlantsimBackend/entities/Source.py:22-23 | at most `limit` orders are made, none when the limit is 0 or less |
| BackendSource.OrdersBeforeEnd | PlantsimBackend/entities/Source.py:26-27 | every order is made before the end time; none when the end time is not after the first test |
| BackendSource.LimitReached | PlantsimBackend/entities/Source.py:21-38 | with a limit l and no end time, n tests make min(n, l) orders, and the process stops at the test after the l-th |
| BackendSource.OrderIdsDistinct | PlantsimBackend/entities/Source.py:40-45 | the orders of one source have distinct ids |
| BackendStation.Station.constructor | PlantsimBackend/entities/Station.py:5-14 | both counters start at 0 and the resource has `capacity` slots |
| BackendStation.Station.ProcessOrder | PlantsimBackend/entities/Station.py:16-21 | an arriving order is counted as received before any slot is granted |
| BackendStation.Station.Grant | PlantsimBackend/entities/Station.py:21-25 | a granted order holds a slot for `processingTime`; held slots never exceed the capacity |
| BackendStation.Station.Complete | PlantsimBackend/entities/Station.py:25-30 | after the wait the order is counted as processed and sent while the slot is still held; a failed send frees the slot |
| BackendStation.Station.Release | PlantsimBackend/entities/Station.py:17-30 | after sending, leaving the `with` block frees the slot |
| BackendStation.ProcessedWithinReceived | PlantsimBackend/entities/Station.py:13-29 | no more orders are processed than received |
| BackendConveyor.TransitTimeAsWritten | PlantsimBackend/entities/Conveyor.py:14 | with a positive speed, the true quotient lies between length / speed and one more than that |
| BackendConveyor.TransitTime | PlantsimBackend/entities/Conveyor.py:14 | the transit time is the least whole number of time units that covers the length at the speed |
| BackendConveyor.TransitTimeAsWrittenIsFractional | PlantsimBackend/entities/Conveyor.py:14 | for length 2 and speed 4 the written formula gives 1.25, not the whole number 1 |
| BackendConveyor.TransitTimeAgreement | PlantsimBackend/entities/Conveyor.py:14 | the written formula agrees with the whole-number transit time exactly when the speed divides length + speed - 1 |
| BackendConveyor.Conveyor.constructor | PlantsimBackend/entities/Conveyor.py:5-16 | both counters start at 0, the resource has `capacity` slots, and the processing time is the true quotient (length + speed - 1) / speed, fractional in general |
| BackendConveyor.Conveyor.ProcessOrder | PlantsimBackend/entities/Conveyor.py:17-21 | an arriving order is counted as received before any slot is granted |
| BackendConveyor.Conveyor.Grant | PlantsimBackend/entities/Conveyor.py:21-25 | a granted order holds a slot for the fractional transit time `__init__` computed; held slots never exceed the capacity |
| BackendConveyor.Conveyor.Complete | PlantsimBackend/entities/Conveyor.py:25-30 | after the wait the order is counted as processed and sent while the slot is still held |
| BackendConveyor.Conveyor.Release | PlantsimBackend/entities/Conveyor.py:18-30 | after sending, leaving the `with` block frees the slot |
| BackendConveyor.ProcessedWithinReceived | PlantsimBackend/entities/Conveyor.py:13-29 | no more orders are processed than received |
| BackendDrain.Drain.constructor | PlantsimBackend/entities/Drain.py:5-12 | both counters start at 0 and the resource has `capacity` slots |
| BackendDrain.Drain.SetOutputs | PlantsimBackend/Backend/Builder.py:125 | the builder may assign outputs; no method of the drain reads them |
| BackendDrain.Drain.ProcessOrder | PlantsimBackend/entities/Drain.py:14-17 | an arriving order is counted as received before any slot is granted |
| BackendDrain.Drain.Grant | PlantsimBackend/entities/Drain.py:18-22 | a granted order holds a slot for `processingTime` |
| BackendDrain.Drain.Complete | PlantsimBackend/entities/Drain.py:22-26 | after the wait the order is counted as processed, the slot is freed and nothing is forwarded |
| BackendDrain.ProcessedWithinReceived | PlantsimBackend/entities/Drain.py:11-26 | no more orders are processed than received |
| BackendFlow.Parameters | PlantsimBackend/Backend/Builder.py:30-36 | a node's parameters are all `data` entries except `label` and `color`, with their values |
| BackendFlow.ParseNodesAppend | PlantsimBackend/Backend/Builder.py:18-50 | parsing a concatenation is parsing each part, concatenated |
| BackendFlow.ParseNodesSplit | PlantsimBackend/Backend/Builder.py:18-50 | a non-edge component's record comes after the records of the components before it and before those after it |
| BackendFlow.ParseNodesAreNodes | PlantsimBackend/Backend/Builder.py:18-38 | no record is an edge, and every record is some non-edge component's |
| BackendFlow.ParseNodesWithoutEdges | PlantsimBackend/Backend/Builder.py:19-38 | a flow without edges keeps one record per component, in order, with missing id or type as "" |
| BackendFlow.ParseNodesOnlyEdges | PlantsimBackend/Backend/Builder.py:39-52 | edges are dropped: a flow of edges only keeps nothing |
| BackendFlow.ExtractParameters | PlantsimBackend/Backend/Builder.py:30-36 | the loop over `data` builds exactly the parameters |
| BackendFlow.ParseComponents | PlantsimBackend/Backend/Builder.py:18-50 | the loop over the components builds exactly the node records of the specification |
| BackendBuilder.IntParam | PlantsimBackend/Backend/Builder.py:66-80 | an absent numeric parameter is 0 |
| BackendBuilder.SourceBlueprint | PlantsimBackend/Backend/Builder.py:64-86 | a source gets its four integers and strategy, and a limit and end time always set; only a bad integer fails |
| BackendBuilder.StationBlueprint | PlantsimBackend/Backend/Builder.py:90-106 | a station gets its integers and strategy, and fails on a bad integer or a capacity below 1 |
| BackendBuilder.DrainBlueprint | PlantsimBackend/Backend/Builder.py:110-125 | a drain fails on a bad integer or a capacity below 1. Otherwise its raw outputs are its own parameter or the value the outputs local holds, and it fails if that is unbound |
| BackendBuilder.ConveyorBlueprint | PlantsimBackend/Backend/Builder.py:129-148 | a conveyor fails on a bad integer, then a capacity below 1, then a zero speed |
| BackendBuilder.Blueprint | PlantsimBackend/Backend/Builder.py:63-150 | each node is built by its type's branch, with its own id. Every type other than source, station or drain gives a conveyor, and the arguments are ones the constructors accept |
| BackendBuilder.PlansShape | PlantsimBackend/Backend/Builder.py:63-150 | the first loop builds every node from its own parameters and the outputs local its predecessors left, or stops at the first node whose branch raises, with that exception |
| BackendBuilder.PlansErr | PlantsimBackend/Backend/Builder.py:63-150 | a failure among the first nodes is the failure of the whole loop |
| BackendBuilder.LeakAfterNone | PlantsimBackend/Backend/Builder.py:110-125 | the outputs local is unbound exactly while every node so far was a drain without its own outputs |
| BackendBuilder.LeakAfterLastSetter | PlantsimBackend/Backend/Builder.py:110-125 | otherwise it holds the value of the last node that set it |
| BackendBuilder.DefaultCapacityFails | PlantsimBackend/Backend/Builder.py:90-147 | a station, drain or conveyor without a capacity fails at the resource |
| BackendBuilder.DefaultSpeedFails | PlantsimBackend/Backend/Builder.py:129-147 | a conveyor with a good capacity and no speed divides by zero |
| BackendBuilder.DictKeys | PlantsimBackend/Backend/Builder.py:58-150 | every built entity's id is filed, and every filed id names an entity built with it |
| BackendBuilder.DictLastWins | PlantsimBackend/Backend/Builder.py:58-150 | an id names the last entity built with it |
| BackendBuilder.ResolveItemsFails | PlantsimBackend/Backend/Builder.py:155-157 | resolution fails exactly when some output id is a list |
| BackendBuilder.ResolveItemsFiled | PlantsimBackend/Backend/Builder.py:152-160 | every resolved output is a filed entity, and there are no more of them than ids |
| BackendBuilder.ResolveItemsAllKnown | PlantsimBackend/Backend/Builder.py:152-160 | when every id is known, the outputs are the entities the ids name, one for one and in order |
| BackendBuilder.ResolveItemsNoneKnown | PlantsimBackend/Backend/Builder.py:152-160 | unknown ids are skipped |
| BackendBuilder.ResolveItemsAppend | PlantsimBackend/Backend/Builder.py:152-160 | resolution goes id by id: resolving a concatenation concatenates the results |
| BackendBuilder.ResolveOutputs | PlantsimBackend/Backend/Builder.py:154-160 | the loop over one entity's outputs computes exactly the resolution specification |
| BackendBuilder.ListsPartition | PlantsimBackend/Backend/Builder.py:59-150 | every built entity lands in exactly one of the four lists |
| BackendBuilder.Construct | PlantsimBackend/Backend/Builder.py:85-147 | the constructor called has exactly the planned arguments and a new outputs holder with no outputs |
| BackendBuilder.File | PlantsimBackend/Backend/Builder.py:87 | appending to the list of the entity's type keeps each list equal to the built entities of its type |
| BackendBuilder.Add | PlantsimBackend/Backend/Builder.py:85-88 | one node's entity is built, appended to its list and filed under its id |
| BackendBuilder.BuildAll | PlantsimBackend/Backend/Builder.py:58-150 | the lists are emptied first. Then the first loop either builds every node as planned or fails with the first node's exception. Each list holds the entities of its type in node order. On failure, the entities of every node before the failing one stay built and filed, each as its node says |
| BackendBuilder.ResolvePass | PlantsimBackend/Backend/Builder.py:152-160 | one list's entities, in order, get their resolved outputs, stopping at the first that raises; entities of other lists keep theirs |
| BackendBuilder.SetOutputsOn | PlantsimBackend/Backend/Builder.py:160 | assigning one entity's outputs changes no other entity's |
| BackendBuilder.ResolveAll | PlantsimBackend/Backend/Builder.py:152-189 | the four resolution loops succeed exactly when every entity's raw outputs resolve, and then every entity has its resolved outputs |
| BackendBuilder.PlantConfig.constructor | PlantsimBackend/Backend/Builder.py:59-62 | the four global lists start empty |
| BackendBuilder.PlantBuilder.constructor | PlantsimBackend/Backend/Builder.py:8-9 | the builder starts with no node records |
| BackendBuilder.PlantBuilder.ParsePlantInfo | PlantsimBackend/Backend/Builder.py:11-54 | the kept and returned records are exactly the node records of the flow's components, none when "components" is absent |
| BackendBuilder.PlantBuilder.Initialize | PlantsimBackend/Backend/Builder.py:56-189 | the lists hold the built entities by type, in node order. A failing branch fails the call with that node's exception, and the entities of the nodes before it stay in the lists, each built as its node says. Otherwise every node is built as planned, and the call succeeds exactly when every raw outputs value resolves, giving every entity its resolved outputs |

## Left out

- simpy itself:
  - The event queue, the clock and `env.run(until=...)` are not modelled;
    processes are state machines whose steps the caller takes.
  - A `Resource` grants a slot only while one is free, which is a
    precondition of `Grant`. Its FIFO order of grants is not modelled.
  - That `Resource` refuses a capacity below 1 and `timeout` a negative delay
    are taken as facts about simpy.
- Floating-point time: times are exact reals, and the older entities' integer
  parameters are exact integers.
- `random.choice`: any member of the outputs; the distribution is not
  modelled.
- `uuid4` part ids: the newer Source takes a fresh id as a parameter.
- I/O is not modelled:
  - reading JSON files in `build_from_json`;
  - `print` warnings for unknown output ids;
  - `PrintStatistics`.
- `src/sim/entities/store.py`: a pass-through to simpy's Store, except that
  it leaves `set_output` abstract, so building one fails.
- `src/sim/entities/drain.py`: `put` calls a method no class defines. It is a
  `DrainView` with no behaviour.
- Not part of this model:
  - `src/sim/simulation.py`;
  - `PlantsimBackend/main.py`;
  - `PlantsimBackend/Simulations/Simulator.py`.
- `PlantsimBackend.config` is not shown; it is the `PlantConfig` object
  holding the four lists, and its `env` is not modelled.
- One generation process per Source at a time: `Start` and `Generate` require
  that the previous process is not waiting.
- Component ids and types in the older builder are strings. Python would
  also accept other JSON values there.
- SimBuilder.ComponentConfig: `name` and `tag` are strings, `params` is a
  map and `outputs` is one name or a list of names. Python takes any JSON
  value in these places (src/sim/builder.py:61-63, 69, 87-91). The failures
  other values cause there are not modelled: a missing "name" or "type"
  raises KeyError, a list-valued type raises TypeError at the
  `COMPONENT_MAP` lookup, a null `params` raises TypeError at `**params`,
  a null or numeric `outputs` raises TypeError at the `for`, and a
  non-string entry in `outputs` raises the unknown-target ValueError.
- SimBuilder.Instantiate: rejects a time or limit value that is not a
  number (a string, say) as `BadParameter`. Python would store it and fail
  only when the simulation runs. A capacity that is not a number fails at
  build in Python too: the station's and the conveyor's `__init__` make a
  simpy `Resource`, whose `capacity <= 0` test raises TypeError inside
  `cls(...)` (src/sim/builder.py:69). The model reports that TypeError as
  `BadParameter`, like a ValueError. It also rejects a float capacity,
  which simpy would take. A float limit is accepted and stored as the
  whole number it acts as (`SimBuilder.LimitOfReal`).
- JSON objects: `Value` has no case for a dict, so a parameter or
  `outputs` value that is an object is not modelled. Python's output loop
  (PlantsimBackend/Backend/Builder.py:155) would iterate its keys, and
  `int()` of it raises TypeError.
- Values.ParseInt: strips only the ASCII whitespace characters and reads
  only ASCII digits. Python's `int()` also strips other Unicode whitespace
  and reads other Unicode decimal digits.
- BackendBuilder.Blueprint: a node with several malformed numeric parameters
  fails with `BadInt` for the node. Which key Python's dictionary order makes
  it fail on is not recorded.
- BackendBuilder.PlantBuilder.Initialize: when resolution fails, it states
  only that some entity's outputs do not resolve. `ResolvePass` states that
  the first failing entity of each list is the one reported.
- Raw outputs before resolution are not modelled. Between the two phases,
  Python keeps each entity's raw `outputs` value on the entity itself. Here
  the raw values sit in a list beside the entities, and entities whose
  resolution never ran keep empty outputs.
- `Initialize` returns the built entities; Python returns nothing and
  exposes them through the global lists.

## Findings

| source | as written | input that shows it | evidently intended | confidence | as-written member | corrected member |
|---|---|---|---|---|---|---|
| PlantsimBackend/entities/Conveyor.py:14 | `(length + (speed - 1)) / speed` uses Python 3 true division, so the transit time is fractional whenever the speed does not divide length + speed - 1 | length 2, speed 4 gives 1.25 time units | the ceiling-division idiom with floor division `//`: the whole number of time units that covers the length, 1 here | not executed | BackendConveyor.TransitTimeAsWrittenIsFractional | BackendConveyor.TransitTime |

The older Conveyor class runs the formula as written
(`BackendConveyor.TransitTimeAsWritten`), as the program does.
`BackendConveyor.TransitTime` is the corrected definition, and
`BackendConveyor.TransitTimeAgreement` says when the two coincide.
