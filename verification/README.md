# Robotics-flavoured JavaScript fundamentals, modelled in Dafny

The repository is a series of standalone teaching scripts. Each one prints annotated
demonstrations of one part of the language, using robot-control examples. Under the
printing, every script carries a small piece of sequential logic. This project models
that logic and proves what the scripts claim about it:

- **Value versus reference** (`javascript/module2/data_types_and_constants.js`, and the
  `push` half of `javascript/module6/data_collections.js`), in module `Bindings`. A store
  maps names to values and holds a heap of records and arrays. A primitive is held by value.
  An object or array is held through a handle, which is an index into the heap.
  `let b = a` copies the value a binding holds, so a copied primitive is independent of
  its source. A copied object handle aliases the same heap cell, so a later field write
  or `push` through either name is seen through both.
- **Array loops** (`javascript/module6/data_collections.js`), in module `DataCollections`:
  the proximity classification loop and the ADC accumulator.
- **Decisions** (`javascript/module4/condiotionals.js`), in module `Conditionals`: the stop
  check, the battery check, the temperature bands with their power limits, the safety gate
  with its failure reasons, the grasp mode and the mode switch with its fail-safe default.
- **Loops** (`javascript/module4/loops.js`), in module `Loops`: the capped approach loop,
  calibration sampling, occupancy-grid row rendering and packets sent with bounded retries.
- **Sentinel scans** (`javascript/module4/sentinel_controlled_iteration.js`), in module
  `SentinelIteration`.
- **Counter loops** (`javascript/module4/counter_controlled_iteration.js`), in module
  `CounterIteration`.

Every input a script binds with `let` or `const` (a distance, a threshold, a flag, a
count, an array) is a parameter here. The literals inside the logic are named constants
of the model: the 8 cm approach step, the simulated reading 500 + 3k, the temperature
bands 60/75/85 and the power limits 100/70/40/0. A `...Scenario` method per script
replays it with the script's own inputs and states the values it prints.
Modules `Results` (the error type) and `SeqUtil` (sum, the count 1..n) are shared helpers.

Some cases the scripts never reach are decided as follows:
- Assigning to a name that was never declared fails with `UnboundName`. This is a
  `ReferenceError` in strict code.
- A `push` on a primitive fails with `NotAnObject`, and a `push` on a record fails with
  `WrongKind`. JavaScript throws a `TypeError` for both, because neither has a `push` method.
- Named fields exist only on records in the model. A named-field read or write on an
  array fails with `WrongKind`, and on a primitive with `NotAnObject`. JavaScript behaves
  differently here; see `Bindings.GetField` and `Bindings.SetField` under "Left out".
- A failed operation returns no store, so it cannot have changed anything.

## Model

| member | source | states |
|---|---|---|
| `Bindings.Declare` | javascript/module2/data_types_and_constants.js:149-151 | a declared binding reads back exactly the given value; every other name and the whole heap are unchanged; the store stays well formed |
| `Bindings.DeclareUnassigned` | javascript/module2/data_types_and_constants.js:144-146 | `var x;` on a fresh name makes it read as undefined; on a name already bound it keeps the value it holds; nothing else changes |
| `Bindings.Assign` | javascript/module2/data_types_and_constants.js:154-155 | reassignment changes only that name and never the heap; an undeclared name is an UnboundName error |
| `Bindings.KindOf` | javascript/module2/data_types_and_constants.js:131-137 | the dynamic type is a property of the value: object exactly for handles, number exactly for numbers, boolean exactly for booleans |
| `Bindings.RetypingScenario` | javascript/module2/data_types_and_constants.js:145-156 | `var x;` reads undefined; `y` holds a number and, after `y = true`, a boolean |
| `Bindings.CopyBinding` | javascript/module2/data_types_and_constants.js:198-199 | `let dst = src` makes dst read what src held and the two strictly equal; other names and the heap are unchanged; an undeclared src is an UnboundName error |
| `Bindings.StrictEquals` | javascript/module2/data_types_and_constants.js:215 | objects compare by handle identity, primitives by value, and a primitive never equals an object |
| `Bindings.Alloc` | javascript/module2/data_types_and_constants.js:212 | an object literal gets a fresh handle that no existing binding is strictly equal to; bindings are unchanged |
| `Bindings.GetField` | javascript/module2/data_types_and_constants.js:219-220 | reading a record field yields its value or undefined if missing; on an array it is WrongKind, on a primitive NotAnObject |
| `Bindings.SetField` | javascript/module2/data_types_and_constants.js:217 | a field write replaces that field in the designated heap cell only; bindings and all other cells are unchanged; errors as for GetField |
| `Bindings.Push` | javascript/module6/data_collections.js:118-119 | push with one or more arguments appends them, in order, to the designated array in place and returns the new length, the old length plus the number of arguments; earlier elements, bindings and other cells are unchanged; push on a record is WrongKind, on a primitive NotAnObject |
| `Bindings.CopyThenRebindKeepsCopy` | javascript/module2/data_types_and_constants.js:198-204 | after `let b = a; a = later;`, b still holds a's earlier value, a holds `later`, and the heap is untouched |
| `Bindings.FieldWriteNeverReachesPrimitive` | javascript/module2/data_types_and_constants.js:179-185 | no field write, through any target, changes what a name holding a primitive shows |
| `Bindings.PushNeverReachesPrimitive` | javascript/module6/data_collections.js:182-189 | no push, through any target, changes what a name holding a primitive shows |
| `Bindings.FieldWriteVisibleThroughAlias` | javascript/module2/data_types_and_constants.js:209-220 | a field write through one alias succeeds and is seen, with the new value, through every other alias of the same record |
| `Bindings.PushVisibleThroughAlias` | javascript/module6/data_collections.js:143-151 | a push through one alias succeeds and every alias then shows the old elements followed by the pushed ones |
| `Bindings.RebindLeavesOtherAlias` | javascript/module2/data_types_and_constants.js:172-177 | rebinding one alias to anything leaves the shared object and the other alias's view unchanged |
| `Bindings.PrimitiveAssignmentScenario` | javascript/module2/data_types_and_constants.js:198-204 | the script's strings: a1 reads "var a1 modified" and a2 still reads "var a1" |
| `Bindings.ReferenceAssignmentScenario` | javascript/module2/data_types_and_constants.js:212-220 | obj1 === obj2, and after `obj1.range_m = 25` both names read range_m as 25 |
| `DataCollections.Classify` | javascript/module6/data_collections.js:95-99 | a reading strictly below the danger threshold is a WARNING and any other is OK; it has no contract of its own, and `DataCollections.ClassifyBoundary` and `DataCollections.ProximityCheck` pin it down |
| `DataCollections.ClassifyBoundary` | javascript/module6/data_collections.js:91-99 | a reading equal to the danger threshold is OK, one below it is a WARNING, and a smaller reading is never judged safer than a larger one |
| `DataCollections.ProximityCheck` | javascript/module6/data_collections.js:93-100 | one report per sensor, report i is for index i and reading i, in ascending order, and it is a WARNING iff the reading is strictly below the threshold |
| `DataCollections.ProximityScenario` | javascript/module6/data_collections.js:91-100 | for the script's six readings and 30 cm, sensors 2 and 5 warn and the other four are OK |
| `DataCollections.AdcSum` | javascript/module6/data_collections.js:104-109 | after the loop the accumulator equals the sum of all samples |
| `DataCollections.AdcScenario` | javascript/module6/data_collections.js:104-109 | the script's eight samples sum to 4090 |
| `DataCollections.PushScenario` | javascript/module6/data_collections.js:128-138 | [0,15,30] becomes [0,15,30,45] with length 4, then [0,15,30,45,60] with length 5 |
| `DataCollections.SharedBufferScenario` | javascript/module6/data_collections.js:158-180 | command_buffer === logger_view, and after pushing 40 and 50 through alternating names both show [10,20,30,40,50] |
| `Conditionals.ShouldStop` | javascript/module4/condiotionals.js:28 | the STOP test is a strict comparison of the front distance with the stop distance; it has no contract of its own, and `Conditionals.StopBoundary` and `Conditionals.ScriptDecisions` pin it down |
| `Conditionals.StopBoundary` | javascript/module4/condiotionals.js:28-31 | STOP does not fire at exactly the stop distance, fires one centimetre closer, and is monotone in the distance |
| `Conditionals.BatteryCheck` | javascript/module4/condiotionals.js:46-53 | exactly one branch: OK to move iff the battery is at or above the minimum, return to base iff below it |
| `Conditionals.BatteryMonotone` | javascript/module4/condiotionals.js:46-53 | more charge never turns permission to move into a refusal |
| `Conditionals.Band` | javascript/module4/condiotionals.js:65-77 | the band is COOL below 60, WARM in [60,75), HOT in [75,85) and CRITICAL from 85; exactly one band holds |
| `Conditionals.PowerLimitPercent` | javascript/module4/condiotionals.js:65-77 | the power limit is at most 100, is 100 only when COOL and 0 only when CRITICAL |
| `Conditionals.PowerLimitNonIncreasing` | javascript/module4/condiotionals.js:65-77 | a hotter motor never gets a higher power limit |
| `Conditionals.SafetyGate` | javascript/module4/condiotionals.js:94-108 | SAFE iff no e-stop, no cliff and the radio link is up; when UNSAFE each failing check is reported exactly when it fails, at least one is reported, in test order |
| `Conditionals.GraspDecide` | javascript/module4/condiotionals.js:120-132 | a grasp is attempted iff an object is detected; GENTLE iff detected and fragile, STANDARD iff detected and not fragile |
| `Conditionals.ForceFor` | javascript/module4/condiotionals.js:123-129 | the gripper force is low exactly for GENTLE mode |
| `Conditionals.SelectBranch` | javascript/module4/condiotionals.js:144-160 | each of IDLE, AUTO, TELEOP and DIAGNOSTICS selects its own branch, by exact string equality; every other string selects the default branch |
| `Conditionals.EffectiveMode` | javascript/module4/condiotionals.js:157-159 | the robot ends up IDLE exactly for the IDLE and the default branch; AUTO exactly for the AUTO branch |
| `Conditionals.OnlyExactLabelsLeaveIdle` | javascript/module4/condiotionals.js:144-160 | the robot leaves IDLE iff the mode string is exactly "AUTO", "TELEOP" or "DIAGNOSTICS" |
| `Conditionals.ScriptDecisions` | javascript/module4/condiotionals.js:21-140 | with the script's inputs: STOP, return to base, WARM at 70 %, SAFE, GENTLE grasp, AUTO branch |
| `Loops.TicksToReach` | javascript/module4/loops.js:37-45 | the least number of 8 cm ticks that brings the start distance to the stop distance or below |
| `Loops.Approach` | javascript/module4/loops.js:37-52 | at most `max_control_ticks` ticks, 8 cm per tick; ticks equal the smaller of the ticks needed and the cap; every logged distance was above the stop distance; on exit the stop distance is reached or the cap is spent, and the decision says which |
| `Loops.ApproachScenario` | javascript/module4/loops.js:27-52 | from 120 cm to 25 cm with a cap of 20: 12 ticks, 24 cm, stopped at the safe distance |
| `Loops.SimulatedReading` | javascript/module4/loops.js:67 | sample k reads 500 + 3k; it has no contract of its own, and `Loops.Calibrate`, `Loops.TwiceReadingTotalStep` and `Loops.CalibrationScenario` pin it down |
| `Loops.TwiceReadingTotalStep` | javascript/module4/loops.js:65-70 | the closed form of the calibration sum grows by exactly the next simulated reading |
| `Loops.Calibrate` | javascript/module4/loops.js:65-70 | exactly `samples_to_take` samples (none if that is negative), sample k is 500 + 3k, the sum is their sum and equals 500n + 3n(n+1)/2 |
| `Loops.CalibrationScenario` | javascript/module4/loops.js:60-70 | six samples sum to 3063 |
| `Loops.CellAt` | javascript/module4/loops.js:99-104 | a cell is "X" iff it is on the scan row at one of the two obstacle columns, and "." otherwise |
| `Loops.RenderRow` | javascript/module4/loops.js:96-106 | the row text has `grid_cols` cells, cell c at position 2(c-1), each followed by a space |
| `Loops.RenderGrid` | javascript/module4/loops.js:95-108 | one row text per row 1..`grid_rows`, in order, each as RenderRow states |
| `Loops.GridScenario` | javascript/module4/loops.js:82-108 | the 3 x 5 grid with obstacles at (2,2) and (2,4) renders ". . . . . ", ". X . X . ", ". . . . . " |
| `Loops.ScriptAck` | javascript/module4/loops.js:129-133 | the script's simulated ACK: every attempt is acknowledged except the first two attempts of packet 2; it has no contract of its own, and `Loops.RetryScenario` pins it down |
| `Loops.SendWithRetries` | javascript/module4/loops.js:120-147 | at most `max_attempts` attempts, each logging the ACK it saw; attempts stop at the first ACK; delivered iff some attempt within the budget is acknowledged |
| `Loops.AttemptLogUnique` | javascript/module4/loops.js:126-141 | the attempt log of a packet is determined by the packet, the budget and the ACK rule |
| `Loops.SendPackets` | javascript/module4/loops.js:116-150 | packets 1..`packets_to_send` are processed in order, each with its own bounded attempt log, and each is delivered iff acknowledged within the budget |
| `Loops.RetryScenario` | javascript/module4/loops.js:116-150 | with the script's ACK rule, packets 1 and 3 are delivered on attempt 1 and packet 2 on attempt 3 after two failures |
| `SentinelIteration.FirstIndexOf` | javascript/module4/sentinel_controlled_iteration.js:43 | the position of the first occurrence of the sentinel: it is there, and not before it |
| `SentinelIteration.ScanUntilSentinel` | javascript/module4/sentinel_controlled_iteration.js:39-53 | with the sentinel present, exactly the items before its first occurrence are processed, in order; the count equals its index; the sentinel is never processed; the read index ends one past it |
| `SentinelIteration.SentinelFirstScan` | javascript/module4/sentinel_controlled_iteration.js:39-53 | running the scan on a sequence that starts with the sentinel processes nothing and counts zero |
| `SentinelIteration.PackageScenario` | javascript/module4/sentinel_controlled_iteration.js:28-56 | four packages are scanned, PKG001..PKG004, and PKG005 after STOP is not |
| `SentinelIteration.CommandScenario` | javascript/module4/sentinel_controlled_iteration.js:71-99 | six commands are executed, and BACKWARD after END is not |
| `CounterIteration.DriveTiles` | javascript/module4/counter_controlled_iteration.js:27-47 | the loop ends with tiles_moved equal to the target (0 for a negative target), after that many iterations, reporting 1, 2, ..., target in order |
| `CounterIteration.TightenBolts` | javascript/module4/counter_controlled_iteration.js:73-79 | the loop runs `total_bolts` iterations, visiting bolts 1..`total_bolts` in strictly ascending order, each exactly once |
| `CounterIteration.CountUpToIsOneThroughN` | javascript/module4/counter_controlled_iteration.js:73-79 | the count 1..n is strictly ascending and contains exactly the numbers 1..n |
| `CounterIteration.ScriptCounts` | javascript/module4/counter_controlled_iteration.js:27-81 | six tiles reported as 1..6, and bolts 1..5 |

## Left out

- Console output. Every `console.log` banner and message is left out. The model keeps
  the decisions and the values the messages report: the logs of the loops, the reasons,
  the reports.
- The `typeof` results and the quirk that `typeof null` is `"object"`. `KindOf` gives
  `null` its own kind, because no logic in the scripts depends on the quirk.
- Floating point. Numbers are unbounded integers, and every constant in the scripts is
  an integer. The averages `adc_average` and `average_reading` are left out. So is the
  constant `PI`.
- The `const` bindings of the scripts, and the error raised when one is reassigned. No
  code reassigns a constant.
- `let` versus `var` scoping, and the error for redeclaring a `let` name. `Declare`
  simply creates or replaces the binding. `DeclareUnassigned` follows `var`: it keeps
  the value of a name that is already bound.
- Index reads and writes on arrays other than `push`, and the `length` property. The
  scripts read these only on plain integer sequences, which the `DataCollections` loops
  model directly. Out-of-range reads, which yield `undefined` in JavaScript, are left out
  for the same reason.
- Garbage collection. Heap cells are never reclaimed. This changes nothing that a binding
  can observe.
- javascript/module5/functions.js. It only declares and calls a function that prints.
- SentinelIteration.ScanUntilSentinel: requires the sentinel to be present. Without it,
  the script reads past the end of the array, gets `undefined`, and never stops.
- Loops.SendPackets: the ACK rule is a parameter, `ack`, and so are the packet count
  and the attempt budget. `Loops.RetryScenario` passes the script's rule, `ScriptAck`,
  with 3 packets and a budget of 4. The script declares the budget inside the outer loop.
- Bindings.GetField: reading a named field of an array, or of a number, string or
  boolean, yields `undefined` in JavaScript. The model returns `WrongKind` or
  `NotAnObject` instead, because it keeps named fields on records only. Only `null` and
  `undefined` throw a `TypeError` in JavaScript. The scripts read fields of records only.
- Bindings.SetField: JavaScript stores a named property on an array. It silently ignores
  a write to a number, string or boolean in sloppy code. The model returns `WrongKind`
  or `NotAnObject` instead, for the same reason. The scripts write fields of records only.
