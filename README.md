# Automatic rail upgrade and the console, modelled in Dafny

This project models three parts of an OpenTTD fork.

**The automatic rail upgrade** (`src/auto_upgrade.cpp`). A console command
asks the game to move every train of the player's company onto another
rail type. It gets there in five steps:

1. send every train to a depot;
2. snapshot the trains and their shared order lists, and sell them;
3. convert all the rail on the map;
4. buy the best new engines and wagons for each old train and give them
   the old orders;
5. start every train.

The work runs as a C++20 coroutine that waits for each command's answer.
The model has these parts:

- the rail-type parser;
- the start gate, the bail-out and the per-tick pump, as the `Upgrader`
  class;
- the replacement-unit selector, as a loop proved against a specification
  of "first best candidate";
- the dispatch and waiting loops over the passes they observe;
- the snapshot grouping;
- the remaining steps, as a `Planner` class. It records every command and
  wait in an action log and reads the game's answers from a `World` value.

**The one-slot scheduler** (`src/auto_upgrade_coro.hpp`). The scheduler is
made of globals: the suspended task, a ready flag, the last command result
and the last new vehicle. The model has them twice:

- as transition functions on a `CoroState` value;
- as a `Scheduler` class whose methods are proved to follow those
  functions.

A trace counts suspensions, resumptions and destructions. The model proves
that along every run at most one suspension is outstanding.

**The console** (`src/console.cpp`). It covers:

- underscore-insensitive command and alias registries;
- integer-argument parsing;
- `IConsoleCmdExec`: the comment and character checks, then the quote-aware
  tokenizer;
- `IConsoleCmdExecTokens`: dispatch, commands before aliases;
- `IConsoleAliasExec`: alias expansion into a bounded buffer, with `'`,
  `;`, `%+`, `%!`, `%A`…, the recursion limit and the overflow check.

Each of these has a specification function on values (`Lex`, `Expand`,
`RunLine`, `RunTokens`, `RunAlias`). The imperative code is proved to match
its function:

- the `Tokenizer` class works on the token stream and token arrays;
- the alias buffer is an `array<char>` written through a `strecpy` model;
- the `Console` class holds the registries and an event log. Its mutually
  recursive `Exec`, `ExecTokens` and `AliasExec` are proved to append
  exactly `RunLine`, `RunTokens` and `RunAlias`.

Command procedures, hooks and `IsValidChar` are parameters of the console.
Execution is recorded as events: a procedure called with its tokens, a
help call, or an error message.

## Model

| member | source | states |
|---|---|---|
| AutoUpgrade.ParseRailType | src/auto_upgrade.cpp:79-95 | "rail", "electric", "monorail" and "maglev" give RAIL, ELECTRIC, MONO and MAGLEV, each exactly for its name; every other string gives INVALID_RAILTYPE |
| AutoUpgrade.HasOwnTrain | src/auto_upgrade.cpp:112-119 | the scan reports a train exactly when some vehicle in the pool is a primary train owned by the company |
| AutoUpgrade.Upgrader.Start | src/auto_upgrade.cpp:99-129 | succeeds iff the local company is not the spectator, the rail type parses and the company owns a primary train. A refusal leaves the current company and the scheduler unchanged. Success takes the company, resets the scheduler and leaves the new task suspended on its first tick wait. The rail type is stored before it is checked |
| AutoUpgrade.Upgrader.BailOut | src/auto_upgrade.cpp:131-134 | afterwards no upgrade is running (current company is the spectator) |
| AutoUpgrade.Upgrader.Complete | src/auto_upgrade.cpp:523-524 | on completion no upgrade is running (current company is the spectator) |
| AutoUpgrade.Upgrader.OnTick | src/auto_upgrade.cpp:528-537 | when no upgrade runs, nothing changes. When the player switched company, it bails out without touching or resuming the coroutine. Otherwise it pumps the scheduler and resumes exactly what `HandleCoro` resumes |
| TrainUnits.BestIsFirstBest | src/auto_upgrade.cpp:147-172 | after any prefix of the catalog the selection holds nothing iff no entry passes the filter. Otherwise it holds the first passing entry with the lexicographically largest (speed, power, cost) key: no passing entry outranks it, and every passing entry before it is strictly worse |
| TrainUnits.FirstBestUnique | src/auto_upgrade.cpp:156-171 | the first best entry is unique, so the choice is deterministic on ties |
| TrainUnits.NewTrainUnitIsFirstBest | src/auto_upgrade.cpp:143-207 | with no qualifying entry the result is {INVALID_ENGINE, CT_INVALID}. An engine result is the first best powered, buildable engine of the target rail type, refitted to the wagon cargo iff it can carry it. A wagon result is the first best unpowered, buildable wagon that is compatible and refittable, carrying exactly the requested cargo |
| TrainUnits.GetNewTrainUnit | src/auto_upgrade.cpp:143-207 | the two catalog loops, with their early `continue`s, return exactly the unit `NewTrainUnit` specifies |
| DepotPhase.OwnTrainsExact | src/auto_upgrade.cpp:228-233 | `my_vehicles` holds exactly the ids of the company's primary trains |
| DepotPhase.CollectOwnTrains | src/auto_upgrade.cpp:228-233 | the pool scan yields the company's primary trains in pool order |
| DepotPhase.DispatchPass | src/auto_upgrade.cpp:239-258 | one pass sends each train that is neither stopped in a depot nor heading to one. An accepted send is followed by a second's wait. `num_failed` counts the refusals, and `has_succeeded` holds iff some send was accepted |
| DepotPhase.PassSendsOnlyUnsettled | src/auto_upgrade.cpp:241-257 | a pass never submits for a train stopped in a depot or already going to one |
| DepotPhase.PassSubmitsOncePerUnsettled | src/auto_upgrade.cpp:241-257 | a pass submits exactly one command per train that needs dispatching |
| DepotPhase.SettledPassIsIdle | src/auto_upgrade.cpp:241-259 | when every train is settled, a pass submits nothing and fails nothing |
| DepotPhase.DispatchRetry | src/auto_upgrade.cpp:238-264 | the loop stops exactly at the first pass with no refusals. Every earlier pass had a refusal and is followed by a second's wait. The actions are those passes in order |
| DepotPhase.SettledRetryStopsAtOnce | src/auto_upgrade.cpp:238-264 | with every train already settled, the loop ends after one silent pass |
| DepotPhase.CountRemaining | src/auto_upgrade.cpp:272-278 | `num_remaining` is the number of trains not stopped in a depot, and it is 0 iff all are stopped |
| DepotPhase.ReportsOnlyChanges | src/auto_upgrade.cpp:270-283 | progress reports never repeat: the first differs from the train count, each differs from the one before, and each is an observed count. The cache holds the last value reported |
| DepotPhase.WaitUntilStopped | src/auto_upgrade.cpp:270-285 | the loop ends exactly at the first poll with nothing remaining. It reports each change of the count and waits a second after every poll that still had trains outside |
| Snapshot.NewRoute | src/auto_upgrade.cpp:75 | a new route holds the captured orders, has nothing to clone from, and has no first shared train (INVALID_VEHICLE) |
| Snapshot.SortBySorted | src/auto_upgrade.cpp:300-302 | the sort stand-in returns a permutation of its input (ensured by `SortBy`), ordered by the key |
| Snapshot.SameRouteIffSharedOrders | src/auto_upgrade.cpp:300-311 | in the sorted list, two trains fall in the same run (route index) iff they have the same first shared vehicle |
| Snapshot.CaptureCargos | src/auto_upgrade.cpp:324-332 | one cargo entry per unit: CT_INVALID for each engine, the unit's cargo type for each wagon |
| Snapshot.FindRunEnd | src/auto_upgrade.cpp:306-308 | the run end is past `begin`, every train before it has `begin`'s first shared vehicle, and the train at it does not |
| Snapshot.RecordRun | src/auto_upgrade.cpp:322-336 | each train of a run is recorded with its depot tile, its cargo list and that run's route index, and its tile is pushed to `depots` |
| Snapshot.GroupRoutes | src/auto_upgrade.cpp:304-337 | there is one route per maximal run. Every train is recorded in order, with a route index below the number of routes. That route is a fresh route holding the orders of the train's shared chain |
| Snapshot.Unique | src/auto_upgrade.cpp:340 | on sorted input the result is strictly increasing and has the same elements |
| Snapshot.DepotsOfTrains | src/auto_upgrade.cpp:333-340 | after sort and unique, `depots` is exactly the set of tiles the trains stand on |
| Snapshot.TakeSnapshot | src/auto_upgrade.cpp:292-343 | the snapshot block yields routes and records grouped as above. `depots` is strictly increasing and holds exactly the trains' tiles |
| Scripts.ExecuteIsPrefix | src/auto_upgrade.cpp:347-509 | the steps actually taken are a prefix of the planned ones: all of them on success, and otherwise up to and including a submitted command |
| Scripts.ExecuteStopsAtFirstRefusal | src/auto_upgrade.cpp:347-509 | a run succeeds iff every command of the script is accepted; otherwise it stops right after the first refused command (bail-out and `co_return`) |
| Scripts.ExecuteAppend | src/auto_upgrade.cpp:347-509 | running two scripts in a row runs the second only when the first succeeded |
| Scripts.SellRefused | src/auto_upgrade.cpp:348-353 | a refused depot sale ends the liquidation there |
| Scripts.SellAccepted | src/auto_upgrade.cpp:348-355 | an accepted sale is followed by a second's wait, and the liquidation goes on |
| Scripts.DeletesTruncate | src/auto_upgrade.cpp:467-475 | deleting orders from the last index down to `lo` leaves exactly the first `lo` orders |
| Scripts.InsertsRebuild | src/auto_upgrade.cpp:476-484 | inserting the captured orders at 0, 1, … rebuilds them in captured order |
| Scripts.ReplayRestores | src/auto_upgrade.cpp:467-484 | delete-then-insert turns any order list into exactly the captured one |
| Scripts.ReplayRun | src/auto_upgrade.cpp:467-484 | the insertions run only when every deletion was accepted |
| Scripts.DepotOrderIndex | src/auto_upgrade.cpp:492-497 | the index is the first goto-depot order to this depot, or the number of orders when there is none |
| Scripts.SkipTarget | src/auto_upgrade.cpp:498-500 | the skip target is an index of the order list |
| Scripts.SkipTargetFollowsDepotOrder | src/auto_upgrade.cpp:492-500 | there is a target iff the depot is in the order list. The target is `(k+1) % n`: the order cyclically after the depot's first goto order |
| Scripts.FindDepotOrder | src/auto_upgrade.cpp:492-497 | the scan returns `DepotOrderIndex` |
| Scripts.FirstDepotOrderUnique | src/auto_upgrade.cpp:492-497 | only one index is the first goto order to the depot |
| Types.TryEmplace | src/auto_upgrade.cpp:455 | `try_emplace` inserts a missing key and never changes a present one |
| Types.FirstEmplaceWins | src/auto_upgrade.cpp:488 | over any sequence of `try_emplace` calls, a key keeps its existing value, or else gets the value of its first call |
| Rebuild.FirstWagonCargo | src/auto_upgrade.cpp:407-414 | the loop returns `WagonCargo`: the first cargo of the composition that is not CT_INVALID, or CT_INVALID when there is none |
| Rebuild.PlannedBuilds | src/auto_upgrade.cpp:416-425 | the build plan has one command per slot of the prefix asked for |
| Rebuild.BuildsStep | src/auto_upgrade.cpp:425-431 | a logged build, with or without its tick wait, adds exactly its command to the builds of the log |
| Rebuild.AcquirePlanned | src/auto_upgrade.cpp:384-456 | for the build strategy, whatever the game answers: every command builds or attaches a unit in the depot, the builds are the selector's units slot by slot, a slot without a unit or an empty composition fails, and success had every command accepted. By any strategy, a composition already remembered for copying keeps its train |
| Rebuild.WithNewTrain | src/auto_upgrade.cpp:486-488 | recording a new train keeps a route valid and only adds to it: afterwards the route has a first shared train and a train to clone for the composition |
| Rebuild.RunDeletes | src/auto_upgrade.cpp:468-475 | the deletion loop takes exactly the steps of running the deletion script, stopping at a refusal |
| Rebuild.RunInserts | src/auto_upgrade.cpp:477-484 | the insertion loop takes exactly the steps of running the insertion script, a tick after each accepted insertion |
| Rebuild.RebuiltKept | src/auto_upgrade.cpp:457-488 | once a recorded train's route has a first shared train and can clone its composition, it stays so as later trains are rebuilt |
| Rebuild.Planner.Liquidate | src/auto_upgrade.cpp:347-355 | the log grows by exactly the steps of running the sale script over the depots, and the result says whether every sale was accepted |
| Rebuild.Planner.Convert | src/auto_upgrade.cpp:361-366 | one conversion command, from the far map corner to (1, 1) with freeform edges or (0, 0) without, to the target rail type; it succeeds iff the game accepts it |
| Rebuild.Planner.ReplayOrders | src/auto_upgrade.cpp:467-484 | the log grows by exactly the steps of running delete-then-insert over the new train's current order count |
| Rebuild.Planner.BuildTrain | src/auto_upgrade.cpp:405-451 | the log grows by exactly `BuildLoop` from the empty build. Slot by slot, that is: the build of the selector's unit for the slot's cargo, refitted to the first wagon cargo, and a tick. Past the first slot, when the game did not already put the new unit in the head's chain, a move of it behind the last vehicle of that chain, and a tick once accepted. It stops at a slot with no unit or at the first refusal, and fails when nothing was built. Besides, as `BuildLoopPlanned` proves of any such run, every command builds or attaches in this depot and the builds are the selector's units in slot order; success had every command accepted, and the head is the first unit built |
| Rebuild.BuildLoopUnfold | src/auto_upgrade.cpp:418-445 | a slot goes one of five ways: no unit stops the build as failed; a refused build stops it after the build; the first unit becomes the head after its build and a tick; a unit the game already put in the head's chain takes a build and a tick; any other takes a build, a tick and a move behind the last vehicle of the head's chain, followed by a tick and the next slot if accepted and a failed stop if refused |
| Rebuild.BuildLoopPlanned | src/auto_upgrade.cpp:416-451 | from any point the build has reached, and whatever the game answers, the finished build orders exactly the selector's unit for each slot in turn, issues only builds and attaches in this depot, fails on a slot without a unit or an empty composition, and succeeds only with every command accepted |
| Rebuild.Planner.BuildSlot | src/auto_upgrade.cpp:418-445 | one slot either ends the build where `BuildLoop` ends it, or leaves `BuildLoop` from the next slot equal to `BuildLoop` from this one; the head is the first unit built and never changes after |
| Rebuild.Planner.SkipToDepotOrder | src/auto_upgrade.cpp:491-508 | the skip command is issued exactly when the depot is in the order list and the current order differs from the target |
| Rebuild.Planner.AcquireTrain | src/auto_upgrade.cpp:384-456 | the log, the outcome and the copy map become exactly those of `Acquire` by the strategy chosen: a same-route clone sharing orders (p2=1) with a tick wait after success, or a copy from another route (p2=0), each succeeding iff accepted; or the unit-by-unit `BuildLoop` (see `BuildTrain`), remembered for copying only on success. The new train is the vehicle the first command created |
| Rebuild.Planner.AssignOrders | src/auto_upgrade.cpp:457-487 | with a first shared train, the new train shares its orders and a tick follows success. Otherwise the captured orders are replayed, and `first_shared` becomes this train only on success. The log and outcome equal the `AssignActions` run |
| Rebuild.Planner.AssignAndRecord | src/auto_upgrade.cpp:457-488 | the log grows by the `AssignActions` run; on success, and only then, the route becomes `WithNewTrain` of it, and no other route changes |
| Rebuild.Planner.PlaceTrain | src/auto_upgrade.cpp:457-508 | orders are assigned and recorded only when the route has no clone for the composition; the skip follows only when that succeeded; the log is the two in sequence and success needs the skip, if any, to be accepted: the log, the outcome and the routes are exactly `Place`'s, of which `PlaceKeeps` proves that success leaves the train rebuilt |
| Rebuild.Planner.ReconstructVehicle | src/auto_upgrade.cpp:376-509 | the log, the outcome, the routes and the copy map become exactly those of `Reconstruct` for the recorded train: an unconverted depot stops with nothing done; otherwise `Acquire` by the chosen strategy and, once the train exists, `Place` it. A successful pass returns the vehicle the first command created |
| Rebuild.PlaceKeeps | src/auto_upgrade.cpp:457-508 | placing a train keeps every route valid and only lets routes grow: orders kept, compositions that can be cloned kept, a first shared train once set kept. A successful placement leaves the recorded train's route with a first shared train and a clone for its composition |
| Rebuild.ReconstructKeeps | src/auto_upgrade.cpp:376-509 | a whole pass of the rebuild loop keeps routes valid and only lets them grow, never changes a composition already remembered for copying, and a successful pass leaves its recorded train rebuilt |
| Rebuild.ChainExtend | src/auto_upgrade.cpp:376-509 | a chain of passes whose last pass succeeded grows by `Reconstruct` of the next recorded train, from the log position, routes and copy map the chain left; afterwards the log, the routes and the copy map are that pass's |
| Rebuild.ChainedPrefix | src/auto_upgrade.cpp:376-509 | every prefix of a chain of passes is a chain |
| Rebuild.ChainedAt | src/auto_upgrade.cpp:376-509 | in a chain, pass k is `Reconstruct` of recorded train k from the log position, routes and copy map the passes before it left, and it succeeded unless it is the last: one pass per recorded train, in order, stopping at the first failure |
| Rebuild.Planner.RebuildNext | src/auto_upgrade.cpp:376-509 | one pass of the loop extends the chain by `Reconstruct` of the next recorded train; the log, the routes and the copy map are then those the extended chain leaves, trains rebuilt before stay rebuilt, and a successful pass rebuilds its own |
| Rebuild.Planner.ReconstructAll | src/auto_upgrade.cpp:376-509 | the ghost `passes` form a chain from the starting log, routes and copy map: pass k is `Reconstruct` of recorded train k from where the passes before it left off. The log is the passes' actions in order, and the routes and the copy map are those the last pass left. Every pass but the last succeeded; it either runs every recorded train with success or stops after the first failed pass, `done` counting the successes; every recorded train before `done` is rebuilt |
| Rebuild.Planner.MassStartAll | src/auto_upgrade.cpp:512-519 | one mass-start command; it succeeds iff it is accepted |
| Rebuild.Planner.SellAndConvert | src/auto_upgrade.cpp:345-366 | a pause, the sale script, and only after a complete sale another pause and the conversion; success iff both the sale and the conversion were accepted |
| Rebuild.Planner.FinishUpgrade | src/auto_upgrade.cpp:345-524 | the log up to `phase` is a pause, the sale, and only if the sale succeeded a pause and the conversion. Only if the conversion was accepted does a pause follow, then the rebuild passes, a chain of `Reconstruct` passes from that log position over the recorded trains, then, only if every train was rebuilt, the mass start. The routes and the copy map are those the passes left, every recorded train is rebuilt after a full rebuild, it succeeds iff every phase succeeded, and either way no upgrade is left running |
| Coro.Reset | src/auto_upgrade_coro.hpp:17-23 | after `ResetCoroState` the slot is empty and the flag clear |
| Coro.Handle | src/auto_upgrade_coro.hpp:25-34 | `HandleCoro` reports false iff the slot is empty. It resumes iff the flag is set, clearing flag and slot first. Otherwise nothing changes |
| Coro.Deliver | src/auto_upgrade_coro.hpp:41-48 | the callback stores the result and the new vehicle id and sets the flag |
| Coro.CommandIndex | src/auto_upgrade_coro.hpp:55 | the low 16 bits of the command |
| Coro.DeliverVia | src/auto_upgrade_coro.hpp:54-60 | a town-founding result is diverted and changes nothing; every other result is delivered |
| Coro.SuspendOnCommand | src/auto_upgrade_coro.hpp:61-67 | requires an empty slot, then fills it. A command that cannot be sent while networking gets a failure delivered at once |
| Coro.SuspendOnTick | src/auto_upgrade_coro.hpp:79-83 | requires an empty slot, then fills it and sets the flag at once |
| Coro.TickResumedByNextPump | src/auto_upgrade_coro.hpp:79-83 | the pump right after a tick wait resumes it |
| Coro.CommandResumesWithDeliveredResult | src/auto_upgrade_coro.hpp:41-70 | after a command wait and its callback, the coroutine resumes with exactly the delivered result and vehicle id |
| Coro.Step | src/auto_upgrade_coro.hpp:61-63 | a step is stuck exactly when an awaiter's empty-slot assertion would fail |
| Coro.RunKeepsOneInFlight | src/auto_upgrade_coro.hpp:17-83 | along any run, suspensions equal resumptions plus destructions plus the slot's occupancy |
| Coro.FromStartAtMostOneOutstanding | src/auto_upgrade_coro.hpp:12-83 | from program start at most one suspension is ever outstanding |
| Coro.PreDecrement | src/auto_upgrade_coro.hpp:142 | `--numticks` on a 64-bit `size_t`: one less, and 0 wraps to the largest value |
| Coro.Scheduler.ResetCoroState | src/auto_upgrade_coro.hpp:17-23 | the globals change as `Reset` says |
| Coro.Scheduler.HandleCoro | src/auto_upgrade_coro.hpp:25-34 | the globals and results are those of `Handle` |
| Coro.Scheduler.Callback | src/auto_upgrade_coro.hpp:41-48 | the globals change as `Deliver` says |
| Coro.Scheduler.CallbackWrapper | src/auto_upgrade_coro.hpp:54-60 | diverted iff the command is town founding; the globals change as `DeliverVia` says |
| Coro.Scheduler.AwaitCommandSuspend | src/auto_upgrade_coro.hpp:61-67 | the globals change as `SuspendOnCommand` says |
| Coro.Scheduler.AwaitResume | src/auto_upgrade_coro.hpp:68-70 | returns exactly the stored result |
| Coro.Scheduler.WaitTickSuspend | src/auto_upgrade_coro.hpp:79-83 | the globals change as `SuspendOnTick` says |
| Coro.Scheduler.WaitTicks | src/auto_upgrade_coro.hpp:141-145 | for n ≥ 1, exactly n−1 tick suspensions. The slot ends empty and the stored result and vehicle are untouched. The ready flag is left as it was only when no suspension happened |
| ConsoleText.RemoveUnderscores | src/console.cpp:197-201 | the result has exactly the characters of the name other than '_' and is no longer |
| ConsoleText.RemoveUnderscoresAppend | src/console.cpp:197-201 | removal distributes over concatenation, so the other characters keep their order |
| ConsoleText.RemoveUnderscoresKeeps | src/console.cpp:197-201 | a name without '_' is unchanged |
| ConsoleText.RemoveUnderscoresIdempotent | src/console.cpp:197-201 | removing twice is removing once |
| ConsoleText.RemoveUnderscoresLength | src/console.cpp:197-201 | exactly the underscores are dropped |
| ConsoleText.UnderscoresIgnored | src/console.cpp:197-201 | inserting a '_' anywhere does not change the key |
| ConsoleText.GetArgumentInteger | src/console.cpp:175-190 | "on"/"true" give 1 and "off"/"false" give 0, with success. Anything else succeeds iff `strtoul` consumed a character, and the value is its result truncated to 32 bits |
| ConsoleText.KeywordsIgnoreConversion | src/console.cpp:179-186 | a keyword never depends on the numeric conversion and always succeeds |
| ConsoleExec.Lookup | src/console.cpp:218-223 | found iff the underscore-free name is a key; the entry is that key's |
| ConsoleExec.LookupIgnoresUnderscores | src/console.cpp:218-223 | an underscore in a looked-up name changes nothing |
| ConsoleExec.Console.CmdRegister | src/console.cpp:208-211 | the command is added under its underscore-free name unless that key exists; the first one registered stays |
| ConsoleExec.Console.CmdGet | src/console.cpp:218-223 | finds the command registered under the underscore-free name, if any |
| ConsoleExec.Console.AliasRegister | src/console.cpp:230-234 | a new key is added with no event. A duplicate leaves the registry unchanged and logs the duplicate-alias error |
| ConsoleExec.Console.AliasGet | src/console.cpp:241-246 | finds the alias registered under the underscore-free name, if any |
| ConsoleExec.LineChecks | src/console.cpp:351-359 | a line starting with '#' does nothing. A line with a character `IsValidChar` refuses only reports the malformed-command error |
| ConsoleExec.CommandsBeforeAliases | src/console.cpp:431-461 | an allowed command is invoked even when an alias has its name. With no command, or a hidden one, the alias runs with `tokens[1..]` and recursion depth + 1, else "command not found" |
| ConsoleExec.SelfAliasHitsLimit | src/console.cpp:262-265 | an alias whose command line is its own name yields only the recursion-limit error, whatever depth it starts at |
| ConsoleExec.FlushStep | src/console.cpp:273-280 | a `;` flushes the buffer as one line, empties it and skips the next character |
| ConsoleExec.AliasStops | src/console.cpp:308-331 | an expansion that stops early runs the lines flushed before it, then reports why |
| ConsoleExec.AliasCompletes | src/console.cpp:334 | a completed expansion runs every line, the buffer's last one included |
| ConsoleExec.Console.Exec | src/console.cpp:342-425 | the events appended are exactly `RunLine`: comment, malformed check, tokenizer, then dispatch |
| ConsoleExec.Console.ExecTokens | src/console.cpp:431-461 | the events appended are exactly `RunTokens`: nothing on an empty first token; the hook verdict decides for a command (help after a failed procedure); hidden or missing commands fall through to the alias lookup |
| ConsoleExec.Console.ExecNext | src/console.cpp:274 | running one more line appends its events after those of the lines before |
| ConsoleExec.Console.AliasExec | src/console.cpp:255-335 | the buffer loop appends exactly `RunAlias`: the recursion-limit error above depth 10; otherwise each flushed line is run in order, and a bad `%X` or a near-full buffer stops with its error before running the rest |
| ConsoleLex.LexStep | src/console.cpp:369-418 | each pass moves forward along the line, and a token is open only when one exists |
| ConsoleLex.LexBounded | src/console.cpp:369-418 | never more than 20 tokens and never more than 2048 stream characters |
| ConsoleLex.LexCString | src/console.cpp:369-418 | no token contains a NUL |
| ConsoleLex.QuotesNotCopied | src/console.cpp:388-398 | without a backslash in the line no token contains a '"': quote characters are not copied |
| ConsoleLex.SpacesSeparate | src/console.cpp:376-387 | without quotes no token contains a space: spaces outside quotes separate tokens |
| ConsoleLex.PlainLineKeepsWords | src/console.cpp:376-416 | without quotes or backslashes the tokens, concatenated, are the line's non-space characters in order, and no token is empty |
| ConsoleLex.OneWord | src/console.cpp:405-416 | a non-empty word that fits the stream is one token, itself |
| ConsoleLex.EscapedQuotePlacement | src/console.cpp:399-403 | for any line and state: a `\"` with room for two more stream characters becomes a literal `"` appended to the open token, or a stream character in no token when none is open, and lexing resumes after both characters. With room for only one, the backslash is an ordinary character, appended to the open token or else starting a new token, and the quote is read next; starting a 21st token makes the line too long |
| ConsoleLex.Tokenizer.Space | src/console.cpp:376-387 | a space is skipped outside a token, kept inside quotes, and otherwise ends the token |
| ConsoleLex.Tokenizer.Quote | src/console.cpp:388-398 | a quote toggles quote mode, opening an empty token if none is open; it is too long iff that would make a 21st token |
| ConsoleLex.Tokenizer.EscapedQuote | src/console.cpp:399-403 | `\"` with room for two characters writes a '"' into the stream, inside the open token if any |
| ConsoleLex.Tokenizer.Normal | src/console.cpp:404-416 | any other character is appended to the open token or starts a new one; it is too long iff that would make a 21st token |
| ConsoleLex.Tokenize | src/console.cpp:363-418 | filling the token stream and token arrays gives exactly the tokens (or the too-long error) that `Lex` specifies, read back from their start positions |
| ConsoleAlias.Put | src/console.cpp:270 | the `strecpy` into the alias buffer: the old content is kept, the string is appended whole when it fits, and the content never exceeds 2047 characters |
| ConsoleAlias.PutPut | src/console.cpp:286-290 | two bounded copies in a row equal one bounded copy of both strings |
| ConsoleAlias.ParamIndex | src/console.cpp:306-308 | `%X` names parameter X−'A', reading X as a signed char; it fails iff that is negative or not below the parameter count |
| ConsoleAlias.ExpandPass | src/console.cpp:267-331 | a pass always moves forward; `;` moves two characters on; the buffer stays within 2047 characters |
| ConsoleAlias.ExpandBounded | src/console.cpp:328-331 | every line an alias runs is shorter than the overflow mark |
| ConsoleAlias.ExpandCString | src/console.cpp:267-326 | with NUL-free parameters no line an alias runs contains a NUL |
| ConsoleAlias.PlainAliasIsOneCommand | src/console.cpp:322-325 | a command line without `'`, `;` or `%` runs as itself, as one command |
| ConsoleAlias.SemicolonSeparates | src/console.cpp:273-280 | `a; b` runs `a` then `b`; the `;` ends the first command and the space after it is skipped |
| ConsoleAlias.QuoteMarkIsDoubleQuote | src/console.cpp:269-271 | any command line of ordinary characters and `'` that fits the buffer runs as one command: itself with every `'` written as `"` |
| ConsoleAlias.ParamQuoted | src/console.cpp:305-317 | at any position and buffer, `%X` other than `%+`/`%!` with X−'A' (X read as a signed char) outside the parameters stops expansion with the bad-parameter error and runs nothing more; inside, the parameter in quotes is appended and expansion goes on two characters later, unless it does not fit, which stops with the overflow error |
| ConsoleAlias.TrailingPercentFails | src/console.cpp:282-312 | whatever buffer and lines came before, a `%` ending the command line reads the terminating NUL as its parameter letter and stops expansion with the bad-parameter error |
| ConsoleAlias.ParameterLists | src/console.cpp:285-303 | for every parameter list, what `%+` writes (each parameter quoted, separated by spaces) equals `%!`'s join applied to the quoted parameters |
| ConsoleAlias.QuoteEachRelexes | src/console.cpp:285-292 | for any at most 20 parameters without `"` or `\` whose `%+` text fits the token stream, the tokenizer splits that text back into exactly those parameters, spaces inside them included: `%+` hands the parameters on unchanged |
| ConsoleAlias.QuoteAllRelexes | src/console.cpp:295-302 | for any parameters without `"` or `\` whose `%!` text fits the token stream, the tokenizer reads that text as a single token: the parameters joined by spaces |
| ConsoleAlias.StrECopy | src/console.cpp:270 | the buffer up to the returned end is the bounded copy `Put`, and a NUL follows it |
| ConsoleAlias.PutEachQuoted | src/console.cpp:285-292 | the `%+` copy loop writes exactly `Put` of every parameter quoted |
| ConsoleAlias.PutAllQuoted | src/console.cpp:295-302 | the `%!` copy loop writes exactly `Put` of all parameters in one quoted string |
| ConsoleAlias.PutQuoted | src/console.cpp:314-316 | the `%X` copy writes exactly `Put` of the parameter in quotes |
| ConsoleAlias.CopyPass | src/console.cpp:268-331 | a non-`;` pass over the buffer fails iff `ExpandPass` fails; otherwise it leaves exactly `ExpandPass`'s buffer. Either way the rest of the expansion follows `ExpandFrom` |

## Left out

- Console output and logging are not modelled: messages, the debug output and the log file. Errors become `Error` events. The usage line printed after a bad `%X` is not modelled.
- The world is an input. Vehicle iteration, engine getters, buildability and refit masks, `HasPowerOnRail`, `GetDepotIndex`, `GetRailType` and command effects are read from `VehicleInfo`, `Engine`, `Visit` observations and `World` functions indexed by the log position. `DoCommandPEx` is the `accepts`/`sent` answer.
- Order packing is not modelled: orders are kept with the two fields the planner reads, and `Order::Pack` is treated as the identity.
- `std::sort` is a library call. The model sorts by insertion; the grouping is proved for any input sorted by the key, so the order among ties does not matter.
- Snapshot.TakeSnapshot: the game sorts the trains by the address of their `FirstShared()` vehicle, which the model cannot observe; the model sorts by that vehicle's id instead. The grouping into routes is the same, but the order of the routes and of the recorded trains can differ from the game's, and with it the rebuild order, which new train becomes a route's `first_shared` and which train is copied for a composition.
- The unbounded dispatch, waiting and coroutine loops run over a finite sequence of observed passes or events. The methods report whether the loop finished within them.
- The phases before the sale are modelled as separate steps: `DispatchRetry`, `WaitUntilStopped` and `TakeSnapshot`. The opening of `DoCoro` (the first tick wait, the mass send to depot whose outcome is ignored and the one-second wait) and the glue that runs the phases in sequence are not members.
- Coroutine frames are replaced by a resume-point tag: `AwaitableTask` promise chaining, `handle.destroy()` and the resumption itself. `OnTick` returns the point to resume.
- Rebuild.RunDeletes: the order count is read once, before the deletions, while the game reads it again before each deletion; the model therefore assumes that each accepted deletion removes exactly one order.
- Rebuild.Planner.ReplayOrders: it runs `RunDeletes` over the order count read once at its start, so it makes the same assumption about accepted deletions.
- `VehicleOrderID` is 8 bits wide. Order indices and counts are unbounded here, so the wrap of an index past 255 is not modelled.
- Console strings are sequences of characters, while the C code works on the bytes of UTF-8 strings. Each character of the model stands for one byte: the token-stream and buffer limits count characters, and `SignedChar` reads a character as a signed byte, so the console model is exact only for lines and parameters whose characters are all below 256.
- `strtoul` is a parameter that returns the value and the number of characters consumed. `IsValidChar(c, CS_ALPHANUMERAL)` is a parameter of the console.
- Command procedures and hooks are code outside the console. Their answers are parameters, and the registries are fixed while a line runs, so a command that registers an alias during execution is not modelled.
- A `;` as the last character of an alias makes the C loop step past the string's terminator. The model ends the expansion there.
- When the token stream is completely full, the last token's terminator falls outside the stream. The model reads that token up to the end of the stream.
- The header constants come from the game's headers, which are not part of this model: ICON_TOKEN_COUNT = 20, ICON_MAX_STREAMSIZE = 2048, ICON_MAX_RECURSE = 10, INVALID_VEHICLE, INVALID_ENGINE, CT_INVALID, COMPANY_SPECTATOR and the rail type ids.
- `src/saveload/game_sl.cpp` and `src/cargoaction.h` are not part of this model.
