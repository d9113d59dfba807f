# Pulse propagation (Advent of Code 2023, day 20, part 1)

A network of modules passes Low and High pulses along named wires. A line
`broadcaster -> a, b` declares the broadcaster, `%a -> b` a flip-flop and
`&inv -> a` a conjunction. Any name that is referenced but never declared
becomes an untyped sink. Pressing the button sends one Low pulse to the
broadcaster. Pulses are then delivered in FIFO order:

- the broadcaster forwards the pulse to every connection;
- a flip-flop ignores High, and on Low flips and sends High if it is now on, Low otherwise;
- a conjunction remembers the last level from each input, and sends Low when every remembered level is High, High otherwise;
- a sink absorbs the pulse.

The program presses the button 1000 times on the same table and multiplies
the total number of Low pulses by the total number of High pulses.

The model has five modules:

- `Circuit` (`circuit.dfy`): the pulse and module values, the name-to-module table, and the `Config` class that owns the table the presses update in place.
- `Parsing` (`parsing.dfy`): the builder, modelled twice:
  - as a specification (`Split`, `Declaration`, `Declared`, `Wire`, `Build`);
  - as the builder's three loops over one table (`DeclareAll`, `WireAll` with `LearnInputs` and `CollectMissing`, `AddSinks`), proved to compute `Build`.
- `Propagation` (`propagation.dfy`): one button press, modelled twice:
  - as reference semantics in which every pulse carries its sender (`Receive`, `Run`, `Press`);
  - as the program's own loop (`Iteration`).
  `Iteration` keeps a queue of (target, level) pairs and a second FIFO of sender names, which conjunctions pop. The proof shows that this side queue always holds exactly the senders of the queued pulses that go to conjunctions. So the pop never fails and pairs each pulse with its true sender, and `Iteration` computes exactly `Press`.
- `Driver` (`driver.dfy`): `solve`, that is, repeated presses on one table and the product of the totals.
- `Example` (`example.dfy`): the five-module sample of the puzzle statement.
  - The builder produces the expected table.
  - One press delivers 8 Low and 4 High pulses and restores every module.
  - Hence 1000 presses give 32000000.

The program's loop has no bound, and a network can keep pulses circulating
forever. Each press is therefore given a step bound `fuel`. A press that
reaches the bound with pulses still in flight is reported as unfinished, and
`Solve` then answers `None`.

## Model

| member | source | states |
|---|---|---|
| Circuit.Toggle | solutions/day20/solution_day20.py:34-35 | `flip` negates the status of a flip-flop and keeps its connections |
| Circuit.ToggleTwice | solutions/day20/solution_day20.py:34-35 | flipping twice restores the flip-flop |
| Circuit.Config.Flip | solutions/day20/solution_day20.py:117 | flips the named flip-flop in the shared table; no other entry changes and the table keeps its shape |
| Circuit.Config.Record | solutions/day20/solution_day20.py:126 | stores the sender's level in the named conjunction's history; the other history entries and the other modules are kept |
| Circuit.AllHighValues | solutions/day20/solution_day20.py:127 | the `all(...)` test holds exactly when no input last sent Low (true of an empty history) |
| Circuit.AllHighRecord | solutions/day20/solution_day20.py:126-127 | after recording a level from a sender, the test holds exactly when that level is High and every other input last sent High |
| Circuit.ClosedSameShape | solutions/day20/solution_day20.py:112 | connection lookups cannot fail in any table with the same names, kinds and wiring as a closed one |
| Parsing.WordLength | solutions/day20/solution_day20.py:63 | the first token ends at the first white space or at the end of the line |
| Parsing.Split | solutions/day20/solution_day20.py:63 | `split()` never yields an empty token |
| Parsing.SplitWords | solutions/day20/solution_day20.py:63 | tokens contain no white space; a line has no tokens exactly when it is all white space |
| Parsing.SplitJoin | solutions/day20/solution_day20.py:63 | splitting space-joined words returns the words |
| Parsing.StripCommasRemoves | solutions/day20/solution_day20.py:64 | removing commas leaves no comma and every other character as often as before |
| Parsing.StripCommasKeeps | solutions/day20/solution_day20.py:64 | a token without commas is unchanged, so removal is idempotent |
| Parsing.StripCommasAppend | solutions/day20/solution_day20.py:64 | removal keeps the order of the remaining characters |
| Parsing.StripCommasEach | solutions/day20/solution_day20.py:64 | no connection token keeps a comma |
| Parsing.Targets | solutions/day20/solution_day20.py:64 | one connection per token after the second: the i-th connection is the (i+2)-th token with its commas removed, so none holds a comma |
| Parsing.Declaration | solutions/day20/solution_day20.py:65-73 | a line declares a module exactly when its first character is `b`, `%` or `&`, and is skipped otherwise; `b` binds a broadcaster under the key `broadcaster`, `%` a flip-flop and `&` a conjunction under the rest of the first token; every declared module is fresh (a flip-flop off, a conjunction with an empty history) |
| Parsing.DeclarationTargets | solutions/day20/solution_day20.py:64 | the declared module's connections are the tokens after the arrow, with commas removed, in order |
| Parsing.Declarations | solutions/day20/solution_day20.py:62-73 | one declaration per line, each fresh |
| Parsing.Declared | solutions/day20/solution_day20.py:61-73 | after the first loop every module is fresh: no sinks yet, every flip-flop off, every conjunction with an empty history |
| Parsing.Store | solutions/day20/solution_day20.py:61-73 | storing the declarations leaves only fresh modules |
| Parsing.StoreName | solutions/day20/solution_day20.py:67-73 | a name is bound exactly when some declaration names it |
| Parsing.StoreLastWins | solutions/day20/solution_day20.py:67-73 | a name is bound to its last declaration |
| Parsing.DeclaredName | solutions/day20/solution_day20.py:62-73 | after the first loop, a name is in the table exactly when some line declares it |
| Parsing.DeclaredLastWins | solutions/day20/solution_day20.py:62-73 | a later line for the same name replaces the earlier module |
| Parsing.Senders | solutions/day20/solution_day20.py:84-85 | the senders of a module are names of the table, and a module nobody references has none |
| Parsing.AllLow | solutions/day20/solution_day20.py:84-86 | the learned history holds exactly the senders, each recorded as Low |
| Parsing.Wired | solutions/day20/solution_day20.py:81-86 | wiring keeps a module's kind and connections, changes only conjunctions, and gives a conjunction a history keyed by exactly its senders |
| Parsing.Wire | solutions/day20/solution_day20.py:75-89 | wiring keeps every declared name with its kind and connections, and every added name is a sink for a referenced name |
| Parsing.Build | solutions/day20/solution_day20.py:60-93 | the built table is closed: every connection names a module of the table |
| Parsing.BuildNames | solutions/day20/solution_day20.py:75-89 | the table holds the declared names plus every referenced name; declared modules keep their kind and connections, and the other names are sinks |
| Parsing.WireClosed | solutions/day20/solution_day20.py:75-89 | wiring closes any table |
| Parsing.BuildInitialState | solutions/day20/solution_day20.py:71-86 | in the built table every flip-flop is off, and every conjunction records Low from exactly the modules that connect to it |
| Parsing.SendersWired | solutions/day20/solution_day20.py:84-89 | sinks have no connections, so adding them changes nobody's senders |
| Parsing.SendersSameWiring | solutions/day20/solution_day20.py:84-85 | senders depend only on the connections |
| Parsing.LearnInputs | solutions/day20/solution_day20.py:83-86 | the inner loop adds every module that lists the conjunction as Low to its history; the rest of the table is unchanged |
| Parsing.LearnOne | solutions/day20/solution_day20.py:86 | recording one more sender as Low extends the learned history by that sender |
| Parsing.Missing | solutions/day20/solution_day20.py:77-80 | at most one name per connection is collected, and none of them is in the table |
| Parsing.MissingMembers | solutions/day20/solution_day20.py:77-80 | the collected names are exactly the connections that are not in the table |
| Parsing.CollectMissing | solutions/day20/solution_day20.py:77-80 | the loop appends the missing connections, in order |
| Parsing.DeclareAll | solutions/day20/solution_day20.py:61-73 | the first loop builds exactly the declared table |
| Parsing.WiredStep | solutions/day20/solution_day20.py:81-86 | one pass of the second loop wires one more module |
| Parsing.CollectedStep | solutions/day20/solution_day20.py:77-80 | one pass of the second loop collects that module's undeclared connections |
| Parsing.WireAll | solutions/day20/solution_day20.py:75-86 | the second loop keeps the names, teaches every conjunction its inputs, and collects exactly the referenced but undeclared names |
| Parsing.AddSinks | solutions/day20/solution_day20.py:88-89 | the third loop adds a sink for every collected name and keeps the other modules |
| Parsing.Parse | solutions/day20/solution_day20.py:60-93 | `parse` returns exactly `Build(lines)` |
| Propagation.Emit | solutions/day20/solution_day20.py:111-134 | a module sends one pulse per connection |
| Propagation.EmitPulses | solutions/day20/solution_day20.py:111-134 | the i-th pulse goes to the i-th connection, and every pulse carries the sender's name and the branch's level |
| Propagation.EmitAppend | solutions/day20/solution_day20.py:111-134 | each pass of an append loop adds one pulse at the end of the queue |
| Propagation.Receive | solutions/day20/solution_day20.py:110-137 | delivering a pulse changes only the receiver's state, keeps the table's shape, and sends only from the receiver to its connections |
| Propagation.ReceiveRules | solutions/day20/solution_day20.py:110-137 | each kind's rule: the broadcaster forwards; a flip-flop ignores High, and on Low flips and sends High exactly when it is on; a conjunction records the level and sends Low exactly when all its inputs are High; a sink absorbs |
| Propagation.Run | solutions/day20/solution_day20.py:104-141 | delivery in FIFO order keeps the table's shape and closure; the counters never decrease |
| Propagation.StepDeliverable | solutions/day20/solution_day20.py:105-141 | after a delivery every queued pulse still has a target in the table |
| Propagation.RunStep | solutions/day20/solution_day20.py:104-109 | one delivery pops the head, counts its level and appends what it sends |
| Propagation.Press | solutions/day20/solution_day20.py:99-100 | a press starts with one Low pulse to the broadcaster; it keeps the table's shape and closure |
| Propagation.CountsCover | solutions/day20/solution_day20.py:106-109 | every delivered pulse is counted as exactly one of Low or High |
| Propagation.DeliveredStep | solutions/day20/solution_day20.py:104-105 | the trace is the head pulse followed by the rest of the run's trace |
| Propagation.RunCounts | solutions/day20/solution_day20.py:104-109 | the returned counters are the Low and High counts of exactly the delivered pulses |
| Propagation.RunTrace | solutions/day20/solution_day20.py:104-105 | at most `fuel` pulses are delivered, all `fuel` when unfinished, and the first is the head of the queue |
| Propagation.PressCounts | solutions/day20/solution_day20.py:99-109 | the two counters add up to the number of delivered pulses, and the first delivery is the button's Low |
| Propagation.PressFinishedLow | solutions/day20/solution_day20.py:100-107 | a completed press counts at least one Low |
| Propagation.PressSink | solutions/day20/solution_day20.py:100-137 | when the broadcaster key holds a sink, a press counts exactly one Low pulse and changes nothing |
| Propagation.ConjunctionSendersAppend | solutions/day20/solution_day20.py:139-141 | the side queue of a concatenation is the concatenation of the side queues |
| Propagation.ConjunctionSendersSameShape | solutions/day20/solution_day20.py:140 | which pulses go to conjunctions depends only on the table's shape |
| Propagation.Enqueue | solutions/day20/solution_day20.py:111-134 | each branch's append loop queues its level to every connection, in order |
| Propagation.NoteConjunctionSenders | solutions/day20/solution_day20.py:139-141 | the loop appends the module's name once per connection that is a conjunction, in order |
| Propagation.Dispatch | solutions/day20/solution_day20.py:110-141 | one dequeued pulse updates the table as `Receive` does, queues what it sends, pops the side queue for a conjunction, and extends the side queue with the senders of the new conjunction-bound pulses |
| Propagation.AlignedHead | solutions/day20/solution_day20.py:105-126 | while the queues are aligned, the side queue is non-empty when a conjunction is served, and its head is the true sender of the pulse being served |
| Propagation.QueueStep | solutions/day20/solution_day20.py:105-134 | the main queue stays the sender-less image of the pulses in flight |
| Propagation.SideQueueStep | solutions/day20/solution_day20.py:126-141 | the side queue stays the senders of the conjunction-bound pulses in flight |
| Propagation.AlignedStep | solutions/day20/solution_day20.py:105-141 | one pass of the loop preserves the alignment of both queues with the pulses in flight |
| Propagation.Deliver | solutions/day20/solution_day20.py:105-141 | one pass of the loop delivers the head pulse exactly as `Receive` does, counts its level and keeps both queues aligned |
| Propagation.Iteration | solutions/day20/solution_day20.py:96-145 | `iteration` updates the shared table and returns the counts exactly as the reference `Press` does |
| Driver.Presses | solutions/day20/solution_day20.py:150-155 | repeated presses keep the table's shape and closure |
| Driver.PressesNext | solutions/day20/solution_day20.py:152-155 | each press adds its counts to the running totals, on the table the previous press left |
| Driver.PressesLowBound | solutions/day20/solution_day20.py:152-155 | after `n` completed presses the Low total is at least `n` |
| Driver.PressesPeriodic | solutions/day20/solution_day20.py:152-155 | if a press restores the table, `n` presses count `n` times its pulses and leave the table unchanged |
| Driver.PressAgain | solutions/day20/solution_day20.py:153-155 | one pass of the loop extends the totals exactly as `Presses` does |
| Driver.PressRepeatedly | solutions/day20/solution_day20.py:150-155 | the loop's totals and final table are exactly `Presses` |
| Driver.Solve | solutions/day20/solution_day20.py:148-156 | the answer is the product of the Low and High totals over `n` presses of the built table |
| Example.SamplePress | solutions/day20/solution_day20.py:96-145 | one press of the sample delivers 8 Low and 4 High pulses and restores every module |
| Example.SampleThousandPresses | solutions/day20/solution_day20.py:148-156 | 1000 presses of the sample give 8000 × 4000 = 32000000 |
| Example.ArrowLine | solutions/day20/solution_day20.py:63-73 | a line `%x -> y` or `&x -> y` with a single target declares `x` as a fresh flip-flop or conjunction connected to `y` alone |
| Example.SampleBuild | solutions/day20/solution_day20.py:60-93 | the builder turns the sample text into the sample table |
| Example.SampleAnswer | solutions/day20/solution_day20.py:148-156 | `solve` on the sample text, with 1000 presses, answers 32000000 |

## Left out

- `load` (file reading and `strip`), logging, `__repr__`, timing and the `__main__` block are I/O. The lines are a parameter of `Solve`.
- The commented-out cache in `iteration` and `solve` is dead code.
- Driver.Solve: the number of presses is a parameter `n`, where the program fixes 1000. The example instantiates it with 1000.
- Driver.Solve: each press is bounded by `fuel` deliveries, and a press that hits the bound makes the answer `None`. The program's loop is unbounded and would not return on a network that never goes quiet.
- Queue entries are module names rather than module objects. Every module's `name` equals its table key, so the name field is dropped and the key stands for it.
- The `if conn in config` guard on the conjunction's High branch is not modelled as a separate branch. After `parse`, every connection is a key of the table (`Parsing.Build` ensures `Closed`), so the guard always holds.
- `Parsing.Tokenisable`: a blank line makes `parse` index an empty token list and raise `IndexError`. The model requires every line to have a token instead of modelling the exception.
- `Driver.Solve`: input in which no line declares or references `broadcaster` makes `iteration` raise `KeyError`. The model requires the broadcaster key to be in the built table. A name that is only referenced becomes a sink under that key, and a press of it counts one Low pulse.
- `Driver.Solve`: if the broadcaster key is bound to a conjunction (a line `&broadcaster -> …`), the first pop of the side queue raises `IndexError`. The model requires that this is not so.
- Dictionary iteration order is not modelled. The loops of `parse` take the names in any order (`:|`). Their results do not depend on it: conjunction histories are maps, and the collected sink names are used only as a set.
