# Elevator kernel module: model and proofs

This project models the elevator of part 3: a kernel module with ten floor queues, ten lists of riders
(one for each destination), load counters kept beside the lists, a worker thread that alternates a load
phase with a move phase, and three system calls that get in between the phases. It proves what every
interleaving of these steps keeps, when exactly everybody is served, what a stop leads to, and what the
proc entry shows.

## How it is built

- `Types`, `Lists`, `Sweep`: passengers, counters, lists; the path of the car as a closed form.
- `Machine`: each operation as a function on the module's state. The state carries a log (queued, boarded,
  delivered, freed at exit) that the module itself does not store.
- `System`: the state machine. A run is any sequence of steps: the worker's next phase, the part of a
  request before the lock, the part under it, a start, a stop. A request is two steps because the shutdown
  flag is read outside the lock, so that a request may be queued after a stop.
- `Structures`, `Kernel`: the elevator and the building as objects updated in place, with the methods and
  loops of the module. Each method is proved to compute the function of `Machine` or the step of `System`;
  `RunElevator` is proved to end in the state of the run made of its phases and of the system calls that get
  in, and every run is shown to be of that kind.
- `Safety`, `Loading`, `Invariant`, `Ledger`: what holds in every state of every run (`Inv`), and what it
  means for people and counters.
- `Delivery`, `Draining`, `Shutdown`, `Restart`: theorems over runs. They ask for `Inv`, which
  `EveryRunIsSafe` gives for every state the module can reach.
- `Simple`: a plain elevator with one list of riders and no counters, which the module refines.
- `Decimal`, `Printer`, `Reader`: the text of the proc entry.

Flags that the module only sets to 0 or 1 (`shutdown`, `direction`) are booleans. A passenger's `id` stands
for the node's address. A value outside a C enumeration is `Unknown` or `NotSet`, so that the branches for
it are there; no run produces one.

## What the code does that one might not expect

- **A stop can be final.** If a car on duty is stopped while nobody waits and no request is in flight, it
  ends up idle with the shutdown flag set: a start then does nothing, because the car is not offline, and
  every request is refused. `RecoversExactlyUnlessStuck` says for every state whether the module can serve
  again, and `StuckIsReachable` that it can get there. (The comment above `start_elevator`,
  part3/elevator/elevator.c:185-186, says that an offline elevator makes it return 1; the code returns 1
  when the elevator is *not* offline, and the model follows the code.)
- **One kind of request is never served.** Somebody at floor 1 who asks for floor 1 counts as going down,
  and the car never leaves floor 1 headed down, except right after some restarts. Such a request, and
  everybody behind it in that queue, waits as long as nothing but the worker runs; everybody else is served,
  within the stated bound. `ServesAllButHeldUp` and `DrainsExactlyUnlessBlocked` say so exactly.
- **A restart keeps the direction.** The car can be at floor 1, bound for floor 2, with the direction "down"
  (`StaleIsReachable`). It goes to floor 2 and back to floor 1 and is then on its normal sweep.

## Model

| member | source | states |
|---|---|---|
| Sweep.ClosedForm | part3/elevator/elevator.c:117-138 | From position k of the 18-position sweep, n moves lead to position (k + n) mod 18, for every n; position k is floor min(k, 18 - k), headed up exactly when k < 9 |
| Sweep.EveryPositionOnce | part3/elevator/elevator.c:117-138 | Any 18 consecutive moves pass every sweep position exactly once: floors 1..8 once in each direction, floors 0 and 9 once |
| Sweep.FirstVisit | part3/elevator/elevator.c:117-138 | The closed-form time `MovesTo` is that of the first visit to a floor: the car is there then and not before |
| Sweep.AheadAfterMove | part3/elevator/elevator.c:117-138 | A floor strictly ahead is still ahead, or just reached, after any move, the turns included |
| Sweep.StaleHeals | part3/elevator/elevator.c:117-138 | Two moves from the stale restart position lead to the bottom of the normal sweep |
| Restart.RestartPosition | part3/elevator/elevator.c:195-202 | A start that takes effect puts the car at the start of the sweep or at the stale position, by the direction it was stopped in; two moves later it is on the sweep |
| Restart.StaleIsReachable | part3/elevator/elevator.c:195-202 | Some run reaches the stale position, so the position invariant cannot do without it |
| Structures.Elevator.constructor | part3/elevator/elevator.h:110-129 | The loop leaves ten empty lists; offline, empty, at the bottom, headed up |
| Structures.Building.constructor | part3/elevator/elevator.h:131-148 | The loop leaves ten empty queues with zero counters and their own level |
| Structures.Building.AddPass | part3/elevator/elevator.h:151-187 | Appends to the start floor's queue and raises that floor's counters, and nothing else; ignores an unknown kind |
| Structures.Building.DelPass | part3/elevator/elevator.h:190-228 | Unlinks and frees a rider, lowers the car's counters, counts one serviced at the start floor, and nothing else |
| Structures.Building.MovePass | part3/elevator/elevator.h:232-273 | Moves a node from its queue to the tail of its destination's list and its units from the floor's counters to the car's, and nothing else |
| Structures.Building.CheckBuilding | part3/elevator/elevator.h:382-392 | True exactly when some queue is not empty |
| Structures.Building.CheckElevator | part3/elevator/elevator.h:395-405 | True exactly when some list of riders is not empty |
| Safety.AddPassGood | part3/elevator/elevator.h:151-187 | Queueing keeps accounting, capacity, both FIFO orders, and the service counts |
| Safety.MovePassGood | part3/elevator/elevator.h:232-273 | Boarding the head of a queue, if it fits, keeps them all |
| Safety.DelPassGood | part3/elevator/elevator.h:190-228 | Letting off the first of a list keeps them all |
| Lists.RemoveFirst | part3/elevator/elevator.h:223-270 | Unlinking a node takes out its first occurrence, and all other nodes keep their order |
| Safety.MovePassAnyone | part3/elevator/elevator.h:232-273 | Wherever the passenger stands in the queue: exactly that node goes to the tail of the list of its destination, no other list changes, and every counter of floor and car still equals the sum over its lists |
| Safety.DelPassAnyone | part3/elevator/elevator.h:190-228 | Wherever the rider stands in the list: exactly that node goes, one more is serviced at the start floor, no other list changes, and every counter still equals the sum over its lists |
| Safety.UnloadGood | part3/elevator/elevator.c:58-73 | The unloading loop keeps them all |
| Safety.BoardGood | part3/elevator/elevator.c:76-91 | The loading loop keeps them all: the car never holds more than 30 half units or 10 places |
| Loading.UnloadOutcome | part3/elevator/elevator.c:58-73 | The unloading loop delivers the whole list of the current floor in order, so its destination test never fails, and touches no other list |
| Loading.BoardOutcome | part3/elevator/elevator.c:76-91 | The loading loop moves a prefix of the queue, in order, each to the tail of the list of its destination |
| Loading.LongestPrefix | part3/elevator/elevator.c:81-90 | The number that boards is n if and only if each of the first n goes the car's way (up if the destination is above the start) and fits, with all before it aboard, within 30 half units and 10 places, and the next one, if any, does not |
| Loading.LoadPhaseOutcome | part3/elevator/elevator.c:49-97 | A load phase, said without loops: everybody for this floor gets off, exactly the longest boardable prefix gets on (nobody after a stop), position, other queues and other lists stay |
| Loading.LoadLeavesNobodyBehind | part3/elevator/elevator.c:74-93 | After a load phase on duty the queue is empty, or its head goes the other way, or would make the load more than 30 half units or 10 places |
| Invariant.StepHeading | part3/elevator/elevator.c:81-138 | No rider who changes floors ever travels the wrong way: the destination is strictly ahead after a load phase, and ahead or just reached after a move |
| Invariant.StepTickets | part3/elevator/elevator.c:166-178 | Every allocated passenger is a different one, and is either still in flight or was queued exactly once |
| Invariant.RunKeepsInv | part3/elevator/elevator.c:47-231 | Any further sequence of worker phases and system calls keeps the whole invariant |
| Invariant.EveryRunIsSafe | part3/elevator/elevator.c:47-231 | After every interleaving: lists in their right places, counters equal to sums over lists, capacity, FIFO, heading, ownership, an empty car when offline, a status that agrees with the direction |
| Ledger.FifoOverRuns | part3/elevator/elevator.c:60-91 | After any run: queued at i = boarded at i, then still waiting, in order; boarded for j = delivered at j, then still aboard, in order |
| Ledger.PositionOverRuns | part3/elevator/elevator.c:117-202 | After any run current and next are floors 0..9, and the car is on the sweep or parked at the stale position where a restart put it |
| Ledger.Conservation | part3/elevator/elevator.h:151-273 | For every passenger: times queued = times waiting + times aboard + times delivered |
| Ledger.ExactlyOnePlace | part3/elevator/elevator.h:151-273 | Everyone ever queued is waiting, aboard or delivered, exactly one of the three, and nobody else is in any |
| Ledger.ServicedCount | part3/elevator/elevator.h:222-222 | Floor by floor: queued = waiting + aboard from that floor + serviced |
| Ledger.CountersDecode | part3/elevator/elevator.h:110-290 | No counter is negative, weight = 2 adult + child + 4 room + 8 bell, places = adult + child + 2 room + 2 bell, for the car and every floor; the car holds 0 to 30 half units, 0 to 10 places, and at most ten people |
| Ledger.RequestCounted | part3/elevator/elevator.c:159-178 | A request is admitted if and only if its kind is 1..4, both floors are 1..10 and no stop is in force; queued, it raises its floor's weight by 2, 1, 4, 8, the places by 1, 1, 2, 2 and the count of adults, children, room services, bellhops by one, by kind, stands last in that floor's queue with both floors lowered by one, and changes nothing else |
| Ledger.OfflineIsEmpty | part3/elevator/elevator.c:111-202 | Offline, nobody is aboard and the load is zero; so a start that takes effect displaces nobody, and a start with anybody aboard does nothing |
| Ledger.ExitFreesEverything | part3/elevator/elevator.c:339-363 | The exit loops empty all twenty lists, freeing from floor 0 to 9 the riders and then the queue, and change nothing else; everything ever queued has then been freed, no passenger twice; allocated = freed + still in flight |
| Delivery.BoardingPlace | part3/elevator/elevator.c:76-91 | Whoever boards is at their start floor and goes the car's way |
| Delivery.ExactDelivery | part3/elevator/elevator.c:53-139 | From any state, a rider stays aboard until exactly the move phase of the car's first visit to the destination, and gets off in the load phase that follows, in every run |
| Delivery.BoardedThenDelivered | part3/elevator/elevator.c:53-139 | From boarding to getting off: exactly the distance in move phases if the floors differ; otherwise exactly one return trip, at most 18; whatever system calls come |
| Draining.MeasureDecreases | part3/elevator/elevator.c:47-144 | As long as anybody rides, or waits without being held up, every round on duty strictly lowers the bound on the rounds still needed, whoever else is held up |
| Draining.BlockedStays | part3/elevator/elevator.c:81-90 | A round leaves any given person who waits at the bottom for the bottom in the queue |
| Draining.BlockedForever | part3/elevator/elevator.c:81-90 | Whoever waits at the bottom for the bottom is still there after any number of rounds |
| Restart.BlockedIsReachable | part3/elevator/elevator.c:161-202 | Some run leads to a car on duty with such a person waiting |
| Draining.ServesAllButHeldUp | part3/elevator/elevator.c:47-144 | On duty, with w waiting whom nobody holds up and no further calls, after 36w + 18 rounds or more nobody is aboard, the nine upper queues are empty, the queue at the bottom is what it was from the first person bound for the bottom on, and all others are delivered |
| Draining.DrainsExactlyUnlessBlocked | part3/elevator/elevator.c:47-144 | So within that bound the building is empty, and all are delivered, if and only if nobody waited at the bottom for the bottom |
| Draining.ServesAllButHeldUpFromLoad | part3/elevator/elevator.c:47-144 | The same when a load phase is due, in terms of the state before it; at the stale position those who board in it no longer count |
| Draining.DrainsFromLoadPhase | part3/elevator/elevator.c:47-144 | When a load phase is due, the building empties and all are delivered if and only if nobody waits at the bottom for the bottom, not counting, at the stale position, those who board in that phase |
| Shutdown.NobodyBoardsAfterStop | part3/elevator/elevator.c:74-74 | From a stop until a start that takes effect nobody boards, no request is admitted, and queues change only by appends of requests already in flight |
| Shutdown.EveryoneGetsHome | part3/elevator/elevator.c:53-139 | Within 18 move phases of a stop the car is empty, whatever else happens |
| Shutdown.StopParks | part3/elevator/elevator.c:100-142 | After any stop, with no further calls, the car has parked for good within 39 phases of the worker: offline if and only if it was offline or somebody was waiting, otherwise idle with the flag set; the car empty, the queues untouched |
| Shutdown.StuckForever | part3/elevator/elevator.c:161-207 | Shut down, not offline, nobody waiting, nothing in flight: no sequence of steps ever leads out of it |
| Shutdown.StuckIsReachable | part3/elevator/elevator.c:190-231 | Some run leads to such a state: a start and a stop |
| Shutdown.RecoversExactlyUnlessStuck | part3/elevator/elevator.c:107-231 | In any state some continuation admits a request if and only if no stop is in force, or the car is offline, or somebody waits, or a request is in flight |
| Simple.SameEmptiness | part3/elevator/elevator.h:382-405 | The two checks over ten lists are emptiness of the plain elevator's queues and riders |
| Simple.SameBoarding | part3/elevator/elevator.h:364-370 | Counters kept by hand admit exactly those whom adding up the load afresh admits |
| Simple.BusyLoadShows | part3/elevator/elevator.c:55-93 | Emptying one destination's list is removing all riders bound for that floor from one flat list |
| Simple.RunShows | part3/elevator/elevator.c:47-231 | From any state that shows a plain elevator's, any run shows the plain elevator's run |
| Simple.ModuleIsPlainElevator | part3/elevator/elevator.c:47-231 | On every run from the start the module shows the same queues, deliveries in the same order, riders, position and status as a plain elevator without counters or buckets |
| Kernel.Module.constructor | part3/elevator/elevator.c:308-309 | The module starts in the initial state of the state machine |
| Kernel.Module.UnloadRiders | part3/elevator/elevator.c:58-73 | The loop computes the unloading function and keeps the invariant at every node |
| Kernel.Module.BoardWaiting | part3/elevator/elevator.c:76-92 | The loop computes the loading function and keeps accounting and both capacity limits at every passenger |
| Kernel.Module.LetOffAndOn | part3/elevator/elevator.c:57-93 | First everybody off, then, if the queue is not empty and no stop is requested, on |
| Kernel.Module.LoadPhase | part3/elevator/elevator.c:49-97 | Is the worker's load step and keeps the invariant |
| Kernel.Module.Advance | part3/elevator/elevator.c:117-138 | The four branches are one move along the sweep, with the status of the new direction |
| Kernel.Module.MovePhase | part3/elevator/elevator.c:100-142 | Is the worker's move step and keeps the invariant |
| Kernel.Module.RequestCheck | part3/elevator/elevator.c:161-172 | Returns 0 exactly for kind 1..4, floors 1..10 and the flag not set, and 1 otherwise, changing nothing; 0 means one new passenger in flight, of kind adult, child, room service, bellhop by number, weighing 2, 1, 4, 8 half units on 1, 1, 2, 2 places |
| Kernel.Module.RequestEnqueue | part3/elevator/elevator.c:175-178 | Queues a passenger in flight, a stop in between notwithstanding |
| Kernel.Module.StartElevator | part3/elevator/elevator.c:190-207 | Returns 1 and changes nothing unless offline; then resets status, floors and flag but not the direction |
| Kernel.Module.StopElevator | part3/elevator/elevator.c:218-231 | Sets the flag; returns 1 if it was set |
| Kernel.Module.RunElevator | part3/elevator/elevator.c:47-144 | The thread, with any system calls before it and in its two sleeps, ends in the state of the run of all these steps in order |
| Kernel.EveryRunIsASchedule | part3/elevator/elevator.c:47-144 | Every sequence of steps is such a schedule, possibly cut off within its last round |
| Kernel.Module.FreeRiders | part3/elevator/elevator.c:344-352 | Empties one list of riders, freeing its nodes in order |
| Kernel.Module.FreeWaiting | part3/elevator/elevator.c:354-362 | Empties one queue, freeing its nodes in order, and leaves the floor's counters alone |
| Kernel.Module.ElevatorExit | part3/elevator/elevator.c:339-363 | Empties all twenty lists, floor by floor; what was freed is what was queued, as often, and with what is still in flight makes up what was allocated |
| Decimal.NaturalLength | part3/elevator/elevator.h:313-347 | A number prints in at most k digits if and only if it is below 10 to the k |
| Decimal.IntegerLength | part3/elevator/elevator.h:313-347 | An integer prints in at most 11 characters, sign included, if and only if it is above -10^10 and below 10^11; so every 32-bit number does |
| Decimal.IntegerExactly | part3/elevator/elevator.h:313-347 | A text is that of an integer if and only if it consists of digits of that value without a leading zero, behind a minus sign exactly if the integer is negative |
| Printer.PrintStats | part3/elevator/elevator.h:304-352 | The pieces printed one after the other, the flag for halves set and reset on the way, make up the text, and the result is its length |
| Printer.FloorLineLength | part3/elevator/elevator.h:331-347 | A floor's line has at most 74 characters, 75 for floor 10, for any 32-bit numbers |
| Printer.FloorLinesLength | part3/elevator/elevator.h:322-349 | The ten floor lines need at most 741 characters, for any 32-bit numbers |
| Printer.TextFits | part3/elevator/elevator.h:304-352 | For all 32-bit counters and every status, text and terminator need at most 855 of the 1024 bytes |
| Reader.LoadBack | part3/elevator/elevator.h:317-320 | Reading, which tells the format with a second space from the one with a half, undoes printing of the load line |
| Reader.FloorBack | part3/elevator/elevator.h:329-348 | Reading undoes printing of a floor's line, to the half unit, for any integers |
| Reader.TextExactly | part3/elevator/elevator.h:304-352 | For every state, whatever its counters, a text is the one printed if and only if it reads back as what the state shows: status, both floors, and for the car and every floor places, weight to the half unit and service counts |
| Reader.PrintsAlikeIff | part3/elevator/elevator.h:304-352 | Any two states print the same text if and only if they show the same; since the division is towards zero, a weight of -1 half unit prints like one of 1, and no other two weights print alike |
| Reader.GoodShowsAll | part3/elevator/elevator.h:304-352 | In every state of every run what is shown is exact |

## Left out

- Kernel plumbing: proc file operations, copying to user space, thread creation, sleeping, log messages, module registration.
- Failure of the interruptible lock and of memory allocation: each critical section is one atomic step, and allocation yields a new passenger.
- The pointers of the kernel's linked lists, which are not part of this model: a list is a sequence reassigned in place, and a loop over it remembers the nodes still to visit before it deletes one.
- Reuse of a freed node's address: ids are never reused.
- `find` and `hasSpace`, which nothing calls.
- Wrap-around of the 32-bit counters: counters are mathematical integers; only the printer's bound speaks of 32-bit values.
- Service under endless new arrivals: a heavy passenger at the head of a queue may find the car full on every sweep, so draining is stated for runs with no further requests.
- Parts 1 and 2, the system call stubs, the test drivers and the course examples.
