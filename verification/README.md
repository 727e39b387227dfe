# A model of the detection engines, the event ring and the verdict rendezvous

The system watches a machine's events and decides, event by event, whether an attack pattern has advanced
far enough to inspect, block or disarm an actor. Two parts carry the difficulty.

**The detection engines.** Every known entity belongs to a *storyline*. An event links its actor and its
target, so their storylines merge; the rule patterns' automata live in storylines and merge with them; a
*disarm* strips an actor of operations for good. Four engines do this over the same stream. `base` keeps the
provenance graph and matches fixed step sequences; `v0_0_1` drops the graph; `v0_0_2` matches partial orders
of steps, recording progress as a bit set; `v0_0_2_bounded` does what `v0_0_2` does on fixed arrays, with
open-addressing hash tables and ceilings on everything. The older userland engine (`v1`) merges storylines by
union-find with path compression.

**The event ring.** The sensor's threads publish frames into memory shared with the service: a compare-and-swap
reserves a range, a mirror of the head is raised in whatever order the threads get there, pads fill the end
of the ring, and the frame's own TotalSize, stored last, is its commit flag. The service consumes, zeroes
TotalSize, then moves the tail. It sleeps behind a store-then-load handshake, and answers enforcement
requests through a table of waiting threads.

Each engine, container, ring end and codec is imperative Dafny (arrays, mutated fields, loops) proved against
a specification; the concurrent protocols are step systems over single loads, stores and byte copies. Capacities,
the hash function, the number of producers and of callers, and every stream are arbitrary.

How the files build on each other:

* `Events`, `Multisets`, `Storylines`, `Offers` - vocabulary, and storylines as a map from key to (members,
  multiset of automata, time), with the ceilings as a parameter. `StepMeaning`, `LinkMeaning`, `DagMeaning`,
  `LinearMeaning` - what a step, a link and an event mean, in the rules' own fields and nothing else: the
  engines' `OnEvent` promises that too.
* `DagSpec` - the reference semantics of partial-order matching; `EngineV002` (over `LineStore`, `LineTable`,
  `Detector`) and `BoundedEngine` (over `ProbeMap`, `Slab`) refine it; `Ceilings`, `OverEnforcement`,
  `CeilingWitnesses` and `Replay` compare the two; `PartialOrder` and `Completion` relate it to the rule compiler.
* `LinearSpec` - the reference semantics of fixed sequences; `EngineV001` and `EngineBase` (over
  `LinearAdvance`, `Graph`) refine it; `Chain` embeds it in `DagSpec`; `Bitmasks` relates bit sets to words.
* `UnionFind`, `StorylinesV1`, `EngineV1` - the v1 engine.
* `LittleEndian`, `RingLayout`, `Modular` - bytes, reservations, remainders; `RingBuffer` - the ring with whole
  operations; `RingSteps`, `RingSafety`, `RingProof`, `RingRuns` - the ring step by step, for frames of any
  lengths; `RingOneLength` and `RingMixed` - when its commit flag can be trusted; `RingGuarantees`, `RingDrops` -
  what its runs deliver and drop (`RingReach` drives it); `Doorbell` - sleeping and waking under x86-TSO;
  `PendingVerdicts`, `Verdicts` - the rendezvous.
* `Codecs`, `WireFormat`, `Wire` - the ruleset formats ERL1 and ERD1; `WireLayout`, `Utf8Text` - their bytes one
  by one; `RulesOnWire` - the machine words of the format against the masks the engines match. `Entropy` - the
  entropy test.

## Where the code and its documentation disagree

The model follows the code.

* `engine_core/src/v0_0_2_bounded.rs:372-375` says the bounded engine's verdict is never stronger than v0.0.2's.
  `OverEnforcement.BoundedCanBeStronger` gives 28 events at the shipped ceilings for which it is. What does hold:
  equality up to the first ceiling (`Ceilings.EqualWhileClear`), with the state differing from exactly that event
  on (`Ceilings.FirstCeilingIsFirstDifference`); the claimed order up to and including the first event over a
  ceiling, whichever it is (`Ceilings.FirstCeilingEventIsSafe`); and the claimed order on whole runs where only
  seeds are dropped and no step disarms (`Ceilings.DroppedSeedsOnlyWeaken`). Each part of that last hypothesis
  is needed: `CeilingWitnesses` has a run for a dropped seed beside a disarming step, for a failed lookup and
  for a lost disarm.
* `endpoint_service/src/ringbuf.rs:369-371` says `used > data_size` is unreachable without tampering. A producer that
  loads the head, waits, and then loads a tail that has passed it gets there: `RingDrops.EmptyRingDrops` reaches
  an empty ring that drops a frame. `RingGuarantees.DropsExactlyWhen` says when a frame is dropped.
* `endpoint_service/src/ringbuf.rs:41-45` says zeroing TotalSize before the tail moves keeps "0 == uncommitted" true
  once the ring wraps. Only four bytes of a frame are zeroed, so a shorter or longer frame can start on old
  body bytes. `RingMixed.TrustedIffOneLength`: over all runs the flag tells the truth if and only if no two
  frames have different lengths. `RingProof.CasWinsKeepsIffClean` is the exact condition step by step, and
  `RingGuarantees` holds of every run of one length and of every run that meets it.
* `endpoint_service/src/ringbuf.rs:401-405` keeps the larger of two heads as the mirror, while the head itself wraps at
  2^64. `RingBuffer.Ring.Publish` leaves the ring in order exactly when the new head stays below 2^64.
* `endpoint_service/src/ringbuf.rs:276-287` asks for a full fence on both sides of the handshake on x86-TSO.
  `Doorbell.ConsumerFenceDecides`: there no wakeup is lost if and only if the consumer has its fence; the
  producer's locked update of the mirror already does the work of the other. (Under a weaker memory model
  both may be needed; the theorem is about TSO.)
* `sensor/windows_driver/SnsDrv/Ring.cpp:446-457` commits a pad and returns before the doorbell check when serialising
  an event fails, so a sleeping consumer can have an unread pad in front of it: `Doorbell.GivenUpPadWaits`. No frame
  is missed by that. The ring a stranded consumer sleeps on is empty if and only if the consumer has passed the
  last position a publish gave up at (`Doorbell.NothingMissed`, proved of every run with the consumer's fence).
* `engine_core/src/v0_0_2.rs:149-166` lets one event commit several steps of an automaton, `engine_core/src/v0_0_1.rs:147-156`
  only one. `Chain.ChainIsLinear`: rewritten as chains, the rules keep the two engines in corresponding states
  for exactly as long as no event is offered to an automaton that waits for two matching steps in a row.

## Model

| member | source | states |
|---|---|---|
| EngineV002.Engine.OnEvent | engine_core/src/v0_0_2.rs:60-169 | verdict and whole new state (partition of keys, automata multisets, disarm map) are those of the unbounded reference step, for every valid engine state, and are the right answer in the rules' own fields |
| StepMeaning.FiresIs | engine_core/src/rules.rs:36-40 | a step matches exactly when the operation is listed, bit by bit, or none is, and every technique it lists is present |
| DagMeaning.CommittedExactly | engine_core/src/v0_0_2.rs:149-166 | the steps committed in a pass are exactly those that match, are not done and have their prerequisites, counting what earlier steps of the pass did |
| DagMeaning.AnswersRightly | engine_core/src/v0_0_2.rs:60-169 | under any ceilings: a stripped operation is blocked and changes nothing; otherwise the root steps that match each seed one automaton as far as there is room, every automaton gains exactly the bits it commits, and the event is disarmed if a committed step disarms, else blocked if one blocks, else inspected if one commits, else ignored; the actor loses exactly what the disarming steps name |
| DagMeaning.NothingFires | engine_core/src/v0_0_2.rs:136-166 | an event that matches no step of any rule is ignored and leaves automata and disarms as they were |
| LinkMeaning.LinkIsRight | engine_core/src/v0_0_2_bounded.rs:105-177 | under any ceilings: which lookup fails and what it leaves; whose members and automata become one, with the later activity; and that every other key keeps its storyline |
| EngineV002.OfferSteps | engine_core/src/v0_0_2.rs:155-164 | the loop over the steps of one automaton leaves the done set, the verdict and the disarm map of one in-order pass |
| LineStore.Store.MergeLines | engine_core/src/v0_0_2.rs:110-126 | union by size makes one storyline of two: members united, automata multisets added, later time kept, every other storyline untouched |
| LineStore.Store.Unify | engine_core/src/v0_0_2.rs:85-108 | after resolving and merging, the storylines are those of the reference link, whichever side absorbed the other |
| BoundedEngine.Engine.OnEvent | engine_core/src/v0_0_2_bounded.rs:94-219 | for every capacity and hash function, in every case including every ceiling, verdict and new state are those of the reference step under the same ceilings, and are the right answer in the rules' own fields |
| BoundedEngine.Engine.Unify | engine_core/src/v0_0_2_bounded.rs:105-112 | links as the reference does, or reports full with the state of the failed lookup; the final lookup of the actor always finds its line |
| BoundedEngine.Engine.ResolveLine | engine_core/src/v0_0_2_bounded.rs:115-135 | get-or-create fails exactly when the entity table or the line slab is full, and then changes nothing; no other key changes line |
| BoundedEngine.Engine.MergeLines | engine_core/src/v0_0_2_bounded.rs:138-177 | the two lines become one, members and automata added, exactly when both sums stay within the ceilings; otherwise nothing changes |
| BoundedEngine.Engine.AllocLine | engine_core/src/v0_0_2_bounded.rs:230-242 | takes a free record, or reports that there is none |
| BoundedEngine.Engine.AdvanceLine | engine_core/src/v0_0_2_bounded.rs:180-219 | seeds what fits, then runs every automaton of the line: the reference advance under the ceilings |
| BoundedEngine.Engine.Strip | engine_core/src/v0_0_2_bounded.rs:269-285 | the actor's stripped operations grow by the mask, unless the actor is new and the table full |
| BoundedEngine.Engine.EachEntitySitsOnce | engine_core/src/v0_0_2_bounded.rs:36-59 | in every valid state each stored entity sits at one position of one live line, the one its table entry names; freed lines are empty; counters respect the ceilings |
| ProbeMap.Map.Lookup | engine_core/src/v0_0_2_bounded.rs:244-256 | linear probing finds a stored key with its value and nothing else, for any hash function, up to a completely full table |
| ProbeMap.Map.Put | engine_core/src/v0_0_2_bounded.rs:119-127 | filling the slot a lookup ended at adds that one binding and keeps every other key findable |
| ProbeMap.Map.Set | engine_core/src/v0_0_2_bounded.rs:278-281 | overwriting a slot changes the binding of the key stored there and no other |
| Ceilings.SameStateIffNoCeiling | engine_core/src/v0_0_2_bounded.rs:105-219 | from one state, one event leaves the two engines in equal states if and only if it hits no ceiling, a test on the state before the event |
| Ceilings.EqualWhileClear | engine_core/src/v0_0_2_bounded.rs:372-375 | on every stream, while no event hits a ceiling, all verdicts and the whole state agree |
| Ceilings.FirstCeilingIsFirstDifference | engine_core/src/v0_0_2_bounded.rs:372-375 | the first event over a ceiling is exactly the first after which the states differ |
| Ceilings.OneEventNeverStronger | engine_core/src/v0_0_2_bounded.rs:372-375 | from equal states no single event gets a stronger bounded verdict, whichever ceiling it hits |
| Ceilings.FirstCeilingEventIsSafe | engine_core/src/v0_0_2_bounded.rs:372-375 | on every stream no verdict is stronger up to and including the first event over a ceiling |
| Ceilings.DroppedSeedsOnlyWeaken | engine_core/src/v0_0_2_bounded.rs:187-199 | when dropped seeds are the only ceiling hit and no step disarms, bounded automata stay a sub-multiset and no bounded verdict is stronger, on every run |
| CeilingWitnesses.DroppedSeedStrengthens | engine_core/src/v0_0_2_bounded.rs:187-199 | with room for one automaton and a step that disarms, a run that hits no ceiling but one dropped seed blocks what v0.0.2 ignores, whatever the other ceilings |
| CeilingWitnesses.FailedLookupStrengthens | engine_core/src/v0_0_2_bounded.rs:115-135 | with room for one entity a failed lookup leaves a step open, and a later event is blocked that v0.0.2 ignores, though no step disarms |
| CeilingWitnesses.LostDisarmStrengthens | engine_core/src/v0_0_2_bounded.rs:269-285 | with room for one disarmed actor the next one keeps its operation, and using it disarms where v0.0.2 blocks |
| OverEnforcement.BoundedCanBeStronger | engine_core/src/v0_0_2_bounded.rs:149-151 | at the shipped ceilings a refused merge lets the bounded engine block an event v0.0.2 ignores |
| Replay.BothVerdicts | engine_replay/tests/replay.rs:55-68 | fed one stream, each engine reports exactly its reference run's verdicts |
| Replay.Differential | engine_core/src/v0_0_2_bounded.rs:376-420 | differential run of both engines: equal verdicts while clear of ceilings, never stronger when only seeds drop |
| Replay.LinearDifferential | engine_replay/tests/replay.rs:70-73 | base and v0.0.1 give the same verdict at every event, and the same member set for any key after each |
| DagSpec.DisarmIsForever | engine_core/src/v0_0_2_bounded.rs:287-299 | once an actor has lost an operation every later attempt is blocked and changes nothing, under any ceilings |
| DagSpec.RunKeepsPartition | engine_core/src/v0_0_2.rs:85-126 | in every run, bounded or not, the storylines partition the known keys |
| EngineV001.Engine.OnEvent | engine_core/src/v0_0_1.rs:59-159 | verdict and whole new state are those of the linear reference step, and are the right answer in the rules' own fields |
| LinearMeaning.AnswersRightly | engine_core/src/v0_0_1.rs:128-159 | each pattern whose first step matches starts one automaton at stage 1, every automaton whose next step matches moves one stage with the event's time, and the actions of all those steps make the verdict and the actor's losses |
| EngineV001.Engine.StorylineOf | engine_core/src/v0_0_1.rs:73-76 | the member set of the key's storyline, or none for an unknown key |
| EngineBase.Engine.OnEvent | engine_core/src/base.rs:68-180 | verdict and state of the linear reference step, right in the rules' own fields; one edge recorded per ungated event and both ends with the kind they were first seen as; the storylines stay the connected components of the edges |
| EngineBase.Engine.MergeLines | engine_core/src/base.rs:130-146 | union by size neither loses nor copies a member or an automaton |
| EngineBase.Engine.StorylineOf | engine_core/src/base.rs:93-96 | exactly the keys connected to the given one, and none exactly when no edge touches it |
| Graph.StorylinesAreComponents | engine_core/src/base.rs:92-96 | two keys share a storyline if and only if they are connected in the undirected graph of the edges |
| Graph.LinkKeepsComponents | engine_core/src/base.rs:80-82 | adding an edge and merging its ends keeps storylines equal to components |
| Graph.ConnectedWithLast | v1/engine/src/lib.rs:189-199 | one more edge connects exactly what was connected, or what crosses it once in either direction |
| Chain.ChainIsLinear | engine_core/src/v0_0_1.rs:128-159 | rewritten as a chain of bits (done set = the first `stage` bits), on every stream the states of the two engines correspond after every event if and only if no event is offered to an automaton, fresh seeds included, that waits for two matching steps in a row; then all verdicts are equal |
| Chain.ChainEvent | engine_core/src/v0_0_2.rs:149-166 | the same for one event from any corresponding states, the condition being a test on the state before it |
| Chain.ApartIsLinear | engine_core/src/v0_0_1.rs:128-159 | in particular, when no event matches two consecutive steps of a pattern, verdicts agree at every event and done sets stay the stage prefixes |
| Chain.ChainFits | engine_core/src/rules.rs:66-84 | a sequence of at most 64 steps, rewritten as a chain, uses only bits a mask has |
| Bitmasks.PrefixMask | engine_core/src/rules.rs:79-84 | the first `stage` bits are the word 2^stage - 1 |
| Bitmasks.WordOfBits | engine_core/src/event.rs:31-57 | a word is the value of its set of one-bits |
| Bitmasks.BitsOfWord | engine_core/src/event.rs:31-57 | a set of bit numbers is the set of one-bits of its value, so words and sets determine each other |
| Bitmasks.BitIsSet | engine_core/src/event.rs:41-43 | a bit is in the set of a word exactly when the word shifted right by it is odd |
| PartialOrder.ValidateDag | engine_rules/src/lib.rs:175-210 | a pattern with distinct bits is accepted if and only if it is non-empty and some order lists every step after its prerequisites; each rejection means what it says |
| PartialOrder.CompilePattern | engine_rules/src/lib.rs:140-153 | a pattern block is accepted if and only if its bits are distinct, it is non-empty and it can be scheduled; it is refused for a repeated bit exactly when there is one |
| PartialOrder.Reach | engine_rules/src/lib.rs:190-202 | the growing loop ends, with the bits of a schedule that nothing more can join |
| PartialOrder.OnePassIffDeclaredInOrder | engine_core/src/v0_0_2.rs:149-165 | one pass commits the least closed set from every starting set if and only if, among the steps the event matches, none is declared before one it needs |
| Completion.PatternCompletes | engine_core/src/v0_0_2.rs:136-166 | feeding one matching ungated event per step, in any schedule, within one storyline, the automaton the first event seeds ends with exactly the bits of the pattern |
| Completion.FedInOrder | engine_core/src/v0_0_2.rs:110-166 | that automaton, advanced by each event in turn, stays in the storyline of the first actor through every merge |
| EngineV1.Engine.Find | v1/engine/src/lib.rs:144-161 | both loops end; the result is the root; the compressed forest has the same root for every id |
| EngineV1.Engine.Resolve | v1/engine/src/lib.rs:163-181 | a known key keeps its node; a new one gets a new node and a new storyline that is its own root |
| EngineV1.Engine.Merge | v1/engine/src/lib.rs:201-235 | the root with fewer automata goes below the other and exactly its nodes change root; in the storyline kept, a step is done if it was on either side, its time the earlier one, a role bound as the root had it, else as the child, no history lost, score and activity the higher; every other storyline is untouched |
| EngineV1.Engine.Unify | v1/engine/src/lib.rs:189-199 | exec, inject, create, dup and write leave actor and target in one storyline; any other operation changes nothing |
| EngineV1.Engine.OnEvent | v1/engine/src/lib.rs:240-276 | nodes, roots and storylines after an event whose pattern matching rewrites the storyline of the actor in any way |
| EngineV1.Engine.OnEvents | v1/engine/src/lib.rs:240-276 | a stream of events takes the engine along a run: each event is observed, then that one storyline rewritten |
| EngineV1.ObservedKeeps | v1/engine/src/lib.rs:163-235 | every event keeps: live storylines are exactly the roots, and two nodes share a root exactly when a chain of causal events links them |
| EngineV1.RunTracks | v1/engine/src/lib.rs:240-276 | both facts hold after every event of every run, with any automata the storylines may have grown in between |
| EngineV1.SameRootIffChained | v1/engine/src/event.rs:25-29 | in every state of every run, whatever automata decided the roots, two known keys have one root if and only if a chain of causal-operation events links them |
| UnionFind.CompressKeeps | v1/engine/src/lib.rs:152-159 | pointing a node at its root changes no root |
| UnionFind.RootIsUnique | v1/engine/src/lib.rs:144-151 | the root depends on the parent map alone |
| UnionFind.Attach | v1/engine/src/lib.rs:212-212 | attaching a root below another keeps a forest and moves exactly the child's nodes |
| StorylinesV1.MergeAutomata | v1/engine/src/lib.rs:215-231 | the folding loops leave, per pattern, a step done if either had it, the earliest time of each, the root's bindings first and the root's armed flag |
| StorylinesV1.RootChoiceShows | v1/engine/src/lib.rs:202-231 | which side becomes the root never shows in steps done, times or score; it shows in the automata if and only if some pattern's two automata bound one role to different nodes or differ in being armed |
| RingLayout.ReserveStaysInside | endpoint_service/src/ringbuf.rs:364-409 | whatever tail is read, a reservation stays inside the data region and the budget, and an impossible tail reserves nothing |
| RingBuffer.Ring.Publish | endpoint_service/src/ringbuf.rs:353-420 | with publish as one step and frames of any lengths: accepted exactly when the frame is 8 bytes or more, fits the ring, and with its pad fills at most seven eighths of it (telemetry) or all of it (enforcement); then appended byte for byte behind the pad it needs, else one drop counted; the cursors are in order afterwards exactly when the head did not wrap at 2^64 |
| RingBuffer.Ring.NextFrame | endpoint_service/src/ringbuf.rs:230-253 | skips and releases pads, and yields the oldest accepted frame, or nothing exactly when there is none |
| RingBuffer.Ring.Advance | endpoint_service/src/ringbuf.rs:265-269 | releases exactly the oldest entry and disturbs no byte of the others |
| RingBuffer.Ring.NextBatch | endpoint_service/src/ring.rs:165-181 | takes the oldest frame out whole and records bytes 28 to 31 of it as the request id, zero for a frame under 40 bytes; only an empty ring yields none |
| RingBuffer.AskAndTake | endpoint_service/src/sensor.rs:344-358 | an enforcement frame built for a request id and published into an empty ring comes out whole, and the id recorded is that id |
| RingRuns.RunKeepsInv | endpoint_service/src/ringbuf.rs:353-447 | every interleaving of any number of producers with the consumer, with frames of any lengths, keeps as long as no reservation lands on a word that reads as a commit: reservations tile the positions, the flag tells what is committed, each open entry has one writer, memory holds what was written |
| RingOneLength.OneLengthIsClean | endpoint_service/src/ringbuf.rs:41-45 | with frames of one length no reservation of any run ever lands on a word that reads as a commit |
| RingMixed.TwoLengthsGoStale | endpoint_service/src/ringbuf.rs:260-269 | any two lengths have a run, with one producer, in which a reservation lands on old body bytes that read as a commit |
| RingMixed.TrustedIffOneLength | endpoint_service/src/ringbuf.rs:41-45 | in every state of every run a zero TotalSize means "not committed" and nothing else does, if and only if no two frames have different lengths |
| RingGuarantees.Safety | endpoint_service/src/ringbuf.rs:228-269 | in every run of equal-length frames, and in every run whose reservations were clean, the frames handed out are whole, in reservation order, each committed and none twice, and tail <= head_mirror <= head <= tail + size |
| RingGuarantees.OnlyGrows | endpoint_service/src/ringbuf.rs:353-420 | what was handed out is never taken back and a reservation keeps its place and frame |
| RingGuarantees.Delivered | endpoint_service/src/ringbuf.rs:411-420 | in those runs, once no publish is under way and the consumer finds nothing, what was handed out is exactly what publish reported true for, and the mirror has reached the head |
| RingGuarantees.NeverWedged | endpoint_service/src/ringbuf.rs:241-244 | in those runs, once no publish is under way, the TotalSize a consumer waits for is not zero |
| RingGuarantees.DropsExactlyWhen | endpoint_service/src/ringbuf.rs:374-395 | in every reachable state a frame is dropped at the tail load exactly when frame, pad and what is used exceed seven eighths (telemetry) or the whole (enforcement), or the tail has passed the head loaded before |
| RingDrops.EmptyRingDrops | endpoint_service/src/ringbuf.rs:369-379 | a run of well-behaved parties in which an empty ring drops an enforcement frame that fits |
| RingProof.CasWinsKeepsIffClean | endpoint_service/src/ringbuf.rs:364-409 | a winning compare-and-swap keeps the invariant if and only if the TotalSize words of the entries it makes read zero, a test on memory before it |
| RingProof.RaiseMirrorKeeps | endpoint_service/src/ringbuf.rs:401-405 | raising the mirror in any order never moves it back or past the head |
| RingProof.WritingKeeps | endpoint_service/src/ringbuf.rs:411-447 | every store of a producer falls inside its own entry, TotalSize comes after every body byte, and the entry's memory becomes its frame |
| RingRuns.ReleaseKeeps | endpoint_service/src/ringbuf.rs:260-269 | releasing an entry, its flag zeroed before tail moves, hands out exactly the oldest reservation and keeps the invariant |
| RingOneLength.ReleaseStaysTidy | endpoint_service/src/ringbuf.rs:260-269 | with frames of one length, zeroing TotalSize before moving tail leaves no stale commit in any slot for the next lap |
| Doorbell.ConsumerFenceDecides | endpoint_service/src/ringbuf.rs:276-298 | with per-thread FIFO store buffers and any number of producers, the consumer issues its fence if and only if in every run a sleeping consumer that nothing is about to wake has missed no published frame and sleeps on an empty ring exactly when it has passed every pad given up on |
| Doorbell.DoorbellDelivers | endpoint_service/src/ring.rs:149-162 | a run in which the consumer sleeps, is rung awake and takes the frame, whatever the fences |
| Doorbell.RunKeepsInv | endpoint_service/src/ring.rs:149-162 | in every run the mirror is explained by some publish, and a blocked, unsignalled consumer has taken all that was published |
| Doorbell.GivenUpPadWaits | sensor/windows_driver/SnsDrv/Ring.cpp:446-457 | a publish that gives up after reserving can leave its pad in front of a sleeping consumer |
| PendingVerdicts.PendingVerdicts.Add | sensor/windows_driver/SnsDrv/Ring.cpp:109-128 | fills the first free slot and nothing else, or reports that none is free |
| PendingVerdicts.PendingVerdicts.Complete | sensor/windows_driver/SnsDrv/Ring.cpp:131-150 | records the verdict in the first slot of that request and sets that slot's event, or changes nothing |
| PendingVerdicts.PendingVerdicts.Take | sensor/windows_driver/SnsDrv/Ring.cpp:153-180 | frees the request's slot and reports its verdict; an unknown request reads as allow |
| Verdicts.DeniesExactlyWhen | sensor/windows_driver/SnsDrv/Ring.cpp:485-530 | in every run a call denies if and only if its number was completed after it was added and before its wait ended, and the last completion before it left said deny; so a full table, a failed publish and an unanswered wait allow |
| Verdicts.DenyArrives | sensor/windows_driver/SnsDrv/Ring.cpp:517-525 | a run in which the service's deny reaches the caller that asked |
| Verdicts.NeverZero | sensor/windows_driver/SnsDrv/Ring.cpp:489-492 | no call inside ever has request number zero |
| Verdicts.SlotsAreTheHolders | sensor/windows_driver/SnsDrv/Ring.cpp:495-518 | occupied slots and callers between Add and Take are equally many on every path, no slot keeps the event of a caller that left, and Add fails exactly when sixty-four wait |
| Verdicts.CompletionFindsALiveCaller | sensor/windows_driver/SnsDrv/Ring.cpp:139-146 | the event a completion sets is on the stack of a caller still inside, and it sets none exactly when no caller has that number |
| Verdicts.NumbersDiffer | sensor/windows_driver/SnsDrv/Ring.cpp:489-492 | two callers inside never share a 32-bit number, as long as none stays while all are drawn again |
| WireFormat.BothFormats | engine_core/src/wire.rs:40-151 | for both formats: decoding an encoding gives the ruleset back if and only if it is within the field limits; a byte string decodes to a ruleset exactly when it is that ruleset's encoding; every strict prefix is Truncated |
| WireLayout.DagFormat | engine_core/src/wire.rs:102-117 | the encoding byte by byte: ERD1, a two-byte count, per pattern its name and steps with two-byte lengths, per step bit, eight bytes of prerequisites, four of operations, the techniques, and a tag 0, 1 or 2 with a mask behind 2 |
| WireLayout.LinearFormat | engine_core/src/wire.rs:40-73 | the same for ERL1 |
| WireLayout.WrongMagic | engine_core/src/wire.rs:75-79 | fewer than four bytes are truncated, four other first bytes a bad magic |
| WireLayout.Trailing | engine_core/src/wire.rs:95-98 | anything behind a whole ruleset is trailing bytes |
| WireLayout.UnknownAction | engine_core/src/wire.rs:188-197 | an action tag above 2 is refused by its value |
| Utf8Text.Utf8IffText | engine_core/src/wire.rs:84-85 | the names accepted are exactly the encodings of sequences of Unicode scalar values |
| WireFormat.DagLimits | engine_core/src/wire.rs:102-117 | the field limits spelled out, and nothing else is asked of bits, masks or steps |
| RulesOnWire.SentRulesArrive | engine_core/src/wire.rs:102-151 | encoded and decoded, a compiled ruleset comes back with every name, step and mask, bit for bit the sets the engine matches |
| RulesOnWire.WordsAreSets | engine_core/src/rules.rs:66-84 | the words a step is sent as stand for its sets: bit, prerequisite, match and disarm masks |
| RulesOnWire.FieldsStand | engine_core/src/rules.rs:66-84 | field by field: same bit, techniques and kind of action, and each mask bit set exactly when the word shifted by it is odd |
| Wire.Encode | engine_core/src/wire.rs:40-73 | the appending loops write the specified bytes of a linear ruleset, counts cut to their width |
| Wire.EncodeDag | engine_core/src/wire.rs:102-117 | the appending loops write the specified bytes of a DAG ruleset |
| Wire.Decode | engine_core/src/wire.rs:75-99 | the reader loop accepts and rejects as specified, with the same error |
| Wire.DecodeDag | engine_core/src/wire.rs:120-151 | the reader loop accepts and rejects as specified, with the same error |
| Wire.Reader.Take | engine_core/src/wire.rs:154-162 | moves past exactly the bytes it returns, or reports Truncated |
| Codecs.CountedCodec | engine_core/src/wire.rs:43-53 | a counted run of a lossless, canonical, cut-detecting format is one too |
| Codecs.PairCodec | engine_core/src/wire.rs:131-141 | one such format after another is one too |
| LittleEndian.WordOfLe | engine_core/src/wire.rs:168-178 | reading a little-endian word gives back the number written |
| LittleEndian.LeOfWord | engine_core/src/wire.rs:168-178 | writing a little-endian word gives back the bytes read |
| Entropy.IsHighEntropy | sensor/windows_driver/SnsDrv/MiniFilter.cpp:110-124 | false for less than 256 bytes; otherwise true exactly when, of the first 4096 bytes, fewer than one pair of positions in 64 holds equal bytes; no machine integer overflows |
| Entropy.PairsAreCoincidences | sensor/windows_driver/SnsDrv/MiniFilter.cpp:118-123 | the recursive count of equal pairs is the size of the set of such pairs |
| Entropy.SquaresArePairs | sensor/windows_driver/SnsDrv/MiniFilter.cpp:118-123 | the sum of the squared counts is the number of position pairs that hold the same byte |
| Entropy.FewValues | sensor/windows_driver/SnsDrv/MiniFilter.cpp:110-124 | a sample of at most 64 different bytes is never high entropy |
| Entropy.FrequentValue | sensor/windows_driver/SnsDrv/MiniFilter.cpp:110-124 | a byte that fills an eighth of the sample is never high entropy |
| Entropy.EvenSpread | sensor/windows_driver/SnsDrv/MiniFilter.cpp:110-124 | a sample in which no byte reaches a 64th is always high entropy |

## Left out

- Ceilings.DroppedSeedsOnlyWeaken: one direction only; a run that hits other ceilings or disarms may still keep the order by luck of its events, so the condition is sufficient and not necessary. The exact conditions proved are for equality of states.
- Chain.ChainIsLinear: the exact condition is for corresponding states; past the first event that takes an automaton two steps, verdicts may or may not agree.
- EngineV1.Engine.OnEvent: what pattern matching, scoring, thresholds and arming do to the storyline (floating point and string matching) is a parameter, any function at all; verdicts and the kernel fast path are not modelled, and scores are real numbers.
- RingGuarantees.Safety, Delivered, NeverWedged and DropsExactlyWhen: for frames of mixed lengths, only for runs in which every reservation was clean; without that the flag itself cannot be trusted (RingMixed).
- RingBuffer.Ring.NextBatch: returns at once with nothing where the source spins, sleeps and tries again; sleeping is in Doorbell.
- RingBuffer.Ring.Publish: says nothing about later calls once the head has wrapped at 2^64. The step system likewise only has states with cursors below 2^64.
- RingSteps interleaves single loads, stores and byte copies in one order for all threads; acquire and release orderings are taken at their word. Store buffers are modelled where they decide the outcome, in Doorbell.
- Doorbell lets the consumer announce sleep at any time and lets the wait time out at any time; spinning and yielding are not modelled.
- Verdicts: publishing is a step that succeeds or fails; that no caller stays inside while all 2^32 numbers are drawn again is an assumption on runs.
- Ring.cpp's `Publish` after a failed serialisation appears in Doorbell only; in RingSteps a frame once reserved is copied and committed.
- Masks are sets of bit numbers and `&`, `|` are intersection and union; Bitmasks proves words and sets equivalent. Both v0.0.2 engines take rules whose bits are below 64, as the compiler makes them; the wire format alone would let others through.
- The hash function is a parameter, `& MASK` is reduction modulo the capacity, and 128-bit keys are natural numbers: the engines only compare and hash them.
- The 16-bit casts of slots, members and pattern indices are not modelled: capacities and pattern counts are taken to fit.
- A kernel line record is a value in an array and is read and written whole, as the source's `Copy` struct allows; v0.0.1 and v0.0.2 share one storyline store in the model.
- Names are kept as their UTF-8 bytes; well-formedness of UTF-8 is written out in WireFormat.
- Rule text parsing, sensor and control record codecs, memory mapping, locks, rundown, FFI, allocation failure, TCP, logging and the command line: input, output and plumbing, or easy beside what is here.
- `referenced_ttps`, `edges` and the other plain accessors: nothing beyond their bodies to state.
