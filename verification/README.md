# Verified model of the DCC-EX command station core

This project models the parts of the DCC-EX command station whose correctness is hardest to see from
one function at a time, and proves what those parts are for. Everything is a for-all statement: over
every script, every decoder, every sequence of acks, every interleaving, every reachable state.

Code that the station runs step by step is a class here, with the station's own fields, whose methods
are proved against a specification function of the old state; what the station promises is then
proved about that specification, for whole runs. Where an interrupt, a second core or a second task
shares the state, the specification is a state machine and its steps are interleaved in any order.

## Parts

**EXRAIL** (`Exrail*`).
Scripts are trees; the macro pass is a function from them to the three-byte table. `RunsAgree` is
compiler correctness: whatever the layout answers, the table does exactly the script's effects in
order, with IF and ELSE nested to any depth, CALL, RANDOM_CALL, RETURN and the stack limit of four
included, and ends the way the script ends, from any place a task can start at (`StartedRuns`);
`SkipLands` and `SkipScript` are its heart. `BetweenAcquisitions` is mutual exclusion of block sections
over any interleaving of EXRAIL tasks, `BitsExact` says after any action exactly which sections are held
and which sensors latched, and `ReservedAfterFree` that a section that was freed can be reserved;
`StartedTaskRuns` follows a START to the route it names. The ring of EXRAIL tasks is a linked structure
with create, destroy, kill-all and the round-robin loop; `LoopRepeatedly` serves each of n exactly once in n calls of loop, and `ExactExactlyWhileFew` says over
whole runs when ids and marks are exact.

**Programming track** (`Ack*`). The stock programs are run by the station's own interpreter against
a decoder that is a map from CV numbers to bytes. `SetThenGetLocoId`, `SetThenGetConsistId`,
`WriteThenReadCv`, `WriteThenReadBit`, `ReadsCv` and `VerifiesCv` are read-backs and round trips of whole
programs;
`RunsAreConfirmed` needs no decoder at all, only acks in any order. `AckMachine` adds waiting, retries,
track power and rejoining, and `AckCalls` the requests: Setup is called at any time, also while a program
is under way, for which it does not look. `SetupIsServed` says exactly which accepted Setup is called
back once with the track as found, `SetupEnds` that its run ends on a fair track, and
`StationProgramsBehave` puts both together with the 100 ms and 30 ms rules for every stock program in
every reachable state. `AckCoupling` and `AckServed` join this to the decoder: on a fair track the
round trips hold from request to callback. `AckManager` is the class with the program pointer, and
`CallsAreGo` ties any series of calls of its loop and Setup to one run of the machine.

**Packet queue** (`Queue*`, `PacketQueue`). `PacketQueue` is the heap:
two linked lists and a recycle list, which stay acyclic, pairwise disjoint and complete under every
operation, including removal during the estop walk and an accessory slot that moves between queues.
Each operation equals its specification on values, about which spacing, coalescing, the estop purge,
conservation of airtime and draining are proved for whole runs. `NextInTurn` says outright what goes out
next: the high queue before the low one, and in each the first that can go. The loco id, delay and start time are
one shared word, as in the source.

**Bit streams** (`BitStream`, `FrameLog`, `Wave*`, `Waveform`, `Rmt*`). The tick-driven generator and
the ESP32 channel are each run against a producer whose stores are single steps, in any interleaving.
A decoder after section A of NMRA S-9.2 reads the rails: in every reachable state it has received
exactly the frames that are over (`DecoderSeesFrames`, `RailsAreFrames`), each packet's frames are one
run in turn with the right count (`EachJobAsAsked`, `EachPacketAsAsked`), their bytes cancel out, and
the two generators' streams are the same but for the place of the end bit (`SameStream`). The reset
counter that programming waits for never counts a reset too many (`ResetsWereChosen`). What is
scheduled is accepted and goes out, within given numbers of ticks or rounds (`WaveServed`, `RmtServed`).

**Inbound WebSocket queue** (`Ws*`). Any number of producers reserve under the lock, fill store by
store without it, and publish under it; one consumer. `FirstInFirstOut`, `SeesOnlyWholeItems`,
`FreedOnceOnPop` and `NothingLeaks` hold in every interleaving, and so does progress: what is accepted is
published (`GetsPublished`), and what is published is handled (`AllHandled`).

**Signal logic** (`Signal*`). The evaluator that sends one output per loop: `LinesMatchProgress` holds
after any actions in the middle of any update, from the loading of the rules on; `SettlesOnRules` gives
the bound within which every line shows what direct evaluation asks for, and `ToldSettles` says so in
the terms of the rules and the lines alone, from any state once the engine is told of a change.

**Layout registry** (`Layout*`). The two passes over a layout's elements; `ReloadGives` and
`LegacyResolves` are both if-and-only-if.

**Reminders and consists** (`Reminders`, `LocoSlots`, `LocoTable`). The fairness bound of the reminder
rounds, for speeds and for function groups, and the loco table as a heap: table chain, recycle list and
consist chains under create, build, add, delete, forget and throttle. `SetThrottle` says speed by speed
and direction by direction where each loco of a consist heads and what it is told.

## What the code does that its comments or names do not say

Each of these is the code's behaviour, kept in the model. Where a promise fails, the named lemmas give
the exact condition, and an input that shows it.

- `DCCACK::Setup` does not look whether a program is under way (`READ_LOCO` and WiThrottle ask for one
  at any time). A request accepted during a run replaces its program and its callback: the first one is
  never called back, and power and join are restored to what the second one found. A request turned away
  during a run on a track that was joined makes the run forget to join it again. An accepted Setup is
  served if and only if neither happens before it is over (`SetupIsServed`, `TwoAtOnce`); a caller can see
  that beforehand, as `ackManagerProg` is then null.
- EXRAIL look-up results are 16-bit signed: a route is found if and only if it starts below byte 32768
  (`LookupTruncates`, `LateIsLost`).
- The 257th EXRAIL task shares id 255; ids are distinct and marks exact if and only if there were never
  more than 256 since there was none (`OverflowSharesId`, `ExactExactlyWhileFew`).
- Killing the EXRAIL task being served makes its successor the one `loopTask` names, and loop moves on
  before it serves: the successor is served last of the others (`KilledSkipsNext`).
- `setConsistId` for ids above 127 needs a decoder that acknowledges the write of CV 20; `setLocoId`
  needs no acknowledged write (`SetThenGetConsistId`, `SetThenGetLocoId`).
- `RMTfillData` adds one to the repeat count in a byte: a packet with 255 repeats is sent once and
  reported as lost data; for all others that report is unreachable (`LostExactlyWhenWrapped`).
- A speed packet for a loco whose number is the low half of a waiting accessory-off packet's start
  time overwrites that packet instead of being queued (`SpeedIsQueued`, `OffTakenForLoco`). An accessory-on
  packet with a delay counts as a packet of the loco of that number while it is sent, and its off
  packet goes out once, as its repeats are used up by then.
- `DCCConsist::parse` does not check what `getSlot` gives it once it builds: with the table full it goes
  through a null pointer. The model stops there (`stuck`). That happens if and only if the list is valid,
  asks for nobody else's consist, and has more locos without a slot than there is room for (`Parse`, over
  the state before the call; `ListTooLong`).
- `setThrottle` with the target a lead has already leaves its followers as they are.


## Model

| member | source | states |
|---|---|---|
| ExrailScript.RouteCode | CommandStation-EX/EXRAILMacros.h:515-773 | the macro pass: one entry per statement keyword and per parameter, and the two closing entries, three bytes each |
| ExrailScript.Emit | CommandStation-EX/EXRAILMacros.h:515-773 | every statement compiles to whole entries, at least one; IF and ELSE bodies are compiled in place before their ENDIF |
| ExrailScript.FetchItem | CommandStation-EX/EXRAIL2.cpp:104-114 | an entry's parameter is read back unchanged from its low and high byte |
| ExrailScript.FetchPads | CommandStation-EX/EXRAIL2.cpp:104-114 | the further parameters behind an opcode are read back as they were written, in order |
| ExrailScript.FetchOp | CommandStation-EX/EXRAIL2.cpp:104-114 | an opcode and all its parameters, PAD entries included, are read back unchanged, wherever in the table they stand |
| ExrailScript.FetchChoices | CommandStation-EX/EXRAILMacros.h:679-684 | the choices of RANDOM_CALL and RANDOM_FOLLOW are read back in order |
| ExrailVm.SkipIf | CommandStation-EX/EXRAIL2.cpp:471-497 | where the scan for the matching ELSE or ENDIF stops: an entry further down the table, if any |
| ExrailVm.ToInt16 | CommandStation-EX/EXRAIL2.cpp:126-138 | look-up results are kept as 16-bit signed numbers: right exactly as far as those reach |
| ExrailVm.FirstMarkIsFirstPc | CommandStation-EX/EXRAIL2.cpp:133-138 | searching the loaded list gives the first matching entry of the table itself |
| ExrailVm.LookList.Count | CommandStation-EX/EXRAIL2.cpp:167-176 | the first pass of the loader counts exactly the entries the second will store |
| ExrailVm.LookList.Add | CommandStation-EX/EXRAIL2.cpp:126-131 | stores one pair, its position as a 16-bit number, and touches no other; a full list stays as it is |
| ExrailVm.LookList.Load | CommandStation-EX/EXRAIL2.cpp:179-185 | after the second pass the list holds every matching entry of the table, in order |
| ExrailVm.LookList.Find | CommandStation-EX/EXRAIL2.cpp:133-138 | the first match of this list, else the first of the chained one, else -1 |
| ExrailVm.BuildRouteLookup | CommandStation-EX/EXRAIL2.cpp:197-199 | afterwards ROUTE and AUTOMATION entries are listed, chained to the SEQUENCE entries |
| ExrailVm.Task.SkipIfBlock | CommandStation-EX/EXRAIL2.cpp:471-497 | the counter lands on the matching ELSE or ENDIF, or the EXRAIL task is killed because there is none |
| ExrailVm.Task.Jump | CommandStation-EX/EXRAIL2.cpp:1032-1035 | to the route's entry, or killed when no list has it |
| ExrailVm.Task.ServeJump | CommandStation-EX/EXRAIL2.cpp:1032-1078 | FOLLOW, CALL, RANDOM_FOLLOW, RANDOM_CALL and RETURN do to counter and call stack what one step of the machine says |
| ExrailVm.Task.ServeReturn | CommandStation-EX/EXRAIL2.cpp:1073-1079 | RETURN takes the place to resume at from the call stack, or dies for want of one |
| ExrailVm.Task.ServeGo | CommandStation-EX/EXRAIL2.cpp:1032-1072 | the other jumps: the place to resume at is kept, and the counter goes to the route |
| ExrailVm.Task.Loop2 | CommandStation-EX/EXRAIL2.cpp:539-1352 | one service: counter, call stack, life and effect are those of one step of the machine |
| ExrailCorrect.Settle | CommandStation-EX/EXRAIL2.cpp:1284-1311 | past declarations and block ends there is always a next effective statement, or the end of the file |
| ExrailCorrect.SkipInnerEndif | CommandStation-EX/EXRAIL2.cpp:471-497 | an ENDIF inside a skipped block closes the nested IF only |
| ExrailCorrect.SkipInnerElse | CommandStation-EX/EXRAIL2.cpp:471-497 | an ELSE inside a skipped block belongs to the nested IF and is passed |
| ExrailCorrect.SkipScript | CommandStation-EX/EXRAIL2.cpp:471-497 | a skip passes over any well-nested script, at any depth, and comes out at the same nesting |
| ExrailCorrect.SkipLands | CommandStation-EX/EXRAIL2.cpp:471-497 | a failed IF lands on its own ELSE or ENDIF, a reached ELSE on its own ENDIF, whatever stands between |
| ExrailCorrect.FindBlock | CommandStation-EX/EXRAIL2.cpp:167-185 | a search for a declaration finds in a compiled block the one the script has first, at its place |
| ExrailRun.SearchAgrees | CommandStation-EX/EXRAIL2.cpp:133-138 | searching the compiled table finds the declaration the script names, and the code from there on is what follows it in the script |
| ExrailRun.LookupAgrees | CommandStation-EX/EXRAIL2.cpp:133-138 | route look-up is right for every table of at most 32768 bytes |
| ExrailRun.LookupTruncates | CommandStation-EX/EXRAIL2.cpp:133-138 | in a larger table a route is found if and only if it starts below byte 32768 |
| ExrailRun.LateIsLost | CommandStation-EX/EXRAIL2.cpp:133-138 | such a table: a sequence behind 10923 statements or more |
| ExrailRun.PadStep | CommandStation-EX/EXRAIL2.cpp:1311-1312 | a PAD is stepped over without effect |
| ExrailRun.MarkStep | CommandStation-EX/EXRAIL2.cpp:1284-1311 | a declaration is stepped over without effect, its parameters after it |
| ExrailRun.ElseStep | CommandStation-EX/EXRAIL2.cpp:866-868 | an ELSE reached from above goes on behind the IF |
| ExrailRun.IfTaken | CommandStation-EX/EXRAIL2.cpp:862-864 | a condition that holds goes on in the THEN branch, past the condition's own parameters |
| ExrailRun.IfSkipped | CommandStation-EX/EXRAIL2.cpp:862-864 | a condition that fails goes on just past the THEN branch and the entry that ends it |
| ExrailRun.IfStep | CommandStation-EX/EXRAIL2.cpp:862-936 | an IF without ELSE does in one service what the script does |
| ExrailRun.IfElseStep | CommandStation-EX/EXRAIL2.cpp:862-936 | an IF with ELSE does in one service what the script does |
| ExrailRun.CallStep | CommandStation-EX/EXRAIL2.cpp:1032-1047 | CALL and FOLLOW go where the script goes, remember where to resume, and die for want of a route or of stack |
| ExrailRun.RandomStep | CommandStation-EX/EXRAIL2.cpp:1049-1072 | RANDOM_CALL and RANDOM_FOLLOW go to the chosen route; the first resumes behind all its choices |
| ExrailRun.ReturnStep | CommandStation-EX/EXRAIL2.cpp:1073-1079 | RETURN resumes just after the CALL or RANDOM_CALL made last |
| ExrailRun.CallComesBack | CommandStation-EX/EXRAIL2.cpp:1032-1079 | in any table: after a CALL or RANDOM_CALL that finds its route, a RETURN at the same depth resumes behind it, behind all choices, with the stack as it was |
| ExrailRun.FollowKeepsStack | CommandStation-EX/EXRAIL2.cpp:1032-1052 | in any table: FOLLOW and RANDOM_FOLLOW go to their route with the stack as it was, or the EXRAIL task dies |
| ExrailRun.OneService | CommandStation-EX/EXRAIL2.cpp:539-1352 | one service does nothing and stays at the same place of the script, or does what the script does next |
| ExrailRun.RunsAgree | CommandStation-EX/EXRAIL2.cpp:539-1352 | compiler correctness: over any answers from outside, the compiled table does exactly the effects of the structured script, in order, until it ends the way the script ends |
| ExrailRun.RouteRuns | CommandStation-EX/EXRAIL2.cpp:450-455 | the same from any route START can name |
| ExrailRun.StartedRuns | CommandStation-EX/EXRAIL2.cpp:360-365 | the same from any place of the file, as AUTOSTART and the event handlers start an EXRAIL task |
| ExrailRun.FileRuns | CommandStation-EX/EXRAIL2.cpp:360-365 | the same from the top of the file |
| ExrailRun.SkipAligned | CommandStation-EX/EXRAIL2.cpp:471-497 | even in a table that is no compiled script, a skip stops on an entry boundary, at an ELSE or ENDIF |
| ExrailRun.NeverSilentForever | CommandStation-EX/EXRAIL2.cpp:539-1352 | no table can keep an EXRAIL task busy for ever without an effect |
| ExrailFlags.SetFlagFrame | CommandStation-EX/EXRAIL2.cpp:1359-1366 | setting and clearing flag bits leaves the other bits of every entry |
| ExrailFlags.FlagFacts | CommandStation-EX/EXRAIL2.cpp:1359-1371 | reserving or freeing one section changes that section's bit and no other's |
| ExrailFlags.ServedEvent | CommandStation-EX/EXRAIL2.cpp:705-720 | RESERVE and IFRESERVE succeed only on a section that is free |
| ExrailFlags.SectionStep | CommandStation-EX/EXRAIL2.cpp:705-720 | whatever EXRAIL task is served: an acquisition found the section free, and a held one stays held unless freed |
| ExrailFlags.HeldUntilReleased | CommandStation-EX/EXRAIL2.cpp:705-720 | in any interleaving a held section is acquired again only after a FREE or FREEALL of it |
| ExrailFlags.BetweenAcquisitions | CommandStation-EX/EXRAIL2.cpp:705-720 | mutual exclusion: in any interleaving, between two acquisitions of one section (ids 0 to 255) it was freed |
| ExrailFlags.NoExclusionBeyondTable | CommandStation-EX/EXRAIL2.cpp:1359-1371 | what the guard of setFlag means: an id outside the table would be acquired without a mark |
| ExrailFlags.SectionsAreSeparate | CommandStation-EX/EXRAIL2.cpp:1359-1371 | section operations leave every latch, task and signal bit; the others leave every section bit |
| ExrailFlags.BitsExact | CommandStation-EX/EXRAIL2.cpp:705-786 | after any action by anybody a section below 256 is held if and only if the action reserved it, or it was held and the action noted no release of it; a sensor is latched if and only if the action latched it, or it was and the action noted no UNLATCH |
| ExrailFlags.MarksExact | CommandStation-EX/EXRAIL2.cpp:1359-1371 | after any action a signal shows what was shown last, and a task id is marked if and only if it was taken, or was marked and not given back |
| ExrailFlags.ServedReserve | CommandStation-EX/EXRAIL2.cpp:705-712 | RESERVE takes a free section and goes on, of a held one it changes nothing and waits |
| ExrailFlags.ServedIfReserve | CommandStation-EX/EXRAIL2.cpp:898-901 | IFRESERVE takes a free section and enters its block, of a held one it changes no flag and passes the block |
| ExrailFlags.FreedIsFree | CommandStation-EX/EXRAIL2.cpp:714-720 | FREE and FREEALL, by an EXRAIL task or the operator, leave the section free |
| ExrailFlags.StaysFree | CommandStation-EX/EXRAIL2.cpp:705-720 | a free section stays free while nobody reserves it, whatever else happens |
| ExrailFlags.ReservedAfterFree | CommandStation-EX/EXRAIL2.cpp:705-720 | so after a section was freed the next RESERVE of it, however much later, gets it, unless somebody reserved it in between |
| ExrailCrew.LooksUpFirst | CommandStation-EX/EXRAIL2.cpp:133-199 | a route number is looked up as the first ROUTE or AUTOMATION that declares it, or if there is none the first SEQUENCE, or is not found |
| ExrailCrew.StartsTask | CommandStation-EX/EXRAIL2.cpp:1125-1156 | START, START_SHARED and START_SEND start an EXRAIL task at the route they name, SENDLOCO at the one it names second; nothing is started if it is not there, and nothing else changes |
| ExrailCrew.StartedTaskRuns | CommandStation-EX/EXRAIL2.cpp:1125-1156 | in the table of a script, what was started does what the script does from that route on |
| ExrailCrew.OthersLive | CommandStation-EX/EXRAIL2.cpp:1086-1088 | KILLALL ends every EXRAIL task, any other entry none but the one served |
| ExrailTasks.TurnAt | CommandStation-EX/EXRAIL2.cpp:527-535 | turn k of a round serves the EXRAIL task k + 1 places round the ring |
| ExrailTasks.FairTurns | CommandStation-EX/EXRAIL2.cpp:527-535 | a round of the ring has each of its members exactly once |
| ExrailTasks.KilledSkipsNext | CommandStation-EX/EXRAIL2.cpp:439-447 | when the one served last is killed, its successor is served last of the others, not next |
| ExrailTasks.FirstFree | CommandStation-EX/EXRAIL2.cpp:406-414 | the search gives an id no EXRAIL task has, if there is one, else 255 |
| ExrailTasks.TaskBit | CommandStation-EX/EXRAIL2.cpp:1359-1371 | marking or clearing one id changes that id's mark alone |
| ExrailTasks.WithoutNeighbours | CommandStation-EX/EXRAIL2.cpp:433-447 | taking one EXRAIL task out of the ring leaves every other neighbour relation as it was |
| ExrailTasks.JoinKeepsIds | CommandStation-EX/EXRAIL2.cpp:403-414 | with fewer than 256 alive, a new EXRAIL task gets an id of its own, and the marks are exactly the ids in use |
| ExrailTasks.LeaveKeepsIds | CommandStation-EX/EXRAIL2.cpp:433-438 | one that ends gives its id back, and the marks stay exact |
| ExrailTasks.OverflowSharesId | CommandStation-EX/EXRAIL2.cpp:406-414 | the 257th shares id 255 with another, and the ids are exact no more |
| ExrailTasks.ExactExactlyWhileFew | CommandStation-EX/EXRAIL2.cpp:403-447 | over any run of tasks coming, going and being served: ids distinct and marks exact at every moment since there was none, if and only if there were never more than 256 |
| ExrailTasks.Exrail.TakeId | CommandStation-EX/EXRAIL2.cpp:406-414 | takes and marks the first unmarked id, or 255 when there is none |
| ExrailTasks.Exrail.Create | CommandStation-EX/EXRAIL2.cpp:403-430 | the new EXRAIL task is chained in behind the one served last, with the first free id |
| ExrailTasks.Exrail.Before | CommandStation-EX/EXRAIL2.cpp:442-446 | the destructor's walk finds the predecessor and ends |
| ExrailTasks.Exrail.Unchain | CommandStation-EX/EXRAIL2.cpp:439-447 | the ring closes behind the one that leaves, and loop goes on from its successor |
| ExrailTasks.Exrail.Destroy | CommandStation-EX/EXRAIL2.cpp:433-447 | ring and marks after an EXRAIL task ended |
| ExrailTasks.Exrail.KillAll | CommandStation-EX/EXRAIL2.cpp:1087-1089 | every EXRAIL task ends and no id stays marked; the other flag bits stay |
| ExrailTasks.Exrail.Loop | CommandStation-EX/EXRAIL2.cpp:527-535 | the ring turns by one; whoever is then at the front is served, unless another pauses it; ids and marks stay exact |
| ExrailTasks.Exrail.LoopRepeatedly | CommandStation-EX/EXRAIL2.cpp:527-535 | n calls of loop with no creation, kill or pause serve each of n EXRAIL tasks exactly once |
| AckProgram.Decode | CommandStation-EX/DCCACK.cpp:164-374 | one operation of the interpreter always leaves less of the program to go |
| AckProgram.MarkedSets | CommandStation-EX/DCCACK.cpp:320-323 | the long-address marker sets bit 14 and leaves the other bits |
| AckReads.Plain | CommandStation-EX/DCCACK.cpp:281-330 | register operations of a straight execution |
| AckReads.Test | CommandStation-EX/DCCACK.cpp:233-276 | operations that report or go on |
| AckReads.Skips | CommandStation-EX/DCCACK.cpp:333-356 | ITSKIP, NAKSKIP and BAD20SKIP: where each goes on |
| AckReads.MergeBits | CommandStation-EX/DCCACK.cpp:281-292 | n groups of the read loop read the low n bits of a supported CV |
| AckReads.ReadByte | CommandStation-EX/DCC.cpp:762-773 | one whole byte read and verified: the CV's value and an ack, or no ack |
| AckReads.ReadsLongId | CommandStation-EX/DCC.cpp:760-785 | the long-address read reports CV 17 and 18 combined, with the marker for small ids |
| AckReads.ReadsShortId | CommandStation-EX/DCC.cpp:788-801 | the short-address read reports the low seven bits of CV 1 |
| AckRoundTrips.ReadsId | CommandStation-EX/DCC.cpp:754-802 | getLocoId reports the decoder's address as CV 29, 1, 17 and 18 say, for every decoder |
| AckRoundTrips.ClearsConsist | CommandStation-EX/DCC.cpp:857-863 | CVs 19 and 20 are zero afterwards, where they exist |
| AckRoundTrips.Stores | CommandStation-EX/DCC.cpp:599-606 | write a byte, verify it when the write is not acknowledged, report 1 or -1 |
| AckRoundTrips.SetsFlag | CommandStation-EX/DCC.cpp:864-868 | the long-address bit of CV 29 is as asked, or the program gives up |
| AckRoundTrips.SetsShortId | CommandStation-EX/DCC.cpp:855-875 | the short form of setLocoId: what it reports and what it leaves, on every decoder |
| AckRoundTrips.SetsLongId | CommandStation-EX/DCC.cpp:891-920 | the long form of setLocoId: what it reports and what it leaves, on every decoder |
| AckRoundTrips.SetThenGetLocoId | CommandStation-EX/DCC.cpp:962-971 | setLocoId(id) reports 1 if and only if the decoder has the CVs the id needs, acknowledged writes or not, and then getLocoId reports id, for 1 to 10239 |
| AckConsists.ReadsConsist | CommandStation-EX/DCC.cpp:804-853 | getConsistId reports the consist address of CVs 19 and 20, for every decoder |
| AckConsists.SetsConsist | CommandStation-EX/DCC.cpp:877-889 | setConsistId: what it reports and what it leaves, on every decoder |
| AckConsists.ConsistBytes | CommandStation-EX/DCC.cpp:973-991 | the word made of an id and a direction comes apart into the two CVs that spell the id and the direction |
| AckConsists.SetThenGetConsistId | CommandStation-EX/DCC.cpp:973-991 | setConsistId reports 1 if and only if CV 19 exists and, above 127, CV 20 exists and acknowledges writes; then getConsistId reports id, reversed or not, and the direction is the top bit of CV 19 |
| AckConsists.ReadsDriveaway | CommandStation-EX/DCC.cpp:656-752 | getDriveawayLocoId reports the consist's address, else the loco's own |
| AckCvReads.ReadsTopBit | CommandStation-EX/DCC.cpp:635-644 | the first bit is read when the CV answers, else the program gives up with -1 |
| AckCvReads.ReadsCv | CommandStation-EX/DCC.cpp:633-653 | readCV calls back exactly the stored byte, or -1 for a CV the decoder does not have |
| AckCvReads.VerifiesCv | CommandStation-EX/DCC.cpp:607-631 | verifyCVByte calls back exactly the stored byte, whatever value it is started with |
| AckCvReads.WriteThenReadCv | CommandStation-EX/DCC.cpp:599-606 | writeCVByte then readCV gives the byte back, on every decoder that has the CV |
| AckBits.ReadsBit | CommandStation-EX/DCC.cpp:573-597 | readCVBit and verifyCVBit call back the bit as stored, whatever value is to be verified, or -1 if and only if the decoder does not have the CV |
| AckBits.WritesBit | CommandStation-EX/DCC.cpp:558-571 | writeCVBit calls back 1 on every decoder that has the CV, whether or not it acknowledges writes, and else -1 |
| AckBits.OneBitWritten | CommandStation-EX/DCC.cpp:558-571 | the bit is then as asked; the other seven bits and all other CVs are as they were |
| AckBits.WriteThenReadBit | CommandStation-EX/DCC.cpp:926-944 | a bit written is read back, by itself and in its byte |
| AckBits.WritesByte | CommandStation-EX/DCC.cpp:599-605 | writeCVByte calls back 1 or -1, and the CV holds the byte |
| AckBits.Untouched | CommandStation-EX/DCCACK.cpp:147-290 | a program without SETCV leaves a decoder that lacks the CV it is given as it was |
| AckBits.NoCvReports | CommandStation-EX/DCC.cpp:558-653 | each of the eight programs for one CV reports -1 for a CV that is not there |
| AckCvReads.LandsAt | CommandStation-EX/DCCACK.cpp:333-349 | a skip ends just past a SKIPTARGET or at the end of the program |
| AckCvReads.ConfirmedFrom | CommandStation-EX/DCCACK.cpp:202-290 | from anywhere in such a program: a value of at least 0 was confirmed by the verify packet sent last |
| AckCvReads.ReadsAreConfirmed | CommandStation-EX/DCC.cpp:607-653 | one straight execution against any acks: a value v of at least 0 that readCV or verifyCVByte reports was confirmed by an acknowledged verify of v |
| AckConfirm.RunsAreConfirmed | CommandStation-EX/DCC.cpp:607-653 | the same of the running machine, with waits, retries and callback stages, whatever is acked and when |
| AckMachine.PassDecreases | CommandStation-EX/DCCACK.cpp:164-374 | every turn of the interpreter waits or makes the measure (retries, code, callback stage) smaller |
| AckMachine.CallbackDecreases | CommandStation-EX/DCCACK.cpp:376-456 | so does every call of callback |
| AckMachine.FairMoves | CommandStation-EX/DCCACK.cpp:164-456 | a turn on a fair track (no overload, the resets sent, the ack settled, 100 ms on) never only waits |
| AckMachine.PassCounts | CommandStation-EX/DCCACK.cpp:376-456 | one turn: the callback comes exactly when the program is over, and last; a restart uses a retry; then an auto-powered track is off, any other on, and joined again exactly if it is to be |
| AckMachine.RefusesExactly | CommandStation-EX/DCCACK.cpp:69-120 | Setup is turned away just without a driver, -3 and unjoined, or with one that cannot measure, -2 and joined as it was |
| AckMachine.PowerFollows | CommandStation-EX/DCCACK.cpp:376-456 | power and join are as the last switching left them, and nothing else changes them |
| AckMachine.CallbackWaits | CommandStation-EX/DCCACK.cpp:376-456 | callback only waits in its two waiting stages, for 100 ms and for 30 ms and no longer |
| AckMachine.ReturnsWhenWaiting | CommandStation-EX/DCCACK.cpp:164-374 | loop goes on turn by turn until one only waits or comes to callback |
| AckCalls.GoKeeps | CommandStation-EX/DCCACK.cpp:69-456 | the invariant of every state that can be reached, with Setup called at any time, also during a run |
| AckCalls.FairEnds | CommandStation-EX/DCCACK.cpp:164-456 | every run ends after as many fair turns as there is left to do, unless another request is accepted first; fairness is of the track alone |
| AckCalls.SetupEnds | CommandStation-EX/DCCACK.cpp:69-456 | so a request for a program of n bytes is over after (retries + 1) * 5n + 5 fair turns |
| AckCalls.OwnRun | CommandStation-EX/DCCACK.cpp:69-456 | a run in which no further request is accepted: one callback, at most ackRetry restarts, power as found, and joined as found unless one was turned away |
| AckCalls.Overtaken | CommandStation-EX/DCCACK.cpp:69-119 | a run in which another request is accepted never calls the first one back |
| AckCalls.NotAgain | CommandStation-EX/DCCACK.cpp:69-456 | who was called back, or overtaken, is never called back again |
| AckCalls.SetupIsServed | CommandStation-EX/DCCACK.cpp:69-456 | an accepted Setup, at any time: called back exactly once with power and join as found, if and only if no further request was accepted before its run was over, and none turned away either if the track was found joined |
| AckCalls.TwoAtOnce | CommandStation-EX/DCCACK.cpp:69-119 | the input that shows it: two requests at once on a track that is off and joined; the first is never called back, and the track is left with power and unjoined |
| AckCoupling.PassKeepsOutcome | CommandStation-EX/DCCACK.cpp:164-374 | whatever a turn waits for, the outcome against the decoder stays the same |
| AckCoupling.RunGivesOutcome | CommandStation-EX/DCCACK.cpp:164-456 | with waits anywhere, a run calls back what the straight execution reports, retries included, and leaves the decoder as that does |
| AckCoupling.LocoIdRoundTrip | CommandStation-EX/DCC.cpp:754-971 | over the interrupted, waiting, retrying interpreter: setLocoId calls back 1, then getLocoId the id |
| AckCoupling.ConsistRoundTrip | CommandStation-EX/DCC.cpp:804-991 | the same for setConsistId and getConsistId |
| AckServed.LocoIdServed | CommandStation-EX/DCC.cpp:754-971 | from request to callback: setLocoId and then getLocoId, each asked for in any reachable state and followed by enough fair turns, both end and call back 1 and then the id |
| AckServed.ConsistServed | CommandStation-EX/DCC.cpp:804-991 | the same for setConsistId and getConsistId |
| AckServed.CvServed | CommandStation-EX/DCC.cpp:922-948 | from request to callback: any program for one CV, asked for in any reachable state and followed by enough fair turns, ends and calls back what its straight execution reports, retries included |
| AckServed.BitServed | CommandStation-EX/DCC.cpp:926-944 | writeCVBit and then readCVBit: 1 and the bit, or -1 twice if and only if the decoder lacks the CV, and only that bit is changed |
| AckServed.ByteServed | CommandStation-EX/DCC.cpp:922-948 | the same for writeCVByte and readCV |
| AckTiming.WritesAreSafe | CommandStation-EX/DCCACK.cpp:404-428 | in every run, whoever asks when, power goes off only 100 ms or more after any write packet |
| AckTiming.ReachedIsKnown | CommandStation-EX/DCCACK.cpp:69-456 | what the timing rests on holds of every state that can be reached |
| AckTiming.RejoinsAfterGap | CommandStation-EX/DCCACK.cpp:414-435 | a track found on is off for at least 30 ms before it is joined again |
| AckTiming.PacketsAfterResets | CommandStation-EX/DCCACK.cpp:126-225 | a packet goes out in just the turns that find at least 8 resets counted; BASELINE goes on just without overload and with 20 resets on a track that was off or joined, else 3; WACK just once the answer is no longer pending |
| AckTiming.SetupIsTimely | CommandStation-EX/DCCACK.cpp:376-456 | both, from an accepted Setup on, in any state and with any later requests |
| AckFit.StockIsFit | CommandStation-EX/DCC.cpp:558-920 | all the station's programs end in a report, write only after BASELINE, and restart safely |
| AckFit.StationProgramsBehave | CommandStation-EX/DCCACK.cpp:69-456 | any of the station's programs, accepted in any state, with other requests at any time: served if and only if none comes between, its end on a fair track, at most ackRetry restarts, 100 ms and 30 ms kept |
| AckFit.StationBehavesFromStart | CommandStation-EX/DCCACK.cpp:69-456 | so from an idle machine on, whatever was asked for before and when |
| AckManager.LoopIsGo | CommandStation-EX/DCCACK.cpp:164-374 | one call of loop is a run of turns up to where it returns |
| AckManager.CallsAreGo | CommandStation-EX/DCCACK.cpp:69-374 | any number of calls of loop and Setup, wherever loop returns, are together one run of turns and requests |
| AckManager.AckManager.Setup | CommandStation-EX/DCCACK.cpp:69-119 | refuses without a driver or current sense, or starts, whether or not a program is under way: power, join, registers, program and whose callback it is |
| AckManager.AckManager.SetupWord | CommandStation-EX/DCCACK.cpp:121-124 | the same with the word kept first |
| AckManager.AckManager.Callback | CommandStation-EX/DCCACK.cpp:376-456 | one call of callback: the whole new state and what is done to the track |
| AckManager.AckManager.Issue | CommandStation-EX/DCCACK.cpp:178-223 | W0, W1, WB, V0, V1 and VB wait for the resets, then send their packet |
| AckManager.AckManager.Wait | CommandStation-EX/DCCACK.cpp:172-231 | BASELINE and WACK wait for the track, or for the ack |
| AckManager.AckManager.Test | CommandStation-EX/DCCACK.cpp:233-276 | the operations that call back or go on |
| AckManager.AckManager.Combine | CommandStation-EX/DCCACK.cpp:320-330 | COMBINELOCOID and COMBINE1920 |
| AckManager.AckManager.Assign | CommandStation-EX/DCCACK.cpp:277-318 | the operations on registers |
| AckManager.AckManager.Take | CommandStation-EX/DCCACK.cpp:293-307 | SETBIT, SETCV and SETBYTE take their operand from the program |
| AckManager.AckManager.Skip | CommandStation-EX/DCCACK.cpp:333-356 | the three skips |
| AckManager.AckManager.SkipToTarget | CommandStation-EX/DCCACK.cpp:333-341 | the inner loop leaves the pointer just where the next SKIPTARGET is |
| AckManager.AckManager.Interpret | CommandStation-EX/DCCACK.cpp:164-374 | one turn of the switch |
| AckManager.AckManager.Loop | CommandStation-EX/DCCACK.cpp:164-374 | one call of loop is what the specification makes of the readings |
| QueueSpec.FirstLoco | CommandStation-EX/DCCQueue.cpp:88-96 | the first slot with the loco's number: no slot before it has it |
| QueueSpec.FirstGroup | CommandStation-EX/DCCQueue.cpp:115-123 | the first slot for this loco and function group |
| QueueSpec.Survivors | CommandStation-EX/DCCQueue.cpp:139-146 | exactly the slots an estop leaves |
| QueueSpec.FirstSendable | CommandStation-EX/DCCQueue.cpp:181-199 | the first slot that may go out now: none before it may |
| QueueSpec.GateOff | CommandStation-EX/DCCQueue.cpp:208-208 | the C bit is clear afterwards, the three bits below and the four above are as they were |
| QueueRules.NextAlternates | CommandStation-EX/DCCQueue.cpp:165-218 | a packet that goes out is not for the loco of the one before |
| QueueRules.NoTwoInARow | CommandStation-EX/DCCQueue.cpp:165-218 | over any run of calls no two packets in a row carry the same non-zero loco id |
| QueueRules.OneSlotEach | CommandStation-EX/DCCQueue.cpp:87-149 | in every reachable state: at most one speed slot per loco in the high queue and one slot per loco and function group in the low |
| QueueRules.SurvivorsInOrder | CommandStation-EX/DCCQueue.cpp:139-146 | survivors are a rising choice of old positions, and all of those that survive |
| QueueRules.EstopPurges | CommandStation-EX/DCCQueue.cpp:132-149 | after an estop the high queue is the estop, then exactly the surviving slots in their old order, none but off packets being for that loco |
| QueueRules.SpeedFor | CommandStation-EX/DCCQueue.cpp:87-98 | what the high queue has for a loco |
| QueueRules.SpeedIsQueued | CommandStation-EX/DCCQueue.cpp:87-98 | the new speed packet is queued for its loco if and only if no off packet is taken for the loco's first slot (or it was queued already) |
| QueueRules.OffTakenForLoco | CommandStation-EX/DCCQueue.cpp:87-98 | such an off packet comes about, from empty queues on: an accessory set and sent by 65439 ms waits until 65539, and a stop for loco 3 overwrites it |
| QueueTurns.NextInTurn | CommandStation-EX/DCCQueue.cpp:165-218 | scheduleNext sends the first slot of the high queue that can go, and only if there is none the first of the low one; idle, or nothing, only if neither has one; with what is then left queued |
| QueueTurns.SomeTurn | CommandStation-EX/DCCQueue.cpp:179-217 | in every queue there is a first slot that can go, or none can |
| QueueTurns.OffIs | CommandStation-EX/DCCQueue.cpp:204-212 | an accessory's off packet is due its delay after the on packet went out, and is the same packet but for the C bit |
| QueueTurns.OffWaitsItsTime | CommandStation-EX/DCCQueue.cpp:179-183 | an off packet is never sent before its time |
| QueueTurns.OthersStay | CommandStation-EX/DCCQueue.cpp:81-162 | whatever is scheduled, but an estop, leaves every other packet queued where it is |
| QueueTurns.JoinsEnd | CommandStation-EX/DCCQueue.cpp:81-162 | other packets join the low queue's end as they were given |
| QueueTurns.GroupsApart | CommandStation-EX/DCCQueue.cpp:103-113 | each of the five function groups has a slot kind of its own, other numbers have none |
| QueueTurns.FunctionIsQueued | CommandStation-EX/DCCQueue.cpp:102-126 | a function packet is then what is queued for its loco and group, and every other loco and group has what it had |
| QueueDrain.AfterOwes | CommandStation-EX/DCCQueue.cpp:184-213 | sending a slot uses up exactly the airtime it takes, an on packet's off included |
| QueueDrain.NextOwes | CommandStation-EX/DCCQueue.cpp:165-218 | scheduleNext takes off what is owed exactly what it puts out |
| QueueDrain.AirtimeIsConserved | CommandStation-EX/DCCQueue.cpp:165-218 | over any run with nothing arriving, what went out and what is left add up |
| QueueDrain.ServedAfterIdle | CommandStation-EX/DCCQueue.cpp:165-218 | after a forced idle anything not delayed can go out |
| QueueDrain.TwoCallsProgress | CommandStation-EX/DCCQueue.cpp:165-218 | with no off packet delayed, two forced calls make what is owed strictly less |
| QueueDrain.QueuesDrain | CommandStation-EX/DCCQueue.cpp:165-218 | so the queues are empty after twice as many forced calls as sends were owed |
| PacketQueue.Apart | CommandStation-EX/DCCQueue.cpp:46-78 | high queue, low queue, recycle list and the slot in hand share no slot and together have as many as were ever made |
| PacketQueue.PacketList.AddQueue | CommandStation-EX/DCCQueue.cpp:46-51 | the node is last, the rest as before; the list stays acyclic with its tail last |
| PacketQueue.PacketList.JumpQueue | CommandStation-EX/DCCQueue.cpp:53-57 | the node is first, the rest as before |
| PacketQueue.PacketList.Remove | CommandStation-EX/DCCQueue.cpp:65-78 | exactly this node leaves, wherever it is; nothing happens when it is not there |
| PacketQueue.PacketList.Search | CommandStation-EX/DCCQueue.cpp:67-75 | the walk ends at the node, with the one before it, or past the end |
| PacketQueue.PacketList.Unlink | CommandStation-EX/DCCQueue.cpp:70-72 | the list without the node, its tail right |
| PacketQueue.PacketList.FindLoco | CommandStation-EX/DCCQueue.cpp:88-96 | the first slot with the loco's number |
| PacketQueue.PacketList.FindGroup | CommandStation-EX/DCCQueue.cpp:115-123 | the first slot for this loco and function group |
| PacketQueue.PacketList.FindSendable | CommandStation-EX/DCCQueue.cpp:181-199 | the first slot that may go out now |
| PacketQueue.PacketList.Rewrite | CommandStation-EX/DCCQueue.cpp:91-94 | one slot's packet is replaced, nothing else |
| PacketQueue.Station.Count | CommandStation-EX/DCCQueue.cpp:231-232 | the walk counts the queue |
| PacketQueue.Station.Take | CommandStation-EX/DCCQueue.cpp:222-242 | a recycled slot if there is one, else a new one; the leak that would be reported then cannot be there |
| PacketQueue.Station.GetSlot | CommandStation-EX/DCCQueue.cpp:221-255 | a slot of that content, in no list, and the three lists still apart |
| PacketQueue.Station.Recycle | CommandStation-EX/DCCQueue.cpp:60-63 | a slot that was taken out is free again |
| PacketQueue.Station.ScheduleDCCPacket | CommandStation-EX/DCCQueue.cpp:81-83 | the packet joins the low queue; the lists stay acyclic, disjoint and complete |
| PacketQueue.Station.ScheduleDCCSpeedPacket | CommandStation-EX/DCCQueue.cpp:87-98 | replaces in place or joins the high queue, as specified |
| PacketQueue.Station.ScheduleDCCFunctionPacket | CommandStation-EX/DCCQueue.cpp:102-125 | replaces in place or joins the low queue, as specified; ignores other groups |
| PacketQueue.Station.ScheduleEstopPacket | CommandStation-EX/DCCQueue.cpp:132-149 | purges during the walk and jumps the queue, as specified |
| PacketQueue.Station.Purge | CommandStation-EX/DCCQueue.cpp:138-146 | the walk that recycles as it goes leaves exactly the survivors |
| PacketQueue.Station.ScheduleAccOnOffPacket | CommandStation-EX/DCCQueue.cpp:155-159 | the on packet joins the low queue with its delay in the shared word |
| PacketQueue.Station.Release | CommandStation-EX/DCCQueue.cpp:201-212 | a sent slot is recycled, or becomes its own delayed off packet at the front of the high queue |
| PacketQueue.Station.SendHigh | CommandStation-EX/DCCQueue.cpp:179-218 | one send from the high queue |
| PacketQueue.Station.SendLow | CommandStation-EX/DCCQueue.cpp:179-218 | one send from the low queue, its off packet moving to the high one |
| PacketQueue.Station.ScheduleNext | CommandStation-EX/DCCQueue.cpp:165-177 | what goes out and the whole new state of both queues, as specified |
| BitStream.ByteBits | CommandStation-EX/DCCWaveform.cpp:40-62 | a byte's eight bits, highest first, by the bit masks |
| BitStream.SameStream | CommandStation-EX/DCCRMT.cpp:135-162 | but for where the end bit is counted, the tick-driven stream and the RMT stream of the same frames are one |
| BitStream.SummedIsZero | CommandStation-EX/DCCWaveform.cpp:203-218 | a packet with its checksum cancels out under exclusive or |
| BitStream.ReceivesFrame | CommandStation-EX/DCCWaveform.cpp:142-201 | a decoder that saw a long enough preamble receives the frame behind it |
| BitStream.ReceivesWave | CommandStation-EX/DCCWaveform.cpp:142-201 | any frames, each behind its preamble, are received as exactly those frames in order |
| BitStream.StreamIsFrames | CommandStation-EX/DCCWaveform.cpp:142-201 | so the stream has one reading |
| BitStream.ReceivesRmt | CommandStation-EX/DCCRMT.cpp:225-238 | the same for frames with end bits of their own |
| BitStream.LevelsAreBits | CommandStation-EX/DCCWaveform.cpp:40-62 | the levels of the pin read back as exactly the bits |
| FrameLog.BlockOfJob | CommandStation-EX/DCCWaveform.cpp:224-252 | every packet taken has one run of frames, behind those of earlier packets and before those of later ones |
| FrameLog.FramesCancel | CommandStation-EX/DCCWaveform.cpp:203-252 | the bytes of every frame sent cancel out under exclusive or |
| FrameLog.FramesFull | CommandStation-EX/DCCWaveform.cpp:203-252 | no frame is empty |
| WaveStream.StepsSchedule | CommandStation-EX/DCCWaveform.cpp:203-218 | the producer's steps, undisturbed, add up to one packet scheduled |
| WaveStream.PromoteKeeps | CommandStation-EX/DCCWaveform.cpp:224-252 | choosing a repeat, the pending packet or a filler adds just that frame to what was sent |
| WaveStream.PreambleStream | CommandStation-EX/DCCWaveform.cpp:142-178 | a preamble one is the next bit of the framed stream |
| WaveStream.DataStream | CommandStation-EX/DCCWaveform.cpp:180-199 | a data bit is the next bit of the framed stream |
| WaveStream.LevelStep | CommandStation-EX/DCCWaveform.cpp:75-104 | a tick drives the pin as the bit being sent asks |
| WaveStream.StepKeeps | CommandStation-EX/DCCWaveform.cpp:75-252 | the invariant over any interleaving of ticks and producer steps: what was sent is whole frames and a part of the next |
| WavePromise.EachJobAsAsked | CommandStation-EX/DCCWaveform.cpp:203-252 | in every reachable state each packet taken had one run of frames, in turn, exactly repeats + 1 of them unless its repeats were cleared or it is still going out |
| WavePromise.FillersOnlyWhenIdle | CommandStation-EX/DCCWaveform.cpp:240-252 | idle and reset frames go out only when every accepted packet had been taken |
| WavePromise.DecoderSeesFrames | CommandStation-EX/DCCWaveform.cpp:142-201 | in every reachable state a decoder has received exactly the frames that are over, in order |
| WavePromise.PinSpellsBits | CommandStation-EX/DCCWaveform.cpp:75-104 | between bits, the pin's levels read back as exactly the bits |
| WaveServed.ScheduleIsAccepted | CommandStation-EX/DCCWaveform.cpp:203-218 | a packet that fits, scheduled when nothing is pending, is accepted after its producer's steps, one for each byte and five more, whatever the interrupt does meanwhile |
| WaveServed.TickComesCloser | CommandStation-EX/DCCWaveform.cpp:75-201 | each tick comes closer to the choice of the next frame, or makes it |
| WaveServed.PendingGoesOut | CommandStation-EX/DCCWaveform.cpp:75-252 | in every reachable state what is pending is taken within a bound of ticks, the repeats of the one before it included, whatever its producer does |
| WaveServed.ExactlyAsAsked | CommandStation-EX/DCCWaveform.cpp:224-252 | unless somebody clears repeats, every packet that is over went out its repeats and once |
| WaveResets.ResetsExact | CommandStation-EX/DCCWaveform.cpp:203-252 | just a packet going out for the first time and the end of schedulePacket clear the reset counter, and just a filler counts |
| WaveResets.ResetsWereChosen | CommandStation-EX/DCCWaveform.cpp:224-252 | in every reachable state at least as many of the frames chosen last as the counter says were fillers, on the programming track resets |
| WaveResets.CountsEachFiller | CommandStation-EX/DCCWaveform.cpp:224-252 | while no packet comes each frame counts, up to 250 |
| Waveform.DCCWaveform.PromotePendingPacket | CommandStation-EX/DCCWaveform.cpp:224-252 | the buffers in place: whole new state of transmit side and pending flag |
| Waveform.DCCWaveform.Interrupt2 | CommandStation-EX/DCCWaveform.cpp:142-201 | the next bit and the whole new state |
| Waveform.DCCWaveform.Interrupt | CommandStation-EX/DCCWaveform.cpp:75-104 | one tick: the pin's level and the whole new state |
| Waveform.DCCWaveform.SchedulePacket | CommandStation-EX/DCCWaveform.cpp:203-218 | the pending buffer holds the packet and its checksum; one that is too long is ignored |
| RmtMachine.Interrupt | CommandStation-EX/DCCRMT.cpp:246-264 | the end of a round leaves the channel's buffers in shape |
| RmtMachine.CallKeeps | CommandStation-EX/DCCRMT.cpp:206-244 | any step of the caller keeps the data buffer what the ready flag says it is |
| RmtPromise.HeldGoesOut | CommandStation-EX/DCCRMT.cpp:135-162 | what the hardware sends of its memory is the preamble, the bytes behind their zeros, and the end bit |
| RmtPromise.PrefillHolds | CommandStation-EX/DCCRMT.cpp:199-204 | before the first packet the memory holds the idle frame |
| RmtPromise.RoundKeeps | CommandStation-EX/DCCRMT.cpp:246-264 | the end of a round keeps the run of every packet in order and counted |
| RmtPromise.StepKeeps | CommandStation-EX/DCCRMT.cpp:206-264 | the invariant over any interleaving of caller steps and ends of rounds |
| RmtPromise.EachPacketAsAsked | CommandStation-EX/DCCRMT.cpp:206-264 | in every reachable state each packet that went out did so in one run of rounds, in turn: repeats + 1 of them, but one for repeats 255 |
| RmtPromise.LostExactlyWhenWrapped | CommandStation-EX/DCCRMT.cpp:254-262 | data is reported lost if and only if a packet with 255 repeats went out |
| RmtPromise.RailsAreFrames | CommandStation-EX/DCCRMT.cpp:225-264 | in every reachable state a decoder received exactly the frames sent, and the rails carry the tick-driven stream of the same frames but for the end bits |
| RmtPromise.CallsAddUp | CommandStation-EX/DCCRMT.cpp:206-244 | undisturbed, the caller's stores add up to one call of RMTfillData |
| RmtServed.ScheduleIsAccepted | CommandStation-EX/DCCRMT.cpp:206-244 | a packet that fits, scheduled in any reachable state, is accepted after the rounds that were left and its caller's steps, whatever else happens |
| RmtServed.RoundTakes | CommandStation-EX/DCCRMT.cpp:246-275 | what was accepted is what the hardware sends from the end of the round going on |
| RmtChannel.FillerItems | CommandStation-EX/DCCRMT.cpp:147-162 | the idle frame item by item, on either track |
| RmtChannel.RMTChannel.constructor | CommandStation-EX/DCCRMT.cpp:106-204 | the channel starts with its preamble and idle frame in the hardware's memory |
| RmtChannel.RMTChannel.MakePreamble | CommandStation-EX/DCCRMT.cpp:135-145 | the preamble's items |
| RmtChannel.RMTChannel.MakeIdle | CommandStation-EX/DCCRMT.cpp:147-162 | the idle or reset frame's items are those of the filler packet |
| RmtChannel.RMTChannel.FillTx | CommandStation-EX/DCCRMT.cpp:199-204 | items go to the hardware's memory from an offset on, nothing else changes |
| RmtChannel.RMTChannel.RMTInterrupt | CommandStation-EX/DCCRMT.cpp:246-264 | the end of a round in place |
| RmtChannel.RMTChannel.RMTfillData | CommandStation-EX/DCCRMT.cpp:206-244 | refused while there is work, else the data buffer holds the framed packet, ready; never -1 for what schedulePacket passes on |
| RmtChannel.RMTChannel.WriteBytes | CommandStation-EX/DCCRMT.cpp:225-234 | the loops write every bit of every byte behind its zero |
| WsQueue.ReserveKeeps | CommandStation-EX/HTTPServer.cpp:123-141 | a slot reserved is the one behind the last accepted item, which nobody else fills or reads |
| WsQueue.FillKeeps | CommandStation-EX/HTTPServer.cpp:143-155 | an unlocked store concerns no slot but the producer's own |
| WsQueue.PublishKeeps | CommandStation-EX/HTTPServer.cpp:157-159 | when a slot is published it holds its item whole |
| WsQueue.ReadsNext | CommandStation-EX/HTTPServer.cpp:164-172 | what the consumer reads is whole, and the next in turn |
| WsQueue.StepKeeps | CommandStation-EX/HTTPServer.cpp:95-205 | the invariant over any step of any producer or the consumer |
| WsCopies.PopsItsCopy | CommandStation-EX/HTTPServer.cpp:174-205 | pop takes the copy of the item in turn |
| WsCopies.FirstInFirstOut | CommandStation-EX/HTTPServer.cpp:95-205 | in every interleaving what was handled is what was accepted, in order of reservation, each once, but for the at most six still in the ring |
| WsCopies.SeesOnlyWholeItems | CommandStation-EX/HTTPServer.cpp:1639-1672 | the consumer never sees a slot that is not whole or out of turn |
| WsCopies.FreedOnceOnPop | CommandStation-EX/HTTPServer.cpp:174-205 | the copy of an accepted item is freed once, on its pop and not before |
| WsCopies.NothingLeaks | CommandStation-EX/HTTPServer.cpp:95-205 | when ring and producers are done, every copy ever made has been freed exactly once |
| WsServed.HandlesNext | CommandStation-EX/HTTPServer.cpp:1639-1668 | two steps handle the next accepted item and change nothing else; a data item without headroom stays, and everything is as it was |
| WsServed.PopsNext | CommandStation-EX/HTTPServer.cpp:1670-1672 | two more take it from the ring and free its copy |
| WsServed.StepProgress | CommandStation-EX/HTTPServer.cpp:1639-1672 | with headroom each step of the consumer gets on while a published item is left, and no other step sets it back |
| WsServed.AllHandled | CommandStation-EX/HTTPServer.cpp:1639-1672 | the first n accepted items being published, all are handled in order after four steps of the consumer for each, with headroom, whatever the producers do meanwhile |
| WsServed.TakesMessage | CommandStation-EX/HTTPServer.cpp:98-121 | a message that fits and for which there is memory is taken by an idle producer, any other is dropped without trace |
| WsServed.AcceptsOrDrops | CommandStation-EX/HTTPServer.cpp:123-141 | it is accepted as the last if and only if the ring has room, else its copy is freed |
| WsServed.GetsPublished | CommandStation-EX/HTTPServer.cpp:143-159 | an accepted item is published once its producer has made its five stores and the step behind them, whatever anybody else does |
| WsInbound.InboundQueue.ReserveSlot | CommandStation-EX/HTTPServer.cpp:123-141 | the locked section that reserves |
| WsInbound.InboundQueue.FillSlot | CommandStation-EX/HTTPServer.cpp:143-155 | the unlocked stores, and the stale copy to free |
| WsInbound.InboundQueue.PublishSlot | CommandStation-EX/HTTPServer.cpp:157-159 | the locked section that publishes |
| WsInbound.InboundQueue.PeekSlot | CommandStation-EX/HTTPServer.cpp:164-172 | the head slot if it is ready |
| WsInbound.InboundQueue.PopSlot | CommandStation-EX/HTTPServer.cpp:174-205 | the locked section that frees the head slot, and the copy to free |
| SignalSettles.EvaluatedAims | CommandStation-EX/DCCExpressLiteSignalLogic.cpp:149-167 | once evaluated, every signal is heading for, or shows, the value its rules give now |
| SignalSettles.EvaluatedKeeps | CommandStation-EX/DCCExpressLiteSignalLogic.cpp:149-167 | evaluating keeps what was sent equal to the recorded progress, even in the middle of an update |
| SignalSettles.WriteKeeps | CommandStation-EX/DCCExpressLiteSignalLogic.cpp:169-209 | so does writing one output |
| SignalSettles.LinesMatchProgress | CommandStation-EX/DCCExpressLiteSignalLogic.cpp:149-209 | while the engine runs, after any actions in any order, the lines already written match the recorded progress |
| SignalSettles.LoadedMatches | CommandStation-EX/DCCExpressLiteSignalLogic.cpp:519-549 | as loaded, nothing is recorded as sent, so any lines match |
| SignalSettles.ReachedMatches | CommandStation-EX/DCCExpressLiteSignalLogic.cpp:519-607 | so the lines match in every state that can be reached from reload on |
| SignalSettles.AimedIsStable | CommandStation-EX/DCCExpressLiteSignalLogic.cpp:149-167 | evaluating again with the same inputs changes nothing |
| SignalSettles.ProcessAims | CommandStation-EX/DCCExpressLiteSignalLogic.cpp:169-209 | one loop sends one output as long as any is left |
| SignalSettles.AimedSettles | CommandStation-EX/DCCExpressLiteSignalLogic.cpp:551-561 | with inputs still, as many loops as outputs are left send them all |
| SignalSettles.SettlesOnRules | CommandStation-EX/DCCExpressLiteSignalLogic.cpp:551-561 | within the sum of output counts further loops every line shows what direct evaluation of the rules asks for |
| SignalPromise.MatchesFulfilled | CommandStation-EX/DCCExpressLiteSignalLogic.cpp:129-140 | a rule matches if and only if every point it names can be read and is as the condition wants it, set or clear |
| SignalPromise.ValueAsks | CommandStation-EX/DCCExpressLiteSignalLogic.cpp:142-147 | a signal's value is that of the first rule that is fulfilled, or if none is its default |
| SignalPromise.ShowsSays | CommandStation-EX/DCCExpressLiteSignalLogic.cpp:184-199 | an extended signal's aspect is the value; a basic one's outputs spell its bits, the lowest at the signal's own address |
| SignalPromise.ToldSettles | CommandStation-EX/DCCExpressLiteSignalLogic.cpp:551-607 | from loading on, whatever happened: once the engine is told of a change, as many loops as there are outputs make every signal say what its first fulfilled rule asks for, if the engine runs, and else nothing is sent |
| SignalPromise.SwitchedOff | CommandStation-EX/DCCExpressLiteSignalLogic.cpp:563-573 | once switched off nothing is sent, whatever happens, until it is switched on |
| SignalPromise.EnabledRuns | CommandStation-EX/DCCExpressLiteSignalLogic.cpp:563-576 | it says it is enabled just when it runs |
| SignalLogic.Logic.constructor | CommandStation-EX/DCCExpressLiteSignalLogic.cpp:519-549 | as reload leaves it: nothing sent, an evaluation pending |
| SignalLogic.Logic.DoesRuleMatch | CommandStation-EX/DCCExpressLiteSignalLogic.cpp:135-140 | the loop over the conditions finds whether all of them hold |
| SignalLogic.Logic.EvaluateSignal | CommandStation-EX/DCCExpressLiteSignalLogic.cpp:142-147 | the value of the first rule that matches, else the default |
| SignalLogic.Logic.EvaluateAll | CommandStation-EX/DCCExpressLiteSignalLogic.cpp:149-167 | every signal in place as specified |
| SignalLogic.Logic.ProcessOneOutput | CommandStation-EX/DCCExpressLiteSignalLogic.cpp:169-209 | the one write, and the whole new table |
| SignalLogic.Logic.LoopOnce | CommandStation-EX/DCCExpressLiteSignalLogic.cpp:551-561 | one loop: evaluation if pending, then one output |
| SignalLogic.Logic.TurnOn | CommandStation-EX/DCCExpressLiteSignalLogic.cpp:563-573 | switching on forgets what was sent, switching off stops |
| SignalLogic.Logic.NotifyTurnout | CommandStation-EX/DCCExpressLiteSignalLogic.cpp:579-587 | a turnout change asks for an evaluation |
| SignalLogic.Logic.Reevaluate | CommandStation-EX/DCCExpressLiteSignalLogic.cpp:599-607 | everything is to be sent again |
| LayoutIds.SmallestFree | CommandStation-EX/DCCExpressLiteLayoutRegistry.cpp:95-106 | the smallest unreserved number, or 0 if there is none |
| LayoutIds.Pass1Collects | CommandStation-EX/DCCExpressLiteLayoutRegistry.cpp:291-330 | the first pass reserves exactly the distinct valid numbers asked for, and fails only for lack of room |
| LayoutIds.RoomLeft | CommandStation-EX/DCCExpressLiteLayoutRegistry.cpp:95-106 | with at most 384 elements allocation never runs out of room |
| LayoutIds.NewIsFirst | CommandStation-EX/DCCExpressLiteLayoutRegistry.cpp:125-148 | a number is new to the second pass exactly at the first element that asks for it |
| LayoutIds.AssignsNumber | CommandStation-EX/DCCExpressLiteLayoutRegistry.cpp:125-148 | the first to ask for a number gets it |
| LayoutIds.AssignsFree | CommandStation-EX/DCCExpressLiteLayoutRegistry.cpp:125-148 | every other element gets the smallest number not reserved |
| LayoutIds.ReloadGives | CommandStation-EX/DCCExpressLiteLayoutRegistry.cpp:291-364 | reload succeeds if and only if there are at most 384 elements, and then every element has what it is to be given and the legacy table what it is to hold |
| LayoutIds.IdsAreDistinct | CommandStation-EX/DCCExpressLiteLayoutRegistry.cpp:291-364 | all ids are distinct and in 1 to 65535; the first holder of a valid number keeps it |
| LayoutIds.LegacyResolves | CommandStation-EX/DCCExpressLiteLayoutRegistry.cpp:504-517 | a legacy text resolves to its first owner's id if and only if no earlier text shares its hash |
| LayoutIds.UnknownTextResolvesToNothing | CommandStation-EX/DCCExpressLiteLayoutRegistry.cpp:504-517 | a text resolves to nothing if and only if no element's text has its hash |
| LayoutRegistry.ContainsValue | CommandStation-EX/DCCExpressLiteLayoutRegistry.cpp:59-64 | the loop finds whether the value is among the first count items |
| LayoutRegistry.Tables.AllocateId | CommandStation-EX/DCCExpressLiteLayoutRegistry.cpp:95-106 | the smallest free id, now reserved, or 0 |
| LayoutRegistry.Tables.FindFree | CommandStation-EX/DCCExpressLiteLayoutRegistry.cpp:95-106 | the counting-up loop gives the smallest number not reserved |
| LayoutRegistry.Tables.FindLegacy | CommandStation-EX/DCCExpressLiteLayoutRegistry.cpp:108-118 | where a hash is remembered |
| LayoutRegistry.Tables.RememberLegacy | CommandStation-EX/DCCExpressLiteLayoutRegistry.cpp:108-123 | the first owner of a hash is remembered and later ones are not |
| LayoutRegistry.Tables.AssignedId | CommandStation-EX/DCCExpressLiteLayoutRegistry.cpp:125-148 | one element's id and all tables, as specified |
| LayoutRegistry.Tables.ReserveNumbers | CommandStation-EX/DCCExpressLiteLayoutRegistry.cpp:291-330 | the first pass over all layers |
| LayoutRegistry.Tables.AssignIds | CommandStation-EX/DCCExpressLiteLayoutRegistry.cpp:331-358 | the second pass over all layers |
| LayoutRegistry.Tables.ReloadLayout | CommandStation-EX/DCCExpressLiteLayoutRegistry.cpp:291-364 | both passes, the tables empty when it fails |
| LayoutRegistry.Tables.ResolveLegacyId | CommandStation-EX/DCCExpressLiteLayoutRegistry.cpp:504-517 | the id remembered for a text's hash |
| Reminders.FirstDue | CommandStation-EX/DCC.cpp:1046-1051 | the first row from here on that is due a reminder |
| Reminders.WaitShrinks | CommandStation-EX/DCC.cpp:1029-1056 | every call reminds the loco of its speed or brings that closer |
| Reminders.SpeedWithinTwoRounds | CommandStation-EX/DCC.cpp:1029-1056 | with the table unchanged, every loco that is no follower gets a speed reminder within its wait, at most 2n calls |
| Reminders.AnyTwoRounds | CommandStation-EX/DCC.cpp:1029-1149 | in any 2n consecutive calls, whatever function groups are touched |
| Reminders.StateWaitShrinks | CommandStation-EX/DCC.cpp:1029-1056 | every call reminds the loco in the given loop state or brings that closer |
| Reminders.WithinTenRounds | CommandStation-EX/DCC.cpp:1029-1149 | with no loco added or forgotten, whatever is due in a loop state is reminded in it within its wait, at most 10n calls |
| Reminders.GroupsReminded | CommandStation-EX/DCC.cpp:1104-1145 | so every function group that is and stays touched is reminded in any 10n calls |
| Reminders.OnlyWhatIsDue | CommandStation-EX/DCC.cpp:1071-1149 | no follower is reminded of its speed by itself, nor a function group never touched |
| LocoSlots.RoleIs | CommandStation-EX/LocoSlot.h:98-104 | lead, follower or neither, exactly as the place in the chain says |
| LocoSlots.JoinHomes | CommandStation-EX/DCCConsist.cpp:106-109 | chaining a loco alone behind a chain keeps every chain apart from the others |
| LocoSlots.PartHomes | CommandStation-EX/DCCConsist.cpp:71-77 | so does taking a chain apart |
| LocoSlots.ChainsAreApart | CommandStation-EX/DCCConsist.cpp:6-111 | two locos share one chain or their chains share nobody; chains are acyclic; a follower's lead is the head of its chain |
| LocoTable.Locos.Find | CommandStation-EX/LocoSlot.cpp:55-58 | the walk finds the loco's slot, if it has one |
| LocoTable.Locos.GetSlot | CommandStation-EX/LocoSlot.cpp:49-75 | the loco's slot, a recycled or new one alone at the front, or none; chains and lists stay as they should |
| LocoTable.Locos.DeleteAnyConsist | CommandStation-EX/DCCConsist.cpp:64-78 | the loco's whole chain falls apart into locos alone, other chains stay |
| LocoTable.Locos.AddLocoToConsist | CommandStation-EX/DCCConsist.cpp:80-111 | a loco alone joins behind the last of the consist; refused, nothing is chained |
| LocoTable.Locos.LeadOf | CommandStation-EX/DCCConsist.cpp:87-90 | backing up ends at the head of the chain |
| LocoTable.Locos.TailOf | CommandStation-EX/DCCConsist.cpp:92-96 | walking on ends at the last of the chain |
| LocoTable.Locos.CheckIds | CommandStation-EX/DCCConsist.cpp:22-34 | ids in 1 to 10239 and no loco twice |
| LocoTable.Locos.CheckAlone | CommandStation-EX/DCCConsist.cpp:43-49 | nobody listed is in a consist |
| LocoTable.Locos.Build | CommandStation-EX/DCCConsist.cpp:51-60 | the listed locos in order as one chain, each reversed where its number is negative; it gets stuck if and only if the slots in use and the listed locos without one exceed the table |
| LocoTable.ListTooLong | CommandStation-EX/DCCConsist.cpp:51-60 | for tables of up to 10238 slots there is such a list |
| LocoTable.Locos.Parse | CommandStation-EX/DCCConsist.cpp:6-62 | exactly, from the state before the call, which lists are refused, which succeed and which run into the null pointer; that the first loco's own consist is taken apart when it leads one; which chain is built; nobody else is touched |
| LocoTable.Locos.Clear | CommandStation-EX/DCCConsist.cpp:36-49 | the first loco's consist apart, a list can be built if nobody else's consist is asked for |
| LocoTable.Locos.DeleteLed | CommandStation-EX/DCCConsist.cpp:36-40 | the consist the first loco leads falls apart; when it leads none nothing does |
| LocoTable.Locos.Forget | CommandStation-EX/LocoSlot.cpp:77-90 | the slot leaves the table and is recycled, the other chains stay |
| LocoTable.Locos.ForgetLoco | CommandStation-EX/DCC.cpp:993-1003 | the loco is told to stop and gone, its consist apart, the reminder pointer still a slot of the table |
| LocoTable.Locos.ForgetAll | CommandStation-EX/DCC.cpp:1004-1011 | all are told to stop, nobody is left, and no pointer to anybody |
| LocoTable.Locos.EstopAll | CommandStation-EX/DCC.cpp:1203-1214 | everybody heads for an emergency stop in the direction they had |
| LocoTable.HaltedFollows | CommandStation-EX/DCC.cpp:1203-1214 | so a follower that ran the other way round stops the other way round |
| LocoTable.Locos.SetThrottle | CommandStation-EX/DCC.cpp:101-175 | when a lead's target changes, its code has the speed in the low bits and the direction on top, each follower's the same speed and the direction turned round if it is reversed, and each is told so, or an emergency stop while estop is locked; followers ignore it; cab 0 and an emergency stop are the broadcast |
| LocoTable.Locos.Throttle | CommandStation-EX/DCC.cpp:112-134 | the same for a slot that is there, and who is told what |
| LocoTable.Locos.SetTargets | CommandStation-EX/DCC.cpp:117-120 | every follower's target is the lead's, turned round exactly when reversed |
| LocoTable.Locos.SetThrottle2 | CommandStation-EX/DCC.cpp:138-143 | the whole chain has the speed and each is told the one it is to show |
| LocoTable.Locos.FindDue | CommandStation-EX/DCC.cpp:1046-1051 | the walk stops at the first slot that is due |
| LocoTable.Locos.IssueReminders | CommandStation-EX/DCC.cpp:1029-1056 | on the slots themselves: the reminder, the pointer and the loop state as specified |
| LocoTable.Locos.IssueReminder | CommandStation-EX/DCC.cpp:1071-1149 | whether this slot is due in this loop state |
| ExrailRun.EndifStep | CommandStation-EX/EXRAIL2.cpp:946-947 | an ENDIF is stepped over without effect: on to what follows the IF |

## Left out

- Hardware and drivers: timers, ADC, pins, I2C, display, Ethernet, WiFi, EEPROM; register and library calls.
- HTTP routes, JSON text, LittleFS, and all printed output; decoded records are taken as given.
- Web pages, the installer and patch tooling.
- EXRAIL opcodes that act on the layout (turnouts, servos, turntables, sound, LCC): one generic effect each, with what they answer coming from outside.
- EXRAIL blink tasks and `killBlinkOnVpin`, whose walk need not end when its own starting point is killed.
- EXRAIL's default case, which goes on in the function after the object has been deleted; it ends there in the model.
- A pausing EXRAIL task that ends without RESUME: `pausingTask` then names a deleted object; pause is a given of `Loop` here.
- RANDOM_CALL and RANDOM_FOLLOW with a count of 0: the source divides by zero; scripts give at least one choice.
- `DCCEXParser`, `DCCDecoder` and the single-packet encoders: finite codecs and a large dispatch.
- Momentum arithmetic, saved speeds, the effect of a speed reminder on the speed, DC tracks, SPEED28 conversion, RailCom cutout, the estop lock and the broadcasts to throttles.
- `reminderWindowOpen` and the diagnostics counters.
- The ESP32's way to count resets, as a difference of packet counts; the counter of `WaveResets` is the tick-driven generator's.
- Layout endpoint tables (`indexElement`) and caches of run-time state: they only add range and map facts.
- Parsing of the signal rules file, and when sensors are polled: whether a loop noticed a change is an input.
- The check of `processOneOutput` that an output writer is registered: one always is here.
- Wrap-around of `millis()` in the ack manager; its times are unbounded here. The packet queue's 32-bit start times do wrap.
- AckManager.AckManager.Setup: the retry count is any natural number, where the station reads it from a byte.
- PacketQueue.Station.ScheduleNext: one call reads the clock once, where the source may read it again for the off packet's start.
- PacketQueue.PacketList.Rewrite: a slot's packet buffer is a sequence held in a field, not a separate array; replacing in place needs packets that fit it.
- Waveform.DCCWaveform.SchedulePacket: the wait for room is the producer's waiting state of `WaveMachine`, not a loop.
- RmtPromise.EachPacketAsAsked: the hardware fetching its memory while it is rewritten at the end of a round is one step.
- WavePromise.EachJobAsAsked: a packet whose repeats the producer clears may have fewer frames, never more.
- LocoTable.Locos.IssueReminder: says whether a reminder is due; what is sent for it is left out.
- LocoTable.Locos.Build: the lead's direction is set last, after the chain, where the source sets it first.
- LayoutIds.LegacyResolves: about hashes, not texts; texts whose hashes collide share the first one's id, as in the source.
- SignalSettles.SettlesOnRules: for signals whose endpoints are present and whose addresses are disjoint, as the rules file is meant to give.
- ExrailTasks.Exrail.Loop: which EXRAIL task is served, not what it then does; that is `ExrailVm.Task.Loop2`.
- ExrailRun.RunsAgree: delays and waits are services that answer "not ready"; how long they last is an input.
- AckCalls.SetupIsServed: commands that switch the programming track or join it while a program is under way are not acts of the run; between runs the track may be in any state.
- AckCalls.RefusedKeeps: a request turned away during a run for want of a driver also leaves `progDriver` null for that run; what going through it then does is not modelled.
- Programs that do not start with BASELINE or can run off their table: requests are for programs like the station's, which `AckFit.StockIsFit` shows to be none of these.
- LocoTable.Locos.GetSlot: the heap never runs out; only the table does.
- Section ids of 256 and more, beyond `NoExclusionBeyondTable`: `EXRAILAsserts.h:134-142` and the operator's command keep them out.
- The ring's order in `ExrailFlags`: EXRAIL tasks are served there in any order, and ids marked at any time, which covers every order the ring gives.
