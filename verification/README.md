# A verified model of a WebAssembly module rewriter

The rewriter decodes a binary module, edits its index spaces and instruction lists, and encodes the
result.  Its routines insert code that records a run, replays it, traces branches, or logs memory
accesses.  These files model its hardest parts in Dafny and prove what they are for.

- **Generated code.**  `Wasm` is a small evaluator: structured labels as in section 4.4.8 of the
  WebAssembly Core Specification 2.0, two byte memories, host functions as arbitrary answers.  `Flat`
  turns structured code into the flat token lists the builders push, and `Ladder` is the one theorem
  about block ladders of any depth.  On these rest the replay switches (`Replay*`), the shadow-memory
  recorder (`Recorder*`; in `RecorderHost` whole programs beside a host that writes to their memory), the
  branch tracer (`Tracer*`), and the guarded access logging (`Mem*`).  In each case methods with the
  program's loops build the tokens, and lemmas say what the tokens do.
- **Protocols.**  `Mutex` is the emitted lock as a step system, one atomic instruction a step, any
  number of threads; `Ticket` is the counter that orders replay across threads.
- **Numbering.**  `AccessNumbering`: the record and the replay pass number the same accesses alike.
- **Scopes and partitions.**  `Scopes`, `ScopeTree`: the stack machine over `block`, `loop`, `if`,
  `else`, `end`.  `Partition*`: the greedy partitioner with its balance bound.
- **The module core.**  `Leb128`, `LebProof`: LEB128 as in section 5.2.2 of the WebAssembly
  Core Specification 2.0. `Codec*`: readers and writers of every section as functions with the
  round-trip theorems, reading of numbers that others padded (`CodecSpelling`), a module byte for
  byte (`CodecSample`), and `CodecIo`, `CodecLoops`, `CodecMain` as the loops over a buffer and a
  byte deque, proved equal to them. `Addresses`, `ModuleRefs`: declarations at addresses, references
  by address, and the view by index. `DeepCopy`: copying with a reassignment cache. `ModuleEdit` to
  `ModuleRuns`: additions and removals, `ModuleContents`: what addresses denote through them.
  `FuncrefObj`, `FuncrefAll`: wrapping function references. `IndirectCalls`, `FuncrefWrap`: whole
  programs before and after wrapping; `Evaluators`: their evaluator agrees with `Wasm`;
  `FuncrefKept`: call sites that are left as they are. `FuncrefGen`, `FuncrefLink`, `FuncrefProg`:
  from instruction lists and modules to those programs; `FuncrefPass`: both passes over a module.
  `ModuleObject` is the module as an object with all these operations.

A property that the code does not have in general is stated with the exact condition under which it
does, and with an input that shows the rest:

- The arms for `writev`, `futex`, thread and process calls leave operands above the recorded value
  (`CleanIffNeutral`, `WritevReturnsOperand`).
- The loop that splits props by thread ends just for sorted props (`SplitEndsIffSorted`,
  `UnsortedNeverEnds`).
- Replay can make all calls just when sync ids ascend within every thread and exits come last; then it
  does so in whatever order the threads run (`CompletesIffAscending`, `EveryRunFinishes`,
  `BackwardsStuck`, `EarlyExitStops`).
- The check before tracing admits the position 2^24, which spills into the next field (`PackingExact`,
  `SpilledEvent`).
- A trace is true just when no function that begins with a loop was left by a branch (`TracedTruth`,
  `LooplessTruth`, `LeadingLoopMisread`).
- The partitioner's walk misses a subscope that starts where the previous one ends, as `else` does; it
  then hands out accesses twice (`WalksAreOwn`, `WeightsRightIffClean`, `ElseRepeats`, `ElseOverlaps`).
- An access filter that names 0 blocks all others (`FilterExact`, `ZeroBlocks`), and the last mask byte
  lies behind the added pages when their number divides evenly (`MaskFits`, `LastGuardTraps`).
- A module comes back from its encoding just when it is well-formed (`RoundTripExact`): an import after
  a definition of its kind and an empty custom section do not survive (`LateImportLost`,
  `EmptyCustomLost`).  What is accepted in order comes back without its empty custom sections
  (`AcceptedComesBack`).
- A segment that was announced and never read can be neither encoded nor copied (`AcceptedIsWritten`,
  `PatchDatas`, `CountOnlyAccepted`).
- Removing a function leaves nothing dangling just when nothing but its own code, its import and its
  first name refers to it (`DanglesIffReferenced`, `CallDangles`).
- A copy's name pointer stays behind when the original has no name section (`CopyInOrder`,
  `PointerLeftBehind`).
- An indirect call in a function that the recorder skips keeps its meaning just when nothing is
  marshalled, or the function in its place has neither the type called nor one that the marshalled
  values lengthen to it (`KeptSiteIff`, `CallNowTraps`, `TrapNowCalls`).

Integers are unbounded; where the program's width matters, wrap-around is written out (`Wrap32`,
`Wrap64`).  A method's `ensures` names the specified value or state; the lemmas are about that.
`dafny verify dfyconfig.toml` checks everything.

## Model

| member | source | states |
|---|---|---|
| `ReplayRun.ReplayRefines` | api/routines/r3_replay.cpp:463-588 | from fresh trackers, any sequence of calls by any threads to the stored function has the outcome of the recorded calls in that order (the k-th call of a thread applies exactly its k-th prop and traps when there is none), and the trackers count the calls; sides that do not return a value to their caller are excluded by `Usable` |
| `ReplayRun.CallStored` | api/routines/r3_replay.cpp:463-588 | one call of the stored token list with the tracker at k: prop k of the caller is applied, its value returned and the tracker moved on; a caller above the thread range, or with no prop left, traps |
| `ReplayRun.RunReturns` | src/builder.cpp:71-104 | after any sequence of calls, a call that comes back leaves exactly the value recorded with the caller's next prop: all 64 bits of it for the 64-bit types, the low 32 for the others |
| `ReplayRun.BodyMeaning` | api/routines/r3_replay.cpp:511-583 | the nested switches evaluated on an empty stack are that one call |
| `ReplayProof.UnitExec` | api/routines/r3_replay.cpp:353-416 | the switch over one thread's props replays the prop its tracker selects, for any number of props |
| `ReplayProof.TakeJunk` | api/routines/r3_replay.cpp:228-306 | for the other call ids the branch out of the arm hands over the topmost operand left behind instead of the recorded value |
| `ReplayProof.DeliversIff` | api/routines/r3_replay.cpp:233-310 | with a result, it is delivered if and only if the arm leaves it alone on the caller's operands |
| `ReplayArms.ArmExec` | api/routines/r3_replay.cpp:175-350 | one arm, any call id: wait, log, side effects, stores in order and counter, with exactly the operands that are left |
| `ReplayArms.CleanIffNeutral` | api/routines/r3_replay.cpp:228-306 | the recorded value is alone on top if and only if the call id leaves no operands |
| `ReplayArms.RunCall` | api/routines/r3_replay.cpp:240-313 | the code of a call id has that call's effect and leaves its operands above what was there; exits do not come back |
| `ReplayArms.WaitFunction` | api/routines/r3_replay.cpp:593-611 | the wait function returns exactly when the counter holds its parameter; otherwise no bound on its iterations is enough, and it traps when the counter is outside the memory |
| `ReplayGen.CallSideEffects` | api/routines/r3_replay.cpp:240-313 | the instructions pushed per call id, and whether the counter must move on first |
| `Replay.LogReads` | api/routines/r3_replay.cpp:147-164 | with debug handlers a prop logs its site, place and fields, each where the log function has it |
| `Replay.CodesApart` | api/routines/r3_common.h:9-21 | the codes of the call ids are those of the recorder and lead back to them |
| `Replay.FutexKnownIff` | api/routines/r3_common.h:23 | a futex call has an effect if and only if its operation is wait or wake |
| `Replay.SupportedIff` | api/routines/r3_replay.cpp:312-334 | the stores of a prop are all performed if and only if each has a size there is an instruction for |
| `ReplayGen.StoreSideEffects` | api/routines/r3_replay.cpp:315-336 | the loop over the stores emits them in order |
| `ReplayGen.ConstructSingleReplayProp` | api/routines/r3_replay.cpp:175-350 | the pushed tokens are those of the arm |
| `ReplayGen.OpenSwitch` | api/routines/r3_replay.cpp:377-387 | the loop that opens the blocks, the dummy value and the table |
| `ReplayGen.ConstructThreadReplayProps` | api/routines/r3_replay.cpp:353-416 | the pushed tokens are those of the nested switch, arm i branching past the arms behind it |
| `ReplayGen.ConstructTidSwitch` | api/routines/r3_replay.cpp:518-568 | the thread switch with one arm for every thread id |
| `ReplayGen.InsertReplayOp` | api/routines/r3_replay.cpp:463-583 | the loop that cuts the props into runs by thread id builds the stored function; with sorted props it ends and gives each prop to one arm |
| `ReplayGen.SplitEndsIffSorted` | api/routines/r3_replay.cpp:547-565 | the splitting loop comes to an end if and only if the props are sorted by thread id |
| `ReplayGen.SliceIsPropsOf` | api/routines/r3_replay.cpp:549-554 | a run that the loop cuts out is all of the thread's props |
| `ReplayGen.CreateWaitSyncIdFunc` | api/routines/r3_replay.cpp:593-611 | the tokens of the wait loop |
| `ReplayGen.UnsortedNeverEnds` | api/routines/r3_replay.cpp:547-565 | two props out of order, of which the second is never taken |
| `ReplayRun.CallUnrecorded` | api/routines/r3_replay.cpp:511-516 | an operation without props returns zero and does nothing else |
| `ReplayGen.WritevReturnsOperand` | api/routines/r3_replay.cpp:257-265 | a concrete recorded `writev`: an operand, of another type, is what the caller is handed |
| `Ladder.NestExec` | api/routines/r3_replay.cpp:376-413 | a block ladder of any depth runs segment 0 and moves between segments by the labels |
| `Ladder.FlattenNest` | api/routines/r3_replay.cpp:376-413 | blocks opened one after the other and closed behind the segments are the nested blocks |
| `Locals.FuncDecl.AddLocal` | src/ir.cpp:125-135 | the new index is the number of locals so far and has the type asked for; all earlier indices keep theirs |
| `Locals.AppendedLocal` | src/ir.cpp:125-135 | lengthening the last run or adding a run of one expands to one more local at the end |
| `Locals.LocalAllocator.constructor` | api/routines/routine_common.h:35-46 | the pool's indices lie behind all parameters and locals there were, type by type |
| `Locals.LocalAllocator.ResetAllocator` | api/routines/routine_common.h:49-53 | everything can be handed out again |
| `Locals.LocalAllocator.Allocate` | api/routines/routine_common.h:56-63 | an index of the type that was not handed out since the last reset; none if the type is used up |
| `Locals.HandNext` | api/routines/routine_common.h:56-63 | allocations between two resets are pairwise distinct |
| `RecorderRun.RecordingSound` | api/routines/r3_record.cpp:682-775 | for any steps, with arbitrary host writes between them: the recorded run has the original's stack, own locals, globals and memory, and re-running the program from the reports alone, with zeros updated only by stores and logged write-backs as memory, sees every value the program saw |
| `RecorderHost.RecordingComplete` | api/routines/r3_record.cpp:682-998 | whole programs with any control flow and calls, beside a host that writes anything before any access: a call of any function ends recorded as it does unrecorded, with the same values, globals and memory; and run again without the host, on the shadow and with nothing written but what the reports say, it returns the same values |
| `RecorderHost.RecordingInvisible` | api/routines/r3_record.cpp:859-998 | without a host: a call of any function returns the same values with the same globals and memory, traps, or runs on as it does unrecorded |
| `RecorderHost.HostedAlone` | api/routines/r3_record.cpp:859-998 | running beside a host that writes nothing is running alone |
| `RecorderHost.CodeThree` | api/routines/r3_record.cpp:859-998 | any code, the same recorded, and the same run again from the reports, by induction on code and fuel |
| `RecorderHost.AccessThree` | api/routines/r3_record.cpp:954-995 | one access in the three runs: they agree before and after it, the third with only the report to go by |
| `RecorderFlow.AccessMatched` | api/routines/r3_record.cpp:954-995 | one access with what is spliced in on both sides |
| `RecorderFlow.RecordedFunction` | api/routines/r3_record.cpp:859-998 | the list the pass leaves parses to that recorded code |
| `RecorderAccess.LoadRecorded` | api/routines/r3_record.cpp:207-280 | a recorded load: same value, differ flag 1 exactly when the shadow differed, write-back, report; traps exactly when the load does |
| `RecorderAccess.StoreRecorded` | api/routines/r3_record.cpp:207-280 | a recorded store is done on both memories and reported |
| `RecorderAccess.ShadowCaughtUp` | api/routines/r3_record.cpp:740-759 | after any load the shadow holds the bytes the program loaded |
| `RecorderRun.LoadFromReport` | api/routines/r3_record.cpp:720-775 | a load re-run from its report gives the program's value and the shadow's contents |
| `RecorderRun.OwnStep` | api/routines/r3_record.cpp:859-998 | a step of the program does not depend on shadow, reports or added locals |
| `RecorderSteps.LoadCompare` | api/routines/r3_record.cpp:704-720 | the differ flag is 1 if and only if the two loaded values differ |
| `RecorderSteps.WriteBackDone` | src/builder.cpp:6-70 | with the flag set, the low bytes of the loaded value go to the shadow, for every width |
| `RecorderSteps.WriteBackSkipped` | api/routines/r3_record.cpp:743-759 | with the flag clear nothing happens |
| `Recorder.ExtendInjective` | src/builder.cpp:26-47 | equal loaded integers come from equal bytes, so comparing values is comparing bytes |
| `Recorder.ExtendLow` | src/builder.cpp:6-70 | the low bytes of a loaded value are the bytes loaded, sign-extended or not |
| `Recorder.ExtendMeans` | api/routines/r3_record.cpp:743-757 | sign extension keeps the signed value at the width of the type, zero extension the unsigned one |
| `RecorderGen.SaveStackArgs` | api/routines/r3_record.cpp:181-202 | the saved operands get distinct pool locals of their types, and stay on the stack |
| `RecorderGen.SetupMemopDuplicate` | api/routines/r3_record.cpp:207-280 | the block that runs the access on the shadow memory, with the locals the allocator hands out |
| `RecorderGen.MemopTraceInstgen` | api/routines/r3_record.cpp:682-775 | compare, report and write back, with the locals the allocator hands out |
| `RecorderGen.Surround` | api/routines/r3_record.cpp:954-995 | what is spliced in on both sides of an access |
| `RecorderGen.RecordFunction` | api/routines/r3_record.cpp:859-998 | the iterator loop rewrites each access once, counts it, and does not visit what it inserted |
| `RecorderGen.AccessIff` | api/routines/r3_record.cpp:902-904 | the pass takes a token for an access if and only if it is an integer load or store of the program's memory, of either type and any width |
| `RecorderGen.OpcodeExact` | api/routines/r3_memops_table.c:5-28 | the opcode reported is one that loads or stores that type and width with that sign |
| `RecorderFlow.AccessesAre` | api/routines/r3_record.cpp:994-996 | the access number goes up by the number of such tokens |
| `RecorderFlow.EachRecorded` | api/routines/r3_record.cpp:943-989 | over the whole list, every load and store of the program stands between its own setup and its own report, numbered by those before it, and everything else stands alone |
| `RecorderFlow.RecordableIff` | api/routines/r3_record.cpp:894-942 | any instruction may stand in a recorded function but atomic accesses, growth, host calls and what is not there |
| `RecorderGen.RecordedToks` | api/routines/r3_record.cpp:954-995 | the spliced list is the token list of the recorded access |
| `TracerSim.TracedCall` | api/routines/allspark_trace.cpp:166-449 | whole programs with direct and indirect calls and returns: whenever a call of the original returns, the traced call returns the same values with the same memory and globals, and the buffer holds one word for each branch and indirect call made, by whatever function, in order, 8 bytes each behind a counter |
| `TracerSim.FnSim` | api/routines/allspark_trace.cpp:166-335 | the same for a function with its own frame and scratch locals |
| `TracerSim.CallTableSim` | api/routines/allspark_trace.cpp:278-332 | an indirect call reaches the wrapper of its function, which records source and function called and calls it with its own operands |
| `TracerSim.SimExec` | api/routines/allspark_trace.cpp:166-335 | any code at any depth, by induction on code and fuel |
| `Tracer.TraceableIff` | api/routines/allspark_trace.cpp:166-335 | any instruction may stand in a traced function but atomic ones, growth, the other memory and what is not there |
| `Tracer.CanBeTraced` | api/routines/allspark_trace.cpp:364-450 | a program of such functions has a traced one, whatever its table holds |
| `TracerProof.BranchSim` | api/routines/allspark_trace.cpp:203-276 | a branch: its event first, then the branch |
| `TracerSteps.InsertedRuns` | api/routines/allspark_trace.cpp:203-276 | the code in front of br, br_if, br_table preserves stack, own locals, memory and control, and appends the branch's true event |
| `TracerSteps.RecordEvent` | api/routines/allspark_trace.cpp:99-164 | one 8-byte word more, the counter 8 higher, nothing else changed |
| `TracerSteps.TableTarget` | api/routines/allspark_trace.cpp:242-272 | the ladder with a copy of the table leaves the position of the label taken, for any label list |
| `Tracer.Packed` | api/routines/allspark_trace.cpp:89-94 | the or-ed parts do not overlap: the word is function, source and target in their own bits |
| `TracerGen.PackingExact` | api/routines/allspark_trace.cpp:382-396 | the check made before tracing admits one position too many: words are exact if and only if every position is below 2^24 |
| `TracerTruth.TracedTruth` | inc/views.h:32-49 | the buffer a traced call leaves tells the truth if and only if, in the run of the original, no function that begins with a loop is left by a branch |
| `TracerTruth.LooplessTruth` | inc/views.h:32-49 | when no function of the program begins with a loop, every traced call leaves a buffer that tells the truth |
| `TracerTruth.TruthfulIff` | inc/views.h:32-49 | a buffer with the words of a list of events is true if and only if none of them leaves such a function by a branch |
| `TracerGen.SpilledEvent` | api/routines/allspark_trace.cpp:382-396 | position 2^24 passes the check, and its event is read as one of the next function |
| `TracerGen.WrapperToks` | api/routines/allspark_trace.cpp:418-449 | the pushed tokens are the wrapper with its recording code |
| `TracerTruth.LeadingLoopMisread` | src/views.cpp:46-49 | a concrete function that begins with a loop: the original branches to 4, and the word the traced run stores decodes to 1 |
| `TracerGen.GetBrTargetPc` | api/routines/allspark_trace.cpp:203-212 | the position a label leads to, counted from the top of the scope stack |
| `TracerGen.MaxElement` | api/routines/allspark_trace.cpp:244-249 | the largest label of a table and its default |
| `TracerGen.BrTableInsert` | api/routines/allspark_trace.cpp:242-276 | the loops that open and close the ladder push its tokens |
| `TracerGen.BranchToks` | api/routines/allspark_trace.cpp:214-276 | what is pushed in front of each kind of branch |
| `TracerGen.TracePiece` | api/routines/allspark_trace.cpp:196-332 | one instruction of a scope: a branch behind its recording code, an indirect call with its source marshalled, or a subscope handled by recursion |
| `TracerGen.LocalCfscopeHandler` | api/routines/allspark_trace.cpp:166-335 | the recursion over scopes with its stack puts the recording code in front of every branch and indirect call |
| `Mutex.ReachableInv` | api/routines/r3_common.h:255-296 | the inductive invariant of every interleaving of the emitted instructions, one atomic instruction a step |
| `Mutex.MutualExclusion` | api/routines/r3_common.h:255-296 | in every reachable state at most one thread holds the lock, and then the word is 1 |
| `Mutex.NoLostWakeUp` | api/routines/r3_common.h:273-292 | word 0 and a sleeper: some thread is about to notify or to retry the cmpxchg |
| `Mutex.NeverStuck` | api/routines/r3_common.h:262-292 | a thread that is not asleep can always take its next step |
| `Mutex.NoDeadlock` | api/routines/r3_common.h:255-296 | while a thread sleeps, another runs or holds the lock |
| `Mutex.RetrySucceeds` | api/routines/r3_common.h:266-277 | a retrying thread that runs alone while the word is 0 gets the lock, within a bound |
| `Ticket.PassedInOrder` | api/routines/r3_replay.cpp:194-199 | in every interleaving the waits are passed in the order 1, 2, 3, ...; when all are done and exits were last, all n |
| `Ticket.OneAtATime` | api/routines/r3_replay.cpp:339-347 | at most one call is between its wait and its increment |
| `Ticket.Progress` | api/routines/r3_replay.cpp:166-173 | with ids ascending in each thread and exits last no reachable state is stuck before all are done |
| `Ticket.Finishes` | api/routines/r3_replay.cpp:593-611 | every reachable state leads, in some number of steps, to one in which all calls were made in order |
| `Ticket.EveryRunFinishes` | api/routines/r3_replay.cpp:166-199 | whoever takes the next step: from a reachable state there are no more steps than its rank, and a state it leads to in which no thread can step is one where all calls were made in order |
| `Ticket.CompletesIffAscending` | api/routines/r3_replay.cpp:175-350 | given ids 1..n, each once, the replay can make all calls if and only if the ids ascend within every thread and no thread has a call after its exit |
| `Ticket.EarlyExitStops` | api/routines/r3_replay.cpp:339-347 | one thread with a call recorded behind its exit never makes that call |
| `Ticket.BackwardsStuck` | api/routines/r3_replay.cpp:194-199 | one thread with its two calls out of order never takes a step |
| `AccessNumbering.SameNumbers` | api/routines/r3_replay.cpp:691-741 | the replay pass gives the accesses of the record pass the same numbers, and leaves out exactly those of the last function |
| `AccessNumbering.RecordPass` | api/routines/r3_record.cpp:859-998 | whatever is spliced in, the numbers count the program's own accesses from 1, and its own instructions stay in order |
| `AccessNumbering.NumberedAs` | api/routines/r3_record.cpp:890-942 | by kind of immediate: the number of a memory access or direct call is one more than the number of those before it |
| `AccessNumbering.OnlyAccesses` | api/routines/r3_record.cpp:935-942 | nothing else has a number, and nothing in a function that is left alone |
| `AccessNumbering.RecordFunction` | api/routines/r3_record.cpp:884-997 | inserted instructions are never visited |
| `AccessNumbering.ReplayPass` | api/routines/r3_replay.cpp:697-774 | counts as the record pass does, stops at the last function, has used the operations whose numbers came up, and leaves every function walked over as specified, with the new functions behind all others |
| `AccessNumbering.ReplayFunction` | api/routines/r3_replay.cpp:706-773 | each instruction is replaced or kept as specified, and the replay functions called are made, in order |
| `AccessNumbering.ReplacedExactly` | api/routines/r3_replay.cpp:714-773 | after the pass no direct call of an import is left, and no access with an operation of its own: in its place is the call with its number; everything else is as it was |
| `AccessNumbering.TrackedIff` | api/routines/r3_replay.cpp:747-757 | an access is replayed from the recording if and only if some operation has its number and those up to it ascend |
| `AccessNumbering.MatchedIff` | api/routines/r3_replay.cpp:751-762 | operation k is used if and only if those up to it ascend and its number is handed out, and at its own number |
| `AccessNumbering.AllCountable` | api/routines/r3_record.cpp:786-855 | before either pass only own instructions are in the functions that are not ignored |
| `AccessNumbering.TransformExact` | api/routines/r3_common.h:245-251 | the transformed index names the same function in the recorded module if and only if the function is one of the original module |
| `ModuleObject.WasmModule.DeepCopy` | src/ir.cpp:137-184 | a copy is made if and only if every announced data segment was read; it has the original's indices everywhere, its references resolve in itself; the name pointer moves only if there is a name section |
| `DeepCopy.Reassign` | src/ir.cpp:88-102 | with the cache as without it: the declaration of the copy with the same index |
| `DeepCopy.PatchImports` | src/ir.cpp:187-210 | every import refers to the copy's declaration with the same index |
| `DeepCopy.PatchExports` | src/ir.cpp:187-210 | the same for exports |
| `DeepCopy.PatchImm` | src/ir.cpp:212-268 | a new instruction of each immediate kind with its references moved and its other parts kept |
| `DeepCopy.PatchCode` | src/ir.cpp:224-268 | all instructions of a function |
| `DeepCopy.PatchFuncs` | src/ir.cpp:219-270 | signatures and code of all functions |
| `DeepCopy.PatchElems` | src/ir.cpp:171-175 | every entry of every element segment |
| `DeepCopy.PatchDatas` | src/ir.cpp:177-181 | active segments are moved and passive ones refer to nothing; it fails exactly at a segment that was announced and never read |
| `DeepCopy.PatchNames` | src/ir.cpp:277-281 | every function name |
| `DeepCopy.PatchCustoms` | src/ir.cpp:272-286 | name sections are patched and the pointer set to the last one |
| `DeepCopy.CopyView` | src/ir.cpp:137-184 | seen by index the copy is the original |
| `DeepCopy.CopyLinked` | src/ir.cpp:137-184 | every reference of the copy resolves within the copy |
| `DeepCopy.CopyIsApart` | src/ir.cpp:137-184 | no reference of the copy is an address of the original |
| `DeepCopy.CopyEncodesAlike` | src/ir.cpp:137-184 | encoding the copy gives the original's bytes |
| `DeepCopy.CopyBack` | src/ir.cpp:137-184 | copied back, the copy is the original: nothing is lost |
| `DeepCopy.NamesAtOwn` | src/ir.cpp:272-286 | the pointer is the last name section's if there is one, and what it was otherwise |
| `ModuleRuns.CopyInOrder` | src/ir.cpp:272-286 | a copy of a module in order is in order if and only if the pointer it was made over was null or there is a name section |
| `ModuleRuns.PointerLeftBehind` | src/ir.cpp:287-302 | the copy of a module without sections over one whose name pointer is set |
| `Addresses.GetListIdx` | inc/common.h:178-194 | the walk finds the position of an address, or nothing |
| `ModuleRefs.ModuleTwice` | src/ir.cpp:99-102 | renaming all references twice is renaming them by the composition |
| `ModuleRefs.MappedAll` | src/ir.cpp:99-102 | what all new references satisfy |
| `ModuleRuns.EveryRun` | src/instrument.cpp:35-136 | after any sequence of additions and removals of unreferenced functions all references resolve, the imports of each kind in list order are the front of their space, and sorted names are sorted |
| `ModuleRuns.OrderOverRuns` | src/instrument.cpp:35-136 | declarations that stay keep their relative order over any run |
| `ModuleRuns.EditKeeps` | src/instrument.cpp:35-136 | one edit of any kind |
| `ModuleRuns.ImportPlace` | src/instrument.cpp:79-94 | the import at j is at the place that the imports of its kind before it leave |
| `ModuleRuns.WrittenInOrder` | src/encode.cpp:111-155 | written out, an edited module has its imports and counts as the decoder requires them |
| `ModuleRemoves.DanglesIffReferenced` | src/instrument.cpp:224-262 | after a removal every reference resolves if and only if no other code, export, start, element or second name referred to the function |
| `ModuleRemoves.CallDangles` | src/instrument.cpp:224-262 | a concrete module whose second function calls the first, removed |
| `ModuleRemoves.RemoveKeeps` | src/instrument.cpp:224-262 | removing an unreferenced function keeps the module in order, the order of the others and sorted names |
| `ModuleRemoves.ImportedIffFront` | inc/ir.h:334-345 | a function is named by an import if and only if its index is below the number of imported functions |
| `ModuleRemoves.OneImport` | src/instrument.cpp:233-244 | a function has at most one import; without it the others are the front of the shortened space |
| `ModuleAdds.AddFuncKeeps` | src/instrument.cpp:54-63 | a function added behind all others, its signature found or added, its name last |
| `ModuleAdds.AddImportKeeps` | src/instrument.cpp:66-110 | an import of any kind in front of the list and of its space, its name first |
| `ModuleAdds.AddFieldKeeps` | src/instrument.cpp:24-53 | a table, memory or global, with or without an export |
| `ModuleContents.FieldAdds` | src/instrument.cpp:24-53 | the declaration added is at its new address, every other address denotes what it did, and the export is the last |
| `ModuleContents.ImportAdds` | src/instrument.cpp:79-136 | the same for an import in front, of any kind |
| `ModuleContents.FuncAdds` | src/instrument.cpp:54-77 | the same for a function: its signature reference denotes the signature asked for, and its name is listed |
| `ModuleContents.RemovedUnharmed` | src/instrument.cpp:224-262 | a removal leaves every other address with its contents, and imports and names of other functions where they are |
| `ModuleContents.EditUnharmed` | src/instrument.cpp:24-262 | any one edit: what stays is what it was, and start, segments, exports and custom sections are untouched |
| `ModuleContents.ContentOverRuns` | src/instrument.cpp:24-262 | over any run of edits an address that stays denotes the same declaration |
| `ModuleContents.RestOverRuns` | src/instrument.cpp:24-262 | over any run of edits exports stay, and start, segments and foreign custom sections do not change |
| `ModuleObject.WasmModule.AddSignature` | src/instrument.cpp:4-41 | the first equal signature, or a new one; duplicates only when asked for |
| `ModuleObject.WasmModule.AddFieldOf` | src/instrument.cpp:24-53 | the new state is the specified one |
| `ModuleObject.WasmModule.AddFunction` | src/instrument.cpp:54-63 | the new state is the specified one |
| `ModuleObject.WasmModule.AddImportOf` | src/instrument.cpp:79-105 | the new state is the specified one |
| `ModuleObject.WasmModule.AddImportedFunction` | src/instrument.cpp:106-110 | the new state is the specified one |
| `ModuleAdds.ExportIffResolves` | src/instrument.cpp:113-136 | an added export keeps the module in order if and only if what it names is there, and is the last export, referring to that place |
| `ModuleObject.WasmModule.EraseImport` | src/instrument.cpp:233-244 | the walk erases the first import of the function and lowers the count |
| `ModuleObject.WasmModule.EraseName` | src/instrument.cpp:246-256 | the walk erases the first name of the function only |
| `ModuleObject.WasmModule.RemoveFunction` | src/instrument.cpp:224-262 | import, first name and function are gone, or nothing happened |
| `ModuleObject.WasmModule.IsImport` | inc/ir.h:334-345 | read off the index, it is true exactly of functions that an import names |
| `FuncrefWrap.WrappingPreserves` | src/methods.cpp:27-75 | whole programs: every function of the rewritten program, called as before, returns the same results in the same world, traps or ends exactly as it did, for every terminating run of either program; runs are stopped at skipped sites that fail |
| `FuncrefWrap.IndirectSim` | api/routines/r3_record.cpp:511-535 | an indirect call traps on index, empty slot or type exactly when it did, and otherwise does what the function called before does |
| `FuncrefWrap.WrapperCalls` | src/methods.cpp:59-65 | a wrapper called with the operands and the marshalled values does what the wrapped function does with its operands; the values are the locals behind them |
| `FuncrefWrap.SiteRuns` | api/routines/r3_record.cpp:523-533 | the rewritten site calls with the marshalled values pushed between operands and index |
| `FuncrefWrap.FunctionSim` | src/methods.cpp:27-75 | functions called with the same operands give the same results in both programs |
| `FuncrefWrap.RunSim` | api/routines/r3_record.cpp:511-535 | any code of a function against its rewriting, by induction on code and fuel |
| `FuncrefKept.KeptSiteIff` | api/routines/r3_record.cpp:862-866 | a call site in a function that is skipped behaves as it did if and only if no values are marshalled, its place is empty, or the function there is neither of the type called nor of one that the marshalled values lengthen to it; and which way it fails |
| `FuncrefKept.IndirectReaches` | api/routines/r3_record.cpp:862-866 | a call through a place calls what is reached there, or traps |
| `FuncrefKept.KeptRuns` | api/routines/r3_record.cpp:862-866 | whole runs: the same end in both programs, unless such a site is reached, where one of the programs traps and the other calls |
| `FuncrefKept.NothingBreaks` | api/routines/r3_record.cpp:862-866 | with all sites rewritten or nothing marshalled, all runs end the same |
| `FuncrefKept.AfterIsInstrumented` | src/methods.cpp:27-75 | the two programs below are a program and the same with its table wrapped and its call site left as it is |
| `FuncrefKept.CallNowTraps` | api/routines/r3_record.cpp:862-866 | a concrete program whose call traps once its target is wrapped |
| `FuncrefKept.TrapNowCalls` | api/routines/r3_record.cpp:862-866 | a concrete program whose trap becomes a call |
| `FuncrefAll.AllWrapped` | src/methods.cpp:27-75 | every entry of every element segment becomes a new function of the longer type that calls the old entry; all else persists and the module stays in order |
| `FuncrefObj.AddFuncPersists` | src/methods.cpp:48-58 | adding the wrapper leaves every other function, signature and index as it was |
| `FuncrefGen.FlatIsRewrite` | api/routines/r3_record.cpp:511-535 | rewriting the instruction list one by one is rewriting the structured code |
| `FuncrefGen.LeafReads` | wasmops.h:5-24 | every instruction of structured code is written with the opcode and operand it has in the binary format, constants within their type |
| `FuncrefGen.NestReads` | wasmops.h:5-24 | blocks, loops and ifs are written with their openings, arms and ends |
| `FuncrefGen.CanBeNumbered` | src/methods.cpp:39-73 | any code can be numbered, and its list does not change |
| `FuncrefObj.DigitsSpell` | src/methods.cpp:39-73 | wrappers of nameless functions are numbered in decimal |
| `FuncrefLink.ExtendCalls` | api/routines/r3_record.cpp:511-535 | the loop over a function's instructions rewrites it, its indirect calls naming signatures the module then has |
| `FuncrefProg.RewrittenIsInstrumented` | src/methods.cpp:27-75 | a module with wrapped segments and rewritten lists denotes the rewritten program, tables included |
| `FuncrefPass.WrapAndExtend` | api/routines/r3_record.cpp:808-866 | wrapping, then the loop over all functions: every function has its pool of locals and its rewritten list, every entry still leads to its function, all else persists |
| `FuncrefPass.ExtendOne` | api/routines/r3_record.cpp:864-935 | one function: the pool of locals, the rewritten list, the calls counted on |
| `FuncrefPass.ZerosPooled` | src/ir.cpp:125-135 | the pool's locals are behind the function's own |
| `FuncrefProg.ZeroTyped` | inc/wasmdefs.h:60-70 | a declared local starts as a zero of its own type |
| `FuncrefPass.DoneIsRewritten` | api/routines/r3_record.cpp:808-935 | what the two passes leave of a module is the module rewritten |
| `FuncrefPass.PassPreserves` | api/routines/r3_record.cpp:808-935 | the programs of the module before and after both passes agree on every run, up to sites in skipped functions |
| `FuncrefProg.SlotsPairs` | src/methods.cpp:34-73 | both programs start or neither does, and their tables correspond slot by slot |
| `ModuleObject.WasmModule.FuncrefWrap` | src/methods.cpp:27-75 | the nested loops over segments and entries leave the specified module |
| `ModuleObject.WasmModule.WrapOneEntry` | src/methods.cpp:39-73 | one entry: name, longer signature, new function, entry replaced |
| `LebProof.RoundTrip` | src/common.cpp:236-273 | encoded and followed by anything, a value of the type decodes to itself with the encoding's length, at most 5 or 10 bytes |
| `LebProof.DecodeExact` | src/common.cpp:65-106 | an input is accepted if and only if it starts with a complete number of at most the maximal length whose mathematical value the type holds, and then denotes that value |
| `Codec.SpellingRead` | src/common.cpp:125-182 | each integer reader returns the value of any complete number that fits, padded or not, and takes nothing behind it |
| `Codec.SpellingFound` | src/common.cpp:125-182 | what a reader returns stands there; or no number does, and then it is 0 and the rest of the buffer is skipped |
| `LebProof.FrontOnly` | src/common.cpp:65-90 | no byte behind the number is read |
| `LebProof.Shortest` | src/common.cpp:247-254 | no number with the same value is shorter |
| `LebProof.EncUDenotes` | src/common.cpp:242-254 | the unsigned encoding denotes the value |
| `LebProof.EncSDenotes` | src/common.cpp:237-254 | the signed encoding denotes the value |
| `Leb128.DecodeBody` | src/common.cpp:65-90 | the loop with its masks and shifts computes the specified decoding |
| `CodecExact.RoundTripExact` | src/encode.cpp:91-507 | a module that can be written comes back from its encoding if and only if it is well-formed |
| `CodecExact.AcceptedComesBack` | src/parse.cpp:121-579 | what comes back from the encoding of an accepted module: the module without its empty custom sections, all index spaces, references and instructions the same |
| `CodecExact.AcceptedIsWritten` | src/encode.cpp:464-507 | an accepted module can be encoded if and only if every announced data segment was read |
| `CodecExact.AcceptedRoundTrips` | src/parse.cpp:121-579 | whatever is accepted with its sections in order comes back from its encoding if and only if every announced segment was read and no custom section is empty |
| `CodecExact.EncodedInOrder` | src/encode.cpp:464-507 | the encoder writes its sections in the order the decoder needs |
| `CodecExact.LateImport` | src/parse.cpp:143-197 | an import read after a definition of its kind is not in front of its space |
| `CodecExamples.EmptyCustomLost` | src/encode.cpp:474-486 | accepted bytes with an empty custom section, which does not come back |
| `CodecExamples.LateImportLost` | src/parse.cpp:143-197 | accepted bytes with an import behind a function: the module does not come back |
| `CodecExamples.CountOnlyAccepted` | src/parse.cpp:455-493 | accepted bytes with a data count and no data: neither copied nor encoded |
| `CodecSound.AcceptedIsCanonical` | src/parse.cpp:121-579 | what is accepted in section order is well-formed if and only if announced data segments are there and no custom section is empty |
| `CodecTrip.RoundTrips` | src/encode.cpp:464-507 | a well-formed module can be encoded and decodes to itself |
| `CodecInst.OpcodeReads` | inc/common.h:97-151 | opcodes of one, two and three bytes are read back |
| `CodecInst.MemOpReads` | src/inst_internal.cpp:164-182 | alignment, optional memory index and offset are read back |
| `CodecInst.ImmReads` | src/inst_internal.cpp:21-491 | every immediate the decoder can produce is read back as written |
| `CodecInst.ImmSound` | src/inst_internal.cpp:21-491 | what is read has the kind asked for and indices inside their spaces |
| `CodecInst.InstReads` | inc/inst_internal.h:488-530 | opcode and immediate together |
| `CodecInst.ExprReads` | src/parse.cpp:325-334 | a list of instructions is read back whole |
| `CodecInst.KindExact` | wasmops.h:5-737 | every opcode has the kind of immediates the instruction set gives it, and no other opcode has any |
| `CodecSpelling.SpelledImmRead` | src/inst_internal.cpp:21-491 | an immediate is read from any spelling of its numbers |
| `CodecSpelling.SpelledCodeRead` | src/parse.cpp:325-334 | a list of instructions is read from any spelling of its numbers |
| `CodecSpelling.PaddedCall` | src/inst_internal.cpp:21-491 | a call whose index is padded to five bytes is a call of that function |
| `CodecSpelling.SpelledInitRead` | src/parse.cpp:87-118 | a constant of any type, however spelled, is kept as an initializer byte for byte |
| `CodecSpelling.SpelledOffsetRead` | src/parse.cpp:60-85 | an offset, however spelled, is its low 32 bits |
| `CodecSpelling.SpelledNameRead` | src/common.cpp:212-222 | a name behind any spelling of its length |
| `CodecSpelling.SpelledVecRead` | src/parse.cpp:51-58 | a vector behind any spelling of its count |
| `CodecSpelling.GlobalFlag` | src/parse.cpp:43-49 | only the lowest bit of the byte behind a global's type counts |
| `CodecSpelling.SpelledLimitsRead` | src/parse.cpp:12-24 | limits with any flags and any spelling of their numbers |
| `CodecSpelling.SpelledSectionRead` | src/parse.cpp:511-578 | a section behind any spelling of its size goes to its decoder |
| `CodecSample.SampleExact` | src/encode.cpp:464-507 | a small module with every kind of section is written as the bytes the specification gives it, and they are read as that module |
| `CodecModule.SigReads` | src/parse.cpp:121-141 | a signature |
| `CodecModule.LimitsRead` | src/parse.cpp:12-24 | limits with their flag bits |
| `CodecModule.TableReads` | src/parse.cpp:32-41 | a table |
| `CodecModule.OffsetReads` | src/parse.cpp:60-85 | a constant offset of either type |
| `CodecModule.InitSound` | src/parse.cpp:87-118 | the bytes kept as an initializer are read as that initializer in front of anything |
| `CodecParts.EntryReads` | src/parse.cpp:143-197 | an import with its declaration |
| `CodecParts.ExportReads` | src/parse.cpp:237-268 | an export |
| `CodecParts.ElemReads` | src/parse.cpp:275-305 | an element segment |
| `CodecParts.DataReads` | src/parse.cpp:378-429 | a data segment of each kind |
| `CodecParts.BodyReads` | src/parse.cpp:337-362 | a function body behind its size |
| `CodecParts.NamesRead` | src/parse.cpp:450-485 | a name section with its subsections around the function names |
| `CodecSections.SectionReads` | src/parse.cpp:511-578 | a section behind its id and size |
| `CodecIo.Buffer.ReadLeb` | src/common.cpp:126-176 | a malformed number reads as 0 and skips to the end |
| `CodecIo.Buffer.ReadU8` | src/common.cpp:178-186 | a byte, 0 past the end |
| `CodecIo.Buffer.ReadU64Raw` | src/common.cpp:197-209 | eight bytes, or 0 and nothing taken |
| `CodecIo.Buffer.ReadName` | src/common.cpp:212-222 | a counted string |
| `CodecIo.Buffer.ReadOpcode` | inc/common.h:97-117 | the loop over the further bytes of an opcode, with both table checks |
| `CodecIo.ByteDeque.EncodeSigned` | src/common.cpp:237-271 | the loop writes the signed encoding |
| `CodecIo.ByteDeque.EncodeUnsigned` | src/common.cpp:242-273 | the loop writes the unsigned encoding |
| `CodecIo.ByteDeque.PreencodeU32` | src/common.cpp:256-300 | the same bytes in front |
| `CodecIo.ByteDeque.WriteOpcode` | inc/common.h:135-158 | the loop finds the first byte of an opcode and writes from there; unknown opcodes are refused |
| `CodecLoops.DecodeImm` | src/inst_internal.cpp:21-491 | each constructor takes its immediate from the buffer |
| `CodecLoops.DecodeInst` | inc/inst_internal.h:488-530 | opcode, then immediate |
| `CodecLoops.DecodeExpr` | src/parse.cpp:325-334 | the loop to the end of the slice |
| `CodecLoops.DecodeLocals` | src/parse.cpp:307-322 | the loop over the runs |
| `CodecLoops.DecodeBody` | src/parse.cpp:346-361 | size, locals, and a slice for the instructions |
| `CodecLoops.EncodeImm` | src/inst_internal.cpp:21-491 | each encode_imm appends its bytes |
| `CodecLoops.EncodeExpr` | src/encode.cpp:322-335 | the loop over the instructions |
| `CodecLoops.EncodeLocals` | src/encode.cpp:313-319 | the loop over the runs |
| `CodecLoops.EncodeCode` | src/encode.cpp:337-363 | the body first, its size in front of it |
| `CodecMain.DecodeBuffer` | src/parse.cpp:495-509 | magic number and version, then the sections |
| `CodecMain.DecodeSections` | src/parse.cpp:511-578 | the loop over sections, each on its own slice |
| `CodecMain.EncodeSection` | src/encode.cpp:474-486 | contents behind size and id, nothing for empty contents |
| `CodecMain.EncodeAll` | src/encode.cpp:464-507 | the fixed order, then the custom sections |
| `ScopeTree.GenScopes` | src/views.cpp:33-81 | the loop gets through exactly the safe bodies (it never pops an empty stack on a nested one) and builds the specified list |
| `ScopeTree.AddScope` | src/views.cpp:3-20 | the new scope goes onto the list, into its ancestors' lists and onto the stack |
| `ScopeTree.BuildInv` | src/views.cpp:33-81 | the invariant of the stack machine after any prefix |
| `ScopeTree.ScopesAreTree` | src/views.cpp:33-81 | on a well-nested body every scope is closed and the list is its tree |
| `ScopeTree.Laminar` | src/views.cpp:3-31 | scopes are listed in preorder and nest or are apart; subscopes are the nested ones |
| `ScopeTree.OneEnd` | src/views.cpp:64-73 | every END or ELSE closes exactly one scope |
| `ScopeTree.OneParent` | src/views.cpp:17-17 | every scope but the first is in the outer_subscopes of exactly one other, one level up |
| `ScopeTree.DepthsCount` | src/views.cpp:5-10 | depth and loop_depth are the numbers of enclosing scopes and loops |
| `ScopeTree.SubscopesAreClosure` | src/views.cpp:13-17 | subscopes is the transitive closure of outer_subscopes |
| `ScopeTree.InnermostScope` | src/views.cpp:33-81 | every instruction has one innermost scope |
| `ScopeTree.MainEnd` | src/views.cpp:64-67 | the function's scope ends at the last END |
| `PartitionMain.BalancedPartition` | api/routines/memaccess.cpp:540-638 | over all functions and scopes: the partitions hold what was found, weigh together what was dealt, and are balanced up to the largest weight dealt at every print; disjoint and correctly weighed where no access was found twice |
| `PartitionMain.WeightsRightIffClean` | api/routines/memaccess.cpp:557-620 | the weights add up to those of the accesses, each counted once, if and only if every function is clean; otherwise to more |
| `PartitionMain.EachAccessOnce` | api/routines/memaccess.cpp:557-620 | in clean functions every access asked for is in exactly one partition and nothing else is in any |
| `PartitionMain.PartitionScope` | api/routines/memaccess.cpp:556-634 | one scope keeps that |
| `PartitionMain.BoundIsLargest` | api/routines/memaccess.cpp:581-620 | the balance bound is the largest loop_depth + 1 of a scope whose accesses did not divide evenly |
| `Partition.Deal` | api/routines/memaccess.cpp:605-620 | the two dealing loops: the lightest partitions take one access more |
| `Partition.DealPlace` | api/routines/memaccess.cpp:605-620 | one turn of either loop |
| `Partition.ArgSort` | api/routines/memaccess.cpp:588-592 | positions sorted by weight |
| `Partition.DealKeepsBalance` | api/routines/memaccess.cpp:581-620 | largest minus smallest weight stays within the bound, because the lightest take the extra access |
| `PartitionSets.DealKeepsOk` | api/routines/memaccess.cpp:605-620 | the partitions stay disjoint and complete, and each weight is the sum of its members' |
| `PartitionAll.WeightIsDepth` | api/routines/memaccess.cpp:609-618 | an access weighs the loop depth of its innermost scope plus one |
| `PartitionAll.AskedOnce` | api/routines/memaccess.cpp:557-579 | every access is found with exactly one scope |
| `PartitionRun.CollectScope` | api/routines/memaccess.cpp:557-579 | the walk that jumps over subscopes |
| `PartitionRun.WalksAreOwn` | api/routines/memaccess.cpp:560-569 | the walks find exactly their own scopes' accesses if and only if the function is clean: no access behind a subscope missed because it starts where the previous one ends |
| `PartitionRun.NoElseIsClean` | api/routines/memaccess.cpp:560-569 | a function without ELSE is clean |
| `PartitionElse.UncleanRepeats` | api/routines/memaccess.cpp:560-569 | in a function that is not clean some access is found with two scopes |
| `PartitionElse.ElseRepeats` | api/routines/memaccess.cpp:560-569 | a concrete function with an `else` that is not clean |
| `PartitionElse.ElseOverlaps` | api/routines/memaccess.cpp:557-620 | dealt over two partitions, the one access of that function is in both |
| `PartitionElse.ElseWeighsTwice` | api/routines/memaccess.cpp:557-620 | and the partitions weigh it twice |
| `MemFilter.MemfilteredInstrument` | api/routines/memaccess.cpp:403-442 | every function is the specified weaving: one filter iterator and one number over all functions |
| `MemFilter.InstrumentFunction` | api/routines/memaccess.cpp:405-442 | the walk over one function |
| `MemFilter.VisitInst` | api/routines/memaccess.cpp:414-440 | one instruction: block or not, iterator and number moved on |
| `MemFilter.MemaccessDryRun` | api/routines/memaccess.cpp:288-318 | the dry run numbers exactly the qualifying accesses, as the instrumentation does |
| `MemFilter.FilterExact` | api/routines/memaccess.cpp:419-438 | exactly the named accesses are instrumented if and only if the filter does not name access 0, or names no access there is |
| `MemFilter.ZeroBlocks` | api/routines/memaccess.cpp:419-438 | the filter {0, 1} on a function with one access leaves it alone, the filter {1} does not |
| `MemFilter.WovenAt` | api/routines/memaccess.cpp:425-433 | a wanted access has its block right in front of it, an unwanted one has none |
| `MemFilter.WovenStrips` | api/routines/memaccess.cpp:433-433 | without the blocks the function is the original |
| `MemFilter.SetupLogappendArgs` | api/routines/memaccess.cpp:22-233 | the pushed tokens are those of the guarded block, by operand shape |
| `MemFilter.AddSpare` | api/routines/memaccess.cpp:406-410 | the seven added locals lie behind the function's own, each of the type its name says |
| `MemGuard.ParkedTyped` | api/routines/memaccess.cpp:27-33 | whatever lies above the address is parked in different locals of its own types |
| `MemFilter.NumberedIff` | api/routines/memaccess.cpp:307-313 | an access is numbered if and only if there is a block to insert for it |
| `MemGuard.GuardInvisible` | api/routines/memaccess.cpp:52-81 | with its mask byte in memory the block is the identity on operands, own locals, globals and memories whatever the byte is, and reports exactly when it is not 0 |
| `MemGuard.GuardExec` | api/routines/memaccess.cpp:52-232 | the block's exact effect for every operand shape |
| `MemGuard.MaskFits` | api/routines/memaccess.cpp:372-379 | the mask bytes of accesses 1 to max lie in the added pages if and only if max is not a whole number of pages |
| `MemGuard.LastGuardTraps` | api/routines/memaccess.cpp:372-379 | with 65536 accesses the block of the last one traps |

## Left out

- DecodeExact: bytes are unsigned and values are integers; the type an accepted number is returned in is given by the kind.
- ReplayRefines: holds for props whose recorded value reaches the caller, which are all props of stack-neutral call ids, and all where the call has no result or leaves the value on top; `CleanIffNeutral` and `TakeJunk` say what happens otherwise.
- TracedCall: covers calls that return within the fuel and whose events fit the buffer and the bit fields; nothing is said of runs that trap, as the traced memory is larger.  `if` and `else` make the pass throw; `memory.grow`, atomic instructions, the declared types of scratch locals and the dump of the buffer at the end are not part of it.
- MaxElement: the largest label of a table with only a default is undefined in the program, which asks an empty list for its largest element; here it is the default.
- RecordingSound: integer loads and stores only; the step list is any sequence of straight-line steps, accesses and host writes.  `RecordingComplete` says the same of whole programs with control flow and calls; there the host writes right before accesses, which between them nobody can tell apart.
- EveryRunFinishes: a process exit ends its own thread, as an exit of a thread does; that it ends the others as well is not part of the model.
- RecordFunction: rewrites integer loads and stores; the loop's other memory operations, calls and indirect calls are left as they are (the latter are the subject of `FuncrefPass`).
- BalancedPartition: weights do not wrap at 32 bits.
- RoundTripExact: everything preceded by its size is smaller than 4 GiB (`SizesFit`), as the 32-bit sizes demand.
- PassPreserves: what the recorder adds to wrappers beside their pool of locals is not part of it, and an empty `else` arm is written without `else`; signature objects that later passes add come from addresses not used before.
- RecordPass: what is spliced in at each instruction is an arbitrary plan; lock functions are helpers whose code is in `Mutex`.
- DeepCopy: source positions of instructions are not part of the codec's instructions; the program does not copy them.  Of the object left by an exception nothing is promised.
- Implicit synchronisation in replay (api/routines/r3_replay.cpp:396-402), where the replaced instruction is run again inside its arm.
- Stores of a size other than 1, 2, 4 or 8 in a prop: the operands stay on the stack; such props are outside `Supported`.
- Lock and unlock calls around recorded accesses are host calls of the evaluator; the conditional lock for futex calls (api/routines/r3_record.cpp:151-160) and the recording of calls are not modelled.
- Floating point loads in the recorder, SIMD lanes, bulk memory operations and atomic read-modify-write instructions, whose write-back would store the value before the operation.
- Signature caches kept across modules (api/routines/r3_record.cpp:131-147).
- Undefined behaviour: reading raw bytes or custom bytes past the buffer and indices outside their space are rejected here, as is an f64 initializer cut off by the end of its section; the call that is erased under its own iterator in replay is replaced in place.
- Opcodes: vector instructions are known by ranges, so numbers that are unassigned inside a range are taken as instructions without immediates; opcodes of four bytes and more are rejected.
- Block types in generated code are resolved arities rather than type indices.
- List nodes and deque elements are addresses; reuse of freed addresses, and the undefined lookups of a dangling pointer, are not modelled.  Copying a module onto itself is not modelled.
- Names made with a null debug name, which the standard library throws on.
- Reserved sections and immediates that no supported opcode uses (tables, tags, value type lists).
- Instruction counting, function weights, sampling, function entry, loop counting and snapshots, file and command line handling, printed text, and timing.
