# Eople runtime and front end, verified

Eople is an actor language: classes make processes, processes send each other
messages, and `when` and `whenever` blocks wait for conditions.  This project
models three parts of its implementation and proves what they are for.

* **The scheduler** (`Machine*.dfy`).  N cores run `CoreMain` over N message
  queues; outside threads send messages, run incremental code under a process
  lock and call `Shutdown`.  The machine is a transition system: one step is
  one atomic action of one thread (a fetch-add of a try-lock, an access made
  under a lock, a mutex acquisition, an access to an atomic), in any order,
  sequentially consistent.  A state holds the queues, all lock words, the
  wrapping `message_count`, `idle_count`, the condition variable's waiters,
  promises, `when` and `whenever` blocks, and for each thread where it is.
  `MachineRuns.Inv` is an inductive invariant, and `MachineTheorems`,
  `MachineChains` and `MachineMissed` say what it means for every state of
  every run.  `MachineProgress` says what a scan reaches: every queue, exactly
  once, and from every state a delivery that nothing can rule out.
* **The process stack machine** (`Frames`, `ProcessStacks`, `Calls`, `Passes`,
  `Blocks`, `Deliveries`, `Symbols`, `Repl`, `Loops`, `LoopCode`, `Generation`, `Programs`, `Specializations`).  The
  classes have the fields and methods of the C++ ones and are proved against
  specification functions; the properties are lemmas about those functions:
  isolation of nested calls on a stack that moves, closures, the passes over
  `when` and `whenever` blocks over the life of a process, register allocation, the stack shift of the
  interactive session, nested `ForI` bytecode and its generation, whole small programs, and the cache of
  specializations.
* **The expression parser** (`Expressions`).  The nine functions of the ladder with
  their one loop, as a class that moves a token position, proved against a
  specification function for which every spelling of an expression is parsed
  to its tree, and operators group as the ladder orders them.

## How the scheduler proofs are arranged

`Machine` defines the steps.  `MachineShape` proves that indices and types stay
right, and gives each group of steps a frame lemma.  `MachineTotals` sums a
weight over all threads (what a thread has added to a lock word, what it still
owes to `message_count`, the copies of a message in its hands).  Each further
file keeps one part of the invariant: `MachineLocks`, `MachineCount`,
`MachineWake`, `MachineExit`, `MachineOrder`, `MachinePromises`, `MachineWhen`.
`MachineRuns` puts them together.  `MachineProgress` builds runs: whoever holds a
queue lock or `idle_lock` can be made to give it up in a few steps, so a core
gets past every queue on its way to the one that has the message.

## What the proofs found

* A `when` block that the body of a `whenever` registers for a promise whose
  notice has already been delivered is not looked at until some later message
  arrives: the `whenever` loop runs after the `when` loop
  (`src/eople_vm.cpp:444-495`).  `MachineMissed.MissedWhen` is a run that ends
  with everything delivered and such a block waiting for a ready timer;
  `MachineTheorems.MissedIffLate` shows that at rest these are the only blocks
  that are missed.
* No core is left asleep by the unlocked `notify_all` of `Shutdown`
  (`src/eople_vm.cpp:321-331`) because there are at least two cores
  (`src/eople_vm.cpp:310`); the second exit test (`src/eople_vm.cpp:287-290`)
  compares an unsigned value with 0 and is never taken.
* `When` and `Whenever` take the pointer to their condition before they run the
  test (`src/eople_control_flow.cpp:99-115` and `136-152`).  When a call in the
  test moves the stack, what is read is freed memory.  `Blocks.ConditionRead`
  gives the exact condition, `Blocks.ConditionLost` shows that without it the
  outcome can be the opposite.
* A call with four or more arguments cannot be survived: the fourth goes into a
  NOP after the call (`src/eople_vmcode_gen.cpp:650-658`), there is no function
  for NOP (`src/eople_vm.cpp:94-165`), and the interpreter goes on right after
  the call (`inc/eople_vm.h:86-89`).  `Calls.AliveIff` is the exact condition,
  `Calls.ManyArguments` and `Calls.FourArguments` are the calls that fail.
* An `if` becomes a fused jump when the last instruction generated so far is a
  LessThanI, whatever it belongs to (`src/eople_vmcode_gen.cpp:1034-1053`).  After
  `c = a < b` an `if d` takes the assignment's instruction: `c` is never written
  and the `if` depends on `a < b`; at the end of a loop body the jump leaves the
  body.  `Generation.GeneratedIff` is the exact condition,
  `Generation.AssignmentLost` and `Generation.JumpLeaves` are inputs.  When no
  instruction has been generated, the one before the first is read
  (`Generation.Outside`).
* A block that captures nothing is evaluated at the bottom of the stack, because
  its closure is the default one (`inc/eople_core.h:401-404`); every other block
  is evaluated in the frame it was registered from (`Blocks.ClosureRoundTrip`).
* The temporaries of a method and of a block are counted from the bottom of the
  stack (`inc/eople_core.h:299`), not from the base of the frame.
  `Frames.FrameKinds` and `Blocks.ClosureRoundTrip` give the exact condition for
  them to be in the frame: the process's own frame is at the bottom.
* `ExecuteFunction` copies arguments through a pointer taken before the stack
  may move (`src/eople_vm.cpp:509-513`).  `Calls.ArgumentsArrive` shows what
  the callee then gets, `Calls.EnoughRoom` that a stack that starts out with
  the room of `Calls.Peak` never has the problem.
* `GetStackIndex` never counts its depth up (`src/eople_ast.cpp:358-377`).
  `Symbols.IntendedIff` says for every nesting when the result is right.  The
  parser makes only nestings for which it is: functions in a class, whose scope
  has none around it (nested functions are refused at
  `src/eople_parse.cpp:486-496`).
* A round of the interactive session that adds no constant clears nothing
  (`inc/eople_core.h:602`), so a new local then starts with what its slot held.
* `FindSpecializationForArgs` can answer the same request differently: when two
  parameters have the same name (`Specializations.SharedNameMisses`), and when a
  parameter of a member function is named like a symbol of its class, because its
  type is then kept in the table of the class (`Specializations.ClassSymbolMisses`).
  `Specializations.AnswerStaysIff` is the exact condition.
* A pair of parentheses that holds no expression, only perhaps a sign or another
  such pair, is passed over without an error before a name or a literal:
  `() 5` and `(-) 5` parse as `5` (`src/eople_parse.cpp:1050-1075`).
* So is one that breaks off after an operator, `(1 + ) 5`, if it ends on the line
  of the last error (`src/eople_parse.cpp:1252-1258`).  That line is not forgotten
  when the next text of the session is parsed, which begins with line 1 again
  (`src/eople_parse.cpp:77-87`), and it is not set at first.
  `Expressions.AcceptedLanguage` says exactly what is accepted.
* A `whenever` block is never removed: its stop flag is overwritten
  (`src/eople_control_flow.cpp:161` and `167`).

## Model

| member | source | states |
|---|---|---|
| MachineTheorems.LockExclusion | inc/eople_vm.h:35-77 | In every state of every run each lock word is its holders plus the failed attempts not yet undone, and no two threads hold the same queue, run the same process, or hold idle_lock |
| MachineTheorems.MessageAccounting | src/eople_vm.cpp:225-259 | In every state message_count, which wraps at 2^32, plus the senders between push and increment equals, modulo 2^32, queued messages plus messages to be put back plus what each core owes |
| MachineTheorems.RestDelivers | src/eople_vm.cpp:267-294 | Every core idle, nobody sending and a zero count mean that every message ever sent has been delivered, and in order |
| MachineTheorems.NoLostWakeup | src/eople_vm.cpp:272-292 | When all cores still there sleep unsignalled and a message is counted, a sender is between its increment and its notify |
| MachineTheorems.AsleepMeansDelivered | src/eople_vm.cpp:380-389 | All asleep and nobody sending means that nothing is queued and all is delivered |
| MachineTheorems.ShutdownDrains | src/eople_vm.cpp:274-284 | A core returns, once no outside thread sends, only when the count is 0, every core is idle and every message ever sent was delivered exactly once |
| MachineTheorems.NobodyStranded | src/eople_vm.cpp:321-339 | After Shutdown has signalled, not all remaining cores sleep unsignalled |
| MachineTheorems.PerProcessOrder | src/eople_vm.cpp:183-253 | Delivered messages, then the rest of the batch, then the queued ones are the enqueue order of the process, timers aside |
| MachineTheorems.TimerLife | src/eople_stdlib.cpp:306-316 | A timer is ready only from its deadline on; its message is in exactly one place, never in another process's queue, and is delivered once, when ready |
| MachineTheorems.PromiseLife | src/eople_vm.cpp:433-440 | The call behind a promise is sent once, and the promise is ready exactly when that call has been delivered and its function has ended |
| MachineTheorems.ReadyStays | src/eople_vm.cpp:211-214 | Over any run readiness never reverts, and owner and kind of a promise do not change |
| MachineTheorems.NoMissedWhen | src/eople_vm.cpp:444-465 | While nobody runs its process, a block that waits for a ready promise has a notice still on its way, unless a whenever body registered it late |
| MachineTheorems.MissedIffLate | src/eople_vm.cpp:444-495 | At rest a block's promise is ready if and only if a whenever body registered it after the notice |
| MachineTheorems.LateMeans | src/eople_control_flow.cpp:14-22 | A registered block is marked late exactly when the body of a whenever registers it after its promise's notice was delivered |
| MachineMissed.MissedWhen | src/eople_vm.cpp:467-495 | A concrete run with such a missed block |
| MachineChains.BlockerMoves | src/eople_vm.cpp:366-390 | Whoever blocks a queue lock or idle_lock can move; whoever blocks a process lock can move or waits for one of those |
| MachineChains.ChainsAreShort | src/eople_vm.cpp:183-276 | No chain of waiting threads has more than three members or repeats one |
| MachineChains.ChainsEndFree | src/eople_vm.cpp:521-536 | Every thread that waits waits, through a chain, for one with an enabled action that gets it further |
| MachineChains.StandstillIsRest | src/eople_vm.cpp:267-294 | If no thread can get further, all cores have returned, or Shutdown was not called and everything is delivered |
| MachineRuns.InvStep | src/eople_vm.cpp:167-297 | Every step of every thread keeps the whole invariant |
| MachineProgress.OneTryEach | src/eople_vm.cpp:183-188 | For every core and every queue exactly one of the steps of a scan tries that queue's lock |
| MachineProgress.WholeScan | src/eople_vm.cpp:180-188 | Over any run, whatever the other threads do, a core that gets from the start of a scan to its end has tried every queue exactly once |
| MachineProgress.BatchExact | src/eople_vm.cpp:196-240 | The batch of a core is the run of messages for its process at the head of the queue, ended by a message for another process or by the sixteenth due one: due messages are delivered in order, the others go to the end of the queue in order |
| MachineProgress.CanBeDelivered | src/eople_vm.cpp:180-253 | From every reachable state with a core about to scan, the first message of any free queue, for a free process, can still be delivered, whatever locks the other threads hold and whatever is in the other queues |
| MachineProgress.GetsProcessIff | src/eople_vm.cpp:521-536 | An outside thread that runs incremental code gets the process exactly when its lock is free, and the lock word is as before when its code ends or its attempt has failed |
| MachineProgress.NapsAfterTen | src/eople_vm.cpp:178-269 | A core turns to sleep only at the end of a scan and only after more than ten scans since its last batch or nap |
| MachineProgress.SleepsIff | src/eople_vm.cpp:267-285 | An undisturbed core goes to sleep exactly when fewer messages are counted than cores are awake; the last one after Shutdown signals all and returns |
| MachineProgress.WakesUp | src/eople_vm.cpp:285-292 | A woken core is no longer idle and scans again; the second exit test is never true |
| MachineWake.WakeStep | src/eople_vm.cpp:272-292 | Every step keeps the wake-up invariant: a last core that commits to sleep leaves no counted message without a sender about to check |
| MachineOrder.OrderStep | src/eople_vm.cpp:196-247 | Every step keeps the per-process order although cores drop the queue lock before they deliver |
| MachinePromises.ConserveStep | src/eople_vm.cpp:201-240 | Every step keeps every copy of every message in exactly one place |
| MachineWhen.WhensStep | src/eople_vm.cpp:444-465 | Every step keeps, for each waiting block of a ready promise, a notice still coming or a pass still to reach it |
| ProcessStacks.ProcessStack.ReallocStack | inc/eople_core.h:422-448 | The old contents stay, the new slots are zero |
| ProcessStacks.ProcessStack.SetupStackFrame | inc/eople_core.h:283-308 | Pushes the caller's frame and sets the callee's offsets; the top slot exists afterwards |
| ProcessStacks.ProcessStack.PopStackFrame | inc/eople_core.h:272-281 | Restores the three offsets of the caller; nothing on an empty frame stack |
| ProcessStacks.ProcessStack.PushArgs | inc/eople_core.h:330-388 | The operands that are the arguments, read across the instructions that hold them, arrive in order at the start of the frame, of a constructor after `this`, and nothing else changes: Frames.ArgumentsLand, and by field Frames.ArgumentFields |
| Frames.ArgumentFields | inc/eople_core.h:348-387 | The arguments of a plain call are operands b, c, d of the call and then a, b, c, d of each following instruction; those of a constructor call c, d and then the same |
| Frames.ArgumentsLand | inc/eople_core.h:333-346 | Slot by slot, what PushArgs leaves: the arguments at the base of the frame, or from slot 1 of the stack on for a constructor, the rest untouched |
| Frames.FrameKinds | inc/eople_core.h:283-308 | Base and top for a plain function, a method and a when block; the temporaries are in the frame exactly when the context is not reused or the frame is at the bottom |
| ProcessStacks.ProcessStack.CaptureClosure | inc/eople_core.h:390-405 | Copies every slot from the parameters up to the temporaries, with the base offset; the default closure when there is none |
| ProcessStacks.ProcessStack.ApplyClosureState | inc/eople_core.h:407-420 | Moves the frame to the closure's base and puts the captured segment there |
| ProcessStacks.ProcessStack.ShiftSegment | inc/eople_core.h:462-469 | Moves a segment that may overlap its new place |
| Calls.ExecuteFunction | src/eople_vm.cpp:503-519 | Gets to the end exactly when the code of the function does; then, over any nesting of calls and reallocations, base, top, temporaries and frames are back, and the memory is what the specification says |
| Calls.AliveIff | inc/eople_vm.h:79-95 | Code gets to its end exactly when every call in it, at any depth, has at most three arguments |
| Calls.ManyArguments | src/eople_vmcode_gen.cpp:650-658 | A call with more is the end, whatever the function does |
| Calls.FourArguments | src/eople_vmcode_gen.cpp:743-752 | There is such a call |
| Calls.CallIsolation | src/eople_control_flow.cpp:432-436 | A call leaves all slots below the caller's top alone, and the value it returns is in the slot at the caller's top |
| Calls.CalleeStarts | inc/eople_core.h:310-321 | The callee starts with its arguments, constants and zeroed locals in place |
| Calls.CalleeFrame | src/eople_vm.cpp:511-515 | If the stack does not move, the frame of the callee has operand b of the call in its first slot, then the constants, then zeros |
| Calls.CallComputes | src/eople_vm.cpp:503-519 | A whole call: what a function of one instruction returns is computed from that frame and ends in the slot at the caller's top |
| Calls.ArgumentLost | src/eople_vm.cpp:508-513 | A call for which the stack moves and the callee gets what freed memory holds |
| Calls.ArgumentsArrive | src/eople_vm.cpp:509-513 | The arguments are the caller's slots that the fields of the call and of the instructions after it name exactly when the stack does not move; otherwise what freed memory holds |
| Calls.PeakIsReached | inc/eople_core.h:303-307 | The stack grows to exactly what the deepest chain of calls takes, and never shrinks |
| Calls.EnoughRoom | src/eople_vm.cpp:509-513 | With that much room from the start a run does not depend on freed memory |
| Blocks.ClosureRoundTrip | inc/eople_core.h:390-420 | Every parameter, constant and local captured in a live frame and applied after any frames and reallocations is back in its slot at the same base offset, and no other slot changes; top and temporaries have their distances; only a block that captures nothing moves |
| Blocks.ConditionRead | src/eople_control_flow.cpp:99-115 | The outcome read is the slot of the condition exactly when there is room for the test and all its calls; otherwise freed memory |
| Blocks.ConditionLost | src/eople_control_flow.cpp:136-152 | Without that room some content of freed memory makes the block do the opposite |
| Blocks.TestMoves | src/eople_control_flow.cpp:99-115 | A block whose test moves the stack |
| Blocks.EvaluatesAs | src/eople_control_flow.cpp:95-173 | With room for the test: the test runs in the restored frame, the body runs after it exactly when the low byte of the condition is not 0, and Whenever leaves its flag in the slot at the top |
| Blocks.GuardedAssignment | src/eople_control_flow.cpp:95-130 | An instance for all functions: a when block that assigns to a slot under a condition, from the memory before to the memory after |
| Blocks.BodyCarriesOver | src/eople_vm.cpp:485-491 | The next run of a whenever body starts from every captured slot as its last run left it |
| Blocks.Evaluate | src/eople_control_flow.cpp:95-173 | Restores the closure, runs the test, reads the outcome through the pointer taken before, runs the body if it is true, and leaves the caller's frame to be popped; gets to the end exactly when the test does, and the body if it is run |
| Deliveries.Process.RegisterBlock | src/eople_control_flow.cpp:14-33 | A block registered in a live frame can be evaluated in that frame, now and later |
| Deliveries.RegisterAdds | src/eople_control_flow.cpp:14-33 | A registration adds one block at the end of its list, with the slots from the parameters up to the temporaries as they are then, and changes nothing else |
| Deliveries.Process.ExecuteCode | inc/eople_vm.h:80-94 | Code with any calls keeps every registered block evaluable |
| Deliveries.Process.RunBlocks | src/eople_vm.cpp:444-495 | The two loops end, evaluate the blocks as DeliveryEvaluates says, keep the frame of the process, and leave every block evaluable |
| Deliveries.DeliveryEvaluates | src/eople_vm.cpp:444-495 | A delivery evaluates first every when block once, the last one taking the place of a taken one, and removes exactly the taken ones; from the memory that leaves it evaluates every whenever block in order and renews the taken ones with the slots their bodies left |
| Deliveries.BlocksOverALife | src/eople_vm.cpp:444-495 | Over any sequence of code, registrations and deliveries every when block registered, with the closure captured then, is either left or was taken, exactly once, and every whenever block is still there, in its place, at its base offset |
| Deliveries.BlockStartsFromItsClosure | src/eople_vm.cpp:444-456 | Whatever happens after a block is registered, a when block that is left starts with every captured slot as it was at registration, and the whenever block, which is always left, with those its last run left, both in the frame the block came from |
| Passes.WhenPassExact | src/eople_vm.cpp:444-465 | Every block is evaluated exactly once, where the last takes the place of a taken one, and exactly those with a false condition are kept |
| Passes.WhenPassFaithful | src/eople_vm.cpp:444-465 | The state changes only by those evaluations, each with the outcome its condition has then |
| Passes.EverPassExact | src/eople_control_flow.cpp:132-173 | No whenever block is removed; each is evaluated once, in order, and those with a false condition are left alone |
| Symbols.SymbolTable.GetTableEntryIndex | inc/eople_symbol_table.h:109-145 | Finds the name with the scope, or else the name without it, or adds the one with the scope, or reports that it is missing; keeps the table sound |
| Symbols.SymbolTable.ConvertToConstant | inc/eople_symbol_table.h:88-101 | The symbol becomes the last constant, its old index is free again only if it was the last; keeps the table sound |
| Symbols.AddedRegisters | inc/eople_symbol_table.h:128-136 | A new constant gets the register after the constants, a new variable the one after all symbols; older symbols keep theirs, but a new constant moves the variables up by one |
| Symbols.ConvertedRegisters | inc/eople_symbol_table.h:88-101 | A converted variable is the last constant, other constants keep their registers, other variables move up by one, and its own register stays unused unless it was the last |
| Symbols.RegistersDistinct | inc/eople_symbol_table.h:164-179 | In a sound table distinct symbols have distinct registers below the symbol count, constants first |
| Symbols.GetStackIndex | src/eople_ast.cpp:347-379 | What the loop over the enclosing scopes computes for a symbol found at any depth |
| Symbols.MemberSlots | src/eople_ast.cpp:358-379 | For a member function: class symbols below the class's symbol count, its own above, all distinct, as intended |
| Symbols.IntendedIff | src/eople_ast.cpp:358-379 | For every nesting of sound tables, exactly when the result is the intended slot |
| Symbols.DeeperScopesClash | src/eople_ast.cpp:358-377 | The smallest nesting for which it is not |
| Repl.AddingExtends | inc/eople_symbol_table.h:109-145 | Adding new symbols, in any number, keeps the table sound and every old register index |
| Repl.Process.IncrementalStackShift | inc/eople_core.h:593-625 | Moves the locals, clears the new ones and copies the new constants exactly when there are new constants |
| Repl.ShiftRefines | inc/eople_core.h:593-625 | After the shift every symbol is found at its new register: old ones with their value, new constants with theirs, new locals zero if a constant was added |
| Repl.SessionRefines | src/eople_vm.cpp:538-542 | Over any number of rounds, with any writes in between, registers and stack are a faithful map from names to values |
| Loops.Process.For | src/eople_control_flow.cpp:216-256 | The nested loops end, ip lands exactly before the end of the body, and the frame is what the specification says |
| Loops.LoopRunsOver | src/eople_control_flow.cpp:231-251 | The body runs once for each of start, start + step, ..., whatever it writes to the counter, stop or step |
| Loops.TurnsIsCeiling | src/eople_control_flow.cpp:233-243 | The number of turns is (stop - start) / step rounded up, 0 if negative |
| Loops.LoopIsIteration | src/eople_control_flow.cpp:231-251 | The result of a loop is the frame after some number of turns at which its condition is false, and it has none exactly when there is no such number |
| Loops.StepZero | src/eople_control_flow.cpp:231-239 | With step 0, after any number of turns the counter has not moved and the condition still holds |
| Loops.ZeroNeverEnds | src/eople_control_flow.cpp:231-239 | A loop with step 0 is entered exactly when its counter is below the bound, and then has no result |
| Loops.LessGuards | src/eople_control_flow.cpp:336-347 | A comparison and JumpIf: the instruction behind them is executed exactly when a < b, and only the low byte of the flag's slot changes |
| Loops.JumpGuards | src/eople_control_flow.cpp:329-359 | The fused jump lets the instruction behind it be executed exactly when a < b; a plain jump never does |
| Loops.KeptRuns | src/eople_control_flow.cpp:216-256 | Code with loops nested to any depth ends, whatever it writes, if it keeps an invariant of the frame that bounds each loop when it is entered |
| Loops.KeptReady | src/eople_control_flow.cpp:216-256 | Then the process can run it |
| Generation.CodeGen.GenStatements | src/eople_vmcode_gen.cpp:965-981 | Generates Generation.Gen: an If becomes a fused jump when the code so far ends in a comparison |
| Generation.CodeGen.GenFunction | src/eople_vmcode_gen.cpp:1197-1216 | The code of a function is right exactly when its first statement is not an If on a bare condition and no bare condition directly follows a comparison |
| Generation.CodeGen.EmitRest | src/eople_vmcode_gen.cpp:1062-1153 | The arms of an elseif chain and the else, with the jumps to the end stretched each time an arm is added |
| Generation.GeneratedIff | src/eople_vmcode_gen.cpp:1034-1053 | The code stands as the statements need it exactly when no bare condition directly follows a comparison; otherwise it is shorter by one instruction for each |
| Generation.AssignmentLost | src/eople_vmcode_gen.cpp:1036-1053 | An input: an assignment of a comparison disappears and the next If depends on it |
| Generation.JumpLeaves | src/eople_vmcode_gen.cpp:1036-1053 | An input: the jump leaves the body of the loop before |
| Generation.GeneratedRuns | src/eople_vmcode_gen.cpp:965-981 | Under that condition running the generated code does what the statements say |
| Generation.GeneratedEnds | src/eople_control_flow.cpp:216-256 | And it ends when an invariant kept by the statements bounds their loops |
| Generation.TriangleEnds | src/eople_control_flow.cpp:216-256 | Such are nested loops of which the inner one runs up to the counter of the outer one |
| Programs.BranchRuns | src/eople_vmcode_gen.cpp:1029-1153 | The generated code of an If with an else, run from any frame: the first branch exactly when the comparison holds, or the low byte of the slot is not 0 |
| Programs.SumRuns | src/eople_vmcode_gen.cpp:965-981 | The generated code of a loop that sums its counter, run from any frame: the sum from the start value up to the limit |
| LoopCode.PlacedRuns | src/eople_control_flow.cpp:329-359 | Wherever code stands so, running it does what the statements say |
| LoopCode.PlacedEnds | src/eople_control_flow.cpp:216-256 | And it ends when an invariant kept by the statements bounds their loops |
| Specializations.FunctionNode.FindSpecializationForArgs | src/eople_ast.cpp:482-530 | Returns the first specialization that accepts the arguments, or adds one, setting the types of parameters in the tables where they are found; current_specialization is restored |
| Specializations.AnswerIsFirst | src/eople_ast.cpp:488-516 | The answer is the first specialization that has for each parameter ANY, the argument's type, or an open type of its kind, in its own table or else in that of the class |
| Specializations.AddedCopies | src/eople_ast.cpp:518-525 | A new specialization is a copy of the function's table in all but the parameters |
| Specializations.AddedAccepts | src/eople_ast.cpp:518-525 | A new specialization accepts its arguments exactly when arguments of parameters that share a name fit each other, and an older one exactly when it takes those of the function's own parameters and the others fit |
| Specializations.RepeatAddsNothingIff | src/eople_ast.cpp:488-525 | Exactly when a repeated request adds nothing; otherwise it adds once more |
| Specializations.RememberedIff | src/eople_ast.cpp:488-525 | Exactly when it is answered with the specialization that the request got |
| Specializations.AnswerStaysIff | src/eople_ast.cpp:488-525 | The answer stays the same over any later requests exactly when it is remembered and every parameter has its entry in the function's own table, or some specialization takes all types |
| Specializations.SharedNameMisses | src/eople_ast.cpp:518-525 | An input: two parameters of one name, and the same request adds a specialization twice |
| Specializations.ClassSymbolMisses | src/eople_ast.cpp:92-107 | An input: a parameter named like a class symbol, and the same request is answered with 1 and then with 0 |
| Expressions.Parser.ParseExpression | src/eople_parse.cpp:1346-1353 | The top of the ladder computes Expressions.Level for all nine levels, with position and error flag |
| Expressions.Parser.ParseOp | src/eople_parse.cpp:1226-1272 | The loop, for the operators of any one function of the ladder, which are given by its own test |
| Expressions.BindsTighter | src/eople_parse.cpp:1274-1353 | For all names or numbers and all pairs of operators of neighbouring functions of the ladder, by name: the tighter one groups first, on either side |
| Expressions.SameGroupsLeft | src/eople_parse.cpp:1235-1269 | Two operators of the same function of the ladder group to the left |
| Expressions.Parses | src/eople_parse.cpp:1226-1272 | Every spelling, with any extra parentheses, newlines after operators, signs, hollow parentheses, and broken ones on the line of the last error, is parsed to its tree without error and consumed exactly |
| Expressions.Accepted | src/eople_parse.cpp:1069-1194 | Whatever is parsed without an error is such a spelling, and the tree is its tree |
| Expressions.AcceptedLanguage | src/eople_parse.cpp:1226-1272 | At every level and position: a node without an error if and only if a spelling of it stands there, followed by a token that ends it |
| Expressions.AcceptedElsewhere | src/eople_parse.cpp:1252-1258 | When the last error was on no line of the text, the same without broken parentheses |
| Expressions.Refuses | src/eople_parse.cpp:1098-1191 | An unknown name, a sign before a truth value and too large a number are errors at every level |
| Expressions.ParserUndoesPrinter | src/eople_parse.cpp:1050-1194 | Parsing the printed form of an expression gives it back |
| Expressions.FewestParens | src/eople_parse.cpp:1274-1353 | The printed form has the fewest parentheses of all spellings |
| Expressions.Unambiguous | src/eople_parse.cpp:1226-1272 | Tokens that can be read as two spellings have one tree |
| Expressions.EmptyParens | src/eople_parse.cpp:1050-1075 | An instance: `() 5` parses as `5` without an error |
| Expressions.BrokenParens | src/eople_parse.cpp:1252-1258 | An instance: `(1 + ) 5` parses as `5`, and is an error exactly when the last error was not on line 1 |

## Left out

- Weak memory: the scheduler is sequentially consistent although `message_count` and `idle_count` are relaxed atomics.
- Liveness: try-locks may fail without a holder forever; safety, wait chains and what can still happen are claimed, not that it does.
- Spawning: processes and outside threads are fixed in number, as many as wanted; one that does not exist yet takes no step.
- ExecuteConstructor, and ExecuteFunction on a process that a core runs at the same time: they take no process lock, so the scheduler's guarantees do not cover them; outside threads of the model send, set timers, and run incremental code.
- Time: clocks are integers that never go back; what a duration means is left out.
- MachineTheorems.RestDelivers: assumes fewer than 2^32 queued messages, the range of message_count.
- MachineTheorems.MissedIffLate: covers plain promises of the process itself; whether a chained promise is ready is left open in the model, and processes that ran incremental code are not covered, because no pass follows it.
- Promise values, arguments of messages, hot swapping of functions and exceptions in the scheduler.
- Calls.ExecuteFunction: an instruction other than a call writes one slot; what a jump to a null function does is not modelled beyond that the run does not get past it.  FunctionCall is generated only for plain functions: `GetFunction` (`src/eople_vmcode_gen.cpp:1292-1363`) finds no member function, and a constructor gets SpawnProcess (`src/eople_vmcode_gen.cpp:731-752`); methods are reached by messages, and a constructor runs in its new process.  The code of both may make such calls, in any frame, and is covered.
- Calls.PeakIsReached: Calls.Code is the sequence of instructions that one execution goes through; jumps and loops are not in it, only what they lead to, so the need for stack is that of one execution.
- ProcessStacks.ProcessStack.Write: the debug assertions of the C++ code are preconditions; PushArgs from a message's argument array is left out.
- Deliveries.Process.RunBlocks: blocks, and code between deliveries, get to their end, as `Calls.AliveIff` and `Blocks.Evaluate` say when; bodies register no blocks during a pass, so the reference to the current whenever block (`src/eople_vm.cpp:470` and `491`), which a registration in its body would leave dangling, stays good; tests, and the bodies of when blocks, are straight-line code, as When runs them.  The callstack of instruction pointers, the block assigned to itself when the last one is removed, and the strings that temporaries own are left out.
- Repl.SessionRefines: symbols are only added between rounds; conversion of a variable to a constant between rounds, and blocks registered in the session, whose closures are not adjusted, are left out.
- Symbols.SymbolTable.GetTableEntryIndex: types of symbols and Rollback, which nothing calls, are left out.
- Loops.Process.For: takes code that comes to its end, as `Loops.KeptReady` provides; counters are mathematical integers; a run in which a counter would leave the 64-bit range is undefined in C++ and gives no result here.  While, ForA and ForF are left out.
- Generation.CodeGen.GenStatements: conditions and operands are computed by `Do` and `Compare` instructions; the code of expressions, and While and the other statements, are left out.  Jump distances and loop lengths are not cut to 16 bits (`src/eople_vmcode_gen.cpp:980` and `1058`).  What is read before the first instruction is taken not to be a comparison.
- Specializations.FunctionNode.FindSpecializationForArgs: types are atoms with a kind and an open flag; return types and the template marks are left out.  The specialization of the class that is current stays the same, and only requests to the function itself come between two requests.
- Expressions.Parses: function calls, subscripts, process messages, floats, strings, array, dict and type literals are outside; meeting one sets a flag.  The lexer, symbol labels and the count of temporaries are left out.
- Type inference, the rest of code generation, file loading, the user interface and logging.
