# A verified model of the sli3 interpreter

sli3 is a stack interpreter in the PostScript tradition. This project models its two cores
and two smaller parts, and proves what they are for:

- **The dispatcher and its execution stack.** `Machine` is the reference: a machine of whole
  frames that pushes every token it fetches and dispatches it from the stack. The loops, the
  Map family, `stopped`, errors, `bind` and tail-call elimination are proved on it
  (`Runs`, `Absence`, `TailCall`, `Locality`, `StoppedContext`, `Loops`, `Operators`, `LoopExits`,
  `Maps`, `Binding`, `BindingRuns`, `Rebinding`). `Operators` says what single tokens do and that a
  body is the sequence of what its tokens do, so that programs can be calculated with.
  `InterpreterObject` is the program as it is written: an object with an execution stack of single
  slots, scans that count slots, arms that write position and counter
  cells in place, and a dispatcher whose labels stand for the `goto`s of the original. Every
  method is proved against the reference, and the dispatcher refines it. `Layout` and
  `FrameBuilders` say how frames lie in slots.
- **The dictionary stack.** `DictHeap` has dictionaries with numbered map nodes and reference
  counts, so that a cached pointer can be stale or dangling; a freed node's number is never used
  again. `DictStack` states the invariant that every run keeps, and coherence of the lookup
  cache, which a `baselookup` may end, beside it; `DictOps`, `DictMoves` and `DictSnapshot` the
  operations, `DictRuns` and `DictCommands` what holds after any sequence of operators, and
  `DictStackObject` the object with its loops. The plain search under the caches is proved to be
  the lookup of the reference machine, and `def` to be its `def` (`DictMachine`).
- **Shared arrays.** `SharedArrays`, `CowOps`, `CowPut` and `CowObject`: reference counts with the
  cascade of destructors, clone on write in `append` and `prepend`, and `put` without it.
- **Index arithmetic.** `Rotation` (`roll`, `Rotate`) and `ArrayOps` (`Range`, `Partition`,
  `Flatten`, `Transpose`).

`dafny verify dfyconfig.toml` checks everything. In the table below the main results come first,
what they rest on follows module by module.

## What the code does where its documents say otherwise

The model follows the code.

- Numbers, booleans and arrays are executable tokens: a type is executable unless its
  constructor says otherwise (src/types/sli_type.h:195), and only literals and marks among the
  modelled types do. They pass through the execution stack.
- `exit` without a loop raises EStackUnderflow (src/builtins/sli_control.cpp:135-151); the
  control-flow document kept with the sources names `invalidexit` (its decision D3).
- `stopped` does not save or restore the dictionary stack; that document says that it does (D2).
- The code does not check for a marker inside a procedure body, as D5 there asks. In the model
  no program token is a marker.
- The comment on the path arm of `put` (src/builtins/sli_op_bodies.h:447-451) says that the
  single-level arm gives its slot a private copy; the code of that arm does not, and says so.
- `raiseerror` finds `stop` with `baselookup`, which writes the lookup cache
  (src/containers/sli_dictstack.h:233). By `DictOps.BaselookupCoherent` the cache stays right
  exactly as long as no dictionary above the base binds `stop`; a program that has redefined it may
  get the base's definition from the next lookup. By `DictCommands.PointersAreAlive` it gets no
  worse than that.
- `loop` finds its mark with `baselookup` too (src/builtins/sli_control.cpp:121), and `forall` its
  marker (:741). Both write the lookup cache in the same way, and both push whatever the system
  dictionary binds there; in the model that is the mark and the marker.
- `roll` adds n and k as unsigned words. By `Rotation.RollIsModulo` the result is the rotation
  exactly for k >= -n, or when n is a power of two; by `Rotation.RollBackExactly` rolling back
  fails in the other cases.
- Signed sums that leave 64 bits are undefined in C++. The model lets them wrap around, as the usual
  machine code does; on some processors dividing the least word by -1 traps.
- `9223372036854775806 1 9223372036854775807 {} for` does not end after two rounds, or ever: the
  counter passes its limit by wrapping around (`Loops.ForRunsOver`, `Loops.ForNeverComesBack`). By
  `Loops.ForEndsIfFits` `for` ends after its last round exactly if every counter value fits; that
  limit + step fits is enough.
- `[-9000000000000000000 8000000000000000000 1000000000000000000] Range` is empty although there are
  18 items (`ArrayOps.RangeRunsShort`). By `ArrayOps.RangeIsProgression` the result is the
  progression exactly if the difference and the count fit.
- `[1 2 3] 1 9223372036854775807 Partition` passes its test after the only window and reads outside
  of the array (`ArrayOps.PartitionStrays`). By `ArrayOps.Partition` the windows come out exactly if
  every sum fits; that length + stride fits is enough.
- Tail-call elimination is not transparent to a `return` that leaves a procedure with nothing left
  to run: see `TailCall.TailCallsChangeReturn`, and `TailCall.ReturnSimulates` for exactly when it
  is.

## Model

| member | source | states |
|---|---|---|
| InterpreterObject.Interpreter.ExecuteDispatch | src/interpreter/sli_interpreter.cpp:790-1256 | The fused dispatcher refines the naive machine for every program and start state: wherever it is, its stacks are those of the naive machine after some number of steps (but for a name below a scheduled `stop`); when it ends, the naive machine ends with the same world; it ends whenever the naive one does; and the same holds for the machine without tail-call elimination if no `return` leaves a finished procedure. |
| Machine.FindIsTopmost | src/containers/sli_dictstack.h:96-104 | The reference machine resolves a name to its value in the topmost dictionary that binds it, and finds nothing exactly if none does. |
| Operators.EffectsInSequence | src/interpreter/sli_interpreter.cpp:915-1022 | The effect of a body is that of its first part followed by that of its second, for every way of cutting it. |
| Operators.NameActs | src/interpreter/sli_interpreter.cpp:966-993 | A name does what its value in the topmost dictionary that binds it does: a function or a procedure runs, anything that is not executable is pushed. |
| Operators.BranchesRun | src/builtins/sli_control.cpp:275-292 | Above any stack `b {p} {q} ifelse` has the effect of p if b is true and that of q otherwise; `b {p} if` has the effect of p, or none. |
| Operators.DefActs | src/builtins/sli_op_bodies.h:176-186 | After `/n v def` n resolves to v and every other name to what it did before. |
| Operators.RedefinedNameRuns | src/interpreter/sli_interpreter.cpp:915-1022 | `/add {pop} def 1 2 add` leaves 1, whatever `add` was bound to. |
| Operators.ProcedureReturns | src/builtins/sli_control.cpp:178-233 | A `return` in a body, under loops of that body only and with its frame still there, ends the procedure and those loops and nothing else. |
| TailCall.TailCallsPreserveMeaning | src/interpreter/sli_interpreter.cpp:926-940 | With and without tail-call elimination a program none of whose `return`s leaves a procedure that has nothing left to run halts with the same operand stack, dictionaries and error state, or halts in neither case. |
| TailCall.ReturnSimulates | src/builtins/sli_control.cpp:178-233 | From related states the two machines stay related over a `return` exactly if it leaves no finished procedure, or if with frames dropped a finished procedure, or behind a loop a token, lies at that place as well. |
| TailCall.TailCallsChangeReturn | src/builtins/sli_control.cpp:178-233 | A `return` that leaves a finished procedure: `1 {return} {repeat} {exec 5}` leaves 5 with all frames kept and nothing with the frame dropped. |
| TailCall.RunStaysLean | src/interpreter/sli_interpreter.cpp:926-940 | What the elimination is for: in every run that drops frames, a procedure that is not on top has something left to run, but for one whose last token, a literal or a mark, is about to be moved; so the execution stack does not grow over tail calls. |
| BindingRuns.BindPreservesMeaning | src/builtins/sli_control.cpp:1187-1252 | A body and its bound form, in a run that never rebinds a replaced name, both halt or both do not, with the same error state and with stacks and dictionaries equal up to replaced names in procedures left there. |
| Binding.BindIsIdempotent | src/builtins/sli_control.cpp:1187-1215 | Binding twice is binding once. |
| Binding.BindReplacesNames | src/builtins/sli_control.cpp:1187-1215 | The names that occur in the bound body, at every depth, are those of the body without exactly the ones that resolve to functions. |
| Rebinding.RebindingIsHarmless | src/builtins/sli_control.cpp:1187-1252 | Names that `bind` has resolved to functions may be bound anew or unbound later, in any dictionary: at every step the bound body has the same execution and operand stacks and error state, and dictionaries that differ in these names only, if nothing else in the state and no array in the body mentions them. |
| Rebinding.RunsAgree | src/interpreter/sli_interpreter.cpp:966-993 | Any two runs whose dictionaries differ in some names only stay alike until one of these is looked up. |
| Rebinding.BoundNameSurvives | src/builtins/sli_control.cpp:1187-1215 | `/f {1 2 add} bind def /add {pop} def f` leaves 3. |
| Runs.RunKeepsBounds | src/interpreter/sli_interpreter.cpp:915-1222 | In every run 0 <= pos <= |proc| holds for every body walk, and the counters of `forall` and `forallindexed` stay within their arrays. |
| Runs.StepKeepsInv | src/interpreter/sli_interpreter.cpp:828-1256 | Every step keeps the execution stack a sequence of whole frames: a position is never negative, a Map frame's index lies within its target, and only body walks, sentinels and unresolved names lie below the top. |
| StoppedContext.StoppedCatches | src/builtins/sli_control.cpp:362-411 | In every run from `stopped` that no `exit` leaves, control is still inside or has come back to exactly the stack below, with `false` after normal completion and `true` after `stop`. |
| StoppedContext.StoppedDelivers | src/builtins/sli_control.cpp:362-411 | If such a run from the call of `stopped` halts, the boolean has been delivered on the way. |
| StoppedContext.ErrorReachesSentinel | src/interpreter/sli_interpreter.cpp:587-682 | Any error and the `stop` it schedules leave one command literal and `true` at the nearest sentinel, and change no dictionary. |
| DictCommands.ExecKeeps | src/containers/sli_dictstack.cpp:60-299 | Every operator in every state keeps the invariant (live pointers, the second cache right, base at the bottom, fresh read-only snapshot, exact reference counts, marks that suffice) and rewrites no read-only array; coherent caches it keeps exactly if it is not a `baselookup` that writes a hidden binding into the first cache. |
| DictCommands.PointersAreAlive | src/containers/sli_dictstack.h:86-104 | After any run, no lookup gives a dangling pointer or the binding of a dictionary that is not on the stack, and `baselookup` gives the base's own binding. |
| DictCommands.LookupsAgree | src/containers/sli_dictstack.h:86-104 | After any run of operators in which no `baselookup` writes a hidden binding, a cached lookup is the plain top-down search. |
| DictMachine.RunFinds | src/containers/sli_dictstack.h:86-104 | After such a run a cached lookup finds what the reference machine finds in the world that these dictionaries make. |
| DictMachine.DefIsSeen | src/containers/sli_dictstack.h:353-363 | `def` makes the reference machine find the value under its name and changes no other name, on every stack; where the top is not on the stack twice it is the machine's own update. |
| DictCommands.CountsAgree | src/containers/sli_dictionary.h:160-178 | After any run every count is the number of owners: tokens elsewhere, occurrences on the stack, and arrays; and a live snapshot is the stack read from the bottom. |
| DictCommands.SnapshotRoundTrip | src/builtins/sli_startup.cpp:357-415 | `dictstack`, any run, `restoredstack`: as long as the program still has the array it gets back the list and base it saved. |
| DictRuns.FastPathIsRebuild | src/containers/sli_dictstack.cpp:253-274 | Where the array is the stack as it is, doing nothing and rebuilding give the same list, base and bindings. |
| DictRuns.FastPathFindsTheSame | src/containers/sli_dictstack.cpp:253-274 | After either, `baselookup` finds every name at the same node, and `lookup` does exactly where the cached pointer, if any, is the one the plain search finds. |
| DictOps.BaselookupIsBase | src/containers/sli_dictstack.h:218-238 | `baselookup` gives the base dictionary's own binding, whether or not the first cache is coherent. |
| DictOps.BaselookupCoherent | src/containers/sli_dictstack.h:218-238 | `baselookup` keeps the first cache coherent exactly when it writes nothing or nothing above the base binds the name. |
| DictOps.BaselookupSpoilsLookup | src/containers/sli_dictstack.h:233 | A state in which it does not: a binding above the base is hidden from the next lookup. |
| Loops.RepeatIterates | src/builtins/sli_control.cpp:313-332 | `n p repeat` is max(n, 0) runs of p one after the other, above an unchanged stack. |
| LoopExits.RepeatComesBack | src/builtins/sli_control.cpp:313-332 | If `n p repeat` comes back, p has been run exactly max(n, 0) times. |
| Loops.ForIterates | src/builtins/sli_control.cpp:639-661 | If every counter value fits a word, `a s b p for` runs p once for each counter value in turn, for a step of either sign, and not at all for a step of zero. |
| LoopExits.ForComesBack | src/builtins/sli_control.cpp:639-661 | If every counter value fits a word and `a s b p for` comes back, p has been run exactly once per counter value, in turn. |
| Loops.CountersBetween | src/interpreter/sli_interpreter.cpp:1047-1060 | No counter value leaves the words exactly if the one behind the last round does not. |
| Loops.ForEndsIfFits | src/interpreter/sli_interpreter.cpp:1047-1060 | After the last round the loop ends exactly if every counter value fits; otherwise the counter wraps around and is within the limit again. |
| Loops.LimitFits | src/interpreter/sli_interpreter.cpp:1047-1060 | It is enough that limit + step fits. |
| Loops.ForNeverComesBack | src/interpreter/sli_interpreter.cpp:1047-1060 | With the greatest word as the limit, or the least one and a negative step, the empty body is run for ever. |
| Loops.ForallIterates | src/builtins/sli_control.cpp:724-743 | `a p forall` runs p once per element in order. |
| LoopExits.ForallComesBack | src/builtins/sli_control.cpp:724-743 | If `a p forall` comes back, p has been run exactly once per element, in order. |
| Loops.ForallIndexedIterates | src/builtins/sli_control.cpp:787-814 | `a p forallindexed` runs p once per element in order, with the index from 0. |
| LoopExits.ForallIndexedComesBack | src/builtins/sli_control.cpp:787-814 | If `a p forallindexed` comes back, p has been run exactly once per element in order, with the index from 0. |
| LoopExits.LoopIterates | src/builtins/sli_control.cpp:110-122 | `p loop` is some runs of p and then one that exits. |
| LoopExits.LoopComesBack | src/interpreter/sli_interpreter.cpp:1037-1222 | A loop of any kind, the Map family included, that comes back, with no unwinding into its frame, has run its body exactly once per round of its frame, each time to its end. |
| Maps.MapComputes | src/builtins/sli_array_module.cpp:649-687 | A body that takes each a[i] to one result turns the array into the results in order; the stack below is unchanged. The array and the body may be empty. |
| Maps.MapIndexedComputes | src/builtins/sli_array_module.cpp:689-709 | The same with the index counted from 1. |
| Maps.MapThreadComputes | src/builtins/sli_array_module.cpp:711-768 | The same for a rectangular array of arrays: round j passes element j of every row, in the order of the rows; without columns, and for an empty body, the argument stays. |
| Maps.MapIsMap | src/builtins/sli_array_module.cpp:664-687 | For a body that computes f, `Map` maps f. |
| Maps.MapComesBack | src/builtins/sli_array_module.cpp:664-687 | If `a p Map` comes back, p has been run once per element in order and has left exactly one result each time, and the array of these results lies where a lay. |
| Maps.MapFamilyComesBack | src/interpreter/sli_interpreter.cpp:1130-1220 | The same for every frame of the family: each round starts from a stack of the same depth with the arguments that the frame holds for it, adds one result, and the array of the results takes the place of the source array. |
| CowOps.ExtendIsolates | src/builtins/sli_container_ops.cpp:1427-1472 | After `append` the slot reads the old items and then the value, after `prepend` the value and then the old items; every other array reads as before, the array is a new one exactly if someone else holds the old one, and the counts are right; the value may be the array itself. |
| CowOps.OthersReadTheOld | src/builtins/sli_container_ops.cpp:1427-1472 | Whoever else holds an array, whichever it is, reads the old contents. |
| CowPut.PutWritesOneCell | src/builtins/sli_op_bodies.h:421-498 | `put`, with an index into an array or procedure or a path through arrays, changes exactly the one cell it names, for every holder alike; the counts are right although the old value may be the last reference to something. |
| CowPut.PutFollowsPath | src/builtins/sli_op_bodies.h:442-498 | With a path, that cell is the one to which its indices lead one after the other from the container; the last of them counts in the last array. |
| CowPut.GetAfterPut | src/builtins/sli_op_bodies.h:322-441 | Every holder gets the value back from that index, and from all others what was there. |
| Rotation.RollIsModulo | src/containers/sli_tokenstack.h:119-126 | The amount `roll` turns by is the mathematical one exactly if k >= -n or n divides 2^64. |
| Rotation.RollIsTurn | src/containers/sli_tokenstack.h:112-127 | On stacks of distinct elements `roll` is the rotation of the top n exactly under that condition; the rest is left alone. |
| Rotation.RollBack | src/containers/sli_tokenstack.h:112-127 | For k from -n to n, rolling by -k undoes rolling by k. |
| Rotation.RollBackExactly | src/containers/sli_tokenstack.h:112-127 | On distinct elements it does so exactly there, or where n is 0 or divides 2^64. |
| Rotation.TurnsAdd | src/builtins/sli_array_module.cpp:251-275 | Turning by a and then by b is turning by a + b, for all integers. |
| ArrayOps.RangeListsTheCounters | src/builtins/sli_array_module.cpp:96-101 | Where `a s b {} for` ends, `[a b s] Range` lists what it leaves on the stack exactly if the difference and the count fit a word. |
| ArrayOps.RangeIsProgression | src/builtins/sli_array_module.cpp:96-101 | For all words, `Range` gives the arithmetic progression exactly if that is empty or the difference and the count fit a word. |
| ArrayOps.FlattenPartition | src/builtins/sli_array_module.cpp:280-462 | `Flatten` of the windows of n elements side by side is the longest prefix of a whose length is a multiple of n. |
| ArrayOps.Partition | src/builtins/sli_array_module.cpp:427-462 | The two loops, in words, produce the windows exactly if every sum they form fits a word; otherwise they read outside of the array. Non-positive arguments raise RangeCheck. |
| ArrayOps.StrideFits | src/builtins/sli_array_module.cpp:444-456 | The sums fit if the length and the stride together do. |
| ArrayOps.SideBySideFits | src/builtins/sli_array_module.cpp:444-456 | For windows side by side they fit if twice the length does. |
| ArrayOps.WindowCount | src/builtins/sli_array_module.cpp:444-456 | Without regard to the size of a word, the number of windows is (|a| - n)/d + 1, or 0. |
| ArrayOps.TransposedCells | src/builtins/sli_array_module.cpp:408-418 | Row i of column j of the result is column j of row i of the argument. |
| ArrayOps.TransposeTwice | src/builtins/sli_array_module.cpp:368-420 | On rectangular arrays transposing twice gives the array back exactly if it has no rows or some column. |
| Runs.HaltsOnce | src/interpreter/sli_interpreter.cpp:809-879 | A program has at most one final state. |
| Runs.RunKeepsBinding | src/builtins/sli_control.cpp:492-495 | No step of any run of the modelled functions, among which there is no `undef` and no `end`, makes a bound name unbound. |
| Machine.RowErrorIsRectangular | src/builtins/sli_array_module.cpp:711-768 | The checks of `MapThread` pass exactly for rectangular arguments of the first row's length. |
| Machine.RowErrorIsFirst | src/builtins/sli_array_module.cpp:711-768 | Otherwise they report the first row that does not fit: ArgumentType if it is no array, RangeCheck if its length differs. |
| Tokens.LookupIsTopmost | src/containers/sli_dictstack.h:96-104 | The search gives the value in the topmost dictionary that binds the name, and nothing exactly if none does. |
| Operators.NameStep | src/interpreter/sli_interpreter.cpp:839-848 | One step on a name, above any stack. |
| Operators.UnboundNameFails | src/containers/sli_dictstack.h:192-206 | A name that no dictionary binds raises UndefinedName and stays below the scheduled `stop`. |
| Operators.EffectIsUnique | src/interpreter/sli_interpreter.cpp:915-1022 | A body has at most one effect. |
| Operators.ProcedureActs | src/interpreter/sli_interpreter.cpp:896-898 | A procedure that is dispatched does what its body does, with its frame kept or dropped. |
| Operators.ActsIsReached | src/interpreter/sli_interpreter.cpp:828-1256 | What a token does on its own it does above any stack. |
| Operators.DataActs | src/interpreter/sli_interpreter.cpp:829-867 | Data go on the operand stack, and a literal procedure goes there as a procedure. |
| Operators.IfActs | src/builtins/sli_op_bodies.h:164-173 | `b t if` does what t does if b is true, and nothing otherwise. |
| Operators.IfelseActs | src/builtins/sli_control.cpp:275-292 | `b t u ifelse` does what t does if b is true, and what u does otherwise. |
| Operators.ExecActs | src/builtins/sli_control.cpp:1164-1174 | `t exec` does what t does. |
| Operators.ArithmeticActs | src/builtins/sli_op_bodies.h:82-155 | `add` and `sub` give the mathematical sum and difference if these fit a word. |
| Operators.ArithmeticOverflows | src/builtins/sli_op_bodies.h:82-155 | If they do not, RangeCheck is raised with both operands still there. |
| Operators.PopActs | src/builtins/sli_op_bodies.h:42-47 | `pop` takes the top away. |
| Operators.DupActs | src/builtins/sli_op_bodies.h:49-54 | `dup` doubles it. |
| Operators.ExchActs | src/builtins/sli_op_bodies.h:56-62 | `exch` exchanges the two on top. |
| Operators.RaiseRecords | src/interpreter/sli_interpreter.cpp:587-682 | A first error is recorded under its name and its command, and the command goes on the operand stack; an error before that one is handled takes the flag back and keeps the names. |
| Operators.TooFewOperands | src/interpreter/sli_interpreter.h:261-265 | Too few operands are reported before anything else, and stay where they are. |
| Operators.WrongOperands | src/interpreter/sli_interpreter.h:271-274 | So are operands of a wrong type: a condition that is no boolean, a name to define that is no literal, summands that are no integers. |
| Layout.MarkIsLoopBottom | src/builtins/sli_control.cpp:135-151 | The first mark that `exit` finds, counting slots from the top, is the lowest slot of the innermost loop's frame: popping through it removes whole frames and exactly those down to that loop. |
| Layout.NoMarkNoLoop | src/builtins/sli_control.cpp:135-151 | If `exit` finds no mark, there is no loop to leave. |
| Layout.SentinelIsFrame | src/builtins/sli_control.cpp:387-411 | The first sentinel that `stop` finds is that of the innermost `stopped`; popping through it leaves exactly the frames below it. |
| Layout.NoSentinelNoContext | src/builtins/sli_control.cpp:387-411 | If `stop` finds no sentinel, no `stopped` is active. |
| Layout.ReturnScan | src/builtins/sli_control.cpp:178-233 | Every stride of `return` over the slots is one whole loop frame; it stops at the innermost procedure or at the first slot that is no frame. |
| InterpreterObject.Interpreter.ExitFunction | src/builtins/sli_control.cpp:135-151 | The slot scan of `exit` does what leaving the innermost loop does on frames; without a loop it raises an error and changes no frame. |
| InterpreterObject.Interpreter.StopFunction | src/builtins/sli_control.cpp:387-411 | The slot scan of `stop` cuts back to the innermost `stopped` and leaves `true`, or empties the execution stack. |
| InterpreterObject.Interpreter.ReturnFunction | src/builtins/sli_control.cpp:178-233 | The slot scan of `return` leaves the innermost procedure and the loops in it, or raises InvalidReturn. |
| InterpreterObject.Interpreter.RaiseError | src/interpreter/sli_interpreter.cpp:587-682 | Records the first error, or marks a second one as consumed; either way one literal and a scheduled `stop`. |
| InterpreterObject.Interpreter.ForFunction | src/builtins/sli_control.cpp:639-661 | The seven slots of the `for` frame are those of the reference frame; type errors leave the operands in place. |
| InterpreterObject.Interpreter.MapThreadFunction | src/builtins/sli_array_module.cpp:711-768 | All rows are checked before anything is pushed; then the eight slots of the frame are those of the reference frame. |
| InterpreterObject.Interpreter.ExhaustMapping | src/interpreter/sli_interpreter.cpp:1130-1220 | The exhaust arms of the Map family, slot by slot, write the result back and push the next arguments or deliver the array, as the reference machine does. |
| InterpreterObject.Interpreter.ExhaustArm | src/interpreter/sli_interpreter.cpp:1032-1222 | Whatever marker is on top, the slots change as the end of that body demands; a frame that ends is popped whole. |
| InterpreterObject.Interpreter.BodyWalkArm | src/interpreter/sli_interpreter.cpp:915-1017 | The in-place body walk (tail call, direct function call, name resolved in place, literal procedure pushed as data) equals one to three steps of the machine that pushes every token. |
| InterpreterObject.Interpreter.OuterSwitch | src/interpreter/sli_interpreter.cpp:828-905 | One turn of the outer switch is one step of the reference machine. |
| InterpreterObject.Interpreter.Advance | src/interpreter/sli_interpreter.cpp:828-1256 | Every transition between the labels of the dispatcher matches a number of reference steps, and there are never more than four transitions per step. |
| InterpreterObject.TrailEnds | src/interpreter/sli_interpreter.cpp:966-993 | The name that the slow path leaves under `stop` makes no difference to what `stop` does. |
| TailCall.StepSimulates | src/interpreter/sli_interpreter.cpp:926-940 | One step with all frames kept is matched by none with exhausted frames dropped where a finished frame goes, and otherwise by one, exactly if the step is no `return` or one that returns alike in both. |
| TailCall.FullDrivesShort | src/interpreter/sli_interpreter.cpp:926-940 | Every run that keeps frames is followed by a run that drops them, and that one is not longer. |
| TailCall.ShortDrivesFull | src/interpreter/sli_interpreter.cpp:926-940 | Every run that drops frames is followed by a run that keeps them. |
| TailCall.ReturnFreeNeverReturns | src/builtins/sli_control.cpp:178-233 | A program in whose tokens, however deeply nested, there is no `return` is of that kind. |
| Absence.RunKeepsFree | src/interpreter/sli_interpreter.cpp:828-1256 | Functions and names that occur nowhere in a state, however deeply nested, never get there in any run. |
| StoppedContext.StepFromInside | src/builtins/sli_control.cpp:362-411 | A step under a sentinel stays under it, or delivers its verdict to the stack below, or is an `exit` to a loop below; `return` never passes it. |
| StoppedContext.StoppedEnters | src/builtins/sli_control.cpp:362-386 | `stopped` puts the sentinel and the body on the stack below. |
| Locality.LocalStep | src/interpreter/sli_interpreter.cpp:828-1256 | A step that does not unwind below its own frames does the same above any stack. |
| Loops.EffectIsExec | src/builtins/sli_control.cpp:1164-1174 | The effect of a body, of which the loop theorems speak, is what `exec` of the procedure does, with all frames kept and with frames dropped. |
| Loops.ExitLeavesLoop | src/builtins/sli_control.cpp:135-151 | An `exit` in a loop's body takes the loop's whole frame and nothing else. |
| Loops.ForLeavesItems | src/interpreter/sli_interpreter.cpp:1047-1060 | If every counter value fits a word, `a s b {} for` leaves exactly the counter values. |
| Loops.ForRunsOver | src/interpreter/sli_interpreter.cpp:1047-1060 | An input whose counter does not fit: `9223372036854775806 1 9223372036854775807 {} for`. |
| Loops.ForallLeavesItems | src/builtins/sli_control.cpp:724-743 | `a {} forall` leaves exactly the elements of the array. |
| LoopExits.ExitInRound | src/builtins/sli_control.cpp:135-151 | An `exit` in any round takes the frame away, with the effects of the rounds before it. |
| LoopExits.ForallExits | src/builtins/sli_control.cpp:724-743 | `a p forall` whose body exits at some element. |
| Maps.MapOfNothing | src/builtins/sli_array_module.cpp:664-768 | With an empty array or an empty body each of the three leaves its array. |
| Maps.MapRejectsWrongCount | src/interpreter/sli_interpreter.cpp:1143-1149 | A body that leaves anything but one result is caught at its end: StackUnderflow, with the source array still on the stack and the frame below the scheduled `stop`. |
| Binding.Bind | src/builtins/sli_control.cpp:1187-1215 | The walk that overwrites slots in place replaces exactly the names that resolve to functions, at every depth. |
| BindingRuns.OriginalDrivesBound | src/interpreter/sli_interpreter.cpp:966-993 | Every run of the original is followed by a run of the bound form that is no longer. |
| BindingRuns.BoundDrivesOriginal | src/interpreter/sli_interpreter.cpp:966-993 | Every run of the bound form is followed by a run of the original. |
| DictHeap.InsertKeeps | src/containers/sli_dictionary.h:372-375 | Inserting keeps every other entry at its node, and an existing key at its own. |
| DictHeap.ReleaseAll | src/containers/sli_dictionary.h:169-178 | Releasing a list of dictionaries one by one keeps every count equal to the number of owners, and what still has an owner is unchanged, node by node. |
| DictHeap.EnterAll | src/containers/sli_dictstack.cpp:278-291 | Acquiring a list one by one adds exactly its multiplicities to counts and marks. |
| DictStack.SearchIsLookup | src/containers/sli_dictstack.h:96-104 | The plain top-down search over nodes gives the values of the search over dictionaries, and what it finds is alive. |
| DictStack.SearchIsFirst | src/containers/sli_dictstack.h:96-104 | It finds the entry of the first dictionary from the top that binds the name, and nothing exactly if none does. |
| DictStack.InvalidateKeeps | src/containers/sli_dictstack.cpp:60-71 | Giving up the snapshot may free the array and dictionaries only it held; the counts stay right, and the stack, everything held elsewhere and every other listing stay as they were. |
| DictStack.CoherentIsAnchored | src/containers/sli_dictstack.h:86-104 | Caches that agree with the plain search hold only live bindings of dictionaries on the stack. |
| DictOps.FindIsSearch | src/containers/sli_dictstack.h:86-104 | With coherent caches the cached lookup is the plain search, and the pointer it gives is not dangling. |
| DictOps.DefKeeps | src/containers/sli_dictstack.h:353-363 | `def` binds in the top dictionary only; it keeps every cached pointer alive, and right if it was. |
| DictOps.UndefKeeps | src/containers/sli_dictstack.cpp:98-115 | `undef` unbinds in the top dictionary only and leaves no pointer to the erased entry. |
| DictOps.BasedefKeeps | src/containers/sli_dictstack.cpp:117-132 | `basedef` binds in the base only and keeps both caches alive, and right if they were. |
| DictOps.PutKeeps | src/builtins/sli_op_bodies.h:515-537 | `put` into any dictionary, on the stack or not, keeps both caches alive, and right if they were. |
| DictOps.CleardictKeeps | src/builtins/sli_container_ops.cpp:525-553 | `cleardict` of any dictionary leaves no pointer to an erased entry. |
| DictOps.UnmarkedIsUnlisted | src/containers/sli_dictionary.h:288-307 | A dictionary whose counter is not positive is not on the stack, so that `put` and `cleardict` never skip a needed invalidation although `clear` never decrements the counter. |
| DictOps.FindIsAlive | src/containers/sli_dictstack.h:86-104 | Whatever state the caches are in, a lookup gives the node of the name in some dictionary on the stack, never a dangling one, and it gives one exactly when there is one. |
| DictOps.BaselookupKeeps | src/containers/sli_dictstack.h:218-238 | It keeps everything but coherence in every state. |
| DictMoves.PushKeeps | src/containers/sli_dictstack.cpp:218-251 | `push` forgets the new top's names, keeps every other pointer alive, and right if it was, and all counts right. |
| DictMoves.PopKeeps | src/containers/sli_dictstack.cpp:136-163 | `pop`, with the guard that `end` has, keeps every pointer alive, and right if it was, the base at the bottom and all counts right, even when it frees the top. |
| DictMoves.ClearKeeps | src/containers/sli_dictstack.cpp:165-182 | `clear` gives back one reference per occurrence; everything that something else owns is unchanged. |
| DictSnapshot.SnapshotKeeps | src/containers/sli_dictstack.cpp:73-96 | `dictstack` gives the stack bottom first, in the read-only array of the cached snapshot, and changes nothing else. |
| DictSnapshot.ListedSurvive | src/containers/sli_dictstack.cpp:275-291 | While `restore_from` clears the stack, no dictionary of the array is freed or changed. |
| DictSnapshot.RebuildKeeps | src/containers/sli_dictstack.cpp:253-299 | The slow path restores exactly the listed stack with base pinned to its bottom and both caches empty. |
| DictRuns.ResetKeeps | src/interpreter/sli_interpreter.cpp:221-242 | `cleardictstack` leaves exactly user, global and system dictionary, as many as `end` protects, with base pinned to the system dictionary. |
| DictRuns.BuildListingKeeps | src/builtins/sli_builtins.cpp:40-68 | An array of dictionaries built by hand moves the references of its tokens. |
| DictRuns.PutListingKeeps | src/builtins/sli_op_bodies.h:421-441 | `put` of a dictionary into such an array keeps all counts and the snapshot right, because it demands a writable array. |
| DictStackObject.DictionaryStack.FindSlot | src/containers/sli_dictstack.h:86-104 | The loop over the stack, behind the cache, is the cached lookup. |
| DictStackObject.DictionaryStack.LookupName | src/containers/sli_dictstack.h:192-206 | The value is that of a binding in some dictionary on the stack, and with coherent caches that of the uncached search. |
| DictStackObject.DictionaryStack.Known | src/containers/sli_dictstack.h:208-211 | True exactly if some dictionary on the stack binds the name. |
| DictStackObject.DictionaryStack.Where | src/containers/sli_dictstack.h:276-285 | The topmost dictionary that binds the name, if any. |
| DictStackObject.DictionaryStack.BaselookupName | src/containers/sli_dictstack.h:218-238 | The value that the base dictionary binds. |
| DictStackObject.DictionaryStack.DefName | src/containers/sli_dictstack.h:353-363 | Both writes of `def`, as one binding. |
| DictStackObject.DictionaryStack.UndefName | src/containers/sli_dictstack.cpp:98-115 | Fails exactly if the top does not bind the name, and then changes nothing. |
| DictStackObject.DictionaryStack.BasedefName | src/containers/sli_dictstack.cpp:117-132 | Fails exactly without a base. |
| DictStackObject.DictionaryStack.PutName | src/builtins/sli_op_bodies.h:515-537 | Fails exactly on a write-protected dictionary. |
| DictStackObject.DictionaryStack.CleardictFunction | src/builtins/sli_container_ops.cpp:525-553 | The loops over the keys forget all of them in both caches. |
| DictStackObject.DictionaryStack.PushDict | src/containers/sli_dictstack.cpp:218-251 | The whole new state of `push`. |
| DictStackObject.DictionaryStack.PopDict | src/containers/sli_dictstack.cpp:136-163 | The whole new state of `pop`. |
| DictStackObject.DictionaryStack.ClearAll | src/containers/sli_dictstack.cpp:165-182 | The loop of releases, and the whole new state. |
| DictStackObject.DictionaryStack.ToArray | src/containers/sli_dictstack.cpp:190-216 | The stack, bottom first. |
| DictStackObject.DictionaryStack.TakeSnapshot | src/containers/sli_dictstack.cpp:73-96 | Makes the cached array only if there is none; one reference goes to the caller. |
| DictStackObject.DictionaryStack.RestoreFrom | src/containers/sli_dictstack.cpp:253-293 | The comparison loop takes the fast path exactly when the array is the stack; otherwise the rebuild. |
| DictStackObject.DictionaryStack.EndFunction | src/builtins/sli_startup.cpp:286-303 | `end` refuses exactly when three or fewer dictionaries are on the stack. |
| DictStackObject.DictionaryStack.ResetDictstack | src/interpreter/sli_interpreter.cpp:221-242 | Clear and three pushes, with the base pinned in between. |
| SharedArrays.ReleaseAll | src/containers/sli_array.h:125-133 | Releasing references, with the destructors this sets off, keeps every count equal to the number of holders, and what is still held is unchanged. |
| CowOps.ClonedWhenShared | src/builtins/sli_cow.h:26-38 | The count is above one exactly if somebody other than the slot holds the array. |
| CowOps.CowKeeps | src/builtins/sli_cow.h:26-38 | After `cow_array_slot` the slot alone holds an array with the old contents; all other arrays are unchanged and all counts right. |
| CowObject.ArrayMachine.RemoveReferences | src/containers/sli_array.h:125-133 | The cascade of releases ends, and is the specified one. |
| CowObject.ArrayMachine.CowArraySlot | src/builtins/sli_cow.h:26-38 | The whole new state of `cow_array_slot`. |
| CowObject.ArrayMachine.ExtendFunction | src/builtins/sli_container_ops.cpp:1427-1472 | `append` and `prepend` report the first check that fails and then change nothing; otherwise they extend. |
| CowOps.JoinedItems | src/builtins/sli_container_ops.cpp:1427-1472 | `append` puts the value behind the items and `prepend` in front of them. |
| CowPut.DescendLeads | src/builtins/sli_op_bodies.h:458-495 | A path that names a cell leads there index by index, through arrays that may be read. |
| CowPut.TrailIsDescended | src/builtins/sli_op_bodies.h:458-495 | Conversely, where the indices lead so and the last array may be written, the path names that cell. |
| CowObject.ArrayMachine.FollowPath | src/builtins/sli_op_bodies.h:458-495 | The loop along a path of indices finds the cell, or the first error on the way. |
| CowObject.ArrayMachine.PutFunction | src/builtins/sli_op_bodies.h:415-498 | `put` on arrays: the error, or the one cell written. |
| Rotation.TurnedAt | src/builtins/sli_array_module.cpp:251-275 | A turn by k takes element i to place i + k, counted around. |
| Rotation.NormalIsModulo | src/builtins/sli_array_module.cpp:266 | The normalisation of `Rotate` is the mathematical modulus for every integer. |
| Rotation.RollWrapsAround | src/containers/sli_tokenstack.h:125 | `3 -4 roll` leaves three elements as they are. |
| Rotation.RotateRange | src/containers/sli_array.cpp:151-156 | The rotation in place exchanges the two ranges and touches nothing else. |
| Rotation.Roll | src/containers/sli_tokenstack.h:112-127 | `roll` in place on the buffer of the stack. |
| Rotation.Rotate | src/builtins/sli_array_module.cpp:251-275 | `Rotate` turns a copy by any integer. |
| ArrayOps.RangeCount | src/builtins/sli_array_module.cpp:96-101 | Without regard to the size of a word, the count of `Range` is the number of items, for steps of either sign. |
| ArrayOps.Range | src/builtins/sli_array_module.cpp:56-103 | `Range` of integers in word arithmetic: all errors, C++Exception for a negative count, and the count and items that the code computes. |
| ArrayOps.RangeDefaults | src/builtins/sli_array_module.cpp:56-103 | `[n] Range` is 1, 2, ..., n, and of two arguments the step is 1. |
| ArrayOps.RangeRunsShort | src/builtins/sli_array_module.cpp:96-101 | An input where the difference does not fit: `[-9000000000000000000 8000000000000000000 1000000000000000000] Range` is empty; `for` leaves 18 values. |
| ArrayOps.WindowAt | src/builtins/sli_array_module.cpp:448-455 | Window j is a[j*d .. j*d + n]. |
| ArrayOps.PartitionStrays | src/builtins/sli_array_module.cpp:444-456 | An input where a sum does not fit: `[1 2 3] 1 9223372036854775807 Partition`. |
| ArrayOps.Flatten | src/builtins/sli_array_module.cpp:280-308 | One level of arrays is spliced in, everything else kept. |
| ArrayOps.FlattenedAround | src/builtins/sli_array_module.cpp:295-305 | Wherever an array lies its items take its place; anything else is kept. |
| ArrayOps.FlattenedFlat | src/builtins/sli_array_module.cpp:295-305 | An array without arrays in it stays as it is. |
| ArrayOps.Transpose | src/builtins/sli_array_module.cpp:368-420 | The type check of all rows, then the length check, then the columns. |

## Left out

- InterpreterObject.Interpreter.ExecuteDispatch: takes a number of transitions as fuel, because a program need not halt; more than 4m + 3 suffice for a run of m steps. The exit level is 0, signal checks never fire, and at the label after a function an empty execution stack counts as having no walk on top, where the original reads below the buffer.
- InterpreterObject.Interpreter.Advance: demands that the internal name `::stopped` is bound, as the start-up code binds it.
- StoppedContext.StoppedCatches: demands that no `exit` crosses the sentinel and that `::stopped` is not rebound.
- Runs.RunKeepsBinding: the machine has neither `undef` nor `end`, with which a program can unbind a name.
- InterpreterObject.Interpreter.RaiseError: does not record the stacks, and `stop` is scheduled as the function itself; the cache write of its `baselookup` is `DictOps.BaselookupCoherent`.
- InterpreterObject.Interpreter.ExhaustArm: the two arms for strings are left out.
- InterpreterObject.Interpreter.OuterSwitch: tries, strings, doubles, dictionaries, `quit` and the parser's tokens are left out.
- Operators.DefActs: in the machine a dictionary is never write-protected; `def` refuses such a one.
- Rebinding.RebindingIsHarmless: demands that no other body mentions the names; one that the bound body calls and that is not bound itself looks them up again.
- Binding.Bind: names that resolve to tries, which `bind` replaces too, are left out.
- InterpreterObject.Interpreter.LoopFunction: pushes the mark, and `ForallFunction` its marker, where the original pushes what `baselookup` finds; the cache write of both is `DictOps.BaselookupCoherent`.
- BindingRuns.BindPreservesMeaning: final stacks are equal up to replaced names inside procedures that are left there, because `bind` has replaced them in one of the two runs.
- DictRuns.RestoreKeeps: an empty array is left out; the original fails an assertion on it unless the stack is empty too.
- DictStackObject.DictionaryStack.RestoreFrom: likewise demands an array that is not empty.
- DictHeap.ReleaseAll: a freed dictionary's own tokens, and what they refer to, are given back as separate commands (`DropToken`, `DropListingToken`) and not in the same step.
- DictStackObject.DictionaryStack.PutName: dictionary objects are records in a heap that is a value; update in place is an update of that value. The same holds for the arrays of `CowObject`.
- CowOps.ExtendIsolates: strings, which clone in the same way, are left out.
- CowObject.ArrayMachine.PutFunction: the string arm is left out, and the dictionary arm is `DictOps.Put`.
- ArrayOps.Range: the double arm is left out; a count too great for the memory is not told from one that fits.
- Rotation.RotateRange: the standard library's rotation is written as three reversals.
- Machine tokens: doubles, strings, dictionaries as tokens, type tries, streams and the parser marker. `forall` and `forallindexed` over strings go with them.
- `def` is the two-operand leaf; the dispatching three-operand form is left out, as are `set`, `load` and `undef` in the machine.
- Recording the stacks on an error (`recordstacks`), the diagnostics that `raiseerror` writes, and the message text.
- `quit`, `switch`, `case`, `currentname`, `closeinput` and the other operators that look at or cut the execution stack.
- Access states beyond the guards of the mutators, operator counters, memory pools, copying and destroying a dictionary stack.
- Direct writes of the interpreter to errordict: errordict is taken not to be on the dictionary stack.
- The growth and the empty-stack behaviour of the token buffer.
