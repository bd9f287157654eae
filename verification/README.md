# A verified model of PL/Lua's memory protocols and codecs

PL/Lua runs Lua inside PostgreSQL. Much of its C code exists to keep two worlds consistent:
tuple descriptors that Lua garbage-collects but PostgreSQL frees at the end of a
transaction, arrays that are tables on one side and packed bytes on the other, cursors read
in batches, and calls that nest through SQL. This project models that code and proves what
it is there to guarantee. `dafny verify dfyconfig.toml` checks all of it.

## What is modelled

**Descriptors, stacks, resources, cursors** (`rtupdesc.c`, `rtupdescstk.c`,
`pllua_xact_cleanup.c`, the cursor part of `plluaspi.c`). `Ledger.dfy` is the protocol
without pointers: descriptors with reference counts and holders, per-call stacks that own
their TupleDescs, weak cells, the resource list, cursors and rows. `LedgerProofs.dfy`,
`CursorProofs.dfy` and `Runs.dfy` prove that one invariant holds in every state any
interleaving of operations can reach; `Effects.dfy` says what each operation changes, of
the states before and after; `Iterator.dfy` has the row iterator with the dereference that
can fail, `Exactness.dfy` when reference counts equal holders. `Sweep.dfy` proves that the
end-of-transaction sweep gives the same state for every order of the resource list, and
what that state is. `Delivery.dfy` proves that the batched row iterator delivers what plain
iteration would.

A run, and a tree of calls, stops at a call that breaks the memory, and says which call it
was; nothing is assumed about runs that do not break.

`Runtime.dfy` is the C code itself: a class whose fields are the global variables and the
memory, with one method per C function, relinking and freeing in place. `IntrusiveList.dfy`,
`RuntimeModel.dfy` and `RuntimeProofs.dfy` say what the pointers represent, and every method
is proved to be the ledger's operation.

C memory is a finite map from addresses to records for each kind of record. `palloc` returns
any address outside the map, `pfree` removes the address, a dereference is a lookup that
Dafny requires to be in the map. So a method that verifies neither uses memory after it was
freed nor frees it twice, whatever addresses are reused.

**Call frames and subtransactions** (`luaP_callhandler`, `luaP_inlinehandler`,
`WRAP_SUBTRANSACTION`). `Frames.dfy` executes arbitrary trees of ordinary, trigger,
set-returning and inline calls and subtransactions over the ledger and a database with
savepoints, and one transaction after the other; `Holding.dfy` and `Lifetimes.dfy` say how
long descriptors live across them, `FrameEnds.dfy` what each kind of frame leaves behind,
`IteratorFaults.dfy` which trees crash; `Handlers.dfy` runs the entry and exit code on the
C memory of `Runtime.dfy`.

**The array codec** (`luaP_getarraydims`, `luaP_toarray`, `luaP_pusharray`). `ArrayLayout.dfy`
has alignment, element data and the null bitmap, `ArrayTables.dfy` boxes and row-major order,
`ArrayCodec.dfy` the writer and the reader with their shared cursors, `ArrayDims.dfy` the
inference of dimensions for every order in which `lua_next` may visit the keys, and
`ArrayDatum.dfy` the conversion as a whole. Bytes are numbers below 256; `|` and `&` are
defined bit by bit on natural numbers.

**Small parts.** `Int64.dfy`: power and printing of 64-bit integers. `FunctionCache.dfy`: the
cache of compiled functions. `Traceback.dfy`: the loop that leaves out the middle of a long
traceback.

## What turned out not to hold

- The row iterator crashes when its descriptor loses its TupleDesc between two batches:
  the refill reads `natts` through it (plluaspi.c:257-264, 369-370). That happens when the
  first call runs in a `pcall` that fails, or in a function that returns before the
  iteration ends (`IteratorFaults`). `Iterator.SafeExactly` has the exact condition;
  `Lifetimes.ExecAllHeld` and `Lifetimes.SuspendedKeeps` prove that it cannot arise while
  the frame that got the first batch, or the suspended function it belongs to, is alive.
- A cursor that is collected before anything was fetched from it stays registered, and the
  sweep would run its destructor on freed memory (plluaspi.c:346-357):
  `Runs.CollectExactly`.
- Reference counts exceed the number of holders: rows thrown away with a cursor's queue are
  freed without giving their references back (plluaspi.c:327-331), and a tuptable's
  descriptor is overwritten without one (plluaspi.c:683). `Exactness.RunIsExact` proves that
  the counts are exact if and only if neither happened; `Exactness.TuptableLeaks` and
  `Exactness.QueuedRowLeaks` are runs where it does.
- When an ordinary function raises an error its handler gives the stack up twice, the second
  time through a current stack that may just have been freed (plluaapi.c:1384-1403):
  `Frames.ErrorExit`.
- A dense table with MAXDIM dimensions is refused as soon as it has two outermost rows,
  because plluaapi.c:985 compares with the number of dimensions found so far, which is
  already MAXDIM on the second row (`ArrayDatum.SixDimensionsRefused`). `ArrayDatum.ToDatum`
  states the exact condition under which tables convert.
- Rows of different bounds are not always merged to their hull (plluaapi.c:992-1001):
  `ArrayDims.Shape.Merge` says exactly when the end is cut off.
- A replacement that does not compile, rolled back to a version that does, leaves the
  function uncallable (`FunctionCache.RolledBackReplacement`);
  `FunctionCache.LookupsAreCurrent` says exactly when that happens.
- The flag for "..." parameters survives a replacement that names all its arguments
  (`FunctionCache.NamesStayUnbound`); `FunctionCache.FreshUnlessSticky` says exactly when it
  matters.
- `tostring(n, 8)` prints half of n, because 64 is no multiple of 3, and `tostring(n, 10)`
  negates -2^63 (lua_int64.c:267-315): `Int64.ToString`.

## Model

| member | source | states |
|---|---|---|
| IntrusiveList.PushIsCons | rtupdescstk.c:49-63 | pushing a fresh node on a well linked list gives the well linked list with that node in front; no other list is touched (the same code is in pllua_xact_cleanup.c:31-46) |
| IntrusiveList.UnlinkIsRemove | rtupdescstk.c:124-142 | unlinking the i-th node from anywhere in its list gives the well linked list without it; no dereference leaves the list (same code in pllua_xact_cleanup.c:48-68) |
| IntrusiveList.OtherChain | rtupdescstk.c:124-142 | surgery on one list leaves every other list well linked |
| IntrusiveList.ChainIsUnique | rtupdescstk.c:145-154 | the links determine the sequence: next, prev and top describe one acyclic list |
| LedgerProofs.MakeKeeps | rtupdesc.c:5-22 | making a descriptor keeps the invariant of descriptors, stacks, weak cells and the count of TupleDescs |
| LedgerProofs.UnrefKeeps | rtupdesc.c:33-43 | a holder giving its reference back keeps it, whether or not it was the last |
| LedgerProofs.CleanKeeps | rtupdescstk.c:16-24 | cleaning a stack keeps it: every TupleDesc on it is freed once and its weak pointer cut |
| LedgerProofs.NewStackKeeps | rtupdescstk.c:81-107 | a new stack, weak or not, keeps it |
| LedgerProofs.RemoveStackKeeps | rtupdescstk.c:169-179 | freeing an unused stack keeps it: its cell is NULL and its registration gone |
| CursorProofs.AddRowKeeps | plluaspi.c:261-267 | copying, counting and queueing one fetched row keeps the invariant |
| CursorProofs.FillKeeps | plluaspi.c:257-268 | so does a whole refill, of any cursor a caller may fetch from |
| CursorProofs.FinishKeeps | plluaspi.c:247-256 | so does the end of the iteration |
| CursorProofs.CleanupKeeps | plluaspi.c:324-340 | so does throwing away a cursor with rows still queued |
| Iterator.CrashesExactly | plluaspi.c:257-278 | the iterator as the code has it, reading natts for every row it copies (plluaspi.c:369-370), crashes if and only if a batch is due, there is one, and the cursor's descriptor has lost its TupleDesc; otherwise it is NextRow |
| Iterator.SafeExactly | plluaspi.c:226-278 | the next call on a registered cursor is safe for all addresses palloc may return if and only if that condition does not hold |
| RuntimeModel.EnqueueAppends | plluaspi.c:203-212 | below 50 rows the ring of 51 slots appends |
| RuntimeModel.FullQueueLooksEmpty | plluaspi.c:203-212 | a ring holds at most 50 rows, and exactly the enqueue on a ring that holds 50 would make it look empty |
| RuntimeModel.DequeueTakesFirst | plluaspi.c:214-223 | the oldest row comes out and the rest stay in order |
| RuntimeProofs.MadeRepresents | rtupdesc.c:5-22 | after allocation and push the pointers represent the ledger with the new descriptor |
| RuntimeProofs.DetachedRepresents | rtupdescstk.c:16-24 | after one turn of the drain loop they represent the ledger with that descriptor detached |
| RuntimeProofs.UnregisterSim | pllua_xact_cleanup.c:48-68 | unlinking a registration removes exactly that resource from the list |
| Runtime.Runtime.RtdsPush | rtupdescstk.c:49-63 | nothing for a NULL stack; otherwise a fresh node is linked on top of the stack, which is the list with it in front |
| Runtime.Runtime.RtdsPop | rtupdescstk.c:33-46 | NULL on an empty stack; otherwise the top node is unlinked and freed and its descriptor returned |
| Runtime.Runtime.RtdsRemoveNode | rtupdescstk.c:124-142 | nothing for NULL; otherwise the node is unlinked from wherever it is and freed |
| Runtime.Runtime.RtdsGetLength | rtupdescstk.c:145-154 | terminates with the length of the list |
| Runtime.Runtime.Ctor | rtupdesc.c:5-22 | the new memory represents the ledger with one more live descriptor, on the current stack or loose |
| Runtime.Runtime.Ref | rtupdesc.c:25-31 | one more counted holder |
| Runtime.Runtime.FreeDesc | rtupdesc.c:46-53 | the TupleDesc, if still there, is freed, the pointer cleared and obj_count decremented |
| Runtime.Runtime.Dtor | rtupdesc.c:61-77 | the descriptor leaves its stack and is freed with its TupleDesc; no node or TupleDesc is freed twice |
| Runtime.Runtime.Release | rtupdesc.c:33-43 | the descriptor dies exactly with its last reference, and then NULL is returned |
| Runtime.Runtime.CleanStack | rtupdescstk.c:16-24 | the drain loop empties the stack and detaches every descriptor on it, none of them freed |
| Runtime.Runtime.RegisterResource | pllua_xact_cleanup.c:31-46 | the resource is in front of the list and nothing else changed |
| Runtime.Runtime.UnregisterResource | pllua_xact_cleanup.c:48-68 | exactly that registration is gone; NULL is returned |
| Runtime.Runtime.AllocStack | rtupdescstk.c:81-107 | a registered empty stack; a weak one is stored in its cell as at plluaapi.c:1295-1297 |
| Runtime.Runtime.AddUse | rtupdescstk.c:157-166 | ref_count changes by one up or down |
| Runtime.Runtime.TryCleanStack | rtupdescstk.c:26-31 | one use less; if it was the last, no descriptor is on the stack any more, each that was there is still there without TupleDesc and stack, and obj_count is lower by their number; otherwise nothing else changes |
| Runtime.Runtime.FreeIfUnused | rtupdescstk.c:169-179 | an unused stack is cleaned, unregistered and freed and NULL returned; a used one stays |
| Runtime.Runtime.ForceFreeStack | rtupdescstk.c:70-79 | the sweep frees the stack, used or not, and clears its weak cell |
| Runtime.Runtime.TqEnqueue | plluaspi.c:203-212 | appends to a ring that is not full |
| Runtime.Runtime.TqDequeue | plluaspi.c:214-223 | takes the first, NULL when empty |
| Runtime.Runtime.CleanupCursor | plluaspi.c:324-335 | all queued rows are freed once and the cursor gives its descriptor reference back |
| Runtime.Runtime.PopResource | pllua_xact_cleanup.c:79-97 | the first registration leaves the list; none when it is empty |
| Runtime.Runtime.SweepOne | pllua_xact_cleanup.c:110-119 | the destructor of what was popped runs once, on a resource that is no longer listed |
| Runtime.Runtime.SweepResources | pllua_xact_cleanup.c:110-129 | the loop ends with an empty list and every destructor run, in list order |
| Runtime.Runtime.PushCursor | plluaspi.c:744-753 | a cursor with no queue and no descriptor is registered |
| Runtime.Runtime.FreeEmptyQueue | plluaspi.c:235-238 | a drained queue is freed, a non-empty one kept |
| Runtime.Runtime.EnsureDesc | plluaspi.c:257-259 | the cursor gets a descriptor if it has none |
| Runtime.Runtime.QueueRow | plluaspi.c:262-266 | one row is copied, counted and queued last; or the copy dereferences NULL, exactly if the descriptor has lost its TupleDesc |
| Runtime.Runtime.QueueRows | plluaspi.c:261-267 | the loop queues the whole batch, each row at a fresh address, in order; or it crashes, exactly on a lost descriptor |
| Runtime.Runtime.FetchBatch | plluaspi.c:240-270 | up to 50 rows leave the portal for the queue; or the refill crashes, exactly on a lost descriptor |
| Runtime.Runtime.FinishCursor | plluaspi.c:247-256 | an exhausted portal: descriptor reference and registration go |
| Runtime.Runtime.FreeRow | plluaspi.c:413-418 | a delivered row gives its reference back and is freed |
| Runtime.Runtime.FreeCursor | plluaspi.c:346-357 | a collected cursor is cleaned up and unregistered if it has a queue, and freed in any case |
| Runtime.Runtime.constructor | pllua_xact_cleanup.c:132-137 | the empty memory satisfies the invariant |
| Runtime.Runtime.MakeDesc | rtupdesc.c:5-22 | called as the source demands, the whole heap invariant is kept and the ledger makes the same step |
| Runtime.Runtime.UnrefDesc | rtupdesc.c:33-43 | the same for giving a reference back; the result is NULL exactly for the last one, and then the descriptor is gone |
| Runtime.Runtime.GetTup | rtupdesc.c:55-58 | NULL for NULL and for a lost descriptor, otherwise its own TupleDesc, still in memory |
| Runtime.Runtime.FreeStrong | rtupdescstk.c:169-179 | the same for rtds_free_if_not_used on a stack without a cell: an unused stack is gone and unregistered and what was on it has lost its TupleDesc; a used one is untouched |
| Runtime.Runtime.FreeWeak | plluaapi.c:1251-1257 | the same for the assignment back to the weak cell: an unused stack is gone and its cell NULL, a used one and its cell are untouched |
| Runtime.Runtime.SetCurrentStack | rtupdescstk.c:5-14 | current is replaced and the previous one returned |
| Runtime.Runtime.NextRow | plluaspi.c:226-278 | on a cursor that is registered or has rows queued: the call crashes exactly under RefillCrashes; otherwise it is one step of the ledger and returns the address of the row the ledger delivers, NULL for nil |
| Runtime.Runtime.CloseCursor | plluaspi.c:819-826 | closing keeps the heap invariant and unregisters the cursor |
| Runtime.Runtime.CollectRow | plluaspi.c:413-418 | so does collecting a delivered row |
| Runtime.Runtime.CollectCursor | plluaspi.c:346-357 | the cursor is freed, always; that is the ledger's step, except that on a registered cursor without a queue its registration stays on the list |
| Runtime.Runtime.EndTransaction | pllua_xact_cleanup.c:123-129 | so does the end-of-transaction callback, which is the ledger's sweep |
| Runs.StepKeepsValid | rtupdescstk.c:16-179 | every operation, in any state that satisfies the invariant, keeps it, unless it is one of the two calls that break (Runs.Breaks) |
| Runs.RunIsSafe | rtupdescstk.c:16-179 | over every run: nobody holds a freed descriptor, each descriptor counts at least its holders, and obj_count is the number of TupleDescs; a run that breaks does so in such a state |
| Runs.CollectExactly | plluaspi.c:346-357 | collecting a cursor keeps the invariant if and only if it has a queue or is not registered; otherwise the sweep would run a destructor on freed memory |
| Exactness.StepIsExact | rtupdesc.c:25-43 | from counts that equal the holders, a step leaves such counts if and only if it neither overwrites a held descriptor nor throws queued rows away; the sweep included |
| Exactness.SurplusStays | rtupdesc.c:33-43 | a descriptor that counts more references than it has holders does so for ever and is never freed |
| Exactness.RunIsExact | rtupdesc.c:25-43 | a run ends with every count equal to the number of holders, so that descriptors die with their last holder, if and only if all its steps were orderly |
| Exactness.TuptableLeaks | plluaspi.c:676-687 | two queries one after the other: the first tuptable descriptor keeps a reference and has no holder |
| Exactness.QueuedRowLeaks | plluaspi.c:324-335 | one row of two fetched, then the cursor collected: a reference too many remains |
| Effects.StepEffect | rtupdescstk.c:16-179 | what each operation does to the memory, said without the functions that define it: a made descriptor is on top of the current stack; a reference less frees the descriptor exactly if it was the last; a stack is cleaned or freed exactly at count 0, and then all that was on it has lost its TupleDesc; opened and closed cursors; rows and cursors that are collected |
| Effects.TryCleanEffect | rtupdescstk.c:26-31 | the last use cleans the stack, any other is only counted |
| Effects.UnrefEffect | rtupdescstk.c:116-122 | the last use frees the stack and clears its cell, any other is only counted |
| Effects.UnrefDescEffect | rtupdesc.c:33-77 | one reference less; exactly the last one takes the descriptor out of memory, off its stack and, if it still had its TupleDesc, out of obj_count |
| Effects.RefillEffect | plluaspi.c:240-277 | a refill takes min(50, rest) rows off the portal, delivers the first and queues the others; the descriptor, made on the current stack if there was none, counts each of them |
| Effects.FinishEffect | plluaspi.c:247-256 | at the end the cursor has no portal, queue, reference or registration, and still points to its descriptor only if that exists |
| Effects.CleanupEffect | plluaspi.c:324-335 | the queued rows and the cursor's reference go, the portal stays |
| Effects.CollectEffect | plluaspi.c:346-357 | the cursor is gone; its queue, reference and registration with it exactly if it had a queue |
| Sweep.DestructsCommute | pllua_xact_cleanup.c:110-120 | the destructors of any two resources commute, a cursor and the stack of its descriptor included |
| Sweep.SweepOrderIrrelevant | pllua_xact_cleanup.c:110-129 | any two orders of the resource list sweep to the same state |
| Sweep.SweepVerdict | pllua_xact_cleanup.c:110-129 | what becomes of each descriptor, in closed form: it is freed, detached or kept according to its references, its stack and the cursors swept |
| Sweep.SweepEmpties | pllua_xact_cleanup.c:110-129 | after the sweep nothing is registered, no stack exists, every weak cell is NULL, obj_count is exactly the number of descriptors made while no stack was current, and a second sweep changes nothing |
| Delivery.NextDelivers | plluaspi.c:226-278 | one call delivers the head of what is pending in queue and portal, or nil exactly when nothing is; or it crashes, exactly under RefillCrashes, with rows still pending |
| Delivery.OthersLeave | plluaspi.c:226-278 | no other operation touches what a cursor has pending |
| Delivery.RunDelivers | plluaspi.c:226-278 | over any run that leaves the cursor open, broken or not, delivered rows followed by pending rows are the rows pending at the start: each once, in order, for any result length |
| Delivery.OpenedDelivers | plluaspi.c:226-278 | from the moment a cursor is opened until it is closed, delivered rows followed by pending ones are its rows |
| Delivery.ClosePends | plluaspi.c:819-826 | closing takes back the rows not fetched, and only those, and the registration |
| Frames.ExecIsDisciplined | plluaapi.c:1276-1418 | for every tree of calls: no frame operation touches a missing stack, every count is the number of active frames (plus one where a successful subtransaction stays), and current, savepoints, memory context and owner are restored; an iterator call that crashes ends the tree with an outcome of its own (Broken) |
| Frames.ExecAllIsDisciplined | plluaapi.c:1276-1418 | the same for sequences of trees |
| Frames.CallExits | plluaapi.c:1354-1414 | at exit the function's cell still leads to the stack the frame entered, which is also the current one, so the trigger's rtds_get_current hits the right stack; whatever the kind of exit, every count is again right for the frames outside and what they use is as it was |
| FrameEnds.FrameEnds | plluaapi.c:1354-1414 | for every frame, whatever its body did: the stack the body left is freed, cleaned, only counted down or kept, as the kind of frame and its other uses demand, current is the caller's again, and nothing else changes |
| FrameEnds.YieldKeeps | plluaapi.c:1354-1359 | a yield leaves the cell, the stack and everything on it in place and gives up one use; what was held there is held and live |
| FrameEnds.YieldResumes | plluaapi.c:1295-1359 | from a yield, through any other calls, to the call that resumes the function: it runs on the same stack and holds what it held, unless the holder let go meanwhile |
| FrameEnds.TriggerCleans | plluaapi.c:328-335 | after an outermost trigger call the stack is still in its cell, registered and empty, and what was made on it reads as lost |
| FrameEnds.InlineReleases | plluaapi.c:1470-1471 | after an inline block its stack is neither in memory nor registered, and what was made on it reads as lost |
| Frames.LeaveByTryClean | plluaapi.c:328-335 | the trigger path keeps discipline: every count is the number of frames that are left, and the stacks they use are still there |
| Frames.LeaveByUnref | plluaapi.c:1435-1471 | so does the unref path; a stack that no other frame or kept subtransaction uses is gone |
| Frames.ErrorExit | plluaapi.c:1384-1413 | an ordinary function that raises an error: the handler cleans a stack it has just freed if and only if no other frame uses it, and otherwise leaves its count one too low |
| Frames.SubtransactionExits | pllua_subxact.c:58-82 | the macro's end on both outcomes |
| FrameEnds.SubtransactionEntered | pllua_subxact.c:27-36 | the body of a subtransaction starts with the caller's memory context, the subtransaction's owner, and a savepoint at what has been written so far |
| Frames.ChangesSurvive | pllua_subxact.c:27-82 | the database afterwards has exactly the changes all of whose enclosing subtransactions ended with status 0, in order |
| Frames.TransactionIsDisciplined | pllua_xact_cleanup.c:110-129 | the end of a transaction takes the stacks that successful subtransactions left in use; nothing is in use, registered or pointed to by a cell afterwards |
| Frames.TransactionsAreDisciplined | pllua_xact_cleanup.c:110-129 | so frame discipline holds over any number of transactions, and after each one obj_count is the number of descriptors made outside all frames |
| Holding.PerformHeld | rtupdesc.c:25-43 | no operation of a body ends the hold of a userdata, cursor or row on a descriptor, except those of Holding.LetsGo |
| Holding.EndsOver | rtupdesc.c:33-43 | and each of those does end it |
| Holding.NothingBreaks | plluaspi.c:257-278 | a cursor whose descriptor is kept by a stack, or that has let go of it, has no call that breaks |
| Lifetimes.WeakCells | plluaapi.c:1295-1298 | after any acts a function's cell is NULL or leads to a registered stack that leads back to the cell |
| Lifetimes.ExecAllHeld | rtupdescstk.c:16-107 | what a userdata, an iterating cursor or a row holds on a stack in use, or on the stack of a suspended function, is still held after any calls, exactly unless the holder itself let go meanwhile; and no call on such a cursor breaks |
| Lifetimes.SuspendedKeeps | plluaapi.c:1340-1359 | a suspended set-returning function keeps its cell, its stack and what its userdata, rows and cursors hold there across any other calls, and its iterators can still be called |
| Lifetimes.LastCallReleases | plluaapi.c:1360-1393 | its last call (or an ordinary call) frees the stack and clears the cell, always, and leaves what was made there without a TupleDesc |
| Lifetimes.SubtransactionOutcome | pllua_subxact.c:79-81 | after success the stack and its descriptors stay; after failure the stack is gone and they read as lost, not freed |
| IteratorFaults.RetriedIteratorCrashes | plluaspi.c:257-268 | in every world: if the first call of an iterator over more than 50 rows runs in a subtransaction that fails, 49 more calls deliver and the next one crashes |
| IteratorFaults.KeptIteratorCrashes | plluaspi.c:257-268 | the same for an iterator that outlives the function which called it first |
| IteratorFaults.EmptyWorldCrashes | plluaspi.c:257-268 | such a run from empty memory |
| Handlers.Backend.EnterFunction | plluaapi.c:1295-1300 | the handler's entry, run on the C memory, is the entry of a call in the trees of calls |
| Handlers.Backend.ExitFunction | plluaapi.c:1354-1414 | and so is its exit, for ordinary, trigger and set-returning calls |
| Handlers.Backend.EnterNew | plluaapi.c:1435-1438 | the inline handler's entry is the entry of an inline block in the trees of calls |
| Handlers.Backend.ExitInline | plluaapi.c:1470-1471 | the inline handler's exit is the exit of an inline block in the trees of calls |
| Handlers.Backend.BeginSubtransaction | pllua_subxact.c:27-36 | a savepoint is set and the caller's memory context stays current |
| Handlers.Backend.EnterSubtransaction | pllua_subxact.c:60-67 | a new stack, current, then stb_enter: the entry of a subtransaction in the trees of calls |
| Handlers.Backend.EndSubtransaction | pllua_subxact.c:38-52 | changes are kept or rolled back to the savepoint, context and owner put back |
| Handlers.Backend.ExitSubtransaction | pllua_subxact.c:60-82 | the macro's end, stb_exit included, is the exit of a subtransaction in the trees of calls |
| Handlers.Backend.EndTransaction | pllua_xact_cleanup.c:123-129 | the end of a transaction on the C memory is that of the worlds |
| ArrayLayout.AlignIncrement | plluaapi.c:1043-1050 | aligning each increment, as the writer does, equals aligning the running pointer, as the reader does (plluaapi.c:835-836), from any aligned start |
| ArrayLayout.AlignUpIsLeast | plluaapi.c:1043-1050 | for every alignment: the least multiple not below the length, less than one alignment away, so an aligned length stays |
| ArrayLayout.FixedSize | plluaapi.c:1043-1050 | k elements that are there, of a fixed length that is a multiple of the alignment, take k lengths |
| ArrayLayout.OrMask | plluaapi.c:1037 | or-ing bitmask into bitval sets one bit of the byte and no other |
| ArrayLayout.AndMask | plluaapi.c:832 | the reader's test looks at one bit |
| ArrayLayout.ByteFills | plluaapi.c:1057-1064 | the bit that fills a byte stores it and starts an empty one |
| ArrayLayout.FlushCompletes | plluaapi.c:1067 | with the last partial byte flushed, bit j is set exactly if element j is not NULL, and spare bits are zero |
| ArrayLayout.EncodedConcat | plluaapi.c:1032-1050 | the data of consecutive elements is the data of the first ones followed, where they end, by that of the rest |
| ArrayTables.FlattenBuild | plluaapi.c:825-854 | every rectangle of elements, NULLs included, is the row-major order of a table that is a box with the given bounds |
| ArrayTables.FlattenInjective | plluaapi.c:825-854 | and of only one: a box is determined by its elements |
| ArrayTables.SubscriptsPlace | plluaapi.c:825-854 | the element with subscripts i1..in is number (..(i1 * d2 + i2) * d3 ..) + in of the row-major order |
| ArrayCodec.Writer.Put | plluaapi.c:1033-1065 | one element: false exactly for a NULL without a bitmap; otherwise the memory is the array with one more element |
| ArrayCodec.Writer.Flush | plluaapi.c:1067 | the partial byte is in memory and nothing written so far is lost |
| ArrayCodec.Writer.ToArray | plluaapi.c:1026-1077 | for any dimensions and lower bounds: false exactly if there is a NULL and no bitmap; otherwise the elements of the table follow, in row-major order, those already written, and only the bitmap bytes (at most ceil(n/8)) and the data have changed |
| ArrayCodec.Reader.Get | plluaapi.c:832-844 | the next element, found from the bytes and the bitmap; both cursors move past it |
| ArrayCodec.Reader.PushArray | plluaapi.c:825-854 | the table whose elements come next, NULLs as absent keys; both cursors end where those elements end |
| ArrayCodec.DatumLength | plluaapi.c:1048 | the length of a fixed, varlena or C string datum from its own bytes |
| ArrayDims.Shape.Widen | plluaapi.c:969-981 | dims and lb span exactly the keys seen so far, whatever order they come in |
| ArrayDims.Shape.Merge | plluaapi.c:992-1001 | two rows' intervals merge to their hull, except exactly when the earlier rows start first and end first: then the result ends before the latest row does; the flag is set exactly if the latest bounds change; equal bounds change nothing |
| ArrayDims.Shape.GetArrayDims | plluaapi.c:958-1024 | for every visiting order: exact ndims, dims, lb and size, hasnulls exactly for a vector with holes; an error exactly if there are MAXDIM dimensions and two outer rows, or an innermost vector is over the allocation limit, and then the error that says so; an empty table has no dimensions and size 0 |
| ArrayDims.SeenMore | plluaapi.c:965-1021 | the size so far grows by the visited row, in whatever order the rows come |
| ArrayDatum.ToDatum | plluaapi.c:1162-1217 | converts exactly under Accepted, which is in numbers; then the array has the bounds of the table and exactly its elements, a bitmap exactly if there are holes, the data starts 16 bytes, 8 per dimension and, with a bitmap, 8 per 64 elements into it, and the allocation ends with the last element (k elements of an aligned fixed length take k lengths); the error is "too big", or "too many dimensions" only with six dimensions and two outer rows, and always then if the rows fit |
| ArrayDatum.OverheadIs | plluaapi.c:1196-1204 | ARR_OVERHEAD in numbers, for any number of dimensions and elements |
| ArrayDatum.ElementBit | plluaapi.c:1057-1067 | bit j of the bitmap, in numbers, is 1 exactly if the element with those subscripts is there |
| ArrayDatum.ElementBytes | plluaapi.c:1043-1050 | an element of a fixed length, given its subscripts, is found behind the elements stored before it |
| ArrayDatum.CountItems | plluaapi.c:1190-1195 | the product of the dimensions, refused exactly above 134217727 |
| ArrayDatum.PushDatum | plluaapi.c:921-929 | whatever elements the array holds, the result is the table of exactly those |
| ArrayDatum.RoundTrip | plluaapi.c:1174-1214 | table to array to table is the identity whenever the table converts at all |
| ArrayDatum.BoxRoundTrip | plluaapi.c:825-854 | any box of any dimensions, written and read back, is itself, with every NULL an absent field again and the reader's pointer, bitmap byte and bit where the writer's are |
| ArrayDatum.SixDimensionsRefused | plluaapi.c:985-986 | a table with MAXDIM dimensions, two elements and two outer rows is refused with "too many dimensions"; one such row alone converts |
| FunctionCache.Registry.PushFunction | plluaapi.c:794-820 | the two registry levels do what the history of compile attempts says, and stay consistent with the stamp |
| FunctionCache.Registry.Recompile | plluaapi.c:812-816 | a stale chunk is replaced only if the new version compiles; stamp and chunk change together |
| FunctionCache.HasUnnamed | plluaapi.c:716-733 | the flag after checking the argument names |
| FunctionCache.LookupsAreCurrent | plluaapi.c:794-820 | in every run where stamps identify row versions: what is returned has the text of the version looked up, and as parameters its argument names, or "..." exactly if the function was created as a trigger or was since called with an unnamed argument; nil is returned exactly if that version was the one last returned and the call before got no function |
| FunctionCache.ErrorsAreReal | plluaapi.c:794-820 | an error means that the text does not compile with the parameter list it gets |
| FunctionCache.AlwaysServed | plluaapi.c:794-820 | in a run where no compile fails every call gets a function |
| FunctionCache.RolledBackReplacement | plluaapi.c:810-816 | a replacement that fails to compile and is rolled back leaves the function as nil |
| FunctionCache.FreshUnlessSticky | plluaapi.c:716-733 | in every run the chunk is the one a fresh compile would give if and only if this version needs "..." itself or none called since the creation did |
| FunctionCache.NamesStayUnbound | plluaapi.c:716-733 | a version without names, then one that names every argument: the second is not the chunk a fresh compile gives |
| Int64.PowWraps | lua_int64.c:173-185 | for every b >= 1 squaring with wrap-around gives the wrapped power |
| Int64.PowExact | lua_int64.c:173-185 | if a^b fits in 64 bits, -2^63 included, no intermediate square or product leaves the range |
| Int64.Int64PowMeaning | lua_int64.c:187-201 | the power, 1 for b = 0, an error exactly for negative b |
| Int64.Decimal | lua_int64.c:267-294 | for every n above -2^63: at most 19 decimal digits, no leading zero except for 0, a sign exactly for negative n, and reads back as n |
| Int64.PowerOfTwoDigits | lua_int64.c:312-315 | 64 / shift digits; their value is n modulo 2^64, for base 8 half of that |
| Int64.UnsignedIsMod | lua_int64.c:312-315 | the 64 bits of n read as an unsigned number are n modulo 2^64 |
| Int64.RawBytes | lua_int64.c:258-266 | the eight bytes of n, lowest first |
| Int64.ToString | lua_int64.c:254-316 | for every n and base: the digits of that base and the number for bases 2, 10 and 16, the eight bytes for 0, half the number for 8 (so right for 0 alone), an overflow for base 10 of -2^63, an error for every other base |
| Traceback.PrintStack | pllua_errors.c:225-255 | for every start level and depth the loop ends; it prints every level if depth <= max(start, 12) + 11, otherwise the levels below 12, one "..." and the last 10 |
| Traceback.PrintedPlaces | pllua_errors.c:225-255 | which line is where, in numbers: levels below 12, the dots right after them, the last 10 |
| Traceback.PrintedIsFaithful | pllua_errors.c:187-188 | levels are printed once, in increasing order; the first 12 levels and the last 10 always; the dots stand for at least two levels |

## Left out

- Handlers.Backend: a tree of calls is not run as one method on the C memory, because the addresses palloc chooses are part of the tree; entry, exit and the end of a transaction are refined one by one, bodies by the methods of Runtime.Runtime.
- What follows the error exit of `luaP_callhandler` (plluaapi.c:1400-1413), beyond Frames.ErrorExit: frame discipline is proved for handler runs without errors; errors are caught by subtransactions, and a subtransaction that fails raises its error in its own body.
- Set-returning functions that call themselves through SQL, and calling the row iterator on a cursor that has nothing queued and is closed or at its end.
- `luaP_getresult` runs after `rtds_unref` and before the previous current stack is put back (plluaapi.c:1393-1395); the model puts it back at once.
- Errors of SPI and of palloc, and whether a portal is still valid when it is closed: a portal is the sequence of rows it has still to give.
- The Lua thread of a set-returning function and its place in the registry; garbage collection happens at any point between operations.
- Tables with several dimensions that are ragged or have missing elements, keys that are not integers, and more than MAXDIM levels, on the way to an array. Reading arrays with NULL elements in any number of dimensions is modelled.
- ArrayDatum.PushDatum: arrays without dimensions are not read back, because luaP_pusharray takes its multidimensional branch for them.
- ArrayDatum.ToDatum: sizes, counts and bounds are unbounded integers, so overflow of a C int before a limit is checked is not modelled.
- Varlena elements have the plain 4-byte length word; short headers, compressed and toasted values are not modelled.
- Element conversion (`luaP_todatum`, `luaP_pushdatum` for scalar types): an element is its bytes.
- FunctionCache.Registry.PushFunction: whether a row compiles is part of the row; anonymous code storage, argument types and a missing `proargnames` are not modelled.
- Traceback.PrintStack: the text of each line and negative start levels.
- Registration of libraries, the trigger table, sandboxing and debugging code.
