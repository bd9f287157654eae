/** How long a descriptor on a frame's stack lives: as long as somebody holds it and its
    stack is in use, or belongs to a suspended function, whatever is called meanwhile. */
module Lifetimes {
  import opened Memory
  import opened Ledger
  import opened LedgerProofs
  import opened Iterator
  import opened Sweep
  import opened Runs
  import opened Frames
  import opened Holding

  /** S is in use, or it belongs to a cell that the acts do not call. */
  ghost predicate Guarded(w: World, S: Ptr, acts: seq<Act>) {
    && S != NULL && S in w.s.stacks
    && (Uses(w.frames, w.kept, S) > 0 || (w.s.stacks[S].cell != NULL && !CallsAny(acts, w.s.stacks[S].cell)))
  }

  predicate Calls(act: Act, cell: Ptr)
    decreases act
  {
    match act
    case Perform(_) => false
    case Change(_) => false
    case Call(c, _, _, body) => c == cell || CallsAny(body, cell)
    case Inline(_, body) => CallsAny(body, cell)
    case Subtransaction(_, _, body, _, _) => CallsAny(body, cell)
  }

  predicate CallsAny(acts: seq<Act>, cell: Ptr)
    decreases acts
  {
    acts != [] && (Calls(acts[0], cell) || CallsAny(acts[1..], cell))
  }

  /** The acts make something new at h's address. */
  predicate ReusedBy(act: Act, h: Holder)
    decreases act
  {
    match act
    case Perform(op) => Reuses(op, h)
    case Change(_) => false
    case _ => ReusedByAny(act.body, h)
  }

  predicate ReusedByAny(acts: seq<Act>, h: Holder)
    decreases acts
  {
    acts != [] && (ReusedBy(acts[0], h) || ReusedByAny(acts[1..], h))
  }

  /** Somewhere in act, as it runs from w, h lets go. */
  ghost predicate LetGo(w: World, act: Act, h: Holder)
    requires Valid(w.s)
    decreases act
  {
    match act
    case Perform(op) => LetsGo(w.s, op, h)
    case Change(_) => false
    case _ => Entry(w, act).Done? && LetGoAny(Entry(w, act).w, act.body, h)
  }

  ghost predicate LetGoAny(w: World, acts: seq<Act>, h: Holder)
    requires Valid(w.s)
    decreases acts
  {
    acts != [] && (LetGo(w, acts[0], h) || (Exec(w, acts[0]).Done? && LetGoAny(Exec(w, acts[0]).w, acts[1..], h)))
  }

  lemma HeldTrans(s: State, s1: State, s2: State, h: Holder, S: Ptr)
    requires StillHeld(s, s1, h, S) && StillHeld(s1, s2, h, S)
    ensures StillHeld(s, s2, h, S)
  {
  }

  /** Guarded acts one by one. */
  lemma GuardedFirst(w: World, S: Ptr, acts: seq<Act>)
    requires Guarded(w, S, acts) && acts != []
    ensures Guarded(w, S, [acts[0]])
  {
    assert [acts[0]][1..] == [];
  }

  lemma GuardedRest(w: World, w': World, h: Holder, S: Ptr, acts: seq<Act>)
    requires Guarded(w, S, acts) && acts != [] && Restored(w, w') && StillHeld(w.s, w'.s, h, S)
    ensures Guarded(w', S, acts[1..])
  {
  }

  /** Entering a frame. */
  lemma EnterHeld(w: World, T: Ptr, h: Holder, S: Ptr)
    requires Valid(w.s) && T in w.s.stacks && Held(w.s, h, S)
    ensures Enter(w, T).Done? && StillHeld(w.s, Enter(w, T).w.s, h, S)
  {
    hide HomesOk, RefsOk, CountOk, CellsOk, CursorsOk, IterOk;
  }

  lemma AllocateHeld(w: World, T: Ptr, cell: Ptr, h: Holder, S: Ptr)
    requires Valid(w.s) && Allocate(w, T, cell).Done? && Held(w.s, h, S)
    ensures StillHeld(w.s, Allocate(w, T, cell).w.s, h, S)
  {
    hide HomesOk, RefsOk, CountOk, CellsOk, CursorsOk, IterOk;
  }

  lemma LeaveHeld(w: World, prev: Ptr, h: Holder, S: Ptr)
    requires Valid(w.s) && w.frames != [] && Held(w.s, h, S)
    ensures Leave(Done(w), prev).Done? && StillHeld(w.s, Leave(Done(w), prev).w.s, h, S)
  {
    LeaveIsLegal(w, prev);
  }

  lemma EnterFunctionHeld(w: World, cell: Ptr, T: Ptr, h: Holder, S: Ptr)
    requires Valid(w.s) && Disciplined(w) && EnterFunction(w, cell, T).Done? && Held(w.s, h, S)
    ensures StillHeld(w.s, EnterFunction(w, cell, T).w.s, h, S)
  {
    hide HomesOk, RefsOk, CountOk, CursorsOk, IterOk, Enter, Allocate, Disciplined;
    if w.s.cells[cell] != NULL {
      assert CellTo(w.s.cells, w.s.stacks, cell);
      EnterHeld(w, w.s.cells[cell], h, S);
    } else {
      AllocateIsDisciplined(w, T, cell);
      AllocateHeld(w, T, cell, h, S);
      EnterHeld(Allocate(w, T, cell).w, T, h, S);
    }
  }

  lemma LeaveUnrefHeld(w: World, T: Ptr, prev: Ptr, h: Holder, S: Ptr)
    requires Valid(w.s) && w.frames != [] && T in w.s.stacks && Held(w.s, h, S) && (T != S || w.s.stacks[T].refs > 1)
    ensures var o := Leave(UnrefOp(Done(w), T), prev); o.Done? && StillHeld(w.s, o.w.s, h, S)
  {
    hide Valid, Leave, UnrefOp, UnrefStack;
    UnrefIsLegal(w, T);
    UnrefStackHeld(w.s, T, h, S);
    LeaveHeld(w.(s := UnrefStack(w.s, T)), prev, h, S);
  }

  lemma LeaveTryCleanHeld(w: World, T: Ptr, prev: Ptr, h: Holder, S: Ptr)
    requires Valid(w.s) && w.frames != [] && T in w.s.stacks && Held(w.s, h, S) && (T != S || w.s.stacks[T].refs > 1)
    ensures var o := Leave(Handle(Done(w), TryCleanStack(T)), prev); o.Done? && StillHeld(w.s, o.w.s, h, S)
  {
    hide Valid, Leave, Handle, TryClean;
    TryCleanIsLegal(w, T);
    TryCleanHeld(w.s, T, h, S);
    LeaveHeld(w.(s := TryClean(w.s, T)), prev, h, S);
  }

  lemma LeaveCountHeld(w: World, T: Ptr, prev: Ptr, h: Holder, S: Ptr)
    requires Valid(w.s) && w.frames != [] && T in w.s.stacks && Held(w.s, h, S)
    ensures var o := Leave(Handle(Done(w), NotInUse(T)), prev); o.Done? && StillHeld(w.s, o.w.s, h, S)
  {
    hide HomesOk, RefsOk, CountOk, CellsOk, CursorsOk, IterOk;
  }

  /** A frame on T ends: S is another stack, or T is in use further out as well. */
  lemma ExitHeld(w: World, T: Ptr, cell: Ptr, kind: Kind, prev: Ptr, h: Holder, S: Ptr)
    requires Valid(w.s) && w.frames != [] && T in w.s.stacks && Held(w.s, h, S) && (T != S || w.s.stacks[T].refs > 1)
    requires cell in w.s.cells && w.s.cells[cell] == T && w.s.current == T
    ensures var o := ExitFunction(w, cell, kind, prev); o.Done? && StillHeld(w.s, o.w.s, h, S)
  {
    hide Valid, Leave, Handle, UnrefOp;
    match kind
    case Ordinary => LeaveUnrefHeld(w, T, prev, h, S);
    case Trigger => LeaveTryCleanHeld(w, T, prev, h, S);
    case SetReturning(last) => if last { LeaveUnrefHeld(w, T, prev, h, S); } else { LeaveCountHeld(w, T, prev, h, S); }
  }

  lemma FrameStack(w: World)
    requires Disciplined(w) && w.frames != []
    ensures w.frames[0] in w.s.stacks
  {
  }

  lemma GuardedBody(w: World, w1: World, S: Ptr, act: Act, body: seq<Act>, cell: Ptr)
    requires Guarded(w, S, [act]) && S in w1.s.stacks && w1.s.stacks[S].cell == w.s.stacks[S].cell
    requires Uses(w1.frames, w1.kept, S) >= Uses(w.frames, w.kept, S)
    requires match act case Call(_, _, _, b) => b == body case Inline(_, b) => b == body case Subtransaction(_, _, b, _, _) => b == body case _ => false
    ensures Guarded(w1, S, body)
  {
    OneCall(act, w.s.stacks[S].cell);
  }

  lemma OneCall(act: Act, cell: Ptr)
    ensures CallsAny([act], cell) == Calls(act, cell)
  {
    assert [act][0] == act && [act][1..] == [];
  }

  /** If the called function's stack is S itself, S was guarded because it was in use. */
  lemma StillInUse(w: World, w1: World, w2: World, T: Ptr, act: Act)
    requires Guarded(w, T, [act]) && act.Call? && Inside(w, w1, T) && w1.s.stacks[T].cell == act.cell
    requires Restored(w1, w2) && Disciplined(w2) && T in w2.s.stacks
    ensures w2.s.stacks[T].refs > 1
  {
    OneCall(act, w.s.stacks[T].cell);
    assert StillThere(w, w1, T);
    UsesOuter(w1.frames, w1.kept, T);
    assert StillThere(w1, w2, T);
    assert Counted(w2.s.stacks, w2.frames, w2.kept, T);
  }

  /** The body of act starts with h still holding, on a stack still guarded. */
  lemma EntryHeld(w: World, act: Act, h: Holder, S: Ptr)
    requires Valid(w.s) && Disciplined(w) && Nested(act) && Guarded(w, S, [act]) && Held(w.s, h, S)
    requires Entry(w, act).Done?
    ensures var w1 := Entry(w, act).w; Disciplined(w1) && StillHeld(w.s, w1.s, h, S) && Guarded(w1, S, act.body)
  {
    hide Valid, Disciplined, Enter, Allocate, EnterFunction, Uses;
    if act.Call? {
      EnterFunctionIsDisciplined(w, act.cell, act.S);
      var w1 := Entry(w, act).w;
      InsideIsDisciplined(w, w1, w1.frames[0]);
      EnterFunctionHeld(w, act.cell, act.S, h, S);
      UsesOuter(w1.frames, w1.kept, S);
      GuardedBody(w, w1, S, act, act.body, act.cell);
    } else {
      EnterNew(w, act.S, NULL);
      var w0 := Allocate(w, act.S, NULL).w;
      var w1 := Enter(w0, act.S).w;
      InsideIsDisciplined(w, w1, act.S);
      AllocateIsDisciplined(w, act.S, NULL);
      AllocateHeld(w, act.S, NULL, h, S);
      EnterHeld(w0, act.S, h, S);
      HeldTrans(w.s, w0.s, w1.s, h, S);
      UsesOuter(w1.frames, w1.kept, S);
      if act.Subtransaction? { BeginIsDisciplined(w1, act.inner); }
      GuardedBody(w, Entry(w, act).w, S, act, act.body, NULL);
    }
  }

  /** And at the end of the body the frame goes without taking S along. */
  lemma ExitKeeps(w: World, act: Act, w2: World, h: Holder, S: Ptr)
    requires Valid(w.s) && Disciplined(w) && Nested(act) && Guarded(w, S, [act]) && Held(w.s, h, S)
    requires Entry(w, act).Done? && Valid(w2.s) && Disciplined(w2) && Restored(Entry(w, act).w, w2) && Held(w2.s, h, S)
    ensures Exit(w, act, w2).Done? && StillHeld(w2.s, Exit(w, act, w2).w.s, h, S)
  {
    hide Valid, Disciplined, ExitFunction, EnterFunction, Leave, UnrefOp, Enter, Allocate, Uses;
    if act.Call? {
      EnterFunctionIsDisciplined(w, act.cell, act.S);
      var w1 := Entry(w, act).w;
      var T := w1.frames[0];
      InsideIsDisciplined(w, w1, T);
      CallExits(w, w1, w2, T, act.cell, act.kind);
      FrameStack(w2);
      if T == S { StillInUse(w, w1, w2, T, act); }
      ExitHeld(w2, T, act.cell, act.kind, w.s.current, h, S);
    } else {
      EnterNew(w, act.S, NULL);
      InsideIsDisciplined(w, Enter(Allocate(w, act.S, NULL).w, act.S).w, act.S);
      FrameStack(w2);
      if act.Inline? {
        LeaveUnrefHeld(w2, act.S, w.s.current, h, S);
      } else {
        var e := End(w2, act.ok, act.outer, w.session);
        if act.ok {
          LeaveHeld(e.(kept := e.kept + {act.S}), w.s.current, h, S);
        } else {
          LeaveUnrefHeld(e, act.S, w.s.current, h, S);
        }
      }
    }
  }

  // ---------- Handlers and holders that have let go ----------

  lemma HandleQuiet(o: Outcome, op: Op)
    requires o.Done? && Valid(o.w.s) && StackOp(op) && Handle(o, op).Done?
    ensures Quiet(o.w.s, Handle(o, op).w.s)
  {
    hide Quiet, Valid, Legal;
    StackOpQuiet(o.w.s, op);
  }

  lemma QuietTrans(s: State, s1: State, s2: State)
    requires Quiet(s, s1) && Quiet(s1, s2)
    ensures Quiet(s, s2)
  {
  }

  lemma EnterQuiet(w: World, S: Ptr)
    requires Valid(w.s) && Enter(w, S).Done?
    ensures Quiet(w.s, Enter(w, S).w.s)
  {
    hide Quiet, Valid, Handle;
    var o := Handle(Done(w.(frames := [S] + w.frames)), InUse(S));
    HandleQuiet(Done(w.(frames := [S] + w.frames)), InUse(S));
    HandleQuiet(o, SetCurrent(S));
    QuietTrans(w.s, o.w.s, Enter(w, S).w.s);
  }

  lemma EntryQuiet(w: World, act: Act)
    requires Valid(w.s) && Nested(act) && Entry(w, act).Done?
    ensures Quiet(w.s, Entry(w, act).w.s)
  {
    hide Quiet, Valid, Enter, Legal, Apply;
    var cell := if act.Call? then act.cell else NULL;
    if act.Call? && w.s.cells[cell] != NULL {
      EnterQuiet(w, w.s.cells[cell]);
    } else {
      StackOpQuiet(w.s, InitStack(act.S, cell));
      var w0 := Allocate(w, act.S, cell).w;
      EnterQuiet(w0, act.S);
      QuietTrans(w.s, w0.s, Enter(w0, act.S).w.s);
    }
  }

  lemma LeaveQuiet(w: World, prev: Ptr)
    requires Valid(w.s) && Leave(Done(w), prev).Done?
    ensures Quiet(w.s, Leave(Done(w), prev).w.s)
  {
    hide Quiet, Valid, Handle;
    HandleQuiet(Done(w.(frames := w.frames[1..])), SetCurrent(prev));
  }

  lemma HandleLeaveQuiet(w: World, op: Op, prev: Ptr)
    requires Valid(w.s) && StackOp(op) && Leave(Handle(Done(w), op), prev).Done?
    ensures Quiet(w.s, Leave(Handle(Done(w), op), prev).w.s)
  {
    hide Quiet, Valid, Handle, Leave;
    var o := Handle(Done(w), op);
    HandleQuiet(Done(w), op);
    LeaveQuiet(o.w, prev);
    QuietTrans(w.s, o.w.s, Leave(o, prev).w.s);
  }

  lemma UnrefLeaveQuiet(w: World, T: Ptr, prev: Ptr)
    requires Valid(w.s) && Leave(UnrefOp(Done(w), T), prev).Done?
    ensures Quiet(w.s, Leave(UnrefOp(Done(w), T), prev).w.s)
  {
    hide Quiet, Valid, Handle, Leave;
    var o := Handle(Done(w), NotInUse(T));
    HandleQuiet(Done(w), NotInUse(T));
    HandleLeaveQuiet(o.w, FreeStack(T), prev);
    QuietTrans(w.s, o.w.s, Leave(UnrefOp(Done(w), T), prev).w.s);
  }

  lemma ExitQuiet(w: World, act: Act, w2: World)
    requires Valid(w2.s) && Nested(act) && Exit(w, act, w2).Done?
    ensures Quiet(w2.s, Exit(w, act, w2).w.s)
  {
    hide Quiet, Valid, Handle, Leave, UnrefOp;
    var prev := w.s.current;
    match act
    case Call(cell, Ordinary, _, _) => UnrefLeaveQuiet(w2, w2.s.cells[cell], prev);
    case Call(cell, Trigger, _, _) => HandleLeaveQuiet(w2, TryCleanStack(w2.s.current), prev);
    case Call(cell, SetReturning(last), _, _) =>
      if last { UnrefLeaveQuiet(w2, w2.s.cells[cell], prev); } else { HandleLeaveQuiet(w2, NotInUse(w2.s.cells[cell]), prev); }
    case Inline(S, _) => UnrefLeaveQuiet(w2, S, prev);
    case Subtransaction(S, ok, _, _, outer) =>
      var e := End(w2, ok, outer, w.session);
      if ok { LeaveQuiet(e.(kept := e.kept + {S}), prev); } else { UnrefLeaveQuiet(e, S, prev); }
  }

  /** What became of h: its cursor broke nothing; it holds what it held, or has let go. */
  ghost predicate Fate(s: State, o: Outcome, letGo: bool, h: Holder, S: Ptr) {
    && (o.Broken? ==> !OnCursor(o.op, h))
    && (o.Done? ==> if letGo then Over(o.w.s, h) else StillHeld(s, o.w.s, h, S))
  }

  ghost predicate FateOver(o: Outcome, h: Holder) {
    && (o.Broken? ==> !OnCursor(o.op, h))
    && (o.Done? ==> Over(o.w.s, h))
  }

  lemma QuietOver(s: State, s': State, h: Holder)
    requires Quiet(s, s') && Over(s, h)
    ensures Over(s', h)
  {
  }

  /** Whoever has let go stays out, whatever act does. */
  lemma {:induction false} ExecOver(w: World, act: Act, h: Holder)
    requires Valid(w.s) && Over(w.s, h) && !ReusedBy(act, h)
    ensures FateOver(Exec(w, act), h)
    decreases act
  {
    hide Valid, Entry, Exit, Over;
    match act
    case Perform(op) => PerformOver(w, op, h);
    case Change(_) =>
    case _ =>
      var entered := Entry(w, act);
      EntryBreaksNothing(w, act);
      if entered.Done? {
        EntryQuiet(w, act);
        QuietOver(w.s, entered.w.s, h);
        ExecAllOver(entered.w, act.body, h);
        var o := ExecAll(entered.w, act.body);
        if o.Done? {
          ExitBreaksNothing(w, act, o.w);
          if Exit(w, act, o.w).Done? {
            ExitQuiet(w, act, o.w);
            QuietOver(o.w.s, Exit(w, act, o.w).w.s, h);
          }
        }
      }
  }

  lemma {:induction false} ExecAllOver(w: World, acts: seq<Act>, h: Holder)
    requires Valid(w.s) && Over(w.s, h) && !ReusedByAny(acts, h)
    ensures FateOver(ExecAll(w, acts), h)
    decreases acts
  {
    hide Valid, Exec, Over;
    if acts != [] {
      ExecOver(w, acts[0], h);
      if Exec(w, acts[0]).Done? { ExecAllOver(Exec(w, acts[0]).w, acts[1..], h); }
    }
  }

  lemma EntryBreaksNothing(w: World, act: Act)
    requires Valid(w.s) && Nested(act)
    ensures !Entry(w, act).Broken?
  {
    hide Valid, Legal, Apply;
  }

  lemma ExitBreaksNothing(w: World, act: Act, w2: World)
    requires Valid(w2.s) && Nested(act)
    ensures Exit(w, act, w2).Done? || Exit(w, act, w2) == Fault
  {
    hide Valid, Legal, Apply;
  }

  lemma PerformOver(w: World, op: Op, h: Holder)
    requires Valid(w.s) && Over(w.s, h) && !Reuses(op, h)
    ensures FateOver(Exec(w, Perform(op)), h)
  {
    hide Valid, Legal, Callable, Breaks, Apply, Held, Over, OnCursor;
    LegalIs(w.s, op);
    if BodyOp(op) && Callable(w.s, op) {
      if OnCursor(op, h) { NothingBreaks(w.s, op, h, NULL); }
      if Legal(w.s, op) { StaysOver(w.s, op, h); }
    }
  }

  lemma PerformFate(w: World, op: Op, h: Holder, S: Ptr)
    requires Valid(w.s) && Held(w.s, h, S)
    ensures Fate(w.s, Exec(w, Perform(op)), LetGo(w, Perform(op), h), h, S)
  {
    hide Valid, Legal, Callable, Breaks, Apply, Over, OnCursor, LetsGo, StillHeld;
    LegalIs(w.s, op);
    if BodyOp(op) && Callable(w.s, op) {
      if OnCursor(op, h) { NothingBreaks(w.s, op, h, S); }
      if Legal(w.s, op) {
        if LetsGo(w.s, op, h) { EndsOver(w.s, op, h); } else { PerformHeld(w.s, op, h, S); }
      }
    }
  }

  lemma NestedFate(w: World, act: Act, h: Holder, S: Ptr)
    requires Valid(w.s) && Disciplined(w) && Guarded(w, S, [act]) && Held(w.s, h, S)
    requires Nested(act) && !ReusedBy(act, h)
    ensures Fate(w.s, Exec(w, act), LetGo(w, act, h), h, S)
    decreases act, 0
  {
    hide Valid, Disciplined, Entry, Exit, Over, OnCursor, Held, StillHeld, Guarded, Restored;
    var entered := Entry(w, act);
    EntryBreaksNothing(w, act);
    if entered.Done? {
      var w1 := entered.w;
      EntryHeld(w, act, h, S);
      HeldNow(w.s, w1.s, h, S);
      ExecAllHeld(w1, act.body, h, S);
      ExecAllIsDisciplined(w1, act.body);
      var o := ExecAll(w1, act.body);
      if o.Done? {
        ExitBreaksNothing(w, act, o.w);
        if LetGoAny(w1, act.body, h) {
          if Exit(w, act, o.w).Done? {
            ExitQuiet(w, act, o.w);
            QuietOver(o.w.s, Exit(w, act, o.w).w.s, h);
          }
        } else {
          HeldNow(w1.s, o.w.s, h, S);
          ExitKeeps(w, act, o.w, h, S);
          HeldTrans(w.s, w1.s, o.w.s, h, S);
          HeldTrans(w.s, o.w.s, Exit(w, act, o.w).w.s, h, S);
        }
      }
    }
  }

  lemma HeldNow(s: State, s': State, h: Holder, S: Ptr)
    requires StillHeld(s, s', h, S)
    ensures Held(s', h, S)
  {
  }

  /** Whatever act does while S is in use or suspended: no iterator call on h's cursor
      breaks, and afterwards h holds what it held, unless it has let go itself. */
  lemma {:induction false} ExecHeld(w: World, act: Act, h: Holder, S: Ptr)
    requires Valid(w.s) && Disciplined(w) && Guarded(w, S, [act]) && Held(w.s, h, S)
    requires !ReusedBy(act, h)
    ensures Fate(w.s, Exec(w, act), LetGo(w, act, h), h, S)
    decreases act, 1
  {
    hide Valid, Disciplined;
    match act
    case Perform(op) => PerformFate(w, op, h, S);
    case Change(_) =>
    case _ => NestedFate(w, act, h, S);
  }

  lemma {:induction false} ExecAllHeld(w: World, acts: seq<Act>, h: Holder, S: Ptr)
    requires Valid(w.s) && Disciplined(w) && Guarded(w, S, acts) && Held(w.s, h, S)
    requires !ReusedByAny(acts, h)
    ensures Fate(w.s, ExecAll(w, acts), LetGoAny(w, acts, h), h, S)
    decreases acts
  {
    hide Valid, Disciplined, Exec, LetGo, Over, OnCursor;
    if acts != [] {
      GuardedFirst(w, S, acts);
      ExecHeld(w, acts[0], h, S);
      ExecIsDisciplined(w, acts[0]);
      var o := Exec(w, acts[0]);
      if o.Done? {
        if LetGo(w, acts[0], h) {
          ExecAllOver(o.w, acts[1..], h);
        } else {
          GuardedRest(w, o.w, h, S, acts);
          ExecAllHeld(o.w, acts[1..], h, S);
          if ExecAll(o.w, acts[1..]).Done? && !LetGoAny(o.w, acts[1..], h) {
            HeldTrans(w.s, o.w.s, ExecAll(o.w, acts[1..]).w.s, h, S);
          }
        }
      }
    }
  }

  // ---------- What callers see ----------

  /** After any acts, a function's cell is NULL or leads to a registered stack that leads
      back to the cell. */
  lemma WeakCells(w: World, acts: seq<Act>, cell: Ptr)
    requires Valid(w.s) && Disciplined(w) && ExecAll(w, acts).Done? && cell in w.s.cells
    ensures var s := ExecAll(w, acts).w.s;
      && cell in s.cells
      && (s.cells[cell] != NULL ==>
            var S := s.cells[cell]; S in s.stacks && s.stacks[S].cell == cell && StackRes(S) in s.resources)
  {
    hide Disciplined, ExecAll;
    ExecAllIsDisciplined(w, acts);
    var s := ExecAll(w, acts).w.s;
    if s.cells[cell] != NULL { CellLeads(s, cell); }
  }

  lemma CellLeads(s: State, cell: Ptr)
    requires Valid(s) && cell in s.cells && s.cells[cell] != NULL
    ensures var S := s.cells[cell]; S in s.stacks && s.stacks[S].cell == cell && StackRes(S) in s.resources
  {
    assert CellTo(s.cells, s.stacks, cell);
  }

  /** The row iterator on h's cursor can be called without fear. */
  ghost predicate Serves(s: State, h: Holder)
    requires Valid(s)
  {
    h.ByCursor? ==> forall d, rs :: CanCall(s, h.p, d, rs) ==> RowsAux(s, h.p, d, rs) != Crash
  }

  lemma HeldServes(s: State, h: Holder, S: Ptr)
    requires Valid(s) && (Held(s, h, S) || Over(s, h))
    ensures Serves(s, h)
  {
    hide Valid, RowsAux, Held, Over;
    if h.ByCursor? {
      forall d, rs | CanCall(s, h.p, d, rs) ensures RowsAux(s, h.p, d, rs) != Crash {
        NothingBreaks(s, Next(h.p, d, rs), h, S);
        CrashesExactly(s, h.p, d, rs);
      }
    }
  }

  /** A suspended set-returning function, whatever else is called before it is resumed:
      it keeps its cell and stack, and its userdata, rows and iterating cursors keep what
      they hold there, so its iterators go on where they were. */
  lemma SuspendedKeeps(w: World, acts: seq<Act>, cell: Ptr, h: Holder)
    requires Valid(w.s) && Disciplined(w) && !CallsAny(acts, cell)
    requires cell in w.s.cells && w.s.cells[cell] != NULL && Held(w.s, h, w.s.cells[cell])
    requires !ReusedByAny(acts, h)
    ensures ExecAll(w, acts).Broken? ==> !OnCursor(ExecAll(w, acts).op, h)
    ensures ExecAll(w, acts).Done? ==>
      var s' := ExecAll(w, acts).w.s;
      && Serves(s', h)
      && if LetGoAny(w, acts, h) then Over(s', h)
         else
           && s'.cells == s'.cells[cell := w.s.cells[cell]]
           && StillHeld(w.s, s', h, w.s.cells[cell]) && s'.descs[s'.owners[h]].live
  {
    hide Disciplined, Valid, ExecAll, LetGoAny, OnCursor, Over, Serves;
    var S := w.s.cells[cell];
    CellLeads(w.s, cell);
    NullIsNoCell(w.s);
    ExecAllHeld(w, acts, h, S);
    if ExecAll(w, acts).Done? {
      var s' := ExecAll(w, acts).w.s;
      HeldServes(s', h, S);
      if !LetGoAny(w, acts, h) {
        HeldIsLive(s', h, S);
        CellOf(s', S);
      }
    }
  }

  lemma NullIsNoCell(s: State)
    requires Valid(s)
    ensures NULL !in s.cells && NULL !in s.stacks
  {
  }

  /** h still refers to the descriptor, which has lost its TupleDesc. */
  ghost predicate Lost(s: State, s': State, h: Holder) {
    && h in s.owners && h in s'.owners && s'.owners[h] == s.owners[h]
    && s.owners[h] in s'.descs && !s'.descs[s.owners[h]].live && s'.descs[s.owners[h]].home == NULL
  }

  /** The last use of a frame's stack is given up: the stack is gone, its cell cleared. */
  lemma LastUnrefFrees(w: World, prev: Ptr)
    requires Valid(w.s) && Disciplined(w) && w.frames != []
    requires Uses(w.frames[1..], w.kept, w.frames[0]) == 0
    ensures var S := w.frames[0]; var o := Leave(UnrefOp(Done(w), S), prev);
      && o.Done? && S in w.s.stacks && S !in o.w.s.stacks
      && o.w.s.cells == ClearCell(w.s.cells, w.s.stacks[S].cell)
  {
    hide Valid, Leave, UnrefOp;
    var S := w.frames[0];
    UsesOuter(w.frames, w.kept, S);
    assert Counted(w.s.stacks, w.frames, w.kept, S);
    UnrefIsLegal(w, S);
    UnrefForm(w.s, S);
    LeaveIsLegal(w.(s := UnrefStack(w.s, S)), prev);
  }

  lemma LastUnrefLoses(w: World, prev: Ptr, h: Holder)
    requires Valid(w.s) && Disciplined(w) && w.frames != []
    requires Uses(w.frames[1..], w.kept, w.frames[0]) == 0 && Held(w.s, h, w.frames[0])
    ensures var o := Leave(UnrefOp(Done(w), w.frames[0]), prev); o.Done? && Lost(w.s, o.w.s, h)
  {
    hide Valid, Leave, UnrefOp;
    var S := w.frames[0];
    UsesOuter(w.frames, w.kept, S);
    assert Counted(w.s.stacks, w.frames, w.kept, S);
    UnrefIsLegal(w, S);
    OnStack(w.s, h, S);
    DismantleForm(SetRefs(w.s, S, 0), S);
    LeaveIsLegal(w.(s := UnrefStack(w.s, S)), prev);
  }

  lemma OnStack(s: State, h: Holder, S: Ptr)
    requires Valid(s) && Held(s, h, S)
    ensures S != NULL && s.owners[h] in s.stacks[S].items
  {
    assert HomeOk(s.descs[s.owners[h]], s.owners[h], s.stacks);
  }

  /** The last call of a set-returning function (and every ordinary call) that is not
      inside another one frees the stack, clears the cell, and leaves whatever was made
      on that stack without a TupleDesc. */
  lemma LastCallReleases(w: World, cell: Ptr, kind: Kind, S: Ptr, body: seq<Act>, h: Holder)
    requires Valid(w.s) && Disciplined(w) && Exec(w, Call(cell, kind, S, body)).Done?
    requires kind == Ordinary || kind == SetReturning(true)
    requires cell in w.s.cells && Uses(w.frames, w.kept, w.s.cells[cell]) == 0
    ensures EnterFunction(w, cell, S).Done? && ExecAll(EnterFunction(w, cell, S).w, body).Done?
    ensures var s2, s' := ExecAll(EnterFunction(w, cell, S).w, body).w.s, Exec(w, Call(cell, kind, S, body)).w.s;
      && cell in s2.cells && s2.cells[cell] !in s'.stacks && s'.cells == s2.cells[cell := NULL]
      && (Held(s2, h, s2.cells[cell]) ==> Lost(s2, s', h))
  {
    hide Valid, Disciplined, Leave, UnrefOp, Enter, ExecAll;
    var act := Call(cell, kind, S, body);
    EnterFunctionIsDisciplined(w, cell, S);
    var w1 := EnterFunction(w, cell, S).w;
    var T := w1.frames[0];
    InsideIsDisciplined(w, w1, T);
    ExecAllIsDisciplined(w1, body);
    var w2 := ExecAll(w1, body).w;
    CallExits(w, w1, w2, T, cell, kind);
    EnteredUnused(w, cell, S);
    UsesOuter(w1.frames, w1.kept, T);
    FrameStillThere(w1, w2, T);
    OuterOf(w, w2.frames, T);
    LastUnrefFrees(w2, w.s.current);
    if Held(w2.s, h, T) { LastUnrefLoses(w2, w.s.current, h); }
  }

  lemma FrameStillThere(w1: World, w2: World, T: Ptr)
    requires Restored(w1, w2) && T in w1.s.stacks && Uses(w1.frames, w1.kept, T) > 0
    ensures StillThere(w1, w2, T) && (T in w2.kept <==> T in w1.kept)
  {
  }

  lemma EnteredUnused(w: World, cell: Ptr, S: Ptr)
    requires Valid(w.s) && Disciplined(w) && EnterFunction(w, cell, S).Done?
    requires cell in w.s.cells && Uses(w.frames, w.kept, w.s.cells[cell]) == 0
    ensures var w1 := EnterFunction(w, cell, S).w;
      w1.frames != [] && Uses(w.frames, w.kept, w1.frames[0]) == 0
  {
    hide HomesOk, RefsOk, CountOk, CursorsOk, IterOk;
    if w.s.cells[cell] == NULL { AllocateIsDisciplined(w, S, cell); }
  }

  /** At the end of a subtransaction: after success its stack stays in use, with all it
      keeps; after failure the stack is gone and what was made on it reads as lost. */
  lemma SubtransactionOutcome(w: World, act: Act, h: Holder)
    requires Valid(w.s) && Disciplined(w) && act.Subtransaction? && Exec(w, act).Done?
    ensures Allocate(w, act.S, NULL).Done? && Enter(Allocate(w, act.S, NULL).w, act.S).Done?
    ensures var b := Begin(Enter(Allocate(w, act.S, NULL).w, act.S).w, act.inner);
      && ExecAll(b, act.body).Done?
      && var s2, w' := ExecAll(b, act.body).w.s, Exec(w, act).w;
         Held(s2, h, act.S) ==>
           if act.ok then Uses(w'.frames, w'.kept, act.S) > 0 && StillHeld(s2, w'.s, h, act.S)
           else act.S !in w'.s.stacks && Lost(s2, w'.s, h)
  {
    hide Valid, Disciplined, Leave, UnrefOp, Enter, Allocate, ExecAll;
    EnterNew(w, act.S, NULL);
    var w1 := Enter(Allocate(w, act.S, NULL).w, act.S).w;
    InsideIsDisciplined(w, w1, act.S);
    var b := Begin(w1, act.inner);
    BeginIsDisciplined(w1, act.inner);
    ExecAllIsDisciplined(b, act.body);
    var w2 := ExecAll(b, act.body).w;
    if Held(w2.s, h, act.S) {
      var e := End(w2, act.ok, act.outer, w.session);
      UsesOuter(b.frames, b.kept, act.S);
      FrameStillThere(b, w2, act.S);
      if act.ok {
        LeaveHeld(e.(kept := e.kept + {act.S}), w.s.current, h, act.S);
        LeaveIsLegal(e.(kept := e.kept + {act.S}), w.s.current);
      } else {
        EndIsDisciplined(w2, e);
        OuterOf(w, e.frames, act.S);
        LastUnrefFrees(e, w.s.current);
        LastUnrefLoses(e, w.s.current, h);
      }
    }
  }

  lemma EndIsDisciplined(w: World, e: World)
    requires Disciplined(w) && Bracketed(w, e)
    ensures Disciplined(e)
  {
  }
}
