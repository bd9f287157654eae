/** What a frame leaves behind when it ends, kind by kind, and how a set-returning function
    gets from one yield to the next. */
module FrameEnds {
  import opened Memory
  import opened Ledger
  import opened Sweep
  import opened Runs
  import opened Frames
  import opened Holding
  import opened Lifetimes
  import opened Effects

  /** The state in which act's body ends, and the stack its frame is on. */
  ghost function BodyEnd(w: World, act: Act): Outcome
    requires Valid(w.s) && Nested(act)
  {
    var entered := Entry(w, act);
    if entered.Done? then ExecAll(entered.w, act.body) else entered
  }

  ghost predicate On(w: World, T: Ptr) {
    w.frames != [] && w.frames[0] == T
  }

  /** The end of a frame on T that others use as well, or nobody else does. */
  ghost predicate Ends(act: Act, others: nat, s: State, s': State, T: Ptr)
    requires Nested(act)
  {
    match act
    case Call(_, Trigger, _, _) => if others == 0 then Cleaned(s, s', T) else CountedDown(s, s', T)
    case Call(_, SetReturning(last), _, _) => if last && others == 0 then Freed(s, s', T) else CountedDown(s, s', T)
    case Subtransaction(_, ok, _, _, _) => if ok then s' == s else if others == 0 then Freed(s, s', T) else CountedDown(s, s', T)
    case _ => if others == 0 then Freed(s, s', T) else CountedDown(s, s', T)
  }

  /** Where the body ends: in the frame that was entered, on a stack in use once more than
      outside. */
  lemma AtBodyEnd(w: World, act: Act)
    requires Valid(w.s) && Disciplined(w) && Nested(act) && Exec(w, act).Done?
    ensures Entry(w, act).Done? && BodyEnd(w, act).Done? && Exec(w, act) == Exit(w, act, BodyEnd(w, act).w)
    ensures var w2 := BodyEnd(w, act).w;
      && Valid(w2.s) && Disciplined(w2) && w2.frames != [] && w2.frames[1..] == w.frames
      && var T := w2.frames[0];
         && T in w2.s.stacks && w2.s.current == T && w2.s.stacks[T].refs == 1 + Uses(w.frames, w.kept, T)
         && (act.Call? ==> act.cell in w2.s.cells && w2.s.cells[act.cell] == T && T != NULL && w2.s.stacks[T].cell == act.cell)
         && (!act.Call? ==> T == act.S && w2.s.stacks[T].cell == NULL && T !in w.s.stacks && Uses(w.frames, w.kept, T) == 0)
  {
    hide Valid, Disciplined, Enter, Allocate, EnterFunction, ExitFunction, Exit, ExecAll, Uses;
    if act.Call? {
      CallEntered(w, act);
    } else {
      StrongEntered(w, act);
    }
    var b := Entry(w, act).w;
    ExecAllIsDisciplined(b, act.body);
    EndOfBody(w, b, BodyEnd(w, act).w);
  }

  lemma CallEntered(w: World, act: Act)
    requires Valid(w.s) && Disciplined(w) && act.Call? && Entry(w, act).Done?
    ensures var b := Entry(w, act).w; b.frames != [] && Entered(w, b, b.frames[0], act.cell) && b.frames[0] != NULL && act.cell != NULL
  {
    hide Disciplined, EnterFunction;
    EnterFunctionIsDisciplined(w, act.cell, act.S);
    InsideIsDisciplined(w, Entry(w, act).w, Entry(w, act).w.frames[0]);
  }

  lemma StrongEntered(w: World, act: Act)
    requires Valid(w.s) && Disciplined(w) && (act.Inline? || act.Subtransaction?) && Entry(w, act).Done?
    ensures Entered(w, Entry(w, act).w, act.S, NULL) && act.S !in w.s.stacks && Uses(w.frames, w.kept, act.S) == 0
  {
    hide Disciplined, Enter, Allocate, Uses;
    EnterNew(w, act.S, NULL);
    var w1 := Enter(Allocate(w, act.S, NULL).w, act.S).w;
    InsideIsDisciplined(w, w1, act.S);
    if act.Subtransaction? { BeginIsDisciplined(w1, act.inner); }
  }

  /** The body starts in a new frame on T. */
  ghost predicate Entered(w: World, b: World, T: Ptr, cell: Ptr) {
    && Disciplined(b) && b.frames == [T] + w.frames && b.kept == w.kept
    && T in b.s.stacks && b.s.stacks[T].cell == cell
  }

  /** Inside a subtransaction the caller's memory context is still current, with the
      subtransaction's resource owner, and there is one more savepoint: here. */
  lemma SubtransactionEntered(w: World, act: Act)
    requires Valid(w.s) && Disciplined(w) && act.Subtransaction? && Entry(w, act).Done?
    ensures var b := Entry(w, act).w;
      && b.session.context == w.session.context && b.session.owner == act.inner.owner
      && b.writes == w.writes && b.savepoints == w.savepoints + [|w.writes|]
      && b.frames == [act.S] + w.frames && b.s.current == act.S
  {
    hide Valid, Enter, Allocate, Uses;
    EnterNew(w, act.S, NULL);
  }

  lemma EndOfBody(w: World, b: World, w2: World)
    requires Valid(w2.s) && b.frames != [] && Entered(w, b, b.frames[0], if b.frames[0] in b.s.stacks then b.s.stacks[b.frames[0]].cell else NULL)
    requires Disciplined(w2) && Restored(b, w2)
    ensures w2.frames == b.frames && w2.frames[1..] == w.frames
    ensures var T := b.frames[0];
      && T in w2.s.stacks && w2.s.current == T && w2.s.stacks[T].refs == 1 + Uses(w.frames, w.kept, T)
      && w2.s.stacks[T].cell == b.s.stacks[T].cell
      && (w2.s.stacks[T].cell != NULL ==> w2.s.stacks[T].cell in w2.s.cells && w2.s.cells[w2.s.stacks[T].cell] == T)
  {
    hide Valid;
    var T := b.frames[0];
    UsesOuter(b.frames, b.kept, T);
    FrameStillThere(b, w2, T);
    UsesOuter(w2.frames, w2.kept, T);
    assert Counted(w2.s.stacks, w2.frames, w2.kept, T);
    if w2.s.stacks[T].cell != NULL { CellOf(w2.s, T); }
  }

  lemma LeaveUnref(w: World, T: Ptr, prev: Ptr)
    requires Valid(w.s) && w.frames != [] && T in w.s.stacks
    ensures var o := Leave(UnrefOp(Done(w), T), prev);
      && o.Done? && o.w.s.current == prev
      && if w.s.stacks[T].refs == 1 then Freed(w.s, o.w.s.(current := w.s.current), T) else CountedDown(w.s, o.w.s.(current := w.s.current), T)
  {
    hide Valid, UnrefOp, Leave, UnrefStack;
    UnrefIsLegal(w, T);
    UnrefEffect(w.s, T);
    LeaveIsLegal(w.(s := UnrefStack(w.s, T)), prev);
    SameCurrent(w.s, UnrefStack(w.s, T), T);
  }

  lemma SameCurrent(s: State, s': State, T: Ptr)
    requires Freed(s, s', T) || CountedDown(s, s', T) || Cleaned(s, s', T)
    ensures s'.current == s.current
  {
  }

  lemma LeaveTryClean(w: World, T: Ptr, prev: Ptr)
    requires Valid(w.s) && w.frames != [] && T in w.s.stacks
    ensures var o := Leave(Handle(Done(w), TryCleanStack(T)), prev);
      && o.Done? && o.w.s.current == prev
      && if w.s.stacks[T].refs == 1 then Cleaned(w.s, o.w.s.(current := w.s.current), T) else CountedDown(w.s, o.w.s.(current := w.s.current), T)
  {
    hide Valid, Handle, Leave, TryClean;
    TryCleanIsLegal(w, T);
    TryCleanEffect(w.s, T);
    LeaveIsLegal(w.(s := TryClean(w.s, T)), prev);
    SameCurrent(w.s, TryClean(w.s, T), T);
  }

  lemma LeaveCount(w: World, T: Ptr, prev: Ptr)
    requires Valid(w.s) && w.frames != [] && T in w.s.stacks
    ensures var o := Leave(Handle(Done(w), NotInUse(T)), prev);
      o.Done? && o.w.s.current == prev && CountedDown(w.s, o.w.s.(current := w.s.current), T)
  {
    hide HomesOk, RefsOk, CountOk, CellsOk, CursorsOk, RegisteredOk, IterOk;
  }

  /** Whatever the body did: the end of the frame gives the stack back in the way of its
      kind, and changes nothing else but the current stack, which is the caller's again. */
  lemma FrameEnds(w: World, act: Act)
    requires Valid(w.s) && Disciplined(w) && Nested(act) && Exec(w, act).Done?
    ensures BodyEnd(w, act).Done? && BodyEnd(w, act).w.frames != []
    ensures var w2, s' := BodyEnd(w, act).w, Exec(w, act).w.s;
      var T := w2.frames[0];
      s'.current == w.s.current && Ends(act, Uses(w.frames, w.kept, T), w2.s, s'.(current := w2.s.current), T)
  {
    hide Valid, Disciplined, BodyEnd, Exec, ExecAll, Entry, Leave, Handle, UnrefOp, Uses, Freed, Cleaned, CountedDown;
    AtBodyEnd(w, act);
    var w2, prev := BodyEnd(w, act).w, w.s.current;
    var T := w2.frames[0];
    match act {
      case Call(_, Ordinary, _, _) => LeaveUnref(w2, T, prev);
      case Call(_, Trigger, _, _) => LeaveTryClean(w2, T, prev);
      case Call(_, SetReturning(last), _, _) => if last { LeaveUnref(w2, T, prev); } else { LeaveCount(w2, T, prev); }
      case Inline(_, _) => LeaveUnref(w2, T, prev);
      case Subtransaction(_, ok, _, _, outer) =>
        var e := End(w2, ok, outer, w.session);
        if ok {
          LeaveIsLegal(e.(kept := e.kept + {T}), prev);
          assert w2.s.(current := prev).(current := w2.s.current) == w2.s;
        } else {
          LeaveUnref(e, T, prev);
        }
    }
  }

  // ---------- What becomes of those who hold something there ----------

  lemma LosesHeld(s: State, s': State, h: Holder, T: Ptr)
    requires Valid(s) && Held(s, h, T) && LostExactly(s, s'.(current := s.current), s.stacks[T].items)
    ensures Lost(s, s', h)
  {
    OnStack(s, h, T);
  }

  /** The end of an inline block: its stack is gone and unregistered, and what was made on
      it reads as lost. */
  lemma InlineReleases(w: World, S: Ptr, body: seq<Act>, h: Holder)
    requires Valid(w.s) && Disciplined(w) && Exec(w, Inline(S, body)).Done?
    ensures BodyEnd(w, Inline(S, body)).Done?
    ensures var s2, s' := BodyEnd(w, Inline(S, body)).w.s, Exec(w, Inline(S, body)).w.s;
      && S in s2.stacks && S !in s'.stacks && StackRes(S) !in s'.resources && s'.cells == s2.cells
      && (Held(s2, h, S) ==> Lost(s2, s', h))
  {
    hide Valid, Disciplined, BodyEnd, Exec, Uses, LostExactly;
    FrameEnds(w, Inline(S, body));
    AtBodyEnd(w, Inline(S, body));
    var s2 := BodyEnd(w, Inline(S, body)).w.s;
    if Held(s2, h, S) { LosesHeld(s2, Exec(w, Inline(S, body)).w.s, h, S); }
  }

  /** The end of a trigger call that is not inside another use of its stack: the stack
      stays in its cell, empty, and what was made on it reads as lost. */
  lemma TriggerCleans(w: World, cell: Ptr, S: Ptr, body: seq<Act>, h: Holder)
    requires Valid(w.s) && Disciplined(w) && Exec(w, Call(cell, Trigger, S, body)).Done?
    requires cell in w.s.cells && Uses(w.frames, w.kept, w.s.cells[cell]) == 0
    ensures BodyEnd(w, Call(cell, Trigger, S, body)).Done?
    ensures var s2, s' := BodyEnd(w, Call(cell, Trigger, S, body)).w.s, Exec(w, Call(cell, Trigger, S, body)).w.s;
      && cell in s2.cells && s2.cells[cell] != NULL && s'.cells == s2.cells && s2.cells[cell] in s'.stacks
      && s'.stacks[s2.cells[cell]] == Stack(0, [], cell) && StackRes(s2.cells[cell]) in s'.resources
      && (Held(s2, h, s2.cells[cell]) ==> Lost(s2, s', h))
  {
    hide Disciplined, BodyEnd, Exec, Uses, LostExactly;
    var act := Call(cell, Trigger, S, body);
    FrameEnds(w, act);
    AtBodyEnd(w, act);
    OnlyUse(w, act);
    var w2 := BodyEnd(w, act).w;
    if Held(w2.s, h, w2.frames[0]) { LosesHeld(w2.s, Exec(w, act).w.s, h, w2.frames[0]); }
  }

  /** A function whose stack nobody used has its frame on a stack nobody else uses. */
  lemma OnlyUse(w: World, act: Act)
    requires Valid(w.s) && Disciplined(w) && act.Call? && Exec(w, act).Done?
    requires act.cell in w.s.cells && Uses(w.frames, w.kept, w.s.cells[act.cell]) == 0
    ensures BodyEnd(w, act).Done? && BodyEnd(w, act).w.frames != [] && Uses(w.frames, w.kept, BodyEnd(w, act).w.frames[0]) == 0
  {
    hide Valid, Disciplined, EnterFunction, ExecAll, Exit, Uses;
    AtBodyEnd(w, act);
    EnteredUnused(w, act.cell, act.S);
    CallEntered(w, act);
    ExecAllIsDisciplined(Entry(w, act).w, act.body);
    RestoredFrames(Entry(w, act).w, BodyEnd(w, act).w);
  }

  // ---------- From one yield to the next ----------

  /** A yield: the cell, the stack and everything on it stay; only the use is given up. */
  lemma YieldKeeps(w: World, cell: Ptr, S: Ptr, body: seq<Act>, h: Holder)
    requires Valid(w.s) && Disciplined(w) && Exec(w, Call(cell, SetReturning(false), S, body)).Done?
    ensures BodyEnd(w, Call(cell, SetReturning(false), S, body)).Done?
    ensures var s2, s' := BodyEnd(w, Call(cell, SetReturning(false), S, body)).w.s, Exec(w, Call(cell, SetReturning(false), S, body)).w.s;
      && cell in s2.cells && s2.cells[cell] != NULL && s'.cells == s2.cells && s2.cells[cell] in s2.stacks
      && s'.stacks == s2.stacks[s2.cells[cell] := s2.stacks[s2.cells[cell]].(refs := s2.stacks[s2.cells[cell]].refs - 1)]
      && s' == s2.(stacks := s'.stacks, current := w.s.current)
      && (Held(s2, h, s2.cells[cell]) ==> StillHeld(s2, s', h, s2.cells[cell]) && s'.descs[s'.owners[h]].live)
  {
    hide Valid, Disciplined, BodyEnd, Exec, Uses, Freed, Cleaned, CountedDown, Held, StillHeld;
    var act := Call(cell, SetReturning(false), S, body);
    FrameEnds(w, act);
    AtBodyEnd(w, act);
    CountKeeps(BodyEnd(w, act).w.s, Exec(w, act).w.s, h, BodyEnd(w, act).w.frames[0]);
  }

  lemma CountKeeps(s: State, s': State, h: Holder, T: Ptr)
    requires Valid(s) && CountedDown(s, s'.(current := s.current), T)
    ensures s'.stacks == s.stacks[T := s.stacks[T].(refs := s.stacks[T].refs - 1)]
    ensures s' == s.(stacks := s'.stacks, current := s'.current)
    ensures Held(s, h, T) ==> StillHeld(s, s', h, T) && s'.descs[s'.owners[h]].live
  {
    if Held(s, h, T) { HeldIsLive(s, h, T); }
  }

  /** From a yield to the call that resumes the function: whatever is called in between
      (but the function itself), what its userdata, cursors and rows held on its stack
      when it yielded they still hold, unless they let go themselves, its iterators can be
      called, and the next call runs on the same stack. */
  lemma YieldResumes(w: World, cell: Ptr, S: Ptr, body: seq<Act>, acts: seq<Act>, S': Ptr, h: Holder)
    requires Valid(w.s) && Disciplined(w) && Exec(w, Call(cell, SetReturning(false), S, body)).Done?
    requires ExecAll(Exec(w, Call(cell, SetReturning(false), S, body)).w, acts).Done?
    requires !CallsAny(acts, cell) && !ReusedByAny(acts, h)
    requires BodyEnd(w, Call(cell, SetReturning(false), S, body)).Done?
    requires var s2 := BodyEnd(w, Call(cell, SetReturning(false), S, body)).w.s; cell in s2.cells && Held(s2, h, s2.cells[cell])
    ensures var s2, w1 := BodyEnd(w, Call(cell, SetReturning(false), S, body)).w.s, Exec(w, Call(cell, SetReturning(false), S, body)).w;
      var w3, T := ExecAll(w1, acts).w, s2.cells[cell];
      && Serves(w3.s, h)
      && if LetGoAny(w1, acts, h) then Over(w3.s, h)
         else
           && EnterFunction(w3, cell, S').Done? && On(EnterFunction(w3, cell, S').w, T)
           && StillHeld(s2, EnterFunction(w3, cell, S').w.s, h, T)
  {
    hide Valid, Disciplined, BodyEnd, Exec, ExecAll, LetGoAny, Over, Serves, EnterFunction, StillHeld;
    var act := Call(cell, SetReturning(false), S, body);
    YieldKeeps(w, cell, S, body, h);
    ExecIsDisciplined(w, act);
    var s2, w1 := BodyEnd(w, act).w.s, Exec(w, act).w;
    var T := s2.cells[cell];
    HeldNow(s2, w1.s, h, T);
    SuspendedKeeps(w1, acts, cell, h);
    if !LetGoAny(w1, acts, h) {
      ExecAllIsDisciplined(w1, acts);
      var w3 := ExecAll(w1, acts).w;
      HeldTrans(s2, w1.s, w3.s, h, T);
      HeldNow(w1.s, w3.s, h, T);
      Resumes(w3, cell, S', T);
      EnterFunctionHeld(w3, cell, S', h, T);
      HeldTrans(s2, w3.s, EnterFunction(w3, cell, S').w.s, h, T);
    }
  }

  /** A function whose cell leads to a stack is entered on that stack. */
  lemma Resumes(w: World, cell: Ptr, S': Ptr, T: Ptr)
    requires Valid(w.s) && Disciplined(w) && cell in w.s.cells && w.s.cells[cell] == T && T != NULL
    ensures EnterFunction(w, cell, S').Done? && On(EnterFunction(w, cell, S').w, T)
  {
    hide Disciplined, Enter;
    CellLeads(w.s, cell);
    EnterIsDisciplined(w, T);
    InsideIsDisciplined(w, Enter(w, T).w, T);
  }
}
