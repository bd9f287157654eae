/** Call frames: functions, triggers, set-returning functions, inline blocks and
    subtransactions, nested in any way, each putting its own descriptor stack in place of
    the current one and taking it away again. */
module Frames {
  import opened Memory
  import opened Ledger
  import opened LedgerProofs
  import opened CursorProofs
  import opened Sweep
  import opened Runs

  /** A change to the database. */
  type Write = int

  datatype Kind = Ordinary | Trigger | SetReturning(last: bool)

  /** CurrentMemoryContext and CurrentResourceOwner. */
  datatype Session = Session(context: nat, owner: nat)

  /** What a Lua body does.  S is the address palloc returns if a stack is allocated.  A
      body that fails in a subtransaction raises its error in the body itself, after the
      acts listed.  inner and outer are the values PostgreSQL sets when it starts and
      ends the internal subtransaction. */
  datatype Act =
    | Perform(op: Op)
    | Change(write: Write)
    | Call(cell: Ptr, kind: Kind, S: Ptr, body: seq<Act>)
    | Inline(S: Ptr, body: seq<Act>)
    | Subtransaction(S: Ptr, ok: bool, body: seq<Act>, inner: Session, outer: Session)

  /** The ledger, and what the frames add to it: which stacks are in use by an active
      frame, innermost first; the stacks that successful subtransactions leave in use;
      the database's changes with the savepoints that are set in them. */
  datatype World = World(
    s: State,
    frames: seq<Ptr>,
    kept: set<Ptr>,
    writes: seq<Write>,
    savepoints: seq<nat>,
    session: Session)

  /** Refused: the acts are not ones a body can perform.  Broken: a body made a call that
      breaks the memory (Runs.Breaks).  Fault: a frame operation would touch a stack that
      is not there. */
  datatype Outcome = Done(w: World) | Refused | Broken(op: Op) | Fault

  /** A handler's operation on a stack. */
  ghost function Handle(o: Outcome, op: Op): (r: Outcome)
    requires o.Done? ==> Valid(o.w.s)
    ensures r.Done? ==> Valid(r.w.s) && o.Done? && r.w.writes == o.w.writes
  {
    if !o.Done? then o
    else if Legal(o.w.s, op) then Done(o.w.(s := Step(o.w.s, op)))
    else Fault
  }

  /** rtds_inuse and rtds_set_current. */
  ghost function Enter(w: World, S: Ptr): (r: Outcome)
    requires Valid(w.s)
    ensures r.Done? ==> Valid(r.w.s) && r.w.writes == w.writes
  {
    Handle(Handle(Done(w.(frames := [S] + w.frames)), InUse(S)), SetCurrent(S))
  }

  /** rtds_set_current(prev), the frame is over. */
  ghost function Leave(o: Outcome, prev: Ptr): (r: Outcome)
    requires o.Done? ==> Valid(o.w.s)
    ensures r.Done? ==> Valid(r.w.s) && o.Done? && r.w.writes == o.w.writes
  {
    if !o.Done? then o
    else if o.w.frames == [] then Fault
    else Handle(Done(o.w.(frames := o.w.frames[1..])), SetCurrent(prev))
  }

  /** A new stack, if palloc can return S. */
  ghost function Allocate(w: World, S: Ptr, cell: Ptr): (r: Outcome)
    requires Valid(w.s)
    ensures r != Fault && (r.Done? ==> Valid(r.w.s) && r.w.writes == w.writes)
  {
    if Legal(w.s, InitStack(S, cell)) then Done(w.(s := Step(w.s, InitStack(S, cell)))) else Refused
  }

  /** luaP_callhandler up to the call: the function's weak stack, made if it has none. */
  ghost function EnterFunction(w: World, cell: Ptr, S: Ptr): (r: Outcome)
    requires Valid(w.s)
    ensures r.Done? ==> Valid(r.w.s) && r.w.writes == w.writes
  {
    if cell !in w.s.cells then Refused
    else if w.s.cells[cell] != NULL then Enter(w, w.s.cells[cell])
    else
      var o := Allocate(w, S, cell);
      if o.Done? then Enter(o.w, S) else o
  }

  /** rtds_unref of what p points to. */
  ghost function UnrefOp(o: Outcome, p: Ptr): (r: Outcome)
    requires o.Done? ==> Valid(o.w.s)
    ensures r.Done? ==> Valid(r.w.s) && o.Done? && r.w.writes == o.w.writes
  {
    Handle(Handle(o, NotInUse(p)), FreeStack(p))
  }

  /** luaP_callhandler from the call on: each kind gives up its use in its own way. */
  ghost function ExitFunction(w: World, cell: Ptr, kind: Kind, prev: Ptr): (r: Outcome)
    requires Valid(w.s)
    ensures r.Done? ==> Valid(r.w.s) && r.w.writes == w.writes
  {
    if cell !in w.s.cells then Fault
    else
      var wp := w.s.cells[cell];
      match kind
      case Ordinary => Leave(UnrefOp(Done(w), wp), prev)
      case Trigger => Leave(Handle(Done(w), TryCleanStack(w.s.current)), prev)
      case SetReturning(last) =>
        Leave(if last then UnrefOp(Done(w), wp) else Handle(Done(w), NotInUse(wp)), prev)
  }

  /** stb_enter: a savepoint; the memory context stays the caller's. */
  function Begin(w: World, inner: Session): World {
    w.(savepoints := w.savepoints + [|w.writes|], session := Session(w.session.context, inner.owner))
  }

  /** stb_exit: release or roll back, then put context and owner back. */
  function End(w: World, ok: bool, outer: Session, saved: Session): World {
    var n := |w.savepoints| - 1;
    if n < 0 then w
    else
      var mark := w.savepoints[n];
      var w1 := w.(savepoints := w.savepoints[..n],
                   writes := if ok || mark > |w.writes| then w.writes else w.writes[..mark],
                   session := outer);
      w1.(session := Session(saved.context, saved.owner))
  }

  /** The end of WRAP_SUBTRANSACTION: only a failure gives the stack up. */
  ghost function ExitSubtransaction(w: World, S: Ptr, ok: bool, prev: Ptr): (r: Outcome)
    requires Valid(w.s)
    ensures r.Done? ==> Valid(r.w.s) && r.w.writes == w.writes
  {
    if ok then Leave(Done(w.(kept := w.kept + {S})), prev) else Leave(UnrefOp(Done(w), S), prev)
  }

  /** A new stack that no cell leads to, entered. */
  ghost function EnterStrong(w: World, S: Ptr): (r: Outcome)
    requires Valid(w.s)
    ensures r.Done? ==> Valid(r.w.s) && r.w.writes == w.writes
  {
    var made := Allocate(w, S, NULL);
    if made.Done? then Enter(made.w, S) else made
  }

  predicate Nested(act: Act) {
    act.Call? || act.Inline? || act.Subtransaction?
  }

  /** The world in which the body of act starts. */
  ghost function Entry(w: World, act: Act): (r: Outcome)
    requires Valid(w.s) && Nested(act)
    ensures r.Done? ==> Valid(r.w.s) && r.w.writes == w.writes
  {
    match act
    case Call(cell, _, S, _) => EnterFunction(w, cell, S)
    case Inline(S, _) => EnterStrong(w, S)
    case Subtransaction(S, _, _, inner, _) =>
      var o := EnterStrong(w, S);
      if o.Done? then Done(Begin(o.w, inner)) else o
  }

  /** After the body: w is the world act started from, w2 the one its body left. */
  ghost function Exit(w: World, act: Act, w2: World): (r: Outcome)
    requires Valid(w2.s) && Nested(act)
    ensures r.Done? ==> Valid(r.w.s)
  {
    match act
    case Call(cell, kind, _, _) => ExitFunction(w2, cell, kind, w.s.current)
    case Inline(S, _) => Leave(UnrefOp(Done(w2), S), w.s.current)
    case Subtransaction(S, ok, _, _, outer) =>
      ExitSubtransaction(End(w2, ok, outer, w.session), S, ok, w.s.current)
  }

  ghost function Exec(w: World, act: Act): (r: Outcome)
    requires Valid(w.s)
    ensures r.Done? ==> Valid(r.w.s)
    decreases act
  {
    match act
    case Perform(op) =>
      if !BodyOp(op) || !Callable(w.s, op) then Refused
      else if Breaks(w.s, op) then Broken(op)
      else LegalIs(w.s, op); Done(w.(s := Step(w.s, op)))
    case Change(e) => Done(w.(writes := w.writes + [e]))
    case _ =>
      var entered := Entry(w, act);
      if !entered.Done? then entered
      else
        var o := ExecAll(entered.w, act.body);
        if o.Done? then Exit(w, act, o.w) else o
  }

  ghost function ExecAll(w: World, acts: seq<Act>): (r: Outcome)
    requires Valid(w.s)
    ensures r.Done? ==> Valid(r.w.s)
    decreases acts
  {
    if acts == [] then Done(w)
    else
      var o := Exec(w, acts[0]);
      if o.Done? then ExecAll(o.w, acts[1..]) else o
  }

  // ---------- The discipline ----------

  function Uses(frames: seq<Ptr>, kept: set<Ptr>, S: Ptr): nat {
    multiset(frames)[S] + if S in kept then 1 else 0
  }

  ghost predicate Counted(stacks: map<Ptr, Stack>, frames: seq<Ptr>, kept: set<Ptr>, S: Ptr)
    requires S in stacks
  {
    stacks[S].refs == Uses(frames, kept, S)
  }

  /** Every stack's count is its number of active frames, plus one if a successful
      subtransaction left it in use; current is the innermost frame's stack. */
  ghost predicate Disciplined(w: World) {
    && (forall S :: S in w.frames || S in w.kept ==> S in w.s.stacks)
    && (forall S {:trigger Counted(w.s.stacks, w.frames, w.kept, S)} :: S in w.s.stacks ==> Counted(w.s.stacks, w.frames, w.kept, S))
    && w.s.current == if w.frames == [] then NULL else w.frames[0]
  }

  /** What any acts leave as it was: frames, current, savepoints, context and owner; a
      stack that was in use is still there and belongs to the same cell. */
  ghost predicate Restored(w: World, w': World) {
    && w'.frames == w.frames && w'.s.current == w.s.current && w.kept <= w'.kept
    && w'.savepoints == w.savepoints && w'.session == w.session
    && w'.s.cells.Keys == w.s.cells.Keys
    && (forall S {:trigger StillThere(w, w', S)} :: S in w.s.stacks && Uses(w.frames, w.kept, S) > 0 ==> StillThere(w, w', S))
  }

  ghost predicate StillThere(w: World, w': World, S: Ptr)
    requires S in w.s.stacks
  {
    && S in w'.s.stacks && w'.s.stacks[S].cell == w.s.stacks[S].cell
    && (S in w'.kept <==> S in w.kept)
  }

  /** Counts, cells and the current stack are not touched. */
  ghost predicate StacksKept(s: State, s': State) {
    && s'.stacks.Keys == s.stacks.Keys && s'.cells == s.cells && s'.current == s.current
    && forall S {:trigger s'.stacks[S]} :: S in s.stacks ==> s'.stacks[S].refs == s.stacks[S].refs && s'.stacks[S].cell == s.stacks[S].cell
  }

  lemma ReleaseStacks(s: State, d: Ptr)
    requires d in s.descs && (s.descs[d].home != NULL ==> s.descs[d].home in s.stacks)
    ensures StacksKept(s, Release(s, d))
  {
    ReleaseFrame(s, d);
  }

  lemma NextStacks(s: State, c: Ptr, d: Ptr, rs: seq<Ptr>)
    requires Valid(s) && CanFetch(s, c, d, rs)
    ensures StacksKept(s, NextRow(s, c, d, rs).0)
  {
    if !NeedsFetch(s, c) {
    } else if s.cursors[c].portal.value == [] {
      var h := ByCursor(c);
      if h in s.owners { ReleaseStacks(Forget(s, h), s.owners[h]); }
    } else {
      StartStacks(s, c, d);
      AddRowsFrame(Started(s, c, d), c, rs, Batch(s.cursors[c].portal.value));
    }
  }

  lemma StartStacks(s: State, c: Ptr, d: Ptr)
    requires c in s.cursors && s.cursors[c].portal.Some? && (s.cursors[c].desc == NULL ==> CurrentOk(s))
    ensures StacksKept(s, Started(s, c, d))
  {
  }

  lemma CleanupStacks(s: State, c: Ptr)
    requires Sound(s) && c in s.cursors
    ensures StacksKept(s, Cleanup(s, c))
  {
    CleanupFrame(s, c);
    if HasQueue(s.cursors, c) {
      CleanupForm(s, c);
      ReleaseStacks(s, s.cursors[c].desc);
    }
  }

  lemma DescOpStacks(s: State, op: Op)
    requires Valid(s) && Legal(s, op)
    requires op.MakeDesc? || op.RefDesc? || op.UnrefDesc? || op.LoseDesc?
    ensures StacksKept(s, Step(s, op))
  {
    if op.UnrefDesc? { ReleaseStacks(Forget(s, op.h), s.owners[op.h]); }
  }

  lemma CursorOpStacks(s: State, op: Op)
    requires Valid(s) && Legal(s, op)
    requires op.Open? || op.Close? || op.CollectRow? || op.CollectCursor?
    ensures StacksKept(s, Step(s, op))
  {
    match op
    case CollectRow(r) => ReleaseStacks(Forget(s, ByRow(r)), s.owners[ByRow(r)]);
    case CollectCursor(c) => if HasQueue(s.cursors, c) { CleanupStacks(s, c); }
    case _ =>
  }

  lemma BodyStacks(s: State, op: Op)
    requires Valid(s) && BodyOp(op) && Legal(s, op)
    ensures StacksKept(s, Step(s, op))
  {
    hide StacksKept, HomesOk, RefsOk, CountOk, CellsOk, CursorsOk, IterOk;
    if op.MakeDesc? || op.RefDesc? || op.UnrefDesc? || op.LoseDesc? {
      DescOpStacks(s, op);
    } else if op.Next? {
      NextStacks(s, op.c, op.d, op.rs);
    } else {
      CursorOpStacks(s, op);
    }
  }

  lemma PerformIsDisciplined(w: World, op: Op)
    requires Valid(w.s) && Disciplined(w) && BodyOp(op) && Legal(w.s, op)
    ensures var w' := w.(s := Step(w.s, op)); Disciplined(w') && Restored(w, w')
  {
    hide Valid, Legal, Step;
    var w' := w.(s := Step(w.s, op));
    BodyStacks(w.s, op);
    forall S | S in w'.s.stacks ensures Counted(w'.s.stacks, w.frames, w.kept, S) {
      assert Counted(w.s.stacks, w.frames, w.kept, S);
    }
  }

  // ---------- Entering and leaving ----------

  /** The world inside a frame on S, entered from w. */
  ghost predicate Inside(w: World, w': World, S: Ptr) {
    && Disciplined(w') && w'.frames == [S] + w.frames && w'.kept == w.kept
    && w'.writes == w.writes && w'.savepoints == w.savepoints && w'.session == w.session
    && w'.s.cells.Keys == w.s.cells.Keys
    && (forall T {:trigger StillThere(w, w', T)} :: T in w.s.stacks ==> StillThere(w, w', T))
  }

  lemma EnterIsDisciplined(w: World, S: Ptr)
    requires Valid(w.s) && Disciplined(w) && S in w.s.stacks && S != NULL
    ensures Enter(w, S).Done? && Inside(w, Enter(w, S).w, S)
    ensures Enter(w, S).w.s.stacks.Keys == w.s.stacks.Keys && Enter(w, S).w.s.cells == w.s.cells
  {
    var w' := Enter(w, S).w;
    forall T | T in w'.s.stacks ensures Counted(w'.s.stacks, w'.frames, w.kept, T) && StillThere(w, w', T) {
      assert Counted(w.s.stacks, w.frames, w.kept, T);
    }
  }

  lemma AllocateIsDisciplined(w: World, S: Ptr, cell: Ptr)
    requires Valid(w.s) && Disciplined(w) && Allocate(w, S, cell).Done?
    ensures var w' := Allocate(w, S, cell).w;
      && S != NULL && S !in w.s.stacks && Uses(w.frames, w.kept, S) == 0
      && Disciplined(w') && w' == w.(s := w'.s)
      && w'.s == NewStack(w.s, S, cell)
  {
    hide Valid;
    var w' := Allocate(w, S, cell).w;
    forall T | T in w'.s.stacks ensures Counted(w'.s.stacks, w.frames, w.kept, T) {
      if T != S { assert Counted(w.s.stacks, w.frames, w.kept, T); }
    }
  }

  /** A strong stack is allocated and entered. */
  lemma EnterNew(w: World, S: Ptr, cell: Ptr)
    requires Valid(w.s) && Disciplined(w) && Allocate(w, S, cell).Done? && (cell != NULL ==> cell in w.s.cells)
    ensures var o := Enter(Allocate(w, S, cell).w, S);
      && o.Done? && Inside(w, o.w, S) && S != NULL && S in o.w.s.stacks && o.w.s.stacks[S].cell == cell
      && S !in w.s.stacks && Uses(w.frames, w.kept, S) == 0
  {
    hide Valid, Disciplined, Enter;
    AllocateIsDisciplined(w, S, cell);
    var w1 := Allocate(w, S, cell).w;
    EnterIsDisciplined(w1, S);
    var w' := Enter(w1, S).w;
    assert StillThere(w1, w', S);
    forall T | T in w.s.stacks ensures StillThere(w, w', T) { assert StillThere(w1, w', T); }
  }

  lemma EnterFunctionIsDisciplined(w: World, cell: Ptr, S: Ptr)
    requires Valid(w.s) && Disciplined(w)
    ensures var o := EnterFunction(w, cell, S);
      && o != Fault
      && (o.Done? ==>
           && o.w.frames != [] && cell != NULL && cell in w.s.cells
           && var T := o.w.frames[0]; T != NULL && Inside(w, o.w, T) && T in o.w.s.stacks && o.w.s.stacks[T].cell == cell)
  {
    hide Disciplined, Enter;
    if cell in w.s.cells {
      if w.s.cells[cell] != NULL {
        assert CellTo(w.s.cells, w.s.stacks, cell);
        var T := w.s.cells[cell];
        EnterIsDisciplined(w, T);
        assert StillThere(w, Enter(w, T).w, T);
      } else if Allocate(w, S, cell).Done? {
        EnterNew(w, S, cell);
      }
    }
  }

  /** The world after a frame on S is left: everything else as before. */
  ghost predicate Left(w: World, w': World) {
    && w.frames != [] && Disciplined(w') && w'.frames == w.frames[1..] && w'.kept == w.kept
    && w'.writes == w.writes && w'.savepoints == w.savepoints && w'.session == w.session
    && w'.s.cells.Keys == w.s.cells.Keys
    && (forall T {:trigger StillThere(w, w', T)} :: T in w.s.stacks && Uses(w'.frames, w'.kept, T) > 0 ==> StillThere(w, w', T))
  }

  predicate Outer(frames: seq<Ptr>, prev: Ptr)
    requires frames != []
  {
    prev == if frames[1..] == [] then NULL else frames[1]
  }

  lemma UsesOuter(frames: seq<Ptr>, kept: set<Ptr>, T: Ptr)
    requires frames != []
    ensures Uses(frames, kept, T) == Uses(frames[1..], kept, T) + if T == frames[0] then 1 else 0
  {
    assert frames == [frames[0]] + frames[1..];
  }

  /** Giving up the use by count alone. */
  lemma LeaveByCount(w: World, prev: Ptr)
    requires Valid(w.s) && Disciplined(w) && w.frames != [] && Outer(w.frames, prev)
    ensures var o := Leave(Handle(Done(w), NotInUse(w.frames[0])), prev); o.Done? && Left(w, o.w)
  {
    var S := w.frames[0];
    var w' := Leave(Handle(Done(w), NotInUse(S)), prev).w;
    forall T | T in w'.s.stacks ensures Counted(w'.s.stacks, w'.frames, w.kept, T) && StillThere(w, w', T) {
      UsesOuter(w.frames, w.kept, T);
      assert Counted(w.s.stacks, w.frames, w.kept, T);
    }
  }

  lemma TryCleanIsLegal(w: World, S: Ptr)
    requires Valid(w.s) && S in w.s.stacks
    ensures Handle(Done(w), TryCleanStack(S)) == Done(w.(s := TryClean(w.s, S))) && Valid(TryClean(w.s, S))
    ensures var s' := TryClean(w.s, S);
      && s'.stacks.Keys == w.s.stacks.Keys && s'.cells == w.s.cells && s'.current == w.s.current
      && s'.stacks[S].refs == w.s.stacks[S].refs - 1 && s'.stacks[S].cell == w.s.stacks[S].cell
      && (forall T {:trigger s'.stacks[T]} :: T in w.s.stacks && T != S ==> s'.stacks[T] == w.s.stacks[T])
  {
    hide HomesOk, RefsOk, CountOk, CellsOk, CursorsOk, IterOk;
  }

  /** The trigger's way: clean the stack when that was its last use. */
  lemma LeaveByTryClean(w: World, prev: Ptr)
    requires Valid(w.s) && Disciplined(w) && w.frames != [] && Outer(w.frames, prev)
    ensures w.s.current == w.frames[0]
    ensures var o := Leave(Handle(Done(w), TryCleanStack(w.s.current)), prev); o.Done? && Left(w, o.w)
  {
    hide TryClean, Valid, Handle, Leave, Uses;
    var S := w.frames[0];
    TryCleanIsLegal(w, S);
    LeaveIsLegal(w.(s := TryClean(w.s, S)), prev);
    var w' := Leave(Handle(Done(w), TryCleanStack(S)), prev).w;
    forall T | T in w'.s.stacks ensures Counted(w'.s.stacks, w'.frames, w.kept, T) && StillThere(w, w', T) {
      UsesOuter(w.frames, w.kept, T);
      assert Counted(w.s.stacks, w.frames, w.kept, T);
    }
  }

  lemma UnrefIsLegal(w: World, S: Ptr)
    requires Valid(w.s) && S in w.s.stacks
    ensures UnrefOp(Done(w), S) == Done(w.(s := UnrefStack(w.s, S))) && Valid(UnrefStack(w.s, S))
  {
    hide HomesOk, RefsOk, CountOk, CellsOk, CursorsOk, IterOk, FreeIfNotUsed;
  }

  lemma CellOf(s: State, S: Ptr)
    requires Valid(s) && S in s.stacks && s.stacks[S].cell != NULL
    ensures s.stacks[S].cell in s.cells && s.cells[s.stacks[S].cell] == S
  {
    assert CellFrom(s.cells, s.stacks, S);
  }

  lemma UnrefForm(s: State, S: Ptr)
    requires S in s.stacks
    ensures var s' := UnrefStack(s, S);
      && s'.current == s.current
      && s'.cells == (if s.stacks[S].refs == 1 && s.stacks[S].cell != NULL then s.cells[s.stacks[S].cell := NULL] else s.cells)
      && s'.stacks == if s.stacks[S].refs == 1 then s.stacks - {S} else s.stacks[S := s.stacks[S].(refs := s.stacks[S].refs - 1)]
  {
    var s1 := SetRefs(s, S, s.stacks[S].refs - 1);
    if s1.stacks[S].refs == 0 {
      DismantleForm(s1, S);
      assert s1.stacks - {S} == s.stacks - {S};
    }
  }

  lemma LeaveIsLegal(w: World, prev: Ptr)
    requires Valid(w.s) && w.frames != []
    ensures var o := Leave(Done(w), prev); o.Done? && o.w == w.(frames := w.frames[1..], s := w.s.(current := prev))
  {
  }

  /** rtds_unref: the stack goes when that was its last use. */
  lemma LeaveByUnref(w: World, prev: Ptr)
    requires Valid(w.s) && Disciplined(w) && w.frames != [] && Outer(w.frames, prev)
    ensures var o := Leave(UnrefOp(Done(w), w.frames[0]), prev); o.Done? && Left(w, o.w)
    ensures var o := Leave(UnrefOp(Done(w), w.frames[0]), prev);
      Uses(w.frames[1..], w.kept, w.frames[0]) == 0 ==> w.frames[0] !in o.w.s.stacks
  {
    hide UnrefStack, Valid, UnrefOp, Leave, Uses;
    var S := w.frames[0];
    if w.s.stacks[S].cell != NULL { CellOf(w.s, S); }
    UnrefIsLegal(w, S);
    UnrefForm(w.s, S);
    LeaveIsLegal(w.(s := UnrefStack(w.s, S)), prev);
    var w' := Leave(UnrefOp(Done(w), S), prev).w;
    UsesOuter(w.frames, w.kept, S);
    assert Counted(w.s.stacks, w.frames, w.kept, S);
    forall T | T in w'.s.stacks ensures Counted(w'.s.stacks, w'.frames, w.kept, T) {
      UsesOuter(w.frames, w.kept, T);
      assert Counted(w.s.stacks, w.frames, w.kept, T);
    }
    forall T | T in w.s.stacks && Uses(w'.frames, w.kept, T) > 0 ensures StillThere(w, w', T) {}
    forall T | T in w'.frames || T in w'.kept ensures T in w'.s.stacks { UsedIs(w'.frames, w'.kept, T); }
  }

  lemma UsedIs(frames: seq<Ptr>, kept: set<Ptr>, T: Ptr)
    ensures T in frames || T in kept <==> Uses(frames, kept, T) > 0
  {
  }

  /** A successful subtransaction keeps its use. */
  lemma LeaveByKeeping(w: World, prev: Ptr)
    requires Valid(w.s) && Disciplined(w) && w.frames != [] && Outer(w.frames, prev)
    requires Uses(w.frames[1..], w.kept, w.frames[0]) == 0
    ensures var S := w.frames[0]; var o := Leave(Done(w.(kept := w.kept + {S})), prev);
      && o.Done? && Disciplined(o.w) && o.w == w.(frames := w.frames[1..], kept := w.kept + {S}, s := o.w.s)
      && o.w.s == w.s.(current := prev)
  {
    hide Valid, Leave;
    var S := w.frames[0];
    LeaveIsLegal(w.(kept := w.kept + {S}), prev);
    var w' := Leave(Done(w.(kept := w.kept + {S})), prev).w;
    forall T | T in w'.s.stacks ensures Counted(w'.s.stacks, w'.frames, w'.kept, T) {
      UsesOuter(w.frames, w.kept, T);
      assert Counted(w.s.stacks, w.frames, w.kept, T);
    }
    forall T | T in w'.frames || T in w'.kept ensures T in w'.s.stacks { assert T in w.frames || T in w.kept; }
  }

  // ---------- The error exit ----------

  /** luaP_callhandler when an ordinary function raises an error: the stack is given up,
      and luaP_cleantrigger gives it up once more through current, which nobody has put
      back. */
  ghost function FailFunction(w: World, cell: Ptr): Outcome
    requires Valid(w.s)
  {
    if cell !in w.s.cells then Fault
    else Handle(UnrefOp(Done(w), w.s.cells[cell]), TryCleanStack(w.s.current))
  }

  /** The error exit is never right: if no other frame uses the function's stack it cleans
      a stack that has just been freed, and otherwise it leaves the count one too low. */
  lemma ErrorExit(w: World, cell: Ptr)
    requires Valid(w.s) && Disciplined(w) && w.frames != [] && cell in w.s.cells && w.s.cells[cell] == w.frames[0]
    ensures var o, S, others := FailFunction(w, cell), w.frames[0], Uses(w.frames[1..], w.kept, w.frames[0]);
      && (o == Fault <==> others == 0)
      && (others > 0 ==> o.Done? && S in o.w.s.stacks && o.w.s.stacks[S].refs == others - 1 && o.w.s.current == S)
  {
    hide Valid, UnrefOp, UnrefStack, TryClean, Uses;
    var S := w.frames[0];
    UsesOuter(w.frames, w.kept, S);
    assert Counted(w.s.stacks, w.frames, w.kept, S);
    UnrefIsLegal(w, S);
    UnrefForm(w.s, S);
    var w1 := w.(s := UnrefStack(w.s, S));
    if S in w1.s.stacks { TryCleanIsLegal(w1, S); }
  }

  // ---------- Every tree of calls ----------

  /** Before the frame, inside it, at the end of its body, after it. */
  lemma FrameRestores(w: World, w1: World, w2: World, w3: World, S: Ptr)
    requires Disciplined(w) && Inside(w, w1, S) && Restored(w1, w2) && Disciplined(w2) && Left(w2, w3)
    ensures Disciplined(w3) && Restored(w, w3)
  {
    assert w3.frames == w.frames;
    forall T | T in w.s.stacks && Uses(w.frames, w.kept, T) > 0 ensures StillThere(w, w3, T) {
      assert StillThere(w, w1, T);
      UsesOuter(w1.frames, w1.kept, T);
      assert StillThere(w1, w2, T);
      assert StillThere(w2, w3, T);
    }
  }

  /** The same, for what happens between savepoint and release. */
  ghost predicate Bracketed(w: World, w': World) {
    w'.s == w.s && w'.frames == w.frames && w'.kept == w.kept
  }

  lemma OuterOf(w: World, frames: seq<Ptr>, S: Ptr)
    requires Disciplined(w) && frames == [S] + w.frames
    ensures frames[1..] == w.frames && Outer(frames, w.s.current)
  {
  }

  /** The body has run in a frame on T entered through its cell: whatever the kind, the
      frame is left and everything is restored. */
  lemma CallExits(w: World, w1: World, w2: World, T: Ptr, cell: Ptr, kind: Kind)
    requires Valid(w.s) && Disciplined(w) && Inside(w, w1, T) && T in w1.s.stacks
    requires cell != NULL && w1.s.stacks[T].cell == cell
    requires Valid(w2.s) && Disciplined(w2) && Restored(w1, w2)
    ensures cell in w2.s.cells && w2.s.cells[cell] == T && w2.s.current == T
    ensures var o := ExitFunction(w2, cell, kind, w.s.current); o.Done? && Disciplined(o.w) && Restored(w, o.w)
  {
    hide Valid, Disciplined, Left, Leave, UnrefOp, Handle;
    UsesOuter(w1.frames, w1.kept, T);
    assert StillThere(w1, w2, T);
    CellOf(w2.s, T);
    OuterOf(w, w2.frames, T);
    TopIsCurrent(w2);
    match kind {
      case Ordinary => LeaveByUnref(w2, w.s.current);
      case Trigger => LeaveByTryClean(w2, w.s.current);
      case SetReturning(last) => if last { LeaveByUnref(w2, w.s.current); } else { LeaveByCount(w2, w.s.current); }
    }
    FrameRestores(w, w1, w2, ExitFunction(w2, cell, kind, w.s.current).w, T);
  }

  lemma TopIsCurrent(w: World)
    requires Disciplined(w) && w.frames != []
    ensures w.s.current == w.frames[0]
  {
  }

  lemma CallIsDisciplined(w: World, act: Act)
    requires Valid(w.s) && Disciplined(w) && act.Call?
    ensures Exec(w, act) != Fault
    ensures Exec(w, act).Done? ==> Disciplined(Exec(w, act).w) && Restored(w, Exec(w, act).w)
    decreases act, 0
  {
    hide Valid, Disciplined, Restored, Inside, EnterFunction, ExitFunction, ExecAll;
    EnterFunctionIsDisciplined(w, act.cell, act.S);
    var entered := EnterFunction(w, act.cell, act.S);
    if entered.Done? {
      InsideIsDisciplined(w, entered.w, entered.w.frames[0]);
      ExecAllIsDisciplined(entered.w, act.body);
      var o := ExecAll(entered.w, act.body);
      if o.Done? { CallExits(w, entered.w, o.w, entered.w.frames[0], act.cell, act.kind); }
    }
  }

  lemma InsideIsDisciplined(w: World, w': World, S: Ptr)
    requires Inside(w, w', S)
    ensures Disciplined(w') && w'.frames == [S] + w.frames
  {
  }

  lemma InlineIsDisciplined(w: World, act: Act)
    requires Valid(w.s) && Disciplined(w) && act.Inline?
    ensures Exec(w, act) != Fault
    ensures Exec(w, act).Done? ==> Disciplined(Exec(w, act).w) && Restored(w, Exec(w, act).w)
    decreases act, 0
  {
    hide Valid, Disciplined, Restored, Inside, Allocate, Enter, Leave, UnrefOp, ExecAll;
    if Allocate(w, act.S, NULL).Done? {
      EnterNew(w, act.S, NULL);
      var w1 := Enter(Allocate(w, act.S, NULL).w, act.S).w;
      InsideIsDisciplined(w, w1, act.S);
      ExecAllIsDisciplined(w1, act.body);
      var o := ExecAll(w1, act.body);
      if o.Done? {
        RestoredFrames(w1, o.w);
        OuterOf(w, o.w.frames, act.S);
        LeaveByUnref(o.w, w.s.current);
        FrameRestores(w, w1, o.w, Leave(UnrefOp(o, act.S), w.s.current).w, act.S);
      }
    }
  }

  lemma RestoredFrames(w: World, w': World)
    requires Restored(w, w')
    ensures w'.frames == w.frames
  {
  }

  /** The body of a subtransaction has run: the savepoint is gone, context and owner are
      those of the caller, on both outcomes. */
  lemma SubtransactionExits(w: World, w1: World, w2: World, act: Act)
    requires Valid(w.s) && Disciplined(w) && act.Subtransaction? && Inside(w, w1, act.S)
    requires Uses(w.frames, w.kept, act.S) == 0 && act.S !in w.s.stacks && act.S in w1.s.stacks
    requires Valid(w2.s) && Disciplined(w2) && Restored(Begin(w1, act.inner), w2)
    ensures var o := ExitSubtransaction(End(w2, act.ok, act.outer, w.session), act.S, act.ok, w.s.current);
      o.Done? && Disciplined(o.w) && Restored(w, o.w)
  {
    hide Valid, Leave, UnrefOp;
    var S, b, e := act.S, Begin(w1, act.inner), End(w2, act.ok, act.outer, w.session);
    assert e.savepoints == w.savepoints && e.session == w.session && Bracketed(w2, e);
    OuterOf(w, e.frames, S);
    UsesOuter(w1.frames, w1.kept, S);
    assert StillThere(b, w2, S);
    UsesOuter(e.frames, e.kept, S);
    if act.ok { LeaveByKeeping(e, w.s.current); } else { LeaveByUnref(e, w.s.current); }
    var w3 := ExitSubtransaction(e, S, act.ok, w.s.current).w;
    forall T | T in w.s.stacks && Uses(w.frames, w.kept, T) > 0 ensures StillThere(w, w3, T) {
      assert StillThere(w, w1, T);
      UsesOuter(w1.frames, w1.kept, T);
      assert StillThere(b, w2, T);
      assert !act.ok ==> StillThere(e, w3, T);
    }
  }

  lemma SubtransactionIsDisciplined(w: World, act: Act)
    requires Valid(w.s) && Disciplined(w) && act.Subtransaction?
    ensures Exec(w, act) != Fault
    ensures Exec(w, act).Done? ==> Disciplined(Exec(w, act).w) && Restored(w, Exec(w, act).w)
    decreases act, 0
  {
    hide Valid, Disciplined, Restored, Inside, Allocate, Enter, ExitSubtransaction, End, ExecAll, Uses;
    if Allocate(w, act.S, NULL).Done? {
      EnterNew(w, act.S, NULL);
      var w1 := Enter(Allocate(w, act.S, NULL).w, act.S).w;
      InsideIsDisciplined(w, w1, act.S);
      BeginIsDisciplined(w1, act.inner);
      ExecAllIsDisciplined(Begin(w1, act.inner), act.body);
      var o := ExecAll(Begin(w1, act.inner), act.body);
      if o.Done? { SubtransactionExits(w, w1, o.w, act); }
    }
  }

  lemma BeginIsDisciplined(w: World, inner: Session)
    requires Disciplined(w)
    ensures Disciplined(Begin(w, inner)) && Begin(w, inner).s == w.s
  {
  }

  /** No tree of calls faults, and each leaves frames, counts, the current stack,
      savepoints, memory context and resource owner as it found them. */
  lemma {:induction false} ExecIsDisciplined(w: World, act: Act)
    requires Valid(w.s) && Disciplined(w)
    ensures Exec(w, act) != Fault
    ensures Exec(w, act).Done? ==> Disciplined(Exec(w, act).w) && Restored(w, Exec(w, act).w)
    decreases act, 1
  {
    hide Valid;
    match act
    case Perform(op) =>
      LegalIs(w.s, op);
      if BodyOp(op) && Legal(w.s, op) { PerformIsDisciplined(w, op); }
    case Change(e) => ChangeIsDisciplined(w, e);
    case Call(_, _, _, _) => CallIsDisciplined(w, act);
    case Inline(_, _) => InlineIsDisciplined(w, act);
    case Subtransaction(_, _, _, _, _) => SubtransactionIsDisciplined(w, act);
  }

  lemma ChangeIsDisciplined(w: World, e: Write)
    requires Disciplined(w)
    ensures Disciplined(w.(writes := w.writes + [e])) && Restored(w, w.(writes := w.writes + [e]))
  {
  }

  lemma {:induction false} ExecAllIsDisciplined(w: World, acts: seq<Act>)
    requires Valid(w.s) && Disciplined(w)
    ensures ExecAll(w, acts) != Fault
    ensures ExecAll(w, acts).Done? ==> Disciplined(ExecAll(w, acts).w) && Restored(w, ExecAll(w, acts).w)
    decreases acts
  {
    hide Valid, Disciplined, Restored;
    if acts == [] {
      RestoredRefl(w);
    } else {
      ExecIsDisciplined(w, acts[0]);
      var o := Exec(w, acts[0]);
      if o.Done? {
        ExecAllIsDisciplined(o.w, acts[1..]);
        if ExecAll(o.w, acts[1..]).Done? { RestoredTrans(w, o.w, ExecAll(o.w, acts[1..]).w); }
      }
    }
  }

  lemma RestoredRefl(w: World)
    ensures Restored(w, w)
  {
  }

  lemma RestoredTrans(w: World, w1: World, w2: World)
    requires Restored(w, w1) && Restored(w1, w2)
    ensures Restored(w, w2)
  {
    forall T | T in w.s.stacks && Uses(w.frames, w.kept, T) > 0 ensures StillThere(w, w2, T) {
      assert StillThere(w, w1, T);
      assert StillThere(w1, w2, T);
    }
  }

  // ---------- Which changes survive ----------

  /** A change, and whether every subtransaction around it succeeded. */
  datatype Occurrence = Occurrence(write: Write, survives: bool)

  function Occurrences(act: Act, alive: bool): seq<Occurrence>
    decreases act
  {
    match act
    case Perform(_) => []
    case Change(e) => [Occurrence(e, alive)]
    case Call(_, _, _, body) => OccurrencesAll(body, alive)
    case Inline(_, body) => OccurrencesAll(body, alive)
    case Subtransaction(_, ok, body, _, _) => OccurrencesAll(body, alive && ok)
  }

  function OccurrencesAll(acts: seq<Act>, alive: bool): seq<Occurrence>
    decreases acts
  {
    if acts == [] then [] else Occurrences(acts[0], alive) + OccurrencesAll(acts[1..], alive)
  }

  function Surviving(os: seq<Occurrence>): seq<Write> {
    if os == [] then []
    else (if os[0].survives then [os[0].write] else []) + Surviving(os[1..])
  }

  lemma {:induction false} SurvivingConcat(a: seq<Occurrence>, b: seq<Occurrence>)
    ensures Surviving(a + b) == Surviving(a) + Surviving(b)
  {
    if a == [] {
      assert a + b == b;
    } else {
      SurvivingConcat(a[1..], b);
      assert (a + b)[0] == a[0] && (a + b)[1..] == a[1..] + b;
      Assoc(if a[0].survives then [a[0].write] else [], Surviving(a[1..]), Surviving(b));
    }
  }

  lemma Assoc(x: seq<Write>, y: seq<Write>, z: seq<Write>)
    ensures x + (y + z) == (x + y) + z
  {
  }

  lemma {:induction false} NothingSurvives(act: Act)
    ensures Surviving(Occurrences(act, false)) == []
    decreases act
  {
    match act
    case Perform(_) =>
    case Change(e) => assert Surviving([Occurrence(e, false)]) == Surviving([]);
    case Call(_, _, _, body) => NothingSurvivesAll(body);
    case Inline(_, body) => NothingSurvivesAll(body);
    case Subtransaction(_, ok, body, _, _) => NothingSurvivesAll(body);
  }

  lemma {:induction false} NothingSurvivesAll(acts: seq<Act>)
    ensures Surviving(OccurrencesAll(acts, false)) == []
    decreases acts
  {
    if acts != [] {
      NothingSurvives(acts[0]);
      NothingSurvivesAll(acts[1..]);
      SurvivingConcat(Occurrences(acts[0], false), OccurrencesAll(acts[1..], false));
    }
  }

  /** A change is in the database afterwards if and only if every enclosing
      subtransaction ended with status 0. */
  lemma {:induction false} ChangesSurvive(w: World, act: Act)
    requires Valid(w.s) && Disciplined(w) && Exec(w, act).Done?
    ensures Exec(w, act).w.writes == w.writes + Surviving(Occurrences(act, true))
    decreases act
  {
    hide Valid, Disciplined;
    match act
    case Perform(op) =>
    case Change(e) => assert Surviving([Occurrence(e, true)]) == [e] + Surviving([]);
    case Call(cell, kind, S, body) =>
      EnterFunctionIsDisciplined(w, cell, S);
      var w1 := EnterFunction(w, cell, S).w;
      InsideIsDisciplined(w, w1, w1.frames[0]);
      ChangesSurviveAll(w1, body);
    case Inline(S, body) =>
      EnterNew(w, S, NULL);
      var w1 := Enter(Allocate(w, S, NULL).w, S).w;
      InsideIsDisciplined(w, w1, S);
      ChangesSurviveAll(w1, body);
    case Subtransaction(S, ok, body, inner, outer) =>
      EnterNew(w, S, NULL);
      var w1 := Enter(Allocate(w, S, NULL).w, S).w;
      InsideIsDisciplined(w, w1, S);
      BeginIsDisciplined(w1, inner);
      ChangesSurviveAll(Begin(w1, inner), body);
      ExecAllIsDisciplined(Begin(w1, inner), body);
      NothingSurvivesAll(body);
      RolledBack(w.writes, Surviving(OccurrencesAll(body, true)));
  }

  lemma RolledBack(before: seq<Write>, more: seq<Write>)
    ensures (before + more)[..|before|] == before && before + [] == before
  {
  }

  lemma {:induction false} ChangesSurviveAll(w: World, acts: seq<Act>)
    requires Valid(w.s) && Disciplined(w) && ExecAll(w, acts).Done?
    ensures ExecAll(w, acts).w.writes == w.writes + Surviving(OccurrencesAll(acts, true))
    decreases acts
  {
    hide Valid, Disciplined, Exec, Occurrences;
    if acts == [] {
      assert w.writes + [] == w.writes;
    } else {
      ChangesSurvive(w, acts[0]);
      ExecIsDisciplined(w, acts[0]);
      ChangesSurviveAll(Exec(w, acts[0]).w, acts[1..]);
      SurvivingConcat(Occurrences(acts[0], true), OccurrencesAll(acts[1..], true));
    }
  }

  // ---------- Transactions ----------

  /** pllua_xact_cb, outside all frames: the sweep takes every stack that subtransactions
      have left in use. */
  ghost function TransactionOver(w: World): (w': World)
    requires Valid(w.s)
    ensures Valid(w'.s)
  {
    w.(s := Step(w.s, EndTransaction), kept := {})
  }

  lemma TransactionIsDisciplined(w: World)
    requires Valid(w.s) && Disciplined(w) && w.frames == []
    ensures var w' := TransactionOver(w);
      && Disciplined(w') && w'.frames == [] && w'.kept == {}
      && w'.s.stacks == map[] && w'.s.resources == [] && (forall c :: c in w.s.cells ==> c in w'.s.cells && w'.s.cells[c] == NULL)
      && w'.s.count == |LooseDescs(w'.s.descs)|
  {
    hide Valid, DestructAll;
    SweepEmpties(w.s);
    ValidSweepable(w.s);
    SweepCurrent(w.s.(resources := []), w.s.resources);
  }

  lemma {:induction false} SweepCurrent(s: State, rs: seq<Resource>)
    requires Sweepable(s, rs)
    ensures DestructAll(s, rs).current == s.current
    decreases |rs|
  {
    if rs != [] {
      DestructFirst(s, rs);
      if rs[0].CursorRes? {
        assert Present(s, rs[0]);
        CleanupFrame(s, rs[0].cursor);
      }
      SweepCurrent(Destruct(s, rs[0]), rs[1..]);
    }
  }

  /** One transaction after the other. */
  ghost function Transactions(w: World, ts: seq<seq<Act>>): (r: Outcome)
    requires Valid(w.s)
    ensures r.Done? ==> Valid(r.w.s)
    decreases |ts|
  {
    if ts == [] then Done(w)
    else
      var o := ExecAll(w, ts[0]);
      if o.Done? then Transactions(TransactionOver(o.w), ts[1..]) else o
  }

  /** Over any number of transactions no frame operation faults, and after each one
      nothing is in use, every weak cell is NULL and obj_count is the number of
      descriptors made outside all frames. */
  lemma {:induction false} TransactionsAreDisciplined(w: World, ts: seq<seq<Act>>)
    requires Valid(w.s) && Disciplined(w) && w.frames == []
    ensures Transactions(w, ts) != Fault
    ensures Transactions(w, ts).Done? ==>
      var w' := Transactions(w, ts).w;
      && Disciplined(w') && w'.frames == [] && w'.s.cells.Keys == w.s.cells.Keys
      && (ts != [] ==>
            && w'.kept == {} && w'.s.stacks == map[] && w'.s.count == |LooseDescs(w'.s.descs)|
            && forall c :: c in w'.s.cells ==> w'.s.cells[c] == NULL)
    decreases |ts|
  {
    hide Valid, Disciplined, ExecAll, TransactionOver, LooseDescs;
    if ts != [] {
      ExecAllIsDisciplined(w, ts[0]);
      var o := ExecAll(w, ts[0]);
      if o.Done? {
        TransactionIsDisciplined(o.w);
        TransactionCells(o.w);
        TransactionsAreDisciplined(TransactionOver(o.w), ts[1..]);
        if ts[1..] == [] { assert Transactions(TransactionOver(o.w), []) == Done(TransactionOver(o.w)); }
      }
    }
  }

  lemma TransactionCells(w: World)
    requires Valid(w.s)
    ensures TransactionOver(w).s.cells.Keys == w.s.cells.Keys
  {
    hide Valid, DestructAll;
    ValidSweepable(w.s);
    DestructAllKeeps(w.s.(resources := []), w.s.resources);
  }
}
