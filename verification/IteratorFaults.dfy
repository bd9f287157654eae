/** A row iterator whose first call runs in a subtransaction that fails, or in any frame
    that ends before the iteration does, crashes at the next batch. */
module IteratorFaults {
  import opened Memory
  import opened Ledger
  import opened LedgerProofs
  import opened CursorProofs
  import opened Iterator
  import opened Runs
  import opened Frames
  import opened Holding
  import opened Lifetimes

  /** n calls that find a row in the queue, and one more. */
  function Repeated(n: nat, c: Ptr, rs: seq<Ptr>): seq<Act> {
    if n == 0 then [Perform(Next(c, NULL, rs))] else [Perform(Next(c, NULL, []))] + Repeated(n - 1, c, rs)
  }

  /** c's descriptor is lost and its portal is not exhausted. */
  ghost predicate Stranded(s: State, c: Ptr, n: nat, rs: seq<Ptr>) {
    && CursorRes(c) in s.resources && HasQueue(s.cursors, c) && |s.cursors[c].queue.value| == n
    && s.cursors[c].portal.Some? && s.cursors[c].portal.value != []
    && s.cursors[c].desc != NULL && s.cursors[c].desc in s.descs && !s.descs[s.cursors[c].desc].live
    && |rs| == |Batch(s.cursors[c].portal.value)| && Distinct(rs) && (forall r :: r in rs ==> r != NULL && r !in s.rows)
  }

  lemma StrandedStep(s: State, c: Ptr, n: nat, rs: seq<Ptr>)
    requires Valid(s) && Stranded(s, c, n, rs) && n > 0
    ensures Legal(s, Next(c, NULL, [])) && Stranded(Step(s, Next(c, NULL, [])), c, n - 1, rs)
  {
  }

  lemma StrandedEnd(s: State, c: Ptr, rs: seq<Ptr>)
    requires Valid(s) && Stranded(s, c, 0, rs)
    ensures Callable(s, Next(c, NULL, rs)) && Breaks(s, Next(c, NULL, rs))
  {
  }

  /** The queued rows still come out; the call after the last of them crashes. */
  lemma {:induction false} StrandedCrashes(w: World, c: Ptr, n: nat, rs: seq<Ptr>)
    requires Valid(w.s) && Stranded(w.s, c, n, rs)
    ensures ExecAll(w, Repeated(n, c, rs)) == Broken(Next(c, NULL, rs))
    decreases n
  {
    hide Valid, Stranded, Legal, Callable, Breaks, Apply;
    if n == 0 {
      StrandedEnd(w.s, c, rs);
    } else {
      var op := Next(c, NULL, []);
      StrandedStep(w.s, c, n, rs);
      LegalIs(w.s, op);
      assert Repeated(n, c, rs)[0] == Perform(op) && Repeated(n, c, rs)[1..] == Repeated(n - 1, c, rs);
      assert Exec(w, Perform(op)) == Done(w.(s := Step(w.s, op)));
      StrandedCrashes(w.(s := Step(w.s, op)), c, n - 1, rs);
    }
  }

  /** A cursor nobody has called yet, and fresh addresses for its first batch. */
  ghost predicate Unread(s: State, c: Ptr, portal: seq<Datum>, d: Ptr, rs: seq<Ptr>) {
    && CursorRes(c) in s.resources && c in s.cursors && s.cursors[c] == Cursor(NULL, None, Some(portal))
    && d != NULL && d !in s.descs
    && portal != [] && |rs| == |Batch(portal)| && Distinct(rs) && (forall r :: r in rs ==> r != NULL && r !in s.rows)
  }

  lemma FirstStart(s: State, c: Ptr, portal: seq<Datum>, d: Ptr, rs: seq<Ptr>)
    requires Valid(s) && Unread(s, c, portal, d, rs) && s.current in s.stacks
    ensures CanFetch(s, c, d, rs)
    ensures var s1 := Started(s, c, d);
      && Held(s1, ByCursor(c), s.current) && s1.owners[ByCursor(c)] == d && d in s1.descs
      && s1.cursors == s.cursors[c := Cursor(d, Some([]), Some(portal[|rs|..]))]
      && s1.resources == s.resources && s1.rows == s.rows
  {
    hide HomesOk, RefsOk, CountOk, CellsOk, CursorsOk, RegisteredOk;
    NullIsNoDesc(s);
  }

  lemma NullIsNoDesc(s: State)
    requires Valid(s)
    ensures NULL !in s.descs && NULL !in s.stacks
  {
  }

  lemma FirstCall(s: State, c: Ptr, portal: seq<Datum>, d: Ptr, rs: seq<Ptr>)
    requires Valid(s) && Unread(s, c, portal, d, rs) && s.current in s.stacks
    ensures Legal(s, Next(c, d, rs))
    ensures var s' := Step(s, Next(c, d, rs));
      && Held(s', ByCursor(c), s.current) && s'.owners[ByCursor(c)] == d
      && c in s'.cursors && s'.cursors[c] == Cursor(d, Some(rs[1..]), Some(portal[|rs|..]))
      && s'.resources == s.resources && s'.rows.Keys == s.rows.Keys + Elements(rs)
  {
    hide Valid, Started, AddRows;
    var xs := Batch(portal);
    FirstStart(s, c, portal, d, rs);
    var s1 := Started(s, c, d);
    FillMakesQueue(s, c, d, rs);
    AddRowsHeld(s1, c, rs, xs, ByCursor(c), s.current);
    AddRowsRows(s1, c, rs, xs);
    AddRowsFrame(s1, c, rs, xs);
  }

  /** Entering a frame makes its stack current and touches no descriptor. */
  lemma EntryStack(w: World, act: Act)
    requires Valid(w.s) && Disciplined(w) && Nested(act) && Entry(w, act).Done?
    ensures var w1 := Entry(w, act).w;
      && Disciplined(w1) && w1.frames != [] && w1.s.current == w1.frames[0] && w1.s.current in w1.s.stacks
  {
    hide Valid, Disciplined, Enter, Allocate, EnterFunction;
    if act.Call? {
      EnterFunctionIsDisciplined(w, act.cell, act.S);
      InsideIsDisciplined(w, Entry(w, act).w, Entry(w, act).w.frames[0]);
    } else {
      EnterNew(w, act.S, NULL);
      var w1 := Enter(Allocate(w, act.S, NULL).w, act.S).w;
      InsideIsDisciplined(w, w1, act.S);
      if act.Subtransaction? { BeginIsDisciplined(w1, act.inner); }
    }
    FrameStack(Entry(w, act).w);
    TopIsCurrent(Entry(w, act).w);
  }

  lemma EnterDescs(w: World, S: Ptr)
    requires Valid(w.s) && Enter(w, S).Done?
    ensures Enter(w, S).w.s.descs == w.s.descs
  {
    hide HomesOk, RefsOk, CountOk, CellsOk, CursorsOk, RegisteredOk, IterOk;
  }

  lemma EntryDescs(w: World, act: Act)
    requires Valid(w.s) && Nested(act) && Entry(w, act).Done?
    ensures Entry(w, act).w.s.descs == w.s.descs
  {
    hide Valid, Enter;
    var cell := if act.Call? then act.cell else NULL;
    if act.Call? && w.s.cells[cell] != NULL {
      EnterDescs(w, w.s.cells[cell]);
    } else {
      EnterDescs(Allocate(w, act.S, cell).w, act.S);
    }
  }

  lemma UnreadQuiet(s: State, s': State, c: Ptr, portal: seq<Datum>, d: Ptr, rs: seq<Ptr>)
    requires Unread(s, c, portal, d, rs) && Quiet(s, s') && s'.descs == s.descs
    ensures Unread(s', c, portal, d, rs)
  {
  }

  lemma OneAct(w: World, act: Act)
    requires Valid(w.s) && Exec(w, act).Done?
    ensures ExecAll(w, [act]) == Exec(w, act)
  {
    assert ExecAll(Exec(w, act).w, []) == Done(Exec(w, act).w);
  }

  /** What remains of a portal after its first batch, and fresh addresses for the second. */
  ghost predicate MoreToCome(s: State, portal: seq<Datum>, rs: seq<Ptr>, more: seq<Ptr>) {
    && |portal| > 50
    && |more| == |Batch(portal[50..])| && Distinct(more)
    && (forall r :: r in more ==> r != NULL && r !in s.rows && r !in rs)
  }

  /** The first batch has been fetched by a frame on S and one row delivered. */
  ghost predicate HasRead(s: State, s2: State, S: Ptr, c: Ptr, portal: seq<Datum>, d: Ptr, rs: seq<Ptr>) {
    && CursorRes(c) in s2.resources && Held(s2, ByCursor(c), S) && s2.owners[ByCursor(c)] == d
    && 0 < |rs| <= |portal| && c in s2.cursors && s2.cursors[c] == Cursor(d, Some(rs[1..]), Some(portal[|rs|..]))
    && s2.rows.Keys == s.rows.Keys + Elements(rs)
  }

  lemma BatchBounds(portal: seq<Datum>)
    ensures |Batch(portal)| <= |portal| && (portal != [] ==> Batch(portal) != [])
  {
  }

  /** The body of act is the first call on c. */
  lemma BodyReads(w: World, act: Act, c: Ptr, portal: seq<Datum>, d: Ptr, rs: seq<Ptr>)
    requires Valid(w.s) && Disciplined(w) && Nested(act) && Entry(w, act).Done?
    requires Unread(w.s, c, portal, d, rs) && act.body == [Perform(Next(c, d, rs))]
    ensures var b := Entry(w, act).w; var o := ExecAll(b, act.body);
      && o.Done? && o.w == b.(s := o.w.s)
      && b.frames != [] && HasRead(w.s, o.w.s, b.frames[0], c, portal, d, rs)
      && Exec(w, act).Done? && Quiet(o.w.s, Exec(w, act).w.s)
  {
    hide Valid, Disciplined, Legal, Callable, Breaks, Apply, Entry, Exit, Held, Unread;
    EntryStack(w, act);
    EntryDescs(w, act);
    EntryQuiet(w, act);
    var b := Entry(w, act).w;
    BatchBounds(portal);
    UnreadQuiet(w.s, b.s, c, portal, d, rs);
    FirstCall(b.s, c, portal, d, rs);
    LegalIs(b.s, Next(c, d, rs));
    assert Exec(b, Perform(Next(c, d, rs))) == Done(b.(s := Step(b.s, Next(c, d, rs))));
    OneAct(b, act.body[0]);
    var w2 := ExecAll(b, act.body).w;
    ExecIsDisciplined(w, act);
    ExitBreaksNothing(w, act, w2);
    ExitQuiet(w, act, w2);
  }

  lemma ReadIsStranded(w: World, act: Act, c: Ptr, portal: seq<Datum>, d: Ptr, rs: seq<Ptr>, more: seq<Ptr>)
    requires Valid(w.s) && Disciplined(w) && Nested(act) && Entry(w, act).Done?
    requires Unread(w.s, c, portal, d, rs) && act.body == [Perform(Next(c, d, rs))] && MoreToCome(w.s, portal, rs, more)
    requires ExecAll(Entry(w, act).w, act.body).Done? && Exec(w, act).Done?
    requires Lost(ExecAll(Entry(w, act).w, act.body).w.s, Exec(w, act).w.s, ByCursor(c))
    ensures Stranded(Exec(w, act).w.s, c, 49, more)
  {
    hide Valid, Disciplined, Entry, Exec, ExecAll, Held;
    BodyReads(w, act, c, portal, d, rs);
    assert forall r :: r in more ==> r !in Elements(rs);
  }

  lemma ThenCrashes(w: World, act: Act, c: Ptr, more: seq<Ptr>)
    requires Valid(w.s) && Exec(w, act).Done? && Stranded(Exec(w, act).w.s, c, 49, more)
    ensures ExecAll(w, [act] + Repeated(49, c, more)) == Broken(Next(c, NULL, more))
  {
    hide Valid, Stranded, Exec, Repeated;
    StrandedCrashes(Exec(w, act).w, c, 49, more);
    var acts := [act] + Repeated(49, c, more);
    assert acts[0] == act && acts[1..] == Repeated(49, c, more);
  }

  /** pcall(it) fails and it() is called again: in every world, with any portal of more
      rows than one batch, the first batch's other 49 rows are delivered and the call
      after them crashes. */
  lemma RetriedIteratorCrashes(w: World, S: Ptr, inner: Session, outer: Session,
                               c: Ptr, portal: seq<Datum>, d: Ptr, rs: seq<Ptr>, more: seq<Ptr>)
    requires Valid(w.s) && Disciplined(w) && Unread(w.s, c, portal, d, rs) && MoreToCome(w.s, portal, rs, more)
    requires S != NULL && S !in w.s.stacks
    ensures var failing := Subtransaction(S, false, [Perform(Next(c, d, rs))], inner, outer);
      ExecAll(w, [failing] + Repeated(49, c, more)) == Broken(Next(c, NULL, more))
  {
    hide Valid, Disciplined, Legal, Exec, ExecAll, Enter, Apply, Unread, Stranded, Inside, Held, Lost, MoreToCome;
    var act := Subtransaction(S, false, [Perform(Next(c, d, rs))], inner, outer);
    CanAllocate(w.s, S, NULL);
    EnterNew(w, S, NULL);
    BodyReads(w, act, c, portal, d, rs);
    EnteredFrames(w, S);
    SubtransactionOutcome(w, act, ByCursor(c));
    ReadIsStranded(w, act, c, portal, d, rs, more);
    ThenCrashes(w, act, c, more);
  }

  lemma EnteredFrames(w: World, S: Ptr)
    requires Valid(w.s) && EnterStrong(w, S).Done?
    ensures EnterStrong(w, S).w.frames == [S] + w.frames
  {
    hide HomesOk, RefsOk, CountOk, CellsOk, CursorsOk, RegisteredOk, IterOk;
  }

  lemma CanAllocate(s: State, S: Ptr, cell: Ptr)
    requires Valid(s) && S != NULL && S !in s.stacks && (cell != NULL ==> cell in s.cells && s.cells[cell] == NULL)
    ensures Legal(s, InitStack(S, cell))
  {
  }

  /** The same with an iterator that outlives the function which called it first. */
  lemma KeptIteratorCrashes(w: World, cell: Ptr, S: Ptr,
                            c: Ptr, portal: seq<Datum>, d: Ptr, rs: seq<Ptr>, more: seq<Ptr>)
    requires Valid(w.s) && Disciplined(w) && Unread(w.s, c, portal, d, rs) && MoreToCome(w.s, portal, rs, more)
    requires cell in w.s.cells && Uses(w.frames, w.kept, w.s.cells[cell]) == 0
    requires w.s.cells[cell] == NULL ==> S != NULL && S !in w.s.stacks
    ensures var first := Call(cell, Ordinary, S, [Perform(Next(c, d, rs))]);
      ExecAll(w, [first] + Repeated(49, c, more)) == Broken(Next(c, NULL, more))
  {
    hide Valid, Disciplined, Legal, Exec, ExecAll, EnterFunction, Uses, Unread, Stranded, Inside, Held, Lost, MoreToCome;
    var act := Call(cell, Ordinary, S, [Perform(Next(c, d, rs))]);
    FunctionEntered(w, cell, S);
    BodyReads(w, act, c, portal, d, rs);
    LastCallReleases(w, cell, Ordinary, S, act.body, ByCursor(c));
    FrameCell(w, act);
    ReadIsStranded(w, act, c, portal, d, rs, more);
    ThenCrashes(w, act, c, more);
  }

  lemma FunctionEntered(w: World, cell: Ptr, S: Ptr)
    requires Valid(w.s) && Disciplined(w) && cell in w.s.cells
    requires w.s.cells[cell] == NULL ==> S != NULL && S !in w.s.stacks
    ensures EnterFunction(w, cell, S).Done?
  {
    hide Disciplined, Enter, Legal;
    if w.s.cells[cell] != NULL {
      CellLeads(w.s, cell);
      NullIsNoCell(w.s);
      EnterIsDisciplined(w, w.s.cells[cell]);
    } else {
      CanAllocate(w.s, S, cell);
      EnterNew(w, S, cell);
    }
  }

  /** At the end of the body the cell leads to the frame's stack. */
  lemma FrameCell(w: World, act: Act)
    requires Valid(w.s) && Disciplined(w) && act.Call? && Entry(w, act).Done? && ExecAll(Entry(w, act).w, act.body).Done?
    ensures var b, s2 := Entry(w, act).w, ExecAll(Entry(w, act).w, act.body).w.s;
      b.frames != [] && act.cell in s2.cells && s2.cells[act.cell] == b.frames[0]
  {
    hide Valid, Disciplined, ExecAll, EnterFunction, ExitFunction;
    EnterFunctionIsDisciplined(w, act.cell, act.S);
    var b := Entry(w, act).w;
    InsideIsDisciplined(w, b, b.frames[0]);
    ExecAllIsDisciplined(b, act.body);
    CallExits(w, b, ExecAll(b, act.body).w, b.frames[0], act.cell, act.kind);
  }

  /** From empty memory: a cursor is opened, its first call fails in a subtransaction, and
      the iteration goes on. */
  lemma EmptyWorldCrashes(session: Session, S: Ptr, inner: Session, outer: Session,
                          c: Ptr, portal: seq<Datum>, d: Ptr, rs: seq<Ptr>, more: seq<Ptr>)
    requires c != NULL && d != NULL && S != NULL
    requires portal != [] && |rs| == |Batch(portal)| && Distinct(rs) && NULL !in rs && MoreToCome(EMPTY, portal, rs, more)
    ensures Valid(EMPTY)
    ensures var failing := Subtransaction(S, false, [Perform(Next(c, d, rs))], inner, outer);
      ExecAll(World(EMPTY, [], {}, [], [], session), [Perform(Open(c, portal))] + ([failing] + Repeated(49, c, more)))
        == Broken(Next(c, NULL, more))
  {
    EmptyIsValid();
    var w := World(EMPTY, [], {}, [], [], session);
    var op := Open(c, portal);
    var w1 := w.(s := Step(EMPTY, op));
    assert Exec(w, Perform(op)) == Done(w1);
    PerformIsDisciplined(w, op);
    hide Valid, Disciplined, Exec, Repeated;
    RetriedIteratorCrashes(w1, S, inner, outer, c, portal, d, rs, more);
    var failing := Subtransaction(S, false, [Perform(Next(c, d, rs))], inner, outer);
    var rest := [failing] + Repeated(49, c, more);
    assert ([Perform(op)] + rest)[0] == Perform(op) && ([Perform(op)] + rest)[1..] == rest;
  }
}
