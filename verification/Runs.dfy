/** Whole runs: any interleaving of the operations, each called the way the source
    demands, keeps the invariant; the row iterator delivers its portal exactly. */
module Runs {
  import opened Memory
  import opened Ledger
  import opened LedgerProofs
  import opened CursorProofs
  import opened Sweep

  datatype Op =
    | MakeDesc(d: Ptr, h: Holder)
    | RefDesc(d: Ptr, h: Holder)
    | UnrefDesc(h: Holder)
    | LoseDesc(h: Holder)
    | InitStack(S: Ptr, cell: Ptr)
    | InUse(S: Ptr)
    | NotInUse(S: Ptr)
    | TryCleanStack(S: Ptr)
    | FreeStack(S: Ptr)
    | SetCurrent(p: Ptr)
    | Open(c: Ptr, portal: seq<Datum>)
    | Close(c: Ptr)
    | Next(c: Ptr, d: Ptr, rs: seq<Ptr>)
    | CollectRow(r: Ptr)
    | CollectCursor(c: Ptr)
    | EndTransaction

  /** The operations of Lua bodies and of the garbage collector. */
  predicate BodyOp(op: Op) {
    op.MakeDesc? || op.RefDesc? || op.UnrefDesc? || op.LoseDesc? || op.Open? || op.Close? || op.Next? || op.CollectRow? || op.CollectCursor?
  }

  /** The operations of the call handlers. */
  predicate StackOp(op: Op) {
    !BodyOp(op) && !op.EndTransaction?
  }

  predicate Queued(s: State, r: Ptr) {
    exists c :: c in s.cursors && HasQueue(s.cursors, c) && r in s.cursors[c].queue.value
  }

  /** What the callers must respect: fresh addresses come from palloc, a reference is
      given back only by its holder, and a push needs a current stack that exists. */
  ghost predicate Callable(s: State, op: Op)
    requires Valid(s)
  {
    match op
    case Next(c, d, rs) => CanCall(s, c, d, rs)
    case CollectCursor(c) => c in s.cursors
    case _ => Legal(s, op)
  }

  /** Calls the code does not survive: the iterator reads through a TupleDesc that is
      gone, or a cursor that was opened and never fetched from is collected, which leaves
      its registration to the sweep. */
  predicate Breaks(s: State, op: Op) {
    match op
    case Next(c, d, rs) => c in s.cursors && RefillCrashes(s, c)
    case CollectCursor(c) => CursorRes(c) in s.resources && !HasQueue(s.cursors, c)
    case _ => false
  }

  /** Callable, and nothing breaks. */
  ghost predicate Legal(s: State, op: Op)
    requires Valid(s)
  {
    match op
    case MakeDesc(d, h) => d != NULL && d !in s.descs && h.ByUserdata? && h !in s.owners && CurrentOk(s)
    case RefDesc(d, h) => d in s.descs && h.ByUserdata? && h !in s.owners
    case UnrefDesc(h) => h.ByUserdata? && h in s.owners
    case LoseDesc(h) => h.ByUserdata?
    case InitStack(S, cell) => S != NULL && S !in s.stacks && (cell != NULL ==> cell in s.cells && s.cells[cell] == NULL)
    case InUse(S) => S in s.stacks
    case NotInUse(S) => S in s.stacks
    case TryCleanStack(S) => S in s.stacks
    case FreeStack(S) => S in s.stacks
    case SetCurrent(p) => true
    case Open(c, portal) => c != NULL && c !in s.cursors
    case Close(c) => c in s.cursors
    case Next(c, d, rs) => CanFetch(s, c, d, rs)
    case CollectRow(r) => r in s.rows && !Queued(s, r)
    case CollectCursor(c) => c in s.cursors && (HasQueue(s.cursors, c) || CursorRes(c) !in s.resources)
    case EndTransaction => true
  }

  lemma LegalIs(s: State, op: Op)
    requires Valid(s)
    ensures Legal(s, op) <==> Callable(s, op) && !Breaks(s, op)
  {
  }

  function Apply(s: State, op: Op): State
    requires Valid(s) && Legal(s, op)
  {
    match op
    case MakeDesc(d, h) => Make(s, d, h)
    case RefDesc(d, h) => AddRef(s, d, h)
    case UnrefDesc(h) => Unref(s, h)
    case LoseDesc(h) => Forget(s, h)
    case InitStack(S, cell) => NewStack(s, S, cell)
    case InUse(S) => SetRefs(s, S, s.stacks[S].refs + 1)
    case NotInUse(S) => SetRefs(s, S, s.stacks[S].refs - 1)
    case TryCleanStack(S) => TryClean(s, S)
    case FreeStack(S) => FreeIfNotUsed(s, S)
    case SetCurrent(p) => s.(current := p)
    case Open(c, portal) => OpenCursor(s, c, portal)
    case Close(c) => CloseCursor(s, c)
    case Next(c, d, rs) => NextRow(s, c, d, rs).0
    case CollectRow(r) => GcRow(s, r)
    case CollectCursor(c) => GcCursor(s, c)
    case EndTransaction => ValidSweepable(s); SweepAll(s)
  }

  // ---------- One step ----------

  lemma OwnersSame(s: State, s': State)
    requires Valid(s) && Core(s')
    requires s'.owners == s.owners && s'.cursors == s.cursors && s'.rows == s.rows
    requires s'.resources == s.resources && s'.stacks.Keys == s.stacks.Keys
    ensures Valid(s')
  {
  }

  lemma UserdataStep(s: State, s': State)
    requires Valid(s) && Core(s')
    requires forall h: Holder :: !h.ByUserdata? ==> (h in s'.owners <==> h in s.owners) && (h in s.owners ==> s'.owners[h] == s.owners[h])
    requires s'.cursors == s.cursors && s'.rows == s.rows
    requires s'.resources == s.resources && s'.stacks.Keys == s.stacks.Keys
    ensures Valid(s')
  {
    UserdataOnly(s.owners, s'.owners, s);
  }

  lemma DescStep(s: State, op: Op)
    requires Valid(s) && Legal(s, op)
    requires op.MakeDesc? || op.RefDesc? || op.UnrefDesc? || op.LoseDesc?
    ensures Valid(Apply(s, op))
  {
    hide CountOk, CellsOk, CursorsOk, RegisteredOk, IterOk;
    var s' := Apply(s, op);
    match op {
      case MakeDesc(d, h) => MakeKeeps(s, d, h); assert s'.stacks.Keys == s.stacks.Keys;
      case RefDesc(d, h) => AddRefKeeps(s, d, h);
      case UnrefDesc(h) => UnrefKeeps(s, h); ReleaseFrame(Forget(s, h), s.owners[h]);
      case LoseDesc(h) => FewerHoldersKeep(s, s.owners - {h});
    }
    UserdataStep(s, s');
  }

  lemma NewStackStep(s: State, S: Ptr, cell: Ptr)
    requires Valid(s) && Legal(s, InitStack(S, cell))
    ensures Valid(NewStack(s, S, cell))
  {
    NewStackKeeps(s, S, cell);
    NewStackRegistered(s, S, cell);
  }

  lemma TryCleanStep(s: State, S: Ptr)
    requires Valid(s) && S in s.stacks
    ensures Valid(TryClean(s, S))
  {
    var n := s.stacks[S].refs - 1;
    RefsStep(s, S, n);
    if n == 0 { CleanStep(SetRefs(s, S, n), S); }
  }

  lemma FreeStep(s: State, S: Ptr)
    requires Valid(s) && S in s.stacks
    ensures Valid(FreeIfNotUsed(s, S))
  {
    if s.stacks[S].refs == 0 { RemoveStackKeeps(s, S); }
  }

  lemma RefsStep(s: State, S: Ptr, n: int)
    requires Valid(s) && S in s.stacks
    ensures Valid(SetRefs(s, S, n))
  {
    SetRefsKeeps(s, S, n);
    assert SetRefs(s, S, n).stacks.Keys == s.stacks.Keys;
    OwnersSame(s, SetRefs(s, S, n));
  }

  lemma CleanStep(s: State, S: Ptr)
    requires Valid(s) && S in s.stacks
    ensures Valid(Clean(s, S))
  {
    CleanKeeps(s, S);
    assert Clean(s, S).stacks.Keys == s.stacks.Keys;
    OwnersSame(s, Clean(s, S));
  }

  lemma NextKeeps(s: State, c: Ptr, d: Ptr, rs: seq<Ptr>)
    requires Valid(s) && CanFetch(s, c, d, rs)
    ensures Valid(NextRow(s, c, d, rs).0)
  {
    if !NeedsFetch(s, c) {
      DequeueKeeps(s, c);
    } else if s.cursors[c].portal.value == [] {
      FinishKeeps(s, c);
    } else {
      FillKeeps(s, c, d, rs);
      FillMakesQueue(s, c, d, rs);
      DequeueKeeps(Fill(s, c, d, rs), c);
    }
  }

  lemma CollectRowKeeps(s: State, r: Ptr)
    requires Valid(s) && r in s.rows && !Queued(s, r)
    ensures ByRow(r) in s.owners
    ensures Valid(GcRow(s, r))
  {
    var h := ByRow(r);
    assert h in s.owners;
    UnrefKeeps(s, h);
    ReleaseFrame(Forget(s, h), s.owners[h]);
    var s' := GcRow(s, r);
    assert s'.owners == s.owners - {h};
    forall c | HasQueue(s.cursors, c) ensures QueueOk(s'.owners, s.cursors[c], c, s'.rows) {
      assert QueueOk(s.owners, s.cursors[c], c, s.rows);
      assert r !in s.cursors[c].queue.value;
    }
  }

  lemma CollectCursorKeeps(s: State, c: Ptr)
    requires Valid(s) && c in s.cursors && (HasQueue(s.cursors, c) || CursorRes(c) !in s.resources)
    ensures Valid(GcCursor(s, c))
  {
    CleanupKeeps(s, c);
    CleanupFrame(s, c);
    var s1 := if s.cursors[c].queue.Some? then Cleanup(s, c) else s;
    var s' := GcCursor(s, c);
    UnregisterOne(s.resources, s.stacks.Keys, s.cursors.Keys, CursorRes(c));
    DeleteProps(s.resources, CursorRes(c));
    assert s'.cursors.Keys == s.cursors.Keys - {c};
    CursorGone(s1.owners, s1.cursors, s1.rows, c);
    assert s'.resources == s.resources || s'.resources == Delete(s.resources, CursorRes(c));
    assert CursorRes(c) !in s'.resources;
  }

  lemma CursorGone(owners: map<Holder, Ptr>, cursors: map<Ptr, Cursor>, rows: map<Ptr, Datum>, c: Ptr)
    requires CursorsOk(owners, cursors, rows) && !HasQueue(cursors, c)
    ensures CursorsOk(owners, cursors - {c}, rows)
  {
    forall e | HasQueue(cursors - {c}, e) ensures QueueOk(owners, (cursors - {c})[e], e, rows) {
      assert HasQueue(cursors, e) && QueueOk(owners, cursors[e], e, rows);
    }
  }

  lemma StackStep(s: State, op: Op)
    requires Valid(s) && Legal(s, op)
    requires op.InitStack? || op.TryCleanStack? || op.FreeStack?
    ensures Valid(Apply(s, op))
  {
    match op
    case InitStack(S, cell) => NewStackStep(s, S, cell);
    case TryCleanStack(S) => TryCleanStep(s, S);
    case FreeStack(S) => FreeStep(s, S);
  }

  lemma CurrentStep(s: State, p: Ptr)
    requires Valid(s)
    ensures Valid(s.(current := p))
  {
  }

  lemma RefStep(s: State, op: Op)
    requires Valid(s) && Legal(s, op)
    requires op.InUse? || op.NotInUse? || op.SetCurrent?
    ensures Valid(Apply(s, op))
  {
    hide HomesOk, RefsOk, CountOk, CellsOk, CursorsOk, RegisteredOk, IterOk;
    if op.SetCurrent? {
      CurrentStep(s, op.p);
    } else {
      RefsStep(s, op.S, s.stacks[op.S].refs + (if op.InUse? then 1 else -1));
    }
  }

  lemma CursorStep(s: State, op: Op)
    requires Valid(s) && Legal(s, op)
    requires op.Open? || op.Close? || op.Next? || op.CollectRow? || op.CollectCursor? || op.EndTransaction?
    ensures Valid(Apply(s, op))
  {
    match op
    case Open(c, portal) => OpenKeeps(s, c, portal);
    case Close(c) => CloseKeeps(s, c);
    case Next(c, d, rs) => NextKeeps(s, c, d, rs);
    case CollectRow(r) => CollectRowKeeps(s, r);
    case CollectCursor(c) => CollectCursorKeeps(s, c);
    case EndTransaction => SweepEmpties(s);
  }

  lemma StepKeepsValid(s: State, op: Op)
    requires Valid(s) && Legal(s, op)
    ensures Valid(Apply(s, op))
  {
    if op.MakeDesc? || op.RefDesc? || op.UnrefDesc? || op.LoseDesc? {
      DescStep(s, op);
    } else if op.InitStack? || op.TryCleanStack? || op.FreeStack? {
      StackStep(s, op);
    } else if op.InUse? || op.NotInUse? || op.SetCurrent? {
      RefStep(s, op);
    } else {
      CursorStep(s, op);
    }
  }

  // ---------- Whole runs ----------

  /** Apply, with its invariant. */
  function Step(s: State, op: Op): (s': State)
    requires Valid(s) && Legal(s, op)
    ensures Valid(s')
  {
    StepKeepsValid(s, op);
    Apply(s, op)
  }

  /** Every call is made the way callers must; once something breaks, nothing follows. */
  ghost predicate LegalRun(s: State, ops: seq<Op>)
    requires Valid(s)
    decreases |ops|
  {
    ops != [] ==>
      && Callable(s, ops[0])
      && (!Breaks(s, ops[0]) ==> (LegalIs(s, ops[0]); LegalRun(Step(s, ops[0]), ops[1..])))
  }

  /** Where a run ends, and the call that broke it, if any. */
  datatype RunEnd = RunEnd(s: State, broken: Option<Op>)

  function Run(s: State, ops: seq<Op>): RunEnd
    requires Valid(s) && LegalRun(s, ops)
    decreases |ops|
  {
    if ops == [] then RunEnd(s, None)
    else if Breaks(s, ops[0]) then RunEnd(s, Some(ops[0]))
    else LegalIs(s, ops[0]); Run(Step(s, ops[0]), ops[1..])
  }

  /** The heap invariant in every reachable state, spelled out; a run that breaks does so
      in such a state. */
  lemma {:induction false} RunIsSafe(s: State, ops: seq<Op>)
    requires Valid(s) && LegalRun(s, ops)
    ensures var s' := Run(s, ops).s;
      && Valid(s')
      && s'.count == |LiveDescs(s'.descs)|
      && (forall h :: h in s'.owners ==> s'.owners[h] in s'.descs)
      && (forall d :: d in s'.descs ==> s'.descs[d].refs >= |HoldersOf(s'.owners, d)|)
    ensures var end := Run(s, ops);
      end.broken.Some? ==> Callable(end.s, end.broken.value) && Breaks(end.s, end.broken.value)
    decreases |ops|
  {
    if ops != [] && !Breaks(s, ops[0]) {
      LegalIs(s, ops[0]);
      RunIsSafe(Step(s, ops[0]), ops[1..]);
    }
  }

  // ---------- The calls that break ----------

  /** Collecting a cursor keeps the invariant exactly if it has a queue or is not
      registered; otherwise the list keeps a registration whose cursor is freed memory,
      and the sweep would run its destructor on it. */
  lemma CollectExactly(s: State, c: Ptr)
    requires Valid(s) && c in s.cursors
    ensures Valid(GcCursor(s, c)) <==> !Breaks(s, CollectCursor(c))
    ensures Breaks(s, CollectCursor(c)) ==>
      var s' := GcCursor(s, c); CursorRes(c) in s'.resources && !Sweepable(s', s'.resources)
  {
    if Breaks(s, CollectCursor(c)) {
      assert !Present(GcCursor(s, c), CursorRes(c));
    } else {
      CollectCursorKeeps(s, c);
    }
  }
}
