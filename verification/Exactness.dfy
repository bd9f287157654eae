/** When reference counts are exact: a count equals the number of holders until somebody
    drops a reference on the floor, and never again afterwards. */
module Exactness {
  import opened Memory
  import opened Ledger
  import opened LedgerProofs
  import opened CursorProofs
  import opened Sweep
  import opened Runs

  /** Every count is the number of holders. */
  ghost predicate Exact(descs: map<Ptr, Desc>, owners: map<Holder, Ptr>) {
    forall d :: d in descs ==> descs[d].refs == |HoldersOf(owners, d)|
  }

  /** No reference is dropped on the floor: tuptables are not overwritten and cursors
      are thrown away with an empty queue. */
  predicate Orderly(s: State, op: Op) {
    match op
    case LoseDesc(h) => h !in s.owners
    case CollectCursor(c) => HasQueue(s.cursors, c) ==> s.cursors[c].queue.value == []
    case EndTransaction => forall c | c in s.cursors && CursorRes(c) in s.resources && HasQueue(s.cursors, c) :: s.cursors[c].queue.value == []
    case _ => true
  }

  lemma UnrefExact(s: State, h: Holder)
    requires Core(s) && Exact(s.descs, s.owners) && h in s.owners
    ensures Exact(Unref(s, h).descs, Unref(s, h).owners)
  {
    HolderRemoved(s.owners, h);
    ReleaseForm(Forget(s, h), s.owners[h]);
  }

  lemma AddRefExact(s: State, d: Ptr, h: Holder)
    requires Exact(s.descs, s.owners) && d in s.descs && h !in s.owners
    ensures Exact(AddRef(s, d, h).descs, AddRef(s, d, h).owners)
  {
    HolderAdded(s.owners, h, d);
  }

  lemma MakeExact(s: State, d: Ptr, h: Holder)
    requires Core(s) && CurrentOk(s) && Exact(s.descs, s.owners) && d !in s.descs && h !in s.owners
    ensures Exact(Make(s, d, h).descs, Make(s, d, h).owners)
  {
    HolderAdded(s.owners, h, d);
    assert HoldersOf(s.owners, d) == {};
  }

  lemma NewRow(s: State, c: Ptr, rs: seq<Ptr>, xs: seq<Datum>)
    requires Valid(s) && HasQueue(s.cursors, c) && s.cursors[c].desc in s.descs && rs != []
    requires |rs| == |xs| && Distinct(rs) && forall r :: r in rs ==> r != NULL && r !in s.rows
    ensures var n := |rs| - 1;
      && Distinct(rs[..n]) && Valid(AddRows(s, c, rs[..n], xs[..n]))
      && ByRow(rs[n]) !in AddRows(s, c, rs[..n], xs[..n]).owners
  {
    var n := |rs| - 1;
    ElementsSnoc(rs);
    AddRowsKeeps(s, c, rs[..n], xs[..n]);
    AddRowsRows(s, c, rs[..n], xs[..n]);
    assert rs[n] !in Elements(rs[..n]);
  }

  lemma {:induction false} AddRowsExact(s: State, c: Ptr, rs: seq<Ptr>, xs: seq<Datum>)
    requires Valid(s) && HasQueue(s.cursors, c) && s.cursors[c].desc in s.descs && Exact(s.descs, s.owners)
    requires |rs| == |xs| && Distinct(rs) && forall r :: r in rs ==> r != NULL && r !in s.rows
    ensures Exact(AddRows(s, c, rs, xs).descs, AddRows(s, c, rs, xs).owners)
    decreases |rs|
  {
    if rs != [] {
      var n := |rs| - 1;
      NewRow(s, c, rs, xs);
      AddRowsExact(s, c, rs[..n], xs[..n]);
      var t := AddRows(s, c, rs[..n], xs[..n]);
      AddRefExact(t, t.cursors[c].desc, ByRow(rs[n]));
    }
  }

  lemma StartedKeeps(s: State, c: Ptr, d: Ptr, rs: seq<Ptr>)
    requires Valid(s) && CanCall(s, c, d, rs) && NeedsFetch(s, c) && s.cursors[c].portal.value != []
    ensures s.cursors[c].desc == NULL ==> ByCursor(c) !in s.owners
    ensures Valid(Started(s, c, d)) && Started(s, c, d).cursors[c].desc in Started(s, c, d).descs
  {
    var rest := s.cursors[c].portal.value[|Batch(s.cursors[c].portal.value)|..];
    if s.cursors[c].desc == NULL { StartDescKeeps(s, c, d, rest); } else { StartQueueKeeps(s, c, rest); }
  }

  lemma NextExact(s: State, c: Ptr, d: Ptr, rs: seq<Ptr>)
    requires Valid(s) && CanFetch(s, c, d, rs) && Exact(s.descs, s.owners)
    ensures Exact(NextRow(s, c, d, rs).0.descs, NextRow(s, c, d, rs).0.owners)
  {
    var cur := s.cursors[c];
    if NeedsFetch(s, c) {
      if cur.portal.value == [] {
        if ByCursor(c) in s.owners { UnrefExact(s, ByCursor(c)); }
      } else {
        StartedKeeps(s, c, d, rs);
        if cur.desc == NULL { MakeExact(s, d, ByCursor(c)); }
        AddRowsExact(Started(s, c, d), c, rs, Batch(cur.portal.value));
      }
    }
  }

  lemma CleanupExact(s: State, c: Ptr)
    requires Sound(s) && Exact(s.descs, s.owners) && HasQueue(s.cursors, c) && s.cursors[c].queue.value == []
    ensures Exact(Cleanup(s, c).descs, Cleanup(s, c).owners)
  {
    CleanupForm(s, c);
    TidyForm(s, c);
    assert QueueOk(s.owners, s.cursors[c], c, s.rows);
    assert OwnersWithout(s.owners, []) == s.owners;
    HolderRemoved(s.owners, ByCursor(c));
  }

  lemma CleanExact(s: State, S: Ptr)
    requires Exact(s.descs, s.owners) && S in s.stacks
    ensures Exact(Clean(s, S).descs, s.owners)
  {
  }

  lemma DestructExact(s: State, r: Resource)
    requires Sound(s) && Present(s, r) && Exact(s.descs, s.owners)
    requires r.CursorRes? && HasQueue(s.cursors, r.cursor) ==> s.cursors[r.cursor].queue.value == []
    ensures Exact(Destruct(s, r).descs, Destruct(s, r).owners)
    ensures forall e :: e in s.cursors && CursorRes(e) != r ==> e in Destruct(s, r).cursors && Destruct(s, r).cursors[e] == s.cursors[e]
    ensures Destruct(s, r).cursors.Keys == s.cursors.Keys
  {
    match r
    case StackRes(S) => CleanExact(s, S);
    case CursorRes(c) =>
      if HasQueue(s.cursors, c) { CleanupExact(s, c); }
      CleanupFrame(s, c);
  }

  lemma {:induction false} DestructAllExact(s: State, rs: seq<Resource>)
    requires Sweepable(s, rs) && Exact(s.descs, s.owners)
    requires forall c :: CursorRes(c) in rs && HasQueue(s.cursors, c) ==> s.cursors[c].queue.value == []
    ensures Exact(DestructAll(s, rs).descs, DestructAll(s, rs).owners)
    decreases |rs|
  {
    if rs != [] {
      assert rs == [rs[0]] + rs[1..];
      DestructFirst(s, rs);
      var s1 := Destruct(s, rs[0]);
      DestructExact(s, rs[0]);
      forall e | CursorRes(e) in rs[1..] && HasQueue(s1.cursors, e) ensures s1.cursors[e].queue.value == [] {
        assert CursorRes(e) in rs && CursorRes(e) != rs[0];
      }
      DestructAllExact(s1, rs[1..]);
    }
  }

  // ---------- Surplus ----------

  /** d counts more references than it has holders. */
  ghost predicate Surplus(descs: map<Ptr, Desc>, owners: map<Holder, Ptr>, d: Ptr) {
    d in descs && descs[d].refs > |HoldersOf(owners, d)|
  }

  lemma InexactHasSurplus(s: State) returns (d: Ptr)
    requires Core(s) && !Exact(s.descs, s.owners)
    ensures Surplus(s.descs, s.owners, d)
  {
    d :| d in s.descs && s.descs[d].refs != |HoldersOf(s.owners, d)|;
  }

  lemma SurplusIsInexact(s: State, d: Ptr)
    requires Surplus(s.descs, s.owners, d)
    ensures !Exact(s.descs, s.owners)
  {
  }

  lemma UnrefSurplus(s: State, h: Holder, d: Ptr)
    requires Core(s) && h in s.owners && Surplus(s.descs, s.owners, d)
    ensures Surplus(Unref(s, h).descs, Unref(s, h).owners, d)
  {
    HolderRemoved(s.owners, h);
    ReleaseForm(Forget(s, h), s.owners[h]);
  }

  lemma ForgetSurplus(s: State, h: Holder, d: Ptr)
    requires Surplus(s.descs, s.owners, d)
    ensures Surplus(s.descs, s.owners - {h}, d)
  {
    FewerHolders(s.owners, s.owners - {h}, d);
  }

  lemma AddRefSurplus(s: State, e: Ptr, h: Holder, d: Ptr)
    requires e in s.descs && h !in s.owners && Surplus(s.descs, s.owners, d)
    ensures Surplus(AddRef(s, e, h).descs, AddRef(s, e, h).owners, d)
  {
    HolderAdded(s.owners, h, e);
  }

  lemma MakeSurplus(s: State, e: Ptr, h: Holder, d: Ptr)
    requires CurrentOk(s) && e !in s.descs && h !in s.owners && Surplus(s.descs, s.owners, d)
    ensures Surplus(Make(s, e, h).descs, Make(s, e, h).owners, d)
  {
    HolderAdded(s.owners, h, e);
  }

  lemma AddRowsDesc(s: State, c: Ptr, rs: seq<Ptr>, xs: seq<Datum>)
    requires HasQueue(s.cursors, c) && s.cursors[c].desc in s.descs && |rs| == |xs|
    ensures AddRows(s, c, rs, xs).cursors[c].desc in AddRows(s, c, rs, xs).descs
  {
  }

  lemma {:induction false} AddRowsSurplus(s: State, c: Ptr, rs: seq<Ptr>, xs: seq<Datum>, d: Ptr)
    requires Valid(s) && HasQueue(s.cursors, c) && s.cursors[c].desc in s.descs && Surplus(s.descs, s.owners, d)
    requires |rs| == |xs| && Distinct(rs) && forall r :: r in rs ==> r != NULL && r !in s.rows
    ensures Surplus(AddRows(s, c, rs, xs).descs, AddRows(s, c, rs, xs).owners, d)
    decreases |rs|
  {
    hide HomesOk, RefsOk, CountOk, CellsOk, CursorsOk, RegisteredOk, IterOk, Distinct, Surplus;
    if rs != [] {
      var n := |rs| - 1;
      NewRow(s, c, rs, xs);
      assert forall r :: r in rs[..n] ==> r in rs;
      AddRowsSurplus(s, c, rs[..n], xs[..n], d);
      var t := AddRows(s, c, rs[..n], xs[..n]);
      AddRowsDesc(s, c, rs[..n], xs[..n]);
      AddRefSurplus(t, t.cursors[c].desc, ByRow(rs[n]), d);
    }
  }

  lemma NextSurplus(s: State, c: Ptr, d: Ptr, rs: seq<Ptr>, e: Ptr)
    requires Valid(s) && CanFetch(s, c, d, rs) && Surplus(s.descs, s.owners, e)
    ensures Surplus(NextRow(s, c, d, rs).0.descs, NextRow(s, c, d, rs).0.owners, e)
  {
    var cur := s.cursors[c];
    if NeedsFetch(s, c) {
      if cur.portal.value == [] {
        if ByCursor(c) in s.owners { UnrefSurplus(s, ByCursor(c), e); }
      } else {
        if cur.desc == NULL { MakeSurplus(s, d, ByCursor(c), e); }
        StartedKeeps(s, c, d, rs);
        AddRowsSurplus(Started(s, c, d), c, rs, Batch(cur.portal.value), e);
      }
    }
  }

  lemma CleanupSurplus(s: State, c: Ptr, d: Ptr)
    requires Sound(s) && HasQueue(s.cursors, c)
    requires Surplus(s.descs, s.owners, d) || (d == s.cursors[c].desc && s.cursors[c].queue.value != [])
    ensures Surplus(Cleanup(s, c).descs, Cleanup(s, c).owners, d)
  {
    hide HomesOk, CountOk, CellsOk;
    var q, h := s.cursors[c].queue.value, ByCursor(c);
    CleanupForm(s, c);
    TidyForm(s, c);
    assert QueueOk(s.owners, s.cursors[c], c, s.rows);
    HolderRemoved(s.owners, h);
    var owners' := OwnersWithout(s.owners, q) - {h};
    FewerHolders(s.owners - {h}, owners', d);
    if q != [] {
      HolderRemoved(s.owners - {h}, ByRow(q[0]));
      FewerHolders(s.owners - {h} - {ByRow(q[0])}, owners', d);
    }
  }

  lemma DestructSurplus(s: State, r: Resource, d: Ptr)
    requires Sound(s) && Present(s, r) && Surplus(s.descs, s.owners, d)
    ensures Surplus(Destruct(s, r).descs, Destruct(s, r).owners, d)
  {
    match r
    case StackRes(S) =>
    case CursorRes(c) => if HasQueue(s.cursors, c) { CleanupSurplus(s, c, d); }
  }

  lemma {:induction false} DestructAllSurplus(s: State, rs: seq<Resource>, d: Ptr)
    requires Sweepable(s, rs) && Surplus(s.descs, s.owners, d)
    ensures Surplus(DestructAll(s, rs).descs, DestructAll(s, rs).owners, d)
    decreases |rs|
  {
    if rs != [] {
      DestructFirst(s, rs);
      DestructSurplus(s, rs[0], d);
      DestructAllSurplus(Destruct(s, rs[0]), rs[1..], d);
    }
  }

  /** A surplus never goes away, and its descriptor is never freed. */
  lemma SurplusStays(s: State, op: Op, d: Ptr)
    requires Valid(s) && Legal(s, op) && Surplus(s.descs, s.owners, d)
    ensures Surplus(Apply(s, op).descs, Apply(s, op).owners, d)
  {
    match op
    case MakeDesc(e, h) => MakeSurplus(s, e, h, d);
    case RefDesc(e, h) => AddRefSurplus(s, e, h, d);
    case UnrefDesc(h) => UnrefSurplus(s, h, d);
    case LoseDesc(h) => ForgetSurplus(s, h, d);
    case InitStack(S, cell) =>
    case InUse(S) =>
    case NotInUse(S) =>
    case TryCleanStack(S) =>
    case FreeStack(S) =>
    case SetCurrent(p) =>
    case Open(c, portal) =>
    case Close(c) =>
    case Next(c, e, rs) => NextSurplus(s, c, e, rs, d);
    case CollectRow(r) => UnrefSurplus(s, ByRow(r), d);
    case CollectCursor(c) => if HasQueue(s.cursors, c) { CleanupSurplus(s, c, d); }
    case EndTransaction =>
      ValidSweepable(s);
      DestructAllSurplus(s.(resources := []), s.resources, d);
  }

  // ---------- Exactly the orderly steps ----------

  /** A step of disorder leaves a surplus. */
  lemma DisorderMakesSurplus(s: State, op: Op)
    requires Valid(s) && Legal(s, op) && !Orderly(s, op)
    ensures !Exact(Apply(s, op).descs, Apply(s, op).owners)
  {
    match op
    case LoseDesc(h) =>
      HolderRemoved(s.owners, h);
      SurplusIsInexact(Apply(s, op), s.owners[h]);
    case CollectCursor(c) =>
      CleanupSurplus(s, c, s.cursors[c].desc);
      SurplusIsInexact(Apply(s, op), s.cursors[c].desc);
    case EndTransaction =>
      ValidSweepable(s);
      var c :| c in s.cursors && CursorRes(c) in s.resources && HasQueue(s.cursors, c) && s.cursors[c].queue.value != [];
      SweptQueue(s.(resources := []), s.resources, c);
  }

  /** Somewhere in the sweep the queue's turn comes. */
  lemma {:induction false} SweptQueue(s: State, rs: seq<Resource>, c: Ptr)
    requires Sweepable(s, rs) && CursorRes(c) in rs && HasQueue(s.cursors, c) && s.cursors[c].queue.value != []
    ensures !Exact(DestructAll(s, rs).descs, DestructAll(s, rs).owners)
    decreases |rs|
  {
    hide HomesOk, RefsOk, CountOk, CellsOk, CursorsOk, Exact, Surplus;
    DestructFirst(s, rs);
    var s1 := Destruct(s, rs[0]);
    if rs[0] == CursorRes(c) {
      CleanupSurplus(s, c, s.cursors[c].desc);
      DestructAllSurplus(s1, rs[1..], s.cursors[c].desc);
      SurplusIsInexact(DestructAll(s1, rs[1..]), s.cursors[c].desc);
    } else {
      assert rs == [rs[0]] + rs[1..];
      assert Present(s, rs[0]);
      if rs[0].CursorRes? { CleanupFrame(s, rs[0].cursor); }
      SweptQueue(s1, rs[1..], c);
    }
  }

  lemma OrderKeepsExact(s: State, op: Op)
    requires Valid(s) && Legal(s, op) && Orderly(s, op) && Exact(s.descs, s.owners)
    ensures Exact(Apply(s, op).descs, Apply(s, op).owners)
  {
    hide HomesOk, CountOk, CellsOk, Exact;
    match op
    case MakeDesc(d, h) => MakeExact(s, d, h);
    case RefDesc(d, h) => AddRefExact(s, d, h);
    case UnrefDesc(h) => UnrefExact(s, h);
    case LoseDesc(h) => assert s.owners - {h} == s.owners;
    case InitStack(S, cell) =>
    case InUse(S) =>
    case NotInUse(S) =>
    case TryCleanStack(S) => CleanExact(s, S);
    case FreeStack(S) => CleanExact(s, S);
    case SetCurrent(p) =>
    case Open(c, portal) =>
    case Close(c) =>
    case Next(c, d, rs) => NextExact(s, c, d, rs);
    case CollectRow(r) => UnrefExact(s, ByRow(r));
    case CollectCursor(c) => if HasQueue(s.cursors, c) { CleanupExact(s, c); }
    case EndTransaction =>
      ValidSweepable(s);
      DestructAllExact(s.(resources := []), s.resources);
  }

  /** From exact counts, a step leaves exact counts if and only if it is orderly. */
  lemma StepIsExact(s: State, op: Op)
    requires Valid(s) && Legal(s, op) && Exact(s.descs, s.owners)
    ensures Exact(Apply(s, op).descs, Apply(s, op).owners) <==> Orderly(s, op)
  {
    if Orderly(s, op) { OrderKeepsExact(s, op); } else { DisorderMakesSurplus(s, op); }
  }

  // ---------- Whole runs ----------

  ghost predicate OrderlyRun(s: State, ops: seq<Op>)
    requires Valid(s) && LegalRun(s, ops)
    decreases |ops|
  {
    ops != [] && !Breaks(s, ops[0]) ==>
      (LegalIs(s, ops[0]); Orderly(s, ops[0]) && OrderlyRun(Step(s, ops[0]), ops[1..]))
  }

  lemma {:induction false} SurplusStaysForGood(s: State, ops: seq<Op>, d: Ptr)
    requires Valid(s) && LegalRun(s, ops) && Surplus(s.descs, s.owners, d)
    ensures Surplus(Run(s, ops).s.descs, Run(s, ops).s.owners, d)
    decreases |ops|
  {
    hide Apply, Legal, Callable, Breaks, Valid;
    if ops != [] && !Breaks(s, ops[0]) {
      LegalIs(s, ops[0]);
      SurplusStays(s, ops[0], d);
      SurplusStaysForGood(Step(s, ops[0]), ops[1..], d);
    }
  }

  /** From exact counts, a run ends with each count equal to the number of holders (so
      that a descriptor dies with its last holder, neither earlier nor later) if and only
      if every step was orderly. */
  lemma {:induction false} RunIsExact(s: State, ops: seq<Op>)
    requires Valid(s) && LegalRun(s, ops) && Exact(s.descs, s.owners)
    ensures Exact(Run(s, ops).s.descs, Run(s, ops).s.owners) <==> OrderlyRun(s, ops)
    decreases |ops|
  {
    hide Apply, Legal, Callable, Breaks, Orderly, Valid, Exact, Surplus;
    if ops != [] && !Breaks(s, ops[0]) {
      LegalIs(s, ops[0]);
      StepIsExact(s, ops[0]);
      var s1 := Step(s, ops[0]);
      if Orderly(s, ops[0]) {
        RunIsExact(s1, ops[1..]);
      } else {
        ValidIsCore(s1);
        var d := InexactHasSurplus(s1);
        SurplusStaysForGood(s1, ops[1..], d);
        SurplusIsInexact(Run(s1, ops[1..]).s, d);
      }
    }
  }

  lemma ValidIsCore(s: State)
    requires Valid(s)
    ensures Core(s)
  {
  }

  // ---------- Two runs that are not orderly ----------

  lemma FirstStep(s: State, op: Op, ops: seq<Op>)
    requires Valid(s) && Legal(s, op) && LegalRun(Step(s, op), ops)
    ensures LegalRun(s, [op] + ops) && Run(s, [op] + ops) == Run(Step(s, op), ops)
  {
    hide Legal, Callable, Breaks, Apply, Valid;
    assert ([op] + ops)[0] == op && ([op] + ops)[1..] == ops;
    LegalIs(s, op);
  }

  lemma ThreeSteps(s: State, a: Op, b: Op, c: Op)
    requires Valid(s) && Legal(s, a) && Legal(Step(s, a), b) && Legal(Step(Step(s, a), b), c)
    ensures LegalRun(s, [a, b, c]) && Run(s, [a, b, c]).s == Step(Step(Step(s, a), b), c)
  {
    hide Legal, Callable, Breaks, Apply, Valid;
    FirstStep(Step(Step(s, a), b), c, []);
    FirstStep(Step(s, a), b, [c]);
    FirstStep(s, a, [b, c]);
    assert [c] + [] == [c] && [b] + [c] == [b, c] && [a] + [b, c] == [a, b, c];
  }

  /** Two queries, one after the other: the tuptable's second descriptor overwrites the
      first, which keeps its reference and has no holder. */
  lemma TuptableLeaks(d: Ptr, e: Ptr, h: Holder)
    requires d != NULL && e != NULL && d != e && h.ByUserdata?
    ensures var ops := [MakeDesc(d, h), LoseDesc(h), MakeDesc(e, h)];
      && Valid(EMPTY) && LegalRun(EMPTY, ops)
      && var s := Run(EMPTY, ops).s;
         d in s.descs && s.descs[d].refs == 1 && HoldersOf(s.owners, d) == {} && !Exact(s.descs, s.owners)
  {
    EmptyIsValid();
    var s1 := Step(EMPTY, MakeDesc(d, h));
    var s2 := Step(s1, LoseDesc(h));
    var s3 := Step(s2, MakeDesc(e, h));
    ThreeSteps(EMPTY, MakeDesc(d, h), LoseDesc(h), MakeDesc(e, h));
    assert HoldersOf(s3.owners, d) == {};
    SurplusIsInexact(s3, d);
  }

  lemma TwoRows(s: State, c: Ptr, d: Ptr, r: Ptr, q: Ptr, x: Datum, y: Datum)
    requires c != NULL && d != NULL && r != NULL && q != NULL && r != q
    requires s == OpenCursor(EMPTY, c, [x, y]) && Valid(s)
    ensures CanFetch(s, c, d, [r, q]) && NextRow(s, c, d, [r, q]).0 == State(
      map[d := Desc(3, true, NULL, true)], map[], map[ByCursor(c) := d, ByRow(r) := d, ByRow(q) := d],
      map[c := Cursor(d, Some([q]), Some([]))], map[r := x, q := y], [CursorRes(c)], map[], NULL, 1)
  {
    hide AddRows, Valid, HomesOk, RefsOk;
    assert Batch([x, y]) == [x, y] && [x, y][2..] == [];
    assert Started(s, c, d) == State(
      map[d := Desc(1, true, NULL, true)], map[], map[ByCursor(c) := d],
      map[c := Cursor(d, Some([]), Some([]))], map[], [CursorRes(c)], map[], NULL, 1);
    TwoAdded(Started(s, c, d), c, r, q, x, y);
    FillMakesQueue(s, c, d, [r, q]);
  }

  lemma TwoAdded(s: State, c: Ptr, r: Ptr, q: Ptr, x: Datum, y: Datum)
    requires HasQueue(s.cursors, c) && s.cursors[c].desc in s.descs
    ensures var s1 := AddRow(s, c, r, x);
      HasQueue(s1.cursors, c) && s1.cursors[c].desc in s1.descs && AddRows(s, c, [r, q], [x, y]) == AddRow(s1, c, q, y)
  {
    hide AddRow;
    assert [r][..0] == [] && [x][..0] == [];
    assert AddRows(s, c, [], []) == s;
    assert AddRows(s, c, [r], [x]) == AddRow(s, c, r, x);
    assert [r, q][..1] == [r] && [x, y][..1] == [x];
  }

  /** One row of two is fetched and the cursor collected: the other row is freed without
      giving its reference back. */
  lemma QueuedRowLeaks(c: Ptr, d: Ptr, r: Ptr, q: Ptr, x: Datum, y: Datum)
    requires c != NULL && d != NULL && r != NULL && q != NULL && r != q
    ensures var ops := [Open(c, [x, y]), Next(c, d, [r, q]), CollectCursor(c)];
      && Valid(EMPTY) && LegalRun(EMPTY, ops)
      && var s := Run(EMPTY, ops).s;
         d in s.descs && s.descs[d].refs == 2 && HoldersOf(s.owners, d) == {ByRow(r)} && !Exact(s.descs, s.owners)
  {
    EmptyIsValid();
    var s1 := Step(EMPTY, Open(c, [x, y]));
    TwoRows(s1, c, d, r, q, x, y);
    var s2 := Step(s1, Next(c, d, [r, q]));
    var s3 := Step(s2, CollectCursor(c));
    ThreeSteps(EMPTY, Open(c, [x, y]), Next(c, d, [r, q]), CollectCursor(c));
    OneQueued(s2, c, d, r, q, x, y);
    SurplusIsInexact(s3, d);
  }

  lemma OneQueued(s: State, c: Ptr, d: Ptr, r: Ptr, q: Ptr, x: Datum, y: Datum)
    requires Valid(s) && r != q
    requires s == State(
      map[d := Desc(3, true, NULL, true)], map[], map[ByCursor(c) := d, ByRow(r) := d, ByRow(q) := d],
      map[c := Cursor(d, Some([q]), Some([]))], map[r := x, q := y], [CursorRes(c)], map[], NULL, 1)
    ensures var s' := GcCursor(s, c);
      d in s'.descs && s'.descs[d].refs == 2 && HoldersOf(s'.owners, d) == {ByRow(r)}
  {
    CleanupForm(s, c);
    TidyForm(s, c);
  }
}
