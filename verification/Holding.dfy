/** Who holds a descriptor on a frame's stack, how each kind of holder lets go, and that
    nothing else a body does ends a hold. */
module Holding {
  import opened Memory
  import opened Ledger
  import opened LedgerProofs
  import opened CursorProofs
  import opened Iterator
  import opened Sweep
  import opened Runs

  /** h (a userdata, an iterating cursor or a row) holds a descriptor whose TupleDesc the
      stack S keeps. */
  ghost predicate Held(s: State, h: Holder, S: Ptr) {
    h in s.owners && s.owners[h] in s.descs && s.descs[s.owners[h]].home == S && S in s.stacks
  }

  /** It still holds the same one, and the stack belongs to the same cell. */
  ghost predicate StillHeld(s: State, s': State, h: Holder, S: Ptr) {
    && Held(s, h, S) && Held(s', h, S) && s'.owners[h] == s.owners[h]
    && S in s.stacks && S in s'.stacks && s'.stacks[S].cell == s.stacks[S].cell
  }

  /** On a stack means not lost: the TupleDesc can be read. */
  lemma HeldIsLive(s: State, h: Holder, S: Ptr)
    requires Valid(s) && Held(s, h, S)
    ensures s.descs[s.owners[h]].live
  {
    assert HomeOk(s.descs[s.owners[h]], s.owners[h], s.stacks);
  }

  /** op, done in s, is how h gives its reference up: a userdata is released or
      overwritten, a cursor collected or at its end, a row collected, itself or with the
      cursor in whose queue it still is. */
  predicate LetsGo(s: State, op: Op, h: Holder) {
    match h
    case ByUserdata(_) => op == UnrefDesc(h) || op == LoseDesc(h)
    case ByCursor(c) => op == CollectCursor(c) || (op.Next? && op.c == c && AtEnd(s, c))
    case ByRow(r) => op == CollectRow(r) || (op.CollectCursor? && HasQueue(s.cursors, op.c) && r in s.cursors[op.c].queue.value)
  }

  predicate AtEnd(s: State, c: Ptr) {
    c in s.cursors && NeedsFetch(s, c) && s.cursors[c].portal == Some([])
  }

  /** h has let go for good: unless its address is used for something new, it will not
      hold a descriptor again. */
  ghost predicate Over(s: State, h: Holder) {
    h !in s.owners && (h.ByCursor? ==> CursorRes(h.p) !in s.resources)
  }

  /** op makes something new at h's address. */
  predicate Reuses(op: Op, h: Holder) {
    match op
    case MakeDesc(_, g) => g == h
    case RefDesc(_, g) => g == h
    case Open(c, _) => h == ByCursor(c)
    case Next(_, _, rs) => h.ByRow? && h.p in rs
    case _ => false
  }

  predicate OnCursor(op: Op, h: Holder) {
    h.ByCursor? && ((op.Next? && op.c == h.p) || op == CollectCursor(h.p))
  }

  // ---------- Operations of bodies ----------

  /** Another holder's reference goes back: h's own keeps the descriptor. */
  lemma OtherReleased(s: State, h: Holder, other: Holder, S: Ptr)
    requires RefsOk(s.descs, s.owners) && Held(s, h, S) && other in s.owners && other != h
    ensures var d, descs' := s.owners[h], LessDescs(s.descs, s.owners[other]);
      d in descs' && descs'[d].home == S
  {
    if s.owners[other] == s.owners[h] {
      var d := s.owners[h];
      SubsetCardinality({h, other}, HoldersOf(s.owners, d));
      assert |{h, other}| == 2;
    }
  }

  lemma UnrefHeld(s: State, h: Holder, other: Holder, S: Ptr)
    requires Valid(s) && Held(s, h, S) && other in s.owners && other != h
    ensures StillHeld(s, Unref(s, other), h, S)
  {
    OtherReleased(s, h, other, S);
    ReleaseForm(Forget(s, other), s.owners[other]);
  }

  lemma {:induction false} AddRowsHeld(s: State, c: Ptr, rs: seq<Ptr>, xs: seq<Datum>, h: Holder, S: Ptr)
    requires HasQueue(s.cursors, c) && s.cursors[c].desc in s.descs && |rs| == |xs|
    requires Held(s, h, S) && (h.ByRow? ==> h.p !in rs)
    ensures StillHeld(s, AddRows(s, c, rs, xs), h, S)
    decreases |rs|
  {
    if rs != [] { AddRowsHeld(s, c, rs[..|rs| - 1], xs[..|xs| - 1], h, S); }
  }

  lemma NextHeld(s: State, c: Ptr, d: Ptr, rs: seq<Ptr>, h: Holder, S: Ptr)
    requires Valid(s) && CanFetch(s, c, d, rs) && Held(s, h, S) && !(h == ByCursor(c) && AtEnd(s, c))
    ensures StillHeld(s, NextRow(s, c, d, rs).0, h, S)
  {
    if !NeedsFetch(s, c) {
    } else if s.cursors[c].portal.value == [] {
      if ByCursor(c) in s.owners { UnrefHeld(s, h, ByCursor(c), S); }
    } else {
      StartHeld(s, c, d, h, S);
      StartedHasDesc(s, c, d, rs);
      if h.ByRow? { RowIsThere(s, h); }
      AddRowsHeld(Started(s, c, d), c, rs, Batch(s.cursors[c].portal.value), h, S);
    }
  }

  lemma RowIsThere(s: State, h: Holder)
    requires Valid(s) && h in s.owners && h.ByRow?
    ensures h.p in s.rows
  {
  }

  lemma StartHeld(s: State, c: Ptr, d: Ptr, h: Holder, S: Ptr)
    requires Valid(s) && c in s.cursors && s.cursors[c].portal.Some? && Held(s, h, S)
    requires s.cursors[c].desc == NULL ==> CurrentOk(s) && d !in s.descs && ByCursor(c) !in s.owners
    ensures StillHeld(s, Started(s, c, d), h, S)
  {
  }

  lemma CollectHeld(s: State, c: Ptr, h: Holder, S: Ptr)
    requires Valid(s) && HasQueue(s.cursors, c) && Held(s, h, S) && !LetsGo(s, CollectCursor(c), h)
    ensures StillHeld(s, Cleanup(s, c), h, S)
  {
    CleanupForm(s, c);
    TidyForm(s, c);
    assert QueueOk(s.owners, s.cursors[c], c, s.rows);
    OtherReleased(s, h, ByCursor(c), S);
  }

  lemma DescOpHeld(s: State, op: Op, h: Holder, S: Ptr)
    requires Valid(s) && Legal(s, op) && Held(s, h, S) && !LetsGo(s, op, h)
    requires op.MakeDesc? || op.RefDesc? || op.UnrefDesc? || op.LoseDesc?
    ensures StillHeld(s, Step(s, op), h, S)
  {
    hide CountOk, CellsOk, CursorsOk, RegisteredOk, IterOk;
    if op.UnrefDesc? { UnrefHeld(s, h, op.h, S); }
  }

  lemma CursorOpHeld(s: State, op: Op, h: Holder, S: Ptr)
    requires Valid(s) && Legal(s, op) && Held(s, h, S) && !LetsGo(s, op, h)
    requires op.Open? || op.Close? || op.CollectRow? || op.CollectCursor?
    ensures StillHeld(s, Step(s, op), h, S)
  {
    hide HomesOk, RefsOk, CountOk, CellsOk;
    match op
    case CollectRow(r) => UnrefHeld(s, h, ByRow(r), S);
    case CollectCursor(c) => if HasQueue(s.cursors, c) { CollectHeld(s, c, h, S); }
    case _ =>
  }

  lemma PerformHeld(s: State, op: Op, h: Holder, S: Ptr)
    requires Valid(s) && BodyOp(op) && Legal(s, op) && Held(s, h, S) && !LetsGo(s, op, h)
    ensures StillHeld(s, Step(s, op), h, S)
  {
    hide HomesOk, RefsOk, CountOk, CellsOk, CursorsOk, IterOk, StillHeld;
    if op.MakeDesc? || op.RefDesc? || op.UnrefDesc? || op.LoseDesc? {
      DescOpHeld(s, op, h, S);
    } else if op.Next? {
      NextHeld(s, op.c, op.d, op.rs, h, S);
    } else {
      CursorOpHeld(s, op, h, S);
    }
  }

  lemma EndsOver(s: State, op: Op, h: Holder)
    requires Valid(s) && Legal(s, op) && h in s.owners && LetsGo(s, op, h)
    ensures Over(Step(s, op), h)
  {
    if op.UnrefDesc? || op.LoseDesc? {
    } else if op.Next? {
      FinishOver(s, op.c);
    } else if op.CollectRow? {
      ReleaseFrame(Forget(s, ByRow(op.r)), s.owners[ByRow(op.r)]);
    } else {
      CollectOver(s, op.c, h);
    }
  }

  lemma FinishOver(s: State, c: Ptr)
    requires Valid(s) && ByCursor(c) in s.owners
    ensures c in s.cursors && Over(Finish(s, c), ByCursor(c))
  {
    ReleaseFrame(Forget(s, ByCursor(c)), s.owners[ByCursor(c)]);
    DeleteProps(s.resources, CursorRes(c));
  }

  lemma CollectOver(s: State, c: Ptr, h: Holder)
    requires Valid(s) && Legal(s, CollectCursor(c)) && h in s.owners && LetsGo(s, CollectCursor(c), h)
    ensures Over(GcCursor(s, c), h)
  {
    CleanupForm(s, c);
    TidyForm(s, c);
    DeleteProps(s.resources, CursorRes(c));
  }

  lemma {:induction false} AddRowsOwners(s: State, c: Ptr, rs: seq<Ptr>, xs: seq<Datum>, h: Holder)
    requires HasQueue(s.cursors, c) && s.cursors[c].desc in s.descs && |rs| == |xs|
    requires h !in s.owners && (h.ByRow? ==> h.p !in rs)
    ensures h !in AddRows(s, c, rs, xs).owners
    decreases |rs|
  {
    if rs != [] { AddRowsOwners(s, c, rs[..|rs| - 1], xs[..|xs| - 1], h); }
  }

  lemma FinishStaysOver(s: State, c: Ptr, h: Holder)
    requires HomesOk(s.descs, s.stacks) && RefsOk(s.descs, s.owners) && Distinct(s.resources) && c in s.cursors && Over(s, h)
    ensures Over(Finish(s, c), h)
  {
    if ByCursor(c) in s.owners { ReleaseFrame(Forget(s, ByCursor(c)), s.owners[ByCursor(c)]); }
    DeleteProps(s.resources, CursorRes(c));
  }

  /** A fetch is registered, so it is not h's cursor that gets a descriptor. */
  lemma FillStaysOver(s: State, c: Ptr, d: Ptr, rs: seq<Ptr>, h: Holder)
    requires Valid(s) && CanFetch(s, c, d, rs) && NeedsFetch(s, c) && s.cursors[c].portal.value != []
    requires Over(s, h) && (h.ByRow? ==> h.p !in rs)
    ensures Over(Fill(s, c, d, rs), h)
  {
    hide HomesOk, RefsOk, CountOk, CellsOk, AddRows;
    StartedHasDesc(s, c, d, rs);
    AddRowsOwners(Started(s, c, d), c, rs, Batch(s.cursors[c].portal.value), h);
    AddRowsFrame(Started(s, c, d), c, rs, Batch(s.cursors[c].portal.value));
  }

  lemma NextStaysOver(s: State, c: Ptr, d: Ptr, rs: seq<Ptr>, h: Holder)
    requires Valid(s) && CanFetch(s, c, d, rs) && Over(s, h) && (h.ByRow? ==> h.p !in rs)
    ensures Over(NextRow(s, c, d, rs).0, h)
  {
    hide HomesOk, RefsOk, CountOk, CellsOk, CursorsOk, Fill, Finish;
    if !NeedsFetch(s, c) {
    } else if s.cursors[c].portal.value == [] {
      FinishStaysOver(s, c, h);
    } else {
      FillStaysOver(s, c, d, rs, h);
      StartedHasDesc(s, c, d, rs);
      FillMakesQueue(s, c, d, rs);
    }
  }

  lemma DescStaysOver(s: State, op: Op, h: Holder)
    requires Valid(s) && Legal(s, op) && Over(s, h) && !Reuses(op, h)
    requires op.MakeDesc? || op.RefDesc? || op.UnrefDesc? || op.LoseDesc?
    ensures Over(Step(s, op), h)
  {
    if op.UnrefDesc? { ReleaseFrame(Forget(s, op.h), s.owners[op.h]); }
  }

  lemma CollectStaysOver(s: State, c: Ptr, h: Holder)
    requires Valid(s) && Legal(s, CollectCursor(c)) && Over(s, h)
    ensures Over(GcCursor(s, c), h)
  {
    DeleteProps(s.resources, CursorRes(c));
    if HasQueue(s.cursors, c) {
      CleanupForm(s, c);
      TidyForm(s, c);
    }
  }

  lemma StaysOver(s: State, op: Op, h: Holder)
    requires Valid(s) && BodyOp(op) && Legal(s, op) && Over(s, h) && !Reuses(op, h)
    ensures Over(Step(s, op), h)
  {
    if op.MakeDesc? || op.RefDesc? || op.UnrefDesc? || op.LoseDesc? {
      DescStaysOver(s, op, h);
    } else if op.Next? {
      NextStaysOver(s, op.c, op.d, op.rs, h);
    } else if op.CollectCursor? {
      CollectStaysOver(s, op.c, h);
    } else if op.CollectRow? {
      ReleaseFrame(Forget(s, ByRow(op.r)), s.owners[ByRow(op.r)]);
    } else if op.Close? {
      DeleteProps(s.resources, CursorRes(op.c));
    }
  }

  /** No call on a cursor breaks while the cursor's descriptor is kept by a stack, nor
      after the cursor has let go of it. */
  lemma NothingBreaks(s: State, op: Op, h: Holder, S: Ptr)
    requires Valid(s) && Callable(s, op) && OnCursor(op, h) && (Held(s, h, S) || Over(s, h))
    ensures !Breaks(s, op)
  {
    if Held(s, h, S) {
      HeldIsLive(s, h, S);
    } else {
      assert !HasQueue(s.cursors, h.p);
    }
  }

  // ---------- Operations of handlers ----------

  /** Cleaning another stack does not reach what S keeps. */
  lemma DetachHeld(s: State, T: Ptr, h: Holder, S: Ptr)
    requires Valid(s) && T in s.stacks && T != S && Held(s, h, S)
    ensures var d := s.owners[h]; d in Detach(s.descs, s.stacks[T].items) && Detach(s.descs, s.stacks[T].items)[d].home == S
  {
    assert ItemsOk(s.descs, T, s.stacks[T].items);
  }

  lemma UnrefStackHeld(s: State, T: Ptr, h: Holder, S: Ptr)
    requires Valid(s) && T in s.stacks && Held(s, h, S) && (T != S || s.stacks[T].refs > 1)
    ensures StillHeld(s, UnrefStack(s, T), h, S)
  {
    if T != S { DetachHeld(s, T, h, S); }
    var s1 := SetRefs(s, T, s.stacks[T].refs - 1);
    if s1.stacks[T].refs == 0 { DismantleForm(s1, T); }
  }

  lemma TryCleanHeld(s: State, T: Ptr, h: Holder, S: Ptr)
    requires Valid(s) && T in s.stacks && Held(s, h, S) && (T != S || s.stacks[T].refs > 1)
    ensures StillHeld(s, TryClean(s, T), h, S)
  {
    if T != S { DetachHeld(s, T, h, S); }
  }

  /** What the frames' operations leave alone: holders, cursors and rows. */
  ghost predicate Quiet(s: State, s': State) {
    && s'.owners == s.owners && s'.cursors == s.cursors && s'.rows == s.rows
    && forall c :: CursorRes(c) in s'.resources <==> CursorRes(c) in s.resources
  }

  lemma FreeQuiet(s: State, S: Ptr)
    requires S in s.stacks && Distinct(s.resources)
    ensures Quiet(s, FreeIfNotUsed(s, S))
  {
    DeleteProps(s.resources, StackRes(S));
  }

  lemma StackOpQuiet(s: State, op: Op)
    requires Valid(s) && Legal(s, op) && StackOp(op)
    ensures Quiet(s, Step(s, op))
  {
    hide Valid, FreeIfNotUsed;
    ValidDistinct(s);
    if op.FreeStack? { FreeQuiet(s, op.S); }
  }
}
