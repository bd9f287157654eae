/** What each operation does to the memory, said of the states before and after. */
module Effects {
  import opened Memory
  import opened Ledger
  import opened LedgerProofs
  import opened CursorProofs
  import opened Sweep
  import opened Runs

  /** The descriptors in items, and no others, have lost their TupleDesc and their stack;
      nobody's references have changed. */
  ghost predicate LostExactly(s: State, s': State, items: seq<Ptr>) {
    && s'.descs.Keys == s.descs.Keys && s'.count == s.count - |items|
    && (forall d {:trigger s'.descs[d]} :: d in s.descs ==>
          if d in items then !s'.descs[d].live && s'.descs[d].home == NULL && s'.descs[d].refs == s.descs[d].refs && s'.descs[d].loose == s.descs[d].loose
          else s'.descs[d] == s.descs[d])
    && s'.owners == s.owners && s'.cursors == s.cursors && s'.rows == s.rows
  }

  /** One use less, and nothing else. */
  ghost predicate CountedDown(s: State, s': State, S: Ptr) {
    S in s.stacks && s' == s.(stacks := s.stacks[S := s.stacks[S].(refs := s.stacks[S].refs - 1)])
  }

  /** The stack is unused and empty, but still there, registered and in its cell. */
  ghost predicate Cleaned(s: State, s': State, S: Ptr) {
    && S in s.stacks && LostExactly(s, s', s.stacks[S].items)
    && s'.stacks == s.stacks[S := Stack(0, [], s.stacks[S].cell)]
    && s'.resources == s.resources && s'.cells == s.cells && s'.current == s.current
  }

  /** The stack is gone, from memory, from the resource list and from its cell. */
  ghost predicate Freed(s: State, s': State, S: Ptr) {
    && S in s.stacks && LostExactly(s, s', s.stacks[S].items)
    && s'.stacks == s.stacks - {S} && s'.current == s.current
    && (forall r :: r in s'.resources <==> r in s.resources && r != StackRes(S))
    && s'.cells == if s.stacks[S].cell == NULL then s.cells else s.cells[s.stacks[S].cell := NULL]
  }

  lemma CleanLoses(s: State, S: Ptr)
    requires S in s.stacks
    ensures LostExactly(s, Clean(s, S), s.stacks[S].items)
  {
  }

  /** rtds_tryclean: the last use cleans the stack, any other is only counted. */
  lemma TryCleanEffect(s: State, S: Ptr)
    requires S in s.stacks
    ensures if s.stacks[S].refs == 1 then Cleaned(s, TryClean(s, S), S) else CountedDown(s, TryClean(s, S), S)
  {
    hide Detach;
    CleanLoses(SetRefs(s, S, s.stacks[S].refs - 1), S);
  }

  /** rtds_free_if_not_used: exactly an unused stack goes. */
  lemma FreeEffect(s: State, S: Ptr)
    requires S in s.stacks && Distinct(s.resources)
    ensures if s.stacks[S].refs == 0 then Freed(s, FreeIfNotUsed(s, S), S) else FreeIfNotUsed(s, S) == s
  {
    hide Detach, Dismantle;
    DismantleForm(s, S);
    CleanLoses(s, S);
    DeleteProps(s.resources, StackRes(S));
  }

  /** Counting first makes no difference to what is freed. */
  lemma FreedAfterCount(s: State, s': State, S: Ptr, n: int)
    requires S in s.stacks && Freed(SetRefs(s, S, n), s', S)
    ensures Freed(s, s', S)
  {
    assert SetRefs(s, S, n).stacks - {S} == s.stacks - {S};
  }

  /** rtds_unref: the last use frees the stack, any other is only counted. */
  lemma UnrefEffect(s: State, S: Ptr)
    requires Valid(s) && S in s.stacks
    ensures if s.stacks[S].refs == 1 then Freed(s, UnrefStack(s, S), S) else CountedDown(s, UnrefStack(s, S), S)
  {
    ValidDistinct(s);
    hide Valid, FreeIfNotUsed, Freed;
    var n := s.stacks[S].refs - 1;
    FreeEffect(SetRefs(s, S, n), S);
    if n == 0 { FreedAfterCount(s, UnrefStack(s, S), S, n); }
  }

  // ---------- Descriptors ----------

  /** A live descriptor d is there, counted once, for h, on top of the current stack or on
      none; everything else is as it was. */
  ghost predicate MadeFor(s: State, s': State, d: Ptr, h: Holder) {
    && d in s'.descs && s'.descs[d].live && s'.descs[d].refs == 1 && s'.descs[d].home == s.current
    && (forall e :: e in s.descs ==> e in s'.descs && s'.descs[e] == s.descs[e]) && s'.descs.Keys == s.descs.Keys + {d}
    && s'.owners == s.owners[h := d] && s'.count == s.count + 1 && s'.stacks.Keys == s.stacks.Keys
    && (forall S {:trigger s'.stacks[S]} :: S in s.stacks ==>
          && s'.stacks[S].refs == s.stacks[S].refs && s'.stacks[S].cell == s.stacks[S].cell
          && s'.stacks[S].items == if S == s.current then [d] + s.stacks[S].items else s.stacks[S].items)
    && s' == s.(descs := s'.descs, owners := s'.owners, stacks := s'.stacks, count := s'.count)
  }

  /** One reference to d less.  d is gone exactly if that was the last one, and then also
      from its stack, and its TupleDesc, if it was still there, is counted out. */
  ghost predicate OneLess(s: State, s': State, d: Ptr) {
    && d in s.descs && (d in s'.descs <==> s.descs[d].refs > 1)
    && (d in s'.descs ==> s'.descs[d] == s.descs[d].(refs := s.descs[d].refs - 1) && s'.count == s.count && s'.stacks == s.stacks)
    && (d !in s'.descs ==> s'.count == s.count - if s.descs[d].live then 1 else 0)
    && s'.descs - {d} == s.descs - {d} && s'.stacks.Keys == s.stacks.Keys
    && (forall S {:trigger s'.stacks[S]} :: S in s.stacks ==>
          && s'.stacks[S].refs == s.stacks[S].refs && s'.stacks[S].cell == s.stacks[S].cell
          && forall e :: e in s'.stacks[S].items <==> e in s.stacks[S].items && e in s'.descs)
  }

  lemma MakeEffect(s: State, d: Ptr, h: Holder)
    requires Valid(s) && CurrentOk(s) && d !in s.descs && h !in s.owners
    ensures MadeFor(s, Make(s, d, h), d, h)
  {
  }

  lemma UnrefDescEffect(s: State, h: Holder)
    requires Valid(s) && h in s.owners
    ensures OneLess(s, Unref(s, h), s.owners[h])
  {
    hide CountOk, CellsOk, CursorsOk, RegisteredOk, IterOk;
    var d := s.owners[h];
    ReleaseForm(Forget(s, h), d);
    forall S | S in s.stacks
      ensures forall e :: e in Unref(s, h).stacks[S].items <==> e in s.stacks[S].items && e in Unref(s, h).descs
    {
      assert ItemsOk(s.descs, S, s.stacks[S].items);
      DeleteProps(s.stacks[S].items, d);
    }
  }

  // ---------- Cursors ----------

  /** A refill takes up to 50 rows off the portal, delivers the first and queues the rest.
      The cursor's descriptor, made on the current stack if there was none, is held by the
      cursor and counted once more for every row. */
  lemma RefillEffect(s: State, c: Ptr, d: Ptr, rs: seq<Ptr>)
    requires Valid(s) && CanFetch(s, c, d, rs) && NeedsFetch(s, c) && s.cursors[c].portal.value != []
    ensures rs != [] && |rs| == if |s.cursors[c].portal.value| < 50 then |s.cursors[c].portal.value| else 50
    ensures var (s', out), cur := NextRow(s, c, d, rs), s.cursors[c];
      var e := if cur.desc == NULL then d else cur.desc;
      && out == Some(rs[0]) && s'.cursors == s.cursors[c := Cursor(e, Some(rs[1..]), Some(cur.portal.value[|rs|..]))]
      && MadeOrKept(s, s', cur.desc, d, |rs|)
      && (forall r :: r in rs ==> ByRow(r) in s'.owners && s'.owners[ByRow(r)] == e)
      && ByCursor(c) in s'.owners && s'.owners[ByCursor(c)] == e && s'.resources == s.resources
  {
    hide HomesOk, RefsOk, CountOk, CellsOk, CursorsOk, RegisteredOk, Started, Fill, Make;
    StartedIs(s, c, d, rs);
    FillMakesQueue(s, c, d, rs);
    FillCounts(s, c, d, rs);
  }

  /** The descriptor e a cursor had, or d, made on the current stack if it had none; it has
      n references more. */
  ghost predicate MadeOrKept(s: State, s': State, e: Ptr, d: Ptr, n: nat) {
    if e == NULL then
      && d in s'.descs && s'.descs[d] == Desc(1 + n, true, s.current, s.current == NULL)
      && s'.count == s.count + 1 && s'.descs - {d} == s.descs - {d}
    else
      && e in s.descs && s.descs[e].live && s'.descs == s.descs[e := s.descs[e].(refs := s.descs[e].refs + n)]
      && s'.count == s.count
  }

  lemma StartedIs(s: State, c: Ptr, d: Ptr, rs: seq<Ptr>)
    requires Valid(s) && CanFetch(s, c, d, rs) && NeedsFetch(s, c) && s.cursors[c].portal.value != []
    ensures s.cursors[c].portal.Some? && |rs| == |Batch(s.cursors[c].portal.value)| && (s.cursors[c].desc != NULL ==> s.cursors[c].desc in s.descs)
    ensures var b, cur := Started(s, c, d), s.cursors[c];
      var e := if cur.desc == NULL then d else cur.desc;
      && MadeOrKept(s, b, cur.desc, d, 0) && b.resources == s.resources
      && b.cursors == s.cursors[c := Cursor(e, Some([]), Some(cur.portal.value[|Batch(cur.portal.value)|..]))]
      && e in b.descs && ByCursor(c) in b.owners && b.owners[ByCursor(c)] == e
  {
    hide HomesOk, CountOk, CellsOk, CursorsOk, RegisteredOk;
    if s.cursors[c].desc != NULL { CursorHolds(s, c); }
  }

  /** Each of the rows rs, and nobody else but rows, got a reference to e. */
  ghost predicate RowsCounted(s: State, s': State, e: Ptr, rs: seq<Ptr>) {
    && e in s.descs && s'.descs == s.descs[e := s.descs[e].(refs := s.descs[e].refs + |rs|)]
    && (forall r :: r in rs ==> ByRow(r) in s'.owners && s'.owners[ByRow(r)] == e)
    && (forall h: Holder :: !h.ByRow? ==> (h in s'.owners <==> h in s.owners) && (h in s.owners ==> s'.owners[h] == s.owners[h]))
  }

  lemma RowCounted(s: State, b: State, c: Ptr, e: Ptr, rs: seq<Ptr>, r: Ptr, x: Datum)
    requires RowsCounted(s, b, e, rs) && HasQueue(b.cursors, c) && b.cursors[c].desc == e
    ensures RowsCounted(s, AddRow(b, c, r, x), e, rs + [r])
  {
  }

  lemma {:induction false} AddRowsCounts(s: State, c: Ptr, rs: seq<Ptr>, xs: seq<Datum>)
    requires HasQueue(s.cursors, c) && s.cursors[c].desc in s.descs && |rs| == |xs|
    ensures RowsCounted(s, AddRows(s, c, rs, xs), s.cursors[c].desc, rs)
    decreases |rs|
  {
    if rs == [] {
      assert s.descs[s.cursors[c].desc := s.descs[s.cursors[c].desc]] == s.descs;
    } else {
      hide RowsCounted, AddRow;
      var n := |rs| - 1;
      AddRowsCounts(s, c, rs[..n], xs[..n]);
      RowCounted(s, AddRows(s, c, rs[..n], xs[..n]), c, s.cursors[c].desc, rs[..n], rs[n], xs[n]);
      assert rs[..n] + [rs[n]] == rs;
    }
  }

  lemma FillCounts(s: State, c: Ptr, d: Ptr, rs: seq<Ptr>)
    requires Valid(s) && CanFetch(s, c, d, rs) && NeedsFetch(s, c) && s.cursors[c].portal.value != []
    ensures var s', e := Fill(s, c, d, rs), if s.cursors[c].desc == NULL then d else s.cursors[c].desc;
      && MadeOrKept(s, s', s.cursors[c].desc, d, |rs|) && s'.resources == s.resources
      && (forall r :: r in rs ==> ByRow(r) in s'.owners && s'.owners[ByRow(r)] == e)
      && ByCursor(c) in s'.owners && s'.owners[ByCursor(c)] == e
  {
    hide HomesOk, RefsOk, CountOk, CellsOk, CursorsOk, RegisteredOk, Started, Make, AddRows, AddRow;
    StartedIs(s, c, d, rs);
    var xs := Batch(s.cursors[c].portal.value);
    AddRowsFrame(Started(s, c, d), c, rs, xs);
    AddRowsCounts(Started(s, c, d), c, rs, xs);
  }

  /** At the end of the iteration the cursor has neither portal nor queue nor reference nor
      registration; it points to its descriptor only if that still exists. */
  lemma FinishEffect(s: State, c: Ptr)
    requires Valid(s) && c in s.cursors && CursorRes(c) in s.resources && NeedsFetch(s, c)
    ensures var s', d := Finish(s, c), s.cursors[c].desc;
      && s'.cursors == s.cursors[c := Cursor(if d in s'.descs then d else NULL, None, None)]
      && ByCursor(c) !in s'.owners && s'.rows == s.rows && (if d == NULL then s'.descs == s.descs else OneLess(s, s', d))
      && (forall r :: r in s'.resources <==> r in s.resources && r != CursorRes(c))
  {
    hide HomesOk, RefsOk, CountOk, CellsOk, CursorsOk, RegisteredOk, IterOk, Unref;
    ValidDistinct(s);
    DeleteProps(s.resources, CursorRes(c));
    CursorHolds(s, c);
    if ByCursor(c) in s.owners {
      UnrefFrame(s, ByCursor(c));
      UnrefDescEffect(s, ByCursor(c));
    }
  }

  lemma CursorHolds(s: State, c: Ptr)
    requires Valid(s) && c in s.cursors && CursorRes(c) in s.resources && NeedsFetch(s, c)
    ensures Core(s) && NULL !in s.descs && forall d :: d in s.descs ==> s.descs[d].refs >= 1
    ensures ByCursor(c) in s.owners <==> s.cursors[c].desc != NULL
    ensures ByCursor(c) in s.owners ==> s.owners[ByCursor(c)] == s.cursors[c].desc
  {
  }

  /** A cursor with a queue is cleaned up: the queued rows and the cursor's reference go;
      the portal is not touched. */
  lemma CleanupEffect(s: State, c: Ptr)
    requires Sound(s) && HasQueue(s.cursors, c)
    ensures var s', cur := Cleanup(s, c), s.cursors[c];
      && s'.cursors == s.cursors[c := Cursor(if cur.desc in s'.descs then cur.desc else NULL, None, cur.portal)]
      && (forall r :: r in s'.rows <==> r in s.rows && r !in cur.queue.value)
      && (forall h: Holder :: h in s'.owners <==> h in s.owners && h != ByCursor(c) && !(h.ByRow? && h.p in cur.queue.value))
      && s'.resources == s.resources
  {
    hide CountOk, CellsOk;
    CleanupForm(s, c);
    TidyForm(s, c);
  }

  /** A cursor is collected: it is gone, with its queue, its reference and, if it had a
      queue, its registration; no other cursor notices. */
  lemma CollectEffect(s: State, c: Ptr)
    requires Valid(s) && c in s.cursors
    ensures var s' := GcCursor(s, c);
      && s'.cursors == s.cursors - {c}
      && (forall r :: r in s'.resources <==> r in s.resources && !(r == CursorRes(c) && HasQueue(s.cursors, c)))
      && (!HasQueue(s.cursors, c) ==> s' == s.(cursors := s.cursors - {c}))
      && (HasQueue(s.cursors, c) ==>
            && ByCursor(c) !in s'.owners && OneLess(s, s', s.cursors[c].desc)
            && (forall r :: r in s'.rows <==> r in s.rows && r !in s.cursors[c].queue.value))
  {
    ValidDistinct(s);
    DeleteProps(s.resources, CursorRes(c));
    if HasQueue(s.cursors, c) {
      CleanupEffect(s, c);
      QueueCounts(s, c);
      assert s.cursors[c := Cleanup(s, c).cursors[c]] - {c} == s.cursors - {c};
    }
  }

  lemma QueueCounts(s: State, c: Ptr)
    requires Valid(s) && HasQueue(s.cursors, c)
    ensures ByCursor(c) !in Cleanup(s, c).owners && OneLess(s, Cleanup(s, c), s.cursors[c].desc)
  {
    hide CountOk, CellsOk, RegisteredOk, IterOk;
    CleanupForm(s, c);
    TidyForm(s, c);
    QueueIsHeld(s, c);
    var d := s.cursors[c].desc;
    UnrefDescEffect(s, ByCursor(c));
    ReleaseForm(Forget(s, ByCursor(c)), d);
  }

  lemma QueueIsHeld(s: State, c: Ptr)
    requires Valid(s) && HasQueue(s.cursors, c)
    ensures ByCursor(c) in s.owners && s.owners[ByCursor(c)] == s.cursors[c].desc
  {
    assert QueueOk(s.owners, s.cursors[c], c, s.rows);
  }

  // ---------- Every operation ----------

  /** What the ledger's operations mean; for the iterator see RefillEffect, FinishEffect and
      Delivery, for the end of the transaction Sweep. */
  ghost predicate Effect(s: State, s': State, op: Op)
    requires !op.Next? && !op.EndTransaction?
  {
    match op
    case MakeDesc(d, h) => MadeFor(s, s', d, h)
    case RefDesc(d, h) =>
      d in s.descs && s' == s.(descs := s.descs[d := s.descs[d].(refs := s.descs[d].refs + 1)], owners := s.owners[h := d])
    case UnrefDesc(h) =>
      && h in s.owners && OneLess(s, s', s.owners[h])
      && s' == s.(descs := s'.descs, stacks := s'.stacks, count := s'.count, owners := s.owners - {h})
    case LoseDesc(h) => s' == s.(owners := s.owners - {h})
    case InitStack(S, cell) =>
      && s' == s.(stacks := s.stacks[S := Stack(0, [], cell)], resources := s'.resources, cells := s'.cells)
      && (forall r :: r in s'.resources <==> r in s.resources || r == StackRes(S))
      && s'.cells == if cell == NULL then s.cells else s.cells[cell := S]
    case InUse(S) => S in s.stacks && s' == s.(stacks := s.stacks[S := s.stacks[S].(refs := s.stacks[S].refs + 1)])
    case NotInUse(S) => CountedDown(s, s', S)
    case TryCleanStack(S) => S in s.stacks && if s.stacks[S].refs == 1 then Cleaned(s, s', S) else CountedDown(s, s', S)
    case FreeStack(S) => S in s.stacks && if s.stacks[S].refs == 0 then Freed(s, s', S) else s' == s
    case SetCurrent(p) => s' == s.(current := p)
    case Open(c, portal) =>
      && s' == s.(cursors := s.cursors[c := Cursor(NULL, None, Some(portal))], resources := s'.resources)
      && (forall r :: r in s'.resources <==> r in s.resources || r == CursorRes(c))
    case Close(c) =>
      && c in s.cursors && s' == s.(cursors := s.cursors[c := s.cursors[c].(portal := None)], resources := s'.resources)
      && (forall r :: r in s'.resources <==> r in s.resources && r != CursorRes(c))
    case CollectRow(r) =>
      && ByRow(r) in s.owners && OneLess(s, s', s.owners[ByRow(r)])
      && s' == s.(descs := s'.descs, stacks := s'.stacks, count := s'.count, owners := s.owners - {ByRow(r)}, rows := s.rows - {r})
    case CollectCursor(c) => c !in s'.cursors && s'.cursors == s.cursors - {c} && CursorRes(c) !in s'.resources && ByCursor(c) !in s'.owners
  }

  lemma StepEffect(s: State, op: Op)
    requires Valid(s) && Legal(s, op) && !op.Next? && !op.EndTransaction?
    ensures Effect(s, Apply(s, op), op)
  {
    hide Effect, Apply, Valid;
    if op.MakeDesc? || op.RefDesc? || op.UnrefDesc? || op.LoseDesc? {
      DescEffect(s, op);
    } else if op.Open? || op.Close? || op.CollectRow? || op.CollectCursor? {
      CursorEffect(s, op);
    } else {
      StackEffect(s, op);
    }
  }

  lemma DescEffect(s: State, op: Op)
    requires Valid(s) && Legal(s, op) && (op.MakeDesc? || op.RefDesc? || op.UnrefDesc? || op.LoseDesc?)
    ensures Effect(s, Apply(s, op), op)
  {
    hide MadeFor, OneLess, Make, Unref, HomesOk, RefsOk, CountOk, CellsOk, CursorsOk, RegisteredOk, IterOk;
    if op.MakeDesc? { MakeEffect(s, op.d, op.h); }
    if op.UnrefDesc? { UnrefStep(s, op.h); }
  }

  lemma StackEffect(s: State, op: Op)
    requires Valid(s) && Legal(s, op)
    requires op.InitStack? || op.InUse? || op.NotInUse? || op.TryCleanStack? || op.FreeStack? || op.SetCurrent?
    ensures Effect(s, Apply(s, op), op)
  {
    hide Cleaned, Freed, TryClean, FreeIfNotUsed, HomesOk, RefsOk, CountOk, CellsOk, CursorsOk, RegisteredOk, IterOk;
    ValidDistinct(s);
    if op.InitStack? { FirstIn(s.resources, StackRes(op.S)); }
    if op.TryCleanStack? { TryCleanEffect(s, op.S); }
    if op.FreeStack? { FreeEffect(s, op.S); }
  }

  lemma CursorEffect(s: State, op: Op)
    requires Valid(s) && Legal(s, op) && (op.Open? || op.Close? || op.CollectRow? || op.CollectCursor?)
    ensures Effect(s, Apply(s, op), op)
  {
    hide OneLess, GcRow, GcCursor, HomesOk, RefsOk, CountOk, CellsOk, CursorsOk, RegisteredOk, IterOk;
    ValidDistinct(s);
    if op.Open? { FirstIn(s.resources, CursorRes(op.c)); }
    if op.Close? { DeleteProps(s.resources, CursorRes(op.c)); }
    if op.CollectRow? { RowStep(s, op.r); }
    if op.CollectCursor? { CollectStep(s, op.c); }
  }

  lemma FirstIn(rs: seq<Resource>, r: Resource)
    ensures forall x :: x in [r] + rs <==> x in rs || x == r
  {
  }

  lemma UnrefStep(s: State, h: Holder)
    requires Valid(s) && h in s.owners
    ensures var s' := Unref(s, h);
      OneLess(s, s', s.owners[h]) && s' == s.(descs := s'.descs, stacks := s'.stacks, count := s'.count, owners := s.owners - {h})
  {
    hide OneLess;
    UnrefDescEffect(s, h);
    UnrefFrame(s, h);
  }

  lemma RowStep(s: State, r: Ptr)
    requires Valid(s) && r in s.rows
    ensures ByRow(r) in s.owners
    ensures var s' := GcRow(s, r);
      && OneLess(s, s', s.owners[ByRow(r)])
      && s' == s.(descs := s'.descs, stacks := s'.stacks, count := s'.count, owners := s.owners - {ByRow(r)}, rows := s.rows - {r})
  {
    hide HomesOk, RefsOk, CountOk, CellsOk, RegisteredOk, IterOk, Unref;
    UnrefStep(s, ByRow(r));
  }

  lemma CollectStep(s: State, c: Ptr)
    requires Valid(s) && Legal(s, CollectCursor(c))
    ensures var s' := GcCursor(s, c);
      c !in s'.cursors && s'.cursors == s.cursors - {c} && CursorRes(c) !in s'.resources && ByCursor(c) !in s'.owners
  {
    hide GcCursor, OneLess, HomesOk, RefsOk, CountOk, CellsOk;
    CollectEffect(s, c);
  }
}
