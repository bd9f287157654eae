/** The batched row iterator refines plain iteration over the cursor: whatever else
    happens in between, the rows come out once each and in order, then nil. */
module Delivery {
  import opened Memory
  import opened Ledger
  import opened LedgerProofs
  import opened CursorProofs
  import opened Iterator
  import opened Sweep
  import opened Runs

  function RowsAt(rows: map<Ptr, Datum>, q: seq<Ptr>): seq<Datum>
    requires forall r :: r in q ==> r in rows
  {
    seq(|q|, i requires 0 <= i < |q| => rows[q[i]])
  }

  /** What the cursor has still to deliver: the queued rows, then the portal's. */
  function Pending(s: State, c: Ptr): seq<Datum>
    requires Valid(s) && c in s.cursors
  {
    var cur := s.cursors[c];
    var queued := if cur.queue.Some? then QueueRows(s, c); RowsAt(s.rows, cur.queue.value) else [];
    queued + (if cur.portal.Some? then cur.portal.value else [])
  }

  lemma QueueRows(s: State, c: Ptr)
    requires Valid(s) && HasQueue(s.cursors, c)
    ensures forall r :: r in s.cursors[c].queue.value ==> r in s.rows
  {
    assert QueueOk(s.owners, s.cursors[c], c, s.rows);
  }

  function PutRows(rows: map<Ptr, Datum>, rs: seq<Ptr>, xs: seq<Datum>): map<Ptr, Datum>
    requires |rs| == |xs|
    decreases |rs|
  {
    var n := |rs| - 1;
    if rs == [] then rows else PutRows(rows, rs[..n], xs[..n])[rs[n] := xs[n]]
  }

  lemma {:induction false} PutRowsHolds(rows: map<Ptr, Datum>, rs: seq<Ptr>, xs: seq<Datum>)
    requires |rs| == |xs| && Distinct(rs)
    ensures forall r :: r in rs ==> r in PutRows(rows, rs, xs)
    ensures RowsAt(PutRows(rows, rs, xs), rs) == xs
    ensures forall r :: r in rows && r !in rs ==> r in PutRows(rows, rs, xs) && PutRows(rows, rs, xs)[r] == rows[r]
    decreases |rs|
  {
    if rs != [] {
      var n := |rs| - 1;
      ElementsSnoc(rs);
      PutRowsHolds(rows, rs[..n], xs[..n]);
      var m := PutRows(rows, rs[..n], xs[..n]);
      assert rs == rs[..n] + [rs[n]] && xs == xs[..n] + [xs[n]];
      assert RowsAt(m[rs[n] := xs[n]], rs) == RowsAt(m, rs[..n]) + [xs[n]];
    }
  }

  lemma {:induction false} AddRowsData(s: State, c: Ptr, rs: seq<Ptr>, xs: seq<Datum>)
    requires HasQueue(s.cursors, c) && s.cursors[c].desc in s.descs && |rs| == |xs|
    ensures AddRows(s, c, rs, xs).rows == PutRows(s.rows, rs, xs)
    decreases |rs|
  {
    if rs != [] {
      AddRowsData(s, c, rs[..|rs| - 1], xs[..|rs| - 1]);
    }
  }

  lemma DequeueDelivers(s: State, c: Ptr)
    requires Valid(s) && HasQueue(s.cursors, c) && s.cursors[c].queue.value != []
    ensures Valid(Dequeue(s, c))
    ensures var r, s' := s.cursors[c].queue.value[0], Dequeue(s, c);
      && r in s'.rows && !Queued(s', r)
      && Pending(s, c) == [s'.rows[r]] + Pending(s', c)
  {
    hide HomesOk, RefsOk, CountOk, CellsOk, RegisteredOk, IterOk;
    DequeueKeeps(s, c);
    QueueRows(s, c);
    QueueRows(Dequeue(s, c), c);
    var q := s.cursors[c].queue.value;
    assert QueueOk(s.owners, s.cursors[c], c, s.rows);
    assert q == [q[0]] + q[1..] && q[0] !in q[1..];
    assert q[0] in Elements(q);
    assert RowsAt(s.rows, q) == [s.rows[q[0]]] + RowsAt(s.rows, q[1..]);
    forall e | HasQueue(s.cursors, e) && e != c ensures q[0] !in s.cursors[e].queue.value {
      assert Elements(s.cursors[e].queue.value) !! Elements(q);
    }
  }

  lemma FinishDelivers(s: State, c: Ptr)
    requires Valid(s) && CursorRes(c) in s.resources && NeedsFetch(s, c) && s.cursors[c].portal == Some([])
    ensures Valid(Finish(s, c)) && c in Finish(s, c).cursors
    ensures Pending(s, c) == [] && Pending(Finish(s, c), c) == []
    ensures CursorRes(c) !in Finish(s, c).resources
  {
    FinishKeeps(s, c);
    DeleteProps(s.resources, CursorRes(c));
    var h := ByCursor(c);
    if h in s.owners { ReleaseFrame(Forget(s, h), s.owners[h]); }
  }

  /** The batch is in the new rows, and queue and portal together are the old portal. */
  lemma FillRows(s: State, c: Ptr, d: Ptr, rs: seq<Ptr>)
    requires c in s.cursors && s.cursors[c].portal.Some? && (s.cursors[c].desc == NULL ==> CurrentOk(s))
    requires |rs| == |Batch(s.cursors[c].portal.value)| && Distinct(rs)
    requires s.cursors[c].desc != NULL ==> s.cursors[c].desc in s.descs
    ensures var rows', xs := Fill(s, c, d, rs).rows, s.cursors[c].portal.value;
      && rows' == PutRows(s.rows, rs, Batch(xs))
      && (forall r :: r in rs ==> r in rows')
      && RowsAt(rows', rs) + xs[|rs|..] == xs
  {
    var xs := s.cursors[c].portal.value;
    AddRowsData(Started(s, c, d), c, rs, Batch(xs));
    PutRowsHolds(s.rows, rs, Batch(xs));
    assert Batch(xs) + xs[|rs|..] == xs;
  }

  lemma FillPending(s: State, c: Ptr, d: Ptr, rs: seq<Ptr>)
    requires Valid(s) && CanFetch(s, c, d, rs) && NeedsFetch(s, c) && s.cursors[c].portal.value != []
    ensures Valid(Fill(s, c, d, rs)) && c in Fill(s, c, d, rs).cursors
    ensures Fill(s, c, d, rs).cursors[c].queue == Some(rs)
    ensures Pending(Fill(s, c, d, rs), c) == Pending(s, c) == s.cursors[c].portal.value
  {
    hide HomesOk, CountOk, CellsOk, RegisteredOk, AddRows, Started, Fill, PutRows;
    FillKeeps(s, c, d, rs);
    FillMakesQueue(s, c, d, rs);
    FillRows(s, c, d, rs);
  }

  lemma NextRowDelivers(s: State, c: Ptr, d: Ptr, rs: seq<Ptr>)
    requires Valid(s) && CanFetch(s, c, d, rs)
    ensures Valid(NextRow(s, c, d, rs).0) && c in NextRow(s, c, d, rs).0.cursors
    ensures NextRow(s, c, d, rs).1.None? <==> Pending(s, c) == []
    ensures var (s', out) := NextRow(s, c, d, rs);
      match out
      case Some(r) => r in s'.rows && !Queued(s', r) && Pending(s, c) == [s'.rows[r]] + Pending(s', c)
      case None => Pending(s', c) == [] && CursorRes(c) !in s'.resources
  {
    hide HomesOk, RefsOk, CountOk, CellsOk, CursorsOk;
    if !NeedsFetch(s, c) {
      DequeueDelivers(s, c);
    } else if s.cursors[c].portal.value == [] {
      FinishDelivers(s, c);
    } else {
      FillPending(s, c, d, rs);
      DequeueDelivers(Fill(s, c, d, rs), c);
    }
  }

  /** One call: it delivers the head of what is pending, or nil exactly when nothing is;
      or it crashes, exactly if the rest of the rows would have to be copied through a
      lost descriptor. */
  lemma NextDelivers(s: State, c: Ptr, d: Ptr, rs: seq<Ptr>)
    requires Valid(s) && CanCall(s, c, d, rs)
    ensures RowsAux(s, c, d, rs) == Crash <==> RefillCrashes(s, c)
    ensures match RowsAux(s, c, d, rs)
      case Crash => Pending(s, c) != []
      case Delivered(s', Some(r)) =>
        && Valid(s') && c in s'.cursors && r in s'.rows && !Queued(s', r)
        && Pending(s, c) == [s'.rows[r]] + Pending(s', c)
      case Delivered(s', None) =>
        && Valid(s') && c in s'.cursors && Pending(s, c) == [] && Pending(s', c) == []
        && CursorRes(c) !in s'.resources
  {
    CrashesExactly(s, c, d, rs);
    if !RefillCrashes(s, c) { NextRowDelivers(s, c, d, rs); }
  }

  // ---------- Other operations in between ----------

  /** Nothing pending on c moves. */
  ghost predicate Untouched(s: State, s': State, c: Ptr)
    requires c in s.cursors
  {
    && c in s'.cursors && s'.cursors[c] == s.cursors[c]
    && (HasQueue(s.cursors, c) ==> forall r :: r in s.cursors[c].queue.value ==>
         r in s.rows && r in s'.rows && s'.rows[r] == s.rows[r])
  }

  lemma UntouchedPending(s: State, s': State, c: Ptr)
    requires Valid(s) && Valid(s') && c in s.cursors && Untouched(s, s', c)
    ensures c in s'.cursors && Pending(s', c) == Pending(s, c)
  {
  }

  /** The operations that end or advance the iteration of c. */
  predicate Concerns(op: Op, c: Ptr) {
    !StaysOpen(op, c) || (op.Next? && op.c == c)
  }

  lemma OtherNext(s: State, c: Ptr, e: Ptr, d: Ptr, rs: seq<Ptr>)
    requires Valid(s) && c in s.cursors && CanFetch(s, e, d, rs) && e != c
    ensures Untouched(s, NextRow(s, e, d, rs).0, c)
  {
    if HasQueue(s.cursors, c) { QueueRows(s, c); }
    if NeedsFetch(s, e) {
      if s.cursors[e].portal.value == [] {
        var h := ByCursor(e);
        if h in s.owners { ReleaseFrame(Forget(s, h), s.owners[h]); }
      } else {
        FillRows(s, e, d, rs);
        FillMakesQueue(s, e, d, rs);
        PutRowsHolds(s.rows, rs, Batch(s.cursors[e].portal.value));
      }
    }
  }

  lemma OtherCollect(s: State, c: Ptr, e: Ptr)
    requires Valid(s) && c in s.cursors && Legal(s, CollectCursor(e)) && e != c
    ensures Untouched(s, GcCursor(s, e), c)
  {
    if HasQueue(s.cursors, c) { QueueRows(s, c); }
    if HasQueue(s.cursors, e) {
      CleanupForm(s, e);
      TidyForm(s, e);
      assert HasQueue(s.cursors, c) ==> Elements(s.cursors[c].queue.value) !! Elements(s.cursors[e].queue.value);
      forall r | HasQueue(s.cursors, c) && r in s.cursors[c].queue.value ensures r in Cleanup(s, e).rows {
        assert r in Elements(s.cursors[c].queue.value);
      }
    }
  }

  lemma OtherRow(s: State, c: Ptr, r: Ptr)
    requires Valid(s) && c in s.cursors && r in s.rows && !Queued(s, r)
    ensures Untouched(s, GcRow(s, r), c)
  {
    if HasQueue(s.cursors, c) { QueueRows(s, c); }
    ReleaseFrame(Forget(s, ByRow(r)), s.owners[ByRow(r)]);
    assert HasQueue(s.cursors, c) ==> r !in s.cursors[c].queue.value;
  }

  lemma OthersLeave(s: State, op: Op, c: Ptr)
    requires Valid(s) && Legal(s, op) && c in s.cursors && !Concerns(op, c)
    ensures Untouched(s, Apply(s, op), c)
  {
    if HasQueue(s.cursors, c) { QueueRows(s, c); }
    match op
    case UnrefDesc(h) => ReleaseFrame(Forget(s, h), s.owners[h]);
    case CollectRow(r) => OtherRow(s, c, r);
    case Next(e, d, rs) => OtherNext(s, c, e, d, rs);
    case CollectCursor(e) => OtherCollect(s, c, e);
    case _ =>
  }

  /** The rows c delivers during a run, in order. */
  function Delivered(s: State, ops: seq<Op>, c: Ptr): seq<Datum>
    requires Valid(s) && LegalRun(s, ops)
    decreases |ops|
  {
    if ops == [] || Breaks(s, ops[0]) then []
    else
      LegalIs(s, ops[0]);
      RowOf(s, ops[0], c) + Delivered(Step(s, ops[0]), ops[1..], c)
  }

  function RowOf(s: State, op: Op, c: Ptr): seq<Datum>
    requires Valid(s) && Legal(s, op)
  {
    if op.Next? && op.c == c then
      NextRowDelivers(s, c, op.d, op.rs);
      var (s', out) := NextRow(s, c, op.d, op.rs);
      if out.Some? then [s'.rows[out.value]] else []
    else []
  }

  predicate StaysOpen(op: Op, c: Ptr) {
    op != Close(c) && op != CollectCursor(c) && !op.EndTransaction?
  }

  predicate KeepsOpen(ops: seq<Op>, c: Ptr) {
    ops != [] ==> StaysOpen(ops[0], c) && KeepsOpen(ops[1..], c)
  }

  lemma StepDelivers(s: State, op: Op, c: Ptr)
    requires Valid(s) && Legal(s, op) && c in s.cursors
    requires StaysOpen(op, c)
    ensures c in Step(s, op).cursors
    ensures Pending(s, c) == RowOf(s, op, c) + Pending(Step(s, op), c)
  {
    if op.Next? && op.c == c {
      NextRowDelivers(s, c, op.d, op.rs);
    } else {
      OthersLeave(s, op, c);
      UntouchedPending(s, Step(s, op), c);
    }
  }

  /** Over any run that does not close c, whether it breaks or not, what it has delivered followed by what is
      still pending is what was pending at the start: nothing lost, repeated or
      reordered, however batches, other cursors and collections interleave. */
  lemma {:induction false} RunDelivers(s: State, ops: seq<Op>, c: Ptr)
    requires Valid(s) && LegalRun(s, ops) && c in s.cursors && KeepsOpen(ops, c)
    ensures Valid(Run(s, ops).s) && c in Run(s, ops).s.cursors
    ensures Pending(s, c) == Delivered(s, ops, c) + Pending(Run(s, ops).s, c)
    decreases |ops|
  {
    hide Legal, Callable, Breaks, Apply, RowOf, Pending, HomesOk, RefsOk, CountOk, CellsOk, CursorsOk, RegisteredOk, IterOk;
    if ops != [] && !Breaks(s, ops[0]) {
      LegalIs(s, ops[0]);
      StepDelivers(s, ops[0], c);
      RunDelivers(Step(s, ops[0]), ops[1..], c);
    }
  }

  // ---------- From opening to closing ----------

  /** A new cursor has all its rows pending. */
  lemma OpenPends(s: State, c: Ptr, portal: seq<Datum>)
    requires Valid(s) && Legal(s, Open(c, portal))
    ensures var s' := Step(s, Open(c, portal)); c in s'.cursors && Pending(s', c) == portal && CursorRes(c) in s'.resources
  {
    assert [CursorRes(c)] + s.resources != [] && ([CursorRes(c)] + s.resources)[0] == CursorRes(c);
  }

  /** From the moment a cursor is opened until it is closed, the rows delivered are a prefix
      of its rows, and what is missing is still to come. */
  lemma OpenedDelivers(s: State, c: Ptr, portal: seq<Datum>, ops: seq<Op>)
    requires Valid(s) && Legal(s, Open(c, portal)) && LegalRun(Step(s, Open(c, portal)), ops) && KeepsOpen(ops, c)
    ensures var s1 := Step(s, Open(c, portal));
      && Valid(Run(s1, ops).s) && c in Run(s1, ops).s.cursors
      && portal == Delivered(s1, ops, c) + Pending(Run(s1, ops).s, c)
  {
    hide Legal, Apply, Pending;
    OpenPends(s, c, portal);
    RunDelivers(Step(s, Open(c, portal)), ops, c);
  }

  /** Closing takes back the rows that were not fetched, and only those; the cursor's
      registration goes and nothing else. */
  lemma ClosePends(s: State, c: Ptr)
    requires Valid(s) && c in s.cursors
    ensures var s' := Step(s, Close(c));
      && c in s'.cursors && s'.cursors[c].portal == None && s'.cursors[c].queue == s.cursors[c].queue && s'.cursors[c].desc == s.cursors[c].desc
      && Pending(s, c) == Pending(s', c) + (if s.cursors[c].portal.Some? then s.cursors[c].portal.value else [])
      && (forall r :: r in s'.resources <==> r in s.resources && r != CursorRes(c))
      && s' == s.(cursors := s.cursors[c := s'.cursors[c]], resources := s'.resources)
  {
    hide HomesOk, RefsOk, CountOk, CellsOk, RegisteredOk, IterOk, CursorsOk;
    ValidDistinct(s);
    DeleteProps(s.resources, CursorRes(c));
    if HasQueue(s.cursors, c) { QueueRows(s, c); }
  }
}
