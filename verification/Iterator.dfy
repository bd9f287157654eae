/** The row iterator as the code has it, row by row: copying a row reads the number of
    columns through the descriptor's TupleDesc, which may be gone by the next batch. */
module Iterator {
  import opened Memory
  import opened Ledger
  import opened LedgerProofs
  import opened CursorProofs

  /** Crash: NULL is dereferenced. */
  datatype IterResult = Delivered(s: State, row: Option<Ptr>) | Crash

  /** luaP_PTuple_rawctr and tq_enqueue: None if there is no TupleDesc to read. */
  function CopyRow(s: State, c: Ptr, r: Ptr, x: Datum): (o: Option<State>)
    requires HasQueue(s.cursors, c) && s.cursors[c].desc in s.descs
    ensures o.Some? ==> HasQueue(o.value.cursors, c) && o.value.cursors[c].desc in o.value.descs
  {
    if s.descs[s.cursors[c].desc].live then Some(AddRow(s, c, r, x)) else None
  }

  /** The loop over the fetched rows. */
  function CopyRows(s: State, c: Ptr, rs: seq<Ptr>, xs: seq<Datum>): (o: Option<State>)
    requires HasQueue(s.cursors, c) && s.cursors[c].desc in s.descs && |rs| == |xs|
    ensures o.Some? ==> HasQueue(o.value.cursors, c) && o.value.cursors[c].desc in o.value.descs
    decreases |rs|
  {
    if rs == [] then Some(s)
    else
      var n := |rs| - 1;
      match CopyRows(s, c, rs[..n], xs[..n])
      case None => None
      case Some(s1) => CopyRow(s1, c, rs[n], xs[n])
  }

  /** tq_dequeue. */
  function TakeRow(s: State, c: Ptr): (State, Option<Ptr>)
    requires HasQueue(s.cursors, c)
  {
    if s.cursors[c].queue.value == [] then (s, None) else (Dequeue(s, c), Some(s.cursors[c].queue.value[0]))
  }

  /** luaP_rowsaux */
  function RowsAux(s: State, c: Ptr, d: Ptr, rs: seq<Ptr>): IterResult
    requires Valid(s) && CanCall(s, c, d, rs)
  {
    if !NeedsFetch(s, c) then
      var (s', row) := TakeRow(s, c); Delivered(s', row)
    else if s.cursors[c].portal.value == [] then Delivered(Finish(s, c), None)
    else
      StartedHasDesc(s, c, d, rs);
      match CopyRows(Started(s, c, d), c, rs, Batch(s.cursors[c].portal.value))
      case None => Crash
      case Some(s1) => var (s', row) := TakeRow(s1, c); Delivered(s', row)
  }

  lemma StartedHasDesc(s: State, c: Ptr, d: Ptr, rs: seq<Ptr>)
    requires Valid(s) && CanCall(s, c, d, rs) && NeedsFetch(s, c) && s.cursors[c].portal.value != []
    ensures var s1 := Started(s, c, d);
      && HasQueue(s1.cursors, c) && s1.cursors[c].desc in s1.descs
      && (s1.descs[s1.cursors[c].desc].live <==> !RefillCrashes(s, c))
      && (s.cursors[c].desc != NULL ==> s.cursors[c].desc in s.descs)
  {
  }

  /** Copying does not change whether the TupleDesc is there: the loop copies all rows or
      stops at the first. */
  lemma {:induction false} CopyRowsForm(s: State, c: Ptr, rs: seq<Ptr>, xs: seq<Datum>)
    requires HasQueue(s.cursors, c) && s.cursors[c].desc in s.descs && |rs| == |xs|
    ensures CopyRows(s, c, rs, xs)
         == if s.descs[s.cursors[c].desc].live || rs == [] then Some(AddRows(s, c, rs, xs)) else None
    decreases |rs|
  {
    if rs != [] {
      var n := |rs| - 1;
      CopyRowsForm(s, c, rs[..n], xs[..n]);
      AddRowsFrame(s, c, rs[..n], xs[..n]);
    }
  }

  /** A call crashes if and only if a batch is due, there is one and the descriptor is
      lost; otherwise it does what NextRow says. */
  lemma CrashesExactly(s: State, c: Ptr, d: Ptr, rs: seq<Ptr>)
    requires Valid(s) && CanCall(s, c, d, rs)
    ensures RowsAux(s, c, d, rs) == Crash <==> RefillCrashes(s, c)
    ensures !RefillCrashes(s, c) ==>
      RowsAux(s, c, d, rs) == Delivered(NextRow(s, c, d, rs).0, NextRow(s, c, d, rs).1)
  {
    if NeedsFetch(s, c) && s.cursors[c].portal.value != [] {
      StartedHasDesc(s, c, d, rs);
      CopyRowsForm(Started(s, c, d), c, rs, Batch(s.cursors[c].portal.value));
      if !RefillCrashes(s, c) { FillMakesQueue(s, c, d, rs); }
    }
  }

  lemma FreshRows(used: set<Ptr>, n: nat) returns (rs: seq<Ptr>)
    ensures |rs| == n && Distinct(rs) && forall r :: r in rs ==> r != NULL && r !in used
  {
    var bound := Above(used);
    rs := seq(n, i => bound + i + 1);
  }

  /** The next call on a registered cursor is safe, whatever palloc returns, if and only
      if no batch is due on a lost descriptor. */
  lemma SafeExactly(s: State, c: Ptr)
    requires Valid(s) && CursorRes(c) in s.resources
    ensures c in s.cursors
    ensures (forall d, rs :: CanCall(s, c, d, rs) ==> RowsAux(s, c, d, rs) != Crash) <==> !RefillCrashes(s, c)
  {
    forall d, rs | CanCall(s, c, d, rs) ensures RowsAux(s, c, d, rs) == Crash <==> RefillCrashes(s, c) {
      CrashesExactly(s, c, d, rs);
    }
    if RefillCrashes(s, c) {
      var rs := FreshRows(s.rows.Keys, |Batch(s.cursors[c].portal.value)|);
      assert CanCall(s, c, NULL, rs);
    }
  }
}
