/** The cursor and row operations keep the invariant. */
module CursorProofs {
  import opened Memory
  import opened Ledger
  import opened LedgerProofs

  /** Userdata holders are no business of the cursors. */
  lemma UserdataOnly(owners: map<Holder, Ptr>, owners': map<Holder, Ptr>, s: State)
    requires CursorsOk(owners, s.cursors, s.rows) && IterOk(owners, s.cursors, s.resources)
    requires forall h: Holder :: !h.ByUserdata? ==> (h in owners' <==> h in owners) && (h in owners ==> owners'[h] == owners[h])
    ensures CursorsOk(owners', s.cursors, s.rows) && IterOk(owners', s.cursors, s.resources)
  {
    forall c | HasQueue(s.cursors, c) ensures QueueOk(owners', s.cursors[c], c, s.rows) {
      assert QueueOk(owners, s.cursors[c], c, s.rows);
    }
  }

  lemma OpenKeeps(s: State, c: Ptr, portal: seq<Datum>)
    requires Valid(s) && c != NULL && c !in s.cursors
    ensures Valid(OpenCursor(s, c, portal))
  {
    var s' := OpenCursor(s, c, portal);
    assert CursorRes(c) !in s.resources;
    RegisterFirst(s.resources, s.stacks.Keys, s.cursors.Keys, CursorRes(c));
    assert s'.cursors.Keys == s.cursors.Keys + {c};
    assert CursorsOk(s'.owners, s'.cursors, s'.rows) by {
      forall k | HasQueue(s'.cursors, k) ensures QueueOk(s'.owners, s'.cursors[k], k, s'.rows) {
        assert HasQueue(s.cursors, k) && QueueOk(s.owners, s.cursors[k], k, s.rows);
      }
    }
    assert IterOk(s'.owners, s'.cursors, s'.resources);
  }

  lemma CloseKeeps(s: State, c: Ptr)
    requires Valid(s) && c in s.cursors
    ensures Valid(CloseCursor(s, c))
  {
    var s' := CloseCursor(s, c);
    UnregisterOne(s.resources, s.stacks.Keys, s.cursors.Keys, CursorRes(c));
    assert s'.cursors.Keys == s.cursors.Keys;
    DeleteProps(s.resources, CursorRes(c));
    assert CursorsOk(s'.owners, s'.cursors, s'.rows) by {
      forall k | HasQueue(s'.cursors, k) ensures QueueOk(s'.owners, s'.cursors[k], k, s'.rows) {
        assert HasQueue(s.cursors, k) && QueueOk(s.owners, s.cursors[k], k, s.rows);
      }
    }
  }

  /** One row is copied, counted and queued. */
  lemma AddRowKeeps(s: State, c: Ptr, r: Ptr, x: Datum)
    requires Valid(s) && HasQueue(s.cursors, c) && r != NULL && r !in s.rows
    ensures s.cursors[c].desc in s.descs
    ensures Valid(AddRow(s, c, r, x))
  {
    var d := s.cursors[c].desc;
    assert QueueOk(s.owners, s.cursors[c], c, s.rows);
    assert ByRow(r) !in s.owners;
    AddRefKeeps(s, d, ByRow(r));
    var s' := AddRow(s, c, r, x);
    assert s'.cursors.Keys == s.cursors.Keys;
    AddRowCursors(s, c, r, x);
  }

  lemma AddRowCursors(s: State, c: Ptr, r: Ptr, x: Datum)
    requires CursorsOk(s.owners, s.cursors, s.rows) && IterOk(s.owners, s.cursors, s.resources)
    requires HasQueue(s.cursors, c) && r != NULL && r !in s.rows && s.cursors[c].desc in s.descs
    ensures var s' := AddRow(s, c, r, x);
      CursorsOk(s'.owners, s'.cursors, s'.rows) && IterOk(s'.owners, s'.cursors, s'.resources)
  {
    var s' := AddRow(s, c, r, x);
    forall k | HasQueue(s'.cursors, k)
      ensures QueueOk(s'.owners, s'.cursors[k], k, s'.rows)
      ensures r !in s.cursors[k].queue.value
    {
      assert HasQueue(s.cursors, k) && QueueOk(s.owners, s.cursors[k], k, s.rows);
    }
    forall k | HasQueue(s'.cursors, k) && k != c
      ensures Elements(s'.cursors[k].queue.value) !! Elements(s'.cursors[c].queue.value)
    {
      assert Elements(s'.cursors[c].queue.value) == Elements(s.cursors[c].queue.value) + {r};
    }
  }

  lemma {:induction false} AddRowsRows(s: State, c: Ptr, rs: seq<Ptr>, xs: seq<Datum>)
    requires HasQueue(s.cursors, c) && s.cursors[c].desc in s.descs && |rs| == |xs|
    ensures AddRows(s, c, rs, xs).rows.Keys == s.rows.Keys + Elements(rs)
    decreases |rs|
  {
    if rs != [] {
      AddRowsRows(s, c, rs[..|rs| - 1], xs[..|xs| - 1]);
      ElementsSnoc(rs);
    }
  }

  lemma {:induction false} AddRowsKeeps(s: State, c: Ptr, rs: seq<Ptr>, xs: seq<Datum>)
    requires Valid(s) && HasQueue(s.cursors, c) && s.cursors[c].desc in s.descs
    requires |rs| == |xs| && Distinct(rs) && forall r :: r in rs ==> r != NULL && r !in s.rows
    ensures Valid(AddRows(s, c, rs, xs))
    decreases |rs|
  {
    if rs != [] {
      var n := |rs| - 1;
      ElementsSnoc(rs);
      AddRowsKeeps(s, c, rs[..n], xs[..n]);
      AddRowsRows(s, c, rs[..n], xs[..n]);
      assert rs[n] !in Elements(rs[..n]);
      AddRowKeeps(AddRows(s, c, rs[..n], xs[..n]), c, rs[n], xs[n]);
    }
  }

  /** Queueing rows changes only counts, holders, rows and the queue. */
  lemma {:induction false} AddRowsFrame(s: State, c: Ptr, rs: seq<Ptr>, xs: seq<Datum>)
    requires HasQueue(s.cursors, c) && s.cursors[c].desc in s.descs && |rs| == |xs|
    ensures var s', d := AddRows(s, c, rs, xs), s.cursors[c].desc;
      && s'.stacks == s.stacks && s'.resources == s.resources && s'.cells == s.cells
      && s'.current == s.current && s'.count == s.count && s'.descs[d].live == s.descs[d].live
    decreases |rs|
  {
    if rs != [] {
      AddRowsFrame(s, c, rs[..|rs| - 1], xs[..|xs| - 1]);
    }
  }

  /** Giving the cursor its (possibly new) descriptor and an empty queue. */
  lemma StartQueueKeeps(s: State, c: Ptr, portal: seq<Datum>)
    requires Valid(s) && CursorRes(c) in s.resources && NeedsFetch(s, c) && s.cursors[c].desc != NULL
    ensures Valid(WithCursor(s, c, Cursor(s.cursors[c].desc, Some([]), Some(portal))))
  {
    var s' := WithCursor(s, c, Cursor(s.cursors[c].desc, Some([]), Some(portal)));
    assert s'.cursors.Keys == s.cursors.Keys;
    EmptyQueueOk(s, c, s'.cursors[c], s.owners);
  }

  lemma EmptyQueueOk(s: State, c: Ptr, cur: Cursor, owners': map<Holder, Ptr>)
    requires CursorsOk(s.owners, s.cursors, s.rows) && IterOk(s.owners, s.cursors, s.resources)
    requires c in s.cursors && cur.queue == Some([]) && cur.portal.Some?
    requires owners' == s.owners[ByCursor(c) := cur.desc]
    requires forall k :: ByCursor(k) in s.owners && s.owners[ByCursor(k)] == cur.desc ==> k == c
    ensures CursorsOk(owners', s.cursors[c := cur], s.rows)
    ensures IterOk(owners', s.cursors[c := cur], s.resources)
  {
    var cursors' := s.cursors[c := cur];
    forall k | HasQueue(cursors', k) ensures QueueOk(owners', cursors'[k], k, s.rows) {
      if k != c {
        assert HasQueue(s.cursors, k) && QueueOk(s.owners, s.cursors[k], k, s.rows);
      }
    }
  }

  /** The first batch: the descriptor is made and held by the cursor. */
  lemma StartDescKeeps(s: State, c: Ptr, d: Ptr, portal: seq<Datum>)
    requires Valid(s) && CursorRes(c) in s.resources && s.cursors[c].desc == NULL
    requires CurrentOk(s) && d != NULL && d !in s.descs
    ensures Valid(WithCursor(Make(s, d, ByCursor(c)), c, Cursor(d, Some([]), Some(portal))))
  {
    assert ByCursor(c) !in s.owners;
    MakeKeeps(s, d, ByCursor(c));
    var s1 := Make(s, d, ByCursor(c));
    var s' := WithCursor(s1, c, Cursor(d, Some([]), Some(portal)));
    assert s'.cursors.Keys == s1.cursors.Keys;
    EmptyQueueOk(s, c, s'.cursors[c], s'.owners);
  }

  lemma FillKeeps(s: State, c: Ptr, d: Ptr, rs: seq<Ptr>)
    requires Valid(s) && CanCall(s, c, d, rs) && NeedsFetch(s, c) && s.cursors[c].portal.value != []
    ensures Valid(Fill(s, c, d, rs))
  {
    var xs := Batch(s.cursors[c].portal.value);
    var rest := s.cursors[c].portal.value[|xs|..];
    if s.cursors[c].desc == NULL {
      StartDescKeeps(s, c, d, rest);
    } else {
      StartQueueKeeps(s, c, rest);
    }
    AddRowsKeeps(Started(s, c, d), c, rs, xs);
  }

  lemma DequeueKeeps(s: State, c: Ptr)
    requires Valid(s) && HasQueue(s.cursors, c) && s.cursors[c].queue.value != []
    ensures Valid(Dequeue(s, c))
  {
    var s' := Dequeue(s, c);
    var q := s.cursors[c].queue.value;
    assert s'.cursors.Keys == s.cursors.Keys;
    assert Elements(q[1..]) <= Elements(q);
    forall k | HasQueue(s'.cursors, k) ensures QueueOk(s'.owners, s'.cursors[k], k, s'.rows) {
      assert HasQueue(s.cursors, k) && QueueOk(s.owners, s.cursors[k], k, s.rows);
    }
  }

  /** What a cursor looks like once it neither holds nor queues anything. */
  lemma RestingCursor(s: State, owners': map<Holder, Ptr>, c: Ptr, cur: Cursor, rows': map<Ptr, Datum>)
    requires CursorsOk(s.owners, s.cursors, s.rows) && c in s.cursors && cur.queue.None?
    requires forall h: Holder :: h in owners' ==> h in s.owners && owners'[h] == s.owners[h]
    requires forall h: Holder :: h in s.owners && h !in owners' ==>
      h == ByCursor(c) || (h.ByRow? && HasQueue(s.cursors, c) && h.p in s.cursors[c].queue.value)
    requires ByCursor(c) !in owners'
    requires forall r :: r in rows' <==> ByRow(r) in owners'
    ensures CursorsOk(owners', s.cursors[c := cur], rows')
  {
    assert ByRow(NULL) !in s.owners;
    var cursors' := s.cursors[c := cur];
    forall k | HasQueue(cursors', k) ensures QueueOk(owners', cursors'[k], k, rows') {
      assert HasQueue(s.cursors, k) && k != c && QueueOk(s.owners, s.cursors[k], k, s.rows);
      forall r | r in s.cursors[k].queue.value ensures ByRow(r) in owners' {
        assert r in Elements(s.cursors[k].queue.value);
        assert HasQueue(s.cursors, c) ==> r !in Elements(s.cursors[c].queue.value);
      }
    }
  }

  /** Unref changes descriptors, stacks and the count only. */
  lemma ReleaseFrame(s: State, d: Ptr)
    requires d in s.descs && (s.descs[d].home != NULL ==> s.descs[d].home in s.stacks)
    ensures Release(s, d) == s.(descs := Release(s, d).descs, stacks := Release(s, d).stacks, count := Release(s, d).count)
    ensures Release(s, d).stacks.Keys == s.stacks.Keys
  {
    if s.descs[d].home != NULL && s.descs[d].refs == 1 {
      assert Destroy(s, d).stacks.Keys == s.stacks.Keys;
    }
  }

  lemma UnrefFrame(s: State, h: Holder)
    requires Core(s) && h in s.owners
    ensures Core(Unref(s, h))
    ensures var s' := Unref(s, h);
      && s' == s.(descs := s'.descs, stacks := s'.stacks, owners := s.owners - {h}, count := s'.count)
      && s'.stacks.Keys == s.stacks.Keys
  {
    UnrefKeeps(s, h);
    ReleaseFrame(Forget(s, h), s.owners[h]);
  }

  lemma FinishKeeps(s: State, c: Ptr)
    requires Valid(s) && CursorRes(c) in s.resources && NeedsFetch(s, c)
    ensures Valid(Finish(s, c))
  {
    hide HomesOk, RefsOk, CountOk, CellsOk, Unref;
    var h := ByCursor(c);
    if h in s.owners { UnrefFrame(s, h); }
    var s' := Finish(s, c);
    assert s'.owners == s.owners - {h};
    UnregisterOne(s.resources, s.stacks.Keys, s.cursors.Keys, CursorRes(c));
    DeleteProps(s.resources, CursorRes(c));
    RestingCursor(s, s'.owners, c, s'.cursors[c], s.rows);
  }

  lemma CleanupOwners(s: State, c: Ptr)
    requires Sound(s) && HasQueue(s.cursors, c)
    ensures var s1 := Forget(DropQueue(s, c, s.cursors[c].queue.value), ByCursor(c));
      && Core(s1)
      && s.cursors[c].desc in s.descs
      && |HoldersOf(s1.owners, s.cursors[c].desc)| < s1.descs[s.cursors[c].desc].refs
  {
    var q := s.cursors[c].queue.value;
    var h := ByCursor(c);
    assert QueueOk(s.owners, s.cursors[c], c, s.rows);
    var s0 := DropQueue(s, c, q);
    FewerHoldersKeep(s, s0.owners);
    FewerHoldersKeep(s, s0.owners - {h});
    HolderRemoved(s0.owners, h);
  }

  lemma CleanupParts(s: State, c: Ptr)
    requires Sound(s) && HasQueue(s.cursors, c)
    ensures s.cursors[c].desc in s.descs
    ensures var s', s1 := Cleanup(s, c), Forget(DropQueue(s, c, s.cursors[c].queue.value), ByCursor(c));
      && Core(s1) && HomesOk(s1.descs, s1.stacks)
      && s' == Release(s1, s.cursors[c].desc).(cursors := s.cursors[c := s'.cursors[c]])
      && s'.owners == s1.owners && s'.rows == s1.rows && s'.cursors[c].queue.None?
  {
    hide CountOk, CellsOk, RefsOk;
    assert QueueOk(s.owners, s.cursors[c], c, s.rows);
    CleanupOwners(s, c);
    ReleaseFrame(Forget(DropQueue(s, c, s.cursors[c].queue.value), ByCursor(c)), s.cursors[c].desc);
  }

  lemma CleanupKeeps(s: State, c: Ptr)
    requires Sound(s) && c in s.cursors
    ensures Sound(Cleanup(s, c))
  {
    hide HomesOk, RefsOk, CountOk, CellsOk;
    if s.cursors[c].queue.Some? {
      CleanupParts(s, c);
      CleanupCore(s, c);
      RestingCursor(s, Cleanup(s, c).owners, c, Cleanup(s, c).cursors[c], Cleanup(s, c).rows);
    }
  }

  lemma CleanupCore(s: State, c: Ptr)
    requires Sound(s) && HasQueue(s.cursors, c)
    ensures Core(Cleanup(s, c))
  {
    CleanupParts(s, c);
    CleanupOwners(s, c);
    ReleaseKeeps(Forget(DropQueue(s, c, s.cursors[c].queue.value), ByCursor(c)), s.cursors[c].desc);
  }

  /** Cleanup leaves everything but the cursor, its rows and its descriptor alone. */
  lemma CleanupFrame(s: State, c: Ptr)
    requires Sound(s) && c in s.cursors
    ensures var s' := Cleanup(s, c);
      && s'.cursors.Keys == s.cursors.Keys && s'.stacks.Keys == s.stacks.Keys
      && s'.cursors[c].queue.None?
      && s'.resources == s.resources && s'.cells == s.cells && s'.current == s.current
      && (forall k :: k in s.cursors && k != c ==> s'.cursors[k] == s.cursors[k])
      && (forall h: Holder :: h.ByCursor? && h != ByCursor(c) ==> (h in s'.owners <==> h in s.owners))
      && (ByCursor(c) in s'.owners ==> s.cursors[c].queue.None?)
  {
    if s.cursors[c].queue.Some? {
      assert QueueOk(s.owners, s.cursors[c], c, s.rows);
      var s1 := Forget(DropQueue(s, c, s.cursors[c].queue.value), ByCursor(c));
      ReleaseFrame(s1, s.cursors[c].desc);
    }
  }
}
