/** Every operation of the ledger keeps the invariant. */
module LedgerProofs {
  import opened Memory
  import opened Ledger

  // ---------- Counting ----------

  lemma HolderAdded(owners: map<Holder, Ptr>, h: Holder, d: Ptr)
    requires h !in owners
    ensures HoldersOf(owners[h := d], d) == HoldersOf(owners, d) + {h}
    ensures |HoldersOf(owners[h := d], d)| == |HoldersOf(owners, d)| + 1
    ensures forall e :: e != d ==> HoldersOf(owners[h := d], e) == HoldersOf(owners, e)
  {
    assert HoldersOf(owners[h := d], d) == HoldersOf(owners, d) + {h};
  }

  lemma HolderRemoved(owners: map<Holder, Ptr>, h: Holder)
    requires h in owners
    ensures |HoldersOf(owners - {h}, owners[h])| == |HoldersOf(owners, owners[h])| - 1
    ensures forall e :: e != owners[h] ==> HoldersOf(owners - {h}, e) == HoldersOf(owners, e)
  {
    assert HoldersOf(owners - {h}, owners[h]) == HoldersOf(owners, owners[h]) - {h};
  }

  lemma FewerHolders(owners: map<Holder, Ptr>, owners': map<Holder, Ptr>, e: Ptr)
    requires forall h :: h in owners' ==> h in owners && owners'[h] == owners[h]
    ensures |HoldersOf(owners', e)| <= |HoldersOf(owners, e)|
  {
    SubsetCardinality(HoldersOf(owners', e), HoldersOf(owners, e));
  }

  lemma {:induction false} DeleteProps<T>(q: seq<T>, x: T)
    requires Distinct(q)
    ensures Distinct(Delete(q, x))
    ensures forall y :: y in Delete(q, x) <==> y in q && y != x
  {
    if q != [] && q[0] != x {
      DeleteProps(q[1..], x);
      assert q == [q[0]] + q[1..];
      assert q[0] !in q[1..];
    } else if q != [] {
      assert q == [q[0]] + q[1..];
    }
  }

  lemma LiveAdded(descs: map<Ptr, Desc>, d: Ptr, desc: Desc)
    requires d !in descs && desc.live
    ensures |LiveDescs(descs[d := desc])| == |LiveDescs(descs)| + 1
  {
    assert LiveDescs(descs[d := desc]) == LiveDescs(descs) + {d};
  }

  lemma LiveRemoved(descs: map<Ptr, Desc>, d: Ptr)
    requires d in descs
    ensures |LiveDescs(descs - {d})| == |LiveDescs(descs)| - (if descs[d].live then 1 else 0)
  {
    assert LiveDescs(descs - {d}) == LiveDescs(descs) - {d};
  }

  lemma CellsSame(cells: map<Ptr, Ptr>, stacks: map<Ptr, Stack>, stacks': map<Ptr, Stack>)
    requires CellsOk(cells, stacks) && stacks'.Keys == stacks.Keys
    requires forall S :: S in stacks ==> stacks'[S].cell == stacks[S].cell
    ensures CellsOk(cells, stacks')
  {
    forall c | c in cells ensures CellTo(cells, stacks', c) { assert CellTo(cells, stacks, c); }
    forall S | S in stacks' ensures CellFrom(cells, stacks', S) { assert CellFrom(cells, stacks, S); }
  }

  // ---------- Descriptors ----------

  lemma MakeHomes(descs: map<Ptr, Desc>, stacks: map<Ptr, Stack>, d: Ptr, home: Ptr)
    requires HomesOk(descs, stacks)
    requires d != NULL && d !in descs && (home != NULL ==> home in stacks)
    ensures HomesOk(descs[d := Desc(1, true, home, home == NULL)],
                    if home == NULL then stacks
                    else stacks[home := stacks[home].(items := [d] + stacks[home].items)])
  {
    if home != NULL {
      assert ItemsOk(descs, home, stacks[home].items);
      assert d !in stacks[home].items;
    }
  }

  lemma MakeRefs(descs: map<Ptr, Desc>, owners: map<Holder, Ptr>, d: Ptr, desc: Desc, h: Holder)
    requires RefsOk(descs, owners) && d !in descs && h !in owners && desc.refs == 1
    ensures RefsOk(descs[d := desc], owners[h := d])
  {
    HolderAdded(owners, h, d);
    assert HoldersOf(owners, d) == {};
  }

  lemma MakeKeeps(s: State, d: Ptr, h: Holder)
    requires Core(s) && CurrentOk(s)
    requires d != NULL && d !in s.descs && h !in s.owners
    ensures Core(Make(s, d, h))
  {
    var s' := Make(s, d, h);
    MakeRefs(s.descs, s.owners, d, s'.descs[d], h);
    LiveAdded(s.descs, d, s'.descs[d]);
    MakeHomes(s.descs, s.stacks, d, s.current);
    CellsSame(s.cells, s.stacks, s'.stacks);
  }

  lemma AddRefKeeps(s: State, d: Ptr, h: Holder)
    requires Core(s)
    requires d in s.descs && h !in s.owners
    ensures Core(AddRef(s, d, h))
  {
    var s' := AddRef(s, d, h);
    assert RefsOk(s'.descs, s'.owners) by { HolderAdded(s.owners, h, d); }
    assert CountOk(s'.descs, s'.count) by { RefsLive(s.descs, d, s'.descs[d].refs); }
    RefsHomes(s.descs, s.stacks, d, s'.descs[d].refs);
  }

  lemma FewerHoldersKeep(s: State, owners': map<Holder, Ptr>)
    requires Core(s)
    requires forall h :: h in owners' ==> h in s.owners && owners'[h] == s.owners[h]
    ensures Core(s.(owners := owners'))
  {
    forall d | d in s.descs ensures |HoldersOf(owners', d)| <= s.descs[d].refs {
      FewerHolders(s.owners, owners', d);
    }
  }

  /** Giving up one reference: its holder must already be off the books. */
  lemma ReleaseKeeps(s: State, d: Ptr)
    requires Core(s) && d in s.descs
    requires |HoldersOf(s.owners, d)| < s.descs[d].refs
    ensures Core(Release(s, d))
  {
    if s.descs[d].refs == 1 {
      DestroyKeeps(s, d);
    } else {
      var s' := Release(s, d);
      RefsLive(s.descs, d, s'.descs[d].refs);
      RefsHomes(s.descs, s.stacks, d, s'.descs[d].refs);
    }
  }

  /** The number of references has nothing to do with the lists and the count. */
  lemma RefsHomes(descs: map<Ptr, Desc>, stacks: map<Ptr, Stack>, d: Ptr, n: int)
    requires HomesOk(descs, stacks) && d in descs
    ensures HomesOk(descs[d := descs[d].(refs := n)], stacks)
  {
  }

  lemma RefsLive(descs: map<Ptr, Desc>, d: Ptr, n: int)
    requires d in descs
    ensures LiveDescs(descs[d := descs[d].(refs := n)]) == LiveDescs(descs)
  {
  }

  lemma DestroyHomes(s: State, d: Ptr)
    requires HomesOk(s.descs, s.stacks) && d in s.descs
    ensures HomesOk(Destroy(s, d).descs, Destroy(s, d).stacks)
  {
    if s.descs[d].home != NULL {
      DeleteProps(s.stacks[s.descs[d].home].items, d);
    }
  }

  lemma DestroyKeeps(s: State, d: Ptr)
    requires Core(s) && d in s.descs && HoldersOf(s.owners, d) == {}
    ensures Core(Destroy(s, d))
  {
    var s' := Destroy(s, d);
    assert RefsOk(s'.descs, s'.owners) by {
      assert forall h :: h in s.owners && s.owners[h] == d ==> h in HoldersOf(s.owners, d);
    }
    LiveRemoved(s.descs, d);
    DestroyHomes(s, d);
    CellsSame(s.cells, s.stacks, s'.stacks);
  }

  lemma UnrefKeeps(s: State, h: Holder)
    requires Core(s) && h in s.owners
    ensures Core(Unref(s, h))
  {
    FewerHoldersKeep(s, s.owners - {h});
    HolderRemoved(s.owners, h);
    ReleaseKeeps(Forget(s, h), s.owners[h]);
  }

  // ---------- Stacks ----------

  lemma RegisterFirst(rs: seq<Resource>, stacks: set<Ptr>, cursors: set<Ptr>, r: Resource)
    requires RegisteredOk(rs, stacks, cursors) && r !in rs
    ensures r.StackRes? ==> RegisteredOk([r] + rs, stacks + {r.stack}, cursors)
    ensures r.CursorRes? ==> RegisteredOk([r] + rs, stacks, cursors + {r.cursor})
  {
    assert forall x :: x in [r] + rs <==> x == r || x in rs;
  }

  lemma UnregisterOne(rs: seq<Resource>, stacks: set<Ptr>, cursors: set<Ptr>, r: Resource)
    requires RegisteredOk(rs, stacks, cursors)
    ensures r.StackRes? ==> RegisteredOk(Delete(rs, r), stacks - {r.stack}, cursors)
    ensures r.CursorRes? ==> RegisteredOk(Delete(rs, r), stacks, cursors)
    ensures r.CursorRes? ==> RegisteredOk(Delete(rs, r), stacks, cursors - {r.cursor})
  {
    DeleteProps(rs, r);
    var rs' := Delete(rs, r);
    assert forall S :: StackRes(S) in rs' <==> StackRes(S) in rs && StackRes(S) != r;
    assert forall c :: CursorRes(c) in rs' <==> CursorRes(c) in rs && CursorRes(c) != r;
  }

  lemma NewStackHomes(descs: map<Ptr, Desc>, stacks: map<Ptr, Stack>, S: Ptr, cell: Ptr)
    requires HomesOk(descs, stacks) && S != NULL && S !in stacks
    ensures HomesOk(descs, stacks[S := Stack(0, [], cell)])
  {
  }

  lemma NewStackCells(cells: map<Ptr, Ptr>, stacks: map<Ptr, Stack>, S: Ptr, cell: Ptr)
    requires CellsOk(cells, stacks) && S != NULL && S !in stacks && NULL !in stacks
    requires cell != NULL ==> cell in cells && cells[cell] == NULL
    ensures CellsOk(if cell == NULL then cells else cells[cell := S], stacks[S := Stack(0, [], cell)])
  {
    var cells' := if cell == NULL then cells else cells[cell := S];
    var stacks' := stacks[S := Stack(0, [], cell)];
    forall c | c in cells' ensures CellTo(cells', stacks', c) {
      if c != cell { assert CellTo(cells, stacks, c); }
    }
    forall T | T in stacks' ensures CellFrom(cells', stacks', T) {
      if T != S { assert CellFrom(cells, stacks, T); }
    }
  }

  lemma NewStackKeeps(s: State, S: Ptr, cell: Ptr)
    requires Core(s)
    requires S != NULL && S !in s.stacks
    requires cell != NULL ==> cell in s.cells && s.cells[cell] == NULL
    ensures Core(NewStack(s, S, cell))
  {
    var s' := NewStack(s, S, cell);
    NewStackHomes(s.descs, s.stacks, S, cell);
    NewStackCells(s.cells, s.stacks, S, cell);
  }

  lemma SetRefsKeeps(s: State, S: Ptr, n: int)
    requires Core(s) && S in s.stacks
    ensures Core(SetRefs(s, S, n))
  {
    var s' := SetRefs(s, S, n);
    assert s'.stacks.Keys == s.stacks.Keys;
    assert HomesOk(s'.descs, s'.stacks);
    CellsSame(s.cells, s.stacks, s'.stacks);
  }

  lemma CleanCounts(s: State, S: Ptr)
    requires HomesOk(s.descs, s.stacks) && S in s.stacks
    ensures LiveDescs(Clean(s, S).descs) == LiveDescs(s.descs) - Elements(s.stacks[S].items)
    ensures |LiveDescs(Clean(s, S).descs)| == |LiveDescs(s.descs)| - |s.stacks[S].items|
  {
    var items := s.stacks[S].items;
    assert ItemsOk(s.descs, S, items);
    DistinctCardinality(items);
    assert Elements(items) <= LiveDescs(s.descs) by {
      forall d | d in items ensures d in LiveDescs(s.descs) {
        assert HomeOk(s.descs[d], d, s.stacks);
      }
    }
    SubsetCardinality(Elements(items), LiveDescs(s.descs));
    assert LiveDescs(Clean(s, S).descs) == LiveDescs(s.descs) - Elements(items);
  }

  lemma CleanHomes(s: State, S: Ptr)
    requires HomesOk(s.descs, s.stacks) && S in s.stacks
    ensures var s' := Clean(s, S);
      HomesOk(s'.descs, s'.stacks) && HomesOk(s'.descs, s'.stacks - {S})
  {
    var s' := Clean(s, S);
    forall d | d in s'.descs
      ensures HomeOk(s'.descs[d], d, s'.stacks) && HomeOk(s'.descs[d], d, s'.stacks - {S})
    {
      assert HomeOk(s.descs[d], d, s.stacks);
    }
    forall S' | S' in s'.stacks ensures ItemsOk(s'.descs, S', s'.stacks[S'].items) {
      assert ItemsOk(s.descs, S', s.stacks[S'].items) && ItemsOk(s.descs, S, s.stacks[S].items);
    }
  }

  lemma CleanKeeps(s: State, S: Ptr)
    requires Core(s) && S in s.stacks
    ensures Core(Clean(s, S))
  {
    var s' := Clean(s, S);
    CleanCounts(s, S);
    CleanHomes(s, S);
    CellsSame(s.cells, s.stacks, s'.stacks);
  }

  lemma DismantleKeeps(s: State, S: Ptr)
    requires Core(s) && S in s.stacks
    ensures Core(Dismantle(s, S))
  {
    CleanKeeps(s, S);
    CleanHomes(s, S);
    DismantleCells(s.cells, s.stacks, S);
    assert Clean(s, S).stacks - {S} == s.stacks - {S};
  }

  lemma DismantleCells(cells: map<Ptr, Ptr>, stacks: map<Ptr, Stack>, S: Ptr)
    requires CellsOk(cells, stacks) && S in stacks && NULL !in stacks
    ensures CellsOk(if stacks[S].cell == NULL then cells else cells[stacks[S].cell := NULL], stacks - {S})
  {
    var cells' := if stacks[S].cell == NULL then cells else cells[stacks[S].cell := NULL];
    var stacks' := stacks - {S};
    assert CellFrom(cells, stacks, S);
    forall c | c in cells' ensures CellTo(cells', stacks', c) { assert CellTo(cells, stacks, c); }
    forall T | T in stacks' ensures CellFrom(cells', stacks', T) { assert CellFrom(cells, stacks, T); }
  }

  // ---------- Registration ----------

  lemma NewStackRegistered(s: State, S: Ptr, cell: Ptr)
    requires Valid(s) && S !in s.stacks
    ensures var s' := NewStack(s, S, cell);
      && RegisteredOk(s'.resources, s'.stacks.Keys, s'.cursors.Keys)
      && IterOk(s'.owners, s'.cursors, s'.resources)
  {
    RegisterFirst(s.resources, s.stacks.Keys, s.cursors.Keys, StackRes(S));
    assert NewStack(s, S, cell).stacks.Keys == s.stacks.Keys + {S};
    assert forall c :: CursorRes(c) in [StackRes(S)] + s.resources ==> CursorRes(c) in s.resources;
  }

  lemma RemoveStackKeeps(s: State, S: Ptr)
    requires Valid(s) && S in s.stacks
    ensures Valid(Unregister(Dismantle(s, S), StackRes(S)))
  {
    DismantleKeeps(s, S);
    UnregisterOne(s.resources, s.stacks.Keys, s.cursors.Keys, StackRes(S));
    DeleteProps(s.resources, StackRes(S));
    assert Dismantle(s, S).stacks.Keys == s.stacks.Keys - {S};
  }

  lemma ValidDistinct(s: State)
    requires Valid(s)
    ensures Distinct(s.resources)
  {
  }

  lemma EmptyIsValid()
    ensures Valid(EMPTY)
  {
    assert LiveDescs(map[]) == {};
  }
}
