/** The C state of PL/Lua's descriptor, resource and cursor code: global variables and
    memory, changed in place.  abs is the ledger state this memory represents; every
    operation is proved to be the ledger's operation of the same meaning. */
module Runtime {
  import opened Memory
  import opened IntrusiveList
  import opened Ledger
  import opened LedgerProofs
  import opened CursorProofs
  import opened Effects
  import opened Iterator
  import opened RuntimeModel
  import opened RuntimeProofs
  import opened Sweep
  import opened Runs

  // ---------- What each call has to establish ----------

  lemma EndSweeps(s: State)
    requires Valid(s)
    ensures Sweepable(s.(resources := []), s.resources)
    ensures Apply(s, Op.EndTransaction) == DestructAll(s.(resources := []), s.resources)
    ensures Valid(Apply(s, Op.EndTransaction))
  {
    StepKeepsValid(s, Op.EndTransaction);
    ValidSweepable(s);
  }

  lemma AddRowForm(s: State, c: Ptr, r: Ptr, x: Datum)
    requires HasQueue(s.cursors, c) && s.cursors[c].desc in s.descs
    ensures var s1 := AddRef(s, s.cursors[c].desc, ByRow(r));
      AddRow(s, c, r, x) == s1.(rows := s.rows[r := x],
                                cursors := s.cursors[c := s.cursors[c].(queue := Some(s.cursors[c].queue.value + [r]))])
  {
  }

  lemma AddNoRows(s: State, c: Ptr)
    requires HasQueue(s.cursors, c) && s.cursors[c].desc in s.descs
    ensures AddRows(s, c, [], []) == s
  {
  }

  lemma AddRowsSnoc(s: State, c: Ptr, rs: seq<Ptr>, xs: seq<Datum>, r: Ptr, x: Datum)
    requires HasQueue(s.cursors, c) && s.cursors[c].desc in s.descs && |rs| == |xs|
    ensures var s1 := AddRows(s, c, rs, xs);
      && HasQueue(s1.cursors, c) && s1.cursors[c].desc in s1.descs
      && AddRows(s, c, rs + [r], xs + [x]) == AddRow(s1, c, r, x)
  {
    assert (rs + [r])[..|rs|] == rs && (xs + [x])[..|xs|] == xs;
  }

  lemma MakeFrame(s: State, d: Ptr, o: Holder)
    requires CurrentOk(s)
    ensures Make(s, d, o).current == s.current && Make(s, d, o).count == s.count + 1
  {
  }

  lemma QueueFacts(s: State, c: Ptr)
    requires Sound(s) && HasQueue(s.cursors, c)
    ensures QueueOk(s.owners, s.cursors[c], c, s.rows) && NULL !in s.cursors[c].queue.value
    ensures ByCursor(c) in s.owners && s.owners[ByCursor(c)] in s.descs
    ensures forall r :: r in s.rows <==> ByRow(r) in s.owners
  {
    assert QueueOk(s.owners, s.cursors[c], c, s.rows);
  }

  lemma NothingToCleanUp(s: State, c: Ptr)
    requires Sound(s) && c in s.cursors && s.cursors[c].queue.None?
    ensures Cleanup(s, c) == s
  {
  }

  lemma SweepableDistinct(s: State, rs: seq<Resource>)
    requires Sweepable(s, rs)
    ensures Distinct(rs)
  {
  }

  /** The loop ends with nothing left to destroy. */
  lemma SweptAll(s: State)
    requires s.resources == [] && Sweepable(s.(resources := []), Pending(None, s.resources))
    ensures DestructAll(s.(resources := []), Pending(None, s.resources)) == s
  {
    assert s.(resources := []) == s;
  }

  lemma StackCell(absCells: map<Ptr, Ptr>, absStacks: map<Ptr, Stack>, S: Ptr)
    requires CellsOk(absCells, absStacks) && S in absStacks && absStacks[S].cell != NULL
    ensures absStacks[S].cell in absCells
  {
    assert CellFrom(absCells, absStacks, S);
  }

  lemma WeakCell(h: Heap, s: State, cell: Ptr)
    requires Faithful(h, s) && CellsOk(s.cells, s.stacks) && cell in s.cells && s.cells[cell] != NULL
    ensures cell != NULL && s.cells[cell] in h.stacks && s.cells[cell] in s.stacks && s.stacks[s.cells[cell]].cell == cell
  {
    assert CellTo(s.cells, s.stacks, cell);
  }

  lemma CollectParts(s: State, c: Ptr)
    requires Valid(s) && c in s.cursors
    ensures !Breaks(s, Op.CollectCursor(c)) ==>
      Legal(s, Op.CollectCursor(c)) && Apply(s, Op.CollectCursor(c)) == GcCursor(s, c) && Valid(GcCursor(s, c))
    ensures Breaks(s, Op.CollectCursor(c)) ==> CursorRes(c) in GcCursor(s, c).resources
    ensures GcCursor(s, c).cells == s.cells && GcCursor(s, c).current == s.current && c !in GcCursor(s, c).cursors
  {
    CollectExactly(s, c);
    GcCursorFrame(s, c);
  }

  lemma GcCursorFrame(s: State, c: Ptr)
    requires c in s.cursors && Sound(s)
    ensures GcCursor(s, c).cells == s.cells && GcCursor(s, c).current == s.current
  {
    CleanupFrame(s, c);
  }

  /** The row is freed and its reference given back, in whichever order. */
  lemma GcRowForm(s: State, r: Ptr)
    requires HomesOk(s.descs, s.stacks) && RefsOk(s.descs, s.owners) && ByRow(r) in s.owners
    ensures CanDestroy(s, s.owners[ByRow(r)])
    ensures GcRow(s, r) == Ledger.Release(s.(owners := s.owners - {ByRow(r)}, rows := s.rows - {r}), s.owners[ByRow(r)])
  {
    ReleaseForm(s.(owners := s.owners - {ByRow(r)}, rows := s.rows - {r}), s.owners[ByRow(r)]);
    ReleaseForm(Forget(s, ByRow(r)), s.owners[ByRow(r)]);
  }

  lemma NewStackFrame(s: State, S: Ptr, cell: Ptr)
    ensures var s' := NewStack(s, S, cell);
      && s'.current == s.current && s'.count == s.count && s'.resources == [StackRes(S)] + s.resources
      && s'.cells == if cell == NULL then s.cells else s.cells[cell := S]
  {
  }

  lemma FreeFrame(s: State, S: Ptr)
    requires S in s.stacks
    ensures var s' := FreeIfNotUsed(s, S);
      && s'.owners == s.owners && s'.cursors == s.cursors && s'.rows == s.rows && s'.current == s.current
      && s'.cells == (if s.stacks[S].refs == 0 && s.stacks[S].cell != NULL then s.cells[s.stacks[S].cell := NULL] else s.cells)
  {
  }

  /** The descriptor is one the cursor can make, or one it holds. */
  predicate DescReady(s: State, c: Ptr)
    requires c in s.cursors
  {
    var d := s.cursors[c].desc;
    if d == NULL then CurrentOk(s) else d in s.descs
  }

  /** The cursor's descriptor has lost its TupleDesc. */
  predicate DescLost(s: State, c: Ptr)
    requires c in s.cursors
  {
    s.cursors[c].desc in s.descs && !s.descs[s.cursors[c].desc].live
  }

  lemma BatchBounds(xs: seq<Datum>)
    ensures |Batch(xs)| <= FETCH_CSR_Q && (xs != [] ==> Batch(xs) != [])
  {
  }

  lemma StartedDesc(s: State, c: Ptr, d: Ptr)
    requires c in s.cursors && s.cursors[c].portal.Some? && DescReady(s, c) && d != NULL && d !in s.descs && NULL !in s.descs
    ensures c in Started(s, c, d).cursors && Started(s, c, d).cursors[c].desc in Started(s, c, d).descs
    ensures Started(s, c, d).cursors[c].queue == Some([]) && Started(s, c, d).rows == s.rows
    ensures DescLost(Started(s, c, d), c) <==> DescLost(s, c)
  {
  }

  /** From s to s' in one call of the iterator, which returns t: the address of the row it
      delivers, NULL for nil. */
  ghost predicate Delivers(s: State, c: Ptr, d: Ptr, rs: seq<Ptr>, t: Ptr, s': State) {
    && Valid(s) && Legal(s, Op.Next(c, d, rs)) && s' == Apply(s, Op.Next(c, d, rs))
    && match Ledger.NextRow(s, c, d, rs).1
       case None => t == NULL
       case Some(r) => t == r
  }

  /** Freeing the empty queue first makes no difference to what follows. */
  lemma FinishSkipsQueue(s: State, c: Ptr)
    requires HomesOk(s.descs, s.stacks) && RefsOk(s.descs, s.owners) && c in s.cursors && NeedsFetch(s, c)
    ensures Finish(WithoutEmptyQueue(s, c), c) == Finish(s, c)
  {
    hide Release, LessDescs, LessStacks;
    var s1, h := WithoutEmptyQueue(s, c), ByCursor(c);
    var cur := Cursor(DescAfterUnref(s, s.cursors[c].desc), None, None);
    assert s1.cursors[c := cur] == s.cursors[c := cur];
    if h in s.owners {
      assert HomeOk(s.descs[s.owners[h]], s.owners[h], s.stacks);
      ReleaseForm(Forget(s, h), s.owners[h]);
      ReleaseForm(Forget(s1, h), s.owners[h]);
    }
  }

  lemma StartSkipsQueue(s: State, c: Ptr, d: Ptr)
    requires c in s.cursors && s.cursors[c].portal.Some? && NeedsFetch(s, c)
    requires s.cursors[c].desc == NULL ==> CurrentOk(s)
    ensures Started(WithoutEmptyQueue(s, c), c, d) == Started(s, c, d)
  {
    assert Started(WithoutEmptyQueue(s, c), c, d).cursors == Started(s, c, d).cursors;
  }

  /** A cursor that is registered or has rows queued is ready for the iterator. */
  lemma FetchParts(s: State, c: Ptr)
    requires Valid(s) && c in s.cursors && (CursorRes(c) in s.resources || !NeedsFetch(s, c))
    ensures HomesOk(s.descs, s.stacks) && RefsOk(s.descs, s.owners) && Distinct(s.resources)
    ensures NeedsFetch(s, c) && (s.cursors[c].desc == NULL ==> CurrentOk(s)) ==> DescReady(s, c)
    ensures NeedsFetch(s, c) ==> s.cursors[c].portal.Some? && (ByCursor(c) in s.owners <==> s.cursors[c].desc != NULL)
    ensures NeedsFetch(s, c) && s.cursors[c].desc != NULL ==> s.cursors[c].desc in s.descs
    ensures ByCursor(c) in s.owners ==> s.owners[ByCursor(c)] == s.cursors[c].desc
    ensures NeedsFetch(s, c) && s.cursors[c].portal != Some([]) ==> (DescLost(s, c) <==> RefillCrashes(s, c))
    ensures RefillCrashes(s, c) ==> NeedsFetch(s, c) && s.cursors[c].portal != Some([])
    ensures var s1 := WithoutEmptyQueue(s, c);
      && s1.(cursors := s.cursors) == s && c in s1.cursors && s1.cursors[c].desc == s.cursors[c].desc
      && s1.cursors[c].portal == s.cursors[c].portal
      && s1.cursors[c].queue == (if NeedsFetch(s, c) then None else s.cursors[c].queue)
      && DescReady(s1, c) == DescReady(s, c) && DescLost(s1, c) == DescLost(s, c)
  {
  }

  lemma NextFinishes(s: State, c: Ptr, d: Ptr, rs: seq<Ptr>)
    requires Valid(s) && CursorRes(c) in s.resources && NeedsFetch(s, c) && s.cursors[c].portal == Some([])
    ensures var s' := Finish(WithoutEmptyQueue(s, c), c);
      Delivers(s, c, d, rs, NULL, s') && Valid(s') && s'.cells == s.cells
  {
    StepKeepsValid(s, Op.Next(c, d, rs));
    FinishSkipsQueue(s, c);
  }

  lemma NextFetches(s: State, c: Ptr, d: Ptr, rs: seq<Ptr>)
    requires Valid(s) && c in s.cursors && CursorRes(c) in s.resources && NeedsFetch(s, c) && s.cursors[c].portal != Some([])
    requires DescReady(s, c) && !RefillCrashes(s, c) && d != NULL && d !in s.descs
    requires |rs| == |Batch(s.cursors[c].portal.value)| && Distinct(rs) && forall r :: r in rs ==> r != NULL && r !in s.rows
    ensures var s1 := Fill(WithoutEmptyQueue(s, c), c, d, rs);
      && HasQueue(s1.cursors, c) && s1.cursors[c].queue == Some(rs) && rs != []
      && Delivers(s, c, d, rs, rs[0], Dequeue(s1, c)) && Valid(Dequeue(s1, c)) && Dequeue(s1, c).cells == s.cells
  {
    hide HomesOk, RefsOk, CountOk, CellsOk, CursorsOk, RegisteredOk, IterOk, AddRows, Started;
    FetchParts(s, c);
    StartedHasDesc(s, c, d, rs);
    StepKeepsValid(s, Op.Next(c, d, rs));
    StartSkipsQueue(s, c, d);
    FillMakesQueue(s, c, d, rs);
    AddRowsFrame(Started(s, c, d), c, rs, Batch(s.cursors[c].portal.value));
  }

  lemma NextDequeues(s: State, c: Ptr, d: Ptr, rs: seq<Ptr>)
    requires Valid(s) && c in s.cursors && !NeedsFetch(s, c)
    ensures HasQueue(s.cursors, c) && s.cursors[c].queue.value != []
    ensures var s' := Dequeue(WithoutEmptyQueue(s, c), c);
      Delivers(s, c, d, rs, s.cursors[c].queue.value[0], s') && Valid(s') && s'.cells == s.cells
  {
    StepKeepsValid(s, Op.Next(c, d, rs));
  }

  lemma EmptyIsFine(cells: map<Ptr, Ptr>)
    requires NULL !in cells && forall f :: f in cells ==> cells[f] == NULL
    ensures Valid(EMPTY.(cells := cells))
    ensures Mirrors(Heap(map[], map[], map[], map[], map[]), map[], map[])
    ensures ResourcesSim(Registry(map[], NULL, []), []) && RegsBut(map[], map[], Registry(map[], NULL, []), [], None)
    ensures ObjectsSim(map[], map[], map[], EMPTY.(cells := cells))
  {
    assert LiveDescs(map[]) == {};
  }

  class Runtime {
    var descs: map<Ptr, RTupDesc>
    /** TupleDesc copies in memory, each with the descriptor it was copied for. */
    var tupDescs: map<Ptr, Ptr>
    var nodes: map<Ptr, Link<Ptr>>
    var stacks: map<Ptr, RTupDescStack>
    var rsNodes: map<Ptr, Link<Registration>>
    var resourceTop: Ptr
    var cursors: map<Ptr, LuaCursor>
    var queues: map<Ptr, TupleQueue>
    var rows: map<Ptr, LuaTuple>
    /** The funcxt_wp variables of the compiled functions. */
    var cells: map<Ptr, Ptr>
    var current: Ptr
    var objCount: int
    ghost var chains: map<Ptr, seq<Ptr>>
    ghost var rsChain: seq<Ptr>
    ghost var abs: State

    ghost function Snap(): Heap
      reads this
    {
      Heap(descs, tupDescs, nodes, stacks, chains)
    }

    ghost function Reg(): Registry
      reads this
    {
      Registry(rsNodes, resourceTop, rsChain)
    }

    /** Descriptors, nodes and stacks represent the ledger's. */
    ghost predicate Mem()
      reads this
    {
      match abs
      case State(_, _, _, _, _, _, _, absCurrent, count) =>
        Faithful(Snap(), abs) && objCount == count && current == absCurrent
    }

    /** The resource list is rs, and all registered objects but res know their node. */
    ghost predicate RegsExcept(res: Option<Registration>, rs: seq<Resource>)
      reads this
    {
      match res
      case None => ResourcesSim(Reg(), rs) && RegsBut(stacks, cursors, Reg(), rs, None)
      case Some(r) => ResourcesSim(Reg(), rs) && RegsBut(stacks, cursors, Reg(), rs, Some(ResourceOf(r)))
    }

    ghost predicate Regs()
      reads this
    {
      RegsExcept(None, abs.resources)
    }

    ghost predicate Objects()
      reads this
    {
      ObjectsSim(cursors, queues, rows, abs)
    }

    ghost predicate Inv()
      reads this
    {
      match abs
      case State(_, _, _, _, _, _, absCells, _, _) => Mem() && Regs() && Objects() && cells == absCells && Valid(abs)
    }

    /** The memory now represents what op makes of s, and op was called as it should be. */
    ghost predicate Stepped(s: State, op: Op)
      reads this
    {
      var holds := Inv() && Valid(s) && Legal(s, op) && abs == Apply(s, op);
      holds
    }

    // ---------- rtupdescstk.c: nodes ----------

    method RtdsPush(S: Ptr, d: Ptr) returns (np: Ptr)
      requires ListsOk(stacks, nodes, chains) && (S != NULL ==> S in stacks)
      modifies this`nodes, this`stacks, this`chains
      ensures S == NULL ==> np == NULL && Snap() == old(Snap())
      ensures S != NULL ==> np != NULL && np !in old(nodes) && Snap() == HeapPushed(old(Snap()), S, np, d)
    {
      if S == NULL {
        return NULL;
      }
      TopIsNode(Snap(), S);
      np := Palloc(nodes.Keys);
      nodes := nodes[np := Link(d, stacks[S].top, NULL, S)];
      if stacks[S].top != NULL {
        nodes := nodes[stacks[S].top := nodes[stacks[S].top].(prev := np)];
      }
      stacks := stacks[S := stacks[S].(top := np)];
      chains := chains[S := [np] + chains[S]];
    }

    /** rtds_pop: the first node is freed and its descriptor returned, NULL if none. */
    method RtdsPop(S: Ptr) returns (hold: Ptr)
      requires ListsOk(stacks, nodes, chains) && S in stacks
      modifies this`nodes, this`stacks, this`chains
      ensures S in old(chains)
      ensures old(chains)[S] == [] ==> hold == NULL && Snap() == old(Snap())
      ensures old(chains)[S] != [] ==>
        && old(chains)[S][0] in old(nodes) && hold == old(nodes)[old(chains)[S][0]].data
        && Snap() == HeapUnlinked(old(Snap()), S, 0)
    {
      TopIsNode(Snap(), S);
      if stacks[S].top == NULL {
        return NULL;
      }
      UnlinkIsRemove(nodes, stacks[S].top, S, chains[S], 0);
      var temp := stacks[S].top;
      hold := nodes[temp].data;
      stacks := stacks[S := stacks[S].(top := nodes[temp].next)];
      if stacks[S].top != NULL {
        nodes := nodes[stacks[S].top := nodes[stacks[S].top].(prev := NULL)];
      }
      nodes := nodes - {temp};
      chains := chains[S := Without(chains[S], 0)];
    }

    /** rtds_remove_node: unlink np from anywhere in its list and free it. */
    method RtdsRemoveNode(np: Ptr, ghost i: nat)
      requires ListsOk(stacks, nodes, chains)
      requires np != NULL ==> np in nodes && nodes[np].tail in stacks && i < |chains[nodes[np].tail]| && chains[nodes[np].tail][i] == np
      modifies this`nodes, this`stacks, this`chains
      ensures np == NULL ==> Snap() == old(Snap())
      ensures np != NULL ==> Snap() == HeapUnlinked(old(Snap()), old(nodes)[np].tail, i)
    {
      if np == NULL {
        return;
      }
      var S := nodes[np].tail;
      TopIsNode(Snap(), S);
      UnlinkIsRemove(nodes, stacks[S].top, S, chains[S], i);
      if stacks[S].top == np {
        stacks := stacks[S := stacks[S].(top := nodes[np].next)];
        if stacks[S].top != NULL {
          nodes := nodes[stacks[S].top := nodes[stacks[S].top].(prev := NULL)];
        }
      } else {
        if nodes[np].prev != NULL {
          nodes := nodes[nodes[np].prev := nodes[nodes[np].prev].(next := nodes[np].next)];
        }
        if nodes[np].next != NULL {
          nodes := nodes[nodes[np].next := nodes[nodes[np].next].(prev := nodes[np].prev)];
        }
      }
      nodes := nodes - {np};
      chains := chains[S := Without(chains[S], i)];
    }

    /** rtds_get_length walks next pointers to the end. */
    method RtdsGetLength(S: Ptr) returns (count: nat)
      requires Mem() && S in stacks
      ensures S in abs.stacks && count == |abs.stacks[S].items|
    {
      ghost var chain := chains[S];
      TopIsNode(Snap(), S);
      assert StackSim(stacks[S], nodes, chain, abs.stacks[S]);
      count := 0;
      var node := stacks[S].top;
      while node != NULL
        invariant count <= |chain| && node == At(chain, count)
        invariant count < |chain| ==> chain[count] != NULL
        decreases |chain| - count
      {
        assert Linked(nodes, chain, count);
        count := count + 1;
        node := nodes[node].next;
        assert count < |chain| ==> chain[count] in chain;
      }
    }

    // ---------- rtupdesc.c ----------

    method Ctor(ghost o: Holder) returns (d: Ptr)
      requires Mem() && CurrentOk(abs)
      modifies this`descs, this`tupDescs, this`nodes, this`stacks, this`chains, this`objCount, this`abs
      ensures Mem() && SameRegs(old(stacks), stacks)
      ensures d != NULL && d !in old(descs) && d !in old(abs).descs && abs == Make(old(abs), d, o)
    {
      hide Mirrors, ListsOk, WeakOk, TupsOk, HeapMade, HeapPushed, Make;
      ghost var h := Snap();
      HeapParts(Snap(), abs);
      d := Palloc(descs.Keys);
      var tup := Palloc(tupDescs.Keys);
      descs := descs[d := RTupDesc(1, NULL, tup)];
      tupDescs := tupDescs[tup := d];
      objCount := objCount + 1;
      ghost var h0 := Snap();
      var np := RtdsPush(current, d);
      descs := descs[d := descs[d].(weakNode := np)];
      MadeForm(h, h0, d, tup, current, np);
      MadeAll(h, abs, d, tup, np, o);
      MakeFrame(abs, d, o);
      abs := Make(abs, d, o);
    }

    method Ref(d: Ptr, ghost o: Holder)
      requires Mem() && d in descs
      modifies this`descs, this`abs
      ensures Mem() && old(d in abs.descs) && abs == AddRef(old(abs), d, o)
    {
      CountAll(Snap(), abs, d, o);
      descs := descs[d := descs[d].(refCount := descs[d].refCount + 1)];
      abs := AddRef(abs, d, o);
    }

    method FreeDesc(d: Ptr)
      requires d in descs && TupsOk(descs, tupDescs)
      modifies this`descs, this`tupDescs, this`objCount
      ensures descs == old(descs)[d := old(descs)[d].(tupDesc := NULL)]
      ensures tupDescs == if old(descs)[d].tupDesc == NULL then old(tupDescs) else old(tupDescs) - {old(descs)[d].tupDesc}
      ensures objCount == if old(descs)[d].tupDesc == NULL then old(objCount) else old(objCount) - 1
    {
      assert TupTo(descs, tupDescs, d);
      if descs[d].tupDesc != NULL {
        assert descs[d].tupDesc in tupDescs;
        tupDescs := tupDescs - {descs[d].tupDesc};
        descs := descs[d := descs[d].(tupDesc := NULL)];
        objCount := objCount - 1;
      }
    }

    /** rtupdesc_dtor: off its stack, TupleDesc freed, record freed. */
    method Dtor(d: Ptr)
      requires Mem() && d in descs
      modifies this`descs, this`tupDescs, this`nodes, this`stacks, this`chains, this`objCount, this`abs
      ensures Mem() && SameRegs(old(stacks), stacks)
      ensures CanDestroy(old(abs), d) && abs == Destroy(old(abs), d)
    {
      hide Mirrors, ListsOk, WeakOk, TupsOk, HeapUnlinked;
      ghost var h := Snap();
      HeapParts(h, abs);
      if descs[d].weakNode == NULL {
        LooseAll(h, abs, d);
        RtdsRemoveNode(NULL, 0);
      } else {
        ghost var S, i := ListedAll(h, abs, d);
        RtdsRemoveNode(descs[d].weakNode, i);
      }
      FreeDesc(d);
      descs := descs - {d};
      assert descs == h.descs - {d};
      abs := Destroy(abs, d);
    }

    /** rtupdesc_unref: NULL is returned when that was the last reference. */
    method Release(d: Ptr) returns (r: Ptr)
      requires Mem() && d in descs
      modifies this`descs, this`tupDescs, this`nodes, this`stacks, this`chains, this`objCount, this`abs
      ensures Mem() && SameRegs(old(stacks), stacks)
      ensures CanDestroy(old(abs), d) && abs == Ledger.Release(old(abs), d) && r == DescAfterUnref(old(abs), d)
      ensures r == if d in abs.descs then d else NULL
    {
      ReleaseAll(Snap(), abs, d);
      if descs[d].refCount - 1 == 0 {
        Dtor(d);
        return NULL;
      }
      descs := descs[d := descs[d].(refCount := descs[d].refCount - 1)];
      abs := Ledger.Release(abs, d);
      return d;
    }

    // ---------- rtupdescstk.c: stacks ----------

    /** The body of the drain loop: the popped descriptor loses its TupleDesc and its
        pointer to the node that was just freed. */
    method DetachPopped(top: Ptr, ghost S: Ptr, ghost h: Heap)
      requires Faithful(h, abs) && objCount == abs.count && current == abs.current
      requires S in h.stacks && S in h.chains && h.chains[S] != [] && Snap() == HeapUnlinked(h, S, 0)
      requires h.chains[S][0] in h.nodes && top == h.nodes[h.chains[S][0]].data
      modifies this`descs, this`tupDescs, this`objCount, this`abs
      ensures Mem() && SameRegs(h.stacks, stacks)
      ensures S in chains && chains[S] == Without(h.chains[S], 0)
      ensures S in old(abs).stacks && S in abs.stacks && Clean(abs, S) == Clean(old(abs), S)
    {
      hide Mirrors, ListsOk, TupsOk;
      HeapParts(h, abs);
      ghost var d := DetachAll(h, abs, S);
      CleanUnrolls(abs, S);
      FreeDesc(top);
      descs := descs[top := descs[top].(weakNode := NULL)];
      abs := DetachFirst(abs, S);
      assert Snap() == HeapDetached(h, S, d);
    }

    /** clean: the drain loop. */
    method CleanStack(S: Ptr)
      requires Mem() && S in stacks
      modifies this`descs, this`tupDescs, this`nodes, this`stacks, this`chains, this`objCount, this`abs
      ensures Mem() && SameRegs(old(stacks), stacks) && S in chains && chains[S] == []
      ensures S in old(abs).stacks && abs == Clean(old(abs), S)
    {
      StackFieldRepresents(Snap(), abs, S, stacks[S].refCount);
      ghost var h := Snap();
      ghost var first := Clean(abs, S);
      var top := RtdsPop(S);
      while top != NULL
        invariant Faithful(h, abs) && S in h.stacks && S in h.chains && S in abs.stacks
        invariant SameRegs(old(stacks), h.stacks)
        invariant Clean(abs, S) == first && objCount == abs.count && current == abs.current
        invariant h.chains[S] == [] ==> top == NULL && Snap() == h
        invariant h.chains[S] != [] ==>
          h.chains[S][0] in h.nodes && top == h.nodes[h.chains[S][0]].data && Snap() == HeapUnlinked(h, S, 0)
        decreases |h.chains[S]|
      {
        DetachPopped(top, S, h);
        h := Snap();
        top := RtdsPop(S);
      }
      Drained(h, abs, S, top);
    }

    // ---------- pllua_xact_cleanup.c: the resource list ----------

    method RegisterResource(r: Registration) returns (np: Ptr)
      requires ResourcesSim(Reg(), abs.resources)
      modifies this`rsNodes, this`resourceTop, this`rsChain
      ensures np != NULL && np in rsNodes && rsNodes[np].data == r
      ensures SameData(old(rsNodes), rsNodes, NULL) && NULL !in old(rsNodes)
      ensures ResourcesSim(Reg(), [ResourceOf(r)] + abs.resources)
    {
      NullUnregistered(Reg(), abs.resources);
      np := Palloc(rsNodes.Keys);
      ghost var reg := Reg();
      RegisterSim(reg, abs.resources, np, r);
      rsNodes := rsNodes[np := Link(r, resourceTop, NULL, RESOURCE_STK)];
      if resourceTop != NULL {
        rsNodes := rsNodes[resourceTop := rsNodes[resourceTop].(prev := np)];
      }
      resourceTop := np;
      rsChain := [np] + rsChain;
      assert Reg() == Registered(reg, np, r);
    }

    /** unregister_resource always returns NULL for the caller's resptr. */
    method UnregisterResource(np: Ptr) returns (r: Ptr)
      requires ResourcesSim(Reg(), abs.resources) && Distinct(abs.resources)
      requires np != NULL ==> np in rsNodes
      modifies this`rsNodes, this`resourceTop, this`rsChain
      ensures r == NULL
      ensures np == NULL ==> Reg() == old(Reg())
      ensures np != NULL ==>
        && ResourcesSim(Reg(), Delete(abs.resources, ResourceOf(old(rsNodes)[np].data)))
        && SameData(old(rsNodes), rsNodes, np)
    {
      if np == NULL {
        return NULL;
      }
      ghost var reg := Reg();
      ghost var i := UnregisterNode(reg, abs.resources, np);
      if resourceTop == np {
        resourceTop := rsNodes[np].next;
        if resourceTop != NULL {
          rsNodes := rsNodes[resourceTop := rsNodes[resourceTop].(prev := NULL)];
        }
      } else {
        if rsNodes[np].prev != NULL {
          rsNodes := rsNodes[rsNodes[np].prev := rsNodes[rsNodes[np].prev].(next := rsNodes[np].next)];
        }
        if rsNodes[np].next != NULL {
          rsNodes := rsNodes[rsNodes[np].next := rsNodes[rsNodes[np].next].(prev := rsNodes[np].prev)];
        }
      }
      rsNodes := rsNodes - {np};
      rsChain := Without(rsChain, i);
      assert Reg() == Unregistered(reg, i);
      return NULL;
    }

    // ---------- rtupdescstk.c: stack objects ----------

    /** rtds_initStack and rtds_initStack_weak, with the assignment to the weak cell that
        follows the latter's only call. */
    method AllocStack(cell: Ptr) returns (S: Ptr)
      requires Mem() && Regs() && cells == abs.cells
      modifies this`stacks, this`chains, this`rsNodes, this`resourceTop, this`rsChain, this`cells, this`abs
      ensures Mem() && Regs() && cells == abs.cells
      ensures S != NULL && S !in old(abs).stacks && abs == NewStack(old(abs), S, cell)
    {
      hide Mirrors, HeapOk, ResourcesSim, RegsBut, SameData, NewStack;
      HeapParts(Snap(), abs);
      S := Palloc(stacks.Keys);
      ghost var reg := Reg();
      var node := RegisterResource(Registration(S, ForceFree));
      var rec := RTupDescStack(0, NULL, node, cell);
      StackRegistered(stacks, cursors, reg, Reg(), abs.resources, S, rec);
      PlaceStack(S, rec);
    }

    /** The record is in memory and its cell, if it has one, leads to it. */
    method PlaceStack(S: Ptr, rec: RTupDescStack)
      requires Mem() && S != NULL && S !in stacks && rec.refCount == 0 && rec.top == NULL && cells == abs.cells
      requires ResourcesSim(Reg(), [StackRes(S)] + abs.resources)
      requires RegsBut(stacks[S := rec], cursors, Reg(), [StackRes(S)] + abs.resources, None)
      modifies this`stacks, this`chains, this`cells, this`abs
      ensures Mem() && Regs() && cells == abs.cells && abs == NewStack(old(abs), S, rec.cleanupPtr)
    {
      hide Mirrors, ResourcesSim, RegsBut, NewStack;
      NewStackRepresents(Snap(), abs, S, rec);
      NewStackFrame(abs, S, rec.cleanupPtr);
      stacks := stacks[S := rec];
      chains := chains[S := []];
      cells := if rec.cleanupPtr == NULL then cells else cells[rec.cleanupPtr := S];
      abs := NewStack(abs, S, rec.cleanupPtr);
    }

    /** rtds_inuse and rtds_notinuse. */
    method AddUse(S: Ptr, n: int)
      requires Mem() && Regs() && S in stacks
      modifies this`stacks, this`abs
      ensures Mem() && Regs()
      ensures S in old(abs).stacks && abs == SetRefs(old(abs), S, old(abs).stacks[S].refs + n)
      ensures S in stacks && S in chains && stacks[S].refCount == old(abs).stacks[S].refs + n
    {
      hide Mirrors, ResourcesSim, RegsBut;
      HeapParts(Snap(), abs);
      StackFieldRepresents(Snap(), abs, S, stacks[S].refCount + n);
      var rec := stacks[S].(refCount := stacks[S].refCount + n);
      SameRegsMove(stacks, stacks[S := rec], cursors, Reg(), abs.resources);
      stacks := stacks[S := rec];
      abs := SetRefs(abs, S, rec.refCount);
    }

    /** rtds_tryclean */
    method TryCleanStack(S: Ptr)
      requires Mem() && Regs() && (S != NULL ==> S in stacks)
      modifies this`descs, this`tupDescs, this`nodes, this`stacks, this`chains, this`objCount, this`abs
      ensures Mem() && Regs()
      ensures S == NULL ==> abs == old(abs)
      ensures S != NULL ==> S in old(abs).stacks && abs == Ledger.TryClean(old(abs), S)
      ensures S != NULL && old(abs).stacks[S].refs == 1 ==> Cleaned(old(abs), abs, S) && S in stacks && stacks[S].top == NULL
      ensures S != NULL && old(abs).stacks[S].refs != 1 ==> CountedDown(old(abs), abs, S)
    {
      hide Mirrors, ResourcesSim, RegsBut, LostExactly;
      if S == NULL {
        return;
      }
      HeapParts(Snap(), abs);
      TryCleanEffect(abs, S);
      AddUse(S, -1);
      if stacks[S].refCount != 0 {
        return;
      }
      ghost var before := stacks;
      CleanStack(S);
      SameRegsMove(before, stacks, cursors, Reg(), abs.resources);
      EmptyTop(Snap(), abs, S);
    }

    /** Free a cleaned stack's record. */
    method FreeStackRecord(S: Ptr)
      requires Mem() && S in stacks && S in chains && chains[S] == []
      modifies this`stacks, this`chains, this`abs
      ensures Mem() && stacks == old(stacks) - {S} && abs == old(abs).(stacks := old(abs).stacks - {S})
    {
      FreedStackRepresents(Snap(), abs, S);
      stacks := stacks - {S};
      chains := chains - {S};
      abs := abs.(stacks := abs.stacks - {S});
    }

    /** rtds_free_if_not_used.  The caller stores the result in its own variable; for a
        weak stack that variable is the cell, which is why cells is not yet right here. */
    method FreeIfUnused(S: Ptr) returns (r: Ptr)
      requires Mem() && Regs() && Distinct(abs.resources) && (S != NULL ==> S in stacks)
      modifies this`descs, this`tupDescs, this`nodes, this`stacks, this`chains, this`objCount, this`rsNodes, this`resourceTop, this`rsChain, this`abs
      ensures Mem() && Regs()
      ensures S == NULL ==> r == NULL && abs == old(abs)
      ensures S != NULL ==> S in old(abs).stacks && abs == FreeIfNotUsed(old(abs), S)
      ensures S != NULL ==> r == if old(abs).stacks[S].refs == 0 then NULL else S
    {
      if S == NULL {
        return NULL;
      }
      StackFieldRepresents(Snap(), abs, S, stacks[S].refCount);
      if stacks[S].refCount != 0 {
        return S;
      }
      DropStack(S);
      return NULL;
    }

    /** Clean the stack, unregister it, free it. */
    method DropStack(S: Ptr)
      requires Mem() && Regs() && Distinct(abs.resources) && S in stacks
      modifies this`descs, this`tupDescs, this`nodes, this`stacks, this`chains, this`objCount, this`rsNodes, this`resourceTop, this`rsChain, this`abs
      ensures Mem() && Regs()
      ensures S in old(abs).stacks && abs == Unregister(Dismantle(old(abs), S), StackRes(S))
    {
      hide Mirrors;
      ghost var s, before, reg := abs, stacks, Reg();
      assert StackReg(stacks, rsNodes, S);
      NullUnregistered(reg, s.resources);
      CleanStack(S);
      assert stacks[S].resPtr == before[S].resPtr;
      var none := UnregisterResource(stacks[S].resPtr);
      StackUnregistered(before, stacks, cursors, reg, Reg(), s.resources, S);
      FreeStackRecord(S);
      abs := Unregister(Dismantle(s, S), StackRes(S));
    }

    /** force_free, the destructor registered for stacks. */
    method ForceFreeStack(S: Ptr)
      requires Mem() && cells == abs.cells && CellsOk(abs.cells, abs.stacks) && S in stacks
      modifies this`descs, this`tupDescs, this`nodes, this`stacks, this`chains, this`objCount, this`cells, this`abs
      ensures Mem() && cells == abs.cells
      ensures S in old(abs).stacks && abs == Dismantle(old(abs), S)
      ensures stacks.Keys == old(stacks).Keys - {S}
      ensures forall T :: T in stacks ==> stacks[T].resPtr == old(stacks)[T].resPtr
    {
      hide Mirrors, HomesOk, CellsOk, Detach, LostExactly;
      StackFieldRepresents(Snap(), abs, S, stacks[S].refCount);
      ghost var s := abs;
      if S in abs.stacks && abs.stacks[S].cell != NULL { StackCell(abs.cells, abs.stacks, S); }
      if stacks[S].cleanupPtr != NULL {
        assert stacks[S].cleanupPtr in cells;
        cells := cells[stacks[S].cleanupPtr := NULL];
      }
      CleanStack(S);
      FreeStackRecord(S);
      abs := Dismantle(s, S);
    }

    // ---------- plluaspi.c: the tuple queue ----------

    method TqEnqueue(q: Ptr, n: Ptr, ghost s: seq<Ptr>)
      requires q in queues && queues[q].Holds(s) && |s| < FETCH_CSR_Q
      modifies this`queues
      ensures q in queues && queues == old(queues)[q := queues[q]] && queues[q].Holds(s + [n])
    {
      EnqueueAppends(queues[q], s, n);
      if queues[q].tail == TUPLE_QUEUE_SIZE - 1 {
        queues := queues[q := queues[q].(tail := 0)];
      } else {
        queues := queues[q := queues[q].(tail := queues[q].tail + 1)];
      }
      if queues[q].tail == queues[q].head {
        return;
      }
      queues := queues[q := queues[q].(data := queues[q].data[queues[q].tail := n])];
    }

    method TqDequeue(q: Ptr, ghost s: seq<Ptr>) returns (t: Ptr)
      requires q in queues && queues[q].Holds(s)
      modifies this`queues
      ensures q in queues && queues == old(queues)[q := queues[q]]
      ensures t == At(s, 0) && queues[q].Holds(if s == [] then [] else s[1..])
    {
      DequeueTakesFirst(queues[q], s);
      if queues[q].head == queues[q].tail {
        return NULL;
      }
      if queues[q].head == TUPLE_QUEUE_SIZE - 1 {
        queues := queues[q := queues[q].(head := 0)];
      } else {
        queues := queues[q := queues[q].(head := queues[q].head + 1)];
      }
      t := queues[q].data[queues[q].head];
    }

    /** The loop of cursor_cleanup_p that frees the queued rows. */
    method FreeQueuedRows(tq: Ptr, ghost q: seq<Ptr>)
      requires tq in queues && queues[tq].Holds(q)
      requires Distinct(q) && NULL !in q && forall r :: r in q ==> r in rows
      modifies this`queues, this`rows
      ensures tq in queues && queues == old(queues)[tq := queues[tq]]
      ensures rows == old(rows) - Elements(q)
    {
      ghost var rest, before, all := q, rows, Elements(q);
      assert q != [] ==> q[0] in q;
      assert rows - (all - Elements(rest)) == rows;
      var t := TqDequeue(tq, rest);
      while t != NULL
        invariant t == At(rest, 0) && (t == NULL ==> rest == [])
        invariant Distinct(rest) && NULL !in rest && forall r :: r in rest ==> r in before && r in all
        invariant tq in queues && queues == old(queues)[tq := queues[tq]]
        invariant queues[tq].Holds(if rest == [] then [] else rest[1..])
        invariant rows == before - (all - Elements(rest))
        decreases |rest|
      {
        FreeNext(before, all, rest);
        rows := rows - {t};
        rest := rest[1..];
        t := TqDequeue(tq, rest);
      }
    }

    /** cursor_cleanup_p, up to the registration. */
    method CleanupCursor(c: Ptr)
      requires Mem() && Objects() && Sound(abs) && c in cursors
      modifies this`descs, this`tupDescs, this`nodes, this`stacks, this`chains, this`objCount, this`queues, this`rows, this`cursors, this`abs
      ensures Mem() && Objects() && SameRegs(old(stacks), stacks)
      ensures c in old(abs).cursors && abs == Cleanup(old(abs), c)
      ensures cursors == old(cursors)[c := cursors[c]] && cursors[c].resPtr == old(cursors)[c].resPtr
    {
      hide Mirrors, HeapOk, Sound, CursorSim, CursorsSim, Cleanup, LessStacks;
      ghost var s := abs;
      CursorParts(cursors, queues, s.cursors, c);
      if cursors[c].tupleQueue == NULL {
        NothingToCleanUp(s, c);
        return;
      }
      ghost var q := s.cursors[c].queue.value;
      CleanupForm(s, c);
      TidyForm(s, c);
      QueueFacts(s, c);
      var tq, d := cursors[c].tupleQueue, cursors[c].rtupdesc;
      ghost var before, beforeRows := queues, rows;
      FreeQueuedRows(tq, q);
      HeapParts(Snap(), abs);
      var r := Release(d);
      var cur := cursors[c].(tupleQueue := NULL, rtupdesc := r);
      CursorChanged(cursors, before, queues, s.cursors, c, cur, Cursor(r, None, cur.portal));
      RowsDropped(beforeRows, s.owners, OwnersWithout(s.owners, q) - {ByCursor(c)}, s.rows, Elements(q));
      cursors := cursors[c := cur];
      abs := Cleanup(s, c);
    }

    // ---------- pllua_xact_cleanup.c: the sweep ----------

    /** force_free as the sweep runs it, its node already off the list. */
    method SweepStack(S: Ptr)
      requires Mem() && cells == abs.cells && CellsOk(abs.cells, abs.stacks) && S in stacks
      requires RegsBut(stacks, cursors, Reg(), abs.resources, Some(StackRes(S)))
      modifies this`descs, this`tupDescs, this`nodes, this`stacks, this`chains, this`objCount, this`cells, this`abs
      ensures Mem() && cells == abs.cells
      ensures S in old(abs).stacks && abs == Dismantle(old(abs), S)
      ensures RegsBut(stacks, cursors, Reg(), old(abs).resources, None)
    {
      ghost var before, rs := stacks, abs.resources;
      ForceFreeStack(S);
      RegsMove(before, stacks, cursors, cursors, Reg(), rs, Some(StackRes(S)));
    }

    /** cursor_cleanup as the sweep runs it, its node already off the list. */
    method SweepCursor(c: Ptr)
      requires Mem() && Objects() && Sound(abs) && c in cursors && CursorRes(c) !in abs.resources
      requires RegsBut(stacks, cursors, Reg(), abs.resources, Some(CursorRes(c)))
      modifies this`descs, this`tupDescs, this`nodes, this`stacks, this`chains, this`objCount, this`queues, this`rows, this`cursors, this`abs
      ensures Mem() && Objects()
      ensures c in old(abs).cursors && abs == Cleanup(old(abs), c)
      ensures RegsBut(stacks, cursors, Reg(), old(abs).resources, None)
    {
      hide Mirrors, ResourcesSim, RegsBut, HomesOk, RefsOk, CountOk, CellsOk, CursorsOk, IterOk, CursorsSim, RowsSim;
      ghost var before, beforeCursors, rs := stacks, cursors, abs.resources;
      CleanupCursor(c);
      SetResPtr(c, NULL);
      RegsMove(before, stacks, beforeCursors, cursors, Reg(), rs, Some(CursorRes(c)));
    }

    /** c->resptr = np */
    method SetResPtr(c: Ptr, np: Ptr)
      requires Objects() && c in cursors
      modifies this`cursors
      ensures Objects() && cursors == old(cursors)[c := old(cursors)[c].(resPtr := np)]
    {
      var cur := cursors[c].(resPtr := np);
      assert CursorSim(cursors[c], queues, abs.cursors[c]);
      CursorChanged(cursors, queues, queues, abs.cursors, c, cur, abs.cursors[c]);
      assert abs.cursors[c := abs.cursors[c]] == abs.cursors;
      cursors := cursors[c := cur];
    }

    /** What the sweep runs for one registration. */
    method RunDestructor(r: Registration)
      requires Mem() && Objects() && Sound(abs) && cells == abs.cells
      requires Present(abs, ResourceOf(r)) && ResourceOf(r) !in abs.resources
      requires RegsBut(stacks, cursors, Reg(), abs.resources, Some(ResourceOf(r)))
      modifies this`descs, this`tupDescs, this`nodes, this`stacks, this`chains, this`objCount, this`cells, this`queues, this`rows, this`cursors, this`abs
      ensures Mem() && Objects() && cells == abs.cells
      ensures RegsBut(stacks, cursors, Reg(), old(abs).resources, None)
      ensures abs == Destruct(old(abs), ResourceOf(r))
    {
      hide Mirrors, ResourcesSim, RegsBut, HomesOk, RefsOk, CountOk, CellsOk, CursorsOk, IterOk;
      HeapParts(Snap(), abs);
      if r.dtor.ForceFree? {
        DismantleForm(abs, r.data);
        SweepStack(r.data);
      } else {
        CleanupFrame(abs, r.data);
        SweepCursor(r.data);
      }
    }

    /** rsp_pop: the top registration leaves the list, None when there is none. */
    method PopResource() returns (hold: Option<Registration>)
      requires Regs() && Distinct(abs.resources)
      modifies this`rsNodes, this`resourceTop, this`rsChain
      ensures RegsExcept(hold, Left(hold, abs.resources)) && Pending(hold, Left(hold, abs.resources)) == abs.resources
      ensures hold == None ==> abs.resources == []
    {
      TopResource(Reg(), abs.resources);
      if resourceTop == NULL {
        return None;
      }
      ghost var reg := Reg();
      PopTop(stacks, cursors, reg, abs.resources);
      var temp := resourceTop;
      hold := Some(rsNodes[temp].data);
      resourceTop := rsNodes[temp].next;
      if resourceTop != NULL {
        rsNodes := rsNodes[resourceTop := rsNodes[resourceTop].(prev := NULL)];
      }
      rsNodes := rsNodes - {temp};
      rsChain := Without(rsChain, 0);
      assert Reg() == Unregistered(reg, 0);
    }

    /** One turn of the sweep loop: run the destructor of what was popped. */
    method SweepOne(r: Registration)
      requires Mem() && Objects() && cells == abs.cells && RegsExcept(Some(r), abs.resources)
      requires Sweepable(abs.(resources := []), [ResourceOf(r)] + abs.resources)
      modifies this`descs, this`tupDescs, this`nodes, this`stacks, this`chains, this`objCount, this`cells, this`queues, this`rows, this`cursors, this`abs
      ensures Mem() && Objects() && cells == abs.cells && Regs() && abs.resources == old(abs).resources
      ensures Sweepable(abs.(resources := []), abs.resources)
      ensures DestructAll(abs.(resources := []), abs.resources)
           == DestructAll(old(abs).(resources := []), [ResourceOf(r)] + abs.resources)
    {
      hide Mirrors, ResourcesSim, RegsBut, HomesOk, RefsOk, CountOk, CellsOk, CursorsOk, IterOk, CursorsSim, RowsSim;
      SweepTurn(abs, ResourceOf(r));
      RunDestructor(r);
    }

    /** pllua_xact_cb: pop and destroy until the list is empty. */
    method SweepResources()
      requires Mem() && Objects() && Regs() && cells == abs.cells && Sweepable(abs.(resources := []), abs.resources)
      modifies this
      ensures Mem() && Objects() && Regs() && cells == abs.cells
      ensures abs == DestructAll(old(abs).(resources := []), old(abs).resources)
    {
      hide Mirrors, Destruct, DestructAll, Sweepable, ResourcesSim, RegsBut, HomesOk, RefsOk, CountOk, CellsOk, CursorsOk, IterOk, CursorsSim, RowsSim;
      SweepableDistinct(abs.(resources := []), abs.resources);
      var res := PopResource();
      abs := abs.(resources := Left(res, abs.resources));
      while res.Some?
        invariant Mem() && Objects() && cells == abs.cells && RegsExcept(res, abs.resources)
        invariant res == None ==> abs.resources == []
        invariant Sweepable(abs.(resources := []), Pending(res, abs.resources))
        invariant DestructAll(abs.(resources := []), Pending(res, abs.resources)) == DestructAll(old(abs).(resources := []), old(abs).resources)
        decreases |Pending(res, abs.resources)|
      {
        SweepOne(res.value);
        SweepableDistinct(abs.(resources := []), abs.resources);
        res := PopResource();
        abs := abs.(resources := Left(res, abs.resources));
      }
      SweptAll(abs);
    }

    // ---------- plluaspi.c: cursors ----------

    /** luaP_pushcursor */
    method PushCursor(portal: seq<Datum>) returns (c: Ptr)
      requires Mem() && Objects() && Regs()
      modifies this`cursors, this`rsNodes, this`resourceTop, this`rsChain, this`abs
      ensures Mem() && Objects() && Regs()
      ensures c != NULL && c !in old(cursors) && abs == Ledger.OpenCursor(old(abs), c, portal)
    {
      hide Mirrors, ResourcesSim, RegsBut;
      c := Palloc(cursors.Keys);
      ghost var reg := Reg();
      var node := RegisterResource(Registration(c, CursorCleanup));
      var cur := LuaCursor(Some(portal), NULL, NULL, node);
      CursorRegistered(stacks, cursors, reg, Reg(), abs.resources, c, cur);
      CursorAdded(cursors, queues, abs.cursors, c, cur);
      cursors := cursors[c := cur];
      abs := Ledger.OpenCursor(abs, c, portal);
    }

    /** unregister_resource(c->resptr), the result stored back. */
    method UnregisterCursor(c: Ptr)
      requires Mem() && Objects() && Regs() && Distinct(abs.resources) && c in cursors
      modifies this`cursors, this`rsNodes, this`resourceTop, this`rsChain, this`abs
      ensures Mem() && Objects() && Regs()
      ensures cursors == old(cursors)[c := old(cursors)[c].(resPtr := NULL)]
      ensures abs == Unregister(old(abs), CursorRes(c))
    {
      ghost var reg, before := Reg(), cursors;
      hide Mirrors, RegsBut, ResourcesSim, CursorsSim, RowsSim;
      CursorNode(stacks, cursors, reg, abs.resources, c);
      NullUnregistered(reg, abs.resources);
      if cursors[c].resPtr == NULL { DeleteAbsent(abs.resources, CursorRes(c)); }
      var r := UnregisterResource(cursors[c].resPtr);
      CursorUnregistered(stacks, before, reg, Reg(), abs.resources, c, before[c].(resPtr := r));
      SetResPtr(c, r);
      abs := Unregister(abs, CursorRes(c));
    }

    /** c's portal, descriptor and queue pointers are overwritten. */
    method SetCursor(c: Ptr, cur: LuaCursor, ghost a: Cursor)
      requires Mem() && Objects() && Regs() && c in cursors && CursorSim(cur, queues, a)
      requires cur.tupleQueue == NULL || cur.tupleQueue == cursors[c].tupleQueue
      requires cur.resPtr == cursors[c].resPtr
      modifies this`cursors, this`abs
      ensures Mem() && Objects() && Regs() && cursors == old(cursors)[c := cur]
      ensures c in old(abs).cursors && abs == WithCursor(old(abs), c, a)
    {
      hide ResourcesSim, RegsBut;
      assert CursorSim(cursors[c], queues, abs.cursors[c]);
      CursorChanged(cursors, queues, queues, abs.cursors, c, cur, a);
      RegsMove(stacks, stacks, cursors, cursors[c := cur], Reg(), abs.resources, None);
      cursors := cursors[c := cur];
      abs := WithCursor(abs, c, a);
    }

    /** An empty queue is freed before the next batch is fetched. */
    method FreeEmptyQueue(c: Ptr)
      requires Mem() && Objects() && Regs() && c in cursors
      modifies this`queues, this`cursors, this`abs
      ensures Mem() && Objects() && Regs()
      ensures c in old(abs).cursors && cursors.Keys == old(cursors).Keys
      ensures abs == WithoutEmptyQueue(old(abs), c)
    {
      assert CursorSim(cursors[c], queues, abs.cursors[c]);
      var tq := cursors[c].tupleQueue;
      if tq != NULL && queues[tq].head == queues[tq].tail {
        FullQueueLooksEmpty(queues[tq], abs.cursors[c].queue.value, NULL);
        SetCursor(c, cursors[c].(tupleQueue := NULL), abs.cursors[c].(queue := None));
        QueueFreed(cursors, queues, abs.cursors, tq);
        queues := queues - {tq};
      } else if tq != NULL {
        FullQueueLooksEmpty(queues[tq], abs.cursors[c].queue.value, NULL);
      }
    }

    /** The first batch brings the cursor its descriptor. */
    method EnsureDesc(c: Ptr) returns (ghost d: Ptr)
      requires Mem() && Objects() && Regs() && c in cursors && c in abs.cursors
      requires abs.cursors[c].desc == NULL ==> CurrentOk(abs)
      modifies this`descs, this`tupDescs, this`nodes, this`stacks, this`chains, this`objCount, this`cursors, this`abs
      ensures Mem() && Objects() && Regs() && cursors.Keys == old(cursors).Keys && cursors[c].tupleQueue == old(cursors)[c].tupleQueue
      ensures d != NULL && d !in old(abs).descs && abs == WithDesc(old(abs), c, d)
    {
      hide Mirrors, ResourcesSim, RegsBut;
      assert CursorSim(cursors[c], queues, abs.cursors[c]);
      if cursors[c].rtupdesc != NULL {
        SomethingFree(abs.descs.Keys);
        d :| d != NULL && d !in abs.descs;
        return;
      }
      ghost var before, s := stacks, abs;
      var desc := Ctor(ByCursor(c));
      SameRegsMove(before, stacks, cursors, Reg(), abs.resources);
      RowsKept(rows, s.owners, abs.owners, s.rows);
      SetCursor(c, cursors[c].(rtupdesc := desc), abs.cursors[c].(desc := desc));
      d := desc;
    }

    /** The batch leaves the portal and an empty queue is ready for it. */
    method StartBatch(c: Ptr, rest: seq<Datum>) returns (ghost d: Ptr)
      requires Mem() && Objects() && Regs() && c in cursors && cursors[c].tupleQueue == NULL
      requires c in abs.cursors && abs.cursors[c].portal.Some? && rest == Rest(abs.cursors[c].portal.value)
      requires abs.cursors[c].desc == NULL ==> CurrentOk(abs)
      modifies this`descs, this`tupDescs, this`nodes, this`stacks, this`chains, this`objCount, this`queues, this`cursors, this`abs
      ensures Mem() && Objects() && Regs() && cursors.Keys == old(cursors).Keys
      ensures d != NULL && d !in old(abs).descs && abs == Started(old(abs), c, d)
    {
      hide Mirrors, ResourcesSim, RegsBut;
      ghost var s := abs;
      assert CursorSim(cursors[c], queues, abs.cursors[c]);
      SetCursor(c, cursors[c].(portal := Some(rest)), abs.cursors[c].(portal := Some(rest)));
      d := EnsureDesc(c);
      var tq := Palloc(queues.Keys);
      NewQueue(c, tq);
      StartedInSteps(s, c, d);
    }

    /** tq_initQueue, stored in the cursor. */
    method NewQueue(c: Ptr, tq: Ptr)
      requires Objects() && Mem() && Regs() && c in cursors && cursors[c].tupleQueue == NULL && tq != NULL && tq !in queues
      modifies this`queues, this`cursors, this`abs
      ensures Objects() && Mem() && Regs() && c in old(abs).cursors
      ensures cursors == old(cursors)[c := old(cursors)[c].(tupleQueue := tq)]
      ensures tq in queues && queues[tq].Holds([])
      ensures abs == WithCursor(old(abs), c, old(abs).cursors[c].(queue := Some([])))
    {
      hide Mirrors, ResourcesSim, RegsBut;
      assert CursorSim(cursors[c], queues, abs.cursors[c]);
      var ring := TupleQueue(0, 0, seq(TUPLE_QUEUE_SIZE, i => NULL));
      var cur := cursors[c].(tupleQueue := tq);
      ghost var a := abs.cursors[c].(queue := Some([]));
      CursorChanged(cursors, queues, queues[tq := ring], abs.cursors, c, cur, a);
      RegsMove(stacks, stacks, cursors, cursors[c := cur], Reg(), abs.resources, None);
      queues := queues[tq := ring];
      cursors := cursors[c := cur];
      abs := WithCursor(abs, c, a);
    }

    /** luaP_PTuple_rawctr and tq_enqueue: one fetched row is copied and queued.  crashed:
        there is no TupleDesc to read the number of columns from. */
    method QueueRow(c: Ptr, x: Datum) returns (r: Ptr, crashed: bool)
      requires Mem() && Objects() && c in cursors && HasQueue(abs.cursors, c) && |abs.cursors[c].queue.value| < FETCH_CSR_Q
      requires abs.cursors[c].desc in abs.descs
      modifies this`descs, this`queues, this`rows, this`abs
      ensures c in old(abs).cursors && (crashed <==> DescLost(old(abs), c))
      ensures !crashed ==> Mem() && Objects()
      ensures !crashed ==> r != NULL && r !in old(abs).rows && abs == AddRow(old(abs), c, r, x)
    {
      hide Mirrors, HeapOk, AddRow, ResourcesSim, RegsBut, CursorsSim, RowsSim;
      HeapParts(Snap(), abs);
      ghost var s := abs;
      CursorParts(cursors, queues, abs.cursors, c);
      var tq, d := cursors[c].tupleQueue, cursors[c].rtupdesc;
      TupleDescThere(Snap(), abs, d);
      r, crashed := NULL, descs[d].tupDesc == NULL;
      if crashed {
        return;
      }
      assert descs[d].tupDesc in tupDescs;
      r := Palloc(rows.Keys);
      RowAdded(rows, s.owners, s.rows, r, x, d);
      rows := rows[r := LuaTuple(x, d)];
      Ref(d, ByRow(r));
      ghost var before, q := queues, s.cursors[c].queue.value;
      TqEnqueue(tq, r, q);
      ghost var a := s.cursors[c].(queue := Some(q + [r]));
      CursorChanged(cursors, before, queues, s.cursors, c, cursors[c], a);
      assert cursors[c := cursors[c]] == cursors;
      AddRowForm(s, c, r, x);
      abs := AddRow(s, c, r, x);
    }

    /** The loop that copies the batch into the queue. */
    method QueueRows(c: Ptr, xs: seq<Datum>) returns (ghost rs: seq<Ptr>, crashed: bool)
      requires Mem() && Objects() && c in cursors && c in abs.cursors && abs.cursors[c].queue == Some([])
      requires abs.cursors[c].desc in abs.descs && 0 < |xs| <= FETCH_CSR_Q
      modifies this`descs, this`queues, this`rows, this`abs
      ensures c in old(abs).cursors && (crashed <==> DescLost(old(abs), c))
      ensures !crashed ==> Mem() && Objects()
      ensures !crashed ==> |rs| == |xs| && Distinct(rs) && forall r :: r in rs ==> r != NULL && r !in old(abs).rows
      ensures !crashed ==> |rs| == |xs| && abs == AddRows(old(abs), c, rs, xs)
    {
      hide Mirrors, ResourcesSim, RegsBut, HomesOk, RefsOk, CountOk, CellsOk, CursorsOk, IterOk, CursorsSim, RowsSim, AddRow, AddRows;
      ghost var s := abs;
      rs, crashed := [], false;
      AddNoRows(s, c);
      for i := 0 to |xs|
        invariant Mem() && Objects()
        invariant |rs| == i && Distinct(rs) && forall r :: r in rs ==> r != NULL && r !in s.rows
        invariant abs == AddRows(s, c, rs, xs[..i]) && (i > 0 ==> !DescLost(s, c)) && !crashed
      {
        AddRowsQueue(s, c, rs, xs[..i]);
        AddRowsRows(s, c, rs, xs[..i]);
        AddRowsFrame(s, c, rs, xs[..i]);
        var r;
        r, crashed := QueueRow(c, xs[i]);
        if crashed {
          return;
        }
        assert xs[..i + 1] == xs[..i] + [xs[i]];
        AddRowsSnoc(s, c, rs, xs[..i], r, xs[i]);
        assert r !in Elements(rs);
        rs := rs + [r];
      }
      assert xs[..|xs|] == xs;
    }

    /** The refill: fetch up to FETCH_CSR_Q rows and queue them. */
    method FetchBatch(c: Ptr) returns (ghost d: Ptr, ghost rs: seq<Ptr>, crashed: bool)
      requires Mem() && Objects() && Regs() && c in cursors && cursors[c].tupleQueue == NULL
      requires c in abs.cursors && abs.cursors[c].portal.Some? && abs.cursors[c].portal.value != [] && DescReady(abs, c)
      modifies this`descs, this`tupDescs, this`nodes, this`stacks, this`chains, this`objCount, this`queues, this`rows, this`cursors, this`abs
      ensures c in old(abs).cursors && (crashed <==> DescLost(old(abs), c))
      ensures !crashed ==> Mem() && Objects() && Regs() && cursors.Keys == old(cursors).Keys
      ensures !crashed ==> d != NULL && d !in old(abs).descs
      ensures !crashed ==> |rs| == |Batch(old(abs).cursors[c].portal.value)| && Distinct(rs)
      ensures !crashed ==> forall r :: r in rs ==> r != NULL && r !in old(abs).rows
      ensures !crashed ==> |rs| == |Batch(old(abs).cursors[c].portal.value)| && abs == Fill(old(abs), c, d, rs)
    {
      hide Mirrors, ResourcesSim, RegsBut, CursorsSim, RowsSim, Started, DescLost, AddRows, CurrentOk;
      ghost var s := abs;
      CursorParts(cursors, queues, abs.cursors, c);
      HeapParts(Snap(), abs);
      BatchBounds(abs.cursors[c].portal.value);
      var portal := cursors[c].portal.value;
      d := StartBatch(c, Rest(portal));
      StartedDesc(s, c, d);
      ghost var started := abs;
      rs, crashed := QueueRows(c, Batch(portal));
      if crashed {
        return;
      }
      AddRowsFrame(started, c, rs, Batch(portal));
    }

    /** The portal is exhausted. */
    method FinishCursor(c: Ptr)
      requires Mem() && Objects() && Regs() && Distinct(abs.resources) && c in cursors && c in abs.cursors
      requires abs.cursors[c].queue == None && HomesOk(abs.descs, abs.stacks) && RefsOk(abs.descs, abs.owners)
      requires ByCursor(c) in abs.owners <==> abs.cursors[c].desc != NULL
      requires ByCursor(c) in abs.owners ==> abs.owners[ByCursor(c)] == abs.cursors[c].desc
      modifies this`descs, this`tupDescs, this`nodes, this`stacks, this`chains, this`objCount, this`cursors, this`rsNodes, this`resourceTop, this`rsChain, this`abs
      ensures Mem() && Objects() && Regs() && c in old(abs).cursors
      ensures abs == Finish(old(abs), c)
    {
      hide Mirrors, ResourcesSim, RegsBut;
      ghost var s := abs;
      assert CursorSim(cursors[c], queues, abs.cursors[c]);
      var d := cursors[c].rtupdesc;
      if d != NULL {
        DropCursorRef(c);
        d := ReleaseDesc(d);
      }
      SetCursor(c, cursors[c].(portal := None, rtupdesc := d), Cursor(d, None, None));
      UnregisterCursor(c);
    }

    /** The cursor's reference leaves the ledger. */
    ghost method DropCursorRef(c: Ptr)
      requires Mem() && Objects() && Regs() && ByCursor(c) in abs.owners
      modifies this`abs
      ensures Mem() && Objects() && Regs() && abs == Forget(old(abs), ByCursor(c))
    {
      RowsKept(rows, abs.owners, abs.owners - {ByCursor(c)}, abs.rows);
      abs := Forget(abs, ByCursor(c));
    }

    /** rtupdesc_unref, with everybody still registered. */
    method ReleaseDesc(d: Ptr) returns (r: Ptr)
      requires Mem() && Objects() && Regs() && d in abs.descs
      modifies this`descs, this`tupDescs, this`nodes, this`stacks, this`chains, this`objCount, this`abs
      ensures Mem() && Objects() && Regs()
      ensures CanDestroy(old(abs), d) && abs == Ledger.Release(old(abs), d) && r == DescAfterUnref(old(abs), d)
      ensures r == if d in abs.descs then d else NULL
    {
      hide Mirrors, ResourcesSim, RegsBut;
      ghost var before := stacks;
      HeapParts(Snap(), abs);
      r := Release(d);
      SameRegsMove(before, stacks, cursors, Reg(), abs.resources);
    }

    /** tq_dequeue on the cursor's queue. */
    method DequeueRow(c: Ptr) returns (t: Ptr)
      requires Mem() && Objects() && Regs() && c in cursors && HasQueue(abs.cursors, c) && abs.cursors[c].queue.value != []
      modifies this`queues, this`cursors, this`abs
      ensures Mem() && Objects() && Regs()
      ensures t == old(abs).cursors[c].queue.value[0] && abs == Dequeue(old(abs), c)
    {
      assert CursorSim(cursors[c], queues, abs.cursors[c]);
      ghost var before, q := queues, abs.cursors[c].queue.value;
      t := TqDequeue(cursors[c].tupleQueue, q);
      ghost var a := abs.cursors[c].(queue := Some(q[1..]));
      CursorChanged(cursors, before, queues, abs.cursors, c, cursors[c], a);
      assert cursors[c := cursors[c]] == cursors;
      abs := Dequeue(abs, c);
    }

    /** luaP_p_tuplegc: the delivered row gives its reference back and is freed. */
    method FreeRow(r: Ptr)
      requires Mem() && Objects() && Regs() && r in rows && ByRow(r) in abs.owners
      requires HomesOk(abs.descs, abs.stacks) && RefsOk(abs.descs, abs.owners)
      modifies this`descs, this`tupDescs, this`nodes, this`stacks, this`chains, this`objCount, this`rows, this`abs
      ensures Mem() && Objects() && Regs() && abs == GcRow(old(abs), r)
    {
      hide Mirrors, ResourcesSim, RegsBut;
      ghost var s := abs;
      assert RowSim(rows, abs.owners, abs.rows, r);
      var d := rows[r].rtupdesc;
      RowsDropped(rows, s.owners, s.owners - {ByRow(r)}, s.rows, {r});
      rows := rows - {r};
      abs := abs.(owners := abs.owners - {ByRow(r)}, rows := abs.rows - {r});
      var none := ReleaseDesc(d);
      GcRowForm(s, r);
    }

    /** luaP_cursorgc, and then Lua frees the userdata. */
    method FreeCursor(c: Ptr)
      requires Mem() && Objects() && Regs() && Sound(abs) && Distinct(abs.resources) && c in cursors && c in abs.cursors
      modifies this`descs, this`tupDescs, this`nodes, this`stacks, this`chains, this`objCount, this`queues,
        this`rows, this`cursors, this`rsNodes, this`resourceTop, this`rsChain, this`abs
      ensures Mem() && Objects() && Regs() && abs == GcCursor(old(abs), c) && c !in cursors
    {
      hide Mirrors, ResourcesSim, RegsBut, HomesOk, RefsOk, CountOk, CellsOk, CursorsOk, Cleanup;
      assert CursorSim(cursors[c], queues, abs.cursors[c]);
      if cursors[c].tupleQueue != NULL {
        DeleteProps(abs.resources, CursorRes(c));
        CleanupRegistered(c);
        UnregisterCursor(c);
      }
      FreeCursorRecord(c);
    }

    method FreeCursorRecord(c: Ptr)
      requires Mem() && Objects() && Regs() && c in cursors
      modifies this`cursors, this`abs
      ensures Mem() && Objects() && Regs() && abs == old(abs).(cursors := old(abs).cursors - {c}) && c !in cursors
    {
      hide ResourcesSim;
      CursorRemoved(cursors, queues, abs.cursors, c);
      RegsMove(stacks, stacks, cursors, cursors - {c}, Reg(), abs.resources, None);
      cursors := cursors - {c};
      abs := abs.(cursors := abs.cursors - {c});
    }

    /** cursor_cleanup_p on a cursor the sweep has not reached. */
    method CleanupRegistered(c: Ptr)
      requires Mem() && Objects() && Regs() && Sound(abs) && c in cursors
      modifies this`descs, this`tupDescs, this`nodes, this`stacks, this`chains, this`objCount, this`queues, this`rows, this`cursors, this`abs
      ensures Mem() && Objects() && Regs() && cursors.Keys == old(cursors).Keys
      ensures c in old(abs).cursors && abs == Cleanup(old(abs), c) && abs.resources == old(abs).resources
    {
      ghost var before, beforeCursors := stacks, cursors;
      CleanupFrame(abs, c);
      CleanupCursor(c);
      RegsMove(before, stacks, beforeCursors, cursors, Reg(), abs.resources, None);
    }

    // ---------- The interface: each call is a step of the ledger ----------

    constructor (functions: set<Ptr>)
      requires NULL !in functions
      ensures Inv() && abs == EMPTY.(cells := map f | f in functions :: NULL)
    {
      descs, tupDescs, nodes, stacks := map[], map[], map[], map[];
      rsNodes, resourceTop, cursors, queues, rows := map[], NULL, map[], map[], map[];
      cells := map f | f in functions :: NULL;
      current, objCount := NULL, 0;
      chains, rsChain := map[], [];
      abs := EMPTY.(cells := map f | f in functions :: NULL);
      new;
      hide Mirrors, ResourcesSim, RegsBut, ObjectsSim, Valid;
      EmptyIsFine(cells);
    }

    /** rtupdesc_ctor for a tuple or tuptable userdata o. */
    method MakeDesc(ghost o: Holder) returns (d: Ptr)
      requires Inv() && o.ByUserdata? && o !in abs.owners && CurrentOk(abs)
      modifies this
      ensures Stepped(old(abs), Op.MakeDesc(d, o))
    {
      hide Mirrors, ResourcesSim, RegsBut, HomesOk, RefsOk, CountOk, CellsOk, CursorsOk, IterOk;
      ghost var s, before := abs, stacks;
      d := Ctor(o);
      StepKeepsValid(s, Op.MakeDesc(d, o));
      SameRegsMove(before, stacks, cursors, Reg(), abs.resources);
      RowsKept(rows, s.owners, abs.owners, s.rows);
    }

    /** rtupdesc_ref for o. */
    method RefDesc(d: Ptr, ghost o: Holder)
      requires Inv() && d in descs && o.ByUserdata? && o !in abs.owners
      modifies this
      ensures Stepped(old(abs), Op.RefDesc(d, o))
    {
      hide Mirrors, ResourcesSim, RegsBut, HomesOk, RefsOk, CountOk, CellsOk, CursorsOk, IterOk;
      ghost var s := abs;
      Ref(d, o);
      StepKeepsValid(s, Op.RefDesc(d, o));
      RowsKept(rows, s.owners, abs.owners, s.rows);
    }

    /** rtupdesc_unref of the reference o holds. */
    method UnrefDesc(d: Ptr, ghost o: Holder) returns (r: Ptr)
      requires Inv() && o.ByUserdata? && o in abs.owners && abs.owners[o] == d
      modifies this
      ensures Stepped(old(abs), Op.UnrefDesc(o))
      ensures r == if d in abs.descs then d else NULL
    {
      hide ResourcesSim, RegsBut, HomesOk, CountOk, CellsOk, CursorsOk, IterOk, CursorsSim, RegisteredOk;
      ghost var s := abs;
      StepKeepsValid(s, Op.UnrefDesc(o));
      RowsKept(rows, s.owners, s.owners - {o}, s.rows);
      abs := Forget(abs, o);
      r := ReleaseDesc(d);
    }

    /** rtupdesc_gettup: NULL is how a lost descriptor reads. */
    method GetTup(d: Ptr) returns (t: Ptr)
      requires Inv() && (d != NULL ==> d in descs)
      ensures d == NULL ==> t == NULL
      ensures d != NULL ==> d in abs.descs && (t != NULL <==> abs.descs[d].live) && (t != NULL ==> t in tupDescs && tupDescs[t] == d)
    {
      if d == NULL {
        return NULL;
      }
      assert DescSim(descs[d], nodes, abs.descs[d]) && TupTo(descs, tupDescs, d);
      t := descs[d].tupDesc;
    }

    method InitStack(cell: Ptr) returns (S: Ptr)
      requires Inv() && (cell != NULL ==> cell in cells && cells[cell] == NULL)
      modifies this
      ensures Stepped(old(abs), Op.InitStack(S, cell))
    {
      hide Mirrors, ResourcesSim, RegsBut, HomesOk, RefsOk, CountOk, CellsOk, CursorsOk, IterOk;
      ghost var s := abs;
      S := AllocStack(cell);
      StepKeepsValid(s, Op.InitStack(S, cell));
    }

    method InUse(S: Ptr)
      requires Inv() && S in stacks
      modifies this
      ensures Stepped(old(abs), Op.InUse(S))
    {
      hide Mirrors, ResourcesSim, RegsBut, HomesOk, RefsOk, CountOk, CellsOk, CursorsOk, IterOk;
      ghost var s := abs;
      AddUse(S, 1);
      StepKeepsValid(s, Op.InUse(S));
    }

    method NotInUse(S: Ptr)
      requires Inv() && S in stacks
      modifies this
      ensures Stepped(old(abs), Op.NotInUse(S))
    {
      hide Mirrors, ResourcesSim, RegsBut, HomesOk, RefsOk, CountOk, CellsOk, CursorsOk, IterOk;
      ghost var s := abs;
      AddUse(S, -1);
      StepKeepsValid(s, Op.NotInUse(S));
    }

    method TryClean(S: Ptr)
      requires Inv() && (S != NULL ==> S in stacks)
      modifies this
      ensures S == NULL ==> Inv() && abs == old(abs)
      ensures S != NULL ==> Stepped(old(abs), Op.TryCleanStack(S))
      ensures S != NULL ==> S in old(abs).stacks
      ensures S != NULL && old(abs).stacks[S].refs == 1 ==> Cleaned(old(abs), abs, S)
      ensures S != NULL && old(abs).stacks[S].refs != 1 ==> CountedDown(old(abs), abs, S)
    {
      hide Mirrors, Cleaned, CountedDown, ResourcesSim, RegsBut, HomesOk, RefsOk, CountOk, CellsOk, CursorsOk, IterOk;
      ghost var s := abs;
      TryCleanStack(S);
      if S != NULL { StepKeepsValid(s, Op.TryCleanStack(S)); }
    }

    /** rtds_free_if_not_used on a stack no weak cell points to. */
    method FreeStrong(S: Ptr) returns (r: Ptr)
      requires Inv() && S in stacks && stacks[S].cleanupPtr == NULL
      modifies this
      ensures Stepped(old(abs), Op.FreeStack(S))
      ensures S in old(abs).stacks && r == if old(abs).stacks[S].refs == 0 then NULL else S
      ensures if r == NULL then Freed(old(abs), abs, S) else abs == old(abs)
    {
      ghost var s := abs;
      hide Mirrors, ResourcesSim, RegsBut, HomesOk, RefsOk, CountOk, CellsOk, CursorsOk, IterOk, FreeIfNotUsed;
      StackFieldRepresents(Snap(), abs, S, stacks[S].refCount);
      ValidDistinct(s);
      FreeEffect(s, S);
      r := FreeIfUnused(S);
      StepKeepsValid(s, Op.FreeStack(S));
      FreeFrame(s, S);
    }

    /** fi->funcxt_wp = rtds_free_if_not_used(fi->funcxt_wp) */
    method FreeWeak(cell: Ptr)
      requires Inv() && cell in cells
      modifies this
      ensures cell in old(abs).cells
      ensures old(abs).cells[cell] == NULL ==> Inv() && abs == old(abs)
      ensures old(abs).cells[cell] != NULL ==> Stepped(old(abs), Op.FreeStack(old(abs).cells[cell]))
      ensures old(abs).cells[cell] != NULL ==> cell in cells && (cells[cell] == NULL || cells[cell] == old(abs).cells[cell])
      ensures old(abs).cells[cell] != NULL && cells[cell] == NULL ==> Freed(old(abs), abs, old(abs).cells[cell])
      ensures old(abs).cells[cell] != NULL && cells[cell] != NULL ==> abs == old(abs)
    {
      hide Freed, Mirrors, ResourcesSim, RegsBut, HomesOk, RefsOk, CountOk, CellsOk, CursorsOk, RegisteredOk, IterOk, FreeIfNotUsed;
      ghost var s := abs;
      var S := cells[cell];
      ValidDistinct(s);
      if S != NULL {
        WeakCell(Snap(), abs, cell);
        StepKeepsValid(s, Op.FreeStack(S));
        FreeFrame(s, S);
        FreeEffect(s, S);
      }
      var r := FreeIfUnused(S);
      cells := cells[cell := r];
      assert s.cells[cell := s.cells[cell]] == s.cells;
    }

    /** rtds_set_current */
    method SetCurrentStack(p: Ptr) returns (prev: Ptr)
      requires Inv()
      modifies this
      ensures Stepped(old(abs), Op.SetCurrent(p)) && prev == old(abs).current
    {
      hide Mirrors, ResourcesSim, RegsBut, HomesOk, RefsOk, CountOk, CellsOk, CursorsOk, IterOk, CursorsSim, RowsSim;
      prev := current;
      current := p;
      StepKeepsValid(abs, Op.SetCurrent(p));
      abs := abs.(current := p);
    }

    method OpenCursor(portal: seq<Datum>) returns (c: Ptr)
      requires Inv()
      modifies this
      ensures Stepped(old(abs), Op.Open(c, portal))
    {
      hide Mirrors, ResourcesSim, RegsBut, HomesOk, RefsOk, CountOk, CellsOk, CursorsOk, IterOk;
      ghost var s := abs;
      c := PushCursor(portal);
      StepKeepsValid(s, Op.Open(c, portal));
    }

    lemma CursorFields(c: Ptr)
      requires Mem() && Objects() && Regs() && c in cursors
      ensures cursors[c].resPtr == NULL <==> CursorRes(c) !in abs.resources
      ensures c in abs.cursors && cursors[c].portal == abs.cursors[c].portal
      ensures cursors[c].tupleQueue == NULL <==> abs.cursors[c].queue.None?
      ensures HomesOk(abs.descs, abs.stacks) ==> NULL !in abs.descs
    {
      hide Mirrors, ResourcesSim, RegsBut;
      CursorNode(stacks, cursors, Reg(), abs.resources, c);
      CursorParts(cursors, queues, abs.cursors, c);
    }

    /** luaP_rowsaux: the next row, NULL for nil.  crashed: the refill dereferenced the
        NULL that a lost descriptor has for its TupleDesc. */
    method NextRow(c: Ptr) returns (t: Ptr, crashed: bool, ghost d: Ptr, ghost rs: seq<Ptr>)
      requires Inv() && c in cursors && c in abs.cursors && (cursors[c].resPtr != NULL || !NeedsFetch(abs, c))
      requires NeedsFetch(abs, c) && abs.cursors[c].portal != Some([]) && abs.cursors[c].desc == NULL ==> CurrentOk(abs)
      modifies this
      ensures c in old(abs).cursors && (crashed <==> RefillCrashes(old(abs), c))
      ensures !crashed ==> Inv() && Delivers(old(abs), c, d, rs, t, abs)
    {
      hide Mem, Objects, Regs, HomesOk, RefsOk, CountOk, CellsOk, CursorsOk, RegisteredOk, IterOk, Apply, Finish, Fill, Dequeue, Legal, CanFetch, RefillCrashes, DescLost, DescReady, Delivers, WithoutEmptyQueue, Batch, Distinct, CurrentOk;
      ghost var s := abs;
      t, crashed, d, rs := NULL, false, NULL, [];
      CursorFields(c);
      FetchParts(s, c);
      FreeEmptyQueue(c);
      CursorFields(c);
      if cursors[c].tupleQueue == NULL {
        if cursors[c].portal.value == [] {
          FinishCursor(c);
          NextFinishes(s, c, d, rs);
          return;
        }
        d, rs, crashed := FetchBatch(c);
        if crashed {
          return;
        }
        NextFetches(s, c, d, rs);
      } else {
        NextDequeues(s, c, d, rs);
      }
      t := DequeueRow(c);
    }

    /** luaP_cursorclose */
    method CloseCursor(c: Ptr)
      requires Inv() && c in cursors
      modifies this
      ensures Stepped(old(abs), Op.Close(c))
    {
      hide Mirrors, ResourcesSim, RegsBut, HomesOk, RefsOk, CountOk, CellsOk, CursorsOk, IterOk, RowsSim;
      ghost var s := abs;
      assert CursorSim(cursors[c], queues, abs.cursors[c]);
      SetCursor(c, cursors[c].(portal := None), abs.cursors[c].(portal := None));
      UnregisterCursor(c);
      StepKeepsValid(s, Op.Close(c));
    }

    method CollectRow(r: Ptr)
      requires Inv() && r in rows && !Queued(abs, r)
      modifies this
      ensures Stepped(old(abs), Op.CollectRow(r))
    {
      hide Mirrors, ResourcesSim, RegsBut, HomesOk, RefsOk, CountOk, CellsOk, CursorsOk, IterOk;
      ghost var s := abs;
      assert RowSim(rows, abs.owners, abs.rows, r);
      StepKeepsValid(s, Op.CollectRow(r));
      FreeRow(r);
    }

    /** luaP_cursorgc.  A cursor that is registered and has no queue is freed as well; its
        registration stays on the list. */
    method CollectCursor(c: Ptr)
      requires Inv() && c in cursors
      modifies this
      ensures c in old(abs).cursors && c !in cursors
      ensures !Breaks(old(abs), Op.CollectCursor(c)) ==> Stepped(old(abs), Op.CollectCursor(c))
      ensures Breaks(old(abs), Op.CollectCursor(c)) ==>
        Mem() && Regs() && Objects() && CursorRes(c) in abs.resources
    {
      hide Mirrors, ResourcesSim, RegsBut, HomesOk, RefsOk, CountOk, CellsOk, CursorsOk, IterOk, Apply, GcCursor;
      ghost var s := abs;
      assert CursorSim(cursors[c], queues, abs.cursors[c]);
      CollectParts(s, c);
      FreeCursor(c);
    }

    method EndTransaction()
      requires Inv()
      modifies this
      ensures Stepped(old(abs), Op.EndTransaction)
    {
      hide Mirrors, ResourcesSim, RegsBut, HomesOk, RefsOk, CountOk, CellsOk, CursorsOk, IterOk;
      ghost var s := abs;
      EndSweeps(s);
      SweepResources();
    }
  }

  /** The list without the popped resource. */
  function Left(res: Option<Registration>, rs: seq<Resource>): seq<Resource> {
    if res == None || rs == [] then rs else rs[1..]
  }

  /** What is still to be destroyed: the popped resource, then the list. */
  function Pending(res: Option<Registration>, rs: seq<Resource>): seq<Resource> {
    if res == None then rs else [ResourceOf(res.value)] + rs
  }
}
