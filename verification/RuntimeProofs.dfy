/** Each pointer-level step keeps the representation: what the C statements write is
    what the ledger's operation means. */
module RuntimeProofs {
  import opened Memory
  import opened IntrusiveList
  import opened Ledger
  import opened LedgerProofs
  import opened RuntimeModel

  /** The part of the memory that rtupdesc.c and rtupdescstk.c own. */
  datatype Heap = Heap(
    descs: map<Ptr, RTupDesc>,
    tups: map<Ptr, Ptr>,
    nodes: map<Ptr, Link<Ptr>>,
    stacks: map<Ptr, RTupDescStack>,
    chains: map<Ptr, seq<Ptr>>)

  ghost predicate HeapOk(h: Heap) {
    && ListsOk(h.stacks, h.nodes, h.chains)
    && WeakOk(h.descs, h.nodes)
    && TupsOk(h.descs, h.tups)
  }

  /** h is well formed and represents the ledger's descriptors and stacks. */
  ghost predicate Faithful(h: Heap, s: State) {
    Mirrors(h, s.descs, s.stacks)
  }

  /** The same, of the two maps alone: no other part of the ledger matters. */
  ghost predicate Mirrors(h: Heap, absDescs: map<Ptr, Desc>, absStacks: map<Ptr, Stack>) {
    match h
    case Heap(descs, tups, nodes, stacks, chains) =>
      HeapOk(h) && DescsSim(descs, nodes, absDescs) && StacksSim(stacks, nodes, chains, absStacks)
  }

  lemma HeapParts(h: Heap, s: State)
    requires Faithful(h, s)
    ensures HeapOk(h) && NULL !in h.descs && NULL !in h.stacks && NULL !in h.nodes
    ensures h.descs.Keys == s.descs.Keys && h.stacks.Keys == s.stacks.Keys && h.chains.Keys == h.stacks.Keys
  {
    forall S | S in h.stacks ensures S != NULL { assert ListOk(h.stacks, h.nodes, h.chains, S); }
    forall n | n in h.nodes ensures n != NULL {
      assert Listed(h.nodes, h.chains, n) && ListOk(h.stacks, h.nodes, h.chains, h.nodes[n].tail);
    }
  }

  /** A live descriptor's TupleDesc can be read, a lost one's pointer is NULL. */
  lemma TupleDescThere(h: Heap, s: State, d: Ptr)
    requires Faithful(h, s) && d in s.descs
    ensures d in h.descs && (h.descs[d].tupDesc != NULL <==> s.descs[d].live)
    ensures h.descs[d].tupDesc != NULL ==> h.descs[d].tupDesc in h.tups
  {
    assert DescSim(h.descs[d], h.nodes, s.descs[d]) && TupTo(h.descs, h.tups, d);
  }

  // ---------- Pushing ----------

  function HeapPushed(h: Heap, S: Ptr, np: Ptr, d: Ptr): Heap
    requires ListsOk(h.stacks, h.nodes, h.chains) && S in h.stacks
  {
    TopIsNode(h, S);
    h.(nodes := Pushed(h.nodes, h.stacks[S].top, S, np, d),
       stacks := h.stacks[S := h.stacks[S].(top := np)],
       chains := h.chains[S := [np] + h.chains[S]])
  }

  lemma TopIsNode(h: Heap, S: Ptr)
    requires ListsOk(h.stacks, h.nodes, h.chains) && S in h.stacks
    ensures S in h.chains && Chain(h.nodes, h.stacks[S].top, S, h.chains[S])
    ensures h.stacks[S].top == NULL <==> h.chains[S] == []
    ensures h.stacks[S].top != NULL ==> h.stacks[S].top in h.nodes && h.chains[S][0] == h.stacks[S].top
  {
    assert ListOk(h.stacks, h.nodes, h.chains, S);
    if h.chains[S] != [] { assert h.chains[S][0] in h.chains[S]; }
  }

  /** A stack without items has no node. */
  lemma EmptyTop(h: Heap, s: State, S: Ptr)
    requires Faithful(h, s) && S in s.stacks && s.stacks[S].items == []
    ensures S in h.stacks && h.stacks[S].top == NULL
  {
    assert StackSim(h.stacks[S], h.nodes, h.chains[S], s.stacks[S]);
    TopIsNode(h, S);
  }

  /** Surgery on S's nodes gives well-formed lists again if S's own list is one. */
  lemma SurgeryKeepsLists(h: Heap, h': Heap, S: Ptr)
    requires ListsOk(h.stacks, h.nodes, h.chains) && S in h.stacks
    requires h'.stacks.Keys == h.stacks.Keys && h'.chains.Keys == h.chains.Keys
    requires forall T :: T in h.stacks && T != S ==> h'.stacks[T] == h.stacks[T] && h'.chains[T] == h.chains[T]
    requires Keeps(h.nodes, h'.nodes, S)
    requires forall n :: n in h.nodes && n !in h'.nodes ==> h.nodes[n].tail == S
    requires forall n :: n in h'.nodes && n !in h.nodes ==> h'.nodes[n].tail == S
    requires Chain(h'.nodes, h'.stacks[S].top, S, h'.chains[S])
    requires forall n :: n in h'.nodes && h'.nodes[n].tail == S ==> n in h'.chains[S]
    ensures ListsOk(h'.stacks, h'.nodes, h'.chains)
  {
    assert ListOk(h.stacks, h.nodes, h.chains, S);
    forall T | T in h'.stacks ensures ListOk(h'.stacks, h'.nodes, h'.chains, T) {
      if T != S {
        assert ListOk(h.stacks, h.nodes, h.chains, T);
        OtherChain(h.nodes, h'.nodes, S, h.stacks[T].top, T, h.chains[T]);
      }
    }
    forall n | n in h'.nodes ensures Listed(h'.nodes, h'.chains, n) {
      if n in h.nodes { assert Listed(h.nodes, h.chains, n); }
    }
  }

  lemma PushLists(h: Heap, S: Ptr, np: Ptr, d: Ptr)
    requires ListsOk(h.stacks, h.nodes, h.chains) && S in h.stacks
    requires np != NULL && np !in h.nodes
    ensures var h' := HeapPushed(h, S, np, d);
      && ListsOk(h'.stacks, h'.nodes, h'.chains)
      && Keeps(h.nodes, h'.nodes, S)
      && h'.nodes.Keys == h.nodes.Keys + {np} && h'.nodes[np].data == d && h'.nodes[np].tail == S
  {
    TopIsNode(h, S);
    PushIsCons(h.nodes, h.stacks[S].top, S, h.chains[S], np, d);
    var h' := HeapPushed(h, S, np, d);
    forall n | n in h'.nodes && h'.nodes[n].tail == S ensures n in h'.chains[S] {
      if n != np { assert Listed(h.nodes, h.chains, n); }
    }
    SurgeryKeepsLists(h, h', S);
  }

  // ---------- Unlinking ----------

  function HeapUnlinked(h: Heap, S: Ptr, i: nat): Heap
    requires ListsOk(h.stacks, h.nodes, h.chains) && S in h.stacks && i < |h.chains[S]|
  {
    var np := h.chains[S][i];
    TopIsNode(h, S);
    UnlinkIsRemove(h.nodes, h.stacks[S].top, S, h.chains[S], i);
    h.(nodes := Unlinked(h.nodes, h.stacks[S].top, np),
       stacks := h.stacks[S := h.stacks[S].(top := TopWithout(h.nodes, h.stacks[S].top, np))],
       chains := h.chains[S := Without(h.chains[S], i)])
  }

  lemma UnlinkLists(h: Heap, S: Ptr, i: nat)
    requires ListsOk(h.stacks, h.nodes, h.chains) && S in h.stacks && i < |h.chains[S]|
    ensures var h', np := HeapUnlinked(h, S, i), h.chains[S][i];
      && ListsOk(h'.stacks, h'.nodes, h'.chains)
      && Keeps(h.nodes, h'.nodes, S)
      && np in h.nodes && h.nodes[np].tail == S
      && h'.nodes.Keys == h.nodes.Keys - {np}
  {
    var np := h.chains[S][i];
    TopIsNode(h, S);
    assert np in h.chains[S];
    UnlinkIsRemove(h.nodes, h.stacks[S].top, S, h.chains[S], i);
    WithoutElements(h.chains[S], i);
    var h' := HeapUnlinked(h, S, i);
    forall n | n in h'.nodes && h'.nodes[n].tail == S ensures n in h'.chains[S] {
      assert Listed(h.nodes, h.chains, n);
    }
    SurgeryKeepsLists(h, h', S);
  }

  // ---------- Descriptors and nodes ----------

  /** Nodes keep their data and owner, so whoever kept its weak pointer is where it was. */
  lemma SameHomes(h: Heap, h': Heap, s: State, e: Ptr, S: Ptr)
    requires Faithful(h, s) && Keeps(h.nodes, h'.nodes, S)
    requires e in h.descs && e in h'.descs && h'.descs[e] == h.descs[e] && e in s.descs
    requires h.descs[e].weakNode != NULL ==> h.descs[e].weakNode in h'.nodes
    ensures DescSim(h'.descs[e], h'.nodes, s.descs[e])
    ensures WeakTo(h'.descs, h'.nodes, e)
  {
    assert DescSim(h.descs[e], h.nodes, s.descs[e]) && WeakTo(h.descs, h.nodes, e);
  }

  lemma SameItems(h: Heap, h': Heap, s: State, T: Ptr, S: Ptr)
    requires ListsOk(h.stacks, h.nodes, h.chains) && ListsOk(h'.stacks, h'.nodes, h'.chains)
    requires Faithful(h, s) && Keeps(h.nodes, h'.nodes, S)
    requires T in h.stacks && T in h'.stacks && T in s.stacks
    requires h'.stacks[T] == h.stacks[T] && h'.chains[T] == h.chains[T]
    ensures StackSim(h'.stacks[T], h'.nodes, h'.chains[T], s.stacks[T])
  {
    assert StackSim(h.stacks[T], h.nodes, h.chains[T], s.stacks[T]);
    assert ListOk(h'.stacks, h'.nodes, h'.chains, T);
    forall i | 0 <= i < |h.chains[T]|
      ensures h'.chains[T][i] in h'.nodes && h'.nodes[h'.chains[T][i]].data == s.stacks[T].items[i]
    {
      assert h'.chains[T][i] in h'.chains[T];
    }
  }

  // ---------- Making a descriptor ----------

  function HeapMade(h: Heap, d: Ptr, tup: Ptr, S: Ptr, np: Ptr): Heap
    requires ListsOk(h.stacks, h.nodes, h.chains)
    requires S != NULL ==> S in h.stacks && np != NULL && np !in h.nodes
  {
    var h0 := h.(descs := h.descs[d := RTupDesc(1, if S == NULL then NULL else np, tup)], tups := h.tups[tup := d]);
    if S == NULL then h0 else HeapPushed(h0, S, np, d)
  }

  lemma MadeOk(h: Heap, d: Ptr, tup: Ptr, S: Ptr, np: Ptr)
    requires HeapOk(h) && d != NULL && d !in h.descs && tup != NULL && tup !in h.tups
    requires S != NULL ==> S in h.stacks && np != NULL && np !in h.nodes
    ensures HeapOk(HeapMade(h, d, tup, S, np))
  {
    var h' := HeapMade(h, d, tup, S, np);
    if S != NULL { PushLists(h, S, np, d); }
    forall e | e in h'.descs ensures WeakTo(h'.descs, h'.nodes, e) && TupTo(h'.descs, h'.tups, e) {
      if e != d { assert WeakTo(h.descs, h.nodes, e) && TupTo(h.descs, h.tups, e); }
    }
    forall n | n in h'.nodes ensures WeakFrom(h'.descs, h'.nodes, n) {
      if n in h.nodes { assert WeakFrom(h.descs, h.nodes, n); }
    }
    forall t | t in h'.tups ensures TupFrom(h'.descs, h'.tups, t) {
      if t != tup { assert TupFrom(h.descs, h.tups, t); }
    }
  }

  lemma MadeRepresents(h: Heap, s: State, d: Ptr, tup: Ptr, S: Ptr, np: Ptr, o: Holder)
    requires Faithful(h, s) && d != NULL && d !in h.descs && tup != NULL && tup !in h.tups
    requires S == s.current && (S != NULL ==> S in h.stacks && np != NULL && np !in h.nodes)
    ensures CurrentOk(s)
    ensures Faithful(HeapMade(h, d, tup, S, np), Make(s, d, o))
  {
    var h', s' := HeapMade(h, d, tup, S, np), Make(s, d, o);
    MadeOk(h, d, tup, S, np);
    if S != NULL {
      PushLists(h, S, np, d);
      assert StackSim(h.stacks[S], h.nodes, h.chains[S], s.stacks[S]);
      assert StackSim(h'.stacks[S], h'.nodes, h'.chains[S], s'.stacks[S]) by {
        forall i | 0 < i < |h'.chains[S]|
          ensures h'.chains[S][i] in h'.nodes && h'.nodes[h'.chains[S][i]].data == s'.stacks[S].items[i]
        {
          assert h'.chains[S][i] == h.chains[S][i - 1];
        }
      }
    }
    forall T | T in h'.stacks && T != S ensures StackSim(h'.stacks[T], h'.nodes, h'.chains[T], s'.stacks[T]) {
      if S == NULL { assert StackSim(h.stacks[T], h.nodes, h.chains[T], s.stacks[T]); } else { SameItems(h, h', s, T, S); }
    }
    forall e | e in h'.descs ensures DescSim(h'.descs[e], h'.nodes, s'.descs[e]) {
      if e != d {
        assert WeakTo(h.descs, h.nodes, e);
        SameHomes(h, h', s, e, S);
      }
    }
  }

  /** The record is completed after the push. */
  lemma MadeForm(h: Heap, h0: Heap, d: Ptr, tup: Ptr, S: Ptr, np: Ptr)
    requires ListsOk(h.stacks, h.nodes, h.chains)
    requires S != NULL ==> S in h.stacks && np != NULL && np !in h.nodes
    requires S == NULL ==> np == NULL
    requires h0 == h.(descs := h.descs[d := RTupDesc(1, NULL, tup)], tups := h.tups[tup := d])
    ensures (if S == NULL then h0 else HeapPushed(h0, S, np, d)).(descs := h0.descs[d := h0.descs[d].(weakNode := np)])
         == HeapMade(h, d, tup, S, np)
  {
  }

  lemma MadeAll(h: Heap, s: State, d: Ptr, tup: Ptr, np: Ptr, o: Holder)
    requires Faithful(h, s) && CurrentOk(s)
    requires d != NULL && d !in h.descs && tup != NULL && tup !in h.tups
    requires s.current != NULL ==> np != NULL && np !in h.nodes
    ensures s.current != NULL ==> s.current in h.stacks
    ensures Faithful(HeapMade(h, d, tup, s.current, np), Make(s, d, o))
    ensures SameRegs(h.stacks, HeapMade(h, d, tup, s.current, np).stacks)
  {
    MadeRepresents(h, s, d, tup, s.current, np, o);
  }

  /** The stacks are the same objects with the same registration. */
  ghost predicate SameRegs(stacks: map<Ptr, RTupDescStack>, stacks': map<Ptr, RTupDescStack>) {
    && stacks'.Keys == stacks.Keys
    && forall S {:trigger stacks'[S]} :: S in stacks ==> stacks'[S].resPtr == stacks[S].resPtr
  }

  // ---------- Counting ----------

  lemma CountRepresents(h: Heap, s: State, d: Ptr, n: int)
    requires Faithful(h, s) && d in h.descs
    ensures d in s.descs
    ensures Faithful(h.(descs := h.descs[d := h.descs[d].(refCount := n)]),
                     s.(descs := s.descs[d := s.descs[d].(refs := n)]))
  {
    var h' := h.(descs := h.descs[d := h.descs[d].(refCount := n)]);
    forall e | e in h'.descs ensures WeakTo(h'.descs, h'.nodes, e) && TupTo(h'.descs, h'.tups, e) {
      assert WeakTo(h.descs, h.nodes, e) && TupTo(h.descs, h.tups, e);
    }
    forall m | m in h'.nodes ensures WeakFrom(h'.descs, h'.nodes, m) { assert WeakFrom(h.descs, h.nodes, m); }
    forall t | t in h'.tups ensures TupFrom(h'.descs, h'.tups, t) { assert TupFrom(h.descs, h.tups, t); }
    var descs' := s.descs[d := s.descs[d].(refs := n)];
    forall e | e in h'.descs ensures DescSim(h'.descs[e], h'.nodes, descs'[e]) {
      assert DescSim(h.descs[e], h.nodes, s.descs[e]);
    }
  }

  // ---------- Destroying a descriptor ----------

  /** The node of a listed descriptor sits where the descriptor sits in its stack. */
  lemma NodePlace(h: Heap, s: State, d: Ptr) returns (S: Ptr, i: nat)
    requires Faithful(h, s) && d in h.descs && h.descs[d].weakNode != NULL
    ensures h.descs[d].weakNode in h.nodes && S == h.nodes[h.descs[d].weakNode].tail
    ensures S in h.stacks && S in s.stacks && d in s.descs && s.descs[d].home == S
    ensures i < |h.chains[S]| && h.chains[S][i] == h.descs[d].weakNode
    ensures |s.stacks[S].items| == |h.chains[S]| && s.stacks[S].items[i] == d
  {
    var n := h.descs[d].weakNode;
    assert WeakTo(h.descs, h.nodes, d) && DescSim(h.descs[d], h.nodes, s.descs[d]);
    S := h.nodes[n].tail;
    assert Listed(h.nodes, h.chains, n);
    i :| 0 <= i < |h.chains[S]| && h.chains[S][i] == n;
    assert StackSim(h.stacks[S], h.nodes, h.chains[S], s.stacks[S]);
  }

  lemma {:induction false} DeleteIsWithout<T>(q: seq<T>, i: nat)
    requires i < |q| && Distinct(q)
    ensures Delete(q, q[i]) == Without(q, i)
  {
    if i > 0 {
      DeleteIsWithout(q[1..], i - 1);
      assert q[1..][i - 1] == q[i] && q[0] != q[i];
      assert Without(q, i) == [q[0]] + Without(q[1..], i - 1);
    }
  }

  /** The descriptor's record and its TupleDesc, if it still has one, are freed. */
  function HeapFreed(h: Heap, d: Ptr): Heap
    requires d in h.descs
  {
    h.(descs := h.descs - {d}, tups := if h.descs[d].tupDesc == NULL then h.tups else h.tups - {h.descs[d].tupDesc})
  }

  /** Freeing a descriptor no node points to. */
  lemma FreedOk(h: Heap, d: Ptr)
    requires ListsOk(h.stacks, h.nodes, h.chains) && TupsOk(h.descs, h.tups) && d in h.descs && NULL !in h.descs
    requires forall e :: e in h.descs && e != d ==> WeakTo(h.descs, h.nodes, e)
    requires forall n :: n in h.nodes ==> WeakFrom(h.descs, h.nodes, n) && h.nodes[n].data != d
    ensures HeapOk(HeapFreed(h, d))
  {
    var h' := HeapFreed(h, d);
    assert TupTo(h.descs, h.tups, d);
    forall e | e in h'.descs ensures WeakTo(h'.descs, h'.nodes, e) && TupTo(h'.descs, h'.tups, e) {
      assert WeakTo(h.descs, h.nodes, e) && TupTo(h.descs, h.tups, e);
    }
    forall m | m in h'.nodes ensures WeakFrom(h'.descs, h'.nodes, m) { assert WeakFrom(h.descs, h.nodes, m); }
    forall t | t in h'.tups ensures TupFrom(h'.descs, h'.tups, t) { assert TupFrom(h.descs, h.tups, t); }
  }

  lemma LooseFreed(h: Heap, s: State, d: Ptr)
    requires Faithful(h, s) && d in h.descs && h.descs[d].weakNode == NULL
    ensures d in s.descs && s.descs[d].home == NULL
    ensures Faithful(HeapFreed(h, d), Destroy(s, d))
  {
    assert DescSim(h.descs[d], h.nodes, s.descs[d]);
    forall n | n in h.nodes ensures WeakFrom(h.descs, h.nodes, n) && h.nodes[n].data != d {
      assert WeakFrom(h.descs, h.nodes, n) && Listed(h.nodes, h.chains, n);
      assert ListOk(h.stacks, h.nodes, h.chains, h.nodes[n].tail);
    }
    forall e | e in h.descs ensures WeakTo(h.descs, h.nodes, e) { }
    FreedOk(h, d);
    var h', s' := HeapFreed(h, d), Destroy(s, d);
    forall e | e in h'.descs ensures DescSim(h'.descs[e], h'.nodes, s'.descs[e]) {
      assert DescSim(h.descs[e], h.nodes, s.descs[e]);
    }
  }

  /** After its node is unlinked, nobody points to d. */
  lemma UnlinkedWeak(h: Heap, d: Ptr, S: Ptr, i: nat)
    requires HeapOk(h) && d in h.descs && S in h.stacks && i < |h.chains[S]|
    requires h.chains[S][i] == h.descs[d].weakNode
    ensures var h1 := HeapUnlinked(h, S, i);
      && (forall e :: e in h.descs && e != d ==> WeakTo(h1.descs, h1.nodes, e))
      && (forall n :: n in h1.nodes ==> WeakFrom(h1.descs, h1.nodes, n) && h1.nodes[n].data != d)
  {
    UnlinkLists(h, S, i);
    var h1 := HeapUnlinked(h, S, i);
    assert WeakTo(h.descs, h.nodes, d);
    forall e | e in h.descs && e != d ensures WeakTo(h1.descs, h1.nodes, e) {
      assert WeakTo(h.descs, h.nodes, e);
    }
    forall n | n in h1.nodes ensures WeakFrom(h1.descs, h1.nodes, n) && h1.nodes[n].data != d {
      assert WeakFrom(h.descs, h.nodes, n);
    }
  }

  /** Different nodes carry different descriptors. */
  lemma ItemsDistinct(h: Heap, s: State, S: Ptr)
    requires Faithful(h, s) && S in h.stacks
    ensures S in s.stacks && Distinct(s.stacks[S].items)
  {
    assert StackSim(h.stacks[S], h.nodes, h.chains[S], s.stacks[S]) && ListOk(h.stacks, h.nodes, h.chains, S);
    var chain := h.chains[S];
    forall i, j | 0 <= i < j < |chain| ensures s.stacks[S].items[i] != s.stacks[S].items[j] {
      assert WeakFrom(h.descs, h.nodes, chain[i]) && WeakFrom(h.descs, h.nodes, chain[j]);
    }
  }

  lemma ListedFreed(h: Heap, s: State, d: Ptr, S: Ptr, i: nat)
    requires Faithful(h, s)
    requires d in h.descs && S in h.stacks && i < |h.chains[S]| && h.chains[S][i] == h.descs[d].weakNode
    requires d in s.descs && s.descs[d].home == S && S in s.stacks
    requires |s.stacks[S].items| == |h.chains[S]| && s.stacks[S].items[i] == d
    ensures Faithful(HeapFreed(HeapUnlinked(h, S, i), d), Destroy(s, d))
  {
    UnlinkLists(h, S, i);
    UnlinkedWeak(h, d, S, i);
    FreedOk(HeapUnlinked(h, S, i), d);
    var h', s' := HeapFreed(HeapUnlinked(h, S, i), d), Destroy(s, d);
    ItemsDistinct(h, s, S);
    DeleteIsWithout(s.stacks[S].items, i);
    UnlinkedItems(h, h', s, S, i);
    assert ListOk(h.stacks, h.nodes, h.chains, S);
    assert s'.stacks[S] == s.stacks[S].(items := Without(s.stacks[S].items, i));
    forall T | T in h'.stacks && T != S ensures StackSim(h'.stacks[T], h'.nodes, h'.chains[T], s'.stacks[T]) {
      SameItems(h, h', s, T, S);
    }
    forall e | e in h'.descs ensures DescSim(h'.descs[e], h'.nodes, s'.descs[e]) {
      assert WeakTo(h'.descs, h'.nodes, e) && WeakTo(h.descs, h.nodes, e);
      SameHomes(h, h', s, e, S);
    }
  }

  /** The nodes left on S still carry the items left on S. */
  lemma UnlinkedItems(h: Heap, h': Heap, s: State, S: Ptr, i: nat)
    requires Faithful(h, s) && S in h.stacks && i < |h.chains[S]|
    requires h'.nodes == HeapUnlinked(h, S, i).nodes && h'.chains == HeapUnlinked(h, S, i).chains
    requires h'.stacks == HeapUnlinked(h, S, i).stacks
    ensures S in s.stacks && i < |s.stacks[S].items|
    ensures StackSim(h'.stacks[S], h'.nodes, h'.chains[S], s.stacks[S].(items := Without(s.stacks[S].items, i)))
  {
    UnlinkLists(h, S, i);
    var chain, items := h.chains[S], s.stacks[S].items;
    assert StackSim(h.stacks[S], h.nodes, chain, s.stacks[S]);
    assert ListOk(h'.stacks, h'.nodes, h'.chains, S);
    forall j | 0 <= j < |h'.chains[S]|
      ensures h'.chains[S][j] in h'.nodes && h'.nodes[h'.chains[S][j]].data == Without(items, i)[j]
    {
      var k := if j < i then j else j + 1;
      assert h'.chains[S][j] == chain[k] && Without(items, i)[j] == items[k];
      assert h'.chains[S][j] in h'.chains[S];
    }
  }

  lemma ListedAll(h: Heap, s: State, d: Ptr) returns (S: Ptr, i: nat)
    requires Faithful(h, s) && d in h.descs && h.descs[d].weakNode != NULL
    ensures h.descs[d].weakNode in h.nodes && S == h.nodes[h.descs[d].weakNode].tail && S in h.stacks
    ensures i < |h.chains[S]| && h.chains[S][i] == h.descs[d].weakNode
    ensures CanDestroy(s, d)
    ensures Faithful(HeapFreed(HeapUnlinked(h, S, i), d), Destroy(s, d))
    ensures SameRegs(h.stacks, HeapUnlinked(h, S, i).stacks)
    ensures h.descs[d].tupDesc != NULL <==> s.descs[d].live
  {
    S, i := NodePlace(h, s, d);
    ListedFreed(h, s, d, S, i);
    assert DescSim(h.descs[d], h.nodes, s.descs[d]);
  }

  lemma LooseAll(h: Heap, s: State, d: Ptr)
    requires Faithful(h, s) && d in h.descs && h.descs[d].weakNode == NULL
    ensures CanDestroy(s, d)
    ensures Faithful(HeapFreed(h, d), Destroy(s, d))
    ensures h.descs[d].tupDesc != NULL <==> s.descs[d].live
  {
    LooseFreed(h, s, d);
    assert DescSim(h.descs[d], h.nodes, s.descs[d]);
  }

  predicate CanDestroy(s: State, d: Ptr) {
    d in s.descs && (s.descs[d].home != NULL ==> s.descs[d].home in s.stacks)
  }

  lemma CountAll(h: Heap, s: State, d: Ptr, o: Holder)
    requires Faithful(h, s) && d in h.descs
    ensures d in s.descs
    ensures Faithful(h.(descs := h.descs[d := h.descs[d].(refCount := h.descs[d].refCount + 1)]), AddRef(s, d, o))
  {
    assert DescSim(h.descs[d], h.nodes, s.descs[d]);
    CountRepresents(h, s, d, h.descs[d].refCount + 1);
  }

  lemma ReleaseAll(h: Heap, s: State, d: Ptr)
    requires Faithful(h, s) && d in h.descs
    ensures CanDestroy(s, d) && h.descs[d].refCount == s.descs[d].refs
    ensures s.descs[d].refs != 1 ==>
      Faithful(h.(descs := h.descs[d := h.descs[d].(refCount := h.descs[d].refCount - 1)]), Release(s, d))
  {
    assert DescSim(h.descs[d], h.nodes, s.descs[d]);
    if h.descs[d].weakNode != NULL { var S, i := NodePlace(h, s, d); }
    CountRepresents(h, s, d, h.descs[d].refCount - 1);
  }

  // ---------- Cleaning: one turn of the drain loop ----------

  /** The popped descriptor loses its TupleDesc and forgets its freed node. */
  function HeapDetached(h: Heap, S: Ptr, d: Ptr): Heap
    requires HeapOk(h) && S in h.stacks && h.chains[S] != [] && d in h.descs
  {
    HeapUnlinked(h, S, 0).(
      descs := h.descs[d := h.descs[d].(tupDesc := NULL, weakNode := NULL)],
      tups := if h.descs[d].tupDesc == NULL then h.tups else h.tups - {h.descs[d].tupDesc})
  }

  /** The first descriptor of the stack loses its TupleDesc and its place. */
  function DetachFirst(s: State, S: Ptr): State
    requires S in s.stacks && s.stacks[S].items != [] && s.stacks[S].items[0] in s.descs
  {
    var d := s.stacks[S].items[0];
    s.(descs := s.descs[d := s.descs[d].(live := false, home := NULL)],
       stacks := s.stacks[S := s.stacks[S].(items := s.stacks[S].items[1..])],
       count := s.count - 1)
  }

  lemma FirstNode(h: Heap, s: State, S: Ptr) returns (d: Ptr)
    requires Faithful(h, s) && S in h.stacks && h.chains[S] != []
    ensures S in s.stacks && s.stacks[S].items != []
    ensures h.stacks[S].top in h.nodes && h.nodes[h.stacks[S].top].data == d && h.chains[S][0] == h.stacks[S].top
    ensures d == s.stacks[S].items[0] && d in h.descs && d in s.descs && h.descs[d].weakNode == h.stacks[S].top
  {
    TopIsNode(h, S);
    assert StackSim(h.stacks[S], h.nodes, h.chains[S], s.stacks[S]);
    d := h.nodes[h.stacks[S].top].data;
    assert WeakFrom(h.descs, h.nodes, h.stacks[S].top);
  }

  lemma DetachedOk(h: Heap, S: Ptr, d: Ptr)
    requires HeapOk(h) && S in h.stacks && h.chains[S] != [] && d in h.descs && h.descs[d].weakNode == h.chains[S][0]
    ensures HeapOk(HeapDetached(h, S, d))
  {
    UnlinkLists(h, S, 0);
    UnlinkedWeak(h, d, S, 0);
    var h1, h' := HeapUnlinked(h, S, 0), HeapDetached(h, S, d);
    assert TupTo(h.descs, h.tups, d);
    forall e | e in h'.descs ensures WeakTo(h'.descs, h'.nodes, e) && TupTo(h'.descs, h'.tups, e) {
      if e != d { assert WeakTo(h1.descs, h1.nodes, e) && TupTo(h.descs, h.tups, e); }
    }
    forall m | m in h'.nodes ensures WeakFrom(h'.descs, h'.nodes, m) { assert WeakFrom(h1.descs, h1.nodes, m); }
    forall t | t in h'.tups ensures TupFrom(h'.descs, h'.tups, t) { assert TupFrom(h.descs, h.tups, t); }
  }

  lemma DetachedRepresents(h: Heap, s: State, S: Ptr, d: Ptr)
    requires Faithful(h, s) && S in h.stacks && h.chains[S] != []
    requires d in h.descs && h.descs[d].weakNode == h.chains[S][0]
    requires S in s.stacks && s.stacks[S].items != [] && s.stacks[S].items[0] == d && d in s.descs
    ensures Faithful(HeapDetached(h, S, d), DetachFirst(s, S))
  {
    UnlinkLists(h, S, 0);
    DetachedOk(h, S, d);
    var h', s' := HeapDetached(h, S, d), DetachFirst(s, S);
    assert Without(s.stacks[S].items, 0) == s.stacks[S].items[1..];
    UnlinkedItems(h, h', s, S, 0);
    forall T | T in h'.stacks && T != S ensures StackSim(h'.stacks[T], h'.nodes, h'.chains[T], s'.stacks[T]) {
      SameItems(h, h', s, T, S);
    }
    assert DescSim(h.descs[d], h.nodes, s.descs[d]);
    forall e | e in h'.descs ensures DescSim(h'.descs[e], h'.nodes, s'.descs[e]) {
      if e != d {
        assert WeakTo(h'.descs, h'.nodes, e) && WeakTo(h.descs, h.nodes, e);
        SameHomes(h, h', s, e, S);
      }
    }
  }

  /** Draining one by one is cleaning at once. */
  lemma CleanUnrolls(s: State, S: Ptr)
    requires S in s.stacks
    ensures s.stacks[S].items == [] ==> Clean(s, S) == s
    ensures s.stacks[S].items != [] && s.stacks[S].items[0] in s.descs ==>
      S in DetachFirst(s, S).stacks && Clean(DetachFirst(s, S), S) == Clean(s, S)
  {
    hide Detach;
    var items := s.stacks[S].items;
    if items == [] {
      DetachNothing(s.descs);
    } else if items[0] in s.descs {
      DetachSplits(s.descs, items);
    }
  }

  lemma DetachNothing(descs: map<Ptr, Desc>)
    ensures Detach(descs, []) == descs
  {
  }

  lemma DetachSplits(descs: map<Ptr, Desc>, items: seq<Ptr>)
    requires items != [] && items[0] in descs
    ensures Detach(descs[items[0] := descs[items[0]].(live := false, home := NULL)], items[1..]) == Detach(descs, items)
  {
    assert items == [items[0]] + items[1..];
  }

  /** One turn of the loop, for the method that runs it. */
  lemma DetachAll(h: Heap, s: State, S: Ptr) returns (d: Ptr)
    requires Faithful(h, s) && S in h.stacks && h.chains[S] != []
    ensures S in s.stacks && s.stacks[S].items != [] && s.stacks[S].items[0] == d && d in s.descs
    ensures h.chains[S][0] in h.nodes && h.nodes[h.chains[S][0]].data == d
    ensures d in h.descs && h.descs[d].tupDesc != NULL
    ensures Faithful(HeapDetached(h, S, d), DetachFirst(s, S))
    ensures SameRegs(h.stacks, HeapDetached(h, S, d).stacks)
  {
    d := FirstNode(h, s, S);
    assert WeakTo(h.descs, h.nodes, d);
    TopIsNode(h, S);
    DetachedRepresents(h, s, S, d);
  }

  /** NULL comes back from pop only when the stack is empty. */
  lemma Drained(h: Heap, s: State, S: Ptr, top: Ptr)
    requires Faithful(h, s) && S in h.stacks && S in h.chains && top == NULL
    requires h.chains[S] != [] ==> h.chains[S][0] in h.nodes && top == h.nodes[h.chains[S][0]].data
    ensures h.chains[S] == [] && S in s.stacks && Clean(s, S) == s
  {
    assert h.chains[S] != [] ==> WeakFrom(h.descs, h.nodes, h.chains[S][0]);
    assert StackSim(h.stacks[S], h.nodes, h.chains[S], s.stacks[S]);
    CleanUnrolls(s, S);
  }

  // ---------- Creating and freeing a stack ----------

  lemma NewStackLists(h: Heap, S: Ptr, rec: RTupDescStack)
    requires ListsOk(h.stacks, h.nodes, h.chains) && S != NULL && S !in h.stacks && rec.top == NULL
    ensures ListsOk(h.stacks[S := rec], h.nodes, h.chains[S := []])
  {
    var stacks', chains' := h.stacks[S := rec], h.chains[S := []];
    forall T | T in stacks' ensures ListOk(stacks', h.nodes, chains', T) {
      if T != S { assert ListOk(h.stacks, h.nodes, h.chains, T); }
    }
    forall n | n in h.nodes ensures Listed(h.nodes, chains', n) { assert Listed(h.nodes, h.chains, n); }
  }

  lemma NewStackRepresents(h: Heap, s: State, S: Ptr, rec: RTupDescStack)
    requires Faithful(h, s) && S != NULL && S !in h.stacks
    requires rec.refCount == 0 && rec.top == NULL
    ensures Faithful(h.(stacks := h.stacks[S := rec], chains := h.chains[S := []]), NewStack(s, S, rec.cleanupPtr))
  {
    NewStackLists(h, S, rec);
    var stacks', chains' := h.stacks[S := rec], h.chains[S := []];
    var abs' := s.stacks[S := Stack(0, [], rec.cleanupPtr)];
    forall T | T in stacks' ensures StackSim(stacks'[T], h.nodes, chains'[T], abs'[T]) {
      if T != S { assert StackSim(h.stacks[T], h.nodes, h.chains[T], s.stacks[T]); }
    }
    assert StacksSim(stacks', h.nodes, chains', abs');
  }

  lemma StackFieldRepresents(h: Heap, s: State, S: Ptr, n: int)
    requires Faithful(h, s) && S in h.stacks
    ensures S != NULL
    ensures S in s.stacks && s.stacks[S].refs == h.stacks[S].refCount && s.stacks[S].cell == h.stacks[S].cleanupPtr
    ensures Faithful(h.(stacks := h.stacks[S := h.stacks[S].(refCount := n)]), SetRefs(s, S, n))
  {
    hide WeakOk, TupsOk, DescsSim, Chain;
    var h' := h.(stacks := h.stacks[S := h.stacks[S].(refCount := n)]);
    var s' := SetRefs(s, S, n);
    assert StackSim(h.stacks[S], h.nodes, h.chains[S], s.stacks[S]);
    forall T | T in h'.stacks
      ensures ListOk(h'.stacks, h'.nodes, h'.chains, T)
      ensures StackSim(h'.stacks[T], h'.nodes, h'.chains[T], s'.stacks[T])
    {
      assert ListOk(h.stacks, h.nodes, h.chains, T) && StackSim(h.stacks[T], h.nodes, h.chains[T], s.stacks[T]);
    }
  }

  lemma FreedStackRepresents(h: Heap, s: State, S: Ptr)
    requires Faithful(h, s) && S in h.stacks && h.chains[S] == []
    ensures Faithful(h.(stacks := h.stacks - {S}, chains := h.chains - {S}), s.(stacks := s.stacks - {S}))
  {
    var h' := h.(stacks := h.stacks - {S}, chains := h.chains - {S});
    var stacks' := s.stacks - {S};
    forall T | T in h'.stacks
      ensures ListOk(h'.stacks, h'.nodes, h'.chains, T)
      ensures StackSim(h'.stacks[T], h'.nodes, h'.chains[T], stacks'[T])
    {
      assert ListOk(h.stacks, h.nodes, h.chains, T) && StackSim(h.stacks[T], h.nodes, h.chains[T], s.stacks[T]);
    }
    forall n | n in h'.nodes ensures Listed(h'.nodes, h'.chains, n) { assert Listed(h.nodes, h.chains, n); }
  }

  // ---------- The resource list ----------

  function Registered(reg: Registry, np: Ptr, r: Registration): Registry
    requires reg.top != NULL ==> reg.top in reg.nodes
  {
    Registry(Pushed(reg.nodes, reg.top, RESOURCE_STK, np, r), np, [np] + reg.chain)
  }

  lemma RegisterSim(reg: Registry, abs: seq<Resource>, np: Ptr, r: Registration)
    requires ResourcesSim(reg, abs) && np != NULL && np !in reg.nodes
    ensures reg.top != NULL ==> reg.top in reg.nodes
    ensures ResourcesSim(Registered(reg, np, r), [ResourceOf(r)] + abs)
    ensures np in Registered(reg, np, r).nodes && Registered(reg, np, r).nodes[np].data == r
    ensures SameData(reg.nodes, Registered(reg, np, r).nodes, NULL)
  {
    PushIsCons(reg.nodes, reg.top, RESOURCE_STK, reg.chain, np, r);
    var m', chain' := Registered(reg, np, r).nodes, [np] + reg.chain;
    forall n | n in m' ensures OnList(chain', n) { if n != np { assert OnList(reg.chain, n); } }
    forall i | 0 <= i < |chain'| ensures Registers(m', chain', [ResourceOf(r)] + abs, i) {
      if i > 0 { assert Registers(reg.nodes, reg.chain, abs, i - 1) && chain'[i] == reg.chain[i - 1]; }
    }
  }

  /** Every node but the one that goes keeps its registration. */
  ghost predicate SameData(m: map<Ptr, Link<Registration>>, m': map<Ptr, Link<Registration>>, gone: Ptr) {
    forall n :: n in m && n != gone ==> n in m' && m'[n].data == m[n].data
  }

  ghost predicate CanUnregister(reg: Registry, i: nat) {
    && i < |reg.chain|
    && var np := reg.chain[i];
    && np in reg.nodes && reg.nodes[np].prev != np && reg.nodes[np].next != np
    && (reg.nodes[np].next != NULL ==> reg.nodes[np].next in reg.nodes)
    && (reg.nodes[np].prev != NULL ==> reg.nodes[np].prev in reg.nodes)
  }

  function Unregistered(reg: Registry, i: nat): Registry
    requires CanUnregister(reg, i)
  {
    var np := reg.chain[i];
    Registry(Unlinked(reg.nodes, reg.top, np), TopWithout(reg.nodes, reg.top, np), Without(reg.chain, i))
  }

  lemma UnregisterSim(reg: Registry, abs: seq<Resource>, i: nat)
    requires ResourcesSim(reg, abs) && i < |reg.chain|
    ensures CanUnregister(reg, i) && i < |abs|
    ensures ResourcesSim(Unregistered(reg, i), Without(abs, i))
    ensures SameData(reg.nodes, Unregistered(reg, i).nodes, reg.chain[i])
  {
    UnlinkIsRemove(reg.nodes, reg.top, RESOURCE_STK, reg.chain, i);
    WithoutElements(reg.chain, i);
    var m', chain' := Unlinked(reg.nodes, reg.top, reg.chain[i]), Without(reg.chain, i);
    forall n | n in m' ensures OnList(chain', n) { assert OnList(reg.chain, n); }
    forall j | 0 <= j < |chain'| ensures Registers(m', chain', Without(abs, i), j) {
      var k := if j < i then j else j + 1;
      assert Registers(reg.nodes, reg.chain, abs, k);
      assert chain'[j] == reg.chain[k] && Without(abs, i)[j] == abs[k];
      assert chain'[j] in chain';
    }
  }

  /** Taking out the node of a registered object takes that object out of the list. */
  lemma UnregisterNode(reg: Registry, abs: seq<Resource>, np: Ptr) returns (i: nat)
    requires ResourcesSim(reg, abs) && np in reg.nodes && Distinct(abs)
    ensures CanUnregister(reg, i) && reg.chain[i] == np
    ensures ResourcesSim(Unregistered(reg, i), Delete(abs, ResourceOf(reg.nodes[np].data)))
    ensures SameData(reg.nodes, Unregistered(reg, i).nodes, np)
  {
    assert OnList(reg.chain, np);
    i :| 0 <= i < |reg.chain| && reg.chain[i] == np;
    assert Registers(reg.nodes, reg.chain, abs, i);
    UnregisterSim(reg, abs, i);
    DeleteIsWithout(abs, i);
  }

  // ---------- Registration pointers ----------

  /** Everybody but exc is registered under its own resptr. */
  ghost predicate RegsBut(stacks: map<Ptr, RTupDescStack>, cursors: map<Ptr, LuaCursor>,
                          reg: Registry, abs: seq<Resource>, exc: Option<Resource>)
  {
    match reg
    case Registry(nodes, top, chain) =>
      && (forall S {:trigger StackReg(stacks, nodes, S)} :: S in stacks && Some(StackRes(S)) != exc ==>
            StackReg(stacks, nodes, S))
      && (forall c {:trigger CursorReg(cursors, nodes, abs, c)} :: c in cursors && Some(CursorRes(c)) != exc ==>
            CursorReg(cursors, nodes, abs, c))
  }

  /** A new node for r disturbs nobody; r itself is exempt until its pointer is set. */
  lemma RegsRegister(stacks: map<Ptr, RTupDescStack>, cursors: map<Ptr, LuaCursor>,
                     reg: Registry, reg': Registry, abs: seq<Resource>, r: Resource)
    requires RegsBut(stacks, cursors, reg, abs, None)
    requires SameData(reg.nodes, reg'.nodes, NULL) && NULL !in reg.nodes
    ensures RegsBut(stacks, cursors, reg', [r] + abs, Some(r))
  {
    forall S | S in stacks && Some(StackRes(S)) != Some(r) ensures StackReg(stacks, reg'.nodes, S) {
      assert StackReg(stacks, reg.nodes, S);
    }
    forall c | c in cursors && Some(CursorRes(c)) != Some(r) ensures CursorReg(cursors, reg'.nodes, [r] + abs, c) {
      assert CursorReg(cursors, reg.nodes, abs, c);
    }
  }

  /** When r's node goes, everybody else's stays. */
  lemma RegsUnregister(stacks: map<Ptr, RTupDescStack>, cursors: map<Ptr, LuaCursor>,
                       reg: Registry, reg': Registry, abs: seq<Resource>, r: Resource, np: Ptr)
    requires RegsBut(stacks, cursors, reg, abs, None) && Distinct(abs)
    requires np in reg.nodes && ResourceOf(reg.nodes[np].data) == r
    requires SameData(reg.nodes, reg'.nodes, np)
    ensures RegsBut(stacks, cursors, reg', Delete(abs, r), Some(r))
  {
    DeleteProps(abs, r);
    forall S | S in stacks && Some(StackRes(S)) != Some(r) ensures StackReg(stacks, reg'.nodes, S) {
      assert StackReg(stacks, reg.nodes, S);
    }
    forall c | c in cursors && Some(CursorRes(c)) != Some(r) ensures CursorReg(cursors, reg'.nodes, Delete(abs, r), c) {
      assert CursorReg(cursors, reg.nodes, abs, c);
    }
  }

  /** Objects that keep their resptr keep their registration; exc may be gone or fixed. */
  lemma RegsMove(stacks: map<Ptr, RTupDescStack>, stacks': map<Ptr, RTupDescStack>,
                 cursors: map<Ptr, LuaCursor>, cursors': map<Ptr, LuaCursor>,
                 reg: Registry, abs: seq<Resource>, exc: Option<Resource>)
    requires RegsBut(stacks, cursors, reg, abs, exc)
    requires forall S :: S in stacks' && Some(StackRes(S)) != exc ==> S in stacks && stacks'[S].resPtr == stacks[S].resPtr
    requires forall c :: c in cursors' && Some(CursorRes(c)) != exc ==> c in cursors && cursors'[c].resPtr == cursors[c].resPtr
    requires forall S :: S in stacks' && Some(StackRes(S)) == exc ==> StackReg(stacks', reg.nodes, S)
    requires forall c :: c in cursors' && Some(CursorRes(c)) == exc ==> CursorReg(cursors', reg.nodes, abs, c)
    ensures RegsBut(stacks', cursors', reg, abs, None)
  {
    forall S | S in stacks' ensures StackReg(stacks', reg.nodes, S) {
      if Some(StackRes(S)) != exc { assert StackReg(stacks, reg.nodes, S); }
    }
    forall c | c in cursors' ensures CursorReg(cursors', reg.nodes, abs, c) {
      if Some(CursorRes(c)) != exc { assert CursorReg(cursors, reg.nodes, abs, c); }
    }
  }

  // ---------- Registration, as the methods use it ----------

  /** The new stack rec at S and its node. */
  lemma StackRegistered(stacks: map<Ptr, RTupDescStack>, cursors: map<Ptr, LuaCursor>,
                        reg: Registry, reg': Registry, abs: seq<Resource>, S: Ptr, rec: RTupDescStack)
    requires RegsBut(stacks, cursors, reg, abs, None) && NULL !in reg.nodes
    requires SameData(reg.nodes, reg'.nodes, NULL)
    requires rec.resPtr in reg'.nodes && ResourceOf(reg'.nodes[rec.resPtr].data) == StackRes(S)
    ensures RegsBut(stacks[S := rec], cursors, reg', [StackRes(S)] + abs, None)
  {
    RegsRegister(stacks, cursors, reg, reg', abs, StackRes(S));
    RegsMove(stacks, stacks[S := rec], cursors, cursors, reg', [StackRes(S)] + abs, Some(StackRes(S)));
  }

  /** The stack S is gone and so is its node. */
  lemma StackUnregistered(stacks: map<Ptr, RTupDescStack>, stacks': map<Ptr, RTupDescStack>, cursors: map<Ptr, LuaCursor>,
                          reg: Registry, reg': Registry, abs: seq<Resource>, S: Ptr)
    requires RegsBut(stacks, cursors, reg, abs, None) && Distinct(abs) && S in stacks
    requires StackReg(stacks, reg.nodes, S) && SameData(reg.nodes, reg'.nodes, stacks[S].resPtr)
    requires SameRegs(stacks, stacks')
    ensures RegsBut(stacks' - {S}, cursors, reg', Delete(abs, StackRes(S)), None)
  {
    RegsUnregister(stacks, cursors, reg, reg', abs, StackRes(S), stacks[S].resPtr);
    RegsMove(stacks, stacks' - {S}, cursors, cursors, reg', Delete(abs, StackRes(S)), Some(StackRes(S)));
  }

  lemma SameRegsMove(stacks: map<Ptr, RTupDescStack>, stacks': map<Ptr, RTupDescStack>, cursors: map<Ptr, LuaCursor>,
                     reg: Registry, abs: seq<Resource>)
    requires RegsBut(stacks, cursors, reg, abs, None) && SameRegs(stacks, stacks')
    ensures RegsBut(stacks', cursors, reg, abs, None)
  {
    RegsMove(stacks, stacks', cursors, cursors, reg, abs, None);
  }

  lemma NullUnregistered(reg: Registry, abs: seq<Resource>)
    requires ResourcesSim(reg, abs)
    ensures NULL !in reg.nodes
  {
    assert OnList(reg.chain, NULL) ==> NULL in reg.chain;
  }

  // ---------- Cursors and rows ----------

  /** One cursor changes, with its own queue or a new one. */
  lemma CursorChanged(cursors: map<Ptr, LuaCursor>, queues: map<Ptr, TupleQueue>, queues': map<Ptr, TupleQueue>,
                      abs: map<Ptr, Cursor>, c: Ptr, cur: LuaCursor, a: Cursor)
    requires CursorsSim(cursors, queues, abs) && c in cursors && CursorSim(cur, queues', a)
    requires cur.tupleQueue == NULL || cur.tupleQueue == cursors[c].tupleQueue || cur.tupleQueue !in queues
    requires forall q :: q in queues && q != cursors[c].tupleQueue ==> q in queues' && queues'[q] == queues[q]
    ensures CursorsSim(cursors[c := cur], queues', abs[c := a])
  {
    var cursors', abs' := cursors[c := cur], abs[c := a];
    forall e | e in cursors' ensures CursorSim(cursors'[e], queues', abs'[e]) {
      if e != c { assert CursorSim(cursors[e], queues, abs[e]); }
    }
    forall e, f | e in cursors' && f in cursors' && e != f && cursors'[e].tupleQueue != NULL
      ensures cursors'[e].tupleQueue != cursors'[f].tupleQueue
    {
      assert e != c ==> CursorSim(cursors[e], queues, abs[e]);
      assert f != c ==> CursorSim(cursors[f], queues, abs[f]);
    }
  }

  lemma RowsKept(rows: map<Ptr, LuaTuple>, owners: map<Holder, Ptr>, owners': map<Holder, Ptr>, abs: map<Ptr, Datum>)
    requires RowsSim(rows, owners, abs)
    requires forall r :: ByRow(r) in owners ==> ByRow(r) in owners' && owners'[ByRow(r)] == owners[ByRow(r)]
    ensures RowsSim(rows, owners', abs)
  {
    forall r | r in rows ensures RowSim(rows, owners', abs, r) { assert RowSim(rows, owners, abs, r); }
  }

  lemma RowsDropped(rows: map<Ptr, LuaTuple>, owners: map<Holder, Ptr>, owners': map<Holder, Ptr>, abs: map<Ptr, Datum>, gone: set<Ptr>)
    requires RowsSim(rows, owners, abs)
    requires forall r :: ByRow(r) in owners && r !in gone ==> ByRow(r) in owners' && owners'[ByRow(r)] == owners[ByRow(r)]
    ensures RowsSim(rows - gone, owners', abs - gone)
  {
    var rows', abs' := rows - gone, abs - gone;
    forall r | r in rows' ensures RowSim(rows', owners', abs', r) { assert RowSim(rows, owners, abs, r); }
  }

  /** Freeing the next of the queued rows. */
  lemma FreeNext(rows: map<Ptr, LuaTuple>, all: set<Ptr>, rest: seq<Ptr>)
    requires rest != [] && Distinct(rest) && forall r :: r in rest ==> r in rows && r in all
    ensures rest[0] in rows - (all - Elements(rest))
    ensures rows - (all - Elements(rest)) - {rest[0]} == rows - (all - Elements(rest[1..]))
    ensures Distinct(rest[1..]) && forall r :: r in rest[1..] ==> r in rows && r in all
    ensures At(rest[1..], 0) == NULL ==> rest[1..] == [] || NULL in rest
  {
    assert rest == [rest[0]] + rest[1..];
    assert rest[0] !in rest[1..];
    assert all - Elements(rest[1..]) == (all - Elements(rest)) + {rest[0]};
    assert rest[1..] != [] ==> rest[1..][0] in rest;
  }

  lemma RowAdded(rows: map<Ptr, LuaTuple>, owners: map<Holder, Ptr>, abs: map<Ptr, Datum>, r: Ptr, x: Datum, d: Ptr)
    requires RowsSim(rows, owners, abs) && r !in rows
    ensures r !in abs && RowsSim(rows[r := LuaTuple(x, d)], owners[ByRow(r) := d], abs[r := x])
  {
    var rows', owners', abs' := rows[r := LuaTuple(x, d)], owners[ByRow(r) := d], abs[r := x];
    forall e | e in rows' ensures RowSim(rows', owners', abs', e) {
      if e != r { assert RowSim(rows, owners, abs, e); }
    }
  }

  lemma TopResource(reg: Registry, abs: seq<Resource>)
    requires ResourcesSim(reg, abs)
    ensures reg.top == NULL <==> abs == []
    ensures abs != [] ==> reg.top in reg.nodes && reg.chain != [] && reg.chain[0] == reg.top && ResourceOf(reg.nodes[reg.top].data) == abs[0]
  {
    assert reg.chain != [] ==> reg.chain[0] in reg.chain && Registers(reg.nodes, reg.chain, abs, 0);
  }

  lemma PopTop(stacks: map<Ptr, RTupDescStack>, cursors: map<Ptr, LuaCursor>, reg: Registry, abs: seq<Resource>)
    requires ResourcesSim(reg, abs) && RegsBut(stacks, cursors, reg, abs, None) && Distinct(abs) && abs != []
    ensures reg.top in reg.nodes && ResourceOf(reg.nodes[reg.top].data) == abs[0]
    ensures CanUnregister(reg, 0) && reg.chain[0] == reg.top
    ensures ResourcesSim(Unregistered(reg, 0), abs[1..])
    ensures RegsBut(stacks, cursors, Unregistered(reg, 0), abs[1..], Some(abs[0]))
  {
    TopResource(reg, abs);
    UnregisterSim(reg, abs, 0);
    assert Without(abs, 0) == abs[1..] == Delete(abs, abs[0]);
    RegsUnregister(stacks, cursors, reg, Unregistered(reg, 0), abs, abs[0], reg.top);
  }

  lemma CursorAdded(cursors: map<Ptr, LuaCursor>, queues: map<Ptr, TupleQueue>, abs: map<Ptr, Cursor>, c: Ptr, cur: LuaCursor)
    requires CursorsSim(cursors, queues, abs) && c !in cursors && cur.tupleQueue == NULL
    ensures CursorsSim(cursors[c := cur], queues, abs[c := Cursor(cur.rtupdesc, None, cur.portal)])
  {
    var cursors', abs' := cursors[c := cur], abs[c := Cursor(cur.rtupdesc, None, cur.portal)];
    forall e | e in cursors' ensures CursorSim(cursors'[e], queues, abs'[e]) {
      if e != c { assert CursorSim(cursors[e], queues, abs[e]); }
    }
  }

  lemma CursorRemoved(cursors: map<Ptr, LuaCursor>, queues: map<Ptr, TupleQueue>, abs: map<Ptr, Cursor>, c: Ptr)
    requires CursorsSim(cursors, queues, abs)
    ensures CursorsSim(cursors - {c}, queues, abs - {c})
  {
    var cursors', abs' := cursors - {c}, abs - {c};
    forall e | e in cursors' ensures CursorSim(cursors'[e], queues, abs'[e]) {
      assert CursorSim(cursors[e], queues, abs[e]);
    }
  }

  lemma CursorRegistered(stacks: map<Ptr, RTupDescStack>, cursors: map<Ptr, LuaCursor>,
                         reg: Registry, reg': Registry, abs: seq<Resource>, c: Ptr, cur: LuaCursor)
    requires RegsBut(stacks, cursors, reg, abs, None) && NULL !in reg.nodes
    requires SameData(reg.nodes, reg'.nodes, NULL)
    requires cur.resPtr != NULL && cur.resPtr in reg'.nodes && ResourceOf(reg'.nodes[cur.resPtr].data) == CursorRes(c)
    ensures RegsBut(stacks, cursors[c := cur], reg', [CursorRes(c)] + abs, None)
  {
    RegsRegister(stacks, cursors, reg, reg', abs, CursorRes(c));
    RegsMove(stacks, stacks, cursors, cursors[c := cur], reg', [CursorRes(c)] + abs, Some(CursorRes(c)));
  }

  /** The cursor c gives up its registration, if it has one. */
  lemma CursorNode(stacks: map<Ptr, RTupDescStack>, cursors: map<Ptr, LuaCursor>, reg: Registry, rs: seq<Resource>, c: Ptr)
    requires RegsBut(stacks, cursors, reg, rs, None) && c in cursors
    ensures cursors[c].resPtr == NULL <==> CursorRes(c) !in rs
    ensures cursors[c].resPtr != NULL ==>
      cursors[c].resPtr in reg.nodes && ResourceOf(reg.nodes[cursors[c].resPtr].data) == CursorRes(c)
  {
    assert CursorReg(cursors, reg.nodes, rs, c);
  }

  lemma CursorParts(cursors: map<Ptr, LuaCursor>, queues: map<Ptr, TupleQueue>, abs: map<Ptr, Cursor>, c: Ptr)
    requires CursorsSim(cursors, queues, abs) && c in cursors
    ensures c in abs && cursors[c].portal == abs[c].portal && cursors[c].rtupdesc == abs[c].desc
    ensures cursors[c].tupleQueue == NULL <==> abs[c].queue.None?
    ensures cursors[c].tupleQueue != NULL ==>
      cursors[c].tupleQueue in queues && queues[cursors[c].tupleQueue].Holds(abs[c].queue.value)
  {
    assert CursorSim(cursors[c], queues, abs[c]);
  }

  lemma CursorUnregistered(stacks: map<Ptr, RTupDescStack>, cursors: map<Ptr, LuaCursor>,
                           reg: Registry, reg': Registry, abs: seq<Resource>, c: Ptr, cur: LuaCursor)
    requires RegsBut(stacks, cursors, reg, abs, None) && Distinct(abs) && c in cursors && cur.resPtr == NULL
    requires cursors[c].resPtr == NULL ==> reg' == reg
    requires cursors[c].resPtr != NULL ==> SameData(reg.nodes, reg'.nodes, cursors[c].resPtr)
    ensures RegsBut(stacks, cursors[c := cur], reg', Delete(abs, CursorRes(c)), None)
  {
    assert CursorReg(cursors, reg.nodes, abs, c);
    DeleteProps(abs, CursorRes(c));
    if cursors[c].resPtr == NULL {
      DeleteAbsent(abs, CursorRes(c));
      RegsMove(stacks, stacks, cursors, cursors[c := cur], reg, abs, None);
    } else {
      RegsUnregister(stacks, cursors, reg, reg', abs, CursorRes(c), cursors[c].resPtr);
      RegsMove(stacks, stacks, cursors, cursors[c := cur], reg', Delete(abs, CursorRes(c)), Some(CursorRes(c)));
    }
  }

  lemma {:induction false} DeleteAbsent<T>(q: seq<T>, x: T)
    requires x !in q
    ensures Delete(q, x) == q
  {
    if q != [] {
      assert q == [q[0]] + q[1..];
      DeleteAbsent(q[1..], x);
    }
  }

  /** A queue nobody points to can be freed. */
  lemma QueueFreed(cursors: map<Ptr, LuaCursor>, queues: map<Ptr, TupleQueue>, abs: map<Ptr, Cursor>, tq: Ptr)
    requires CursorsSim(cursors, queues, abs)
    requires forall c :: c in cursors ==> cursors[c].tupleQueue == NULL || cursors[c].tupleQueue != tq
    ensures CursorsSim(cursors, queues - {tq}, abs)
  {
    forall e | e in cursors ensures CursorSim(cursors[e], queues - {tq}, abs[e]) {
      assert CursorSim(cursors[e], queues, abs[e]);
    }
  }

  function Rest(xs: seq<Datum>): seq<Datum> {
    xs[|Batch(xs)|..]
  }

  /** c->rtupdesc = rtupdesc_ctor(...), unless c has a descriptor already. */
  function WithDesc(s: State, c: Ptr, d: Ptr): State
    requires c in s.cursors && (s.cursors[c].desc == NULL ==> CurrentOk(s))
  {
    if s.cursors[c].desc == NULL
    then WithCursor(Make(s, d, ByCursor(c)), c, s.cursors[c].(desc := d))
    else s
  }

  lemma StartedInSteps(s: State, c: Ptr, d: Ptr)
    requires c in s.cursors && s.cursors[c].portal.Some? && (s.cursors[c].desc == NULL ==> CurrentOk(s))
    ensures var s1 := WithCursor(s, c, s.cursors[c].(portal := Some(Rest(s.cursors[c].portal.value))));
      var s2 := WithDesc(s1, c, d);
      c in s2.cursors && WithCursor(s2, c, s2.cursors[c].(queue := Some([]))) == Started(s, c, d)
  {
    var s1 := WithCursor(s, c, s.cursors[c].(portal := Some(Rest(s.cursors[c].portal.value))));
    var s2 := WithDesc(s1, c, d);
    assert WithCursor(s2, c, s2.cursors[c].(queue := Some([]))).cursors == Started(s, c, d).cursors;
  }
}
