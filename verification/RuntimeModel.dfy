/** The records the C files keep in memory, and what it means for them to represent a
    state of the ledger. */
module RuntimeModel {
  import opened Memory
  import opened IntrusiveList
  import opened Ledger

  datatype RTupDesc = RTupDesc(refCount: int, weakNode: Ptr, tupDesc: Ptr)

  datatype RTupDescStack = RTupDescStack(refCount: int, top: Ptr, resPtr: Ptr, cleanupPtr: Ptr)

  datatype Dtor = ForceFree | CursorCleanup

  datatype Registration = Registration(data: Ptr, dtor: Dtor)

  datatype LuaTuple = LuaTuple(tuple: Datum, rtupdesc: Ptr)

  datatype LuaCursor = LuaCursor(portal: Option<seq<Datum>>, rtupdesc: Ptr, tupleQueue: Ptr, resPtr: Ptr)

  /** The tail field of every node on the transaction's only resource list. */
  const RESOURCE_STK: Ptr := 1

  // ---------- The ring of tuple pointers ----------

  const TUPLE_QUEUE_SIZE := FETCH_CSR_Q + 1

  datatype TupleQueue = TupleQueue(head: nat, tail: nat, data: seq<Ptr>) {
    predicate WellFormed() {
      |data| == TUPLE_QUEUE_SIZE && head < TUPLE_QUEUE_SIZE && tail < TUPLE_QUEUE_SIZE
    }

    predicate IsEmpty() {
      head == tail
    }

    function Count(): nat
      requires WellFormed()
    {
      if head <= tail then tail - head else tail - head + TUPLE_QUEUE_SIZE
    }

    /** The slot of the i-th oldest pointer: head + 1 + i, wrapped. */
    function Slot(i: nat): nat {
      if head + 1 + i < TUPLE_QUEUE_SIZE then head + 1 + i else head + 1 + i - TUPLE_QUEUE_SIZE
    }

    /** The ring holds the pointers s, oldest first. */
    ghost predicate Holds(s: seq<Ptr>) {
      && WellFormed() && |s| == Count()
      && forall i {:trigger Slot(i)} :: 0 <= i < |s| ==> Slot(i) < |data| && data[Slot(i)] == s[i]
    }

    function Enqueue(n: Ptr): TupleQueue
      requires WellFormed()
    {
      var t := if tail == TUPLE_QUEUE_SIZE - 1 then 0 else tail + 1;
      if t == head then this.(tail := t) else TupleQueue(head, t, data[t := n])
    }

    function Dequeue(): (TupleQueue, Ptr)
      requires WellFormed()
    {
      if IsEmpty() then (this, NULL)
      else
        var h := if head == TUPLE_QUEUE_SIZE - 1 then 0 else head + 1;
        (this.(head := h), data[h])
    }
  }

  lemma EnqueueAppends(q: TupleQueue, s: seq<Ptr>, n: Ptr)
    requires q.Holds(s) && |s| < FETCH_CSR_Q
    ensures q.Enqueue(n).Holds(s + [n])
  {
    var q' := q.Enqueue(n);
    forall i | 0 <= i < |s| + 1 ensures q'.Slot(i) < |q'.data| && q'.data[q'.Slot(i)] == (s + [n])[i] {
      assert q'.Slot(i) == q.Slot(i);
    }
  }

  /** The branch the iterator must never take: a 51st pointer makes the ring look empty. */
  lemma FullQueueLooksEmpty(q: TupleQueue, s: seq<Ptr>, n: Ptr)
    requires q.Holds(s)
    ensures |s| <= FETCH_CSR_Q
    ensures |s| == FETCH_CSR_Q <==> q.Enqueue(n).IsEmpty()
    ensures q.IsEmpty() <==> s == []
  {
  }

  lemma DequeueTakesFirst(q: TupleQueue, s: seq<Ptr>)
    requires q.Holds(s)
    ensures s == [] ==> q.Dequeue() == (q, NULL)
    ensures s != [] ==> q.Dequeue().1 == s[0] && q.Dequeue().0.Holds(s[1..])
  {
    if s != [] {
      var q' := q.Dequeue().0;
      assert q.Slot(0) < |q.data|;
      forall i | 0 <= i < |s| - 1 ensures q'.Slot(i) < |q'.data| && q'.data[q'.Slot(i)] == s[1..][i] {
        assert q'.Slot(i) == q.Slot(i + 1);
      }
    }
  }

  // ---------- Representation ----------

  /** Every live stack heads its own chain of nodes, and every node is on its stack's. */
  ghost predicate ListsOk(stacks: map<Ptr, RTupDescStack>, nodes: map<Ptr, Link<Ptr>>, chains: map<Ptr, seq<Ptr>>) {
    && chains.Keys == stacks.Keys
    && (forall S {:trigger ListOk(stacks, nodes, chains, S)} :: S in stacks ==> ListOk(stacks, nodes, chains, S))
    && (forall n {:trigger Listed(nodes, chains, n)} :: n in nodes ==> Listed(nodes, chains, n))
  }

  ghost predicate ListOk(stacks: map<Ptr, RTupDescStack>, nodes: map<Ptr, Link<Ptr>>, chains: map<Ptr, seq<Ptr>>, S: Ptr) {
    S != NULL && S in stacks && S in chains && Chain(nodes, stacks[S].top, S, chains[S])
  }

  ghost predicate Listed(nodes: map<Ptr, Link<Ptr>>, chains: map<Ptr, seq<Ptr>>, n: Ptr) {
    n in nodes && nodes[n].tail in chains && n in chains[nodes[n].tail]
  }

  /** Every node belongs to exactly one descriptor and back, and a descriptor with a node
      still has its TupleDesc. */
  ghost predicate WeakOk(descs: map<Ptr, RTupDesc>, nodes: map<Ptr, Link<Ptr>>) {
    && NULL !in descs
    && (forall d {:trigger WeakTo(descs, nodes, d)} :: d in descs ==> WeakTo(descs, nodes, d))
    && (forall n {:trigger WeakFrom(descs, nodes, n)} :: n in nodes ==> WeakFrom(descs, nodes, n))
  }

  ghost predicate WeakTo(descs: map<Ptr, RTupDesc>, nodes: map<Ptr, Link<Ptr>>, d: Ptr)
    requires d in descs
  {
    descs[d].weakNode != NULL ==>
      descs[d].tupDesc != NULL && descs[d].weakNode in nodes && nodes[descs[d].weakNode].data == d
  }

  ghost predicate WeakFrom(descs: map<Ptr, RTupDesc>, nodes: map<Ptr, Link<Ptr>>, n: Ptr)
    requires n in nodes
  {
    nodes[n].data in descs && descs[nodes[n].data].weakNode == n
  }

  /** Every TupleDesc in memory belongs to exactly one descriptor and back; tups records
      whose it is. */
  ghost predicate TupsOk(descs: map<Ptr, RTupDesc>, tups: map<Ptr, Ptr>) {
    && NULL !in tups
    && (forall d {:trigger TupTo(descs, tups, d)} :: d in descs ==> TupTo(descs, tups, d))
    && (forall t {:trigger TupFrom(descs, tups, t)} :: t in tups ==> TupFrom(descs, tups, t))
  }

  ghost predicate TupTo(descs: map<Ptr, RTupDesc>, tups: map<Ptr, Ptr>, d: Ptr)
    requires d in descs
  {
    descs[d].tupDesc != NULL ==> descs[d].tupDesc in tups && tups[descs[d].tupDesc] == d
  }

  ghost predicate TupFrom(descs: map<Ptr, RTupDesc>, tups: map<Ptr, Ptr>, t: Ptr)
    requires t in tups
  {
    tups[t] in descs && descs[tups[t]].tupDesc == t
  }

  function HomeOf(desc: RTupDesc, nodes: map<Ptr, Link<Ptr>>): Ptr
    requires desc.weakNode != NULL ==> desc.weakNode in nodes
  {
    if desc.weakNode == NULL then NULL else nodes[desc.weakNode].tail
  }

  ghost predicate DescsSim(descs: map<Ptr, RTupDesc>, nodes: map<Ptr, Link<Ptr>>, abs: map<Ptr, Desc>) {
    && descs.Keys == abs.Keys
    && (forall d {:trigger DescSim(descs[d], nodes, abs[d])} :: d in descs ==> DescSim(descs[d], nodes, abs[d]))
  }

  ghost predicate DescSim(desc: RTupDesc, nodes: map<Ptr, Link<Ptr>>, a: Desc) {
    && desc.refCount == a.refs
    && (desc.tupDesc != NULL <==> a.live)
    && (desc.weakNode != NULL ==> desc.weakNode in nodes)
    && HomeOf(desc, nodes) == a.home
  }

  ghost predicate StacksSim(stacks: map<Ptr, RTupDescStack>, nodes: map<Ptr, Link<Ptr>>, chains: map<Ptr, seq<Ptr>>, abs: map<Ptr, Stack>) {
    && stacks.Keys == abs.Keys && chains.Keys == stacks.Keys
    && (forall S {:trigger StackSim(stacks[S], nodes, chains[S], abs[S])} :: S in stacks ==>
          StackSim(stacks[S], nodes, chains[S], abs[S]))
  }

  ghost predicate StackSim(stack: RTupDescStack, nodes: map<Ptr, Link<Ptr>>, chain: seq<Ptr>, a: Stack) {
    && stack.refCount == a.refs
    && stack.cleanupPtr == a.cell
    && |chain| == |a.items|
    && (forall i :: 0 <= i < |chain| ==> chain[i] in nodes && nodes[chain[i]].data == a.items[i])
  }

  function ResourceOf(r: Registration): Resource {
    match r.dtor
    case ForceFree => StackRes(r.data)
    case CursorCleanup => CursorRes(r.data)
  }

  /** The resource list: its nodes, resource_stk's top, and the addresses in order. */
  datatype Registry = Registry(nodes: map<Ptr, Link<Registration>>, top: Ptr, chain: seq<Ptr>)

  ghost predicate ResourcesSim(reg: Registry, abs: seq<Resource>) {
    match reg
    case Registry(nodes, top, chain) =>
      && Chain(nodes, top, RESOURCE_STK, chain)
      && (forall n {:trigger OnList(chain, n)} :: n in nodes ==> OnList(chain, n))
      && |chain| == |abs|
      && (forall i {:trigger Registers(nodes, chain, abs, i)} :: 0 <= i < |chain| ==> Registers(nodes, chain, abs, i))
  }

  ghost predicate OnList(chain: seq<Ptr>, n: Ptr) {
    n in chain
  }

  ghost predicate Registers(nodes: map<Ptr, Link<Registration>>, chain: seq<Ptr>, abs: seq<Resource>, i: nat)
    requires i < |chain| == |abs|
  {
    chain[i] in nodes && ResourceOf(nodes[chain[i]].data) == abs[i]
  }

  /** resptr leads from every registered object to its own node. */
  ghost predicate StackReg(stacks: map<Ptr, RTupDescStack>, rsNodes: map<Ptr, Link<Registration>>, S: Ptr)
    requires S in stacks
  {
    stacks[S].resPtr in rsNodes && ResourceOf(rsNodes[stacks[S].resPtr].data) == StackRes(S)
  }

  ghost predicate CursorReg(cursors: map<Ptr, LuaCursor>, rsNodes: map<Ptr, Link<Registration>>, abs: seq<Resource>, c: Ptr)
    requires c in cursors
  {
    && (cursors[c].resPtr == NULL <==> CursorRes(c) !in abs)
    && (cursors[c].resPtr != NULL ==>
          cursors[c].resPtr in rsNodes && ResourceOf(rsNodes[cursors[c].resPtr].data) == CursorRes(c))
  }

  ghost predicate CursorsSim(cursors: map<Ptr, LuaCursor>, queues: map<Ptr, TupleQueue>, abs: map<Ptr, Cursor>) {
    && cursors.Keys == abs.Keys
    && (forall c {:trigger CursorSim(cursors[c], queues, abs[c])} :: c in cursors ==> CursorSim(cursors[c], queues, abs[c]))
    && (forall c, e :: c in cursors && e in cursors && c != e && cursors[c].tupleQueue != NULL ==>
          cursors[c].tupleQueue != cursors[e].tupleQueue)
  }

  ghost predicate CursorSim(cur: LuaCursor, queues: map<Ptr, TupleQueue>, a: Cursor) {
    && cur.portal == a.portal && cur.rtupdesc == a.desc
    && (cur.tupleQueue == NULL <==> a.queue.None?)
    && (cur.tupleQueue != NULL ==>
          cur.tupleQueue in queues && queues[cur.tupleQueue].Holds(a.queue.value))
  }

  ghost predicate RowsSim(rows: map<Ptr, LuaTuple>, owners: map<Holder, Ptr>, abs: map<Ptr, Datum>) {
    && rows.Keys == abs.Keys
    && (forall r {:trigger RowSim(rows, owners, abs, r)} :: r in rows ==> RowSim(rows, owners, abs, r))
  }

  ghost predicate RowSim(rows: map<Ptr, LuaTuple>, owners: map<Holder, Ptr>, abs: map<Ptr, Datum>, r: Ptr)
    requires r in rows && r in abs
  {
    rows[r].tuple == abs[r] && ByRow(r) in owners && owners[ByRow(r)] == rows[r].rtupdesc
  }

  /** Cursors, queues and rows represent the ledger's. */
  ghost predicate ObjectsSim(cursors: map<Ptr, LuaCursor>, queues: map<Ptr, TupleQueue>, rows: map<Ptr, LuaTuple>, s: State) {
    match s
    case State(descs, stacks, owners, absCursors, absRows, resources, cells, current, count) =>
      CursorsSim(cursors, queues, absCursors) && RowsSim(rows, owners, absRows)
  }
}
