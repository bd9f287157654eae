/** The tuple-descriptor protocol without its pointers: descriptors with reference
    counts, per-call stacks that own their TupleDescs, the transaction's resource
    list, and the row cursors.  Runtime.dfy refines these operations with the linked
    structures of the C files. */
module Ledger {
  import opened Memory

  /** The identity of a result row. */
  type Datum = int

  /** Whoever keeps a counted reference to a descriptor: a tuple or tuptable userdata,
      a cursor that is iterating, or a row (queued or delivered). */
  datatype Holder = ByUserdata(p: Ptr) | ByCursor(p: Ptr) | ByRow(p: Ptr)

  /** live: tupdesc is not NULL.  home: the stack that weakNodeStk leads to.
      loose: history, the descriptor was made while no stack was current. */
  datatype Desc = Desc(refs: int, live: bool, home: Ptr, loose: bool)

  /** cell is the funcxt_wp variable (cleanup_ptr) of a weak stack, NULL otherwise. */
  datatype Stack = Stack(refs: int, items: seq<Ptr>, cell: Ptr)

  datatype Resource = StackRes(stack: Ptr) | CursorRes(cursor: Ptr)

  datatype Cursor = Cursor(desc: Ptr, queue: Option<seq<Ptr>>, portal: Option<seq<Datum>>)

  datatype State = State(
    descs: map<Ptr, Desc>,
    stacks: map<Ptr, Stack>,
    owners: map<Holder, Ptr>,
    cursors: map<Ptr, Cursor>,
    rows: map<Ptr, Datum>,
    resources: seq<Resource>,
    cells: map<Ptr, Ptr>,
    current: Ptr,
    count: int)

  const EMPTY := State(map[], map[], map[], map[], map[], [], map[], NULL, 0)

  // ---------- The invariant ----------

  ghost function HoldersOf(owners: map<Holder, Ptr>, d: Ptr): set<Holder> {
    set h | h in owners && owners[h] == d
  }

  ghost function LiveDescs(descs: map<Ptr, Desc>): set<Ptr> {
    set d | d in descs && descs[d].live
  }

  /** A stack lists exactly the live descriptors whose weak pointer leads to it. */
  ghost predicate HomesOk(descs: map<Ptr, Desc>, stacks: map<Ptr, Stack>) {
    && NULL !in descs && NULL !in stacks
    && (forall S :: S in stacks ==> ItemsOk(descs, S, stacks[S].items))
    && (forall d :: d in descs ==> HomeOk(descs[d], d, stacks))
  }

  ghost predicate ItemsOk(descs: map<Ptr, Desc>, S: Ptr, items: seq<Ptr>) {
    Distinct(items) && forall d {:trigger d in items} :: d in items ==> d in descs && descs[d].home == S
  }

  ghost predicate HomeOk(desc: Desc, d: Ptr, stacks: map<Ptr, Stack>) {
    && (desc.home != NULL ==> desc.home in stacks && d in stacks[desc.home].items && desc.live)
    && (desc.live ==> (desc.loose <==> desc.home == NULL))
    && (desc.loose ==> desc.live)
  }

  /** The refcount ledger: nobody holds a dead descriptor and every holder is counted. */
  ghost predicate RefsOk(descs: map<Ptr, Desc>, owners: map<Holder, Ptr>) {
    && (forall h :: h in owners ==> owners[h] in descs)
    && (forall d :: d in descs ==> descs[d].refs >= 1 && |HoldersOf(owners, d)| <= descs[d].refs)
  }

  /** obj_count is the number of TupleDescs in memory. */
  ghost predicate CountOk(descs: map<Ptr, Desc>, count: int) {
    count == |LiveDescs(descs)|
  }

  ghost predicate RegisteredOk(resources: seq<Resource>, stacks: set<Ptr>, cursors: set<Ptr>) {
    && Distinct(resources)
    && (forall S :: StackRes(S) in resources <==> S in stacks)
    && (forall c :: CursorRes(c) in resources ==> c in cursors)
  }

  /** A function's weak cell is NULL or leads to the one stack that leads back. */
  ghost predicate CellsOk(cells: map<Ptr, Ptr>, stacks: map<Ptr, Stack>) {
    && NULL !in cells
    && (forall c {:trigger CellTo(cells, stacks, c)} :: c in cells ==> CellTo(cells, stacks, c))
    && (forall S {:trigger CellFrom(cells, stacks, S)} :: S in stacks ==> CellFrom(cells, stacks, S))
  }

  ghost predicate CellTo(cells: map<Ptr, Ptr>, stacks: map<Ptr, Stack>, c: Ptr)
    requires c in cells
  {
    cells[c] != NULL ==> cells[c] in stacks && stacks[cells[c]].cell == c
  }

  ghost predicate CellFrom(cells: map<Ptr, Ptr>, stacks: map<Ptr, Stack>, S: Ptr)
    requires S in stacks
  {
    stacks[S].cell != NULL ==> stacks[S].cell in cells && cells[stacks[S].cell] == S
  }

  /** Rows and iterating cursors are holders; no row is in two queues, and no two
      cursors hold the same descriptor. */
  ghost predicate CursorsOk(owners: map<Holder, Ptr>, cursors: map<Ptr, Cursor>, rows: map<Ptr, Datum>) {
    && NULL !in cursors && NULL !in rows
    && (forall r :: r in rows <==> ByRow(r) in owners)
    && (forall c :: ByCursor(c) in owners ==> HasQueue(cursors, c) && cursors[c].desc == owners[ByCursor(c)])
    && (forall c, c' :: ByCursor(c) in owners && ByCursor(c') in owners && owners[ByCursor(c)] == owners[ByCursor(c')] ==> c == c')
    && (forall c :: HasQueue(cursors, c) ==> QueueOk(owners, cursors[c], c, rows))
    && (forall c, c' :: HasQueue(cursors, c) && HasQueue(cursors, c') && c != c' ==>
          Elements(cursors[c].queue.value) !! Elements(cursors[c'].queue.value))
  }

  predicate HasQueue(cursors: map<Ptr, Cursor>, c: Ptr) {
    c in cursors && cursors[c].queue.Some?
  }

  /** A cursor with a queue holds its descriptor, and so does every queued row. */
  ghost predicate QueueOk(owners: map<Holder, Ptr>, cur: Cursor, c: Ptr, rows: map<Ptr, Datum>)
    requires cur.queue.Some?
  {
    && ByCursor(c) in owners
    && Distinct(cur.queue.value)
    && (forall r :: r in cur.queue.value ==> r in rows && ByRow(r) in owners && owners[ByRow(r)] == cur.desc)
  }

  /** A registered cursor has an open portal, and a descriptor only while it holds it. */
  ghost predicate IterOk(owners: map<Holder, Ptr>, cursors: map<Ptr, Cursor>, resources: seq<Resource>) {
    forall c :: CursorRes(c) in resources && c in cursors ==>
      cursors[c].portal.Some? && (cursors[c].desc != NULL ==> ByCursor(c) in owners)
  }

  /** Descriptors, stacks and weak cells fit together. */
  ghost predicate Core(s: State) {
    match s
    case State(descs, stacks, owners, cursors, rows, resources, cells, current, count) =>
      && HomesOk(descs, stacks)
      && RefsOk(descs, owners)
      && CountOk(descs, count)
      && CellsOk(cells, stacks)
  }

  /** The memory is sound, whoever is still registered for the sweep. */
  ghost predicate Sound(s: State) {
    match s
    case State(descs, stacks, owners, cursors, rows, resources, cells, current, count) =>
      Core(s) && CursorsOk(owners, cursors, rows)
  }

  ghost predicate Valid(s: State) {
    match s
    case State(descs, stacks, owners, cursors, rows, resources, cells, current, count) =>
      && Sound(s)
      && RegisteredOk(resources, stacks.Keys, cursors.Keys)
      && IterOk(owners, cursors, resources)
  }

  // ---------- Descriptors (rtupdesc.c) ----------

  /** current may be stale only if nobody pushes on it. */
  predicate CurrentOk(s: State) {
    s.current == NULL || s.current in s.stacks
  }

  function Make(s: State, d: Ptr, h: Holder): State
    requires CurrentOk(s)
  {
    s.(descs := s.descs[d := Desc(1, true, s.current, s.current == NULL)],
       stacks := if s.current == NULL then s.stacks
                 else s.stacks[s.current := s.stacks[s.current].(items := [d] + s.stacks[s.current].items)],
       owners := s.owners[h := d],
       count := s.count + 1)
  }

  function AddRef(s: State, d: Ptr, h: Holder): State
    requires d in s.descs
  {
    s.(descs := s.descs[d := s.descs[d].(refs := s.descs[d].refs + 1)],
       owners := s.owners[h := d])
  }

  function Forget(s: State, h: Holder): State {
    s.(owners := s.owners - {h})
  }

  function Delete<T(==)>(q: seq<T>, x: T): seq<T> {
    if q == [] then [] else if q[0] == x then q[1..] else [q[0]] + Delete(q[1..], x)
  }

  function Destroy(s: State, d: Ptr): State
    requires d in s.descs && (s.descs[d].home != NULL ==> s.descs[d].home in s.stacks)
  {
    var home := s.descs[d].home;
    s.(descs := s.descs - {d},
       stacks := if home == NULL then s.stacks
                 else s.stacks[home := s.stacks[home].(items := Delete(s.stacks[home].items, d))],
       count := if s.descs[d].live then s.count - 1 else s.count)
  }

  /** What unref does to the descriptor's record. */
  function Release(s: State, d: Ptr): State
    requires d in s.descs && (s.descs[d].home != NULL ==> s.descs[d].home in s.stacks)
  {
    if s.descs[d].refs == 1 then Destroy(s, d)
    else s.(descs := s.descs[d := s.descs[d].(refs := s.descs[d].refs - 1)])
  }

  function Unref(s: State, h: Holder): State
    requires HomesOk(s.descs, s.stacks) && RefsOk(s.descs, s.owners) && h in s.owners
  {
    Release(Forget(s, h), s.owners[h])
  }

  // ---------- Stacks (rtupdescstk.c) ----------

  function NewStack(s: State, S: Ptr, cell: Ptr): State {
    s.(stacks := s.stacks[S := Stack(0, [], cell)],
       resources := [StackRes(S)] + s.resources,
       cells := if cell == NULL then s.cells else s.cells[cell := S])
  }

  function SetRefs(s: State, S: Ptr, n: int): State
    requires S in s.stacks
  {
    s.(stacks := s.stacks[S := s.stacks[S].(refs := n)])
  }

  function Detach(descs: map<Ptr, Desc>, items: seq<Ptr>): map<Ptr, Desc> {
    map d | d in descs :: if d in items then descs[d].(live := false, home := NULL) else descs[d]
  }

  /** Free every TupleDesc on the stack and cut its weak pointer. */
  function Clean(s: State, S: Ptr): State
    requires S in s.stacks
  {
    var items := s.stacks[S].items;
    s.(descs := Detach(s.descs, items),
       stacks := s.stacks[S := s.stacks[S].(items := [])],
       count := s.count - |items|)
  }

  /** Clean the stack, free it, and clear its weak cell. */
  function Dismantle(s: State, S: Ptr): State
    requires S in s.stacks
  {
    var cell := s.stacks[S].cell;
    var s1 := Clean(s, S);
    s1.(stacks := s1.stacks - {S}, cells := if cell == NULL then s1.cells else s1.cells[cell := NULL])
  }

  function Unregister(s: State, r: Resource): State {
    s.(resources := Delete(s.resources, r))
  }

  function FreeIfNotUsed(s: State, S: Ptr): State
    requires S in s.stacks
  {
    if s.stacks[S].refs == 0 then Unregister(Dismantle(s, S), StackRes(S)) else s
  }

  function UnrefStack(s: State, S: Ptr): State
    requires S in s.stacks
  {
    FreeIfNotUsed(SetRefs(s, S, s.stacks[S].refs - 1), S)
  }

  function TryClean(s: State, S: Ptr): State
    requires S in s.stacks
  {
    var s1 := SetRefs(s, S, s.stacks[S].refs - 1);
    if s1.stacks[S].refs == 0 then Clean(s1, S) else s1
  }

  // ---------- Cursors and rows (plluaspi.c) ----------

  const FETCH_CSR_Q := 50

  function OpenCursor(s: State, c: Ptr, portal: seq<Datum>): State {
    s.(cursors := s.cursors[c := Cursor(NULL, None, Some(portal))], resources := [CursorRes(c)] + s.resources)
  }

  function WithCursor(s: State, c: Ptr, cur: Cursor): State {
    s.(cursors := s.cursors[c := cur])
  }

  /** A row is copied out of the fetched batch and queued. */
  function AddRow(s: State, c: Ptr, r: Ptr, x: Datum): State
    requires c in s.cursors && s.cursors[c].queue.Some? && s.cursors[c].desc in s.descs
  {
    var s1 := AddRef(s, s.cursors[c].desc, ByRow(r));
    WithCursor(s1.(rows := s1.rows[r := x]), c, s.cursors[c].(queue := Some(s.cursors[c].queue.value + [r])))
  }

  function AddRows(s: State, c: Ptr, rs: seq<Ptr>, xs: seq<Datum>): (s': State)
    requires c in s.cursors && s.cursors[c].queue.Some? && s.cursors[c].desc in s.descs
    requires |rs| == |xs|
    ensures c in s'.cursors && s'.cursors[c].queue.Some? && s'.cursors[c].desc == s.cursors[c].desc
    ensures s'.descs.Keys == s.descs.Keys && s'.cursors.Keys == s.cursors.Keys
    decreases |rs|
  {
    if rs == [] then s
    else AddRow(AddRows(s, c, rs[..|rs| - 1], xs[..|xs| - 1]), c, rs[|rs| - 1], xs[|xs| - 1])
  }

  function Batch(xs: seq<Datum>): seq<Datum> {
    if |xs| <= FETCH_CSR_Q then xs else xs[..FETCH_CSR_Q]
  }

  predicate NeedsFetch(s: State, c: Ptr)
    requires c in s.cursors
  {
    s.cursors[c].queue == None || s.cursors[c].queue == Some([])
  }

  /** A drained queue is freed before anything else happens. */
  function WithoutEmptyQueue(s: State, c: Ptr): State
    requires c in s.cursors
  {
    if s.cursors[c].queue == Some([]) then WithCursor(s, c, s.cursors[c].(queue := None)) else s
  }

  /** The cursor with an empty queue and its batch taken off the portal; the first time
      it also makes its descriptor, at the address d. */
  function Started(s: State, c: Ptr, d: Ptr): (s': State)
    requires c in s.cursors && s.cursors[c].portal.Some? && (s.cursors[c].desc == NULL ==> CurrentOk(s))
    ensures s'.rows == s.rows && s'.cells == s.cells
  {
    var cur := s.cursors[c];
    var rest := cur.portal.value[|Batch(cur.portal.value)|..];
    if cur.desc == NULL
    then WithCursor(Make(s, d, ByCursor(c)), c, Cursor(d, Some([]), Some(rest)))
    else WithCursor(s, c, Cursor(cur.desc, Some([]), Some(rest)))
  }

  /** The refill; rs are the addresses palloc hands out for the rows. */
  function Fill(s: State, c: Ptr, d: Ptr, rs: seq<Ptr>): State
    requires c in s.cursors && s.cursors[c].portal.Some? && (s.cursors[c].desc == NULL ==> CurrentOk(s))
    requires |rs| == |Batch(s.cursors[c].portal.value)|
    requires s.cursors[c].desc != NULL ==> s.cursors[c].desc in s.descs
  {
    AddRows(Started(s, c, d), c, rs, Batch(s.cursors[c].portal.value))
  }

  function Dequeue(s: State, c: Ptr): State
    requires c in s.cursors && s.cursors[c].queue.Some? && s.cursors[c].queue.value != []
  {
    WithCursor(s, c, s.cursors[c].(queue := Some(s.cursors[c].queue.value[1..])))
  }

  /** What the cursor's rtupdesc field holds after its unref: NULL if that was the last. */
  function DescAfterUnref(s: State, d: Ptr): Ptr {
    if d in s.descs && s.descs[d].refs == 1 then NULL else d
  }

  /** The portal is exhausted: give up the descriptor and the registration. */
  function Finish(s: State, c: Ptr): State
    requires HomesOk(s.descs, s.stacks) && RefsOk(s.descs, s.owners) && c in s.cursors
  {
    var cur := s.cursors[c];
    var s1 := if ByCursor(c) in s.owners then Unref(s, ByCursor(c)) else s;
    Unregister(WithCursor(s1, c, Cursor(DescAfterUnref(s, cur.desc), None, None)), CursorRes(c))
  }

  function OwnersWithout(owners: map<Holder, Ptr>, q: seq<Ptr>): map<Holder, Ptr> {
    map h | h in owners && !(h.ByRow? && h.p in q) :: owners[h]
  }

  /** Throw the queue away: rows are freed without giving back their references. */
  function DropQueue(s: State, c: Ptr, q: seq<Ptr>): State
    requires c in s.cursors
  {
    s.(rows := s.rows - Elements(q),
       owners := OwnersWithout(s.owners, q),
       cursors := s.cursors[c := s.cursors[c].(queue := None)])
  }

  function Cleanup(s: State, c: Ptr): State
    requires c in s.cursors && Sound(s)
  {
    if s.cursors[c].queue.None? then s
    else
      var d := s.cursors[c].desc;
      var s1 := Release(Forget(DropQueue(s, c, s.cursors[c].queue.value), ByCursor(c)), d);
      WithCursor(s1, c, s1.cursors[c].(desc := DescAfterUnref(s, d)))
  }

  /** The row iterator: the new state and the row it delivers, None for nil. */
  function NextRow(s: State, c: Ptr, d: Ptr, rs: seq<Ptr>): (State, Option<Ptr>)
    requires Valid(s) && CanFetch(s, c, d, rs)
  {
    if !NeedsFetch(s, c) then (Dequeue(s, c), Some(s.cursors[c].queue.value[0]))
    else if s.cursors[c].portal.value == [] then (Finish(s, c), None)
    else
      FillMakesQueue(s, c, d, rs);
      var s1 := Fill(s, c, d, rs);
      (Dequeue(s1, c), Some(s1.cursors[c].queue.value[0]))
  }

  /** What the iterator's caller must respect: the cursor is registered or still has rows
      queued, and palloc hands out fresh addresses if a batch is due. */
  ghost predicate CanCall(s: State, c: Ptr, d: Ptr, rs: seq<Ptr>)
    requires Valid(s)
  {
    && c in s.cursors && (CursorRes(c) in s.resources || !NeedsFetch(s, c))
    && (NeedsFetch(s, c) && s.cursors[c].portal.value != [] ==>
          && |rs| == |Batch(s.cursors[c].portal.value)|
          && Distinct(rs)
          && (forall r :: r in rs ==> r != NULL && r !in s.rows)
          && (s.cursors[c].desc == NULL ==> CurrentOk(s) && d != NULL && d !in s.descs))
  }

  /** A batch is due, there is one, and the descriptor has lost its TupleDesc since the
      last batch. */
  predicate RefillCrashes(s: State, c: Ptr)
    requires c in s.cursors
  {
    && NeedsFetch(s, c) && s.cursors[c].portal.Some? && s.cursors[c].portal.value != []
    && s.cursors[c].desc in s.descs && !s.descs[s.cursors[c].desc].live
  }

  /** A call that delivers; Iterator.CrashesExactly says what happens to the others. */
  ghost predicate CanFetch(s: State, c: Ptr, d: Ptr, rs: seq<Ptr>)
    requires Valid(s)
  {
    CanCall(s, c, d, rs) && !RefillCrashes(s, c)
  }

  lemma {:induction false} AddRowsQueue(s: State, c: Ptr, rs: seq<Ptr>, xs: seq<Datum>)
    requires c in s.cursors && s.cursors[c].queue.Some? && s.cursors[c].desc in s.descs
    requires |rs| == |xs|
    ensures AddRows(s, c, rs, xs).cursors == s.cursors[c := s.cursors[c].(queue := Some(s.cursors[c].queue.value + rs))]
    decreases |rs|
  {
    if rs == [] {
      assert s.cursors[c].queue.value + rs == s.cursors[c].queue.value;
    } else {
      AddRowsQueue(s, c, rs[..|rs| - 1], xs[..|xs| - 1]);
      assert s.cursors[c].queue.value + rs == s.cursors[c].queue.value + rs[..|rs| - 1] + [rs[|rs| - 1]];
    }
  }

  lemma FillMakesQueue(s: State, c: Ptr, d: Ptr, rs: seq<Ptr>)
    requires c in s.cursors && s.cursors[c].portal.Some? && (s.cursors[c].desc == NULL ==> CurrentOk(s))
    requires |rs| == |Batch(s.cursors[c].portal.value)|
    requires s.cursors[c].desc != NULL ==> s.cursors[c].desc in s.descs
    ensures Fill(s, c, d, rs).cursors ==
      s.cursors[c := Cursor(Started(s, c, d).cursors[c].desc, Some(rs), Some(s.cursors[c].portal.value[|rs|..]))]
  {
    hide AddRows;
    AddRowsQueue(Started(s, c, d), c, rs, Batch(s.cursors[c].portal.value));
    assert [] + rs == rs;
  }

  /** A delivered row is collected: its reference goes back, then the row is freed. */
  function GcRow(s: State, r: Ptr): State
    requires HomesOk(s.descs, s.stacks) && RefsOk(s.descs, s.owners) && ByRow(r) in s.owners
  {
    var s1 := Unref(s, ByRow(r));
    s1.(rows := s1.rows - {r})
  }

  function CloseCursor(s: State, c: Ptr): State
    requires c in s.cursors
  {
    Unregister(WithCursor(s, c, s.cursors[c].(portal := None)), CursorRes(c))
  }

  function GcCursor(s: State, c: Ptr): State
    requires c in s.cursors && Sound(s)
  {
    var s1 := if s.cursors[c].queue.Some? then Unregister(Cleanup(s, c), CursorRes(c)) else s;
    s1.(cursors := s1.cursors - {c})
  }
}
