/** The end-of-transaction sweep: any order of the registered resources gives the
    same memory, every destructor runs once, and a second sweep finds nothing. */
module Sweep {
  import opened Memory
  import opened Ledger
  import opened LedgerProofs
  import opened CursorProofs

  predicate Present(s: State, r: Resource) {
    match r
    case StackRes(S) => S in s.stacks
    case CursorRes(c) => c in s.cursors
  }

  /** The registered destructor: force_free for a stack, cursor_cleanup for a cursor. */
  function Destruct(s: State, r: Resource): State
    requires Sound(s) && Present(s, r)
  {
    match r
    case StackRes(S) => Dismantle(s, S)
    case CursorRes(c) => Cleanup(s, c)
  }

  ghost predicate Sweepable(s: State, rs: seq<Resource>) {
    match s
    case State(descs, stacks, owners, cursors, rows, resources, cells, current, count) =>
      Sound(s) && Distinct(rs) && forall r :: r in rs ==> Present(s, r)
  }

  lemma DestructKeeps(s: State, r: Resource)
    requires Sound(s) && Present(s, r)
    ensures Sound(Destruct(s, r))
    ensures forall r' :: r' != r && Present(s, r') ==> Present(Destruct(s, r), r')
    ensures Destruct(s, r).resources == s.resources
  {
    match r
    case StackRes(S) => DismantleKeeps(s, S);
    case CursorRes(c) =>
      CleanupKeeps(s, c);
      CleanupFrame(s, c);
  }

  lemma DestructFirst(s: State, rs: seq<Resource>)
    requires Sweepable(s, rs) && rs != []
    ensures Sweepable(Destruct(s, rs[0]), rs[1..])
  {
    DestructKeeps(s, rs[0]);
    forall r | r in rs[1..] ensures r != rs[0] && r in rs { }
  }

  function DestructAll(s: State, rs: seq<Resource>): State
    requires Sweepable(s, rs)
    decreases |rs|
  {
    if rs == [] then s
    else
      DestructFirst(s, rs);
      DestructAll(Destruct(s, rs[0]), rs[1..])
  }

  function SweepAll(s: State): State
    requires Sweepable(s, s.resources)
  {
    DestructAll(s.(resources := []), s.resources)
  }

  // ---------- Two destructors commute ----------

  lemma DetachCommutes(descs: map<Ptr, Desc>, a: seq<Ptr>, b: seq<Ptr>)
    ensures Detach(Detach(descs, a), b) == Detach(Detach(descs, b), a)
  {
  }

  function ClearCell(cells: map<Ptr, Ptr>, cell: Ptr): map<Ptr, Ptr> {
    if cell == NULL then cells else cells[cell := NULL]
  }

  lemma DismantleForm(s: State, S: Ptr)
    requires S in s.stacks
    ensures Dismantle(s, S) == s.(descs := Detach(s.descs, s.stacks[S].items),
                                  stacks := s.stacks - {S},
                                  cells := ClearCell(s.cells, s.stacks[S].cell),
                                  count := s.count - |s.stacks[S].items|)
  {
    assert Clean(s, S).stacks - {S} == s.stacks - {S};
  }

  lemma StacksCommute(s: State, S: Ptr, T: Ptr)
    requires S in s.stacks && T in s.stacks && S != T
    ensures Dismantle(Dismantle(s, S), T) == Dismantle(Dismantle(s, T), S)
  {
    hide Detach, Dismantle;
    DismantleForm(s, S);
    DismantleForm(s, T);
    DismantleForm(Dismantle(s, S), T);
    DismantleForm(Dismantle(s, T), S);
    DetachCommutes(s.descs, s.stacks[S].items, s.stacks[T].items);
    assert s.stacks - {S} - {T} == s.stacks - {T} - {S};
    assert ClearCell(ClearCell(s.cells, s.stacks[S].cell), s.stacks[T].cell)
        == ClearCell(ClearCell(s.cells, s.stacks[T].cell), s.stacks[S].cell);
  }

  lemma {:induction false} DeleteCommutes<T>(q: seq<T>, x: T, y: T)
    ensures Delete(Delete(q, x), y) == Delete(Delete(q, y), x)
  {
    if q != [] {
      DeleteCommutes(q[1..], x, y);
      if q[0] != x && q[0] != y {
        assert Delete(q, x)[1..] == Delete(q[1..], x);
        assert Delete(q, y)[1..] == Delete(q[1..], y);
      } else if q[0] == x && x != y {
        assert Delete(q, y)[1..] == Delete(q[1..], y);
      } else if q[0] == y && x != y {
        assert Delete(q, x)[1..] == Delete(q[1..], x);
      }
    }
  }

  lemma {:induction false} DeleteLength<T>(q: seq<T>, x: T)
    ensures |Delete(q, x)| == if x in q then |q| - 1 else |q|
    ensures x !in q ==> Delete(q, x) == q
  {
    if q != [] && q[0] != x {
      assert q == [q[0]] + q[1..];
      DeleteLength(q[1..], x);
    }
  }

  function LessDescs(descs: map<Ptr, Desc>, d: Ptr): map<Ptr, Desc>
    requires d in descs
  {
    if descs[d].refs == 1 then descs - {d} else descs[d := descs[d].(refs := descs[d].refs - 1)]
  }

  /** The stacks once a descriptor that counted desc.refs references gives one back. */
  function LessStacks(stacks: map<Ptr, Stack>, d: Ptr, desc: Desc): map<Ptr, Stack>
    requires desc.home != NULL ==> desc.home in stacks
  {
    if desc.refs == 1 && desc.home != NULL
    then stacks[desc.home := stacks[desc.home].(items := Delete(stacks[desc.home].items, d))]
    else stacks
  }

  function LessCount(desc: Desc): int {
    if desc.refs == 1 && desc.live then 1 else 0
  }

  lemma ReleaseForm(s: State, d: Ptr)
    requires d in s.descs && (s.descs[d].home != NULL ==> s.descs[d].home in s.stacks)
    ensures Release(s, d) == s.(descs := LessDescs(s.descs, d),
                                stacks := LessStacks(s.stacks, d, s.descs[d]),
                                count := s.count - LessCount(s.descs[d]))
    ensures Release(s, d).stacks.Keys == s.stacks.Keys
  {
  }

  lemma LessStacksCommute(stacks: map<Ptr, Stack>, d: Ptr, desc: Desc, e: Ptr, esc: Desc)
    requires (desc.home != NULL ==> desc.home in stacks) && (esc.home != NULL ==> esc.home in stacks)
    ensures LessStacks(stacks, d, desc).Keys == LessStacks(stacks, e, esc).Keys == stacks.Keys
    ensures LessStacks(LessStacks(stacks, d, desc), e, esc) == LessStacks(LessStacks(stacks, e, esc), d, desc)
  {
    if desc.home != NULL && desc.home == esc.home {
      DeleteCommutes(stacks[desc.home].items, d, e);
    }
  }

  lemma LessDescsCommute(descs: map<Ptr, Desc>, d: Ptr, e: Ptr)
    requires d in descs && e in descs && d != e
    ensures e in LessDescs(descs, d) && LessDescs(descs, d)[e] == descs[e]
    ensures d in LessDescs(descs, e) && LessDescs(descs, e)[d] == descs[d]
    ensures LessDescs(LessDescs(descs, d), e) == LessDescs(LessDescs(descs, e), d)
  {
  }

  lemma DetachLess(descs: map<Ptr, Desc>, items: seq<Ptr>, d: Ptr)
    requires d in descs && Distinct(items)
    ensures Detach(LessDescs(descs, d), if descs[d].refs == 1 then Delete(items, d) else items)
         == LessDescs(Detach(descs, items), d)
  {
    DeleteProps(items, d);
  }

  /** Giving back a reference before or after a stack is dismantled. */
  lemma ReleaseDismantle(s: State, S: Ptr, d: Ptr)
    requires HomesOk(s.descs, s.stacks) && d in s.descs && S in s.stacks
    ensures s.descs[d].home != NULL ==> s.descs[d].home in s.stacks
    ensures S in Release(s, d).stacks
    ensures var b := Dismantle(s, S);
      && d in b.descs && (b.descs[d].home != NULL ==> b.descs[d].home in b.stacks)
      && b.descs[d].refs == s.descs[d].refs
      && Dismantle(Release(s, d), S) == Release(b, d)
  {
    var desc, items := s.descs[d], s.stacks[S].items;
    var a, b := Release(s, d), Dismantle(s, S);
    assert HomeOk(desc, d, s.stacks) && ItemsOk(s.descs, S, items);
    assert d in items <==> desc.home == S;
    ReleaseForm(s, d);
    DismantleForm(s, S);
    DismantleForm(a, S);
    ReleaseForm(b, d);
    DeleteLength(items, d);
    DetachLess(s.descs, items, d);
    assert b.descs[d] == if d in items then desc.(live := false, home := NULL) else desc;
    LessStacksDrop(s.stacks, S, d, desc);
  }

  lemma LessStacksDrop(stacks: map<Ptr, Stack>, S: Ptr, d: Ptr, desc: Desc)
    requires (desc.home != NULL ==> desc.home in stacks) && S in stacks
    ensures desc.home == S ==> LessStacks(stacks, d, desc) - {S} == stacks - {S}
    ensures desc.home != S ==> LessStacks(stacks, d, desc) - {S} == LessStacks(stacks - {S}, d, desc)
  {
  }

  predicate CanRelease(s: State, d: Ptr) {
    d in s.descs && (s.descs[d].home != NULL ==> s.descs[d].home in s.stacks)
  }

  /** Cleanup in one piece: one reference given back, the queue and its rows gone. */
  function Tidied(s: State, c: Ptr): State
    requires HasQueue(s.cursors, c) && CanRelease(s, s.cursors[c].desc)
  {
    var d := s.cursors[c].desc;
    Release(s, d).(
      owners := OwnersWithout(s.owners, s.cursors[c].queue.value) - {ByCursor(c)},
      rows := s.rows - Elements(s.cursors[c].queue.value),
      cursors := s.cursors[c := Cursor(DescAfterUnref(s, d), None, s.cursors[c].portal)])
  }

  lemma CleanupForm(s: State, c: Ptr)
    requires Sound(s) && HasQueue(s.cursors, c)
    ensures CanRelease(s, s.cursors[c].desc)
    ensures Cleanup(s, c) == Tidied(s, c)
  {
    hide CountOk, CellsOk;
    assert QueueOk(s.owners, s.cursors[c], c, s.rows);
    var d := s.cursors[c].desc;
    assert HomeOk(s.descs[d], d, s.stacks);
    var s1 := Forget(DropQueue(s, c, s.cursors[c].queue.value), ByCursor(c));
    ReleaseForm(s, d);
    ReleaseForm(s1, d);
  }

  lemma StackCursorCommute(s: State, S: Ptr, c: Ptr)
    requires Sound(s) && S in s.stacks && c in s.cursors
    ensures Sound(Dismantle(s, S)) && S in Cleanup(s, c).stacks
    ensures Cleanup(Dismantle(s, S), c) == Dismantle(Cleanup(s, c), S)
  {
    DestructKeeps(s, StackRes(S));
    DestructKeeps(s, CursorRes(c));
    if HasQueue(s.cursors, c) {
      CleanupForm(s, c);
      CleanupForm(Dismantle(s, S), c);
      TidyDismantle(s, S, c);
    }
  }

  lemma TidyDismantle(s: State, S: Ptr, c: Ptr)
    requires HomesOk(s.descs, s.stacks) && S in s.stacks
    requires HasQueue(s.cursors, c) && CanRelease(s, s.cursors[c].desc)
    ensures CanRelease(Dismantle(s, S), s.cursors[c].desc) && S in Tidied(s, c).stacks
    ensures Tidied(Dismantle(s, S), c) == Dismantle(Tidied(s, c), S)
  {
    var d := s.cursors[c].desc;
    DismantleForm(s, S);
    ReleaseDismantle(s, S, d);
    DismantleForm(Release(s, d), S);
    DismantleForm(Tidied(s, c), S);
  }

  lemma OwnersWithoutCommute(owners: map<Holder, Ptr>, q: seq<Ptr>, c: Ptr, p: seq<Ptr>, e: Ptr)
    ensures OwnersWithout(OwnersWithout(owners, q) - {ByCursor(c)}, p) - {ByCursor(e)}
         == OwnersWithout(OwnersWithout(owners, p) - {ByCursor(e)}, q) - {ByCursor(c)}
  {
  }

  lemma CursorsCommute(s: State, c: Ptr, e: Ptr)
    requires Sound(s) && c in s.cursors && e in s.cursors && c != e
    ensures Sound(Cleanup(s, c)) && Sound(Cleanup(s, e))
    ensures c in Cleanup(s, e).cursors && e in Cleanup(s, c).cursors
    ensures Cleanup(Cleanup(s, c), e) == Cleanup(Cleanup(s, e), c)
  {
    DestructKeeps(s, CursorRes(c));
    DestructKeeps(s, CursorRes(e));
    CleanupFrame(s, c);
    CleanupFrame(s, e);
    if HasQueue(s.cursors, c) && HasQueue(s.cursors, e) {
      QueuesCommute(s, c, e);
    }
  }

  lemma QueuesCommute(s: State, c: Ptr, e: Ptr)
    requires Sound(s) && HasQueue(s.cursors, c) && HasQueue(s.cursors, e) && c != e
    requires Sound(Cleanup(s, c)) && Sound(Cleanup(s, e))
    requires e in Cleanup(s, c).cursors && Cleanup(s, c).cursors[e] == s.cursors[e]
    requires c in Cleanup(s, e).cursors && Cleanup(s, e).cursors[c] == s.cursors[c]
    ensures Cleanup(Cleanup(s, c), e) == Cleanup(Cleanup(s, e), c)
  {
    assert QueueOk(s.owners, s.cursors[c], c, s.rows) && QueueOk(s.owners, s.cursors[e], e, s.rows);
    CleanupForm(s, c);
    CleanupForm(s, e);
    CleanupForm(Cleanup(s, c), e);
    CleanupForm(Cleanup(s, e), c);
    TidiesCommute(s, c, e);
  }

  lemma TidiesCommute(s: State, c: Ptr, e: Ptr)
    requires HasQueue(s.cursors, c) && CanRelease(s, s.cursors[c].desc)
    requires HasQueue(s.cursors, e) && CanRelease(s, s.cursors[e].desc)
    requires c != e && s.cursors[c].desc != s.cursors[e].desc
    ensures HasQueue(Tidied(s, c).cursors, e) && CanRelease(Tidied(s, c), Tidied(s, c).cursors[e].desc)
    ensures HasQueue(Tidied(s, e).cursors, c) && CanRelease(Tidied(s, e), Tidied(s, e).cursors[c].desc)
    ensures Tidied(Tidied(s, c), e) == Tidied(Tidied(s, e), c)
  {
    var a, b := Tidied(s, c), Tidied(s, e);
    var d, g := s.cursors[c].desc, s.cursors[e].desc;
    TidyForm(s, c);
    TidyForm(s, e);
    LessDescsCommute(s.descs, d, g);
    LessStacksCommute(s.stacks, d, s.descs[d], g, s.descs[g]);
    TidyForm(a, e);
    TidyForm(b, c);
    OwnersWithoutCommute(s.owners, s.cursors[c].queue.value, c, s.cursors[e].queue.value, e);
    RowsCommute(s.rows, Elements(s.cursors[c].queue.value), Elements(s.cursors[e].queue.value));
    assert Tidied(a, e).cursors == Tidied(b, c).cursors;
  }

  lemma RowsCommute(rows: map<Ptr, Datum>, q: set<Ptr>, p: set<Ptr>)
    ensures rows - q - p == rows - p - q
  {
  }

  lemma TidyForm(s: State, c: Ptr)
    requires HasQueue(s.cursors, c) && CanRelease(s, s.cursors[c].desc)
    ensures var cur, d := s.cursors[c], s.cursors[c].desc;
      Tidied(s, c) == State(
        LessDescs(s.descs, d),
        LessStacks(s.stacks, d, s.descs[d]),
        OwnersWithout(s.owners, cur.queue.value) - {ByCursor(c)},
        s.cursors[c := Cursor(if s.descs[d].refs == 1 then NULL else d, None, cur.portal)],
        s.rows - Elements(cur.queue.value),
        s.resources, s.cells, s.current, s.count - LessCount(s.descs[d]))
  {
    ReleaseForm(s, s.cursors[c].desc);
  }

  lemma DestructsCommute(s: State, a: Resource, b: Resource)
    requires Sound(s) && Present(s, a) && Present(s, b) && a != b
    ensures Sound(Destruct(s, a)) && Present(Destruct(s, a), b)
    ensures Sound(Destruct(s, b)) && Present(Destruct(s, b), a)
    ensures Destruct(Destruct(s, a), b) == Destruct(Destruct(s, b), a)
  {
    DestructKeeps(s, a);
    DestructKeeps(s, b);
    match (a, b)
    case (StackRes(S), StackRes(T)) => StacksCommute(s, S, T);
    case (StackRes(S), CursorRes(c)) => StackCursorCommute(s, S, c);
    case (CursorRes(c), StackRes(S)) => StackCursorCommute(s, S, c);
    case (CursorRes(c), CursorRes(e)) => CursorsCommute(s, c, e);
  }

  // ---------- Any order ----------

  lemma SwapFirstTwo(s: State, a: Resource, b: Resource, rest: seq<Resource>)
    requires Sweepable(s, [a, b] + rest)
    ensures Sweepable(s, [b, a] + rest)
    ensures DestructAll(s, [a, b] + rest) == DestructAll(s, [b, a] + rest)
  {
    SwapSweepable(s, a, b, rest);
    DestructsCommute(s, a, b);
    FirstTwo(s, a, b, rest);
    FirstTwo(s, b, a, rest);
  }

  lemma SwapSweepable(s: State, a: Resource, b: Resource, rest: seq<Resource>)
    requires Sweepable(s, [a, b] + rest)
    ensures Sweepable(s, [b, a] + rest) && a != b && Present(s, a) && Present(s, b)
  {
    var p, q := [a, b] + rest, [b, a] + rest;
    assert p[0] == a && p[1] == b;
    assert forall i :: 0 <= i < |q| ==> q[i] == (if i == 0 then p[1] else if i == 1 then p[0] else p[i]);
  }

  lemma FirstTwo(s: State, a: Resource, b: Resource, rest: seq<Resource>)
    requires Sweepable(s, [a, b] + rest)
    ensures Present(s, a) && Sound(Destruct(s, a)) && Present(Destruct(s, a), b)
    ensures Sweepable(Destruct(Destruct(s, a), b), rest)
    ensures DestructAll(s, [a, b] + rest) == DestructAll(Destruct(Destruct(s, a), b), rest)
  {
    var p := [a, b] + rest;
    assert p[0] == a && p[1..] == [b] + rest && ([b] + rest)[1..] == rest;
    DestructFirst(s, p);
    DestructFirst(Destruct(s, a), [b] + rest);
  }

  /** A resource can be destroyed first instead of i-th. */
  lemma {:induction false} MoveToFront(s: State, rs: seq<Resource>, i: nat)
    requires Sweepable(s, rs) && i < |rs|
    ensures Sweepable(s, [rs[i]] + Without(rs, i))
    ensures DestructAll(s, rs) == DestructAll(s, [rs[i]] + Without(rs, i))
    decreases i
  {
    if i == 0 {
      assert [rs[i]] + Without(rs, i) == rs;
    } else {
      var tail := rs[1..];
      var rest := Without(tail, i - 1);
      var ps := [rs[0], rs[i]] + rest;
      assert [rs[i]] + Without(rs, i) == [rs[i], rs[0]] + rest;
      SecondSweepable(s, rs, i);
      DestructFirst(s, rs);
      DestructFirst(s, ps);
      assert ps[1..] == [tail[i - 1]] + rest;
      MoveToFront(Destruct(s, rs[0]), tail, i - 1);
      SwapFirstTwo(s, rs[0], rs[i], rest);
    }
  }

  lemma SecondSweepable(s: State, rs: seq<Resource>, i: nat)
    requires Sweepable(s, rs) && 0 < i < |rs|
    ensures Sweepable(s, [rs[0], rs[i]] + Without(rs[1..], i - 1))
  {
    var ps := [rs[0], rs[i]] + Without(rs[1..], i - 1);
    assert forall j :: 0 <= j < |rs| ==> ps[j] == rs[if j == 0 then 0 else if j == 1 then i else if j <= i then j - 1 else j];
  }

  /** The order of the resource list does not matter: all orders of the same resources
      leave the same memory. */
  lemma {:induction false} SweepOrderIrrelevant(s: State, rs: seq<Resource>, qs: seq<Resource>)
    requires Sweepable(s, rs) && multiset(rs) == multiset(qs)
    ensures Sweepable(s, qs)
    ensures DestructAll(s, rs) == DestructAll(s, qs)
    decreases |rs|
  {
    SameSweepable(s, rs, qs);
    if rs == [] {
      assert |qs| == |multiset(qs)| == 0;
    } else {
      assert rs[0] in multiset(qs);
      var i :| 0 <= i < |qs| && qs[i] == rs[0];
      MoveToFront(s, qs, i);
      var q1 := [qs[i]] + Without(qs, i);
      SameTail(rs, qs, i);
      DestructFirst(s, rs);
      DestructFirst(s, q1);
      SweepOrderIrrelevant(Destruct(s, rs[0]), rs[1..], q1[1..]);
    }
  }

  lemma SameTail(rs: seq<Resource>, qs: seq<Resource>, i: nat)
    requires multiset(rs) == multiset(qs) && rs != [] && i < |qs| && qs[i] == rs[0]
    ensures multiset(rs[1..]) == multiset(([qs[i]] + Without(qs, i))[1..])
  {
    assert rs == [rs[0]] + rs[1..];
    assert qs == qs[..i] + [qs[i]] + qs[i + 1..];
    assert multiset(rs) - multiset{rs[0]} == multiset(rs[1..]);
    assert multiset(qs) - multiset{rs[0]} == multiset(qs[..i]) + multiset(qs[i + 1..]);
    assert multiset(Without(qs, i)) == multiset(qs[..i]) + multiset(qs[i + 1..]);
    assert ([qs[i]] + Without(qs, i))[1..] == Without(qs, i);
  }

  lemma SameSweepable(s: State, rs: seq<Resource>, qs: seq<Resource>)
    requires Sweepable(s, rs) && multiset(rs) == multiset(qs)
    ensures Sweepable(s, qs)
  {
    DistinctMultiset(rs);
    DistinctMultiset(qs);
    assert forall r :: r in qs <==> r in multiset(qs);
    assert forall r :: r in rs <==> r in multiset(rs);
  }

  lemma {:induction false} DistinctMultiset<T>(rs: seq<T>)
    ensures Distinct(rs) <==> forall r :: multiset(rs)[r] <= 1
  {
    if rs != [] {
      var tail := rs[1..];
      DistinctMultiset(tail);
      assert rs == [rs[0]] + tail;
      assert multiset(rs) == multiset{rs[0]} + multiset(tail);
      if Distinct(rs) {
        assert rs[0] !in tail;
      } else if Distinct(tail) {
        assert rs[0] in tail;
        assert multiset(rs)[rs[0]] > 1;
      }
      assert forall r :: multiset(rs)[r] >= multiset(tail)[r];
    }
  }

  // ---------- What is left ----------

  /** A registered cursor that still holds d when the sweep begins. */
  ghost predicate GivenUp(s: State, rs: seq<Resource>, d: Ptr) {
    exists c :: CursorRes(c) in rs && HasQueue(s.cursors, c) && s.cursors[c].desc == d
  }

  /** What one descriptor's record becomes. */
  function Swept(desc: Desc, stacked: bool, givenUp: bool): Desc {
    Desc(if givenUp then desc.refs - 1 else desc.refs, desc.live && !stacked, if stacked then NULL else desc.home, desc.loose)
  }

  ghost predicate Stacked(s: State, rs: seq<Resource>, d: Ptr)
    requires d in s.descs
  {
    s.descs[d].home != NULL && StackRes(s.descs[d].home) in rs
  }

  lemma VerdictStack(s: State, S: Ptr, rest: seq<Resource>, d: Ptr)
    requires Sweepable(s, [StackRes(S)] + rest) && d in s.descs
    ensures S in s.stacks && d in Dismantle(s, S).descs
    ensures Dismantle(s, S).descs[d] == Swept(s.descs[d], s.descs[d].home == S, false)
    ensures Stacked(s, [StackRes(S)] + rest, d) <==> s.descs[d].home == S || Stacked(Dismantle(s, S), rest, d)
    ensures GivenUp(s, [StackRes(S)] + rest, d) <==> GivenUp(Dismantle(s, S), rest, d)
  {
    var rs := [StackRes(S)] + rest;
    assert Present(s, rs[0]);
    assert rs[0] == StackRes(S) && forall r :: r in rs <==> r == rs[0] || r in rest;
    DismantleForm(s, S);
    assert HomeOk(s.descs[d], d, s.stacks) && ItemsOk(s.descs, S, s.stacks[S].items);
  }

  lemma VerdictCursor(s: State, c: Ptr, rest: seq<Resource>, d: Ptr)
    requires Sweepable(s, [CursorRes(c)] + rest) && d in s.descs
    ensures c in s.cursors
    ensures var s1, rs, mine := Cleanup(s, c), [CursorRes(c)] + rest, HasQueue(s.cursors, c) && s.cursors[c].desc == d;
      && (d in s1.descs <==> !(mine && s.descs[d].refs == 1))
      && (d in s1.descs ==> s1.descs[d] == Swept(s.descs[d], false, mine))
      && (GivenUp(s, rs, d) <==> mine || GivenUp(s1, rest, d))
      && (mine ==> !GivenUp(s1, rest, d))
      && (Stacked(s, rs, d) <==> s.descs[d].home != NULL && StackRes(s.descs[d].home) in rest)
  {
    hide HomesOk, RefsOk, CountOk, CellsOk, Cleanup, Swept;
    var rs := [CursorRes(c)] + rest;
    assert rs[0] == CursorRes(c) && Present(s, rs[0]);
    assert forall r :: r in rs <==> r == rs[0] || r in rest;
    CleanupFrame(s, c);
    CleanedDesc(s, c, d);
    if HasQueue(s.cursors, c) {
      assert QueueOk(s.owners, s.cursors[c], c, s.rows);
      forall e | HasQueue(s.cursors, e) && e != c ensures s.cursors[e].desc != s.cursors[c].desc {
        assert QueueOk(s.owners, s.cursors[e], e, s.rows);
      }
    }
    forall e | e != c && CursorRes(e) in rest
      ensures HasQueue(Cleanup(s, c).cursors, e) <==> HasQueue(s.cursors, e)
    {
      assert CursorRes(e) in rs;
    }
  }

  /** What the cleanup of one cursor does to a descriptor. */
  lemma CleanedDesc(s: State, c: Ptr, d: Ptr)
    requires Sound(s) && c in s.cursors && d in s.descs
    ensures var s1, mine := Cleanup(s, c), HasQueue(s.cursors, c) && s.cursors[c].desc == d;
      && (d in s1.descs <==> !(mine && s.descs[d].refs == 1))
      && (d in s1.descs ==> s1.descs[d] == Swept(s.descs[d], false, mine))
  {
    if HasQueue(s.cursors, c) {
      CleanupForm(s, c);
      TidyForm(s, c);
    }
  }

  /** The whole sweep, one descriptor at a time: it disappears exactly if a swept cursor
      held the last reference, and otherwise loses its TupleDesc exactly if it was on a
      swept stack. */
  lemma {:induction false} SweepVerdict(s: State, rs: seq<Resource>, d: Ptr)
    requires Sweepable(s, rs) && d in s.descs
    ensures var s' := DestructAll(s, rs);
      && (d in s'.descs <==> !(GivenUp(s, rs, d) && s.descs[d].refs == 1))
      && (d in s'.descs ==> s'.descs[d] == Swept(s.descs[d], Stacked(s, rs, d), GivenUp(s, rs, d)))
    decreases |rs|
  {
    if rs != [] {
      assert rs == [rs[0]] + rs[1..];
      match rs[0] {
        case StackRes(S) => VerdictStack(s, S, rs[1..], d);
        case CursorRes(c) => VerdictCursor(s, c, rs[1..], d);
      }
      DestructFirst(s, rs);
      var s1 := Destruct(s, rs[0]);
      if d in s1.descs {
        SweepVerdict(s1, rs[1..], d);
      } else {
        SweepAdds(s1, rs[1..], d);
      }
    }
  }

  lemma {:induction false} SweepAdds(s: State, rs: seq<Resource>, d: Ptr)
    requires Sweepable(s, rs) && d !in s.descs
    ensures d !in DestructAll(s, rs).descs
    decreases |rs|
  {
    if rs != [] {
      DestructFirst(s, rs);
      DestructDescs(s, rs[0]);
      SweepAdds(Destruct(s, rs[0]), rs[1..], d);
    }
  }

  lemma DestructDescs(s: State, r: Resource)
    requires Sound(s) && Present(s, r)
    ensures Destruct(s, r).descs.Keys <= s.descs.Keys
  {
    if r.StackRes? {
      DismantleForm(s, r.stack);
    } else if HasQueue(s.cursors, r.cursor) {
      CleanupForm(s, r.cursor);
      TidyForm(s, r.cursor);
    }
  }

  /** Sound memory does not depend on the resource list. */
  lemma ValidSweepable(s: State)
    requires Valid(s)
    ensures Sweepable(s, s.resources)
    ensures Sweepable(s.(resources := []), s.resources)
  {
    forall r | r in s.resources ensures Present(s, r) && Present(s.(resources := []), r) {
      match r
      case StackRes(S) => assert StackRes(S) in s.resources;
      case CursorRes(c) => assert CursorRes(c) in s.resources;
    }
  }

  lemma {:induction false} DestructAllKeeps(s: State, rs: seq<Resource>)
    requires Sweepable(s, rs)
    ensures var s' := DestructAll(s, rs);
      && Sound(s')
      && s'.resources == s.resources
      && (forall S :: S in s'.stacks <==> S in s.stacks && StackRes(S) !in rs)
      && s'.cells.Keys == s.cells.Keys
    decreases |rs|
  {
    hide HomesOk, RefsOk, CountOk, CursorsOk;
    if rs != [] {
      assert rs == [rs[0]] + rs[1..];
      DestructFirst(s, rs);
      DestructKeeps(s, rs[0]);
      match rs[0] {
        case StackRes(S) => DismantleForm(s, S); assert CellFrom(s.cells, s.stacks, S);
        case CursorRes(c) => CleanupFrame(s, c);
      }
      DestructAllKeeps(Destruct(s, rs[0]), rs[1..]);
    }
  }

  /** The descriptors made while no stack was current. */
  function LooseDescs(descs: map<Ptr, Desc>): set<Ptr> {
    set d | d in descs && descs[d].loose
  }

  /** After the sweep nothing is registered, no stack exists, every weak cell is NULL,
      and the TupleDescs that remain (obj_count of them) are those of the descriptors
      made while no stack was current. */
  lemma SweepEmpties(s: State)
    requires Valid(s)
    ensures Sweepable(s, s.resources)
    ensures var s' := SweepAll(s);
      && Valid(s')
      && s'.resources == [] && s'.stacks == map[]
      && (forall c :: c in s.cells ==> c in s'.cells && s'.cells[c] == NULL)
      && LiveDescs(s'.descs) == LooseDescs(s'.descs)
      && s'.count == |LooseDescs(s'.descs)|
      && SweepAll(s') == s'
  {
    ValidSweepable(s);
    var s0 := s.(resources := []);
    DestructAllKeeps(s0, s.resources);
    var s' := SweepAll(s);
    assert s'.stacks == map[];
    forall c | c in s.cells ensures s'.cells[c] == NULL { assert CellTo(s'.cells, s'.stacks, c); }
    forall d | d in s'.descs ensures s'.descs[d].live <==> s'.descs[d].loose {
      assert HomeOk(s'.descs[d], d, s'.stacks);
    }
    assert LiveDescs(s'.descs) == LooseDescs(s'.descs);
  }

  /** The sweep as the C loop runs it: with r already off the list, run its destructor;
      what remains to be swept gives the same end. */
  lemma SweepTurn(s: State, r: Resource)
    requires Sweepable(s.(resources := []), [r] + s.resources)
    ensures Sound(s) && Present(s, r) && r !in s.resources && Destruct(s, r).resources == s.resources
    ensures Sweepable(Destruct(s, r).(resources := []), s.resources)
    ensures DestructAll(s.(resources := []), [r] + s.resources) == DestructAll(Destruct(s, r).(resources := []), s.resources)
  {
    var rs := [r] + s.resources;
    assert rs[0] == r && rs[1..] == s.resources && rs[0] !in rs[1..];
    assert Present(s.(resources := []), r);
    DestructFirst(s.(resources := []), rs);
    DestructKeeps(s, r);
    DestructResources(s, r, []);
  }

  lemma DestructResources(s: State, r: Resource, rs: seq<Resource>)
    requires Sound(s) && Present(s, r)
    ensures Sound(s.(resources := rs))
    ensures Destruct(s.(resources := rs), r) == Destruct(s, r).(resources := rs)
  {
    var t := s.(resources := rs);
    if r.StackRes? {
      DismantleForm(s, r.stack);
      DismantleForm(t, r.stack);
    } else if HasQueue(s.cursors, r.cursor) {
      CleanupForm(s, r.cursor);
      CleanupForm(t, r.cursor);
      TidyForm(s, r.cursor);
      TidyForm(t, r.cursor);
    }
  }
}
