/** The doubly linked list that both rtupdescstk.c and pllua_xact_cleanup.c embed in
    their nodes, and the proof that its pointer surgery is sequence surgery. */
module IntrusiveList {
  import opened Memory

  datatype Link<T> = Link(data: T, next: Ptr, prev: Ptr, tail: Ptr)

  /** The address at index i, NULL off either end. */
  function At(s: seq<Ptr>, i: int): Ptr {
    if 0 <= i < |s| then s[i] else NULL
  }

  /** The nodes reached from top are exactly the addresses s, in order, and their
      prev, next and tail fields agree with it. */
  ghost predicate Chain<T>(m: map<Ptr, Link<T>>, top: Ptr, owner: Ptr, s: seq<Ptr>) {
    && top == At(s, 0)
    && NULL !in s
    && Distinct(s)
    && (forall n {:trigger n in s} :: n in s ==> n in m && m[n].tail == owner)
    && (forall i {:trigger Linked(m, s, i)} :: 0 <= i < |s| ==> Linked(m, s, i))
  }

  ghost predicate Linked<T>(m: map<Ptr, Link<T>>, s: seq<Ptr>, i: nat)
    requires i < |s|
  {
    s[i] in m && m[s[i]].prev == At(s, i - 1) && m[s[i]].next == At(s, i + 1)
  }

  /** m' keeps every node of m with its data and owner, and leaves the nodes of every
      other list untouched. */
  ghost predicate Keeps<T>(m: map<Ptr, Link<T>>, m': map<Ptr, Link<T>>, owner: Ptr) {
    forall n :: n in m && n in m' ==>
      && m'[n].data == m[n].data
      && m'[n].tail == m[n].tail
      && (m[n].tail != owner ==> m'[n] == m[n])
  }

  /** What push writes: the new node, and the old top's back link. */
  function Pushed<T>(m: map<Ptr, Link<T>>, top: Ptr, owner: Ptr, np: Ptr, data: T): map<Ptr, Link<T>>
    requires top != NULL ==> top in m
  {
    var m1 := m[np := Link(data, top, NULL, owner)];
    if top != NULL then m1[top := m1[top].(prev := np)] else m1
  }

  /** The top after removing np. */
  function TopWithout<T>(m: map<Ptr, Link<T>>, top: Ptr, np: Ptr): Ptr
    requires np in m
  {
    if top == np then m[np].next else top
  }

  /** What removal of np writes, from anywhere in its list. */
  function Unlinked<T>(m: map<Ptr, Link<T>>, top: Ptr, np: Ptr): map<Ptr, Link<T>>
    requires np in m && m[np].prev != np && m[np].next != np
    requires m[np].next != NULL ==> m[np].next in m
    requires m[np].prev != NULL ==> m[np].prev in m
  {
    var n := m[np];
    var m1 :=
      if top == np then
        if n.next != NULL then m[n.next := m[n.next].(prev := NULL)] else m
      else
        var m0 := if n.prev != NULL then m[n.prev := m[n.prev].(next := n.next)] else m;
        if n.next != NULL then m0[n.next := m0[n.next].(prev := n.prev)] else m0;
    m1 - {np}
  }

  lemma PushIsCons<T>(m: map<Ptr, Link<T>>, top: Ptr, owner: Ptr, s: seq<Ptr>, np: Ptr, data: T)
    requires Chain(m, top, owner, s)
    requires np != NULL && np !in m
    ensures top != NULL ==> top in m
    ensures var m' := Pushed(m, top, owner, np, data);
      && Chain(m', np, owner, [np] + s)
      && Keeps(m, m', owner)
      && m'.Keys == m.Keys + {np} && m'[np].data == data && m'[np].tail == owner
  {
    if s != [] { assert Linked(m, s, 0) && s[0] in s; }
    var m' := Pushed(m, top, owner, np, data);
    var s' := [np] + s;
    assert np !in s;
    forall i | 0 <= i < |s'| ensures Linked(m', s', i) {
      if i > 0 { assert Linked(m, s, i - 1) && s'[i] == s[i - 1]; }
    }
  }

  /** The neighbours of an element, before and after it is taken out. */
  lemma Neighbours(s: seq<Ptr>, i: nat, j: nat)
    requires i < |s| && j < |s| - 1 && Distinct(s) && NULL !in s
    ensures var s', k := Without(s, i), if j < i then j else j + 1;
      && s'[j] == s[k] && s[k] != s[i]
      && At(s', j - 1) == (if s[k] == At(s, i + 1) then At(s, i - 1) else At(s, k - 1))
      && At(s', j + 1) == (if s[k] == At(s, i - 1) then At(s, i + 1) else At(s, k + 1))
  {
  }

  lemma UnlinkIsRemove<T>(m: map<Ptr, Link<T>>, top: Ptr, owner: Ptr, s: seq<Ptr>, i: nat)
    requires Chain(m, top, owner, s)
    requires i < |s|
    ensures s[i] in m && m[s[i]].next == At(s, i + 1) && m[s[i]].prev == At(s, i - 1)
    ensures m[s[i]].next != s[i] && m[s[i]].prev != s[i]
    ensures m[s[i]].next != NULL ==> m[s[i]].next in m
    ensures m[s[i]].prev != NULL ==> m[s[i]].prev in m
    ensures var m' := Unlinked(m, top, s[i]);
      && Chain(m', TopWithout(m, top, s[i]), owner, Without(s, i))
      && Keeps(m, m', owner)
      && m'.Keys == m.Keys - {s[i]}
  {
    assert Linked(m, s, i) && s[i] in s;
    assert i > 0 ==> s[i - 1] in s;
    assert i + 1 < |s| ==> s[i + 1] in s;
    var np := s[i];
    var m' := Unlinked(m, top, np);
    var s' := Without(s, i);
    assert top == np <==> i == 0;
    assert m'.Keys == m.Keys - {np};
    WithoutElements(s, i);
    assert Distinct(s') && NULL !in s' by {
      forall j | 0 <= j < |s'| ensures s'[j] == s[if j < i then j else j + 1] {}
    }
    forall j | 0 <= j < |s'| ensures Linked(m', s', j) {
      Neighbours(s, i, j);
      UnlinkEffect(m, top, owner, s, i, if j < i then j else j + 1);
    }
  }

  lemma WithoutElements<T>(s: seq<T>, i: nat)
    requires i < |s| && Distinct(s)
    ensures forall x :: x in s && x != s[i] ==> x in Without(s, i)
    ensures forall x :: x in Without(s, i) ==> x in s && x != s[i]
  {
    var w := Without(s, i);
    assert forall j :: 0 <= j < |w| ==> w[j] == s[if j < i then j else j + 1];
    forall x | x in s && x != s[i] ensures x in w {
      var j :| 0 <= j < |s| && s[j] == x;
      assert w[if j < i then j else j - 1] == x;
    }
  }

  lemma UnlinkEffect<T>(m: map<Ptr, Link<T>>, top: Ptr, owner: Ptr, s: seq<Ptr>, i: nat, k: nat)
    requires Chain(m, top, owner, s)
    requires i < |s| && k < |s| && k != i
    requires s[i] in m && m[s[i]].prev != s[i] && m[s[i]].next != s[i]
    requires m[s[i]].next != NULL ==> m[s[i]].next in m
    requires m[s[i]].prev != NULL ==> m[s[i]].prev in m
    ensures var m' := Unlinked(m, top, s[i]);
      && s[k] in m'
      && m'[s[k]] == m[s[k]].(prev := if s[k] == At(s, i + 1) then At(s, i - 1) else At(s, k - 1),
                              next := if s[k] == At(s, i - 1) then At(s, i + 1) else At(s, k + 1))
  {
    assert Linked(m, s, i) && Linked(m, s, k);
    assert s[k] in s && s[i] in s;
  }

  /** A list is not disturbed by surgery on another one. */
  lemma OtherChain<T>(m: map<Ptr, Link<T>>, m': map<Ptr, Link<T>>, owner: Ptr,
                      top: Ptr, other: Ptr, s: seq<Ptr>)
    requires Chain(m, top, other, s) && other != owner
    requires Keeps(m, m', owner)
    requires forall n :: n in m && m[n].tail == other ==> n in m'
    ensures Chain(m', top, other, s)
  {
    forall i | 0 <= i < |s| ensures Linked(m', s, i) { assert Linked(m, s, i) && s[i] in s; }
  }

  /** A well linked list determines the sequence: both directions of "it is this list". */
  lemma {:induction false} ChainIsUnique<T>(m: map<Ptr, Link<T>>, top: Ptr, owner: Ptr, s: seq<Ptr>, t: seq<Ptr>)
    requires Chain(m, top, owner, s) && Chain(m, top, owner, t)
    ensures s == t
  {
    SamePrefix(m, top, owner, s, t, |s|);
    SamePrefix(m, top, owner, t, s, |t|);
  }

  lemma {:induction false} SamePrefix<T>(m: map<Ptr, Link<T>>, top: Ptr, owner: Ptr, s: seq<Ptr>, t: seq<Ptr>, n: nat)
    requires Chain(m, top, owner, s) && Chain(m, top, owner, t) && n <= |s|
    ensures n <= |t| && s[..n] == t[..n]
  {
    if n > 0 {
      SamePrefix(m, top, owner, s, t, n - 1);
      if n == 1 {
        assert At(s, 0) == At(t, 0);
      } else {
        assert s[n - 2] == s[..n - 1][n - 2] == t[..n - 1][n - 2] == t[n - 2];
        assert Linked(m, s, n - 2) && Linked(m, t, n - 2);
        assert At(s, n - 1) == At(t, n - 1);
      }
      assert s[..n] == s[..n - 1] + [s[n - 1]];
      assert t[..n] == t[..n - 1] + [t[n - 1]];
    }
  }
}
