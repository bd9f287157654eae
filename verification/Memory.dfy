/** The C memory the model runs on.
    An address is a natural number and NULL is 0.  Every kind of record has its own
    finite map from addresses to records: palloc picks any address outside the map,
    pfree removes the address, and a dereference is a map lookup.  The verifier checks
    every lookup, so a method that verifies neither touches freed memory nor frees
    twice, whatever addresses palloc reuses. */
module Memory {
  type Ptr = nat

  const NULL: Ptr := 0

  datatype Option<+T> = None | Some(value: T)

  datatype Result<+T, +E> = Ok(value: T) | Err(error: E)

  /** A finite set of addresses never exhausts the address space. */
  lemma SomethingFree(used: set<Ptr>)
    ensures exists p: Ptr :: p != NULL && p !in used
  {
    var bound := Above(used);
    assert bound != NULL && bound !in used;
  }

  lemma Above(used: set<Ptr>) returns (bound: Ptr)
    ensures bound != NULL && forall p :: p in used ==> p < bound
  {
    if used == {} {
      bound := 1;
    } else {
      var p :| p in used;
      var rest := Above(used - {p});
      assert used == (used - {p}) + {p};
      bound := if rest <= p then p + 1 else rest;
    }
  }

  /** palloc: any address that is not in use. */
  method Palloc(used: set<Ptr>) returns (p: Ptr)
    ensures p != NULL && p !in used
  {
    SomethingFree(used);
    p :| p != NULL && p !in used;
  }

  ghost predicate Distinct<T>(s: seq<T>) {
    forall i, j :: 0 <= i < j < |s| ==> s[i] != s[j]
  }

  function Elements<T>(s: seq<T>): set<T> {
    set x | x in s
  }

  /** The sequence without its element at index i. */
  function Without<T>(s: seq<T>, i: nat): seq<T>
    requires i < |s|
  {
    s[..i] + s[i + 1..]
  }

  lemma SomeElement<T>(s: set<T>) returns (x: T)
    requires s != {}
    ensures x in s
  {
    x :| x in s;
  }

  lemma {:induction false} DistinctCardinality<T>(s: seq<T>)
    requires Distinct(s)
    ensures |Elements(s)| == |s|
  {
    if s == [] {
      assert Elements(s) == {};
    } else {
      DistinctCardinality(s[1..]);
      assert Elements(s) == {s[0]} + Elements(s[1..]);
    }
  }

  lemma ElementsSnoc<T>(s: seq<T>)
    requires s != []
    ensures Elements(s) == Elements(s[..|s| - 1]) + {s[|s| - 1]}
    ensures Distinct(s) ==> Distinct(s[..|s| - 1]) && s[|s| - 1] !in s[..|s| - 1]
  {
    assert s == s[..|s| - 1] + [s[|s| - 1]];
  }

  lemma SubsetCardinality<T>(a: set<T>, b: set<T>)
    requires a <= b
    ensures |a| <= |b|
    ensures |b - a| == |b| - |a|
  {
    assert b == a + (b - a);
  }
}
