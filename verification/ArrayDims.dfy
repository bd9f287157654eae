/** luaP_getarraydims and the array branches of luaP_todatum and luaP_pushdatum: from a
    nested table to its dimensions, to an array in memory, and back. */
module ArrayDims {
  import opened Memory
  import opened ArrayLayout
  import opened ArrayTables
  import opened ArrayCodec

  const MAXDIM := 6
  const MAX_ALLOC_SIZE := 0x3fff_ffff
  const MAX_ARRAY_SIZE := MAX_ALLOC_SIZE / 8

  datatype ArrayError = TooManyDims | Asymmetric | TooBig | NoNulls

  function Min(x: int, y: int): int {
    if x < y then x else y
  }

  function Max(x: int, y: int): int {
    if x < y then y else x
  }

  // ---------- Which tables ----------

  ghost predicate NoHoles(v: Value, dims: seq<nat>, lb: seq<int>)
    requires |dims| == |lb| >= 1
  {
    v.Table? && forall k :: lb[0] <= k < lb[0] + dims[0] ==> k in v.items
  }

  /** A non-empty box with tight bounds.  A vector may have holes; with more dimensions
      every element is there. */
  ghost predicate Regular(v: Value, dims: seq<nat>, lb: seq<int>, ty: ElemType)
    requires |dims| == |lb|
    decreases |dims|
  {
    && IsBox(v, dims, lb, ty)
    && dims[0] >= 1 && lb[0] in v.items && lb[0] + dims[0] - 1 in v.items
    && (|dims| > 1 ==> forall k :: k in v.items ==>
          Regular(v.items[k], dims[1..], lb[1..], ty) && NoHoles(v.items[k], dims[1..], lb[1..]))
  }

  /** What the visited keys have added to the size, among the first n rows. */
  ghost function SeenSize(v: Value, dims: seq<nat>, lb: seq<int>, ty: ElemType, seen: set<int>, n: nat): nat
    requires ty.WellFormed() && |dims| == |lb| && IsBox(v, dims, lb, ty) && n <= dims[0]
  {
    if n == 0 then 0
    else
      var row := if lb[0] + n - 1 in seen then Size(ty, Row(v, dims, lb, ty, n - 1)) else 0;
      SeenSize(v, dims, lb, ty, seen, n - 1) + row
  }

  /** Visiting one more key adds its row, in whatever order the keys come. */
  lemma {:induction false} SeenMore(v: Value, dims: seq<nat>, lb: seq<int>, ty: ElemType, seen: set<int>, k: int, n: nat)
    requires ty.WellFormed() && |dims| == |lb| && IsBox(v, dims, lb, ty) && n <= dims[0]
    requires lb[0] <= k < lb[0] + dims[0] && k !in seen
    ensures SeenSize(v, dims, lb, ty, seen + {k}, n)
         == SeenSize(v, dims, lb, ty, seen, n) + if k < lb[0] + n then Size(ty, Row(v, dims, lb, ty, k - lb[0])) else 0
    decreases n
  {
    if n > 0 { SeenMore(v, dims, lb, ty, seen, k, n - 1); }
  }

  /** When all keys have been visited the size is that of all elements. */
  lemma {:induction false} SeenAll(v: Value, dims: seq<nat>, lb: seq<int>, ty: ElemType, n: nat)
    requires ty.WellFormed() && |dims| == |lb| && IsBox(v, dims, lb, ty) && n <= dims[0]
    ensures SeenSize(v, dims, lb, ty, v.items.Keys, n) == Size(ty, Rows(v, dims, lb, ty, n))
    decreases n
  {
    if n > 0 {
      SeenAll(v, dims, lb, ty, n - 1);
      RowsStep(v, dims, lb, ty, n - 1);
      SizeConcat(ty, Rows(v, dims, lb, ty, n - 1), Row(v, dims, lb, ty, n - 1));
      if lb[0] + n - 1 !in v.items {
        SizeOne(ty, None);
      }
    }
  }

  lemma {:induction false} SeenNone(v: Value, dims: seq<nat>, lb: seq<int>, ty: ElemType, n: nat)
    requires ty.WellFormed() && |dims| == |lb| && IsBox(v, dims, lb, ty) && n <= dims[0]
    ensures SeenSize(v, dims, lb, ty, {}, n) == 0
    decreases n
  {
    if n > 0 { SeenNone(v, dims, lb, ty, n - 1); }
  }

  lemma {:induction false} SeenLess(v: Value, dims: seq<nat>, lb: seq<int>, ty: ElemType, seen: set<int>, n: nat)
    requires ty.WellFormed() && |dims| == |lb| && IsBox(v, dims, lb, ty) && n <= dims[0] && seen <= v.items.Keys
    ensures SeenSize(v, dims, lb, ty, seen, n) <= SeenSize(v, dims, lb, ty, v.items.Keys, n)
    decreases n
  {
    if n > 0 { SeenLess(v, dims, lb, ty, seen, n - 1); }
  }

  /** A set of n keys inside an interval of length n is the whole interval. */
  lemma {:induction false} FillsInterval(keys: set<int>, from: int, n: nat)
    requires forall k :: k in keys ==> from <= k < from + n
    ensures |keys| <= n
    ensures |keys| == n <==> forall k :: from <= k < from + n ==> k in keys
    decreases n
  {
    if n == 0 {
      if keys != {} {
        var k := SomeElement(keys);
        assert false;
      }
    } else {
      var last := from + n - 1;
      var rest := keys - {last};
      FillsInterval(rest, from, n - 1);
      assert last in keys ==> keys == rest + {last};
      assert last !in keys ==> keys == rest;
    }
  }

  /** Every innermost vector is within the allocation limit. */
  ghost predicate RowsFit(v: Value, dims: seq<nat>, lb: seq<int>, ty: ElemType)
    requires ty.WellFormed() && |dims| == |lb| && IsBox(v, dims, lb, ty)
    decreases |dims|
  {
    if |dims| == 1 then Size(ty, Flatten(v, dims, lb, ty)) <= MAX_ALLOC_SIZE
    else forall k :: lb[0] <= k < lb[0] + dims[0] ==> RowsFit(v.items[k], dims[1..], lb[1..], ty)
  }

  /** When luaP_getarraydims does not raise an error. */
  ghost predicate DimsAccepted(v: Value, dims: seq<nat>, lb: seq<int>, ty: ElemType)
    requires ty.WellFormed() && |dims| == |lb| && IsBox(v, dims, lb, ty)
  {
    !(|dims| == MAXDIM && dims[0] >= 2) && RowsFit(v, dims, lb, ty)
  }

  /** The error is one the table calls for: too many dimensions, or an innermost vector
      over the limit. */
  ghost predicate Deserved(e: ArrayError, v: Value, dims: seq<nat>, lb: seq<int>, ty: ElemType)
    requires ty.WellFormed() && |dims| == |lb| && IsBox(v, dims, lb, ty)
  {
    match e
    case TooManyDims => |dims| == MAXDIM && dims[0] >= 2
    case TooBig => !RowsFit(v, dims, lb, ty)
    case _ => false
  }

  /** What has been added up so far is right, and nothing seen calls for an error. */
  ghost predicate SoFar(v: Value, d: seq<nat>, l: seq<int>, ty: ElemType, seen: set<int>, size: nat)
    requires ty.WellFormed() && |d| == |l|
  {
    && IsBox(v, d, l, ty) && seen <= v.items.Keys
    && (|d| == MAXDIM ==> |seen| <= 1)
    && size == SeenSize(v, d, l, ty, seen, d[0])
    && (if |d| == 1 then size <= MAX_ALLOC_SIZE
        else forall k :: k in seen ==> RowsFit(v.items[k], d[1..], l[1..], ty))
  }

  // ---------- Finding the dimensions ----------

  /** The dims and lb arrays and the hasnulls flag of luaP_todatum, shared by all levels
      of the recursion; level at works on index at. */
  class Shape {
    const dims: array<int>
    const lb: array<int>
    var hasnulls: bool

    constructor ()
      ensures Ready() && fresh(dims) && fresh(lb)
    {
      dims := new int[MAXDIM](i => -1);
      lb := new int[MAXDIM](i => -1);
      hasnulls := false;
    }

    ghost predicate Ready() {
      dims.Length == MAXDIM && lb.Length == MAXDIM && dims != lb
    }

    /** The bounds from index at on. */
    ghost predicate Is(at: nat, d: seq<nat>, l: seq<int>)
      requires Ready() && |d| == |l|
      reads dims, lb
    {
      && at + |d| <= MAXDIM
      && forall j :: 0 <= j < |d| ==> dims[at + j] == d[j] && lb[at + j] == l[j]
    }

    /** The keys seen span exactly lb[at] .. lb[at] + dims[at] - 1. */
    ghost predicate Spans(at: nat, seen: set<int>)
      requires Ready() && at < MAXDIM
      reads dims, lb
    {
      && lb[at] in seen && lb[at] + dims[at] - 1 in seen
      && forall k :: k in seen ==> lb[at] <= k < lb[at] + dims[at]
    }

    /** Set dims and lb for one more key. */
    method Widen(at: nat, k: int, first: bool, ghost seen: set<int>)
      requires Ready() && at < MAXDIM && (if first then seen == {} else Spans(at, seen))
      modifies dims, lb
      ensures Spans(at, seen + {k})
      ensures forall j :: 0 <= j < MAXDIM && j != at ==> dims[j] == old(dims[j]) && lb[j] == old(lb[j])
    {
      if first {
        lb[at] := k;
        dims[at] := 1;
      } else {
        if lb[at] > k {
          dims[at] := dims[at] + lb[at] - k;
          lb[at] := k;
        }
        if dims[at] - 1 + lb[at] < k {
          dims[at] := k - lb[at] + 1;
        }
      }
    }

    /** Merge the bounds that the earlier rows had (low and below) with those of the
        latest.  The merged interval starts where the first of the two starts.  It ends
        where the last of them ends, unless the earlier rows started first and ended
        first: then the latest rows' extent is counted from the earlier start, and what
        they have beyond that is cut off. */
    method Merge(at: nat, below: int, low: int)
      requires Ready() && at < MAXDIM
      modifies this, dims, lb
      ensures lb[at] == Min(low, old(lb[at]))
      ensures var cut := low < old(lb[at]) && low + below < old(lb[at]) + old(dims[at]);
        && (cut <==> lb[at] + dims[at] != Max(low + below, old(lb[at]) + old(dims[at])))
        && (cut ==> lb[at] + dims[at] == low + Max(below, old(dims[at])) < old(lb[at]) + old(dims[at]))
      ensures hasnulls <==> old(hasnulls) || !(lb[at] == old(lb[at]) && dims[at] == old(dims[at]))
      ensures low == old(lb[at]) && below == old(dims[at]) ==> lb[at] == low && dims[at] == below
      ensures forall j :: 0 <= j < MAXDIM && j != at ==> dims[j] == old(dims[j]) && lb[j] == old(lb[j])
    {
      if low < lb[at] {
        lb[at] := low;
        hasnulls := true;
      }
      if below + low > dims[at] + lb[at] {
        dims[at] := below + low - lb[at];
        hasnulls := true;
      }
    }

    /** The arrays and flags while level at has seen these keys. */
    ghost predicate Progress(at: nat, d: seq<nat>, l: seq<int>, seen: set<int>, ndims: int)
      requires Ready() && |d| == |l| >= 1
      reads this, dims, lb
    {
      && at + |d| <= MAXDIM && !hasnulls
      && ndims == (if seen == {} then -1 else |d|)
      && (seen != {} ==> Spans(at, seen) && Is(at + 1, d[1..], l[1..]))
    }

    /** The body of the loop, for the key k. */
    method VisitKey(v: Value, k: int, at: nat, ty: ElemType, ghost d: seq<nat>, ghost l: seq<int>,
                    ghost seen: set<int>, ndims: int, size: nat)
      returns (r: Result<(int, nat), ArrayError>)
      requires Ready() && ty.WellFormed() && |d| == |l| >= 1 && Regular(v, d, l, ty) && v.Table?
      requires Progress(at, d, l, seen, ndims) && SoFar(v, d, l, ty, seen, size) && k in v.items && k !in seen
      modifies this, dims, lb
      ensures r.Err? ==> IsBox(v, d, l, ty) && Deserved(r.error, v, d, l, ty)
      ensures r.Ok? ==> Progress(at, d, l, seen + {k}, r.value.0) && SoFar(v, d, l, ty, seen + {k}, r.value.1)
      ensures forall j :: 0 <= j < at ==> dims[j] == old(dims[j]) && lb[j] == old(lb[j])
      decreases |d|, 1
    {
      hide SoFar, Regular, IsBox, RowsFit, NoHoles;
      InBox(v, d, l, ty, k);
      Widen(at, k, ndims < 0, seen);
      var n, size' := 0, size;
      if v.items[k].Table? {
        var sub := VisitTable(v, k, at, ty, d, l, seen, ndims, size);
        if sub.Err? {
          return Err(sub.error);
        }
        n, size' := sub.value.0, sub.value.1;
      } else {
        var inc := DatumLength(ty, v.items[k].datum, 0, v.items[k].datum);
        LeafStep(v, d, l, ty, seen, size, k);
        size' := AlignUp(size + inc, ty.align);
        if size' > MAX_ALLOC_SIZE {
          return Err(TooBig);
        }
      }
      n := n + 1;
      if ndims >= 0 && ndims != n {
        return Err(Asymmetric);
      }
      return Ok((if ndims < 0 then n else ndims, size'));
    }

    /** The branch for a nested table. */
    method VisitTable(v: Value, k: int, at: nat, ty: ElemType, ghost d: seq<nat>, ghost l: seq<int>,
                      ghost seen: set<int>, ndims: int, size: nat)
      returns (r: Result<(int, nat), ArrayError>)
      requires Ready() && ty.WellFormed() && |d| == |l| && |d| > 1 && at + |d| <= MAXDIM && !hasnulls
      requires Regular(v, d, l, ty) && v.Table? && SoFar(v, d, l, ty, seen, size) && k in v.items && k !in seen
      requires ndims == (if seen == {} then -1 else |d|) && (seen != {} ==> Is(at + 1, d[1..], l[1..]))
      modifies this, dims, lb
      ensures r.Err? ==> IsBox(v, d, l, ty) && Deserved(r.error, v, d, l, ty)
      ensures r.Ok? ==> r.value.0 == |d| - 1 && SoFar(v, d, l, ty, seen + {k}, r.value.1)
      ensures r.Ok? ==> Is(at + 1, d[1..], l[1..]) && !hasnulls
      ensures forall j :: 0 <= j <= at ==> dims[j] == old(dims[j]) && lb[j] == old(lb[j])
      decreases |d|, 0
    {
      hide SoFar, Regular, IsBox, RowsFit, NoHoles, Flatten, Size;
      TableStep(v, d, l, ty, seen, size, k);
      if ndims == MAXDIM {
        return Err(TooManyDims);
      }
      var below, low := -1, -1;
      if ndims > 1 {
        below, low := dims[at + 1], lb[at + 1];
      }
      r := GetArrayDims(v.items[k], at + 1, ty, d[1..], l[1..]);
      if r.Err? {
        return;
      }
      if ndims > 1 {
        Merge(at + 1, below, low);
      }
      r := Ok((r.value.0, size + r.value.1));
    }

    /** luaP_getarraydims.  The keys are visited in an arbitrary order, as lua_next gives
        them. */
    method GetArrayDims(v: Value, at: nat, ty: ElemType, ghost d: seq<nat>, ghost l: seq<int>)
      returns (r: Result<(int, nat), ArrayError>)
      requires Ready() && ty.WellFormed() && |d| == |l| && at + |d| <= MAXDIM
      requires v == Table(map[]) || Regular(v, d, l, ty)
      modifies this, dims, lb
      ensures v == Table(map[]) ==> r == Ok((-1, 0))
      ensures v != Table(map[]) ==>
        && IsBox(v, d, l, ty) && d != []
        && (r.Ok? <==> DimsAccepted(v, d, l, ty))
        && (r.Err? ==> Deserved(r.error, v, d, l, ty))
        && (r.Ok? ==> r.value == (|d|, Size(ty, Flatten(v, d, l, ty))) && Is(at, d, l) && (hasnulls <==> !NoHoles(v, d, l)))
      ensures forall j :: 0 <= j < at && j < MAXDIM ==> dims[j] == old(dims[j]) && lb[j] == old(lb[j])
      decreases |d|, 2
    {
      hide SoFar, Regular, IsBox, NoHoles, Flatten, RowsFit;
      NotEmpty(v, d, l, ty);
      var size, nitems, ndims := 0, 0, -1;
      hasnulls := false;
      var rest := v.items.Keys;
      if rest == {} {
        return Ok((ndims, size));
      }
      StartFacts(v, d, l, ty);
      ghost var seen: set<int> := {};
      while rest != {}
        invariant seen <= v.items.Keys && rest == v.items.Keys - seen && nitems == |seen|
        invariant Progress(at, d, l, seen, ndims) && SoFar(v, d, l, ty, seen, size)
        invariant forall j :: 0 <= j < at ==> dims[j] == old(dims[j]) && lb[j] == old(lb[j])
        decreases |rest|
      {
        ghost var some := SomeElement(rest);
        var k :| k in rest;
        rest := rest - {k};
        var one := VisitKey(v, k, at, ty, d, l, seen, ndims, size);
        if one.Err? {
          return Err(one.error);
        }
        ndims, size := one.value.0, one.value.1;
        seen := seen + {k};
        nitems := nitems + 1;
      }
      assert seen == v.items.Keys;
      AllSeen(v, d, l, ty, seen, size);
      hasnulls := nitems > 0 && nitems != dims[at];
      return Ok((ndims, size));
    }
  }

  // ---------- The steps of the loop ----------

  lemma NotEmpty(v: Value, d: seq<nat>, l: seq<int>, ty: ElemType)
    requires |d| == |l| && (v == Table(map[]) || Regular(v, d, l, ty))
    ensures v.Table? && (v.items.Keys == {} <==> v == Table(map[]))
  {
  }

  lemma InBox(v: Value, d: seq<nat>, l: seq<int>, ty: ElemType, k: int)
    requires |d| == |l| && Regular(v, d, l, ty) && v.Table? && k in v.items
    ensures IsBox(v, d, l, ty) && d != [] && l[0] <= k < l[0] + d[0]
    ensures if |d| == 1 then v.items[k].Leaf? && IsDatum(ty, v.items[k].datum) else v.items[k].Table?
  {
  }

  lemma StartFacts(v: Value, d: seq<nat>, l: seq<int>, ty: ElemType)
    requires ty.WellFormed() && |d| == |l| && Regular(v, d, l, ty)
    ensures d != [] && v.Table? && IsBox(v, d, l, ty)
    ensures SoFar(v, d, l, ty, {}, 0)
  {
    SeenNone(v, d, l, ty, d[0]);
  }

  /** The field at k adds the size of its row. */
  lemma KeyFacts(v: Value, d: seq<nat>, l: seq<int>, ty: ElemType, seen: set<int>, k: int)
    requires ty.WellFormed() && |d| == |l| && Regular(v, d, l, ty) && v.Table?
    requires seen <= v.items.Keys && k in v.items && k !in seen
    ensures IsBox(v, d, l, ty) && l[0] <= k < l[0] + d[0]
    ensures SeenSize(v, d, l, ty, seen + {k}, d[0])
         == SeenSize(v, d, l, ty, seen, d[0]) + Size(ty, Row(v, d, l, ty, k - l[0]))
    ensures seen != {} ==> d[0] >= 2
    ensures |seen + {k}| == |seen| + 1
  {
    hide Size, Row, Rows, SeenSize, Regular, IsBox;
    InBox(v, d, l, ty, k);
    SeenMore(v, d, l, ty, seen, k, d[0]);
    forall j | j in v.items ensures l[0] <= j < l[0] + d[0] { InBox(v, d, l, ty, j); }
    TwoKeys(v.items.Keys, seen, k, l[0], d[0]);
  }

  lemma TwoKeys(keys: set<int>, seen: set<int>, k: int, from: int, n: nat)
    requires seen <= keys && k in keys && k !in seen && forall j :: j in keys ==> from <= j < from + n
    ensures seen != {} ==> n >= 2
  {
    if seen != {} {
      var j := SomeElement(seen);
      assert j in keys;
    }
  }

  /** An element, in the innermost dimension. */
  lemma LeafStep(v: Value, d: seq<nat>, l: seq<int>, ty: ElemType, seen: set<int>, size: nat, k: int)
    requires ty.WellFormed() && |d| == |l| == 1 && Regular(v, d, l, ty) && v.Table?
    requires SoFar(v, d, l, ty, seen, size) && k in v.items && k !in seen && v.items[k].Leaf?
    ensures IsBox(v, d, l, ty)
    ensures var size' := AlignUp(size + |v.items[k].datum|, ty.align);
      && (size' <= MAX_ALLOC_SIZE ==> SoFar(v, d, l, ty, seen + {k}, size'))
      && (size' > MAX_ALLOC_SIZE ==> !RowsFit(v, d, l, ty))
  {
    hide Size, Rows, SeenSize, AlignUp, IsDatum;
    KeyFacts(v, d, l, ty, seen, k);
    SeenLess(v, d, l, ty, seen + {k}, d[0]);
    SeenAll(v, d, l, ty, d[0]);
    SizeOne(ty, CellAt(v.items, k));
    SeenAligned(v, d, l, ty, seen, d[0]);
    AlignIncrement(SeenSize(v, d, l, ty, seen, d[0]), |v.items[k].datum|, ty);
  }

  /** A nested table, in an outer dimension. */
  lemma TableStep(v: Value, d: seq<nat>, l: seq<int>, ty: ElemType, seen: set<int>, size: nat, k: int)
    requires ty.WellFormed() && |d| == |l| && |d| > 1 && Regular(v, d, l, ty) && v.Table?
    requires SoFar(v, d, l, ty, seen, size) && k in v.items && k !in seen
    ensures IsBox(v, d, l, ty) && IsBox(v.items[k], d[1..], l[1..], ty) && v.items[k] != Table(map[])
    ensures Regular(v.items[k], d[1..], l[1..], ty) && NoHoles(v.items[k], d[1..], l[1..])
    ensures RowsFit(v, d, l, ty) ==> RowsFit(v.items[k], d[1..], l[1..], ty)
    ensures |d| == MAXDIM && seen != {} ==> d[0] >= 2
    ensures RowsFit(v.items[k], d[1..], l[1..], ty) && (|d| == MAXDIM ==> seen == {}) ==>
      SoFar(v, d, l, ty, seen + {k}, size + Size(ty, Flatten(v.items[k], d[1..], l[1..], ty)))
  {
    hide Before, Count;
    RowIsRegular(v, d, l, ty, k);
    hide Size, Rows, Row, Flatten, SeenSize, RowsFit, Regular, IsBox, NoHoles;
    KeyFacts(v, d, l, ty, seen, k);
  }

  lemma RowIsRegular(v: Value, d: seq<nat>, l: seq<int>, ty: ElemType, k: int)
    requires ty.WellFormed() && |d| == |l| && |d| > 1 && Regular(v, d, l, ty) && v.Table? && k in v.items
    ensures IsBox(v, d, l, ty) && IsBox(v.items[k], d[1..], l[1..], ty) && v.items[k] != Table(map[])
    ensures Regular(v.items[k], d[1..], l[1..], ty) && NoHoles(v.items[k], d[1..], l[1..])
    ensures RowsFit(v, d, l, ty) ==> RowsFit(v.items[k], d[1..], l[1..], ty)
    ensures l[0] <= k < l[0] + d[0] && Row(v, d, l, ty, k - l[0]) == Flatten(v.items[k], d[1..], l[1..], ty)
  {
    hide Rows;
  }

  lemma {:induction false} SeenAligned(v: Value, dims: seq<nat>, lb: seq<int>, ty: ElemType, seen: set<int>, n: nat)
    requires ty.WellFormed() && |dims| == |lb| && IsBox(v, dims, lb, ty) && n <= dims[0]
    ensures SeenSize(v, dims, lb, ty, seen, n) % ty.align == 0
    decreases n
  {
    if n > 0 {
      SeenAligned(v, dims, lb, ty, seen, n - 1);
      SizeAligned(ty, Row(v, dims, lb, ty, n - 1));
      ModSum(SeenSize(v, dims, lb, ty, seen, n - 1), Size(ty, Row(v, dims, lb, ty, n - 1)), ty);
    }
  }

  /** With all keys seen, the size is that of all elements and the keys fill the box
      unless there is a hole. */
  lemma AllSeen(v: Value, d: seq<nat>, l: seq<int>, ty: ElemType, seen: set<int>, size: nat)
    requires ty.WellFormed() && |d| == |l| && Regular(v, d, l, ty) && v.Table?
    requires seen == v.items.Keys && SoFar(v, d, l, ty, seen, size)
    ensures d != [] && size == Size(ty, Flatten(v, d, l, ty)) && DimsAccepted(v, d, l, ty)
    ensures seen != {} && (|seen| == d[0] <==> NoHoles(v, d, l))
    ensures l[0] in seen && l[0] + d[0] - 1 in seen && forall k :: k in seen ==> l[0] <= k < l[0] + d[0]
  {
    hide Size, Rows, SeenSize;
    SeenAll(v, d, l, ty, d[0]);
    FillsInterval(seen, l[0], d[0]);
    if d[0] >= 2 { SubsetCardinality({l[0], l[0] + d[0] - 1}, seen); }
  }
}
