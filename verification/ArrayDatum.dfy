/** The array branches of luaP_todatum and luaP_pushdatum: a table becomes one allocation
    and is read back from it. */
module ArrayDatum {
  import opened Memory
  import opened ArrayLayout
  import opened ArrayTables
  import opened ArrayCodec
  import opened ArrayDims

  /** An ArrayType.  Its header words are kept as fields; mem is the whole allocation, so
      that all offsets are those of the source. */
  datatype ArrayType = ArrayType(ndim: nat, dataOffset: nat, dims: seq<nat>, lbound: seq<int>, mem: array<Byte>) {
    /** ARR_NULLBITMAP and ARR_DATA_PTR */
    function Place(ty: ElemType): Layout {
      Layout(ty, dataOffset != 0, HeaderSize(ndim), if dataOffset != 0 then dataOffset else AlignUp(HeaderSize(ndim), 8))
    }

    /** The array has these bounds and exactly the elements of v. */
    ghost predicate Is(ty: ElemType, v: Value, d: seq<nat>, l: seq<int>)
      requires |d| == |l| && IsBox(v, d, l, ty)
      reads mem
    {
      && ndim == |d| && dims == d && lbound == l
      && Place(ty).Holds(mem[..], Flatten(v, d, l, ty))
    }
  }

  /** sizeof(ArrayType) and the dims and lbound words. */
  function HeaderSize(ndims: nat): nat {
    16 + 8 * ndims
  }

  /** ARR_OVERHEAD_WITHNULLS or ARR_OVERHEAD_NONULLS */
  function Overhead(ndims: nat, nitems: nat, hasnulls: bool): nat {
    if hasnulls then AlignUp(HeaderSize(ndims) + (nitems + 7) / 8, 8) else AlignUp(HeaderSize(ndims), 8)
  }

  /** The offset of the data in numbers: 16 bytes of header, 8 per dimension, and 8 for
      every 64 elements or part of them if there is a bitmap. */
  function DataStart(ndims: nat, nitems: nat, hasnulls: bool): nat {
    16 + 8 * ndims + if hasnulls then (nitems + 63) / 64 * 8 else 0
  }

  lemma OverheadIs(ndims: nat, nitems: nat, hasnulls: bool)
    ensures HeaderSize(ndims) == 16 + 8 * ndims
    ensures Overhead(ndims, nitems, hasnulls) == DataStart(ndims, nitems, hasnulls)
    ensures hasnulls ==> Overhead(ndims, nitems, hasnulls) >= HeaderSize(ndims) + (nitems + 7) / 8
  {
    var h, b := HeaderSize(ndims), (nitems + 7) / 8;
    LeastBy8(h);
    AlignBy8(h, b);
    Sixtyfour(nitems);
    assert AlignUp(b, 8) == (nitems + 63) / 64 * 8;
    LeastBy8(b);
  }

  lemma Sixtyfour(n: nat)
    ensures ((n + 7) / 8 + 7) / 8 == (n + 63) / 64
  {
  }

  // ---------- When a table converts ----------

  /** The limits the source enforces, in numbers.  The first is stricter than MAXDIM
      promises: with six dimensions there must be a single outermost row. */
  ghost predicate Accepted(v: Value, d: seq<nat>, l: seq<int>, ty: ElemType)
    requires ty.WellFormed() && |d| == |l| >= 1 && IsBox(v, d, l, ty)
  {
    && !(|d| == 6 && d[0] >= 2)
    && Count(d) <= 134217727
    && DataStart(|d|, Count(d), !NoHoles(v, d, l)) + Size(ty, Flatten(v, d, l, ty)) <= 1073741823
  }

  lemma {:induction false} RowsLess(v: Value, d: seq<nat>, l: seq<int>, ty: ElemType, i: nat)
    requires ty.WellFormed() && |d| == |l| && IsBox(v, d, l, ty) && i < d[0]
    ensures Size(ty, Row(v, d, l, ty, i)) <= Size(ty, Flatten(v, d, l, ty))
  {
    hide Size, Row, Rows;
    RowsStep(v, d, l, ty, i);
    RowsPrefix(v, d, l, ty, i + 1, d[0]);
    var rows, all := Rows(v, d, l, ty, i + 1), Flatten(v, d, l, ty);
    SizeConcat(ty, Rows(v, d, l, ty, i), Row(v, d, l, ty, i));
    assert all == rows + all[|rows|..];
    SizeConcat(ty, rows, all[|rows|..]);
  }

  lemma {:induction false} WholeFits(v: Value, d: seq<nat>, l: seq<int>, ty: ElemType)
    requires ty.WellFormed() && |d| == |l| && IsBox(v, d, l, ty) && Size(ty, Flatten(v, d, l, ty)) <= MAX_ALLOC_SIZE
    ensures RowsFit(v, d, l, ty)
    decreases |d|
  {
    if |d| > 1 {
      forall k | l[0] <= k < l[0] + d[0] ensures RowsFit(v.items[k], d[1..], l[1..], ty) {
        RowsLess(v, d, l, ty, k - l[0]);
        WholeFits(v.items[k], d[1..], l[1..], ty);
      }
    }
  }

  lemma {:induction false} SizePositive(v: Value, d: seq<nat>, l: seq<int>, ty: ElemType)
    requires ty.WellFormed() && |d| == |l| && Regular(v, d, l, ty)
    ensures Size(ty, Flatten(v, d, l, ty)) > 0
    decreases |d|
  {
    RowsLess(v, d, l, ty, 0);
    if |d| == 1 {
      SizeOne(ty, CellAt(v.items, l[0]));
      AlignIncrement(0, |v.items[l[0]].datum|, ty);
    } else {
      SizePositive(v.items[l[0]], d[1..], l[1..], ty);
    }
  }

  lemma {:induction false} CountPositive(v: Value, d: seq<nat>, l: seq<int>, ty: ElemType)
    requires |d| == |l| && Regular(v, d, l, ty)
    ensures forall i :: 0 <= i < |d| ==> d[i] >= 1
    decreases |d|
  {
    if |d| > 1 {
      CountPositive(v.items[l[0]], d[1..], l[1..], ty);
      forall i | 0 <= i < |d| ensures d[i] >= 1 {
        if i > 0 { assert d[i] == d[1..][i - 1]; }
      }
    }
  }

  /** A regular table without holes has no NULL element. */
  lemma {:induction false} FullIsNullFree(v: Value, d: seq<nat>, l: seq<int>, ty: ElemType, n: nat)
    requires |d| == |l| && Regular(v, d, l, ty) && NoHoles(v, d, l) && n <= d[0]
    ensures NullFree(Rows(v, d, l, ty, n))
    decreases |d|, n
  {
    if n > 0 {
      FullIsNullFree(v, d, l, ty, n - 1);
      RowsStep(v, d, l, ty, n - 1);
      if |d| > 1 { FullIsNullFree(v.items[l[0] + n - 1], d[1..], l[1..], ty, d[1]); }
    }
  }

  lemma {:induction false} CountSplit(d: seq<nat>, i: nat)
    requires i < |d|
    ensures Count(d[i..]) == d[i] * Count(d[i + 1..])
  {
    assert d[i..][1..] == d[i + 1..];
  }

  lemma {:induction false} CountNonzero(d: seq<nat>)
    requires forall i :: 0 <= i < |d| ==> d[i] >= 1
    ensures Count(d) >= 1
  {
    if d != [] {
      CountNonzero(d[1..]);
      assert d[0] * Count(d[1..]) >= 1;
    }
  }

  /** One turn of the nitems loop: the product so far times the rest is the total. */
  lemma ProductStep(n: nat, d: seq<nat>, i: nat)
    requires i < |d| && n * Count(d[i..]) == Count(d) && forall j :: 0 <= j < |d| ==> d[j] >= 1
    ensures n * d[i] * Count(d[i + 1..]) == Count(d) && n * d[i] <= Count(d)
  {
    hide Count;
    CountSplit(d, i);
    CountNonzero(d[i + 1..]);
    Times(n, d[i], Count(d[i + 1..]));
  }

  lemma Times(n: nat, x: nat, y: nat)
    requires y >= 1
    ensures n * (x * y) == n * x * y && n * x * y >= n * x
  {
    assert n * x * y == n * x * (y - 1) + n * x;
  }

  // ---------- Converting ----------

  /** nitems, with the check that each partial product is within the limit. */
  method CountItems(dims: seq<nat>) returns (r: Result<nat, ArrayError>)
    requires forall i :: 0 <= i < |dims| ==> dims[i] >= 1
    ensures r.Ok? <==> Count(dims) <= 134217727
    ensures r.Ok? ==> r.value == Count(dims)
    ensures r.Err? ==> r.error == TooBig
  {
    var nitems: nat := 1;
    assert dims[0..] == dims;
    for i := 0 to |dims|
      invariant nitems * Count(dims[i..]) == Count(dims)
      invariant nitems <= MAX_ARRAY_SIZE
    {
      ProductStep(nitems, dims, i);
      nitems := nitems * dims[i];
      if nitems > MAX_ARRAY_SIZE {
        return Err(TooBig);
      }
    }
    assert dims[|dims|..] == [];
    return Ok(nitems);
  }

  /** luaP_todatum for a table and an array type.  d and l are what v's shape is; the
      method finds them. */
  method ToDatum(v: Value, ty: ElemType, ghost d: seq<nat>, ghost l: seq<int>) returns (r: Result<ArrayType, ArrayError>)
    requires ty.WellFormed() && 1 <= |d| == |l| <= MAXDIM
    requires v == Table(map[]) || Regular(v, d, l, ty)
    ensures v == Table(map[]) ==> r.Ok? && r.value.ndim == 0 && r.value.dataOffset == 0
    ensures v != Table(map[]) ==>
      && IsBox(v, d, l, ty)
      && (r.Ok? <==> Accepted(v, d, l, ty))
      && (r.Err? ==> r.error == TooBig || (r.error == TooManyDims && |d| == 6 && d[0] >= 2))
      && (|d| == 6 && d[0] >= 2 && RowsFit(v, d, l, ty) ==> r == Err(TooManyDims))
      && (r.Ok? ==> fresh(r.value.mem) && r.value.Is(ty, v, d, l) && (r.value.dataOffset != 0 <==> !NoHoles(v, d, l)))
      && (r.Ok? ==> r.value.Place(ty).start + Size(ty, Flatten(v, d, l, ty)) == r.value.mem.Length)
      && (r.Ok? ==> r.value.Place(ty).bits == 16 + 8 * |d| && r.value.Place(ty).start == DataStart(|d|, Count(d), !NoHoles(v, d, l)))
      && (r.Ok? && ty.Fixed? && ty.len % ty.align == 0 ==>
            r.value.mem.Length == DataStart(|d|, Count(d), !NoHoles(v, d, l)) + Present(Flatten(v, d, l, ty)) * ty.len)
  {
    var shape := new Shape();
    var found := shape.GetArrayDims(v, 0, ty, d, l);
    if found.Err? {
      RefusedEarly(v, d, l, ty);
      return Err(found.error);
    }
    var (ndims, size) := found.value;
    if size == 0 {
      if v != Table(map[]) { SizePositive(v, d, l, ty); }
      var empty := new Byte[16];
      return Ok(ArrayType(0, 0, [], [], empty));
    }
    r := Allocate(v, ty, d, l, shape, ndims, size);
    if ty.Fixed? && ty.len % ty.align == 0 {
      FlattenFacts(v, d, l, ty);
      FixedSize(ty, Flatten(v, d, l, ty));
    }
  }

  lemma RefusedEarly(v: Value, d: seq<nat>, l: seq<int>, ty: ElemType)
    requires ty.WellFormed() && 1 <= |d| == |l| && IsBox(v, d, l, ty) && !DimsAccepted(v, d, l, ty)
    ensures !Accepted(v, d, l, ty)
  {
    if Accepted(v, d, l, ty) { WholeFits(v, d, l, ty); }
  }

  /** The part of luaP_todatum after luaP_getarraydims. */
  method Allocate(v: Value, ty: ElemType, ghost d: seq<nat>, ghost l: seq<int>, shape: Shape, ndims: nat, size: nat)
    returns (r: Result<ArrayType, ArrayError>)
    requires ty.WellFormed() && 1 <= |d| == |l| <= MAXDIM && Regular(v, d, l, ty)
    requires shape.Ready() && shape.Is(0, d, l) && (shape.hasnulls <==> !NoHoles(v, d, l))
    requires DimsAccepted(v, d, l, ty) && ndims == |d| && size == Size(ty, Flatten(v, d, l, ty))
    ensures r.Ok? <==> Accepted(v, d, l, ty)
    ensures r.Err? ==> r.error == TooBig
    ensures r.Ok? ==> fresh(r.value.mem) && r.value.Is(ty, v, d, l) && (r.value.dataOffset != 0 <==> !NoHoles(v, d, l))
    ensures r.Ok? ==> r.value.Place(ty).start + Size(ty, Flatten(v, d, l, ty)) == r.value.mem.Length
    ensures r.Ok? ==> r.value.Place(ty).bits == 16 + 8 * |d| && r.value.Place(ty).start == DataStart(|d|, Count(d), !NoHoles(v, d, l))
  {
    hide Size, Flatten, Rows, IsBox, Regular, RowsFit, NoHoles, Count, BitmapFor, Encoded, BitsWritten, OnlyArray, AlignUp;
    CountPositive(v, d, l, ty);
    FlattenFacts(v, d, l, ty);
    ghost var cells := Flatten(v, d, l, ty);
    assert shape.dims[..ndims] == d && shape.lb[..ndims] == l;
    var dims: seq<nat>, lb := shape.dims[..ndims], shape.lb[..ndims];
    var items := CountItems(dims);
    if items.Err? {
      return Err(items.error);
    }
    var overhead := Overhead(ndims, items.value, shape.hasnulls);
    OverheadFits(ndims, items.value, shape.hasnulls);
    OverheadIs(ndims, items.value, shape.hasnulls);
    var offset := if shape.hasnulls then overhead else 0;
    if size + overhead > MAX_ALLOC_SIZE {
      return Err(TooBig);
    }
    var mem := new Byte[size + overhead];
    var arr := ArrayType(ndims, offset, dims, lb, mem);
    var w := new Writer(arr.Place(ty), mem, cells);
    assert [] + cells == cells;
    var ok := w.ToArray(v, dims, lb);
    if !ok {
      return Err(NoNulls);
    }
    WriterDone(mem[..], w.a, cells, w.bitval);
    r := Ok(arr);
  }

  lemma OverheadFits(ndims: nat, nitems: nat, hasnulls: bool)
    ensures var size := Overhead(ndims, nitems, hasnulls);
      && size % 8 == 0 && size >= HeaderSize(ndims) > 0
      && (hasnulls ==> HeaderSize(ndims) + (nitems + 7) / 8 <= size)
  {
    AlignBy8(0, HeaderSize(ndims) + (nitems + 7) / 8);
    AlignBy8(0, HeaderSize(ndims));
  }

  lemma FlattenFacts(v: Value, d: seq<nat>, l: seq<int>, ty: ElemType)
    requires |d| == |l| && Regular(v, d, l, ty)
    ensures IsBox(v, d, l, ty)
    ensures |Flatten(v, d, l, ty)| == Count(d)
    ensures forall c :: c in Flatten(v, d, l, ty) ==> IsCell(ty, c)
    ensures NoHoles(v, d, l) ==> NullFree(Flatten(v, d, l, ty))
    ensures v != Table(map[]) && d != []
  {
    if NoHoles(v, d, l) { FullIsNullFree(v, d, l, ty, d[0]); }
  }

  /** Everything written and the last partial byte flushed: the memory is the array. */
  lemma WriterDone(m: Bytes, a: Layout, cells: seq<Cell>, bitval: nat)
    requires Written(m, a, cells, bitval)
    requires a.hasBitmap && |cells| % 8 != 0 ==> a.bits + |cells| / 8 < |m| && m[a.bits + |cells| / 8] == bitval
    ensures a.Holds(m, cells)
  {
    if a.hasBitmap { FlushCompletes(m, a.bits, cells, bitval); }
  }

  /** Writing any box and reading it back: with a bitmap every NULL, in any number of
      dimensions, comes back as the absent field it was, and the reader's pointer and bit
      stop where the writer's did. */
  method BoxRoundTrip(a: Layout, mem: array<Byte>, v: Value, dims: seq<nat>, lb: seq<int>)
    returns (w: Writer, rd: Reader?, r: Option<Value>)
    requires |dims| == |lb| && IsBox(v, dims, lb, a.ty) && a.Fits(mem.Length, Flatten(v, dims, lb, a.ty))
    modifies mem
    ensures r == if a.hasBitmap || NullFree(Flatten(v, dims, lb, a.ty)) then Some(v) else None
    ensures r.Some? ==> rd != null && rd.p == w.p && (a.hasBitmap ==> rd.bitmap == w.bitmap && rd.bitmask == w.bitmask)
  {
    hide IsBox, Flatten, Encoded, BitsWritten, BitmapFor, Size, Mask;
    ghost var cells := Flatten(v, dims, lb, a.ty);
    assert [] + cells == cells;
    w := new Writer(a, mem, cells);
    var ok := w.ToArray(v, dims, lb);
    if !ok {
      return w, null, None;
    }
    WriterDone(mem[..], a, cells, w.bitval);
    rd := new Reader(a, mem, cells);
    var back := rd.PushArray(dims, lb, v);
    r := Some(back);
  }

  /** Bit j of the bitmap at offset bits, in numbers. */
  predicate BitSet(m: Bytes, bits: nat, j: nat) {
    bits + j / 8 < |m| && m[bits + j / 8] / [1, 2, 4, 8, 16, 32, 64, 128][j % 8] % 2 == 1
  }

  /** The bit of the element with given subscripts says whether it is there. */
  lemma ElementBit(m: Bytes, a: Layout, v: Value, d: seq<nat>, l: seq<int>, ix: seq<nat>)
    requires |d| == |l| && IsBox(v, d, l, a.ty) && a.Holds(m, Flatten(v, d, l, a.ty)) && Within(d, ix)
    ensures if a.hasBitmap then BitSet(m, a.bits, Offset(d, ix)) <==> Subscripted(v, l, ix).Some? else Subscripted(v, l, ix).Some?
  {
    hide IsBox, Flatten, Encoded;
    var cells, j := Flatten(v, d, l, a.ty), Offset(d, ix);
    SubscriptsPlace(v, d, l, a.ty, ix);
    if a.hasBitmap {
      assert BitAt(m, a.bits, j) <==> There(cells, j);
      if a.bits + j / 8 < |m| { BitIsDigit(m[a.bits + j / 8], j % 8); }
    } else {
      assert cells[j] in cells;
    }
  }

  /** How many elements are stored before element j. */
  function Stored(hasBitmap: bool, cells: seq<Cell>, j: nat): nat {
    if hasBitmap && j <= |cells| then Present(cells[..j]) else j
  }

  /** Behind at and n elements of len bytes comes b. */
  predicate BytesAt(m: Bytes, at: nat, n: nat, len: nat, b: Bytes) {
    var p: nat := at + n * len;
    p + len <= |m| && m[p..p + len] == b
  }

  /** Its bytes, for types of a fixed length: after those of the elements before it. */
  lemma ElementBytes(m: Bytes, a: Layout, v: Value, d: seq<nat>, l: seq<int>, ix: seq<nat>, cells: seq<Cell>)
    requires |d| == |l| && IsBox(v, d, l, a.ty) && cells == Flatten(v, d, l, a.ty) && a.Holds(m, cells) && Within(d, ix)
    requires a.ty.Fixed? && a.ty.len % a.ty.align == 0 && Subscripted(v, l, ix).Some?
    ensures BytesAt(m, a.start, Stored(a.hasBitmap, cells, Offset(d, ix)), a.ty.len, Subscripted(v, l, ix).value)
  {
    hide IsBox, Flatten, Encoded;
    var j := Offset(d, ix);
    SubscriptsPlace(v, d, l, a.ty, ix);
    if !a.hasBitmap {
      forall c | c in cells[..j] ensures c.Some? { assert c in cells; }
      AllPresent(cells[..j]);
    }
    FixedAt(m, a.start, a.ty, cells, j);
  }

  /** luaP_pushdatum for an array with at least one dimension: whatever elements the
      memory holds, the result is the table that has exactly those. */
  method PushDatum(arr: ArrayType, ty: ElemType, ghost cells: seq<Cell>) returns (r: Value)
    requires |arr.dims| == |arr.lbound| >= 1 && |cells| == Count(arr.dims)
    requires arr.Place(ty).Holds(arr.mem[..], cells)
    ensures r == Build(cells, arr.dims, arr.lbound)
  {
    ghost var v := Build(cells, arr.dims, arr.lbound);
    FlattenBuild(cells, arr.dims, arr.lbound, ty);
    var reader := new Reader(arr.Place(ty), arr.mem, cells);
    assert [] + cells == cells;
    r := reader.PushArray(arr.dims, arr.lbound, v);
    assert reader.done == cells && reader.p == reader.a.start + Size(ty, cells);
  }

  /** A table is rebuilt from its elements. */
  lemma BuildFlatten(v: Value, d: seq<nat>, l: seq<int>, ty: ElemType)
    requires |d| == |l| && d != [] && IsBox(v, d, l, ty)
    ensures Build(Flatten(v, d, l, ty), d, l) == v
  {
    var cells := Flatten(v, d, l, ty);
    FlattenBuild(cells, d, l, ty);
    FlattenInjective(Build(cells, d, l), v, d, l, ty);
  }

  /** Table to array to table is the identity, whenever the table converts at all. */
  method RoundTrip(v: Value, ty: ElemType, ghost d: seq<nat>, ghost l: seq<int>) returns (r: Result<Value, ArrayError>)
    requires ty.WellFormed() && 1 <= |d| == |l| <= MAXDIM && Regular(v, d, l, ty)
    ensures IsBox(v, d, l, ty) && (if Accepted(v, d, l, ty) then r == Ok(v) else r.Err?)
  {
    hide Flatten, IsBox, Regular, Build;
    NotEmpty(v, d, l, ty);
    FlattenFacts(v, d, l, ty);
    var arr := ToDatum(v, ty, d, l);
    if arr.Err? {
      return Err(arr.error);
    }
    BuildFlatten(v, d, l, ty);
    var w := PushDatum(arr.value, ty, Flatten(v, d, l, ty));
    return Ok(w);
  }

  // ---------- The refusal of legal six-dimensional tables ----------

  /** {{...{x}...}} with n levels. */
  function Nest(n: nat, x: Bytes): Value {
    if n == 0 then Leaf(x) else Table(map[1 := Nest(n - 1, x)])
  }

  ghost function Ones(n: nat): (s: seq<nat>)
    ensures |s| == n && forall i :: 0 <= i < n ==> s[i] == 1
  {
    if n == 0 then [] else [1] + Ones(n - 1)
  }

  lemma {:induction false} NestIsRegular(n: nat, x: Bytes, ty: ElemType)
    requires n >= 1 && ty.WellFormed() && IsDatum(ty, x)
    ensures Regular(Nest(n, x), Ones(n), Ones(n), ty) && NoHoles(Nest(n, x), Ones(n), Ones(n))
    ensures Flatten(Nest(n, x), Ones(n), Ones(n), ty) == [Some(x)]
  {
    assert Ones(n)[1..] == Ones(n - 1);
    if n > 1 { NestIsRegular(n - 1, x, ty); }
    NestFlattens(n, x, ty);
  }

  lemma NestFlattens(n: nat, x: Bytes, ty: ElemType)
    requires n >= 1 && IsBox(Nest(n, x), Ones(n), Ones(n), ty)
    requires n > 1 ==> IsBox(Nest(n - 1, x), Ones(n - 1), Ones(n - 1), ty) && Flatten(Nest(n - 1, x), Ones(n - 1), Ones(n - 1), ty) == [Some(x)]
    ensures Flatten(Nest(n, x), Ones(n), Ones(n), ty) == [Some(x)]
  {
    hide IsBox;
    var v, d := Nest(n, x), Ones(n);
    assert d[1..] == Ones(n - 1);
    assert Rows(v, d, d, ty, 0) == [];
    RowsStep(v, d, d, ty, 0);
  }

  /** Two rows of five nested levels. */
  function Pair(x: Bytes): Value {
    Table(map[1 := Nest(5, x), 2 := Nest(5, x)])
  }

  ghost const PAIR_DIMS: seq<nat> := [2] + Ones(5)
  ghost const PAIR_LB: seq<int> := [1] + Ones(5)

  lemma PairIsRegular(x: Bytes, ty: ElemType)
    requires ty.WellFormed() && IsDatum(ty, x)
    ensures Regular(Pair(x), PAIR_DIMS, PAIR_LB, ty) && NoHoles(Pair(x), PAIR_DIMS, PAIR_LB)
    ensures Flatten(Pair(x), PAIR_DIMS, PAIR_LB, ty) == [Some(x), Some(x)]
  {
    NestIsRegular(5, x, ty);
    assert PAIR_DIMS[1..] == Ones(5) && PAIR_LB[1..] == Ones(5);
    hide Nest, Flatten, Ones;
    TwoRows(Nest(5, x), PAIR_DIMS, PAIR_LB, ty);
    PairRows(x, ty);
  }

  /** Two equal rows without holes are a regular table without holes. */
  lemma TwoRows(row: Value, d: seq<nat>, l: seq<int>, ty: ElemType)
    requires |d| == |l| && |d| > 1 && d[0] == 2 && l[0] == 1
    requires Regular(row, d[1..], l[1..], ty) && NoHoles(row, d[1..], l[1..])
    ensures Regular(Table(map[1 := row, 2 := row]), d, l, ty) && NoHoles(Table(map[1 := row, 2 := row]), d, l)
  {
  }

  lemma PairRows(x: Bytes, ty: ElemType)
    requires PAIR_DIMS[1..] == Ones(5) && PAIR_LB[1..] == Ones(5)
    requires IsBox(Nest(5, x), Ones(5), Ones(5), ty) && Flatten(Nest(5, x), Ones(5), Ones(5), ty) == [Some(x)]
    requires IsBox(Pair(x), PAIR_DIMS, PAIR_LB, ty)
    ensures Flatten(Pair(x), PAIR_DIMS, PAIR_LB, ty) == [Some(x), Some(x)]
  {
    hide Nest, IsBox, Rows;
    var v := Pair(x);
    assert |Rows(v, PAIR_DIMS, PAIR_LB, ty, 0)| == 0;
    RowsStep(v, PAIR_DIMS, PAIR_LB, ty, 0);
    RowsStep(v, PAIR_DIMS, PAIR_LB, ty, 1);
  }

  lemma SizeOfPair(x: Bytes)
    requires |x| == 1
    ensures Size(Fixed(1, 1), [Some(x)]) == 1 && Size(Fixed(1, 1), [Some(x), Some(x)]) == 2
  {
    SizeOne(Fixed(1, 1), Some(x));
    SizeConcat(Fixed(1, 1), [Some(x)], [Some(x)]);
    assert [Some(x)] + [Some(x)] == [Some(x), Some(x)];
  }

  /** MAXDIM dimensions and two elements, far below every size limit; and one such row
      alone. */
  lemma SixDimensions(x: Bytes)
    requires |x| == 1
    ensures var ty, v := Fixed(1, 1), Pair(x);
      && |PAIR_DIMS| == MAXDIM && Regular(v, PAIR_DIMS, PAIR_LB, ty) && RowsFit(v, PAIR_DIMS, PAIR_LB, ty)
      && Count(PAIR_DIMS) == 2 && Size(ty, Flatten(v, PAIR_DIMS, PAIR_LB, ty)) == 2
    ensures Regular(Nest(6, x), Ones(6), Ones(6), Fixed(1, 1)) && Accepted(Nest(6, x), Ones(6), Ones(6), Fixed(1, 1))
  {
    hide Nest, IsBox, Flatten, Rows, Size, Regular, RowsFit, NoHoles, Count, AlignUp;
    PairIsRegular(x, Fixed(1, 1));
    NestIsRegular(6, x, Fixed(1, 1));
    CountOnes(6);
    CountPair();
    SizeOfPair(x);
    OverheadIs(6, 1, false);
    FlattenFacts(Pair(x), PAIR_DIMS, PAIR_LB, Fixed(1, 1));
    WholeFits(Pair(x), PAIR_DIMS, PAIR_LB, Fixed(1, 1));
  }

  /** The two rows are refused as exceeding the number of dimensions, the single row
      converts. */
  method SixDimensionsRefused(x: Bytes) returns (two: Result<ArrayType, ArrayError>, one: Result<ArrayType, ArrayError>)
    requires |x| == 1
    ensures two == Err(TooManyDims) && one.Ok?
  {
    hide Nest, IsBox, Flatten, Rows, Size, Regular, RowsFit, NoHoles, Count, AlignUp, Accepted;
    SixDimensions(x);
    NotEmpty(Pair(x), PAIR_DIMS, PAIR_LB, Fixed(1, 1));
    NotTheEmptyTable(x);
    two := ToDatum(Pair(x), Fixed(1, 1), PAIR_DIMS, PAIR_LB);
    one := ToDatum(Nest(6, x), Fixed(1, 1), Ones(6), Ones(6));
  }

  lemma NotTheEmptyTable(x: Bytes)
    ensures Pair(x) != Table(map[]) && Nest(6, x) != Table(map[])
  {
    hide IsBox;
    assert 1 in Pair(x).items && Nest(6, x).Table? && 1 in Nest(6, x).items;
  }

  lemma CountPair()
    ensures Count(PAIR_DIMS) == 2
  {
    CountOnes(5);
    assert PAIR_DIMS[1..] == Ones(5);
  }

  lemma {:induction false} CountOnes(n: nat)
    ensures Count(Ones(n)) == 1
  {
    if n > 0 {
      CountOnes(n - 1);
      assert Ones(n)[1..] == Ones(n - 1);
    }
  }
}
