/** Nested Lua tables as arrays: which tables are boxes, their elements in row-major
    order, and the proof that a box and its elements determine each other. */
module ArrayTables {
  import opened Memory
  import opened ArrayLayout

  /** A table field: an element, or a nested table with integer keys.  An absent key is
      a NULL element. */
  datatype Value = Leaf(datum: Bytes) | Table(items: map<int, Value>)

  /** The number of elements. */
  function Count(dims: seq<nat>): nat {
    if dims == [] then 1 else dims[0] * Count(dims[1..])
  }

  /** The number of elements in the first n rows, counted row by row. */
  function Before(dims: seq<nat>, n: nat): nat
    requires dims != []
  {
    if n == 0 then 0 else Before(dims, n - 1) + Count(dims[1..])
  }

  lemma {:induction false} BeforeIs(dims: seq<nat>, n: nat)
    requires dims != []
    ensures Before(dims, n) == n * Count(dims[1..])
    ensures n == dims[0] ==> Before(dims, n) == Count(dims)
  {
    if n > 0 {
      BeforeIs(dims, n - 1);
      NextProduct(n, Count(dims[1..]));
    }
  }

  lemma NextProduct(n: nat, w: nat)
    requires n > 0
    ensures (n - 1) * w + w == n * w
  {
  }

  lemma {:induction false} BeforeGrows(dims: seq<nat>, n: nat, m: nat)
    requires dims != [] && n <= m
    ensures Before(dims, n) <= Before(dims, m)
    decreases m
  {
    if n < m { BeforeGrows(dims, n, m - 1); }
  }

  /** Row i lies within the array. */
  lemma RowFits(dims: seq<nat>, i: nat)
    requires dims != [] && i < dims[0]
    ensures Before(dims, i) + Count(dims[1..]) == Before(dims, i + 1) <= Count(dims)
  {
    hide Count;
    BeforeGrows(dims, i + 1, dims[0]);
    BeforeIs(dims, dims[0]);
  }

  /** v is a rectangular box with the given dimensions and lower bounds: every nested
      table is there, elements may be missing. */
  ghost predicate IsBox(v: Value, dims: seq<nat>, lb: seq<int>, ty: ElemType)
    requires |dims| == |lb|
    decreases |dims|
  {
    && dims != [] && v.Table?
    && (forall k :: k in v.items ==> lb[0] <= k < lb[0] + dims[0])
    && (if |dims| == 1 then forall k :: k in v.items ==> v.items[k].Leaf? && IsDatum(ty, v.items[k].datum)
        else forall k :: lb[0] <= k < lb[0] + dims[0] ==> k in v.items && IsBox(v.items[k], dims[1..], lb[1..], ty))
  }

  function CellAt(items: map<int, Value>, k: int): Cell {
    if k in items && items[k].Leaf? then Some(items[k].datum) else None
  }

  /** The elements of the first n rows, in row-major order. */
  ghost function Rows(v: Value, dims: seq<nat>, lb: seq<int>, ty: ElemType, n: nat): (cells: seq<Cell>)
    requires |dims| == |lb| && IsBox(v, dims, lb, ty) && n <= dims[0]
    ensures |cells| == Before(dims, n)
    ensures forall c {:trigger c in cells} :: c in cells ==> IsCell(ty, c)
    decreases |dims|, n
  {
    if n == 0 then []
    else
      var before := Rows(v, dims, lb, ty, n - 1);
      var k := lb[0] + n - 1;
      var row := if |dims| == 1 then [CellAt(v.items, k)] else Rows(v.items[k], dims[1..], lb[1..], ty, dims[1]);
      assert |row| == Count(dims[1..]) by { if |dims| > 1 { BeforeIs(dims[1..], dims[1]); } }
      before + row
  }

  ghost function Flatten(v: Value, dims: seq<nat>, lb: seq<int>, ty: ElemType): (cells: seq<Cell>)
    requires |dims| == |lb| && IsBox(v, dims, lb, ty)
    ensures |cells| == Count(dims)
    ensures forall c {:trigger c in cells} :: c in cells ==> IsCell(ty, c)
  {
    BeforeIs(dims, dims[0]);
    Rows(v, dims, lb, ty, dims[0])
  }

  /** The elements of row i. */
  ghost function Row(v: Value, dims: seq<nat>, lb: seq<int>, ty: ElemType, i: nat): (cells: seq<Cell>)
    requires |dims| == |lb| && IsBox(v, dims, lb, ty) && i < dims[0]
    ensures |cells| == Count(dims[1..])
  {
    if |dims| == 1 then [CellAt(v.items, lb[0] + i)] else Flatten(v.items[lb[0] + i], dims[1..], lb[1..], ty)
  }

  lemma RowsStep(v: Value, dims: seq<nat>, lb: seq<int>, ty: ElemType, n: nat)
    requires |dims| == |lb| && IsBox(v, dims, lb, ty) && n < dims[0]
    ensures Rows(v, dims, lb, ty, n + 1) == Rows(v, dims, lb, ty, n) + Row(v, dims, lb, ty, n)
  {
  }

  lemma {:induction false} RowsPrefix(v: Value, dims: seq<nat>, lb: seq<int>, ty: ElemType, n: nat, m: nat)
    requires |dims| == |lb| && IsBox(v, dims, lb, ty) && n <= m <= dims[0]
    ensures Rows(v, dims, lb, ty, n) <= Rows(v, dims, lb, ty, m)
    decreases m
  {
    hide Rows, Row;
    if n < m {
      RowsPrefix(v, dims, lb, ty, n, m - 1);
      RowsStep(v, dims, lb, ty, m - 1);
    }
  }

  // ---------- Elements back into a table ----------

  /** The table whose elements are the cells: what an array reads as. */
  ghost function Build(cells: seq<Cell>, dims: seq<nat>, lb: seq<int>): Value
    requires |dims| == |lb| >= 1 && |cells| == Count(dims)
    decreases |dims|, 2
  {
    Table(BuildRows(cells, dims, lb, dims[0]))
  }

  /** The field that a row of elements becomes. */
  ghost function Field(row: seq<Cell>, dims: seq<nat>, lb: seq<int>): Option<Value>
    requires |dims| == |lb| >= 1 && |row| == Count(dims[1..])
    decreases |dims|, 0
  {
    if |dims| > 1 then Some(Build(row, dims[1..], lb[1..]))
    else if row[0].Some? then Some(Leaf(row[0].value))
    else None
  }

  ghost function Slice(cells: seq<Cell>, dims: seq<nat>, i: nat): (row: seq<Cell>)
    requires dims != [] && |cells| == Count(dims) && i < dims[0]
    ensures |row| == Count(dims[1..])
  {
    RowFits(dims, i);
    cells[Before(dims, i)..Before(dims, i + 1)]
  }

  ghost function BuildRows(cells: seq<Cell>, dims: seq<nat>, lb: seq<int>, n: nat): map<int, Value>
    requires |dims| == |lb| >= 1 && |cells| == Count(dims) && n <= dims[0]
    decreases |dims|, 1, n
  {
    if n == 0 then map[]
    else
      var before, field := BuildRows(cells, dims, lb, n - 1), Field(Slice(cells, dims, n - 1), dims, lb);
      if field.Some? then before[lb[0] + n - 1 := field.value] else before
  }

  ghost predicate Placed(m: map<int, Value>, cells: seq<Cell>, dims: seq<nat>, lb: seq<int>, i: nat)
    requires |dims| == |lb| >= 1 && |cells| == Count(dims) && i < dims[0]
  {
    var field, k := Field(Slice(cells, dims, i), dims, lb), lb[0] + i;
    (k in m <==> field.Some?) && (k in m ==> m[k] == field.value)
  }

  /** What BuildRows puts at each key. */
  lemma {:induction false} BuiltAt(cells: seq<Cell>, dims: seq<nat>, lb: seq<int>, n: nat)
    requires |dims| == |lb| >= 1 && |cells| == Count(dims) && n <= dims[0]
    ensures forall k :: k in BuildRows(cells, dims, lb, n) ==> lb[0] <= k < lb[0] + n
    ensures forall i {:trigger Placed(BuildRows(cells, dims, lb, n), cells, dims, lb, i)} :: 0 <= i < n ==>
      Placed(BuildRows(cells, dims, lb, n), cells, dims, lb, i)
    decreases n
  {
    if n > 0 {
      BuiltAt(cells, dims, lb, n - 1);
      var m, before := BuildRows(cells, dims, lb, n), BuildRows(cells, dims, lb, n - 1);
      hide Field, Slice;
      forall i | 0 <= i < n ensures Placed(m, cells, dims, lb, i) {
        assert i < n - 1 ==> Placed(before, cells, dims, lb, i);
      }
    }
  }

  ghost predicate AllCells(cells: seq<Cell>, ty: ElemType) {
    forall c :: c in cells ==> IsCell(ty, c)
  }

  /** Every rectangle of elements is the row-major order of a box. */
  lemma {:induction false} FlattenBuild(cells: seq<Cell>, dims: seq<nat>, lb: seq<int>, ty: ElemType)
    requires |dims| == |lb| >= 1 && |cells| == Count(dims) && AllCells(cells, ty)
    ensures IsBox(Build(cells, dims, lb), dims, lb, ty)
    ensures Flatten(Build(cells, dims, lb), dims, lb, ty) == cells
    decreases |dims|, 2
  {
    var v := Build(cells, dims, lb);
    BuiltAt(cells, dims, lb, dims[0]);
    forall k | lb[0] <= k < lb[0] + dims[0]
      ensures |dims| == 1 && k in v.items ==> v.items[k].Leaf? && IsDatum(ty, v.items[k].datum)
      ensures |dims| > 1 ==> k in v.items && IsBox(v.items[k], dims[1..], lb[1..], ty)
    {
      FieldIsBox(cells, dims, lb, ty, k - lb[0]);
    }
    RowsBuild(cells, dims, lb, ty, dims[0]);
    BeforeIs(dims, dims[0]);
    assert cells[..|cells|] == cells;
  }

  lemma {:induction false} FieldIsBox(cells: seq<Cell>, dims: seq<nat>, lb: seq<int>, ty: ElemType, i: nat)
    requires |dims| == |lb| >= 1 && |cells| == Count(dims) && AllCells(cells, ty) && i < dims[0]
    ensures var m, row := Build(cells, dims, lb).items, Slice(cells, dims, i);
      if |dims| == 1 then
        && CellAt(m, lb[0] + i) == row[0]
        && (lb[0] + i in m ==> m[lb[0] + i].Leaf? && IsDatum(ty, m[lb[0] + i].datum))
      else
        && lb[0] + i in m && IsBox(m[lb[0] + i], dims[1..], lb[1..], ty)
        && Flatten(m[lb[0] + i], dims[1..], lb[1..], ty) == row
    decreases |dims|, 0
  {
    hide IsBox, Flatten, BuildRows, Slice, AllCells;
    SliceCells(cells, dims, ty, i);
    var m, row := BuildRows(cells, dims, lb, dims[0]), Slice(cells, dims, i);
    BuiltAt(cells, dims, lb, dims[0]);
    assert Placed(m, cells, dims, lb, i);
    if |dims| > 1 { FlattenBuild(row, dims[1..], lb[1..], ty); }
  }

  lemma SliceCells(cells: seq<Cell>, dims: seq<nat>, ty: ElemType, i: nat)
    requires dims != [] && |cells| == Count(dims) && AllCells(cells, ty) && i < dims[0]
    ensures AllCells(Slice(cells, dims, i), ty) && |Slice(cells, dims, i)| == Count(dims[1..])
    ensures |dims| == 1 ==> |Slice(cells, dims, i)| == 1 && IsCell(ty, Slice(cells, dims, i)[0])
  {
    RowFits(dims, i);
    PartCells(cells, Before(dims, i), Before(dims, i + 1), ty);
  }

  lemma PartCells(cells: seq<Cell>, from: int, to: int, ty: ElemType)
    requires AllCells(cells, ty) && 0 <= from <= to <= |cells|
    ensures AllCells(cells[from..to], ty)
    ensures from < to ==> IsCell(ty, cells[from])
  {
    forall c | c in cells[from..to] ensures IsCell(ty, c) { assert c in cells; }
  }

  lemma {:induction false} RowsBuild(cells: seq<Cell>, dims: seq<nat>, lb: seq<int>, ty: ElemType, n: nat)
    requires |dims| == |lb| >= 1 && |cells| == Count(dims) && AllCells(cells, ty)
    requires IsBox(Build(cells, dims, lb), dims, lb, ty) && n <= dims[0]
    ensures Before(dims, n) <= |cells|
    ensures Rows(Build(cells, dims, lb), dims, lb, ty, n) == cells[..Before(dims, n)]
    decreases |dims|, 1, n
  {
    var v := Build(cells, dims, lb);
    if n > 0 {
      hide IsBox, Build, IsCell, Count, Slice, Row, Rows, Before;
      RowsBuild(cells, dims, lb, ty, n - 1);
      FieldIsBox(cells, dims, lb, ty, n - 1);
      RowIsSlice(cells, dims, lb, ty, n - 1);
      RowsStep(v, dims, lb, ty, n - 1);
      SliceExtends(cells, dims, n - 1);
    }
  }

  lemma RowIsSlice(cells: seq<Cell>, dims: seq<nat>, lb: seq<int>, ty: ElemType, i: nat)
    requires |dims| == |lb| >= 1 && |cells| == Count(dims) && i < dims[0]
    requires IsBox(Build(cells, dims, lb), dims, lb, ty)
    requires var m, row := Build(cells, dims, lb).items, Slice(cells, dims, i);
      if |dims| == 1 then CellAt(m, lb[0] + i) == row[0]
      else lb[0] + i in m && Flatten(m[lb[0] + i], dims[1..], lb[1..], ty) == row
    ensures Row(Build(cells, dims, lb), dims, lb, ty, i) == Slice(cells, dims, i)
  {
    hide Build, Slice;
    if |dims| == 1 { assert |Slice(cells, dims, i)| == 1; }
  }

  lemma SliceExtends(cells: seq<Cell>, dims: seq<nat>, i: nat)
    requires dims != [] && |cells| == Count(dims) && i < dims[0]
    ensures Before(dims, i) <= Before(dims, i + 1) <= |cells|
    ensures cells[..Before(dims, i + 1)] == cells[..Before(dims, i)] + Slice(cells, dims, i)
  {
    RowFits(dims, i);
    Extends(cells, Before(dims, i), Count(dims[1..]));
  }

  lemma Extends(cells: seq<Cell>, a: int, w: nat)
    requires 0 <= a && a + w <= |cells|
    ensures cells[..a + w] == cells[..a] + cells[a..a + w]
  {
  }

  /** A box is determined by its elements. */
  lemma {:induction false} FlattenInjective(v: Value, w: Value, dims: seq<nat>, lb: seq<int>, ty: ElemType)
    requires |dims| == |lb| && IsBox(v, dims, lb, ty) && IsBox(w, dims, lb, ty)
    requires Flatten(v, dims, lb, ty) == Flatten(w, dims, lb, ty)
    ensures v == w
    decreases |dims|
  {
    forall k | lb[0] <= k < lb[0] + dims[0]
      ensures (k in v.items <==> k in w.items) && (k in v.items ==> v.items[k] == w.items[k])
    {
      var i := k - lb[0];
      RowOf(v, dims, lb, ty, i);
      RowOf(w, dims, lb, ty, i);
      if |dims| == 1 {
        assert Row(v, dims, lb, ty, i)[0] == Row(w, dims, lb, ty, i)[0];
      } else {
        FlattenInjective(v.items[k], w.items[k], dims[1..], lb[1..], ty);
      }
    }
    assert v.items == w.items;
  }

  /** Row i sits at its place among all elements. */
  lemma RowOf(v: Value, dims: seq<nat>, lb: seq<int>, ty: ElemType, i: nat)
    requires |dims| == |lb| && IsBox(v, dims, lb, ty) && i < dims[0]
    ensures Before(dims, i) <= Before(dims, i + 1) <= |Flatten(v, dims, lb, ty)|
    ensures Row(v, dims, lb, ty, i) == Flatten(v, dims, lb, ty)[Before(dims, i)..Before(dims, i + 1)]
  {
    RowFits(dims, i);
    RowsStep(v, dims, lb, ty, i);
    RowsPrefix(v, dims, lb, ty, i + 1, dims[0]);
    PartAt(Flatten(v, dims, lb, ty), Rows(v, dims, lb, ty, i), Row(v, dims, lb, ty, i));
  }

  lemma PartAt(cells: seq<Cell>, rows: seq<Cell>, row: seq<Cell>)
    requires rows + row <= cells
    ensures |rows| + |row| <= |cells| && row == cells[|rows|..|rows| + |row|]
  {
  }

  // ---------- Subscripts ----------

  predicate Within(dims: seq<nat>, ix: seq<nat>) {
    |ix| == |dims| && forall j :: 0 <= j < |ix| ==> ix[j] < dims[j]
  }

  /** Where an array of these dimensions keeps the element with these zero-based
      subscripts: the last subscript varies fastest. */
  function Offset(dims: seq<nat>, ix: seq<nat>): nat
    requires |ix| == |dims|
  {
    if dims == [] then 0 else ix[0] * Count(dims[1..]) + Offset(dims[1..], ix[1..])
  }

  /** t[lb[0] + ix[0]][lb[1] + ix[1]]..., None if a field is missing. */
  function Subscripted(v: Value, lb: seq<int>, ix: seq<nat>): Cell
    requires |ix| == |lb|
    decreases |ix|
  {
    if ix == [] then (if v.Leaf? then Some(v.datum) else None)
    else if v.Table? && lb[0] + ix[0] in v.items then Subscripted(v.items[lb[0] + ix[0]], lb[1..], ix[1..])
    else None
  }

  /** Row-major order: each element is where its subscripts say. */
  lemma {:induction false} SubscriptsPlace(v: Value, dims: seq<nat>, lb: seq<int>, ty: ElemType, ix: seq<nat>)
    requires |dims| == |lb| && IsBox(v, dims, lb, ty) && Within(dims, ix)
    ensures Offset(dims, ix) < Count(dims)
    ensures Flatten(v, dims, lb, ty)[Offset(dims, ix)] == Subscripted(v, lb, ix)
    decreases |dims|
  {
    hide Rows, Count;
    var i := ix[0];
    BeforeIs(dims, i);
    RowOf(v, dims, lb, ty, i);
    RowFits(dims, i);
    if |dims| == 1 {
      OneDimension(dims, ix);
      assert Row(v, dims, lb, ty, i)[0] == CellAt(v.items, lb[0] + i);
    } else {
      SubscriptsPlace(v.items[lb[0] + i], dims[1..], lb[1..], ty, ix[1..]);
      var cells, p := Flatten(v, dims, lb, ty), Offset(dims[1..], ix[1..]);
      assert cells[Before(dims, i)..Before(dims, i + 1)][p] == cells[Before(dims, i) + p];
    }
  }

  lemma OneDimension(dims: seq<nat>, ix: seq<nat>)
    requires |dims| == |ix| == 1
    ensures Count(dims[1..]) == 1 && Offset(dims, ix) == ix[0] && Count(dims) == dims[0]
  {
    assert Offset(dims[1..], ix[1..]) == 0;
  }
}
