/** luaP_toarray and luaP_pusharray: the recursive writer and reader that thread one data
    pointer and one bitmap cursor through all dimensions. */
module ArrayCodec {
  import opened Memory
  import opened ArrayLayout
  import opened ArrayTables

  /** Where the parts of one array lie in its memory: the bitmap, if there is one, from
      offset bits, the data from offset start. */
  datatype Layout = Layout(ty: ElemType, hasBitmap: bool, bits: nat, start: nat) {
    ghost predicate Fits(length: nat, cells: seq<Cell>) {
      && ty.WellFormed()
      && start % 8 == 0
      && start + Size(ty, cells) <= length
      && (hasBitmap ==> bits + (|cells| + 7) / 8 <= start)
      && forall c {:trigger c in cells} :: c in cells ==> IsCell(ty, c)
    }

    /** The memory is the array of the cells. */
    ghost predicate Holds(m: Bytes, cells: seq<Cell>) {
      && Fits(|m|, cells)
      && Encoded(m, start, ty, cells)
      && (if hasBitmap then BitmapFor(m, bits, cells) else NullFree(cells))
    }
  }

  ghost predicate NullFree(cells: seq<Cell>) {
    forall c :: c in cells ==> c.Some?
  }

  lemma StartAligned(start: nat, ty: ElemType)
    requires ty.WellFormed() && start % 8 == 0
    ensures start % ty.align == 0
  {
    match ty.align
    case 1 =>
    case 2 =>
    case 4 =>
    case _ =>
  }

  // ---------- The writer ----------

  /** What has been written so far is the array of the cells done, except that the last
      partial bitmap byte is still in bitval. */
  ghost predicate Written(m: Bytes, a: Layout, done: seq<Cell>, bitval: nat) {
    && a.Fits(|m|, done)
    && Encoded(m, a.start, a.ty, done)
    && (if a.hasBitmap then BitsWritten(m, a.bits, done, bitval) else NullFree(done))
  }

  predicate InArray(a: Layout, done: seq<Cell>, i: int)
    requires a.ty.WellFormed()
  {
    || a.start <= i < a.start + Size(a.ty, done)
    || (a.hasBitmap && a.bits <= i < a.bits + (|done| + 7) / 8)
  }

  /** Only the bitmap bytes and the data of the cells done differ from the old memory. */
  ghost predicate OnlyArray(m: Bytes, m': Bytes, a: Layout, done: seq<Cell>)
    requires a.ty.WellFormed()
  {
    && |m'| == |m|
    && forall i :: 0 <= i < |m| && !InArray(a, done, i) ==> m'[i] == m[i]
  }

  /** memmove of b to offset p */
  ghost predicate Copied(m: Bytes, m': Bytes, p: nat, b: Bytes) {
    && |m'| == |m| && p + |b| <= |m| && m'[p..p + |b|] == b
    && forall i :: 0 <= i < |m| && !(p <= i < p + |b|) ==> m'[i] == m[i]
  }

  lemma DataWritten(m: Bytes, m': Bytes, a: Layout, done: seq<Cell>, bitval: nat, b: Bytes)
    requires Written(m, a, done, bitval) && IsDatum(a.ty, b) && |m'| == |m|
    requires Copied(m, m', a.start + Size(a.ty, done), b)
    requires a.Fits(|m|, done + [Some(b)])
    ensures Encoded(m', a.start, a.ty, done + [Some(b)])
    ensures a.hasBitmap ==> BitsWritten(m', a.bits, done, bitval)
    ensures Size(a.ty, done + [Some(b)]) == Size(a.ty, done) + AlignUp(|b|, a.ty.align)
  {
    EncodedKept(m, m', a.start, a.ty, done);
    EncodedConcat(m', a.start, a.ty, done, [Some(b)]);
    SizeConcat(a.ty, done, [Some(b)]);
    SizeOne(a.ty, Some(b));
    EncodedOne(m', a.start + Size(a.ty, done), a.ty, b);
    if a.hasBitmap { BitsKept(m, m', a.bits, done, bitval); }
  }

  lemma EncodedOne(m: Bytes, at: nat, ty: ElemType, b: Bytes)
    requires ty.WellFormed() && at + |b| <= |m| && m[at..at + |b|] == b
    ensures Encoded(m, at, ty, [Some(b)])
  {
    assert [Some(b)][1..] == [];
  }

  lemma PartFits(a: Layout, length: nat, done: seq<Cell>, total: seq<Cell>)
    requires a.Fits(length, total) && done <= total
    ensures a.Fits(length, done) && Size(a.ty, done) <= Size(a.ty, total)
  {
    assert total == done + total[|done|..];
    SizeConcat(a.ty, done, total[|done|..]);
    forall c | c in done ensures IsCell(a.ty, c) { assert c in total; }
  }

  lemma NextFits(a: Layout, length: nat, done: seq<Cell>, total: seq<Cell>)
    requires a.Fits(length, total) && done < total
    ensures a.Fits(length, done + [total[|done|]]) && done + [total[|done|]] <= total
    ensures var c := total[|done|]; IsCell(a.ty, c) && (c.Some? ==> a.start + Size(a.ty, done) + |c.value| <= length)
  {
    var c := total[|done|];
    assert c in total;
    PartFits(a, length, done + [c], total);
    SizeConcat(a.ty, done, [c]);
    SizeOne(a.ty, c);
    if c.Some? { AlignIncrement(0, |c.value|, a.ty); }
  }

  /** One cell's data, and everything else still in place. */
  lemma DataStep(before: Bytes, m: Bytes, m': Bytes, a: Layout, done: seq<Cell>, bitval: nat, c: Cell)
    requires Written(m, a, done, bitval) && OnlyArray(before, m, a, done) && a.Fits(|m|, done + [c])
    requires c.Some? ==> Copied(m, m', a.start + Size(a.ty, done), c.value)
    requires c.None? ==> m' == m
    ensures Encoded(m', a.start, a.ty, done + [c]) && OnlyArray(before, m', a, done + [c])
    ensures a.hasBitmap ==> BitsWritten(m', a.bits, done, bitval)
    ensures Size(a.ty, done + [c]) == Size(a.ty, done) + Advance(a.ty, c)
  {
    SizeConcat(a.ty, done, [c]);
    SizeOne(a.ty, c);
    if c.Some? {
      assert c in done + [c];
      DataWritten(m, m', a, done, bitval, c.value);
      StartAligned(a.start, a.ty);
      AlignIncrement(0, |c.value|, a.ty);
    } else {
      EncodedConcat(m, a.start, a.ty, done, [c]);
      EncodedNull(m, a.start + Size(a.ty, done), a.ty);
    }
  }

  lemma EncodedNull(m: Bytes, at: nat, ty: ElemType)
    requires ty.WellFormed()
    ensures Encoded(m, at, ty, [None])
  {
    var none: Cell := None;
    assert [none][1..] == [];
  }

  /** The bit of the cell whose data was just written: the byte may fill up. */
  lemma BitStep(before: Bytes, m: Bytes, a: Layout, done: seq<Cell>, bitval: nat, c: Cell)
    requires a.hasBitmap && a.Fits(|m|, done + [c]) && OnlyArray(before, m, a, done + [c])
    requires Encoded(m, a.start, a.ty, done + [c]) && BitsWritten(m, a.bits, done, bitval)
    ensures BitAdded(bitval, |done|, c) < 0x100
    ensures |done| % 8 != 7 ==> Written(m, a, done + [c], BitAdded(bitval, |done|, c))
    ensures |done| % 8 == 7 ==>
      && a.bits + |done| / 8 < a.start <= |m|
      && Written(m[a.bits + |done| / 8 := BitAdded(bitval, |done|, c)], a, done + [c], 0)
      && OnlyArray(before, m[a.bits + |done| / 8 := BitAdded(bitval, |done|, c)], a, done + [c])
  {
    BitAdds(m, a.bits, done, bitval, c);
    if |done| % 8 == 7 {
      ByteFills(m, a.bits, done, bitval, c);
      EncodedKept(m, m[a.bits + |done| / 8 := BitAdded(bitval, |done|, c)], a.start, a.ty, done + [c]);
    }
  }

  /** The partial byte at the end of a vector. */
  lemma FlushStep(before: Bytes, m: Bytes, a: Layout, done: seq<Cell>, bitval: nat)
    requires a.hasBitmap && |done| % 8 != 0 && Written(m, a, done, bitval) && OnlyArray(before, m, a, done)
    ensures a.bits + |done| / 8 < a.start <= |m|
    ensures Written(m[a.bits + |done| / 8 := bitval], a, done, bitval)
    ensures OnlyArray(before, m[a.bits + |done| / 8 := bitval], a, done)
  {
    var m' := m[a.bits + |done| / 8 := bitval];
    EncodedKept(m, m', a.start, a.ty, done);
    BitsKept(m, m', a.bits, done, bitval);
  }

  lemma MaskOne(k: nat)
    requires k < 8
    ensures Mask(k) == 1 <==> k == 0
    ensures 2 * Mask(k) == Mask(k + 1)
    ensures 2 * Mask(k) == 0x100 <==> k == 7
  {
    ByteMask();
    if k > 0 { MaskGrows(0, k); }
    if k < 7 { MaskGrows(k + 1, 8); }
  }

  /** att_addlength_pointer(0, typlen, p): the length of the datum at p, from its bytes. */
  method DatumLength(ty: ElemType, m: Bytes, p: nat, ghost b: Bytes) returns (n: nat)
    requires p + |b| <= |m| && m[p..p + |b|] == b && IsDatum(ty, b)
    ensures n == |b|
  {
    match ty {
      case Fixed(len, _) => n := len;
      case Varlena(_) =>
        assert m[p..p + 4] == b[..4];
        n := Header(m[p..p + 4]) / 4;
      case CString(_) =>
        n := 0;
        while m[p + n] != 0
          invariant n < |b| && forall i :: 0 <= i < n ==> b[i] != 0
          decreases |b| - n
        {
          assert m[p + n] == b[n];
          n := n + 1;
        }
        assert m[p + n] == b[n];
        n := n + 1;
    }
  }

  class Writer {
    const a: Layout
    const mem: array<Byte>
    var p: nat
    var bitmap: nat
    var bitmask: nat
    var bitval: nat
    ghost const before: Bytes
    ghost const total: seq<Cell>
    ghost var done: seq<Cell>

    ghost predicate Valid()
      reads this, mem
    {
      && a.Fits(mem.Length, total) && done <= total
      && Written(mem[..], a, done, bitval) && OnlyArray(before, mem[..], a, done)
      && p == a.start + Size(a.ty, done)
      && bitval < 0x100
      && (if a.hasBitmap then bitmap == a.bits + |done| / 8 && bitmask == Mask(|done| % 8) else bitmask == 1)
    }

    /** The partial byte of the bitmap is in memory. */
    ghost predicate Flushed()
      reads this, mem
    {
      a.hasBitmap && |done| % 8 != 0 ==> bitmap < mem.Length && mem[bitmap] == bitval
    }

    constructor (a: Layout, mem: array<Byte>, ghost total: seq<Cell>)
      requires a.Fits(mem.Length, total)
      ensures this.a == a && this.mem == mem && this.total == total && before == mem[..]
      ensures Valid() && Flushed() && done == []
    {
      this.a, this.mem, this.total, before := a, mem, total, mem[..];
      p, bitmap, bitmask, bitval, done := a.start, a.bits, 1, 0, [];
      new;
      forall i | 0 <= i < 8 ensures !Bit(0, i) { ZeroBit(i); }
    }

    /** The body of the vector loop, for the element c. */
    method Put(c: Cell) returns (ok: bool)
      requires Valid() && |done| < |total| && total[|done|] == c
      modifies this, mem
      ensures ok <==> c.Some? || a.hasBitmap
      ensures ok ==> Valid() && done == old(done) + [c]
    {
      hide Encoded, OnlyArray, BitsWritten, Size, Or, Mask, AlignUp, IsDatum, InArray;
      NextFits(a, mem.Length, done, total);
      ghost var m := mem[..];
      if c.Some? {
        var inc := DatumLength(a.ty, c.value, 0, c.value);
        bitval := Or(bitval, bitmask);
        Move(p, c.value, inc);
        p := p + AlignUp(inc, a.ty.align);
      } else if !a.hasBitmap {
        return false;
      }
      DataStep(before, m, mem[..], a, done, old(bitval), c);
      if a.hasBitmap {
        ShiftBit(c, old(bitval));
      } else {
        OrMask(old(bitval), 0);
        MaskOne(0);
      }
      done := done + [c];
      return true;
    }

    /** bitmask moves on, and a full byte is stored. */
    method ShiftBit(ghost c: Cell, ghost bits: nat)
      requires a.hasBitmap && a.Fits(mem.Length, done + [c])
      requires Encoded(mem[..], a.start, a.ty, done + [c]) && OnlyArray(before, mem[..], a, done + [c])
      requires BitsWritten(mem[..], a.bits, done, bits) && bitval == BitAdded(bits, |done|, c)
      requires bitmap == a.bits + |done| / 8 && bitmask == Mask(|done| % 8)
      modifies this`bitmask, this`bitmap, this`bitval, mem
      ensures Written(mem[..], a, done + [c], bitval) && OnlyArray(before, mem[..], a, done + [c])
      ensures bitval < 0x100
      ensures bitmap == a.bits + (|done| + 1) / 8 && bitmask == Mask((|done| + 1) % 8)
    {
      hide Encoded, OnlyArray, BitsWritten, Size, Or, Mask;
      BitStep(before, mem[..], a, done, bits, c);
      MaskOne(|done| % 8);
      MaskOne(0);
      bitmask := 2 * bitmask;
      if bitmask == 0x100 {
        ghost var m: Bytes := mem[..];
        mem[bitmap] := bitval;
        assert mem[..] == m[bitmap := bitval];
        bitmap := bitmap + 1;
        bitval := 0;
        bitmask := 1;
      }
    }

    /** luaP_toarray: all elements of v, innermost dimension fastest.  The result is false
        where the source raises "no support for null elements". */
    method ToArray(v: Value, dims: seq<nat>, lb: seq<int>) returns (ok: bool)
      requires |dims| == |lb| && IsBox(v, dims, lb, a.ty)
      requires Valid() && Flushed() && done + Flatten(v, dims, lb, a.ty) <= total
      modifies this, mem
      ensures ok <==> a.hasBitmap || NullFree(Flatten(v, dims, lb, a.ty))
      ensures ok ==> Valid() && Flushed() && done == old(done) + Flatten(v, dims, lb, a.ty)
      decreases |dims|
    {
      if |dims| == 1 {
        ok := ToVector(v, dims, lb);
        return;
      }
      ghost var first := done;
      for i := 0 to dims[0]
        invariant Valid() && Flushed() && done == first + Rows(v, dims, lb, a.ty, i)
        invariant a.hasBitmap || NullFree(Rows(v, dims, lb, a.ty, i))
      {
        hide Encoded, OnlyArray, BitsWritten, Size, Mask, IsBox, Rows;
        NextRow(v, dims, lb, a.ty, i, first, total);
        ok := ToArray(v.items[lb[0] + i], dims[1..], lb[1..]);
        if !ok {
          return;
        }
      }
      return true;
    }

    /** The innermost dimension. */
    method ToVector(v: Value, dims: seq<nat>, lb: seq<int>) returns (ok: bool)
      requires |dims| == |lb| == 1 && IsBox(v, dims, lb, a.ty)
      requires Valid() && done + Flatten(v, dims, lb, a.ty) <= total
      modifies this, mem
      ensures ok <==> a.hasBitmap || NullFree(Flatten(v, dims, lb, a.ty))
      ensures ok ==> Valid() && Flushed() && done == old(done) + Flatten(v, dims, lb, a.ty)
    {
      ghost var first := done;
      for i := 0 to dims[0]
        invariant Valid() && done == first + Rows(v, dims, lb, a.ty, i)
        invariant a.hasBitmap || NullFree(Rows(v, dims, lb, a.ty, i))
      {
        hide Encoded, OnlyArray, BitsWritten, Size, Mask, IsBox, Rows;
        NextRow(v, dims, lb, a.ty, i, first, total);
        ok := Put(CellAt(v.items, lb[0] + i));
        if !ok {
          return;
        }
      }
      Flush();
      return true;
    }

    method Flush()
      requires Valid()
      modifies mem
      ensures Valid() && Flushed()
    {
      hide Encoded, OnlyArray, BitsWritten, Size, Mask;
      MaskOne(|done| % 8);
      if a.hasBitmap && bitmask != 1 {
        FlushStep(before, mem[..], a, done, bitval);
        ghost var m: Bytes := mem[..];
        mem[bitmap] := bitval;
        assert mem[..] == m[bitmap := bitval];
      }
    }

    /** memmove */
    method Move(at: nat, b: Bytes, n: nat)
      requires n == |b| && at + n <= mem.Length
      modifies mem
      ensures Copied(old(mem[..]), mem[..], at, b)
    {
      forall i | 0 <= i < n {
        mem[at + i] := b[i];
      }
      assert mem[at..at + n] == b;
    }
  }

  // ---------- The reader ----------

  class Reader {
    const a: Layout
    const mem: array<Byte>
    var p: nat
    var bitmap: nat
    var bitmask: nat
    ghost const total: seq<Cell>
    ghost var done: seq<Cell>

    ghost predicate Valid()
      reads this, mem
    {
      && a.Holds(mem[..], total) && done <= total
      && p == a.start + Size(a.ty, done)
      && (if a.hasBitmap then bitmap == a.bits + |done| / 8 && bitmask == Mask(|done| % 8) else bitmask == 1)
    }

    constructor (a: Layout, mem: array<Byte>, ghost total: seq<Cell>)
      requires a.Holds(mem[..], total)
      ensures this.a == a && this.mem == mem && this.total == total
      ensures Valid() && done == []
    {
      this.a, this.mem, this.total := a, mem, total;
      p, bitmap, bitmask, done := a.start, a.bits, 1, [];
    }

    /** The body of the vector loop: the next element, its place found from the bytes
        that are there. */
    method Get() returns (c: Cell)
      requires Valid() && |done| < |total|
      modifies this
      ensures Valid() && done == old(done) + [c] && c == total[|old(done)|]
    {
      hide Encoded, BitmapFor, Size, Mask, Or, And;
      ghost var next := total[|done|];
      CellThere(mem[..], a, done, total);
      c := None;
      if !a.hasBitmap || And(mem[bitmap], bitmask) != 0 {
        var n := DatumLength(a.ty, mem[..], p, next.value);
        c := Some(mem[p..p + n]);
        p := AlignUp(p + n, a.ty.align);
      }
      if a.hasBitmap {
        MaskOne(|done| % 8);
        MaskOne(0);
        bitmask := 2 * bitmask;
        if bitmask == 0x100 {
          bitmap := bitmap + 1;
          bitmask := 1;
        }
      }
      done := done + [c];
    }

    /** luaP_pusharray: the nested table of the next elements. */
    method PushArray(dims: seq<nat>, lb: seq<int>, ghost v: Value) returns (r: Value)
      requires Valid() && |dims| == |lb| && IsBox(v, dims, lb, a.ty)
      requires done + Flatten(v, dims, lb, a.ty) <= total
      modifies this
      ensures Valid() && done == old(done) + Flatten(v, dims, lb, a.ty) && r == v
      decreases |dims|
    {
      hide Before, Count;
      var items: map<int, Value> := map[];
      ghost var first := done;
      assert UpTo(v.items, lb[0]) == map[];
      for i := 0 to dims[0]
        invariant Valid() && done == first + Rows(v, dims, lb, a.ty, i)
        invariant items == UpTo(v.items, lb[0] + i)
      {
        hide Encoded, BitmapFor, Size, Mask, IsBox, Rows, UpTo;
        NextRow(v, dims, lb, a.ty, i, first, total);
        UpToNext(v, dims, lb, a.ty, i);
        if |dims| == 1 {
          var c := Get();
          if c.Some? {
            items := items[lb[0] + i := Leaf(c.value)];
          }
        } else {
          var row := PushArray(dims[1..], lb[1..], v.items[lb[0] + i]);
          items := items[lb[0] + i := row];
        }
      }
      assert items == v.items;
      return Table(items);
    }
  }

  /** The fields with keys below k. */
  ghost function UpTo(items: map<int, Value>, k: int): map<int, Value> {
    map j | j in items && j < k :: items[j]
  }

  lemma UpToNext(v: Value, dims: seq<nat>, lb: seq<int>, ty: ElemType, i: nat)
    requires |dims| == |lb| && IsBox(v, dims, lb, ty) && i < dims[0]
    ensures var k := lb[0] + i; var c := CellAt(v.items, k);
      if |dims| == 1 then
        UpTo(v.items, k + 1) == if c.Some? then UpTo(v.items, k)[k := Leaf(c.value)] else UpTo(v.items, k)
      else k in v.items && UpTo(v.items, k + 1) == UpTo(v.items, k)[k := v.items[k]]
  {
  }

  /** What the reader finds at its cursors, and where they go next. */
  lemma CellThere(m: Bytes, a: Layout, done: seq<Cell>, total: seq<Cell>)
    requires a.Holds(m, total) && done < total
    ensures var c, p := total[|done|], a.start + Size(a.ty, done);
      && done + [c] <= total && IsCell(a.ty, c)
      && Size(a.ty, done + [c]) == Size(a.ty, done) + Advance(a.ty, c)
      && (c.Some? ==>
           && p + |c.value| <= |m| && m[p..p + |c.value|] == c.value
           && AlignUp(p + |c.value|, a.ty.align) == p + Advance(a.ty, c))
      && (if a.hasBitmap then a.bits + |done| / 8 < |m| && (And(m[a.bits + |done| / 8], Mask(|done| % 8)) != 0 <==> c.Some?)
          else c.Some?)
  {
    hide Encoded, Size, AlignUp, And, Mask, BitmapFor;
    var c := total[|done|];
    assert c in total;
    EncodedNext(m, a.start, a.ty, done, total);
    StartAligned(a.start, a.ty);
    SizeAligned(a.ty, done);
    ModSum(a.start, Size(a.ty, done), a.ty);
    if c.Some? { AlignIncrement(a.start + Size(a.ty, done), |c.value|, a.ty); }
    if a.hasBitmap { BitThere(m, a.bits, total, |done|); }
  }

  lemma BitThere(m: Bytes, bits: nat, cells: seq<Cell>, j: nat)
    requires BitmapFor(m, bits, cells) && j < |cells|
    ensures bits + j / 8 < |m| && (And(m[bits + j / 8], Mask(j % 8)) != 0 <==> cells[j].Some?)
  {
    assert BitAt(m, bits, j) <==> There(cells, j);
    AndMask(m[bits + j / 8], j % 8);
  }

  lemma ModSum(x: nat, y: nat, ty: ElemType)
    requires ty.WellFormed() && x % ty.align == 0 && y % ty.align == 0
    ensures (x + y) % ty.align == 0
  {
    match ty.align
    case 1 =>
    case 2 => ModSum2(x, y);
    case 4 => ModSum4(x, y);
    case _ => ModSum8(x, y);
  }

  lemma ModSum2(x: nat, y: nat)
    requires x % 2 == 0 && y % 2 == 0
    ensures (x + y) % 2 == 0
  {
  }

  lemma ModSum4(x: nat, y: nat)
    requires x % 4 == 0 && y % 4 == 0
    ensures (x + y) % 4 == 0
  {
  }

  lemma ModSum8(x: nat, y: nat)
    requires x % 8 == 0 && y % 8 == 0
    ensures (x + y) % 8 == 0
  {
  }

  /** The next row of the loop: its elements come next, and if they contain a NULL so
      does the whole. */
  lemma NextRow(v: Value, dims: seq<nat>, lb: seq<int>, ty: ElemType, i: nat, first: seq<Cell>, total: seq<Cell>)
    requires |dims| == |lb| && IsBox(v, dims, lb, ty) && i < dims[0] && first + Flatten(v, dims, lb, ty) <= total
    ensures var rows, row := Rows(v, dims, lb, ty, i), Row(v, dims, lb, ty, i);
      && first + rows + row <= total && Rows(v, dims, lb, ty, i + 1) == rows + row
      && first + (rows + row) == first + rows + row
      && (|dims| == 1 ==> |first + rows| < |total| && total[|first + rows|] == CellAt(v.items, lb[0] + i) && row == [CellAt(v.items, lb[0] + i)])
      && (|dims| > 1 ==>
           && lb[0] + i in v.items && IsBox(v.items[lb[0] + i], dims[1..], lb[1..], ty)
           && row == Flatten(v.items[lb[0] + i], dims[1..], lb[1..], ty))
      && (NullFree(Flatten(v, dims, lb, ty)) ==> NullFree(row))
      && (NullFree(rows) && NullFree(row) ==> NullFree(rows + row))
  {
    var rows, row := Rows(v, dims, lb, ty, i), Row(v, dims, lb, ty, i);
    RowsStep(v, dims, lb, ty, i);
    RowsPrefix(v, dims, lb, ty, i + 1, dims[0]);
    var all := Flatten(v, dims, lb, ty);
    PrefixOf(first, rows, row, all, total);
    forall c | NullFree(all) && c in row ensures c.Some? { assert c in rows + row; assert c in all; }
    if |dims| == 1 { assert total[|first + rows|] == (first + rows + row)[|first + rows|]; }
  }

  lemma PrefixOf(first: seq<Cell>, rows: seq<Cell>, row: seq<Cell>, all: seq<Cell>, total: seq<Cell>)
    requires rows + row <= all && first + all <= total
    ensures first + rows + row <= total && first + (rows + row) == first + rows + row
  {
    assert all == (rows + row) + all[|rows + row|..];
    assert total == first + all + total[|first + all|..];
    assert total == first + rows + row + (all[|rows + row|..] + total[|first + all|..]);
  }
}
