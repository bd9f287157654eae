/** How PostgreSQL lays an array out: aligned element data in row-major order and a
    packed bitmap that says which elements are there. */
module ArrayLayout {
  import opened Memory

  type Byte = b: int | 0 <= b < 0x100

  /** The bytes of one datum. */
  type Bytes = seq<Byte>

  /** An element of the array, None for NULL. */
  type Cell = Option<Bytes>

  /** typlen and typalign of the element type. */
  datatype ElemType = Fixed(len: nat, align: nat) | Varlena(align: nat) | CString(align: nat) {
    predicate WellFormed() {
      && (align == 1 || align == 2 || align == 4 || align == 8)
      && (Fixed? ==> len > 0)
    }
  }

  // ---------- Alignment ----------

  /** att_align_nominal */
  function AlignUp(n: nat, a: nat): nat
    requires a > 0
  {
    (n + a - 1) / a * a
  }

  /** Aligning gives the least multiple of the alignment that is not below n; what is
      aligned stays. */
  lemma AlignUpIsLeast(n: nat, a: nat)
    requires a == 1 || a == 2 || a == 4 || a == 8
    ensures n <= AlignUp(n, a) < n + a && AlignUp(n, a) % a == 0
    ensures n % a == 0 ==> AlignUp(n, a) == n
    ensures forall m: nat :: n <= m && m % a == 0 ==> AlignUp(n, a) <= m
  {
    hide AlignUp;
    if a == 1 { LeastBy1(n); } else if a == 2 { LeastBy2(n); } else if a == 4 { LeastBy4(n); } else { LeastBy8(n); }
    forall m: nat | n <= m && m % a == 0 ensures AlignUp(n, a) <= m {
      if a == 1 { } else if a == 2 { NoneBelow2(AlignUp(n, 2), m); } else if a == 4 { NoneBelow4(AlignUp(n, 4), m); } else { NoneBelow8(AlignUp(n, 8), m); }
    }
  }

  lemma LeastBy1(n: nat)
    ensures AlignUp(n, 1) == n
  {
    assert (n + 0) / 1 * 1 == n;
  }

  lemma LeastBy2(n: nat)
    ensures n <= AlignUp(n, 2) < n + 2 && AlignUp(n, 2) % 2 == 0 && (n % 2 == 0 ==> AlignUp(n, 2) == n)
  {
    assert n <= (n + 1) / 2 * 2 < n + 2;
  }

  lemma LeastBy4(n: nat)
    ensures n <= AlignUp(n, 4) < n + 4 && AlignUp(n, 4) % 4 == 0 && (n % 4 == 0 ==> AlignUp(n, 4) == n)
  {
    assert n <= (n + 3) / 4 * 4 < n + 4;
  }

  lemma LeastBy8(n: nat)
    ensures n <= AlignUp(n, 8) < n + 8 && AlignUp(n, 8) % 8 == 0 && (n % 8 == 0 ==> AlignUp(n, 8) == n)
  {
    assert n <= (n + 7) / 8 * 8 < n + 8;
  }

  lemma NoneBelow2(x: nat, m: nat)
    requires x % 2 == 0 && m % 2 == 0 && x < m + 2
    ensures x <= m
  {
  }

  lemma NoneBelow4(x: nat, m: nat)
    requires x % 4 == 0 && m % 4 == 0 && x < m + 4
    ensures x <= m
  {
  }

  lemma NoneBelow8(x: nat, m: nat)
    requires x % 8 == 0 && m % 8 == 0 && x < m + 8
    ensures x <= m
  {
  }

  /** The writer aligns each increment, the reader the running pointer: from an aligned
      start they are the same. */
  lemma AlignIncrement(p: nat, n: nat, ty: ElemType)
    requires ty.WellFormed() && p % ty.align == 0
    ensures AlignUp(p + n, ty.align) == p + AlignUp(n, ty.align)
    ensures AlignUp(n, ty.align) >= n && (p + AlignUp(n, ty.align)) % ty.align == 0
  {
    hide AlignUp;
    match ty.align {
      case 1 => AlignBy1(p, n);
      case 2 => AlignBy2(p, n);
      case 4 => AlignBy4(p, n);
      case _ => AlignBy8(p, n);
    }
  }

  lemma AlignBy1(p: nat, n: nat)
    requires p % 1 == 0
    ensures AlignUp(p + n, 1) == p + AlignUp(n, 1) && AlignUp(n, 1) >= n && (p + AlignUp(n, 1)) % 1 == 0
  {
    assert (p + n + 0) / 1 * 1 == p + (n + 0) / 1 * 1;
  }

  lemma AlignBy2(p: nat, n: nat)
    requires p % 2 == 0
    ensures AlignUp(p + n, 2) == p + AlignUp(n, 2) && AlignUp(n, 2) >= n && (p + AlignUp(n, 2)) % 2 == 0
  {
    assert (p + n + 1) / 2 * 2 == p + (n + 1) / 2 * 2;
  }

  lemma AlignBy4(p: nat, n: nat)
    requires p % 4 == 0
    ensures AlignUp(p + n, 4) == p + AlignUp(n, 4) && AlignUp(n, 4) >= n && (p + AlignUp(n, 4)) % 4 == 0
  {
    assert (p + n + 3) / 4 * 4 == p + (n + 3) / 4 * 4;
  }

  lemma AlignBy8(p: nat, n: nat)
    requires p % 8 == 0
    ensures AlignUp(p + n, 8) == p + AlignUp(n, 8) && AlignUp(n, 8) >= n && (p + AlignUp(n, 8)) % 8 == 0
  {
    assert (p + n + 7) / 8 * 8 == p + (n + 7) / 8 * 8;
  }

  // ---------- Element data ----------

  /** The varlena length word, little-endian. */
  function Header(b: Bytes): nat
    requires |b| >= 4
  {
    b[0] as int + 0x100 * (b[1] as int) + 0x1_0000 * (b[2] as int) + 0x100_0000 * (b[3] as int)
  }

  /** b is one complete datum of the type: its length can be told from its own bytes. */
  ghost predicate IsDatum(ty: ElemType, b: Bytes) {
    match ty
    case Fixed(len, _) => |b| == len
    case Varlena(_) => |b| >= 4 && Header(b) == 4 * |b|
    case CString(_) => |b| >= 1 && b[|b| - 1] == 0 && forall i :: 0 <= i < |b| - 1 ==> b[i] != 0
  }

  ghost predicate IsCell(ty: ElemType, c: Cell) {
    c.Some? ==> IsDatum(ty, c.value)
  }

  /** What one cell adds to the data pointer. */
  function Advance(ty: ElemType, c: Cell): nat
    requires ty.WellFormed()
  {
    if c.Some? then AlignUp(|c.value|, ty.align) else 0
  }

  function Size(ty: ElemType, cells: seq<Cell>): nat
    requires ty.WellFormed()
  {
    if cells == [] then 0 else Advance(ty, cells[0]) + Size(ty, cells[1..])
  }

  /** From offset at on, m holds the cells that are there, each at its aligned place. */
  ghost predicate Encoded(m: Bytes, at: nat, ty: ElemType, cells: seq<Cell>)
    requires ty.WellFormed()
    decreases |cells|
  {
    cells != [] ==>
      && (cells[0].Some? ==> at + |cells[0].value| <= |m| && m[at..at + |cells[0].value|] == cells[0].value)
      && Encoded(m, at + Advance(ty, cells[0]), ty, cells[1..])
  }

  lemma {:induction false} SizeConcat(ty: ElemType, a: seq<Cell>, b: seq<Cell>)
    requires ty.WellFormed()
    ensures Size(ty, a + b) == Size(ty, a) + Size(ty, b)
  {
    if a == [] {
      assert a + b == b;
    } else {
      SizeConcat(ty, a[1..], b);
      assert (a + b)[1..] == a[1..] + b;
    }
  }

  lemma {:induction false} SizeAligned(ty: ElemType, cells: seq<Cell>)
    requires ty.WellFormed()
    ensures Size(ty, cells) % ty.align == 0
  {
    if cells != [] {
      SizeAligned(ty, cells[1..]);
      if cells[0].Some? { AlignIncrement(Size(ty, cells[1..]), |cells[0].value|, ty); }
    }
  }

  lemma {:induction false} EncodedConcat(m: Bytes, at: nat, ty: ElemType, a: seq<Cell>, b: seq<Cell>)
    requires ty.WellFormed()
    ensures Encoded(m, at, ty, a + b) <==> Encoded(m, at, ty, a) && Encoded(m, at + Size(ty, a), ty, b)
    decreases |a|
  {
    if a == [] {
      assert a + b == b;
    } else {
      EncodedConcat(m, at + Advance(ty, a[0]), ty, a[1..], b);
      assert (a + b)[1..] == a[1..] + b;
    }
  }

  /** Writing past the data does not disturb it. */
  lemma {:induction false} EncodedKept(m: Bytes, m': Bytes, at: nat, ty: ElemType, cells: seq<Cell>)
    requires ty.WellFormed() && Encoded(m, at, ty, cells) && |m'| == |m|
    requires forall i :: at <= i < at + Size(ty, cells) && i < |m| ==> m'[i] == m[i]
    ensures Encoded(m', at, ty, cells)
    decreases |cells|
  {
    if cells != [] {
      if cells[0].Some? {
        AlignIncrement(0, |cells[0].value|, ty);
        assert m'[at..at + |cells[0].value|] == m[at..at + |cells[0].value|];
      }
      EncodedKept(m, m', at + Advance(ty, cells[0]), ty, cells[1..]);
    }
  }

  /** The next cell of data that is known to be there. */
  lemma EncodedNext(m: Bytes, at: nat, ty: ElemType, done: seq<Cell>, total: seq<Cell>)
    requires ty.WellFormed() && Encoded(m, at, ty, total) && done < total
    ensures var c, p := total[|done|], at + Size(ty, done);
      && Size(ty, done + [c]) == Size(ty, done) + Advance(ty, c)
      && (c.Some? ==> p + |c.value| <= |m| && m[p..p + |c.value|] == c.value)
  {
    hide Encoded, Size, Advance;
    var c, rest := total[|done|], total[|done| + 1..];
    SplitAt(total, done);
    EncodedThere(m, at, ty, done, c, rest);
    SizeConcat(ty, done, [c]);
    SizeOne(ty, c);
  }

  lemma SplitAt(total: seq<Cell>, done: seq<Cell>)
    requires done < total
    ensures total == done + ([total[|done|]] + total[|done| + 1..])
  {
  }

  lemma EncodedThere(m: Bytes, at: nat, ty: ElemType, done: seq<Cell>, c: Cell, rest: seq<Cell>)
    requires ty.WellFormed() && Encoded(m, at, ty, done + ([c] + rest))
    ensures var p := at + Size(ty, done);
      c.Some? ==> p + |c.value| <= |m| && m[p..p + |c.value|] == c.value
  {
    EncodedConcat(m, at, ty, done, [c] + rest);
    EncodedHead(m, at + Size(ty, done), ty, [c] + rest);
  }

  lemma EncodedHead(m: Bytes, at: nat, ty: ElemType, cells: seq<Cell>)
    requires ty.WellFormed() && Encoded(m, at, ty, cells) && cells != []
    ensures var c := cells[0]; c.Some? ==> at + |c.value| <= |m| && m[at..at + |c.value|] == c.value
  {
  }

  lemma SizeOne(ty: ElemType, c: Cell)
    requires ty.WellFormed()
    ensures Size(ty, [c]) == Advance(ty, c)
  {
    assert [c][1..] == [];
    assert Size(ty, []) == 0;
  }

  // ---------- Elements of a fixed length ----------

  /** The number of elements that are there. */
  function Present(cells: seq<Cell>): nat {
    if cells == [] then 0 else (if cells[0].Some? then 1 else 0) + Present(cells[1..])
  }

  /** Elements whose length is a multiple of their alignment are packed without gaps. */
  lemma {:induction false} FixedSize(ty: ElemType, cells: seq<Cell>)
    requires ty.WellFormed() && ty.Fixed? && ty.len % ty.align == 0
    requires forall c :: c in cells ==> IsCell(ty, c)
    ensures Size(ty, cells) == Present(cells) * ty.len
  {
    hide AlignUp;
    if cells != [] {
      forall c | c in cells[1..] ensures IsCell(ty, c) { assert c in cells; }
      FixedSize(ty, cells[1..]);
      assert cells[0] in cells;
      FixedAdvance(ty, cells[0]);
      OneMore(Present(cells[1..]), ty.len);
    }
  }

  lemma FixedAdvance(ty: ElemType, c: Cell)
    requires ty.WellFormed() && ty.Fixed? && ty.len % ty.align == 0 && IsCell(ty, c)
    ensures Advance(ty, c) == if c.Some? then ty.len else 0
  {
    AlignUpIsLeast(ty.len, ty.align);
  }

  lemma OneMore(n: nat, len: nat)
    ensures (1 + n) * len == len + n * len && (0 + n) * len == n * len
  {
  }

  /** Element j lies len bytes after the one that is there before it. */
  lemma FixedAt(m: Bytes, at: nat, ty: ElemType, cells: seq<Cell>, j: nat)
    requires ty.WellFormed() && ty.Fixed? && ty.len % ty.align == 0
    requires forall c :: c in cells ==> IsCell(ty, c)
    requires Encoded(m, at, ty, cells) && j < |cells| && cells[j].Some?
    ensures var p := at + Present(cells[..j]) * ty.len; p + ty.len <= |m| && m[p..p + ty.len] == cells[j].value
  {
    assert cells[j] in cells;
    forall c | c in cells[..j] ensures IsCell(ty, c) { assert c in cells; }
    FixedSize(ty, cells[..j]);
    EncodedNext(m, at, ty, cells[..j], cells);
  }

  lemma {:induction false} AllPresent(cells: seq<Cell>)
    requires forall c :: c in cells ==> c.Some?
    ensures Present(cells) == |cells|
  {
    if cells != [] {
      assert cells[0] in cells;
      AllPresent(cells[1..]);
    }
  }

  // ---------- Bits ----------

  /** Bit k of x. */
  predicate Bit(x: nat, k: nat) {
    if k == 0 then x % 2 == 1 else Bit(x / 2, k - 1)
  }

  /** Bit k is the digit of 2^k. */
  lemma BitIsDigit(x: nat, k: nat)
    requires k < 8
    ensures Bit(x, k) <==> Halved(x, k) % 2 == 1
    ensures Halved(x, k) == x / [1, 2, 4, 8, 16, 32, 64, 128][k]
  {
    BitShift(x, k, 0);
    HalvedByFour(x);
  }

  function Halved(x: nat, k: nat): nat {
    if k == 0 then x else Halved(x, k - 1) / 2
  }

  lemma HalvedByFour(x: nat)
    ensures Halved(x, 0) == x && Halved(x, 1) == x / 2 && Halved(x, 2) == x / 4 && Halved(x, 3) == x / 8
    ensures Halved(x, 4) == x / 16 && Halved(x, 5) == x / 32 && Halved(x, 6) == x / 64 && Halved(x, 7) == x / 128
  {
    HalvedStep(x, 0);
    HalvedStep(x, 1);
    HalvedStep(x, 2);
    HalvedStep(x, 3);
    HalvedStep(x, 4);
    HalvedStep(x, 5);
    HalvedStep(x, 6);
    hide Halved;
    assert x / 2 / 2 == x / 4;
    assert x / 4 / 2 == x / 8;
    assert x / 8 / 2 == x / 16;
    assert x / 16 / 2 == x / 32;
    assert x / 32 / 2 == x / 64;
    assert x / 64 / 2 == x / 128;
  }

  lemma HalvedStep(x: nat, k: nat)
    ensures Halved(x, 0) == x && Halved(x, k + 1) == Halved(x, k) / 2
  {
  }

  lemma {:induction false} BitShift(x: nat, k: nat, j: nat)
    ensures Bit(Halved(x, j), k) <==> Halved(x, j + k) % 2 == 1
    decreases k
  {
    if k > 0 { BitShift(x, k - 1, j + 1); }
  }

  /** x | y */
  function Or(x: nat, y: nat): nat {
    if x == 0 && y == 0 then 0
    else (if x % 2 == 1 || y % 2 == 1 then 1 else 0) + 2 * Or(x / 2, y / 2)
  }

  /** x & y */
  function And(x: nat, y: nat): nat {
    if x == 0 && y == 0 then 0
    else (if x % 2 == 1 && y % 2 == 1 then 1 else 0) + 2 * And(x / 2, y / 2)
  }

  /** 1 << k, the values bitmask goes through. */
  function Mask(k: nat): (m: nat)
    ensures m > 0
  {
    if k == 0 then 1 else 2 * Mask(k - 1)
  }

  lemma {:induction false} OrBit(x: nat, y: nat, k: nat)
    ensures Bit(Or(x, y), k) <==> Bit(x, k) || Bit(y, k)
    decreases k
  {
    hide Or;
    OrStep(x, y);
    if k > 0 { OrBit(x / 2, y / 2, k - 1); }
  }

  lemma OrStep(x: nat, y: nat)
    ensures Or(x, y) % 2 == 1 <==> x % 2 == 1 || y % 2 == 1
    ensures Or(x, y) / 2 == Or(x / 2, y / 2)
  {
  }

  lemma {:induction false} MaskBit(m: nat, k: nat)
    ensures Bit(Mask(m), k) <==> k == m
  {
    if k == 0 {
    } else if m == 0 {
      ZeroBit(k - 1);
    } else {
      MaskBit(m - 1, k - 1);
    }
  }

  lemma {:induction false} ZeroBit(k: nat)
    ensures !Bit(0, k)
  {
    if k > 0 { ZeroBit(k - 1); }
  }

  lemma {:induction false} AndMask(x: nat, k: nat)
    ensures And(x, Mask(k)) != 0 <==> Bit(x, k)
  {
    if k == 0 {
      AndZero(x / 2);
    } else {
      AndMask(x / 2, k - 1);
    }
  }

  lemma {:induction false} AndZero(x: nat)
    ensures And(x, 0) == 0
  {
    if x > 0 { AndZero(x / 2); }
  }

  lemma {:induction false} OrBound(x: nat, y: nat, n: nat)
    requires x < Mask(n) && y < Mask(n)
    ensures Or(x, y) < Mask(n)
    decreases n
  {
    if n > 0 { OrBound(x / 2, y / 2, n - 1); }
  }

  lemma {:induction false} MaskGrows(k: nat, n: nat)
    requires k < n
    ensures Mask(k) < Mask(n)
  {
    if k + 1 < n { MaskGrows(k, n - 1); }
  }

  lemma ByteMask()
    ensures Mask(8) == 0x100
  {
    assert Mask(4) == 16;
  }

  lemma OrMask(b: nat, k: nat)
    requires k < 8 && b < 0x100
    ensures Or(b, Mask(k)) < 0x100
    ensures forall j :: 0 <= j < 8 ==> (Bit(Or(b, Mask(k)), j) <==> j == k || Bit(b, j))
  {
    ByteMask();
    MaskGrows(k, 8);
    OrBound(b, Mask(k), 8);
    forall j | 0 <= j < 8 ensures Bit(Or(b, Mask(k)), j) <==> j == k || Bit(b, j) {
      OrBit(b, Mask(k), j);
      MaskBit(k, j);
    }
  }

  // ---------- The null bitmap ----------

  /** Bit j of the bitmap that starts at offset bits. */
  predicate BitAt(m: Bytes, bits: nat, j: nat) {
    bits + j / 8 < |m| && Bit(m[bits + j / 8], j % 8)
  }

  /** The whole bytes are stored and bitval has the rest. */
  ghost predicate BitsWritten(m: Bytes, bits: nat, done: seq<Cell>, bitval: nat) {
    && bitval < 0x100
    && bits + |done| / 8 <= |m|
    && (forall j {:trigger BitAt(m, bits, j)} :: 0 <= j < |done| / 8 * 8 ==> (BitAt(m, bits, j) <==> done[j].Some?))
    && (forall i {:trigger Bit(bitval, i)} :: 0 <= i < 8 ==> (Bit(bitval, i) <==> There(done, |done| / 8 * 8 + i)))
  }

  predicate There(cells: seq<Cell>, j: nat) {
    j < |cells| && cells[j].Some?
  }

  /** Bit j is set exactly if element j is not NULL; spare bits are zero. */
  ghost predicate BitmapFor(m: Bytes, bits: nat, cells: seq<Cell>) {
    && bits + (|cells| + 7) / 8 <= |m|
    && forall j {:trigger BitAt(m, bits, j)} :: 0 <= j < (|cells| + 7) / 8 * 8 ==> (BitAt(m, bits, j) <==> There(cells, j))
  }

  /** bitval after the bit of one more cell. */
  function BitAdded(bitval: nat, n: nat, c: Cell): nat {
    if c.Some? then Or(bitval, Mask(n % 8)) else bitval
  }

  /** One more bit that does not fill the byte. */
  lemma BitAdds(m: Bytes, bits: nat, done: seq<Cell>, bitval: nat, c: Cell)
    requires BitsWritten(m, bits, done, bitval)
    ensures BitAdded(bitval, |done|, c) < 0x100
    ensures forall i :: 0 <= i < 8 ==>
      (Bit(BitAdded(bitval, |done|, c), i) <==> There(done + [c], |done| / 8 * 8 + i))
    ensures |done| % 8 != 7 ==> BitsWritten(m, bits, done + [c], BitAdded(bitval, |done|, c))
  {
    OrMask(bitval, |done| % 8);
    var b', done' := BitAdded(bitval, |done|, c), done + [c];
    forall i | 0 <= i < 8 ensures Bit(b', i) <==> There(done', |done| / 8 * 8 + i) {
      assert Bit(bitval, i) <==> There(done, |done| / 8 * 8 + i);
    }
    if |done| % 8 != 7 {
      assert |done'| / 8 == |done| / 8;
      forall j | 0 <= j < |done'| / 8 * 8 ensures BitAt(m, bits, j) <==> done'[j].Some? {
        assert BitAt(m, bits, j) <==> done[j].Some?;
      }
    }
  }

  /** The bit that fills the byte: it is stored and the next one starts empty. */
  lemma ByteFills(m: Bytes, bits: nat, done: seq<Cell>, bitval: nat, c: Cell)
    requires BitsWritten(m, bits, done, bitval) && |done| % 8 == 7 && bits + |done| / 8 < |m|
    ensures BitAdded(bitval, |done|, c) < 0x100
    ensures BitsWritten(m[bits + |done| / 8 := BitAdded(bitval, |done|, c)], bits, done + [c], 0)
  {
    BitAdds(m, bits, done, bitval, c);
    var b', done' := BitAdded(bitval, |done|, c), done + [c];
    var m' := m[bits + |done| / 8 := b'];
    assert |done'| / 8 == |done| / 8 + 1;
    forall j | 0 <= j < |done'| / 8 * 8 ensures BitAt(m', bits, j) <==> done'[j].Some? {
      if j / 8 < |done| / 8 {
        assert BitAt(m, bits, j) <==> done[j].Some?;
      } else {
        assert j == |done| / 8 * 8 + j % 8;
        assert Bit(b', j % 8) <==> There(done', |done| / 8 * 8 + j % 8);
      }
    }
    forall i | 0 <= i < 8 ensures Bit(0, i) <==> There(done', |done'| / 8 * 8 + i) { ZeroBit(i); }
  }

  /** The flush at the end of a vector makes the bitmap complete so far. */
  lemma FlushCompletes(m: Bytes, bits: nat, done: seq<Cell>, bitval: nat)
    requires BitsWritten(m, bits, done, bitval)
    requires |done| % 8 != 0 ==> bits + |done| / 8 < |m| && m[bits + |done| / 8] == bitval
    ensures BitmapFor(m, bits, done)
  {
    forall j | 0 <= j < (|done| + 7) / 8 * 8 ensures BitAt(m, bits, j) <==> There(done, j) {
      if j / 8 < |done| / 8 {
        assert BitAt(m, bits, j) <==> done[j].Some?;
      } else {
        assert j == |done| / 8 * 8 + j % 8;
        assert Bit(bitval, j % 8) <==> There(done, |done| / 8 * 8 + j % 8);
      }
    }
  }

  /** Writes elsewhere leave the stored bits alone. */
  lemma BitsKept(m: Bytes, m': Bytes, bits: nat, done: seq<Cell>, bitval: nat)
    requires BitsWritten(m, bits, done, bitval) && |m'| == |m|
    requires forall i :: bits <= i < bits + |done| / 8 ==> m'[i] == m[i]
    ensures BitsWritten(m', bits, done, bitval)
  {
    forall j | 0 <= j < |done| / 8 * 8 ensures BitAt(m', bits, j) <==> done[j].Some? {
      assert BitAt(m, bits, j) <==> done[j].Some?;
      assert j / 8 < |done| / 8;
    }
  }
}
