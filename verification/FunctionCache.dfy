/** The two-level cache of compiled functions in the Lua registry: oid -> info -> chunk,
    checked against the version of the pg_proc row. */
module FunctionCache {
  import opened Memory

  type Oid = nat

  datatype RowStamp = RowStamp(xmin: nat, tid: nat)

  /** A version of a pg_proc row.  Whether Lua accepts it may depend on the parameter
      list being "..." or the names. */
  datatype ProcRow = ProcRow(stamp: RowStamp, source: string, nargs: nat, argNames: seq<string>, isTrigger: bool,
                             namedCompiles: bool, varargCompiles: bool) {
    predicate Compiles(vararg: bool) {
      if vararg then varargCompiles else namedCompiles
    }

    /** An argument without a name. */
    predicate Unnamed() {
      nargs > 0 && (|argNames| != nargs || "" in argNames)
    }

    /** The chunk luaP_newfunction builds. */
    function Compile(vararg: bool): Chunk {
      Chunk(if vararg then None else Some(if nargs == 0 then [] else argNames), source)
    }
  }

  /** params is None for "...". */
  datatype Chunk = Chunk(params: Option<seq<string>>, source: string)

  datatype Info = Info(stamp: RowStamp, vararg: bool)

  /** What luaP_pushfunction leaves on the stack, if anything. */
  datatype Outcome = Function(chunk: Chunk) | Nil | CompileError

  // ---------- The history the cache stands for ----------

  /** A call of luaP_newfunction for an info. */
  datatype Attempt = Attempt(row: ProcRow, ok: bool)

  /** A history starts with the attempt that created the info. */
  predicate Created(h: seq<Attempt>) {
    h != [] && h[0].ok
  }

  function LastOk(h: seq<Attempt>): ProcRow
    requires Created(h)
  {
    var n := |h| - 1;
    if h[n].ok then h[n].row else LastOk(h[..n])
  }

  /** The flag is set by the creation of a trigger and by any unnamed argument since. */
  predicate Vararg(h: seq<Attempt>) {
    && h != []
    && (var n := |h| - 1;
        (n == 0 && h[0].row.isTrigger) || h[n].row.Unnamed() || Vararg(h[..n]))
  }

  type Histories = map<Oid, seq<Attempt>>

  ghost predicate AllCreated(s: Histories) {
    forall oid :: oid in s ==> Created(s[oid])
  }

  function Lookup(s: Histories, oid: Oid, row: ProcRow): (Histories, Outcome)
    requires AllCreated(s)
  {
    if oid in s && row.stamp == LastOk(s[oid]).stamp then
      (s, if s[oid][|s[oid]| - 1].ok then Function(LastOk(s[oid]).Compile(Vararg(s[oid]))) else Nil)
    else
      var h := if oid in s then s[oid] else [];
      var vararg := Vararg(h + [Attempt(row, true)]);
      var ok := row.Compiles(vararg);
      (if ok || h != [] then s[oid := h + [Attempt(row, ok)]] else s,
       if ok then Function(row.Compile(vararg)) else CompileError)
  }

  lemma VarargSnoc(h: seq<Attempt>, row: ProcRow, ok: bool)
    requires h != []
    ensures Vararg(h + [Attempt(row, ok)]) <==> Vararg(h) || row.Unnamed()
  {
    assert (h + [Attempt(row, ok)])[..|h|] == h;
  }

  lemma FirstAttempt(row: ProcRow)
    ensures var h := [Attempt(row, true)];
      [] + h == h && Created(h) && LastOk(h) == row && (Vararg(h) <==> row.isTrigger || row.Unnamed())
  {
    assert [Attempt(row, true)][..0] == [];
  }

  lemma LastOkSnoc(h: seq<Attempt>, row: ProcRow, ok: bool)
    requires Created(h) || (h == [] && ok)
    ensures Created(h + [Attempt(row, ok)])
    ensures LastOk(h + [Attempt(row, ok)]) == if ok then row else LastOk(h)
  {
    assert (h + [Attempt(row, ok)])[..|h|] == h;
  }

  lemma LookupNew(s: Histories, oid: Oid, row: ProcRow)
    requires AllCreated(s) && oid !in s
    ensures var vararg := row.isTrigger || row.Unnamed();
      Lookup(s, oid, row) ==
        if row.Compiles(vararg) then (s[oid := [Attempt(row, true)]], Function(row.Compile(vararg))) else (s, CompileError)
  {
    FirstAttempt(row);
    assert [] + [Attempt(row, true)] == [Attempt(row, true)];
  }

  lemma LookupAgain(s: Histories, oid: Oid, row: ProcRow)
    requires AllCreated(s) && oid in s && row.stamp != LastOk(s[oid]).stamp
    ensures var vararg := Vararg(s[oid]) || row.Unnamed();
      Lookup(s, oid, row) == (s[oid := s[oid] + [Attempt(row, row.Compiles(vararg))]],
                              if row.Compiles(vararg) then Function(row.Compile(vararg)) else CompileError)
  {
    VarargSnoc(s[oid], row, true);
  }

  lemma {:induction false} VarargMeans(h: seq<Attempt>)
    requires h != []
    ensures Vararg(h) <==> h[0].row.isTrigger || exists i :: 0 <= i < |h| && h[i].row.Unnamed()
    decreases |h|
  {
    var n := |h| - 1;
    if n == 0 {
      assert h[..0] == [];
    } else {
      VarargMeans(h[..n]);
      if i :| 0 <= i < n && h[..n][i].row.Unnamed() { assert h[i].row.Unnamed(); }
      if i :| 0 <= i < |h| && h[i].row.Unnamed() { assert i == n || h[..n][i].row.Unnamed(); }
    }
  }

  lemma {:induction false} LastOkIn(h: seq<Attempt>)
    requires Created(h)
    ensures exists i :: 0 <= i < |h| && h[i].row == LastOk(h)
    decreases |h|
  {
    var n := |h| - 1;
    if !h[n].ok {
      LastOkIn(h[..n]);
      var i :| 0 <= i < n && h[..n][i].row == LastOk(h[..n]);
      assert h[i].row == LastOk(h);
    }
  }

  // ---------- The registry ----------

  ghost predicate Injective(infos: map<Oid, Ptr>) {
    forall a, b :: a in infos && b in infos && a != b ==> infos[a] != infos[b]
  }

  /** Every entry but those of the oids in busy agrees with its history. */
  ghost predicate EntriesOk(infos: map<Oid, Ptr>, records: map<Ptr, Info>, chunks: map<Ptr, Chunk>, s: Histories, busy: set<Oid>)
    requires AllCreated(s) && infos.Keys == s.Keys
  {
    forall oid {:trigger EntryOk(records, chunks, infos[oid], s[oid])} ::
      oid in infos && oid !in busy ==> EntryOk(records, chunks, infos[oid], s[oid])
  }

  /** The stamp is that of the last version that compiled, and there is a chunk exactly if
      the last attempt succeeded, compiled from that version. */
  ghost predicate EntryOk(records: map<Ptr, Info>, chunks: map<Ptr, Chunk>, fi: Ptr, h: seq<Attempt>)
    requires Created(h)
  {
    && fi in records
    && records[fi] == Info(LastOk(h).stamp, Vararg(h))
    && (fi in chunks <==> h[|h| - 1].ok)
    && (fi in chunks ==> chunks[fi] == LastOk(h).Compile(Vararg(h)))
  }

  /** Writing one entry leaves the others right. */
  lemma OneEntry(infos: map<Oid, Ptr>, records: map<Ptr, Info>, chunks: map<Ptr, Chunk>, s: Histories,
                 infos': map<Oid, Ptr>, records': map<Ptr, Info>, chunks': map<Ptr, Chunk>, s': Histories, oid: Oid, fi: Ptr)
    requires AllCreated(s) && infos.Keys == s.Keys && Injective(infos) && EntriesOk(infos, records, chunks, s, {oid})
    requires AllCreated(s') && infos' == infos[oid := fi] && s'.Keys == s.Keys + {oid}
    requires forall a :: a in s && a != oid ==> s'[a] == s[a] && infos[a] != fi
    requires forall p :: p != fi ==> (p in records' <==> p in records) && (p in chunks' <==> p in chunks)
    requires forall p :: p != fi && p in records ==> records'[p] == records[p]
    requires forall p :: p != fi && p in chunks ==> chunks'[p] == chunks[p]
    requires EntryOk(records', chunks', fi, s'[oid])
    ensures Injective(infos') && EntriesOk(infos', records', chunks', s', {})
  {
    forall a | a in infos' ensures EntryOk(records', chunks', infos'[a], s'[a]) {
      if a != oid { assert EntryOk(records, chunks, infos[a], s[a]); }
    }
  }

  lemma NewEntry(infos: map<Oid, Ptr>, records: map<Ptr, Info>, chunks: map<Ptr, Chunk>, s: Histories, oid: Oid, fi: Ptr)
    requires AllCreated(s) && infos.Keys == s.Keys && EntriesOk(infos, records, chunks, s, {}) && fi !in records
    ensures forall a :: a in infos ==> infos[a] != fi
    ensures EntriesOk(infos, records, chunks, s, {oid})
  {
    forall a | a in infos ensures infos[a] != fi { assert EntryOk(records, chunks, infos[a], s[a]); }
    forall a | a in infos && a != oid ensures EntryOk(records, chunks, infos[a], s[a]) {}
  }

  /** The entry after its chunk was removed and the version row tried. */
  lemma Recompiled(infos: map<Oid, Ptr>, records: map<Ptr, Info>, chunks: map<Ptr, Chunk>, s: Histories, oid: Oid, fi: Ptr,
                   row: ProcRow, ok: bool)
    requires AllCreated(s) && infos.Keys == s.Keys && oid in infos && infos[oid] == fi && fi in records && fi !in chunks
    requires Injective(infos) && EntriesOk(infos, records, chunks, s, {oid})
    ensures var h := s[oid];
      var vararg := Vararg(h) || row.Unnamed();
      var records' := records[fi := Info(if ok then row.stamp else LastOk(h).stamp, vararg)];
      var chunks' := if ok then chunks[fi := row.Compile(vararg)] else chunks;
      var s' := s[oid := h + [Attempt(row, ok)]];
      AllCreated(s') && EntriesOk(infos, records', chunks', s', {})
  {
    hide Vararg, LastOk, EntriesOk;
    var h := s[oid];
    var vararg := Vararg(h) || row.Unnamed();
    VarargSnoc(h, row, ok);
    LastOkSnoc(h, row, ok);
    var records' := records[fi := Info(if ok then row.stamp else LastOk(h).stamp, vararg)];
    var chunks' := if ok then chunks[fi := row.Compile(vararg)] else chunks;
    assert infos[oid := fi] == infos;
    OneEntry(infos, records, chunks, s, infos, records', chunks', s[oid := h + [Attempt(row, ok)]], oid, fi);
  }

  class Registry {
    /** REG["oid"] */
    var infos: map<Oid, Ptr>
    /** The info userdata themselves. */
    var records: map<Ptr, Info>
    /** REG[light userdata of the info] */
    var chunks: map<Ptr, Chunk>
    ghost var histories: Histories

    ghost predicate Valid()
      reads this
    {
      && AllCreated(histories) && infos.Keys == histories.Keys
      && Injective(infos) && EntriesOk(infos, records, chunks, histories, {})
    }

    constructor ()
      ensures Valid() && histories == map[]
    {
      infos, records, chunks, histories := map[], map[], map[], map[];
    }

    /** luaP_pushfunction, for the row version the syscache returns. */
    method PushFunction(oid: Oid, row: ProcRow) returns (r: Outcome)
      requires Valid()
      modifies this
      ensures Valid() && (histories, r) == Lookup(old(histories), oid, row)
    {
      if oid !in infos {
        r := NewInfo(oid, row);
        return;
      }
      var fi := infos[oid];
      assert EntryOk(records, chunks, fi, histories[oid]);
      if records[fi].stamp == row.stamp {
        r := if fi in chunks then Function(chunks[fi]) else Nil;
        return;
      }
      ghost var before := chunks;
      chunks := chunks - {fi};
      forall a | a in infos && a != oid ensures EntryOk(records, chunks, infos[a], histories[a]) {
        assert EntryOk(records, before, infos[a], histories[a]);
      }
      r := Recompile(fi, oid, row);
    }

    /** luaP_newfunction with no info yet: nothing is stored unless the row compiles. */
    method NewInfo(oid: Oid, row: ProcRow) returns (r: Outcome)
      requires Valid() && oid !in infos
      modifies this
      ensures Valid() && (histories, r) == Lookup(old(histories), oid, row)
    {
      hide Vararg, LastOk, Lookup;
      ghost var h, s, oldInfos, oldRecords, oldChunks := [Attempt(row, true)], histories, infos, records, chunks;
      FirstAttempt(row);
      LookupNew(histories, oid, row);
      var vararg := HasUnnamed(row, row.isTrigger);
      if !row.Compiles(vararg) {
        return CompileError;
      }
      var fi := Palloc(records.Keys + chunks.Keys);
      records := records[fi := Info(row.stamp, vararg)];
      chunks := chunks[fi := row.Compile(vararg)];
      infos := infos[oid := fi];
      histories := histories[oid := h];
      NewEntry(oldInfos, oldRecords, oldChunks, s, oid, fi);
      OneEntry(oldInfos, oldRecords, oldChunks, s, infos, records, chunks, histories, oid, fi);
      return Function(row.Compile(vararg));
    }

    /** luaP_newfunction for an existing info whose chunk was just removed. */
    method Recompile(fi: Ptr, oid: Oid, row: ProcRow) returns (r: Outcome)
      requires AllCreated(histories) && infos.Keys == histories.Keys && oid in infos && infos[oid] == fi
      requires Injective(infos) && EntriesOk(infos, records, chunks, histories, {oid})
      requires fi in records && records[fi] == Info(LastOk(histories[oid]).stamp, Vararg(histories[oid])) && fi !in chunks
      requires row.stamp != LastOk(histories[oid]).stamp
      modifies this
      ensures Valid() && (histories, r) == Lookup(old(histories), oid, row)
    {
      hide Vararg, LastOk, Lookup, EntriesOk, Injective;
      LookupAgain(histories, oid, row);
      ghost var s, oldRecords, oldChunks := histories, records, chunks;
      var vararg := HasUnnamed(row, records[fi].vararg);
      records := records[fi := records[fi].(vararg := vararg)];
      var ok := row.Compiles(vararg);
      if ok {
        records := records[fi := records[fi].(stamp := row.stamp)];
        chunks := chunks[fi := row.Compile(vararg)];
      }
      histories := histories[oid := histories[oid] + [Attempt(row, ok)]];
      assert records == oldRecords[fi := Info(if ok then row.stamp else LastOk(s[oid]).stamp, vararg)];
      assert infos.Keys == histories.Keys;
      Recompiled(infos, oldRecords, oldChunks, s, oid, fi, row, ok);
      return if ok then Function(row.Compile(vararg)) else CompileError;
    }
  }

  /** The check of the argument names. */
  method HasUnnamed(row: ProcRow, already: bool) returns (vararg: bool)
    ensures vararg <==>
      already || (row.nargs > 0 && (|row.argNames| != row.nargs || exists i :: 0 <= i < |row.argNames| && row.argNames[i] == ""))
    ensures vararg == (already || row.Unnamed())
  {
    vararg := already;
    if row.nargs > 0 {
      if |row.argNames| != row.nargs {
        return true;
      }
      var i := 0;
      while i < |row.argNames| && !vararg
        invariant 0 <= i <= |row.argNames|
        invariant already ==> vararg
        invariant vararg ==> already || "" in row.argNames
        invariant !vararg ==> "" !in row.argNames[..i]
      {
        if row.argNames[i] == "" {
          vararg := true;
        }
        i := i + 1;
      }
      assert !vararg ==> row.argNames[..i] == row.argNames;
    }
  }

  // ---------- Runs ----------

  /** One call of a function: the oid and the row version that is current then. */
  datatype Call = Call(oid: Oid, row: ProcRow)

  ghost predicate SameVersion(a: Call, b: Call) {
    a.oid == b.oid && a.row.stamp == b.row.stamp ==> a.row == b.row
  }

  /** Versions of a row are told apart by their stamps. */
  ghost predicate StampsIdentify(calls: seq<Call>) {
    forall i, j :: 0 <= i < |calls| && 0 <= j < |calls| ==> SameVersion(calls[i], calls[j])
  }

  function After(calls: seq<Call>): (s: Histories)
    ensures AllCreated(s)
  {
    if calls == [] then map[]
    else
      var n := |calls| - 1;
      var s := After(calls[..n]);
      StepCreated(s, calls[n]);
      Lookup(s, calls[n].oid, calls[n].row).0
  }

  lemma StepCreated(s: Histories, c: Call)
    requires AllCreated(s)
    ensures AllCreated(Lookup(s, c.oid, c.row).0)
  {
    if c.oid in s { LastOkSnoc(s[c.oid], c.row, true); LastOkSnoc(s[c.oid], c.row, false); }
  }

  /** What call n of the run got. */
  function OutcomeOf(calls: seq<Call>, n: nat): Outcome
    requires n < |calls|
  {
    Lookup(After(calls[..n]), calls[n].oid, calls[n].row).1
  }

  /** The row of the last call for oid that got a function. */
  function LastServed(calls: seq<Call>, oid: Oid): Option<ProcRow> {
    if calls == [] then None
    else
      var n := |calls| - 1;
      if calls[n].oid == oid && OutcomeOf(calls, n).Function? then Some(calls[n].row) else LastServed(calls[..n], oid)
  }

  /** The last call for oid got a function. */
  predicate LastFine(calls: seq<Call>, oid: Oid) {
    && calls != []
    && (var n := |calls| - 1;
        if calls[n].oid == oid then OutcomeOf(calls, n).Function? else LastFine(calls[..n], oid))
  }

  /** What the cache knows about oid is what the calls so far got. */
  ghost predicate Reflects(h: seq<Attempt>, calls: seq<Call>, oid: Oid) {
    && Created(h)
    && LastServed(calls, oid) == Some(LastOk(h))
    && (h[|h| - 1].ok <==> LastFine(calls, oid))
    && (exists i :: 0 <= i < |calls| && calls[i] == Call(oid, LastOk(h)))
  }

  lemma {:induction false} RunReflected(calls: seq<Call>, oid: Oid)
    requires StampsIdentify(calls)
    ensures oid in After(calls) <==> LastServed(calls, oid).Some?
    ensures oid in After(calls) ==> Reflects(After(calls)[oid], calls, oid)
    decreases |calls|
  {
    if calls != [] {
      var n := |calls| - 1;
      RunReflected(calls[..n], oid);
      StepReflected(calls, oid);
    }
  }

  lemma StepReflected(calls: seq<Call>, oid: Oid)
    requires calls != [] && StampsIdentify(calls)
    requires var before := calls[..|calls| - 1];
      && (oid in After(before) <==> LastServed(before, oid).Some?)
      && (oid in After(before) ==> Reflects(After(before)[oid], before, oid))
    ensures oid in After(calls) <==> LastServed(calls, oid).Some?
    ensures oid in After(calls) ==> Reflects(After(calls)[oid], calls, oid)
  {
    var n := |calls| - 1;
    var s, c := After(calls[..n]), calls[n];
    if oid in s {
      var h := s[oid];
      var i :| 0 <= i < n && calls[..n][i] == Call(oid, LastOk(h));
      assert SameVersion(calls[i], c);
      if c.oid == oid {
        LastOkSnoc(h, c.row, true);
        LastOkSnoc(h, c.row, false);
      }
    } else if c.oid == oid {
      FirstAttempt(c.row);
    }
  }

  /** The row of the first call for oid that got a function: it created the info. */
  function Creator(calls: seq<Call>, oid: Oid): Option<ProcRow> {
    if calls == [] then None
    else
      var n := |calls| - 1;
      var before := Creator(calls[..n], oid);
      if before.None? && calls[n].oid == oid && OutcomeOf(calls, n).Function? then Some(calls[n].row) else before
  }

  /** From its creation on, oid was called with a version that has an unnamed argument. */
  predicate UnnamedSince(calls: seq<Call>, oid: Oid) {
    && calls != []
    && (var n := |calls| - 1;
        UnnamedSince(calls[..n], oid) || (Creator(calls, oid).Some? && calls[n].oid == oid && calls[n].row.Unnamed()))
  }

  /** Whether the calls so far leave oid with the parameter list "...". */
  predicate NeedsDots(calls: seq<Call>, oid: Oid) {
    (Creator(calls, oid).Some? && Creator(calls, oid).value.isTrigger) || UnnamedSince(calls, oid)
  }

  /** The stored flag is what the calls so far ask for. */
  ghost predicate FlagReflects(s: Histories, calls: seq<Call>, oid: Oid) {
    && (oid in s <==> Creator(calls, oid).Some?)
    && (oid in s ==> Created(s[oid]) && (Vararg(s[oid]) <==> NeedsDots(calls, oid)))
  }

  lemma {:induction false} NoneSince(calls: seq<Call>, oid: Oid)
    requires Creator(calls, oid).None?
    ensures !UnnamedSince(calls, oid)
  {
    if calls != [] { NoneSince(calls[..|calls| - 1], oid); }
  }

  lemma {:induction false} FlagReflected(calls: seq<Call>, oid: Oid)
    requires StampsIdentify(calls)
    ensures FlagReflects(After(calls), calls, oid)
    decreases |calls|
  {
    if calls != [] {
      var n := |calls| - 1;
      var before, c := calls[..n], calls[n];
      PrefixIdentifies(calls, n);
      FlagReflected(before, oid);
      if oid in After(before) {
        if c.oid == oid { FlagAgain(calls, oid); }
      } else {
        NoneSince(before, oid);
        if c.oid == oid { LookupNew(After(before), oid, c.row); FirstAttempt(c.row); }
      }
    }
  }

  lemma PrefixIdentifies(calls: seq<Call>, n: nat)
    requires StampsIdentify(calls) && n <= |calls|
    ensures StampsIdentify(calls[..n])
  {
    forall i, j | 0 <= i < n && 0 <= j < n ensures SameVersion(calls[..n][i], calls[..n][j]) {
      assert SameVersion(calls[i], calls[j]);
    }
  }

  lemma FlagAgain(calls: seq<Call>, oid: Oid)
    requires calls != [] && StampsIdentify(calls) && calls[|calls| - 1].oid == oid
    requires var before := calls[..|calls| - 1]; oid in After(before) && FlagReflects(After(before), before, oid)
    ensures FlagReflects(After(calls), calls, oid)
  {
    var n := |calls| - 1;
    var s, c := After(calls[..n]), calls[n];
    var h := s[oid];
    if c.row.stamp == LastOk(h).stamp {
      SameRow(calls, n, oid);
      if c.row.Unnamed() { LastOkSets(h); }
    } else {
      LookupAgain(s, oid, c.row);
      VarargSnoc(h, c.row, c.row.Compiles(Vararg(h) || c.row.Unnamed()));
    }
  }

  /** A call that finds its stamp stored looks up the very version that was compiled. */
  lemma SameRow(calls: seq<Call>, n: nat, oid: Oid)
    requires n < |calls| && StampsIdentify(calls) && calls[n].oid == oid && oid in After(calls[..n])
    requires calls[n].row.stamp == LastOk(After(calls[..n])[oid]).stamp
    ensures calls[n].row == LastOk(After(calls[..n])[oid])
  {
    PrefixIdentifies(calls, n);
    RunReflected(calls[..n], oid);
    var h := After(calls[..n])[oid];
    var i :| 0 <= i < n && calls[..n][i] == Call(oid, LastOk(h));
    assert SameVersion(calls[i], calls[n]);
  }

  lemma LastOkSets(h: seq<Attempt>)
    requires Created(h) && LastOk(h).Unnamed()
    ensures Vararg(h)
  {
    LastOkIn(h);
    VarargMeans(h);
  }

  /** Whatever is returned was compiled from the row version just looked up, with "..."
      exactly if the function was created as a trigger or has since been called with an
      unnamed argument; and nil is returned exactly if that version is the one last
      returned and the call before this one got no function, because a newer version had
      failed to compile. */
  lemma LookupsAreCurrent(calls: seq<Call>, n: nat)
    requires n < |calls| && StampsIdentify(calls)
    ensures var row, oid, before := calls[n].row, calls[n].oid, calls[..n];
      && (OutcomeOf(calls, n) == Nil <==> LastServed(before, oid) == Some(row) && !LastFine(before, oid))
      && (OutcomeOf(calls, n).Function? ==>
            && OutcomeOf(calls, n).chunk.source == row.source
            && OutcomeOf(calls, n).chunk.params == if NeedsDots(calls[..n + 1], oid) then None else Some(if row.nargs == 0 then [] else row.argNames))
  {
    var before, oid, row := calls[..n], calls[n].oid, calls[n].row;
    PrefixIdentifies(calls, n);
    PrefixIdentifies(calls, n + 1);
    RunReflected(before, oid);
    assert calls[..n + 1][..n] == before;
    FlagReflected(calls[..n + 1], oid);
    if oid in After(before) {
      if row.stamp == LastOk(After(before)[oid]).stamp {
        SameRow(calls, n, oid);
      } else {
        LookupAgain(After(before), oid, row);
        VarargSnoc(After(before)[oid], row, true);
      }
    } else {
      LookupNew(After(before), oid, row);
      FirstAttempt(row);
    }
  }

  /** An error means that the text does not compile with the parameter list it gets. */
  lemma ErrorsAreReal(calls: seq<Call>, n: nat)
    requires n < |calls| && StampsIdentify(calls) && OutcomeOf(calls, n) == CompileError
    ensures var row, oid := calls[n].row, calls[n].oid;
      var dots := if Creator(calls[..n], oid).None? then row.isTrigger || row.Unnamed() else NeedsDots(calls[..n], oid) || row.Unnamed();
      if dots then !row.varargCompiles else !row.namedCompiles
  {
    var before, oid, row := calls[..n], calls[n].oid, calls[n].row;
    PrefixIdentifies(calls, n);
    FlagReflected(before, oid);
    if oid in After(before) { LookupAgain(After(before), oid, row); } else { LookupNew(After(before), oid, row); }
  }

  ghost predicate NoCompileFails(calls: seq<Call>) {
    forall n :: 0 <= n < |calls| ==> OutcomeOf(calls, n) != CompileError
  }

  /** In a run where every compile succeeds every call gets a function. */
  lemma {:induction false} AlwaysServed(calls: seq<Call>, n: nat)
    requires n < |calls| && StampsIdentify(calls) && NoCompileFails(calls)
    ensures OutcomeOf(calls, n).Function?
  {
    LookupsAreCurrent(calls, n);
    assert OutcomeOf(calls, n) != CompileError;
    ServedBefore(calls, n, calls[n].oid);
  }

  lemma {:induction false} ServedBefore(calls: seq<Call>, n: nat, oid: Oid)
    requires n <= |calls| && StampsIdentify(calls) && NoCompileFails(calls)
    ensures LastServed(calls[..n], oid).Some? ==> LastFine(calls[..n], oid)
    decreases n, 0
  {
    if n > 0 {
      assert calls[..n][..n - 1] == calls[..n - 1];
      ServedBefore(calls, n - 1, oid);
      if calls[n - 1].oid == oid {
        LookupsAreCurrent(calls, n - 1);
        assert OutcomeOf(calls, n - 1) != CompileError;
        assert OutcomeOf(calls[..n], n - 1) == OutcomeOf(calls, n - 1);
      }
    }
  }

  /** The known gap: a version that fails to compile, rolled back to the one before it,
      leaves the function uncallable although that version had compiled. */
  lemma RolledBackReplacement(oid: Oid, good: ProcRow, bad: ProcRow)
    requires good.stamp != bad.stamp
    requires good.namedCompiles && good.varargCompiles && !bad.namedCompiles && !bad.varargCompiles
    ensures var calls := [Call(oid, good), Call(oid, bad), Call(oid, good)];
      && StampsIdentify(calls)
      && OutcomeOf(calls, 0).Function? && OutcomeOf(calls, 0).chunk.source == good.source
      && OutcomeOf(calls, 1) == CompileError && OutcomeOf(calls, 2) == Nil
  {
    hide Lookup, Vararg, LastOk;
    ThreeCalls(Call(oid, good), Call(oid, bad), Call(oid, good));
    FirstAttempt(good);
    LookupNew(map[], oid, good);
    LookupAgain(map[oid := [Attempt(good, true)]], oid, bad);
    assert After([Call(oid, good), Call(oid, bad)]) == map[oid := [Attempt(good, true)] + [Attempt(bad, false)]];
    BadThenGood(oid, good, bad);
  }

  lemma TwoCalls(a: Call, b: Call)
    ensures After([a]) == Lookup(map[], a.oid, a.row).0
    ensures OutcomeOf([a, b], 1) == Lookup(After([a]), b.oid, b.row).1
    ensures After([a, b]) == Lookup(After([a]), b.oid, b.row).0
  {
    hide Lookup;
    assert [a][..0] == [] && [a, b][..1] == [a];
  }

  lemma ThreeCalls(a: Call, b: Call, c: Call)
    ensures OutcomeOf([a, b, c], 0) == Lookup(map[], a.oid, a.row).1
    ensures OutcomeOf([a, b, c], 1) == Lookup(After([a]), b.oid, b.row).1
    ensures OutcomeOf([a, b, c], 2) == Lookup(After([a, b]), c.oid, c.row).1
    ensures After([a]) == Lookup(map[], a.oid, a.row).0
    ensures After([a, b]) == Lookup(After([a]), b.oid, b.row).0
  {
    hide Lookup;
    assert [a, b, c][..0] == [] && [a, b, c][..1] == [a] && [a, b, c][..2] == [a, b];
    TwoCalls(a, b);
  }

  lemma BadThenGood(oid: Oid, good: ProcRow, bad: ProcRow)
    ensures var h := [Attempt(good, true)] + [Attempt(bad, false)]; Created(h) && Lookup(map[oid := h], oid, good).1 == Nil
  {
    FirstAttempt(good);
    LastOkSnoc([Attempt(good, true)], bad, false);
  }

  // ---------- The vararg flag ----------

  /** The flag is never reset: in any run, of a function that stays a trigger or stays
      none, a chunk is the one a fresh compile would give if and only if this version
      needs "..." itself or none called since the creation did. */
  lemma FreshUnlessSticky(calls: seq<Call>, n: nat)
    requires n < |calls| && StampsIdentify(calls) && OutcomeOf(calls, n).Function?
    requires Creator(calls[..n + 1], calls[n].oid) == None || Creator(calls[..n + 1], calls[n].oid).value.isTrigger == calls[n].row.isTrigger
    ensures var row := calls[n].row;
      OutcomeOf(calls, n).chunk == Chunk(if row.isTrigger || row.Unnamed() then None else Some(if row.nargs == 0 then [] else row.argNames), row.source) <==>
        row.isTrigger || row.Unnamed() || !UnnamedSince(calls[..n + 1], calls[n].oid)
  {
    var full, oid := calls[..n + 1], calls[n].oid;
    LookupsAreCurrent(calls, n);
    assert full[..n] == calls[..n];
    assert OutcomeOf(full, n) == OutcomeOf(calls, n);
  }

  /** A version without names, then one that names every argument: the second is compiled
      with "..." all the same, and its names are unbound. */
  lemma NamesStayUnbound(oid: Oid, before: ProcRow, after: ProcRow)
    requires before.stamp != after.stamp && before.Unnamed() && before.varargCompiles
    requires !after.isTrigger && !after.Unnamed() && after.varargCompiles
    ensures var calls := [Call(oid, before), Call(oid, after)];
      && StampsIdentify(calls)
      && OutcomeOf(calls, 1).Function? && OutcomeOf(calls, 1).chunk.source == after.source && OutcomeOf(calls, 1).chunk.params == None
      && |after.argNames| >= after.nargs && forall i :: 0 <= i < after.nargs ==> after.argNames[i] != ""
  {
    hide Lookup, Vararg, LastOk;
    var a, b := Call(oid, before), Call(oid, after);
    TwoCalls(a, b);
    FirstAttempt(before);
    LookupNew(map[], oid, before);
    LookupAgain(map[oid := [Attempt(before, true)]], oid, after);
  }
}
