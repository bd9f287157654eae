/** The call handlers as they run: each enters and leaves a frame by operating on the C
    memory of Runtime, and does to the world of Frames what Frames says. */
module Handlers {
  import opened Memory
  import opened Ledger
  import opened LedgerProofs
  import opened Sweep
  import opened Runs
  import opened RuntimeModel
  import opened RuntimeProofs
  import R = Runtime
  import F = Frames

  /** A stack of the ledger is in memory, with its weak cell. */
  lemma StackThere(rt: R.Runtime, S: Ptr)
    requires rt.Inv() && S in rt.abs.stacks
    ensures S in rt.stacks && rt.stacks[S].cleanupPtr == rt.abs.stacks[S].cell
  {
    HeapParts(rt.Snap(), rt.abs);
    StackFieldRepresents(rt.Snap(), rt.abs, S, rt.stacks[S].refCount);
  }

  lemma CellThere(rt: R.Runtime, cell: Ptr)
    requires rt.Inv() && cell in rt.cells && rt.cells[cell] != NULL
    ensures cell in rt.abs.cells && rt.cells[cell] == rt.abs.cells[cell]
    ensures rt.cells[cell] in rt.abs.stacks && rt.cells[cell] in rt.stacks
  {
    assert CellTo(rt.abs.cells, rt.abs.stacks, cell);
    StackThere(rt, rt.cells[cell]);
  }

  lemma SameSession(w: F.World, S: Ptr)
    requires Valid(w.s) && F.EnterStrong(w, S).Done?
    ensures F.EnterStrong(w, S).w.session == w.session
  {
    hide HomesOk, RefsOk, CountOk, CellsOk, CursorsOk, RegisteredOk, IterOk;
  }

  class Backend {
    const rt: R.Runtime
    var session: F.Session
    var savepoints: seq<nat>
    var writes: seq<F.Write>
    ghost var frames: seq<Ptr>
    ghost var kept: set<Ptr>

    ghost function World(): F.World
      reads this, rt
    {
      F.World(rt.abs, frames, kept, writes, savepoints, session)
    }

    constructor (rt: R.Runtime, session: F.Session)
      ensures this.rt == rt && this.session == session
      ensures frames == [] && kept == {} && writes == [] && savepoints == []
    {
      this.rt, this.session, savepoints, writes, frames, kept := rt, session, [], [], [], {};
    }

    /** rtds_inuse and rtds_set_current. */
    method Enter(S: Ptr) returns (prev: Ptr)
      requires rt.Inv() && S in rt.stacks
      modifies this, rt
      ensures rt.Inv() && Valid(old(rt.abs)) && F.Enter(old(World()), S) == F.Done(World()) && prev == old(rt.abs).current
    {
      hide Valid;
      ghost var s := rt.abs;
      rt.InUse(S);
      ghost var s1 := rt.abs;
      prev := rt.SetCurrentStack(S);
      frames := [S] + frames;
    }

    /** luaP_callhandler up to the call. */
    method EnterFunction(cell: Ptr) returns (prev: Ptr, ghost S: Ptr)
      requires rt.Inv() && cell in rt.cells
      modifies this, rt
      ensures rt.Inv() && Valid(old(rt.abs)) && forall kind, body :: F.Entry(old(World()), F.Call(cell, kind, S, body)) == F.Done(World())
      ensures prev == old(rt.abs).current
    {
      hide Valid, F.Enter;
      S := NULL;
      if rt.cells[cell] == NULL {
        var made := rt.InitStack(cell);
        S := made;
        StackThere(rt, made);
        prev := Enter(made);
      } else {
        CellThere(rt, cell);
        prev := Enter(rt.cells[cell]);
      }
    }

    /** rtds_set_current(prev) at the end of a frame. */
    method Leave(prev: Ptr)
      requires rt.Inv() && frames != []
      modifies this, rt
      ensures rt.Inv() && Valid(old(rt.abs)) && F.Leave(F.Done(old(World())), prev) == F.Done(World())
    {
      hide Valid;
      var old_current := rt.SetCurrentStack(prev);
      frames := frames[1..];
    }

    /** fi->funcxt_wp = rtds_unref(fi->funcxt_wp) */
    method UnrefWeak(cell: Ptr)
      requires rt.Inv() && cell in rt.cells && rt.cells[cell] != NULL
      modifies rt
      ensures rt.Inv() && Valid(old(rt.abs)) && F.UnrefOp(F.Done(old(World())), old(rt.cells)[cell]) == F.Done(World())
    {
      hide Valid;
      CellThere(rt, cell);
      rt.NotInUse(rt.cells[cell]);
      rt.FreeWeak(cell);
    }

    /** funcxt = rtds_unref(funcxt) */
    method UnrefStrong(S: Ptr)
      requires rt.Inv() && S in rt.stacks && S in rt.abs.stacks && rt.abs.stacks[S].cell == NULL
      modifies rt
      ensures rt.Inv() && Valid(old(rt.abs)) && F.UnrefOp(F.Done(old(World())), S) == F.Done(World())
    {
      hide Valid;
      rt.NotInUse(S);
      StackThere(rt, S);
      var r := rt.FreeStrong(S);
    }

    /** luaP_callhandler from the call on.  w is the world in which act, the call, began. */
    method ExitFunction(cell: Ptr, kind: F.Kind, prev: Ptr, ghost w: F.World, ghost act: F.Act)
      requires act.Call? && act.cell == cell && act.kind == kind && w.s.current == prev
      requires rt.Inv() && F.Disciplined(World()) && frames != []
      requires cell in rt.cells && rt.cells[cell] == frames[0] && cell in rt.abs.cells && rt.abs.cells[cell] == frames[0]
      requires frames[0] != NULL
      modifies this, rt
      ensures rt.Inv() && Valid(old(rt.abs)) && F.Exit(w, act, old(World())) == F.Done(World())
    {
      hide Valid, F.UnrefOp, F.Leave;
      match kind {
        case Ordinary =>
          UnrefWeak(cell);
        case Trigger =>
          StackThere(rt, rt.abs.current);
          rt.TryClean(rt.current);
        case SetReturning(last) =>
          CellThere(rt, cell);
          if last {
            UnrefWeak(cell);
          } else {
            rt.NotInUse(rt.cells[cell]);
          }
      }
      Leave(prev);
    }

    /** luaP_inlinehandler and WRAP_SUBTRANSACTION: a new stack of their own. */
    method EnterNew() returns (S: Ptr, prev: Ptr)
      requires rt.Inv()
      modifies this, rt
      ensures rt.Inv() && Valid(old(rt.abs)) && prev == old(rt.abs).current
      ensures F.EnterStrong(old(World()), S) == F.Done(World())
      ensures forall body :: F.Entry(old(World()), F.Inline(S, body)) == F.Done(World())
      ensures S in rt.abs.stacks && rt.abs.stacks[S].cell == NULL
    {
      hide Valid;
      S := rt.InitStack(NULL);
      StackThere(rt, S);
      prev := Enter(S);
    }

    /** luaP_inlinehandler after the call. */
    method ExitInline(S: Ptr, prev: Ptr, ghost w: F.World, ghost act: F.Act)
      requires act.Inline? && act.S == S && w.s.current == prev
      requires rt.Inv() && S in rt.abs.stacks && rt.abs.stacks[S].cell == NULL && frames != []
      modifies this, rt
      ensures rt.Inv() && Valid(old(rt.abs)) && F.Exit(w, act, old(World())) == F.Done(World())
    {
      hide Valid, F.UnrefOp, F.Leave;
      StackThere(rt, S);
      UnrefStrong(S);
      Leave(prev);
    }

    /** stb_enter */
    method BeginSubtransaction(inner: F.Session) returns (saved: F.Session)
      modifies `session, `savepoints
      ensures saved == old(session) && World() == F.Begin(old(World()), inner)
    {
      saved := session;
      savepoints := savepoints + [|writes|];
      session := inner;
      session := session.(context := saved.context);
    }

    /** stb_exit */
    method EndSubtransaction(ok: bool, outer: F.Session, saved: F.Session)
      requires savepoints != [] && savepoints[|savepoints| - 1] <= |writes|
      modifies `session, `savepoints, `writes
      ensures World() == F.End(old(World()), ok, outer, saved)
    {
      var n := |savepoints| - 1;
      if !ok {
        writes := writes[..savepoints[n]];
      }
      savepoints := savepoints[..n];
      session := outer;
      session := session.(context := saved.context);
      session := session.(owner := saved.owner);
    }

    /** WRAP_SUBTRANSACTION up to the call. */
    method EnterSubtransaction(inner: F.Session) returns (S: Ptr, prev: Ptr, saved: F.Session)
      requires rt.Inv()
      modifies this, rt
      ensures rt.Inv() && Valid(old(rt.abs)) && prev == old(rt.abs).current && saved == old(session)
      ensures forall ok, body, outer :: F.Entry(old(World()), F.Subtransaction(S, ok, body, inner, outer)) == F.Done(World())
      ensures S in rt.abs.stacks && rt.abs.stacks[S].cell == NULL
    {
      hide Valid, F.EnterStrong;
      ghost var w := World();
      S, prev := EnterNew();
      SameSession(w, S);
      saved := BeginSubtransaction(inner);
    }

    /** WRAP_SUBTRANSACTION after the call, which ended with status 0 or not. */
    method ExitSubtransaction(S: Ptr, ok: bool, outer: F.Session, saved: F.Session, prev: Ptr, ghost w: F.World, ghost act: F.Act)
      requires act.Subtransaction? && act.S == S && act.ok == ok && act.outer == outer && w.s.current == prev && w.session == saved
      requires rt.Inv() && S in rt.abs.stacks && rt.abs.stacks[S].cell == NULL && frames != []
      requires savepoints != [] && savepoints[|savepoints| - 1] <= |writes|
      modifies this, rt
      ensures rt.Inv() && Valid(old(rt.abs)) && F.Exit(w, act, old(World())) == F.Done(World())
    {
      hide Valid, F.UnrefOp, F.Leave, F.End;
      EndSubtransaction(ok, outer, saved);
      if ok {
        kept := kept + {S};
      } else {
        StackThere(rt, S);
        UnrefStrong(S);
      }
      Leave(prev);
    }

    /** pllua_xact_cb, when all frames are over. */
    method EndTransaction()
      requires rt.Inv() && frames == []
      modifies this, rt
      ensures rt.Inv() && Valid(old(rt.abs)) && World() == F.TransactionOver(old(World()))
    {
      hide Valid;
      rt.EndTransaction();
      kept := {};
    }
  }
}
