/** The level loop of db_errorfb: a long stack is printed without its middle. */
module Traceback {
  const LEVELS1 := 12
  const LEVELS2 := 10

  datatype Line = Level(n: nat) | Dots

  /** The lines of levels from .. to - 1. */
  function Levels(from: nat, to: int): seq<Line> {
    seq(if from < to then to - from else 0, i requires 0 <= i => Level(from + i))
  }

  function Max(a: int, b: int): int {
    if a < b then b else a
  }

  /** What a stack of the given depth prints from level start on: everything if no more
      than LEVELS2 levels would be left out, else the first part, dots, the last part. */
  function Printed(start: nat, depth: nat): seq<Line> {
    if depth <= Max(start, LEVELS1) + LEVELS2 + 1 then Levels(start, depth)
    else Levels(start, LEVELS1) + [Dots] + Levels(depth - LEVELS2, depth)
  }

  /** db_errorfb's loop; lua_getstack(L1, n, &ar) succeeds exactly for n < depth. */
  method PrintStack(start: nat, depth: nat) returns (out: seq<Line>)
    ensures out == Printed(start, depth)
  {
    var level: nat, firstPart := start, true;
    out := [];
    while true
      invariant firstPart ==> start <= level && out == Levels(start, level)
      invariant firstPart ==> (level <= Max(start, LEVELS1)) && (level <= depth || level == start)
      invariant !firstPart ==> level <= depth && depth > Max(start, LEVELS1)
      invariant !firstPart ==> out + Levels(level, depth) == Printed(start, depth)
      decreases firstPart, depth - level
    {
      var here := level;
      level := level + 1;
      if !(here < depth) {
        break;
      }
      if level > LEVELS1 && firstPart {
        if !(level + LEVELS2 < depth) {
          level := level - 1;
          LevelsSplit(start, level, depth);
        } else {
          out := out + [Dots];
          while level + LEVELS2 < depth
            invariant level + LEVELS2 <= depth
          {
            level := level + 1;
          }
        }
        firstPart := false;
        continue;
      }
      LevelsSplit(here, here + 1, depth);
      out := out + [Level(here)];
    }
  }

  lemma {:induction false} LevelsSplit(a: nat, b: nat, c: nat)
    requires a <= b <= c
    ensures Levels(a, b) + Levels(b, c) == Levels(a, c)
  {
  }

  /** Which line is where: up to 23 levels (more if the first level printed is beyond the
      12th) everything; else the levels below 12, the dots, the last 10. */
  lemma PrintedPlaces(start: nat, depth: nat)
    requires start < depth
    ensures var out, first := Printed(start, depth), if start < 12 then 12 - start else 0;
      if depth <= start + first + 11 then
        |out| == depth - start && forall i :: 0 <= i < |out| ==> out[i] == Level(start + i)
      else
        && |out| == first + 11 && out[first] == Dots
        && (forall i :: 0 <= i < first ==> out[i] == Level(start + i))
        && (forall i :: first < i < |out| ==> out[i] == Level(depth - |out| + i))
  {
    var first := Levels(start, LEVELS1);
    assert depth > Max(start, LEVELS1) + LEVELS2 + 1 ==> Printed(start, depth)[|first|] == Dots;
  }

  /** Lines are printed once, in order, from the stack; the first 12 levels and the last 10
      are never left out, and dots stand for at least two levels, between the two parts. */
  lemma PrintedIsFaithful(start: nat, depth: nat)
    requires start < depth
    ensures var out := Printed(start, depth);
      && (forall i, j :: 0 <= i < j < |out| && out[i].Level? && out[j].Level? ==> out[i].n < out[j].n)
      && (forall i :: 0 <= i < |out| && out[i].Level? ==> start <= out[i].n < depth)
      && (forall n :: start <= n < depth && (n < 12 || n >= depth - 10) ==> Level(n) in out)
      && (Dots in out <==> depth > Max(start, 12) + 11)
      && (Dots in out ==> |out| < depth - start)
  {
    hide Printed;
    PrintedPlaces(start, depth);
    var out := Printed(start, depth);
    if depth <= Max(start, 12) + 11 {
      forall n | start <= n < depth ensures Level(n) in out { assert out[n - start] == Level(n); }
    } else {
      var first := if start < 12 then 12 - start else 0;
      forall n | start <= n < depth && (n < 12 || n >= depth - 10) ensures Level(n) in out {
        if n < 12 {
          assert out[n - start] == Level(n);
        } else {
          assert out[n - depth + |out|] == Level(n);
        }
      }
      assert out[first] == Dots;
    }
  }
}
