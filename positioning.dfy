/**
 * The cursor-diff policy of `positionCursorAt(Cursor, Ansi)`: the relative
 * moves that take the terminal from the tracked cursor to a target.
 */
module Positioning {
  import opened Terminal

  /**
   * The moves emitted to go from `cur` to `target`: nothing when they are
   * equal; one horizontal move on the same row; otherwise back to column 0,
   * one vertical move, and out to the target column.
   */
  function Moves(cur: Position, target: Position): (r: seq<Token>)
    ensures |r| <= 3
    ensures r == [] <==> cur == target
    ensures forall i :: 0 <= i < |r| ==> IsMove(r[i]) && r[i].n > 0
  {
    if cur.row == target.row then
      if cur.col == target.col then []
      else if cur.col < target.col then [Right(target.col - cur.col)]
      else [Left(cur.col - target.col)]
    else
      (if cur.col > 0 then [Left(cur.col)] else [])
      + [if cur.row < target.row then Up(target.row - cur.row) else Down(cur.row - target.row)]
      + (if target.col > 0 then [Right(target.col)] else [])
  }

  /**
   * Interpreting the moves from the tracked cursor ends exactly at the
   * target, without scrolling, and no move runs into the terminal's edge.
   */
  lemma {:induction false} MovesReachTarget(s: Tracked, target: Position)
    ensures Run(s, Moves(s.at, target)) == Tracked(target, s.scrolls)
    ensures Exact(s, Moves(s.at, target))
  {
    var cur := s.at;
    if cur.row == target.row {
      if cur.col != target.col {
        var t := Moves(cur, target)[0];
        assert Moves(cur, target) == [t];
        assert Run(s, [t]) == Run(Step(s, t), []);
        assert Exact(Step(s, t), []);
      }
    } else {
      var a: seq<Token> := if cur.col > 0 then [Left(cur.col)] else [];
      var v := if cur.row < target.row then Up(target.row - cur.row) else Down(cur.row - target.row);
      var b: seq<Token> := if target.col > 0 then [Right(target.col)] else [];
      assert Moves(cur, target) == a + [v] + b;
      var s0 := Tracked(Position(cur.row, 0), s.scrolls);
      assert Run(s, a) == s0 && Exact(s, a) by {
        if a != [] {
          assert Run(s, a) == Run(Step(s, a[0]), []);
          assert Exact(Step(s, a[0]), []);
        }
      }
      var s1 := Tracked(Position(target.row, 0), s.scrolls);
      assert Run(s0, [v]) == Run(Step(s0, v), []);
      assert Run(s0, [v]) == s1;
      assert Exact(s0, [v]) by {
        assert Exact(Step(s0, v), []);
      }
      assert Run(s1, b) == Tracked(target, s.scrolls) && Exact(s1, b) by {
        if b != [] {
          assert Run(s1, b) == Run(Step(s1, b[0]), []);
          assert Exact(Step(s1, b[0]), []);
        }
      }
      RunAppend(s, a, [v]);
      RunAppend(s, a + [v], b);
      ExactAppend(s, a, [v]);
      ExactAppend(s, a + [v], b);
    }
  }

  /** On the same row and a different column, exactly one horizontal move by the column distance. */
  lemma MovesSameRow(cur: Position, target: Position)
    requires cur.row == target.row && cur.col != target.col
    ensures var r := Moves(cur, target);
      |r| == 1
      && (cur.col < target.col ==> r[0] == Right(target.col - cur.col))
      && (cur.col > target.col ==> r[0] == Left(cur.col - target.col))
  {
  }

  /**
   * On a different row: a return to column 0 when not already there, then
   * exactly one vertical move by the row distance, then a move out to the
   * target column when it is not 0.
   */
  lemma MovesAcrossRows(cur: Position, target: Position)
    requires cur.row != target.row
    ensures var r := Moves(cur, target);
      var k := if cur.col > 0 then 1 else 0;
      |r| == k + 1 + (if target.col > 0 then 1 else 0)
      && (cur.col > 0 ==> r[0] == Left(cur.col))
      && (cur.row < target.row ==> r[k] == Up(target.row - cur.row))
      && (cur.row > target.row ==> r[k] == Down(cur.row - target.row))
      && (target.col > 0 ==> r[k + 1] == Right(target.col))
  {
  }

  /** Positioning a second time at the same place emits nothing. */
  lemma MovesIdempotent(s: Tracked, target: Position)
    ensures Moves(Run(s, Moves(s.at, target)).at, target) == []
  {
    MovesReachTarget(s, target);
  }
}
