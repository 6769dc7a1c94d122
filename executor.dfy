/**
 * AbstractAnsiExecutor and its inner AnsiContextImpl, as classes whose
 * methods update the tracked cursor, the caller's cursor, the escape builder
 * and the output sink in place.
 */
module Executor {
  import opened Terminal
  import opened Positioning
  import opened Session

  /** A mutable cursor: the caller's write position, or the executor's tracked cursor. */
  class Cursor {
    var row: nat
    var col: nat

    constructor (row: nat, col: nat)
      ensures At() == Position(row, col)
    {
      this.row := row;
      this.col := col;
    }

    /** The cursor's current value. */
    function At(): (p: Position)
      reads this
    {
      Position(row, col)
    }

    /** Overwrites both coordinates from `other`. */
    method CopyFrom(other: Cursor)
      modifies this
      ensures At() == old(other.At())
    {
      row, col := other.row, other.col;
    }
  }

  /** The escape builder, reduced to the calls made on it. */
  class Ansi {
    var tokens: seq<Token>

    constructor ()
      ensures tokens == []
    {
      tokens := [];
    }

    method Append(t: Token)
      modifies this
      ensures tokens == old(tokens) + [t]
    {
      tokens := tokens + [t];
    }
  }

  /**
   * Appending the string of one public call to the sink keeps the tracked
   * state equal to the interpretation of everything written: the moves take
   * the tracked cursor to the target, and the session continues from there.
   */
  lemma SessionKeepsStream(sink: seq<seq<Token>>, s: Tracked, target: Position, e: seq<Token>)
    requires Run(Origin(), Concat(sink)) == s && Exact(Origin(), Concat(sink))
    requires forall i :: 0 <= i < |e| ==> !IsMove(e[i])
    ensures Run(Origin(), Concat(sink + [Moves(s.at, target) + e])) == Run(Tracked(target, s.scrolls), e)
    ensures Exact(Origin(), Concat(sink + [Moves(s.at, target) + e]))
  {
    var m := Moves(s.at, target);
    ConcatSnoc(sink, m + e);
    RunAppend(Origin(), Concat(sink), m + e);
    RunAppend(s, m, e);
    MovesReachTarget(s, target);
    NoMovesExact(Tracked(target, s.scrolls), e);
    ExactAppend(s, m, e);
    ExactAppend(Origin(), Concat(sink), m + e);
  }

  class AnsiExecutor {
    /** Where the executor believes the terminal cursor is. */
    const writeCursor: Cursor
    /** Resolves a style to its colour. */
    const colorMap: Style -> Color
    /** Always emit escapes, instead of letting the library detect the terminal. */
    const forceAnsi: bool
    /** The strings appended to the target, in order. */
    var sink: seq<seq<Token>>
    /** How many times the new-line adjustment hook has run. */
    ghost var adjustments: nat

    ghost function State(): (s: Tracked)
      reads this, writeCursor
    {
      Tracked(writeCursor.At(), adjustments)
    }

    /**
     * The tracked cursor and the number of adjustments are what interpreting
     * everything appended to the target gives, and no move ever overshot.
     */
    ghost predicate Valid()
      reads this, writeCursor
    {
      Run(Origin(), Concat(sink)) == State() && Exact(Origin(), Concat(sink))
    }

    constructor (colorMap: Style -> Color, forceAnsi: bool)
      ensures Valid() && fresh(writeCursor)
      ensures writeCursor.At() == Position(0, 0) && sink == [] && adjustments == 0
      ensures this.colorMap == colorMap && this.forceAnsi == forceAnsi
    {
      this.colorMap := colorMap;
      this.forceAnsi := forceAnsi;
      writeCursor := new Cursor(0, 0);
      sink := [];
      adjustments := 0;
    }

    /**
     * Moves to `writePos`, runs the caller's script against a fresh context,
     * then appends the whole builder to the target once.
     */
    method WriteAt(writePos: Cursor, action: seq<Op>)
      requires Valid()
      modifies this, writeCursor, writePos
      ensures Valid()
      ensures sink == old(sink) + [Moves(old(writeCursor.At()), old(writePos.At())) + Emit(action, colorMap)]
      ensures State() == Run(Tracked(old(writePos.At()), old(adjustments)), Emit(action, colorMap))
      ensures writePos.At() == writeCursor.At()
    {
      ghost var s := State();
      ghost var target := writePos.At();
      var ansi := Create();
      MoveCursorTo(writePos, ansi);
      assert ansi.tokens == Moves(s.at, target);
      var context := new AnsiContextImpl(this, ansi, colorMap, writePos);
      context.Execute(action);
      Write(ansi);
      SessionKeepsStream(old(sink), s, target, Emit(action, colorMap));
    }

    /** Moves to `position` and appends the moves to the target at once. */
    method PositionCursorAt(position: Cursor)
      requires Valid()
      modifies this`sink, writeCursor
      ensures Valid()
      ensures sink == old(sink) + [Moves(old(writeCursor.At()), old(position.At()))]
      ensures writeCursor.At() == old(position.At()) && adjustments == old(adjustments)
    {
      ghost var s := State();
      ghost var target := position.At();
      var ansi := Create();
      MoveCursorTo(position, ansi);
      assert ansi.tokens == Moves(s.at, target);
      Write(ansi);
      SessionKeepsStream(old(sink), s, target, []);
      assert Moves(s.at, target) + [] == Moves(s.at, target);
    }

    /** Text advances the tracked column by its length; the caller's cursor follows. */
    method CharactersWritten(cursor: Cursor, count: nat)
      modifies writeCursor, cursor
      ensures writeCursor.At() == Position(old(writeCursor.row), old(writeCursor.col) + count)
      ensures cursor.At() == writeCursor.At()
    {
      writeCursor.col := writeCursor.col + count;
      cursor.CopyFrom(writeCursor);
    }

    /**
     * A newline returns to column 0 and moves one row down; on row 0 the
     * terminal scrolls instead, the row stays 0 and the adjustment hook runs.
     */
    method NewLineWritten(cursor: Cursor)
      modifies this`adjustments, writeCursor, cursor
      ensures writeCursor.col == 0
      ensures old(writeCursor.row) > 0 ==>
        writeCursor.row == old(writeCursor.row) - 1 && adjustments == old(adjustments)
      ensures old(writeCursor.row) == 0 ==>
        writeCursor.row == 0 && adjustments == old(adjustments) + 1
      ensures cursor.At() == writeCursor.At()
    {
      writeCursor.col := 0;
      if writeCursor.row > 0 {
        writeCursor.row := writeCursor.row - 1;
      } else {
        writeCursor.row := 0;
        DoNewLineAdjustment();
      }
      cursor.CopyFrom(writeCursor);
    }

    /** The hook subclasses supply; only its calls are counted. */
    method DoNewLineAdjustment()
      modifies this`adjustments
      ensures adjustments == old(adjustments) + 1
    {
      adjustments := adjustments + 1;
    }

    /** Emits the moves from the tracked cursor to `position`, then tracks `position`. */
    method MoveCursorTo(position: Cursor, ansi: Ansi)
      modifies writeCursor, ansi
      ensures ansi.tokens == old(ansi.tokens) + Moves(old(writeCursor.At()), old(position.At()))
      ensures writeCursor.At() == old(position.At())
    {
      if writeCursor.row == position.row {
        if writeCursor.col == position.col {
          return;
        }
        if writeCursor.col < position.col {
          ansi.Append(Right(position.col - writeCursor.col));
        } else {
          ansi.Append(Left(writeCursor.col - position.col));
        }
      } else {
        if writeCursor.col > 0 {
          ansi.Append(Left(writeCursor.col));
        }
        if writeCursor.row < position.row {
          ansi.Append(Up(position.row - writeCursor.row));
        } else {
          ansi.Append(Down(writeCursor.row - position.row));
        }
        if position.col > 0 {
          ansi.Append(Right(position.col));
        }
      }
      writeCursor.CopyFrom(position);
    }

    /** A fresh, empty builder (whether it emits real escapes is the library's concern). */
    method Create() returns (ansi: Ansi)
      ensures fresh(ansi) && ansi.tokens == []
    {
      ansi := new Ansi();
    }

    /** Appends the builder's content to the target, once, even when it is empty. */
    method Write(ansi: Ansi)
      modifies this`sink
      ensures sink == old(sink) + [ansi.tokens]
    {
      sink := sink + [ansi.tokens];
    }
  }

  /** The context a write session hands to the caller's callback. */
  class AnsiContextImpl {
    const executor: AnsiExecutor
    const delegate: Ansi
    const colorMap: Style -> Color
    const writePos: Cursor

    constructor (executor: AnsiExecutor, delegate: Ansi, colorMap: Style -> Color, writePos: Cursor)
      ensures this.executor == executor && this.delegate == delegate
      ensures this.colorMap == colorMap && this.writePos == writePos
    {
      this.executor := executor;
      this.delegate := delegate;
      this.colorMap := colorMap;
      this.writePos := writePos;
    }

    /** During a session the caller's cursor agrees with the tracked cursor. */
    ghost predicate Valid()
      reads writePos, executor.writeCursor
    {
      writePos.At() == executor.writeCursor.At()
    }

    /** Runs the caller's script, operation by operation. */
    method Execute(action: seq<Op>)
      requires Valid()
      modifies delegate, executor`adjustments, executor.writeCursor, writePos
      ensures Valid()
      ensures delegate.tokens == old(delegate.tokens) + Emit(action, colorMap)
      ensures executor.State() == Run(old(executor.State()), Emit(action, colorMap))
      decreases action, 0
    {
      if action != [] {
        ghost var s := executor.State();
        Perform(action[0]);
        Execute(action[1..]);
        RunAppend(s, EmitOp(action[0], colorMap), Emit(action[1..], colorMap));
      }
    }

    /** Dispatches one operation of the script to the context method it stands for. */
    method Perform(op: Op)
      requires Valid()
      modifies delegate, executor`adjustments, executor.writeCursor, writePos
      ensures Valid()
      ensures delegate.tokens == old(delegate.tokens) + EmitOp(op, colorMap)
      ensures executor.State() == Run(old(executor.State()), EmitOp(op, colorMap))
      decreases op, 3
    {
      ghost var s := executor.State();
      match op
      case Str(text) =>
        A(text);
        assert Run(s, [Text(text)]) == Run(Step(s, Text(text)), []);
      case Nl =>
        Newline();
        assert Run(s, [NewLine]) == Run(Step(s, NewLine), []);
      case Erase =>
        EraseForward();
        EraseTransparent(s, colorMap);
      case Colored(c, body) =>
        WithColor(c, body);
        ColoredTransparent(s, c, body, colorMap);
      case Styled(st, body) =>
        WithStyle(st, body);
        assert EmitOp(op, colorMap) == EmitOp(Colored(colorMap(st), body), colorMap);
        ColoredTransparent(s, colorMap(st), body, colorMap);
    }

    /** Brackets the inner operations with the colour's on and off codes; the codes do not move the cursor. */
    method WithColor(color: Color, action: seq<Op>)
      requires Valid()
      modifies delegate, executor`adjustments, executor.writeCursor, writePos
      ensures Valid()
      ensures delegate.tokens == old(delegate.tokens) + [On(color)] + Emit(action, colorMap) + [Off(color)]
      ensures executor.State() == Run(old(executor.State()), Emit(action, colorMap))
      decreases action, 1
    {
      delegate.Append(On(color));
      Execute(action);
      delegate.Append(Off(color));
    }

    /** A style is the colour the colour map resolves it to. */
    method WithStyle(style: Style, action: seq<Op>)
      requires Valid()
      modifies delegate, executor`adjustments, executor.writeCursor, writePos
      ensures Valid()
      ensures delegate.tokens ==
        old(delegate.tokens) + [On(colorMap(style))] + Emit(action, colorMap) + [Off(colorMap(style))]
      ensures executor.State() == Run(old(executor.State()), Emit(action, colorMap))
      decreases action, 2
    {
      WithColor(colorMap(style), action);
    }

    /**
     * Appends text; the tracked column advances by its length in UTF-16 code
     * units, and the caller's cursor follows.
     */
    method A(value: string)
      modifies delegate, executor.writeCursor, writePos
      ensures delegate.tokens == old(delegate.tokens) + [Text(value)]
      ensures executor.writeCursor.At() ==
        Position(old(executor.writeCursor.row), old(executor.writeCursor.col) + Utf16Length(value))
      ensures Valid()
    {
      delegate.Append(Text(value));
      executor.CharactersWritten(writePos, Utf16Length(value));
    }

    /** Appends a newline and tracks it; the caller's cursor follows. */
    method Newline()
      modifies delegate, executor`adjustments, executor.writeCursor, writePos
      ensures delegate.tokens == old(delegate.tokens) + [NewLine]
      ensures executor.State() == Step(old(executor.State()), NewLine)
      ensures Valid()
    {
      delegate.Append(NewLine);
      executor.NewLineWritten(writePos);
    }

    /** Appends an erase to the end of the line; nothing else changes. */
    method EraseForward()
      modifies delegate
      ensures delegate.tokens == old(delegate.tokens) + [EraseFwd]
    {
      delegate.Append(EraseFwd);
    }
  }

  /** Worked examples: what a caller can conclude from the contracts alone. */
  method Examples()
  {
    var colors := (st: Style) => Color(|st.name|);
    var executor := new AnsiExecutor(colors, false);

    var p := new Cursor(2, 5);
    executor.PositionCursorAt(p);
    assert executor.writeCursor.At() == Position(2, 5);

    var q := new Cursor(2, 9);
    executor.PositionCursorAt(q);
    assert executor.sink[1] == [Right(4)];

    var r := new Cursor(0, 3);
    executor.PositionCursorAt(r);
    assert executor.sink[2] == [Left(9), Down(2), Right(3)];
    assert executor.writeCursor.At() == Position(0, 3);

    var w := new Cursor(0, 0);
    ghost var before := executor.adjustments;
    ghost var script := [Str("ab"), Nl, Str("c")];
    assert Emit(script, colors) == [Text("ab"), NewLine, Text("c")] by {
      assert Emit(script[2..], colors) == [Text("c")];
      assert Emit(script[1..], colors) == [NewLine, Text("c")];
    }
    ghost var start := Tracked(Position(0, 0), before);
    ghost var toks := [Text("ab"), NewLine, Text("c")];
    assert Run(start, toks) == Tracked(Position(0, 1), before + 1) by {
      assert Run(start, toks) == Run(Tracked(Position(0, 2), before), toks[1..]);
      assert Run(Tracked(Position(0, 2), before), toks[1..]) == Run(Tracked(Position(0, 0), before + 1), toks[2..]);
      assert Run(Tracked(Position(0, 0), before + 1), toks[2..]) == Run(Tracked(Position(0, 1), before + 1), []);
    }
    executor.WriteAt(w, [Str("ab"), Nl, Str("c")]);
    assert w.At() == Position(0, 1);
    assert executor.adjustments == before + 1;
  }

  /** A character outside the Basic Multilingual Plane takes two UTF-16 units, so two columns. */
  method WideCharacterExample()
  {
    var colors := (st: Style) => Color(|st.name|);
    var executor := new AnsiExecutor(colors, false);
    var w := new Cursor(0, 0);
    ghost var smiley := "\U{1F600}";
    assert Utf16Length(smiley) == 2 by {
      assert smiley[0] as int > 0xFFFF && smiley[1..] == [];
    }
    assert Emit([Str(smiley)], colors) == [Text(smiley)];
    ghost var start := Tracked(Position(0, 0), 0);
    assert Run(start, [Text(smiley)]) == Run(Step(start, Text(smiley)), []);
    executor.WriteAt(w, [Str("\U{1F600}")]);
    assert w.At() == Position(0, 2);
  }
}
