/**
 * A write session: the caller's `Action<AnsiContext>` callback, modelled as a
 * terminating script of context operations, and the tokens it makes the
 * context append to the escape builder.
 */
module Session {
  import opened Terminal

  datatype Option<T> = None | Some(value: T)

  /** One call the callback makes on the context: `a`, `newline`, `eraseForward`, `withColor`, `withStyle`. */
  datatype Op =
    | Str(text: string)
    | Nl
    | Erase
    | Colored(color: Color, body: seq<Op>)
    | Styled(style: Style, body: seq<Op>)

  /** The tokens a script appends to the builder; no cursor movement is ever among them. */
  function Emit(action: seq<Op>, colorMap: Style -> Color): (r: seq<Token>)
    ensures forall i :: 0 <= i < |r| ==> !IsMove(r[i])
    decreases action
  {
    if action == [] then [] else EmitOp(action[0], colorMap) + Emit(action[1..], colorMap)
  }

  /** The tokens one operation appends; a colour brackets its body with the colour's on and off codes. */
  function EmitOp(op: Op, colorMap: Style -> Color): (r: seq<Token>)
    ensures forall i :: 0 <= i < |r| ==> !IsMove(r[i])
    decreases op
  {
    match op
    case Str(text) => [Text(text)]
    case Nl => [NewLine]
    case Erase => [EraseFwd]
    case Colored(c, body) => [On(c)] + Emit(body, colorMap) + [Off(c)]
    case Styled(st, body) => [On(colorMap(st))] + Emit(body, colorMap) + [Off(colorMap(st))]
  }

  /**
   * Reads the colour codes of a token stream against a stack of open
   * colours: an on-code opens its colour, an off-code must close the most
   * recently opened one. None when an off-code does not match.
   */
  function Scan(open: seq<Color>, toks: seq<Token>): (r: Option<seq<Color>>)
    decreases |toks|
  {
    if toks == [] then Some(open)
    else match toks[0]
      case On(c) => Scan(open + [c], toks[1..])
      case Off(c) =>
        if open != [] && open[|open| - 1] == c then Scan(open[..|open| - 1], toks[1..]) else None
      case _ => Scan(open, toks[1..])
  }

  /** Every on-code is closed by the matching off-code, innermost first. */
  predicate Balanced(toks: seq<Token>)
  {
    Scan([], toks) == Some([])
  }

  /** A script's tokens close every colour they open, whatever colours are open around them. */
  lemma {:induction false} EmitScan(open: seq<Color>, action: seq<Op>, colorMap: Style -> Color, rest: seq<Token>)
    ensures Scan(open, Emit(action, colorMap) + rest) == Scan(open, rest)
    decreases action, 0
  {
    if action == [] {
      assert Emit(action, colorMap) + rest == rest;
    } else {
      var tail := Emit(action[1..], colorMap) + rest;
      assert Emit(action, colorMap) + rest == EmitOp(action[0], colorMap) + tail;
      EmitOpScan(open, action[0], colorMap, tail);
      EmitScan(open, action[1..], colorMap, rest);
    }
  }

  /** One operation's tokens close every colour they open. */
  lemma {:induction false} EmitOpScan(open: seq<Color>, op: Op, colorMap: Style -> Color, rest: seq<Token>)
    ensures Scan(open, EmitOp(op, colorMap) + rest) == Scan(open, rest)
    decreases op
  {
    var toks := EmitOp(op, colorMap) + rest;
    match op
    case Str(_) =>
      assert toks[1..] == rest;
    case Nl =>
      assert toks[1..] == rest;
    case Erase =>
      assert toks[1..] == rest;
    case Colored(c, body) =>
      BracketScan(open, c, body, colorMap, rest);
    case Styled(st, body) =>
      BracketScan(open, colorMap(st), body, colorMap, rest);
  }

  /** An on-code, a script's tokens and the matching off-code leave the open colours as they were. */
  lemma {:induction false} BracketScan(open: seq<Color>, c: Color, body: seq<Op>, colorMap: Style -> Color, rest: seq<Token>)
    ensures Scan(open, [On(c)] + Emit(body, colorMap) + [Off(c)] + rest) == Scan(open, rest)
    decreases body, 1
  {
    var inner := Emit(body, colorMap);
    var toks := [On(c)] + inner + [Off(c)] + rest;
    assert toks[0] == On(c);
    assert toks[1..] == inner + ([Off(c)] + rest);
    EmitScan(open + [c], body, colorMap, [Off(c)] + rest);
    var after := [Off(c)] + rest;
    assert after[0] == Off(c) && after[1..] == rest;
    assert (open + [c])[..|open|] == open;
  }

  /** The tokens of every write session are balanced: bracket discipline holds under nesting. */
  lemma EmitBalanced(action: seq<Op>, colorMap: Style -> Color)
    ensures Balanced(Emit(action, colorMap))
  {
    EmitScan([], action, colorMap, []);
    assert Emit(action, colorMap) + [] == Emit(action, colorMap);
  }

  /** A colour bracket moves the cursor exactly as its body does: the codes themselves change nothing. */
  lemma ColoredTransparent(s: Tracked, c: Color, body: seq<Op>, colorMap: Style -> Color)
    ensures Run(s, EmitOp(Colored(c, body), colorMap)) == Run(s, Emit(body, colorMap))
  {
    var inner := Emit(body, colorMap);
    RunAppend(s, [On(c)] + inner, [Off(c)]);
    RunAppend(s, [On(c)], inner);
    assert Run(s, [On(c)]) == Run(Step(s, On(c)), []);
    var t := Run(s, [On(c)] + inner);
    assert Run(t, [Off(c)]) == Run(Step(t, Off(c)), []);
  }

  /** Erasing to the end of the line leaves the cursor where it is. */
  lemma EraseTransparent(s: Tracked, colorMap: Style -> Color)
    ensures Run(s, EmitOp(Erase, colorMap)) == s
  {
    assert Run(s, [EraseFwd]) == Run(Step(s, EraseFwd), []);
  }

  /** A stream without cursor movements never runs into the terminal's edge. */
  lemma {:induction false} NoMovesExact(s: Tracked, toks: seq<Token>)
    requires forall i :: 0 <= i < |toks| ==> !IsMove(toks[i])
    ensures Exact(s, toks)
    decreases |toks|
  {
    if toks != [] {
      NoMovesExact(Step(s, toks[0]), toks[1..]);
    }
  }
}
