/**
 * The abstract terminal the executor writes to.
 *
 * The jansi `Ansi` builder is abstracted as a sequence of tokens, one per
 * builder call the executor makes (cursorLeft, cursorRight, cursorUp,
 * cursorDown, a, newline, eraseLine(FORWARD), and a colour's on/off codes).
 * Text moves the column by its UTF-16 length, as Java counts it.
 * `Run` interprets a token sequence in the executor's own coordinates: row 0
 * is the bottom-most tracked line, rows grow upward, and a newline written on
 * row 0 scrolls the terminal (counted in `scrolls`) instead of moving down.
 */
module Terminal {

  /** A cursor value: `row` counted upward from the bottom line, `col` from the line start. */
  datatype Position = Position(row: nat, col: nat)

  /** An opaque colour, standing for the `ColorMap.Color` whose on/off codes bracket styled text. */
  datatype Color = Color(id: nat)

  /** An opaque style, resolved to a colour by the executor's colour map. */
  datatype Style = Style(name: string)

  /** One call on the escape builder. */
  datatype Token =
    | Left(n: nat)
    | Right(n: nat)
    | Up(n: nat)
    | Down(n: nat)
    | Text(s: string)
    | NewLine
    | EraseFwd
    | On(color: Color)
    | Off(color: Color)

  /** Relative cursor movements, the only tokens cursor positioning emits. */
  predicate IsMove(t: Token)
  {
    t.Left? || t.Right? || t.Up? || t.Down?
  }

  /**
   * The length of a string as Java's `CharSequence.length()` counts it: in
   * UTF-16 code units, so a character outside the Basic Multilingual Plane
   * (above U+FFFF) counts twice.
   */
  function Utf16Length(str: string): (n: nat)
    ensures |str| <= n <= 2 * |str|
    decreases |str|
  {
    if str == [] then 0
    else (if str[0] as int > 0xFFFF then 2 else 1) + Utf16Length(str[1..])
  }

  /** The UTF-16 length is the number of characters exactly when every character lies in the Basic Multilingual Plane. */
  lemma {:induction false} Utf16LengthBmp(str: string)
    ensures Utf16Length(str) == |str| <==> forall i :: 0 <= i < |str| ==> str[i] as int <= 0xFFFF
    decreases |str|
  {
    if str != [] {
      Utf16LengthBmp(str[1..]);
      assert forall i :: 1 <= i < |str| ==> str[i] == str[1..][i - 1];
      if str[0] as int > 0xFFFF {
        assert Utf16Length(str[1..]) >= |str[1..]|;
      }
    }
  }

  /** Where the cursor is, and how many times writing a newline on row 0 has scrolled. */
  datatype Tracked = Tracked(at: Position, scrolls: nat)

  /**
   * The effect of one token. A move past column 0 or row 0 stops there, as a
   * terminal does; `Fits` says when that does not happen.
   */
  function Step(s: Tracked, t: Token): (r: Tracked)
  {
    var p := s.at;
    match t
    case Left(n) => s.(at := p.(col := if n <= p.col then p.col - n else 0))
    case Right(n) => s.(at := p.(col := p.col + n))
    case Up(n) => s.(at := p.(row := p.row + n))
    case Down(n) => s.(at := p.(row := if n <= p.row then p.row - n else 0))
    case Text(str) => s.(at := p.(col := p.col + Utf16Length(str)))
    case NewLine =>
      if p.row > 0 then Tracked(Position(p.row - 1, 0), s.scrolls)
      else Tracked(Position(0, 0), s.scrolls + 1)
    case EraseFwd => s
    case On(_) => s
    case Off(_) => s
  }

  /** The token does not try to move the cursor left of column 0 or below row 0. */
  predicate Fits(p: Position, t: Token)
  {
    (t.Left? ==> t.n <= p.col) && (t.Down? ==> t.n <= p.row)
  }

  /** Interprets a token sequence from left to right. */
  function Run(s: Tracked, toks: seq<Token>): (r: Tracked)
    decreases |toks|
  {
    if toks == [] then s else Run(Step(s, toks[0]), toks[1..])
  }

  /** No token of the sequence is cut short at the edge of the terminal. */
  predicate Exact(s: Tracked, toks: seq<Token>)
    decreases |toks|
  {
    toks == [] || (Fits(s.at, toks[0]) && Exact(Step(s, toks[0]), toks[1..]))
  }

  /** The strings appended to the output sink, in order, as one stream. */
  function Concat(chunks: seq<seq<Token>>): (stream: seq<Token>)
  {
    if chunks == [] then [] else Concat(chunks[..|chunks| - 1]) + chunks[|chunks| - 1]
  }

  /** The terminal before anything is written: origin, no scrolls. */
  function Origin(): (s: Tracked)
  {
    Tracked(Position(0, 0), 0)
  }

  /** Interpreting two streams one after the other is interpreting their concatenation. */
  lemma {:induction false} RunAppend(s: Tracked, a: seq<Token>, b: seq<Token>)
    ensures Run(s, a + b) == Run(Run(s, a), b)
    decreases |a|
  {
    if a == [] {
      assert a + b == b;
    } else {
      assert (a + b)[0] == a[0];
      assert (a + b)[1..] == a[1..] + b;
      RunAppend(Step(s, a[0]), a[1..], b);
    }
  }

  /** A concatenation is exact when both halves are, the second from where the first ends. */
  lemma {:induction false} ExactAppend(s: Tracked, a: seq<Token>, b: seq<Token>)
    ensures Exact(s, a + b) <==> Exact(s, a) && Exact(Run(s, a), b)
    decreases |a|
  {
    if a == [] {
      assert a + b == b;
    } else {
      assert (a + b)[0] == a[0];
      assert (a + b)[1..] == a[1..] + b;
      ExactAppend(Step(s, a[0]), a[1..], b);
    }
  }

  /** Appending one more string to the sink appends it to the stream. */
  lemma ConcatSnoc(chunks: seq<seq<Token>>, x: seq<Token>)
    ensures Concat(chunks + [x]) == Concat(chunks) + x
  {
    assert (chunks + [x])[..|chunks|] == chunks;
  }
}
