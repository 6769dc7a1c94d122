# ANSI executor model

A Dafny model of Gradle's `AbstractAnsiExecutor`, the console primitive that turns
"write at row/column" requests into relative ANSI cursor moves and styled text, while it
tracks where the terminal cursor is, so that it emits no move when the cursor is already at the
target and at most three relative moves otherwise.

Rows count upward from the bottom-most tracked line (row 0); columns count from the start of
the line. The executor keeps one mutable cursor, `writeCursor`, its belief about where the
terminal cursor stands.

- `terminal.dfy` (module `Terminal`): positions, colours and the escape builder's calls as tokens
  (`Left`, `Right`, `Up`, `Down`, `Text`, `NewLine`, `EraseFwd`, `On`, `Off`). `Run` interprets a
  token stream in the executor's coordinates: a newline on row 0 keeps row 0 and counts a scroll.
  `Exact` says that no move in the stream ran past column 0 or row 0.
- `positioning.dfy` (module `Positioning`): `Moves`, the cursor diff of `positionCursorAt`, and
  what it achieves.
- `session.dfy` (module `Session`): the caller's callback as a script of context operations
  (`Str`, `Nl`, `Erase`, `Colored`, `Styled`), the tokens it appends (`Emit`), and the proof that
  colour codes are always balanced and never move the cursor.
- `executor.dfy` (module `Executor`): classes `Cursor`, `Ansi` (the builder), `AnsiExecutor` and
  `AnsiContextImpl`. Their methods update fields in place. The output target is the field `sink`,
  the list of strings appended to it. The subclass hook `doNewLineAdjustment` is a ghost counter,
  `adjustments`. The executor's invariant `Valid()` says that interpreting everything ever
  appended to the target, from the origin, gives exactly the tracked cursor and the number of
  adjustments, and that no move ever overshot. `WriteAt` and `PositionCursorAt` keep it.

Two facts about the code that a reader might expect otherwise:
- The diff is not minimal across rows. From (1,5) to (2,5) the code emits left 5, up 1, right 5,
  where up 1 alone would reach the target. The model states what the code emits, at most three
  moves, and proves that they reach the target.
- `withColor` has no `finally` around the inner callback, so the on/off bracket is claimed only
  for scripts that run to completion.

Text moves the column by its length as Java's `CharSequence.length()` counts it, in UTF-16 code
units (`Terminal.Utf16Length`): a character above U+FFFF, such as an emoji, moves it by two.

## Model

| member | source | states |
|---|---|---|
| `Terminal.Utf16Length` | subprojects/logging/src/main/java/org/gradle/internal/logging/console/AbstractAnsiExecutor.java:150 | The column advance of a text is `value.length()`: at least one and at most two UTF-16 units per character. |
| `Terminal.Utf16LengthBmp` | subprojects/logging/src/main/java/org/gradle/internal/logging/console/AbstractAnsiExecutor.java:150 | The advance equals the number of characters exactly when every character lies in the Basic Multilingual Plane. |
| `Positioning.Moves` | subprojects/logging/src/main/java/org/gradle/internal/logging/console/AbstractAnsiExecutor.java:76-98 | At most three moves. No move exactly when the target is the tracked cursor. Every token is a move by a positive amount. |
| `Positioning.MovesReachTarget` | subprojects/logging/src/main/java/org/gradle/internal/logging/console/AbstractAnsiExecutor.java:76-100 | Interpreting the moves from the tracked cursor ends exactly at the target, without scrolling. No move runs past column 0 or row 0. |
| `Positioning.MovesSameRow` | subprojects/logging/src/main/java/org/gradle/internal/logging/console/AbstractAnsiExecutor.java:77-85 | On the same row at another column, exactly one move: right by the difference when the target is further right, else left by the difference. |
| `Positioning.MovesAcrossRows` | subprojects/logging/src/main/java/org/gradle/internal/logging/console/AbstractAnsiExecutor.java:86-98 | On another row, in order: left by the current column if it is not 0, one vertical move (up when the target row is greater, else down) by the row distance, then right by the target column if it is not 0. |
| `Positioning.MovesIdempotent` | subprojects/logging/src/main/java/org/gradle/internal/logging/console/AbstractAnsiExecutor.java:77-80 | Positioning again at the same target, from where the first positioning left the cursor, emits nothing. |
| `Session.Emit` | subprojects/logging/src/main/java/org/gradle/internal/logging/console/AbstractAnsiExecutor.java:129-165 | The tokens a write session appends never include a cursor move. |
| `Session.EmitOp` | subprojects/logging/src/main/java/org/gradle/internal/logging/console/AbstractAnsiExecutor.java:129-165 | No single context operation, however deeply nested, appends a cursor move. |
| `Session.EmitScan` | subprojects/logging/src/main/java/org/gradle/internal/logging/console/AbstractAnsiExecutor.java:129-135 | A script's tokens close every colour they open, innermost first, whatever colours are open around them. |
| `Session.EmitBalanced` | subprojects/logging/src/main/java/org/gradle/internal/logging/console/AbstractAnsiExecutor.java:129-145 | The tokens of every write session are balanced: each on-code is closed by the same colour's off-code, also under nesting. |
| `Session.ColoredTransparent` | subprojects/logging/src/main/java/org/gradle/internal/logging/console/AbstractAnsiExecutor.java:129-135 | `withColor` moves the cursor and triggers the hook exactly as its inner operations do. |
| `Session.EraseTransparent` | subprojects/logging/src/main/java/org/gradle/internal/logging/console/AbstractAnsiExecutor.java:161-165 | `eraseForward` changes neither the cursor nor the adjustment count. |
| `Session.NoMovesExact` | subprojects/logging/src/main/java/org/gradle/internal/logging/console/AbstractAnsiExecutor.java:54-72 | A stream without moves never runs past column 0 or row 0: text only moves right, and a newline on row 0 scrolls. |
| `Executor.SessionKeepsStream` | subprojects/logging/src/main/java/org/gradle/internal/logging/console/AbstractAnsiExecutor.java:40-52 | If the tracked state matches the interpretation of everything written, it still matches after one more public call's string (moves, then session tokens). |
| `Executor.AnsiExecutor.constructor` | subprojects/logging/src/main/java/org/gradle/internal/logging/console/AbstractAnsiExecutor.java:31-37 | The tracked cursor starts at the origin, nothing is written, and the hook has not run. |
| `Executor.AnsiExecutor.WriteAt` | subprojects/logging/src/main/java/org/gradle/internal/logging/console/AbstractAnsiExecutor.java:40-45 | Exactly one string is appended: the moves to `writePos`, then the session's tokens. The tracked state is the session run from `writePos`. The caller's cursor ends equal to the tracked cursor. The invariant is kept. |
| `Executor.AnsiExecutor.PositionCursorAt` | subprojects/logging/src/main/java/org/gradle/internal/logging/console/AbstractAnsiExecutor.java:47-52 | Exactly one string is appended, holding the moves, even when there are none. The tracked cursor becomes the position. The hook does not run. The invariant is kept. |
| `Executor.AnsiExecutor.CharactersWritten` | subprojects/logging/src/main/java/org/gradle/internal/logging/console/AbstractAnsiExecutor.java:54-57 | The column advances by the count and the row is unchanged. The caller's cursor is then a copy of the tracked one. |
| `Executor.AnsiExecutor.NewLineWritten` | subprojects/logging/src/main/java/org/gradle/internal/logging/console/AbstractAnsiExecutor.java:59-72 | The column becomes 0. Above row 0 the row decreases by one and the hook does not run. On row 0 the row stays 0 and the hook runs exactly once. The caller's cursor is then a copy of the tracked one. |
| `Executor.AnsiExecutor.DoNewLineAdjustment` | subprojects/logging/src/main/java/org/gradle/internal/logging/console/AbstractAnsiExecutor.java:74 | Each call of the hook is counted once. |
| `Executor.AnsiExecutor.MoveCursorTo` | subprojects/logging/src/main/java/org/gradle/internal/logging/console/AbstractAnsiExecutor.java:76-100 | Appends `Moves` from the tracked cursor to the position onto the builder, then tracks the position. |
| `Executor.AnsiExecutor.Create` | subprojects/logging/src/main/java/org/gradle/internal/logging/console/AbstractAnsiExecutor.java:102-108 | Each call gets a fresh, empty builder. |
| `Executor.AnsiExecutor.Write` | subprojects/logging/src/main/java/org/gradle/internal/logging/console/AbstractAnsiExecutor.java:110-116 | The builder's whole content is appended to the target as one string. |
| `Executor.Cursor.CopyFrom` | subprojects/logging/src/main/java/org/gradle/internal/logging/console/AbstractAnsiExecutor.java:99 | Both coordinates are overwritten from the other cursor. |
| `Executor.AnsiContextImpl.constructor` | subprojects/logging/src/main/java/org/gradle/internal/logging/console/AbstractAnsiExecutor.java:123-127 | The context is bound to the builder, the colour map and the caller's cursor. |
| `Executor.AnsiContextImpl.Execute` | subprojects/logging/src/main/java/org/gradle/internal/logging/console/AbstractAnsiExecutor.java:43 | Running the caller's script appends `Emit` of it to the builder. The tracked state becomes `Run` of those tokens. The caller's cursor stays equal to the tracked cursor. |
| `Executor.AnsiContextImpl.Perform` | subprojects/logging/src/main/java/org/gradle/internal/logging/console/AbstractAnsiExecutor.java:129-165 | Each context operation appends its tokens and moves the tracked state as interpreting them does. |
| `Executor.AnsiContextImpl.WithColor` | subprojects/logging/src/main/java/org/gradle/internal/logging/console/AbstractAnsiExecutor.java:129-135 | Appends the on-code, the inner tokens and the off-code. The cursor changes only as the inner operations change it. |
| `Executor.AnsiContextImpl.WithStyle` | subprojects/logging/src/main/java/org/gradle/internal/logging/console/AbstractAnsiExecutor.java:137-145 | The same as `WithColor` with the colour the colour map gives for the style. |
| `Executor.AnsiContextImpl.A` | subprojects/logging/src/main/java/org/gradle/internal/logging/console/AbstractAnsiExecutor.java:147-152 | Appends the text. The tracked column advances by its UTF-16 length (`value.length()`) and the row is unchanged. The caller's cursor then equals the tracked cursor. |
| `Executor.AnsiContextImpl.Newline` | subprojects/logging/src/main/java/org/gradle/internal/logging/console/AbstractAnsiExecutor.java:154-159 | Appends a newline. The tracked state takes one newline step: column 0, one row down, or on row 0 a scroll with one hook call. The caller's cursor then equals the tracked cursor. |
| `Executor.AnsiContextImpl.EraseForward` | subprojects/logging/src/main/java/org/gradle/internal/logging/console/AbstractAnsiExecutor.java:161-165 | Appends an erase-forward. Only the builder changes. |

## Left out

- Escape bytes: the jansi `Ansi` builder is reduced to the calls made on it. The bytes it produces are not modelled.
- Executor.AnsiExecutor.Create: the `forceAnsi` choice between `new Ansi()` and `Ansi.ansi()` (lines 102-108) depends on the library's terminal detection. The model keeps the flag but gives one empty builder either way.
- Executor.AnsiExecutor.Write: the append always succeeds. The `IOException` to `UncheckedIOException` wrapping (lines 111-115) is I/O and is not modelled.
- Callbacks: the caller's `Action` is a terminating script of context operations. Arbitrary code is not modelled: exceptions, calls back into the executor, or changes to `writePos` from inside the callback.
- Colour map: `ColorMap.getColourFor` is an external collaborator. It is an arbitrary total function from styles to colours.
- Executor.AnsiContextImpl.WithStyle: the two `withStyle` overloads (lines 137-145) have identical bodies and differ only in the Java type of the style. They are one method here.
- Executor.AnsiExecutor.DoNewLineAdjustment: what subclasses do in the hook is not part of this model. Only its calls are counted.
- Executor.AnsiExecutor.CharactersWritten: the column is an unbounded natural. Java's 32-bit `int` overflow of the column, after more than 2^31 UTF-16 units on one line, is not modelled.
- Executor.AnsiContextImpl.A: a `null` value is not modelled. In Java it appends "null" to the builder and then throws at line 150 before the cursor moves.
- Negative coordinates: `Cursor`'s fields are naturals, so the negative rows and columns Java's `int` fields allow cannot be expressed. `positionCursorAt` never checks them, and the `else` branch at lines 66-70 runs for every row at or below 0, so Java silently turns a negative tracked row into 0 there and also runs `doNewLineAdjustment()`.
- Chaining: the context methods return nothing. Java's `return this` chaining is expressed as the order of operations in the script.
- `Cursor.java` is not part of this model, apart from the two fields and `copyFrom` that this file uses.
