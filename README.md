# ColorUtil markup renderer, modelled in Dafny

`ColorUtil.Parse` (colors.cs) turns BBCode-style markup such as `[b]`,
`[color=red]`, `[/b]` and `[/]` into ANSI/VT100 SGR escape sequences. It uses a
fixed two-level table, `TagMap`. The parse is one left-to-right scan that
keeps five pieces of state:

- an "inside a tag" flag;
- an "escape pending" flag;
- a tag-body buffer;
- an output buffer;
- a stack of open `(name, arg)` pairs.

At `]` a body is split at its first `=`, looked up, and either pushed
(emitting its code), or closed: the full reset, then the codes of the tags
still open, replayed oldest to newest. An unknown body aborts the parse.
Errors are reported by throwing an `ArgumentException` whose message is itself
produced by `Parse` from a markup template. Tags left open at the end are
such an error too, listing them newest first. `TryParse` wraps `Parse`: it
returns true and replaces its `ref` string, or returns false on an
`ArgumentException` or `KeyNotFoundException`.

The project has one module per concern:

- `TagTable` holds the table `TagMap` and its shape: its names, the
  arguments each name accepts, and that no name or argument holds a bracket,
  a backslash or the string "0".
- `Markup` is the functional specification. `Step` is one iteration of the
  scanning loop and `Resolve` is the code after an unescaped `]`. `Run` is the
  loop as a fold over prefixes and `Finish` is the end-of-input check.
  `Template` holds the five error templates. `RenderAt(s, depth)` / `Surface`
  render a diagnostic by parsing its template, at most `depth` levels deep,
  and `Render(s) = RenderAt(s, 2)`.
- `ColorUtil` is the program as it runs. `ParseNested` is the `for` loop
  over the message. It updates the two flags, the two buffers and the stack in
  place. At each unescaped `]` with a non-empty body it calls `ResolveTag`,
  the code of the tag lookup. At every close tag that matches the top of the
  stack, `ResolveTag` runs the replay loop, `AppendReplay`, inside the scan.
  After the scan, `ParseNested` runs the loop that builds the open-tag
  listing. `Throw` raises a fault, and `TryParse` is the wrapper. Each method is proved equal to the specification:
  `ParseNested(m, d) == RenderAt(m, d)` and `Parse(m) == Render(m)`.
- `ScanLemmas`, `TagLemmas` and `Diagnostics` prove properties of the
  specification:
  - the loop composes over concatenated input;
  - the escape rules;
  - plain text is unchanged;
  - how names and arguments are split and resolved;
  - closing a tag replays exactly what opening the others emitted;
  - every entry on the stack is a key pair of the table, so the replay
    lookup cannot fail;
  - which diagnostic each failure surfaces as;
  - two levels of nested parsing are enough, and one is not;
  - a parse succeeds exactly when no tag is left open.
- `Examples` derives the result for a few concrete inputs from those lemmas.

Strings are `seq<char>`, as the source indexes them. A .NET exception is a
value of `Exception`, and which exceptions `TryParse` catches is written out
in its contract. The model follows the code, including these behaviours:

- There is no self-closing `[u /]` and no cleanup `[color //]` form. A
  trailing ` /` or ` //` is ordinary body text, so what happens depends on the
  rest of the body:
  - A body without `=` whose name does not start with `/` is looked up
    whole and fails as an invalid tag (`TagLemmas.NoSelfClosingForms`,
    `Examples.SelfClosingIsInvalid`).
  - After `=`, the marker belongs to the argument. For `color` and
    `bgcolor` that argument is not in the table, so `[color=red /]` is a
    failed lookup (`Examples.ColourWithSlash`).
  - A one-entry name ignores its argument, so `[b= /]` opens bold like `[b]`
    (`Examples.OneEntryWithSlash`).
  - A name starting with `/` takes the close-tag path with the marker as
    part of the name. `[/b /]` never matches an open `b`, so it is a
    mismatch or a close with nothing open (`Examples.CloseWithSlash`).
- `\[b\]` is not rendered as the text `[b]`. The check for a `]` with an
  empty tag body comes before the escape test, so the input fails with
  "Tried to end tag without beginning." (`Examples.EscapedTagFails`).
- The two close-tag templates contain `\]` outside a tag. Rendering them
  fails the same way, so a mismatched or unopened close tag surfaces as that
  message too (`Diagnostics.WarningsSurface`).
- Open tags are listed as `b()`, because the label test compares the
  argument with "0" rather than with "" (`Diagnostics.LabelsShowArgument`).
- An empty name, as in `[=red]`, reaches `tagString[0]` and throws an
  `IndexOutOfRangeException`, which `TryParse` does not catch.
- A tag body still open at the end of input, as in `[b`, is dropped without
  an error (`Examples.UnterminatedTag`).

## Model

| member | source | states |
|---|---|---|
| TagTable.TableShape | colors.cs:10-44 | the table's names are exactly b, u, i, blink, strike, color, bgcolor and /, and a pair is a key pair exactly when the name is color or bgcolor with one of its nine arguments, or another name with the empty argument |
| TagTable.EntryCounts | colors.cs:12-43 | a name's inner map has exactly one entry unless the name is color or bgcolor, which is what the `Count == 1` test tells apart |
| TagTable.KnownIsPlain | colors.cs:10-44 | no name or argument of the table holds `[`, `]` or a backslash, and no argument is "0" |
| TagTable.Code | colors.cs:10-44 | every code of the table starts with ESC `[` and ends with `m` |
| Markup.NameOf | colors.cs:107-110 | the name is the longest prefix of the body without `=` |
| Markup.ArgOf | colors.cs:107-111 | with an `=` in the body, the body is the name, that `=` and the argument; without one the argument is empty |
| Markup.Replay | colors.cs:141-145 | the replay of a non-empty stack is a non-empty run of SGR codes, at least three characters per entry, starting with ESC and ending with `m`; an empty stack replays nothing |
| Markup.Step | colors.cs:74-171 | a step that goes on keeps the stack made of key pairs of the table |
| Markup.Resolve | colors.cs:113-160 | a resolution that goes on pushes only key pairs of the table and leaves the flags and the tag-body buffer alone |
| Markup.Run | colors.cs:72-172 | after any prefix of any input the stack holds only key pairs of the table, so the replay lookup at line 144 cannot fail |
| Markup.Label | colors.cs:179-186 | an open tag's label starts with its name, and it is the bare name exactly when the argument is "0" |
| Markup.Labels | colors.cs:177-187 | the listing has one label per open tag; their order and form are stated by `Diagnostics.LabelsShowArgument` |
| Markup.Join | colors.cs:189 | the joined listing is empty for no labels, and otherwise starts with the first label and ends with the last |
| Markup.Finish | colors.cs:174-194 | the end-of-input check succeeds exactly when the scan ran to the end with no tag open, and then yields the output buffer; a thrown fault is passed on; open tags fail with the still-open warning |
| Markup.Template | colors.cs:94-189 | every error template starts with the yellow `Warning` head |
| Markup.RenderAt | colors.cs:60-195 | a parse returns exactly when its scan succeeds, and returns the scan's output; an ArgumentException comes only from a warning of the scan |
| Markup.Surface | colors.cs:93-159 | a fault never yields a result; a failed lookup and an empty name are raised as they are, and an ArgumentException comes only from a warning |
| Markup.Render | colors.cs:60-195 | `Parse` returns exactly when the scan succeeds, and returns the scan's output; an ArgumentException comes only from a warning |
| ColorUtil.IndexOf | colors.cs:109 | the index returned is that of the first `=`, or -1 exactly when there is none |
| ColorUtil.SplitMatches | colors.cs:107-111 | cutting the body around `IndexOf('=')` gives the name and argument of the specification; without `=` the name is the whole body and the argument is empty |
| ColorUtil.ParseNested | colors.cs:60-195 | the scanning loop, the end-of-input check and the listing loop compute exactly `RenderAt(message, depth)` |
| ColorUtil.Parse | colors.cs:60-195 | the result is `Render(message)`, and it is never the model's depth-exhausted outcome |
| ColorUtil.ResolveTag | colors.cs:103-160 | the split, the table lookup, the clear, push and pop, and the three warnings compute exactly `Resolve` |
| ColorUtil.AppendReplay | colors.cs:141-145 | the output is followed by the codes of the remaining entries, oldest to newest |
| ColorUtil.Throw | colors.cs:93-95 | a warning becomes an ArgumentException carrying its template rendered one level deeper, or, when that parse throws, that exception; lookup failures are raised as they are |
| ColorUtil.TryParse | colors.cs:46-58 | on success the string is replaced by the rendering and true is returned; on an ArgumentException or KeyNotFoundException false is returned and the string is unchanged; an IndexOutOfRangeException is not caught; true is returned only on success |
| ScanLemmas.RunAppend | colors.cs:72-172 | scanning `a + b` is scanning `a` and going on with `b` from the state it left |
| ScanLemmas.BackslashEscapes | colors.cs:86-90 | a backslash with no escape pending sets the flag and changes nothing else |
| ScanLemmas.EscapedOpenBracket | colors.cs:74-85 | an escaped `[` is appended to the output and clears the flag, leaving tag mode and the tag body as they were, inside a tag too |
| ScanLemmas.EscapedCloseBracket | colors.cs:96-100 | an escaped `]` after a non-empty body is appended to the output and clears the flag; the body stays buffered |
| ScanLemmas.EscapedBackslash | colors.cs:88 | an escaped backslash appends one backslash and leaves the flag set |
| ScanLemmas.RunWithoutClose | colors.cs:91-164 | input without `]` always runs to its end and leaves the stack as it was, because only the `]` branch throws or changes the stack |
| ScanLemmas.OtherKeepsFlag | colors.cs:165-171 | any other character goes to the tag body inside a tag and to the output outside one, and leaves the flag as it was |
| ScanLemmas.RunPlain | colors.cs:165-171 | text without brackets and backslashes is appended character by character to the tag body inside a tag and to the output outside one |
| ScanLemmas.RunValid | colors.cs:72-172 | the tag body never holds a special character, and every warning raised names only such plain text |
| TagLemmas.SplitAtEquals | colors.cs:107-111 | a body `name=arg` with no `=` in the name splits back into that name and that argument |
| TagLemmas.NoEquals | colors.cs:107-111 | a body without `=` is all name, with the empty argument |
| TagLemmas.TagRun | colors.cs:91-105 | `[`, a plain body and `]` read with nothing pending resolve exactly that body |
| TagLemmas.OneEntryTagIgnoresArgument | colors.cs:122-126 | b, u, i, blink and strike emit their code and push `(name, "")` whatever argument was written |
| TagLemmas.ColorTagArgument | colors.cs:127-131 | color and bgcolor go on exactly when the argument is one of their nine keys, emit its code and push the pair; any other argument is a failed lookup |
| TagLemmas.CloseAll | colors.cs:115-119 | `[/]` empties the whole stack and emits exactly the full reset |
| TagLemmas.CloseTop | colors.cs:136-146 | `/X` with X the name on top pops exactly that entry and emits the full reset followed by the codes of the rest |
| TagLemmas.CloseFaults | colors.cs:147-155 | a `/`-name the table does not know fails as "no tag opened" on an empty stack and as a mismatch when another name is on top |
| TagLemmas.UnknownNames | colors.cs:134-160 | an empty name throws IndexOutOfRange; a name that is not in the table and does not start with `/` is an invalid tag |
| TagLemmas.NoSelfClosingForms | colors.cs:113-160 | a body without `=` whose name does not start with `/`, ending in ` /` or ` //`, is looked up whole and is an invalid tag |
| TagLemmas.RunOpenMarkup | colors.cs:113-131 | opening key pairs one after another emits exactly their replay and pushes them in order |
| TagLemmas.ReplayOrder | colors.cs:142-145 | the codes of older entries come first: replaying the bottom part of a stack gives a prefix of replaying all of it |
| TagLemmas.CloseReplaysOpenTags | colors.cs:136-146 | closing the newest of the tags opened emits the reset and then the very codes that opening the others emitted, and leaves the others open |
| Diagnostics.HeadRun | colors.cs:95 | the head `[color=yellow]Warning[/color]: ` renders as yellow "Warning", the full reset and ": ", and leaves nothing open |
| Diagnostics.UnopenedTemplate | colors.cs:95 | the end-tag-without-beginning template renders cleanly |
| Diagnostics.CloseMismatchTemplate | colors.cs:149 | the mismatched-close template fails at its first `\]` as a stray `]` |
| Diagnostics.CloseUnopenedTemplate | colors.cs:154 | the nothing-opened template fails at its first `\]` as a stray `]` |
| Diagnostics.InvalidTagTemplate | colors.cs:159 | the invalid-tag template renders as the head, "Invalid tag: " and the name |
| Diagnostics.TagsOpenTemplate | colors.cs:189 | the still-open template renders as the head, "There are still some tags open: " and the listing |
| Diagnostics.SurfaceWarning | colors.cs:93-95 | every warning the scanner raises surfaces as an ArgumentException with its message given two levels of nesting, and one level is enough unless it is a close-tag warning |
| Diagnostics.LabelsShowArgument | colors.cs:177-187 | every open entry, newest first, is listed as `name(arg)`, even with an empty argument |
| Diagnostics.RenderDepthSuffices | colors.cs:94-95 | every parse at depth two or more ends alike, never at the depth bound |
| Diagnostics.OneLevelIsNotEnough | colors.cs:154 | with only one level, `[/b]` cannot render its diagnostic |
| Diagnostics.SucceedsIffAllClosed | colors.cs:174-194 | a parse returns exactly when the scan reaches the end of the input with the stack empty, and it returns the output buffer |
| Diagnostics.UnclosedTagsReported | colors.cs:174-190 | tags left open fail with the still-open message listing their labels newest first, joined by spaces |
| Diagnostics.WarningsSurface | colors.cs:93-160 | a warning surfaces as an ArgumentException with its message; the close-tag ones surface as the end-tag-without-beginning message |
| Diagnostics.StrayCloseFails | colors.cs:93-95 | a `]` with an empty tag body fails with the rendered end-tag-without-beginning message, whether a backslash came before it or not |
| Diagnostics.PlainTextUnchanged | colors.cs:165-194 | text without brackets and backslashes renders as itself |
| Examples.BoldText | colors.cs:113-145 | `[b]hi[/b]` renders as bold, "hi" and the full reset |
| Examples.BoldThenCloseAll | colors.cs:115-119 | `[b][/]` renders as bold and the full reset |
| Examples.BoldLeftOpen | colors.cs:174-189 | `[b]` fails listing `b()` |
| Examples.EscapedTagFails | colors.cs:86-95 | `\[b\]` fails with the end-tag-without-beginning message |
| Examples.SelfClosingIsInvalid | colors.cs:157-160 | `[u /]` fails as the invalid tag `u /` |
| Examples.ColourWithSlash | colors.cs:107-131 | `[color=red /]` takes `red /` as the argument and is a failed lookup |
| Examples.OneEntryWithSlash | colors.cs:107-126 | `[b= /]` opens bold, ignoring the argument ` /`, and fails at the end listing `b()` |
| Examples.CloseWithSlash | colors.cs:134-155 | `[/b /]` with nothing open fails with the end-tag-without-beginning message |
| Examples.UnknownColour | colors.cs:129 | `[color=orange]` is a failed lookup |
| Examples.EmptyName | colors.cs:134 | `[=red]` throws IndexOutOfRange |
| Examples.UnterminatedTag | colors.cs:165-194 | `[b` renders as the empty string |
| Examples.MismatchedClose | colors.cs:147-150 | `[b][/i]` fails with the end-tag-without-beginning message |

## Left out

- Program.cs is not part of this model. It reads stdin or the command line, trims and joins arguments, writes to the console and sets exit codes, all of which is I/O.
- TryParse: the `Console.WriteLine(e.Message)` on failure is output only and is not modelled. The boolean result and the unchanged `ref` string are.
- KeyNotFoundException: the text of its message is generated by the .NET library, so the model keeps only the exception kind.
- Strings: a Dafny `char` is a Unicode scalar value, while the source indexes UTF-16 code units. A character outside the Basic Multilingual Plane is therefore one step of the model's loop but two iterations of the loop at colors.cs:72. A lone surrogate cannot be written in the model at all and is left out. No result changes for well-formed text: the scanner compares characters only with the ASCII `[`, `]`, `\`, `=` and `/`, and both halves of a surrogate pair go to the same buffer in turn.
- `StringBuilder` and `Stack<string[]>` are modelled as sequences that the loop reassigns. The stack's top is the last element, and `Reverse()` enumeration is oldest-first.
- RenderAt: the self-calls of `Parse` that render diagnostics are bounded by a nesting depth. `DepthExhausted` is the model's own outcome for a diagnostic beyond that bound, and `Parse` uses depth two, at which it is proved never to occur.
