# Search-filter tokenizer, modelled in Dafny

This project models the character-level scanner of the WilliamQiufeng search
parser. A search-filter query such as `bpm>120 len:2m30s hello` is read one
character at a time by a `Tokenizer`. The tokenizer keeps:

- a lookahead position;
- the start and end positions of the token being buffered;
- a FIFO queue of completed tokens;
- the current state of a scanner state machine.

The model covers two parts.

- **The tokenizer driver.** This is the `Tokenizer` class: its cursor
  primitives, the step function `Next`, the pull loop `NextToken`, the token
  stream, and the static plain-text splitter `TokenizeAsPlainTextTokens`.
- **The Integer state's transition.** This is one step of the state machine.
  It keeps a decimal accumulator and branches on the lookahead character.

Modules:

- `Tokens`: token kinds, payloads and the token record.
- `Int32`: C#'s unchecked 32-bit `int` arithmetic (wrap-around).
- `ScannerStates`: the scanner state datatype (one variant per state class), plus the cursor primitives and reaction of the states that are not modelled.
- `IntegerState`: the accumulator step and its meaning as a decimal value.
- `PlainTextSplit`: a reference definition of the splitter. `Segments` is the maximal space-free runs, in order. Lemmas prove that it is sound, ordered and complete.
- `Tokenizing`: the `Tokenizer` class.

The cursor fields and the queue together form a `Cursor` value. Pure
functions on it are the specifications the methods are proved against:

- `Advanced`, `Discarded`, `Emitting` and `Run` for the cursor primitives;
- `IntegerStep` for the Integer state's transition;
- `StepOf` for one call of `Next`;
- `Settle` for the do/while loop of `NextToken`;
- `Pull` for one call of `NextToken`;
- `Stream` for the enumerator.

`Valid()` is the class invariant. It says:

- `Fits(Cur())`: `0 <= start <= lookahead <= |Content|`, and the buffer end is either `lookahead - 1` or `lookahead`;
- `Emitted == Taken + pending`, which ties the queue to ghost histories of emitted and dequeued tokens.

Every method preserves `Valid()`.

The keyword trie and the time-unit trie are given to the tokenizer as uninterpreted functions:

- `KeywordMatch`: whether the keyword trie has a path for the whole buffered span;
- `TimeUnitStart`: whether the time-unit trie has an edge for the lookahead character.

A state outside this model acts through `Unseen`. `Unseen` maps the state and the lookahead character to a list of cursor primitives and a next state, and `Perform` carries out that list.

The C# `BufferContent` getter slices `Content`. That slice is out of range in one case only: after `Advance` at end of input, while a non-empty buffer is open. The model makes `BufferContent` require `BufferDefined()`. A step that would read an undefined buffer returns `Faulted`, and `NextToken` then returns `Thrown`.

## Model

| member | source | states |
|---|---|---|
| Tokenizing.Tokenizer.constructor | WilliamQiufeng.SearchParser/Tokenizing/Tokenizer.cs:9-25 | The tokenizer starts with lookahead 0, buffer start 0, buffer end -1, an empty queue and the Empty state. It satisfies the invariant. |
| Tokenizing.Tokenizer.BufferContent | WilliamQiufeng.SearchParser/Tokenizing/Tokenizer.cs:30-40 | The buffer is everything consumed since the last discard (`Content[start..lookahead]`). Right after a discard it is the single character under the lookahead, and at end of input it is empty. It is defined only when the slice is in range. |
| Tokenizing.Tokenizer.BufferOf | WilliamQiufeng.SearchParser/Tokenizing/Tokenizer.cs:30-40 | The same buffer text, for a cursor value. |
| Tokenizing.Tokenizer.Lookahead | WilliamQiufeng.SearchParser/Tokenizing/Tokenizer.cs:57-60 | Returns `Content[lookahead]` while the lookahead is inside the text, and `'\0'` at the end. |
| Tokenizing.Tokenizer.LookaheadOf | WilliamQiufeng.SearchParser/Tokenizing/Tokenizer.cs:57-60 | The same lookahead character, for a cursor value. |
| Tokenizing.Tokenizer.Advanced | WilliamQiufeng.SearchParser/Tokenizing/Tokenizer.cs:62-67 | A cursor after Advance: the buffer end is the old lookahead, and the lookahead moves on by one only below `|Content|`. The start and the queue are unchanged. Below the end of input the buffer stays in range. |
| Tokenizing.Tokenizer.Discarded | WilliamQiufeng.SearchParser/Tokenizing/Tokenizer.cs:77-81 | A cursor after DiscardBuffer: start and end are the lookahead, and the lookahead and the queue are unchanged. |
| Tokenizing.Tokenizer.Emitting | WilliamQiufeng.SearchParser/Tokenizing/Tokenizer.cs:69-91 | A cursor after EmitToken: the token made from the old buffer text and start joins the back of the queue, and the buffer is discarded. |
| Tokenizing.Tokenizer.Advance | WilliamQiufeng.SearchParser/Tokenizing/Tokenizer.cs:62-67 | The buffer end becomes the old lookahead. The lookahead moves on by one only below `|Content|`, so repeated advances at end of input leave it unchanged. No other field changes, the invariant is kept, and the new cursor is `Advanced` of the old one. |
| Tokenizing.Tokenizer.DiscardBuffer | WilliamQiufeng.SearchParser/Tokenizing/Tokenizer.cs:77-81 | Buffer start and buffer end both become the lookahead. Nothing else changes. |
| Tokenizing.Tokenizer.GenerateToken | WilliamQiufeng.SearchParser/Tokenizing/Tokenizer.cs:69-75 | The token carries the kind, payload and flag, plus the buffer text and buffer start from before the call. The buffer is then discarded. |
| Tokenizing.Tokenizer.EnqueueToken | WilliamQiufeng.SearchParser/Tokenizing/Tokenizer.cs:88-91 | Appends exactly that token to the back of the queue and records it as emitted. |
| Tokenizing.Tokenizer.EmitToken | WilliamQiufeng.SearchParser/Tokenizing/Tokenizer.cs:83-86 | Appends exactly one token, the one generated from the buffer before the call, to the back of the queue. The buffer is then discarded, and the new cursor is `Emitting` of the old one. |
| Tokenizing.Tokenizer.Run | WilliamQiufeng.SearchParser/Tokenizing/Tokenizer.cs:62-91 | Cursor primitives applied in order from a cursor. The result is flagged as a failure, at the cursor reached, when an Emit meets an out-of-range buffer. The queue only grows, by at most one token per primitive. The lookahead only moves forward, by at most one per primitive. |
| Tokenizing.Tokenizer.Perform | WilliamQiufeng.SearchParser/Tokenizing/Tokenizer.cs:97 | A state outside this model performs its cursor primitives. The new cursor and `ok` are exactly `Run` of the old cursor over those primitives, in order. So `ok` is false exactly when an Emit met an out-of-range buffer. The invariant is kept. |
| Tokenizing.Tokenizer.IntegerStep | WilliamQiufeng.SearchParser/Tokenizing/IntegerState.cs:7-41 | The Integer state's step on a cursor value keeps the invariant and keeps the buffer in range. |
| Tokenizing.Tokenizer.IntegerStepConsumes | WilliamQiufeng.SearchParser/Tokenizing/IntegerState.cs:9-40 | The step moves the lookahead by exactly one when it consumes a digit, `%` or `.`, and leaves it where it was otherwise. |
| Tokenizing.Tokenizer.IntegerRun | WilliamQiufeng.SearchParser/Tokenizing/IntegerState.cs:38-40 | Repeated Integer steps from a cursor keep the invariant and keep the buffer in range. |
| Tokenizing.Tokenizer.IntegerStepOverDigit | WilliamQiufeng.SearchParser/Tokenizing/IntegerState.cs:38-40 | A digit that starts no time unit is consumed: the cursor advances and the state stays Integer with the digit folded into the accumulator. |
| Tokenizing.Tokenizer.IntegerRunOverDigits | WilliamQiufeng.SearchParser/Tokenizing/IntegerState.cs:38-40 | When `ds` are the next characters of the text from the lookahead (`Upcoming`) and are digits that start no time unit, each step consumes one digit. The lookahead and the buffer end move over the run, and the state stays Integer with the accumulator folded over the digits. |
| Tokenizing.Tokenizer.IntegerRunValue | WilliamQiufeng.SearchParser/Tokenizing/IntegerState.cs:38-40 | After the upcoming digits `d1..dn` (`Upcoming`), starting from accumulator 0, the state is Integer holding their decimal value truncated to 32 bits. |
| Tokenizing.Tokenizer.ProcessInteger | WilliamQiufeng.SearchParser/Tokenizing/IntegerState.cs:7-41 | The new cursor and next state are exactly `IntegerStep` of the old cursor. The branches are tried in source priority order. On `'\0'` or a space: emit an Integer token carrying the accumulator, without advancing, then Empty. On `%`: advance, then emit a Percentage token whose text is `Content[start..old lookahead+1]` (the `%` included), then Empty. On `.`: advance, then Real. On a time-unit start or `:`: TimeSpan seeded with the accumulator, cursor untouched. On any other non-digit: Key if the keyword trie matches the buffered span, PlainText otherwise, cursor untouched. On a digit: advance, then Integer with the 32-bit `acc*10+d`. The lookahead moves by one exactly in the digit, `%` and `.` branches, which follows from `IntegerStepConsumes`. |
| Tokenizing.Tokenizer.StepOf | WilliamQiufeng.SearchParser/Tokenizing/Tokenizer.cs:93-99 | One call of Next on a cursor value and a state. In End it halts and changes nothing. In the Integer state it fails, with the cursor untouched, when the buffer is out of range, and is otherwise the Integer step. In any other state it is `Run` of that state's reaction, and the state becomes the reaction's next state only on success. The queue and the lookahead only grow, and a step that does not succeed keeps the state. |
| Tokenizing.Tokenizer.Process | WilliamQiufeng.SearchParser/Tokenizing/Tokenizer.cs:97 | `_currentState.Process(this)` outside End: the new cursor is exactly that of `StepOf`, `ok` says whether the step succeeded, and on success the returned state is `StepOf`'s next state. |
| Tokenizing.Tokenizer.Next | WilliamQiufeng.SearchParser/Tokenizing/Tokenizer.cs:93-99 | The new cursor, the new state and the outcome are exactly `StepOf` of the old cursor and state. So it returns Halted, changing nothing, exactly when the state is End. In the Integer state it faults exactly when the buffer is undefined, and otherwise the new cursor and state are `IntegerStep` of the old cursor. In any other state the new cursor and the success flag are `Run` of the state's reaction, and on success the state becomes the reaction's next state. A failed step leaves the state as it was. The queue only grows and nothing is dequeued. |
| Tokenizing.Tokenizer.Settle | WilliamQiufeng.SearchParser/Tokenizing/Tokenizer.cs:105-111 | The do/while of NextToken on a cursor value: it stops Ready exactly when the queue is non-empty or the state is End, and otherwise takes `StepOf` steps until then, until a step fails (StepFailed) or until the step budget is spent (FuelSpent). Ready implies a non-empty queue or End. |
| Tokenizing.Tokenizer.StepThenSettle | WilliamQiufeng.SearchParser/Tokenizing/Tokenizer.cs:111 | The `while (Next())` half of that loop: one `StepOf` step, then the settling from where it led with one step less, unless the step failed. Ready again implies a non-empty queue or End. |
| Tokenizing.Tokenizer.SettleSteps | WilliamQiufeng.SearchParser/Tokenizing/Tokenizer.cs:105-111 | From an empty queue outside End, a step that does not fail hands the rest of the loop to the cursor and state it reached, with one step less. |
| Tokenizing.Tokenizer.SettleFuelIrrelevant | WilliamQiufeng.SearchParser/Tokenizing/Tokenizer.cs:105-111 | The step budget is only a bound: a loop that ended within `fuel` steps ends identically with any larger budget. |
| Tokenizing.Tokenizer.StepUntilReady | WilliamQiufeng.SearchParser/Tokenizing/Tokenizer.cs:107-111 | The loop itself: the final cursor, the final state and how it ended are exactly `Settle` of the starting cursor and state. The invariant holds throughout, nothing is dequeued and the queue only grows. |
| Tokenizing.Tokenizer.Pull | WilliamQiufeng.SearchParser/Tokenizing/Tokenizer.cs:105-114 | One NextToken on a cursor value: once settled, the front of the queue is removed and returned. With an empty queue in End, the End token generated from the buffer is returned and the buffer is discarded, or the call throws when the buffer is out of range. A failed step throws, and a spent budget is reported as such. |
| Tokenizing.Tokenizer.PullFuelIrrelevant | WilliamQiufeng.SearchParser/Tokenizing/Tokenizer.cs:105-114 | A pull that did not run out of budget gives the same result with any larger budget. |
| Tokenizing.Tokenizer.NextToken | WilliamQiufeng.SearchParser/Tokenizing/Tokenizer.cs:105-114 | The new cursor, the new state and the result are exactly `Pull` of the old cursor and state. With a non-empty queue it returns the front and removes it, without stepping and without changing the state: tokens leave in FIFO order. Every pulled token is either the next emitted token or a synthesized End. An End is synthesized only with an empty queue in the End state. Its text is then `Content[start..lookahead]` for its start, or the lookahead character when the buffer had just been discarded, and the buffer is left discarded. When the call starts in End with an empty queue, the token is exactly the one generated from the buffer as it stood. |
| Tokenizing.Tokenizer.Stream | WilliamQiufeng.SearchParser/Tokenizing/Tokenizer.cs:42-50 | The enumerator on a cursor value: successive `Pull`s, each pulled token appended, until a pulled token is End (EndYielded), a pull fails (PullFailed) or the token budget is used up (TokenBudget). |
| Tokenizing.Tokenizer.StreamShape | WilliamQiufeng.SearchParser/Tokenizing/Tokenizer.cs:42-50 | The stream extends what was yielded before by at most the budget. Only its last token can be End, and it is End exactly when the stream stopped with EndYielded. It stops for the budget only once the budget is used up. |
| Tokenizing.Tokenizer.Enumerate | WilliamQiufeng.SearchParser/Tokenizing/Tokenizer.cs:42-50 | The final cursor, the final state, the tokens and the reason for stopping are exactly `Stream` of the starting cursor and state. So the tokens are the successive pulls in order: the dequeued tokens, possibly followed by one synthesized End in the End state. No End occurs before the last token. The stream stops with `EndYielded` exactly when its last token is End. Otherwise a pull failed, or the token budget was reached. |
| Tokenizing.Tokenizer.TokenizeAsPlainTextTokens | WilliamQiufeng.SearchParser/Tokenizing/Tokenizer.cs:116-137 | The two-index loop yields exactly `Segments(view, offset)`, the reference splitting. |
| PlainTextSplit.RunLength | WilliamQiufeng.SearchParser/Tokenizing/Tokenizer.cs:123-130 | The leading run is space-free and stops at a space or at the end of the text. |
| PlainTextSplit.SegmentsAreMaximalRuns | WilliamQiufeng.SearchParser/Tokenizing/Tokenizer.cs:116-137 | Soundness: every token is a PlainText token of a maximal non-empty space-free run. Its start is the run's index plus the offset, and its content is the run's text. |
| PlainTextSplit.SegmentsCoverRuns | WilliamQiufeng.SearchParser/Tokenizing/Tokenizer.cs:116-137 | Completeness: every maximal space-free run is yielded at its index plus the offset. |
| PlainTextSplit.SegmentsCoverRun | WilliamQiufeng.SearchParser/Tokenizing/Tokenizer.cs:116-137 | A maximal run `s[i..j]` is yielded at `i` plus the offset, as the token right after those of the text before `i`. |
| PlainTextSplit.SegmentsInOrder | WilliamQiufeng.SearchParser/Tokenizing/Tokenizer.cs:116-137 | Tokens come out left to right. Each one ends, with at least one space in between, before the next one starts. |
| PlainTextSplit.SegmentsWithin | WilliamQiufeng.SearchParser/Tokenizing/Tokenizer.cs:116-137 | Every token lies inside the view, shifted by the offset. |
| PlainTextSplit.SegmentsOfSpaces | WilliamQiufeng.SearchParser/Tokenizing/Tokenizer.cs:116-137 | The empty view, or a view of spaces only, yields no tokens. |
| PlainTextSplit.SegmentsOfRun | WilliamQiufeng.SearchParser/Tokenizing/Tokenizer.cs:127-131 | A single space-free run, alone or followed by a space, yields exactly one token. |
| PlainTextSplit.SegmentsAppend | WilliamQiufeng.SearchParser/Tokenizing/Tokenizer.cs:116-137 | A text ending in a space splits independently of what follows it. |
| PlainTextSplit.SegmentsCloseRun | WilliamQiufeng.SearchParser/Tokenizing/Tokenizer.cs:124-133 | Closing an open run, at the end of the view or before a space, adds exactly that run's token. |
| PlainTextSplit.SegmentsPassSpace | WilliamQiufeng.SearchParser/Tokenizing/Tokenizer.cs:124-133 | Passing a space, or the end of the view, with no run open adds no token. |
| Int32.Wrap | WilliamQiufeng.SearchParser/Tokenizing/IntegerState.cs:39 | Truncation to a 32-bit two's-complement value: it lies within `int`'s range and is the identity inside that range. |
| Int32.WrapShift | WilliamQiufeng.SearchParser/Tokenizing/IntegerState.cs:39 | Adding any multiple of 2^32 does not change the truncated value. |
| Int32.WrapTimesTenPlus | WilliamQiufeng.SearchParser/Tokenizing/IntegerState.cs:39 | Truncating the accumulator carried in from the previous step before a `*10 + d` step gives the same truncated result. |
| Int32.WrapPlus | WilliamQiufeng.SearchParser/Tokenizing/IntegerState.cs:39 | Truncating the left operand of an addition before adding gives the same truncated result. |
| IntegerState.UncheckedStep | WilliamQiufeng.SearchParser/Tokenizing/IntegerState.cs:39 | The three unchecked operations `acc*10`, `+ lookahead` and `- '0'`, each wrapping, give the accumulator step's single wrap. |
| IntegerState.DigitValue | WilliamQiufeng.SearchParser/Tokenizing/IntegerState.cs:39 | `c - '0'` of a decimal digit is between 0 and 9. |
| IntegerState.NextAccumulator | WilliamQiufeng.SearchParser/Tokenizing/IntegerState.cs:38-40 | The new accumulator is a 32-bit value. It equals `acc*10 + d` whenever that fits. |
| IntegerState.AccumulatedStep | WilliamQiufeng.SearchParser/Tokenizing/IntegerState.cs:38-40 | One digit step of the Integer state extends the digit string folded into its accumulator by that digit. |
| IntegerState.AccumulatedIsWrappedDecimal | WilliamQiufeng.SearchParser/Tokenizing/IntegerState.cs:38-40 | After the digits `d1..dn`, starting from 0, the accumulator is their decimal value truncated to 32 bits. |
| IntegerState.AccumulatedIsDecimal | WilliamQiufeng.SearchParser/Tokenizing/IntegerState.cs:38-40 | When the decimal value fits in `int`, the accumulator equals it exactly. |
| IntegerState.OverflowWraps | WilliamQiufeng.SearchParser/Tokenizing/IntegerState.cs:39 | The digits `2147483648` leave the accumulator at `int.MinValue`: the source's unchecked arithmetic wraps around. |

## Left out

- The keyword trie, the time-unit trie and the enum trie are not part of this model. `KeywordMatch` and `TimeUnitStart` are uninterpreted parameters. The Key state records the matched text in place of the sub-trie node.
- The Empty, Real, TimeSpan, Key, EnumerationValue, PlainText and End transitions are not part of this model. Their effect is the `Unseen` reaction, which sees only the state and the lookahead character. So the model does not capture an unseen state that calls `EmitToken(Token)` with a token not built from the buffer, or that reads `BufferContent` (which may throw) without emitting. The internal fields those states keep across steps are not represented beyond the values they are created with.
- Tokenizing.Tokenizer.NextToken: termination depends on the transitions not modelled here, so the loop takes a `fuel` bound on `Next` steps. It returns `OutOfFuel` when the bound runs out. Termination is not proved.
- Tokenizing.Tokenizer.Enumerate: the lazy `IEnumerable`/`yield` enumerator is a method returning a sequence, bounded by a token count and by the fuel per pull. The non-generic `GetEnumerator` overload is a forwarding call and is omitted.
- Tokenizing.Tokenizer.constructor: the tries and the unseen-state reaction are parameters, where the source creates the tries as properties. `KeyEnumResolveMode` is not modelled, because no modelled code reads it.
- Exceptions: the out-of-range `Slice` in `BufferContent` is modelled as the `Faulted`/`Thrown` outcome, not as an exception.
- `ReadOnlyMemory<char>` token segments are copied strings. Sharing of the underlying buffer is not represented.
- Characters are Unicode scalar values, while C# `string` and `char` are UTF-16 code units. A character outside the Basic Multilingual Plane is one character here but two code units in the source. So for such input the lookahead, buffer and token positions differ from the source's, and a lone surrogate cannot be represented at all.
- Tokenizing.Tokenizer.TokenizeAsPlainTextTokens: token starts `sliceStart + offset` are unbounded integers. The source's unchecked `int` addition wraps around when `offset` plus the view length exceeds `int.MaxValue`.
- Token payloads (`object?`) are the `Payload` datatype: no content, an integer, or a text.
- `SearchCriterion` is not modelled: it only holds fields and has no logic.
