/** The tokenizer driver: a cursor over an immutable text, a FIFO of
    completed tokens and the current scanner state. */
module Tokenizing {
  import opened Tokens
  import S = ScannerStates
  import opened IntegerState
  import opened PlainTextSplit

  /** Result of one state-machine step. `Faulted` stands for the exception
      the source raises when a step reads a buffer whose slice is out of range. */
  datatype StepOutcome = Stepped | Halted | Faulted

  /** Result of one pull; `OutOfFuel` when the step budget ran out first. */
  datatype PullOutcome = Pulled(token: Token) | Thrown | OutOfFuel

  /** How the do/while of NextToken ended. */
  datatype Readiness = Ready | StepFailed | FuelSpent

  /** Why the token stream ended. */
  datatype StopReason = TokenBudget | PullFailed | EndYielded

  /** The tokenizer's mutable fields other than the scanner state, as a value:
      what a step of the state machine reads and changes. */
  datatype Cursor = Cursor(lookahead: int, tokenStart: int, tokenEnd: int, queue: seq<Token>)

  class Tokenizer {
    const Content: string
    /** Whether the keyword trie has a path spelling the given text. */
    const KeywordMatch: string -> bool
    /** Whether the time-unit trie has an edge for the given first character. */
    const TimeUnitStart: char -> bool
    /** One step of a scanner state whose transition is not part of this model. */
    const Unseen: (S.ScannerState, char) -> S.Reaction

    var lookaheadPos: int
    var tokenStartPos: int
    var tokenEndPos: int
    var pending: seq<Token>
    var state: S.ScannerState

    /** Every token ever queued, and every token taken off the queue. */
    ghost var Emitted: seq<Token>
    ghost var Taken: seq<Token>

    /** The cursor as it stands. */
    function Cur(): Cursor
      reads this
    {
      Cursor(lookaheadPos, tokenStartPos, tokenEndPos, pending)
    }

    /** The cursor invariant: the lookahead stays within the text, the buffer
        start never passes it, the buffer end is the last consumed position
        (or, right after a discard or at end of input, the lookahead itself). */
    ghost predicate Fits(c: Cursor) {
      && 0 <= c.tokenStart <= c.lookahead <= |Content|
      && (c.tokenEnd == c.lookahead - 1 || c.tokenEnd == c.lookahead)
      && c.tokenStart - 1 <= c.tokenEnd
      && (c.tokenEnd == c.lookahead ==> c.tokenStart == c.lookahead || c.lookahead == |Content|)
    }

    /** The cursor invariant holds, and the queue holds exactly the emitted
        tokens not yet taken. */
    ghost predicate Valid()
      reads this
    {
      Fits(Cur()) && Emitted == Taken + pending
    }

    constructor (content: string, keywordMatch: string -> bool, timeUnitStart: char -> bool,
                 unseen: (S.ScannerState, char) -> S.Reaction)
      ensures Valid()
      ensures Content == content && KeywordMatch == keywordMatch
      ensures TimeUnitStart == timeUnitStart && Unseen == unseen
      ensures lookaheadPos == 0 && tokenStartPos == 0 && tokenEndPos == -1
      ensures pending == [] && state == S.Empty && Emitted == [] && Taken == []
    {
      Content, KeywordMatch, TimeUnitStart, Unseen := content, keywordMatch, timeUnitStart, unseen;
      lookaheadPos, tokenStartPos, tokenEndPos := 0, 0, -1;
      pending, state := [], S.Empty;
      Emitted, Taken := [], [];
    }

    /** Whether slicing the buffer of `c` stays within the text. */
    predicate Defined(c: Cursor) {
      c.tokenStart >= |Content| || c.tokenEnd < |Content|
    }

    predicate BufferDefined()
      reads this
    {
      Defined(Cur())
    }

    /** The buffered text of `c`: what was consumed since the buffer was last
        discarded; right after a discard, the character under the lookahead. */
    function BufferOf(c: Cursor): (b: string)
      requires Fits(c) && Defined(c)
      ensures c.tokenEnd == c.lookahead - 1 ==> b == Content[c.tokenStart..c.lookahead]
      ensures c.tokenEnd == c.lookahead ==>
        b == if c.lookahead < |Content| then [Content[c.lookahead]] else []
    {
      if c.tokenStart < |Content| then Content[c.tokenStart..c.tokenEnd + 1] else []
    }

    function BufferContent(): (b: string)
      reads this
      requires Valid() && BufferDefined()
      ensures tokenEndPos == lookaheadPos - 1 ==> b == Content[tokenStartPos..lookaheadPos]
      ensures tokenEndPos == lookaheadPos ==>
        b == if lookaheadPos < |Content| then [Content[lookaheadPos]] else []
    {
      BufferOf(Cur())
    }

    /** The character under the lookahead of `c`, or the terminator at end of input. */
    function LookaheadOf(c: Cursor): (ch: char)
      requires Fits(c)
      ensures c.lookahead < |Content| ==> ch == Content[c.lookahead]
      ensures c.lookahead == |Content| ==> ch == '\0'
    {
      if c.lookahead < |Content| then Content[c.lookahead] else '\0'
    }

    function Lookahead(): (c: char)
      reads this
      requires Valid()
      ensures lookaheadPos < |Content| ==> c == Content[lookaheadPos]
      ensures lookaheadPos == |Content| ==> c == '\0'
    {
      LookaheadOf(Cur())
    }

    /** `c` after Advance: the buffer end moves to the lookahead, and the
        lookahead moves on by one unless it is at end of input. */
    function Advanced(c: Cursor): (r: Cursor)
      requires Fits(c)
      ensures Fits(r) && r.tokenStart == c.tokenStart && r.queue == c.queue
      ensures r.tokenEnd == c.lookahead
      ensures r.lookahead == if c.lookahead < |Content| then c.lookahead + 1 else c.lookahead
      ensures c.lookahead < |Content| ==> Defined(r)
    {
      Cursor(if c.lookahead < |Content| then c.lookahead + 1 else c.lookahead, c.tokenStart, c.lookahead, c.queue)
    }

    /** `c` after DiscardBuffer. */
    function Discarded(c: Cursor): (r: Cursor)
      requires Fits(c)
      ensures Fits(r) && Defined(r) && r.lookahead == c.lookahead && r.queue == c.queue
      ensures r.tokenStart == c.lookahead && r.tokenEnd == c.lookahead
    {
      c.(tokenStart := c.lookahead, tokenEnd := c.lookahead)
    }

    /** `c` after EmitToken: the token built from the buffer joins the back of
        the queue and the buffer is discarded. */
    function Emitting(c: Cursor, kind: TokenKind, content: Payload, isCompleteEnum: bool): (r: Cursor)
      requires Fits(c) && Defined(c)
      ensures Fits(r) && Defined(r) && r.lookahead == c.lookahead
      ensures r.tokenStart == c.lookahead && r.tokenEnd == c.lookahead
      ensures r.queue == c.queue + [Token(kind, BufferOf(c), c.tokenStart, content, isCompleteEnum)]
    {
      Discarded(c).(queue := c.queue + [Token(kind, BufferOf(c), c.tokenStart, content, isCompleteEnum)])
    }

    /** The primitives `actions` carried out from `c` in order; the flag is
        false, and the cursor is the one reached, when an Emit meets a buffer
        out of range. */
    function Run(c: Cursor, actions: seq<S.Action>): (r: (Cursor, bool))
      requires Fits(c)
      ensures Fits(r.0)
      ensures c.queue <= r.0.queue && |r.0.queue| <= |c.queue| + |actions|
      ensures c.lookahead <= r.0.lookahead <= c.lookahead + |actions|
      decreases |actions|
    {
      if actions == [] then (c, true)
      else
        match actions[0]
        case Advance => Run(Advanced(c), actions[1..])
        case DiscardBuffer => Run(Discarded(c), actions[1..])
        case Emit(kind, content, isCompleteEnum) =>
          if !Defined(c) then (c, false)
          else Run(Emitting(c, kind, content, isCompleteEnum), actions[1..])
    }

    /** One step of the Integer state holding `acc` from cursor `c`: the new
        cursor and the next state. The lookahead is compared with the
        terminator or a space, '%', '.', a time-unit start or ':', any other
        non-digit, and finally a digit, in that order. */
    function IntegerStep(c: Cursor, acc: int): (r: (Cursor, S.ScannerState))
      requires Fits(c) && Defined(c)
      ensures Fits(r.0) && Defined(r.0)
    {
      var ch := LookaheadOf(c);
      if ch == '\0' || ch == ' ' then (Emitting(c, TokenKind.Integer, Int(acc), false), S.Empty)
      else if ch == '%' then (Emitting(Advanced(c), TokenKind.Percentage, Int(acc), false), S.Empty)
      else if ch == '.' then (Advanced(c), S.Real)
      else if TimeUnitStart(ch) || ch == ':' then (c, S.TimeSpan(acc))
      else if !IsDigit(ch) then (c, if KeywordMatch(BufferOf(c)) then S.Key(BufferOf(c)) else S.PlainText)
      else (Advanced(c), S.Integer(NextAccumulator(acc, ch)))
    }

    /** `n` steps of the Integer state from accumulator `acc`, stopping once
        a step leaves the Integer state. */
    function IntegerRun(c: Cursor, acc: int, n: nat): (r: (Cursor, S.ScannerState))
      requires Fits(c) && Defined(c)
      ensures Fits(r.0) && Defined(r.0)
      decreases n
    {
      if n == 0 then (c, S.Integer(acc))
      else
        var prev := IntegerRun(c, acc, n - 1);
        if prev.1.Integer? then IntegerStep(prev.0, prev.1.current) else prev
    }

    /** `ds` are the next characters of the content from the lookahead of `c`. */
    ghost predicate Upcoming(c: Cursor, ds: string) {
      && 0 <= c.lookahead && c.lookahead + |ds| <= |Content|
      && forall i :: 0 <= i < |ds| ==> Content[c.lookahead + i] == ds[i]
    }

    /** Digits that start no time unit are consumed one per step: the
        lookahead and buffer end move over them, and the Integer state holds
        the accumulator folded over them. */
    lemma {:induction false} IntegerRunOverDigits(c: Cursor, acc: int, ds: string)
      requires Fits(c) && Defined(c)
      requires Upcoming(c, ds)
      requires AllDigits(ds) && forall i :: 0 <= i < |ds| ==> !TimeUnitStart(ds[i])
      ensures IntegerRun(c, acc, |ds|) ==
        (if ds == [] then c else c.(lookahead := c.lookahead + |ds|, tokenEnd := c.lookahead + |ds| - 1),
         S.Integer(Accumulated(acc, ds)))
      decreases |ds|
    {
      if ds != [] {
        var init := ds[..|ds| - 1];
        var last := ds[|ds| - 1];
        assert AllDigits(init);
        assert Upcoming(c, init);
        IntegerRunOverDigits(c, acc, init);
        var p := if init == [] then c else c.(lookahead := c.lookahead + |init|, tokenEnd := c.lookahead + |init| - 1);
        assert LookaheadOf(p) == last;
        IntegerRunOneMore(c, acc, |init|, |ds|, p, Accumulated(acc, init));
        assert Advanced(p) == c.(lookahead := c.lookahead + |ds|, tokenEnd := c.lookahead + |ds| - 1);
        assert Accumulated(acc, ds) == NextAccumulator(Accumulated(acc, init), last) by {
          assert ds == init + [last];
          AccumulatedStep(acc, init, last);
        }
      }
    }

    /** A run of `n` Integer steps that stayed in the Integer state at `p`
        takes one more step over a digit that starts no time unit. */
    lemma IntegerRunOneMore(c: Cursor, acc: int, n: nat, m: nat, p: Cursor, a: int)
      requires Fits(c) && Defined(c) && Fits(p) && Defined(p) && m == n + 1
      requires IntegerRun(c, acc, n) == (p, S.Integer(a))
      requires IsDigit(LookaheadOf(p)) && !TimeUnitStart(LookaheadOf(p))
      ensures IntegerRun(c, acc, m) == (Advanced(p), S.Integer(NextAccumulator(a, LookaheadOf(p))))
    {
      IntegerStepOverDigit(p, a);
    }

    /** A digit that starts no time unit is consumed by the Integer step,
        which stays in the Integer state with the digit folded in. */
    lemma IntegerStepOverDigit(c: Cursor, acc: int)
      requires Fits(c) && Defined(c)
      requires IsDigit(LookaheadOf(c)) && !TimeUnitStart(LookaheadOf(c))
      ensures IntegerStep(c, acc) == (Advanced(c), S.Integer(NextAccumulator(acc, LookaheadOf(c))))
    {
    }

    /** A fresh Integer state that consumed the digits `ds` holds their
        decimal value truncated to 32 bits. */
    lemma IntegerRunValue(c: Cursor, ds: string)
      requires Fits(c) && Defined(c)
      requires Upcoming(c, ds)
      requires AllDigits(ds) && forall i :: 0 <= i < |ds| ==> !TimeUnitStart(ds[i])
      ensures IntegerRun(c, 0, |ds|).1 == S.Integer(Int32.Wrap(DecimalValue(ds)))
    {
      IntegerRunOverDigits(c, 0, ds);
      AccumulatedIsWrappedDecimal(ds);
    }

    /** The lookahead moves by exactly one when the Integer step consumes a
        digit, '%' or '.', and stays put otherwise. */
    lemma IntegerStepConsumes(c: Cursor, acc: int)
      requires Fits(c) && Defined(c)
      ensures var ch := LookaheadOf(c);
        IntegerStep(c, acc).0.lookahead ==
        c.lookahead + (if ch == '%' || ch == '.' || (IsDigit(ch) && !TimeUnitStart(ch)) then 1 else 0)
    {
    }

    /** One call of Next from cursor `c` in state `s`: the new cursor, the new
        state and the outcome. A failed step leaves the state as it was; in the
        Integer state it fails before touching the cursor. */
    ghost function StepOf(c: Cursor, s: S.ScannerState): (r: (Cursor, S.ScannerState, StepOutcome))
      requires Fits(c)
      ensures Fits(r.0)
      ensures c.queue <= r.0.queue && c.lookahead <= r.0.lookahead
      ensures (r.2 == Halted) == (s == S.End)
      ensures r.2 != Stepped ==> r.1 == s
      ensures r.2 == Halted ==> r.0 == c
    {
      if s == S.End then (c, s, Halted)
      else if s.Integer? then
        if !Defined(c) then (c, s, Faulted)
        else
          var step := IntegerStep(c, s.current);
          (step.0, step.1, Stepped)
      else
        var reaction := Unseen(s, LookaheadOf(c));
        var run := Run(c, reaction.actions);
        if run.1 then (run.0, reaction.next, Stepped) else (run.0, s, Faulted)
    }

    /** The do/while of NextToken from cursor `c` in state `s`, allowed `fuel`
        steps: steps until the queue is non-empty or the state is End (Ready),
        a step fails, or the fuel is spent. */
    ghost function Settle(c: Cursor, s: S.ScannerState, fuel: nat): (r: (Cursor, S.ScannerState, Readiness))
      requires Fits(c)
      ensures Fits(r.0)
      ensures r.2 == Ready ==> r.0.queue != [] || r.1 == S.End
      decreases fuel, 1
    {
      if c.queue != [] || s == S.End then (c, s, Ready)
      else if fuel == 0 then (c, s, FuelSpent)
      else StepThenSettle(c, s, fuel)
    }

    /** The `while (Next())` half of that loop: one step, then the settling
        from where it led with one step less, unless the step failed. */
    ghost function StepThenSettle(c: Cursor, s: S.ScannerState, fuel: nat): (r: (Cursor, S.ScannerState, Readiness))
      requires Fits(c) && fuel > 0
      ensures Fits(r.0)
      ensures r.2 == Ready ==> r.0.queue != [] || r.1 == S.End
      decreases fuel, 0
    {
      var step := StepOf(c, s);
      if step.2 == Faulted then (step.0, step.1, StepFailed)
      else Settle(step.0, step.1, fuel - 1)
    }

    /** One call of NextToken from cursor `c` in state `s`, allowed `fuel`
        steps: once settled, the front of the queue if there is one, and
        otherwise (in End) the End token generated from the buffer. */
    ghost function Pull(c: Cursor, s: S.ScannerState, fuel: nat): (r: (Cursor, S.ScannerState, PullOutcome))
      requires Fits(c)
      ensures Fits(r.0)
    {
      var settled := Settle(c, s, fuel);
      var c1 := settled.0;
      match settled.2
      case StepFailed => (c1, settled.1, Thrown)
      case FuelSpent => (c1, settled.1, OutOfFuel)
      case Ready =>
        if c1.queue != [] then (c1.(queue := c1.queue[1..]), settled.1, Pulled(c1.queue[0]))
        else if !Defined(c1) then (c1, settled.1, Thrown)
        else (Discarded(c1), settled.1, Pulled(Token(TokenKind.End, BufferOf(c1), c1.tokenStart, NoContent, false)))
    }

    /** The fuel only bounds the number of steps: a do/while that finished
        within `fuel` steps ends the same with any larger budget. */
    lemma {:induction false} SettleFuelIrrelevant(c: Cursor, s: S.ScannerState, fuel: nat, more: nat)
      requires Fits(c) && fuel <= more
      requires Settle(c, s, fuel).2 != FuelSpent
      ensures Settle(c, s, more) == Settle(c, s, fuel)
      decreases fuel
    {
      if c.queue == [] && s != S.End {
        var step := StepOf(c, s);
        if step.2 != Faulted {
          SettleFuelIrrelevant(step.0, step.1, fuel - 1, more - 1);
          assert Settle(c, s, more) == Settle(step.0, step.1, more - 1);
        }
      }
    }

    /** From an empty queue outside End, a step that does not fail leaves the
        rest of the settling to the state it reached, with one step less. */
    lemma SettleSteps(c: Cursor, s: S.ScannerState, fuel: nat)
      requires Fits(c) && c.queue == [] && s != S.End && fuel > 0
      requires StepOf(c, s).2 != Faulted
      ensures Settle(c, s, fuel) == Settle(StepOf(c, s).0, StepOf(c, s).1, fuel - 1)
    {
    }

    /** A pull that did not run out of fuel has the same result with any
        larger budget. */
    lemma PullFuelIrrelevant(c: Cursor, s: S.ScannerState, fuel: nat, more: nat)
      requires Fits(c) && fuel <= more
      requires Pull(c, s, fuel).2 != OutOfFuel
      ensures Pull(c, s, more) == Pull(c, s, fuel)
    {
      SettleFuelIrrelevant(c, s, fuel, more);
    }

    /** The token stream from cursor `c` in state `s`, after `ts` was
        yielded: pulls until an End token was yielded, `budget` more tokens
        were yielded or a pull failed; the final cursor and state, all tokens
        yielded and why it stopped. */
    ghost function Stream(c: Cursor, s: S.ScannerState, budget: nat, fuel: nat, ts: seq<Token>)
      : (r: (Cursor, S.ScannerState, seq<Token>, StopReason))
      requires Fits(c)
      ensures Fits(r.0)
      decreases budget
    {
      if budget == 0 then (c, s, ts, TokenBudget)
      else
        var p := Pull(c, s, fuel);
        if !p.2.Pulled? then (p.0, p.1, ts, PullFailed)
        else if p.2.token.kind == TokenKind.End then (p.0, p.1, ts + [p.2.token], EndYielded)
        else Stream(p.0, p.1, budget - 1, fuel, ts + [p.2.token])
    }

    /** The stream extends what was yielded before by at most `budget`
        tokens; only its last token can be End, and it is End exactly when
        the stream stopped for that reason; it stops for the budget only
        once the budget is used up. */
    lemma {:induction false} StreamShape(c: Cursor, s: S.ScannerState, budget: nat, fuel: nat, ts: seq<Token>)
      requires Fits(c)
      requires forall k :: 0 <= k < |ts| ==> ts[k].kind != TokenKind.End
      ensures var r := Stream(c, s, budget, fuel, ts);
        && ts <= r.2 && |r.2| <= |ts| + budget
        && (forall k :: 0 <= k < |r.2| - 1 ==> r.2[k].kind != TokenKind.End)
        && (r.3 == EndYielded <==> (r.2 != [] && r.2[|r.2| - 1].kind == TokenKind.End))
        && (r.3 == TokenBudget ==> |r.2| == |ts| + budget)
      decreases budget
    {
      if budget > 0 {
        var p := Pull(c, s, fuel);
        if p.2.Pulled? && p.2.token.kind != TokenKind.End {
          StreamShape(p.0, p.1, budget - 1, fuel, ts + [p.2.token]);
        }
      }
    }

    /** Commits the lookahead character to the buffer; the cursor stays put at end of input. */
    method Advance()
      requires Valid()
      modifies this`lookaheadPos, this`tokenEndPos
      ensures Valid()
      ensures tokenEndPos == old(lookaheadPos)
      ensures lookaheadPos == if old(lookaheadPos) < |Content| then old(lookaheadPos) + 1 else old(lookaheadPos)
      ensures old(lookaheadPos) < |Content| ==> BufferDefined()
      ensures Cur() == Advanced(old(Cur()))
    {
      tokenEndPos := lookaheadPos;
      if lookaheadPos < |Content| {
        lookaheadPos := lookaheadPos + 1;
      }
    }

    /** Starts a new, empty buffer at the lookahead. */
    method DiscardBuffer()
      requires Valid()
      modifies this`tokenStartPos, this`tokenEndPos
      ensures Valid() && BufferDefined()
      ensures tokenStartPos == lookaheadPos && tokenEndPos == lookaheadPos
      ensures Cur() == Discarded(old(Cur()))
    {
      tokenStartPos := lookaheadPos;
      tokenEndPos := tokenStartPos;
    }

    /** Builds a token from the buffer as it stands, then discards the buffer. */
    method GenerateToken(kind: TokenKind, content: Payload, isCompleteEnum: bool) returns (t: Token)
      requires Valid() && BufferDefined()
      modifies this`tokenStartPos, this`tokenEndPos
      ensures Valid() && BufferDefined()
      ensures t == Token(kind, old(BufferContent()), old(tokenStartPos), content, isCompleteEnum)
      ensures tokenStartPos == lookaheadPos && tokenEndPos == lookaheadPos
      ensures Cur() == Discarded(old(Cur()))
    {
      t := Token(kind, BufferContent(), tokenStartPos, content, isCompleteEnum);
      DiscardBuffer();
    }

    /** Puts a token at the back of the queue. */
    method EnqueueToken(t: Token)
      requires Valid()
      modifies this`pending, this`Emitted
      ensures Valid()
      ensures pending == old(pending) + [t] && Emitted == old(Emitted) + [t]
    {
      pending := pending + [t];
      Emitted := Emitted + [t];
    }

    /** Generates a token from the buffer and queues it. */
    method EmitToken(kind: TokenKind, content: Payload, isCompleteEnum: bool)
      requires Valid() && BufferDefined()
      modifies this`tokenStartPos, this`tokenEndPos, this`pending, this`Emitted
      ensures Valid() && BufferDefined()
      ensures pending == old(pending) + [Token(kind, old(BufferContent()), old(tokenStartPos), content, isCompleteEnum)]
      ensures tokenStartPos == lookaheadPos && tokenEndPos == lookaheadPos
      ensures Cur() == Emitting(old(Cur()), kind, content, isCompleteEnum)
    {
      var t := GenerateToken(kind, content, isCompleteEnum);
      EnqueueToken(t);
    }

    /** Carries out the primitives a state outside this model performs in one
        step; `ok` is false if one of them read an out-of-range buffer. */
    method Perform(actions: seq<S.Action>) returns (ok: bool)
      requires Valid()
      modifies this`lookaheadPos, this`tokenStartPos, this`tokenEndPos, this`pending, this`Emitted
      ensures Valid()
      ensures (Cur(), ok) == Run(old(Cur()), actions)
      ensures old(pending) <= pending && |pending| <= |old(pending)| + |actions|
      ensures old(lookaheadPos) <= lookaheadPos <= old(lookaheadPos) + |actions|
    {
      var i := 0;
      while i < |actions|
        invariant 0 <= i <= |actions|
        invariant Valid()
        invariant Run(old(Cur()), actions) == Run(Cur(), actions[i..])
      {
        assert actions[i..][1..] == actions[i + 1..];
        match actions[i] {
          case Advance =>
            Advance();
          case DiscardBuffer =>
            DiscardBuffer();
          case Emit(kind, content, isCompleteEnum) =>
            if !BufferDefined() {
              return false;
            }
            EmitToken(kind, content, isCompleteEnum);
        }
        i := i + 1;
      }
      return true;
    }

    /** One step of the Integer state holding `acc`, as the source performs it. */
    method ProcessInteger(acc: int) returns (next: S.ScannerState)
      requires Valid() && BufferDefined()
      modifies this`lookaheadPos, this`tokenStartPos, this`tokenEndPos, this`pending, this`Emitted
      ensures Valid() && BufferDefined()
      ensures (Cur(), next) == IntegerStep(old(Cur()), acc)
      ensures var c := old(Lookahead());
        lookaheadPos == old(lookaheadPos) + (if c == '%' || c == '.' || (IsDigit(c) && !TimeUnitStart(c)) then 1 else 0)
      ensures var c := old(Lookahead()); (c == '\0' || c == ' ') ==>
        && next == S.Empty
        && pending == old(pending) + [Token(TokenKind.Integer, old(BufferContent()), old(tokenStartPos), Int(acc), false)]
        && tokenStartPos == lookaheadPos && tokenEndPos == lookaheadPos
      ensures var c := old(Lookahead()); c == '%' ==>
        && next == S.Empty
        && pending == old(pending) + [Token(TokenKind.Percentage, Content[old(tokenStartPos)..old(lookaheadPos) + 1],
                                            old(tokenStartPos), Int(acc), false)]
        && tokenStartPos == lookaheadPos && tokenEndPos == lookaheadPos
      ensures var c := old(Lookahead()); c == '.' ==>
        && next == S.Real
        && pending == old(pending)
        && tokenStartPos == old(tokenStartPos) && tokenEndPos == old(lookaheadPos)
      ensures var c := old(Lookahead()); c !in {'\0', ' ', '%', '.'} && (TimeUnitStart(c) || c == ':') ==>
        && next == S.TimeSpan(acc)
        && pending == old(pending)
        && tokenStartPos == old(tokenStartPos) && tokenEndPos == old(tokenEndPos)
      ensures var c := old(Lookahead()); c !in {'\0', ' ', '%', '.'} && !(TimeUnitStart(c) || c == ':') && !IsDigit(c) ==>
        && next == (if KeywordMatch(old(BufferContent())) then S.Key(old(BufferContent())) else S.PlainText)
        && pending == old(pending)
        && tokenStartPos == old(tokenStartPos) && tokenEndPos == old(tokenEndPos)
      ensures var c := old(Lookahead()); !(TimeUnitStart(c) || c == ':') && IsDigit(c) ==>
        && next == S.Integer(NextAccumulator(acc, c))
        && pending == old(pending)
        && tokenStartPos == old(tokenStartPos) && tokenEndPos == old(lookaheadPos)
    {
      ghost var before := Cur();
      var c := Lookahead();
      if c == '\0' || c == ' ' {
        EmitToken(TokenKind.Integer, Int(acc), false);
        next := S.Empty;
      } else if c == '%' {
        Advance();
        EmitToken(TokenKind.Percentage, Int(acc), false);
        next := S.Empty;
      } else if c == '.' {
        Advance();
        next := S.Real;
      } else if TimeUnitStart(c) || c == ':' {
        next := S.TimeSpan(acc);
      } else if !IsDigit(c) {
        var buffer := BufferContent();
        next := if KeywordMatch(buffer) then S.Key(buffer) else S.PlainText;
      } else {
        Advance();
        next := S.Integer(NextAccumulator(acc, c));
      }
      IntegerStepConsumes(before, acc);
    }

    /** The current state's Process: the Integer state's own transition, or
        the reaction of a state this model leaves unseen. It returns the next
        state, and false when the transition fails; the state itself is left
        for Next to replace. */
    method Process() returns (next: S.ScannerState, ok: bool)
      requires Valid() && state != S.End
      modifies this`lookaheadPos, this`tokenStartPos, this`tokenEndPos, this`pending, this`Emitted
      ensures Valid()
      ensures var step := StepOf(old(Cur()), state);
        && Cur() == step.0 && ok == (step.2 == Stepped) && (ok ==> next == step.1)
    {
      if state.Integer? {
        // With the buffer out of range the cursor is at end of input, so the
        // lookahead is the terminator and the Integer state reads the buffer.
        if !BufferDefined() {
          return state, false;
        }
        next := ProcessInteger(state.current);
        ok := true;
      } else {
        var reaction := Unseen(state, Lookahead());
        ok := Perform(reaction.actions);
        next := reaction.next;
      }
    }

    /** Runs the current state's transition once, unless the state is End. */
    method Next() returns (r: StepOutcome)
      requires Valid()
      modifies this
      ensures Valid()
      ensures (Cur(), state, r) == StepOf(old(Cur()), old(state))
      ensures Taken == old(Taken) && old(pending) <= pending
      ensures old(lookaheadPos) <= lookaheadPos
      ensures (r == Halted) == (old(state) == S.End)
      ensures r != Stepped ==> state == old(state)
      ensures r == Halted ==> Cur() == old(Cur())
      ensures old(state).Integer? ==> (r == Faulted) == !old(BufferDefined())
      ensures old(state).Integer? && old(BufferDefined()) ==>
        (Cur(), state) == IntegerStep(old(Cur()), old(state).current)
      ensures old(state) != S.End && !old(state).Integer? ==>
        var reaction := Unseen(old(state), old(Lookahead()));
        && (Cur(), r == Stepped) == Run(old(Cur()), reaction.actions)
        && (r == Stepped ==> state == reaction.next)
    {
      if state == S.End {
        return Halted;
      }
      var next, ok := Process();
      if ok {
        state := next;
        r := Stepped;
      } else {
        r := Faulted;
      }
    }

    /** The do/while of NextToken: calls Next (at most `fuel` times) until a
        token is queued, the state machine has ended, or a step fails. */
    method StepUntilReady(fuel: nat) returns (status: Readiness)
      requires Valid()
      modifies this
      ensures Valid()
      ensures (Cur(), state, status) == Settle(old(Cur()), old(state), fuel)
      ensures Taken == old(Taken) && old(pending) <= pending
    {
      ghost var goal := Settle(Cur(), state, fuel);
      var steps := fuel;
      status := Ready;
      while pending == [] && state != S.End
        invariant Valid()
        invariant Taken == old(Taken) && old(pending) <= pending
        invariant Settle(Cur(), state, steps) == goal
        decreases steps
      {
        if steps == 0 {
          status := FuelSpent;
          break;
        }
        ghost var c0, s0 := Cur(), state;
        var outcome := Next();
        if outcome == Faulted {
          status := StepFailed;
          break;
        }
        SettleSteps(c0, s0, steps);
        steps := steps - 1;
      }
    }

    /** Returns the oldest queued token, stepping the state machine (at most
        `fuel` times) until one is queued; once the state machine has ended
        with nothing queued, generates an End token from the buffer. */
    method NextToken(fuel: nat) returns (r: PullOutcome)
      requires Valid()
      modifies this
      ensures Valid()
      ensures (Cur(), state, r) == Pull(old(Cur()), old(state), fuel)
      ensures old(Emitted) <= Emitted
      ensures old(pending) != [] ==>
        (Cur(), state, r) == (old(Cur()).(queue := old(pending)[1..]), old(state), Pulled(old(pending)[0]))
      ensures r.Pulled? ==>
        || Taken == old(Taken) + [r.token]
        || (&& Taken == old(Taken) && pending == [] && state == S.End
            && r.token.kind == TokenKind.End && r.token.content == NoContent && !r.token.isCompleteEnum
            && tokenStartPos == lookaheadPos && tokenEndPos == lookaheadPos
            && 0 <= r.token.start <= lookaheadPos
            && (|| r.token.segment == Content[r.token.start..lookaheadPos]
                || (r.token.start == lookaheadPos < |Content| && r.token.segment == [Content[lookaheadPos]])))
      ensures !r.Pulled? ==> Taken == old(Taken)
      ensures old(state) == S.End && old(pending) == [] && old(BufferDefined()) ==>
        && r == Pulled(Token(TokenKind.End, old(BufferContent()), old(tokenStartPos), NoContent, false))
        && state == S.End && lookaheadPos == old(lookaheadPos)
    {
      var status := StepUntilReady(fuel);
      if status == StepFailed {
        return Thrown;
      } else if status == FuelSpent {
        return OutOfFuel;
      }
      if pending != [] {
        r := Pulled(pending[0]);
        Taken := Taken + [pending[0]];
        pending := pending[1..];
      } else if !BufferDefined() {
        r := Thrown;
      } else {
        var t := GenerateToken(TokenKind.End, NoContent, false);
        r := Pulled(t);
      }
    }

    /** The token stream: yields every pulled token until it has yielded an
        End token, `maxTokens` tokens were yielded, or a pull fails. */
    method Enumerate(maxTokens: nat, fuel: nat) returns (ts: seq<Token>, why: StopReason)
      requires Valid()
      modifies this
      ensures Valid()
      ensures (Cur(), state, ts, why) == Stream(old(Cur()), old(state), maxTokens, fuel, [])
      ensures |ts| <= maxTokens
      ensures forall k :: 0 <= k < |ts| - 1 ==> ts[k].kind != TokenKind.End
      ensures why == EndYielded <==> (ts != [] && ts[|ts| - 1].kind == TokenKind.End)
      ensures why == TokenBudget ==> |ts| == maxTokens
      ensures || Taken == old(Taken) + ts
              || (&& ts != [] && Taken == old(Taken) + ts[..|ts| - 1]
                  && ts[|ts| - 1].kind == TokenKind.End && state == S.End && pending == [])
    {
      ts, why := [], TokenBudget;
      ghost var c, s := Cur(), state;
      ghost var whole := Stream(c, s, maxTokens, fuel, []);
      ghost var budget := maxTokens;
      while |ts| < maxTokens
        invariant Valid()
        invariant budget == maxTokens - |ts|
        invariant forall k :: 0 <= k < |ts| ==> ts[k].kind != TokenKind.End
        invariant Taken == old(Taken) + ts
        invariant Stream(Cur(), state, budget, fuel, ts) == whole
      {
        ghost var c0, s0, ts0 := Cur(), state, ts;
        var r := NextToken(fuel);
        if !r.Pulled? {
          why := PullFailed;
          break;
        }
        ts := ts + [r.token];
        if r.token.kind == TokenKind.End {
          why := EndYielded;
          break;
        }
        assert Stream(c0, s0, budget, fuel, ts0) == Stream(Cur(), state, budget - 1, fuel, ts);
        budget := budget - 1;
      }
      StreamShape(c, s, maxTokens, fuel, []);
    }

    /** Cuts `view` on single spaces into PlainText tokens positioned at their
        index plus `offset`; see PlainTextSplit for what the result means. */
    static method TokenizeAsPlainTextTokens(view: string, offset: int) returns (tokens: seq<Token>)
      ensures tokens == Segments(view, offset)
    {
      tokens := [];
      var sliceStart := 0;
      var sliceEnd := -1;
      while sliceEnd < |view|
        invariant -1 <= sliceEnd <= |view|
        invariant 0 <= sliceStart <= sliceEnd + 1
        invariant sliceEnd == |view| ==> sliceStart == |view| + 1
        invariant sliceStart <= |view| ==> sliceStart == 0 || view[sliceStart - 1] == ' '
        invariant forall k :: sliceStart <= k <= sliceEnd && k < |view| ==> view[k] != ' '
        invariant sliceStart <= |view| ==> tokens == Segments(view[..sliceStart], offset)
        invariant sliceStart > |view| ==> tokens == Segments(view, offset)
        decreases |view| - sliceEnd
      {
        if sliceEnd == |view| - 1 || view[sliceEnd + 1] == ' ' {
          var length := sliceEnd - sliceStart + 1;
          if length > 0 {
            var segment := view[sliceStart..sliceStart + length];
            SegmentsCloseRun(view, sliceStart, sliceEnd, offset);
            tokens := tokens + [PlainTextToken(segment, sliceStart + offset)];
          } else {
            SegmentsPassSpace(view, sliceStart, offset);
          }
          sliceStart := sliceEnd + 2;
        }
        sliceEnd := sliceEnd + 1;
      }
    }
  }
}
