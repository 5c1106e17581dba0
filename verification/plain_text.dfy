/** The reference meaning of the plain-text splitter: the maximal runs of
    non-space characters of a text, left to right, each as a PlainText
    token positioned at its index plus an offset. */
module PlainTextSplit {
  import opened Tokens

  predicate NoSpace(s: string) {
    forall k :: 0 <= k < |s| ==> s[k] != ' '
  }

  /** Length of the leading run of non-space characters. */
  function RunLength(s: string): (n: nat)
    ensures n <= |s|
    ensures forall k :: 0 <= k < n ==> s[k] != ' '
    ensures n == |s| || s[n] == ' '
  {
    if s == [] || s[0] == ' ' then 0 else 1 + RunLength(s[1..])
  }

  /** The token the splitter yields for the run `text` found at `start`. */
  function PlainTextToken(text: string, start: int): Token {
    Token(TokenKind.PlainText, text, start, Text(text), false)
  }

  /** The runs of `s`, each positioned relative to `offset`. */
  function Segments(s: string, offset: int): seq<Token>
    decreases |s|
  {
    if s == [] then []
    else if s[0] == ' ' then Segments(s[1..], offset + 1)
    else
      var n := RunLength(s);
      [PlainTextToken(s[..n], offset)] + Segments(s[n..], offset + n)
  }

  /** `s[i..j]` is a non-empty run of non-spaces that cannot be extended. */
  ghost predicate IsMaximalRun(s: string, i: int, j: int) {
    && 0 <= i < j <= |s|
    && (forall k :: i <= k < j ==> s[k] != ' ')
    && (i == 0 || s[i - 1] == ' ')
    && (j == |s| || s[j] == ' ')
  }

  /** Splitting at a space boundary: a text that ends in a space (or is
      empty) splits independently of what follows it. */
  lemma {:induction false} SegmentsAppend(a: string, b: string, offset: int)
    requires a == [] || a[|a| - 1] == ' '
    ensures Segments(a + b, offset) == Segments(a, offset) + Segments(b, offset + |a|)
    decreases |a|, 1
  {
    if a == [] {
      assert a + b == b;
    } else if a[0] == ' ' {
      AppendAfterSpace(a, b, offset);
    } else {
      AppendAfterRun(a, b, offset);
    }
  }

  /** A text that ends in a space has its leading run end before that space. */
  lemma RunStopsAtFinalSpace(a: string)
    requires a != [] && a[|a| - 1] == ' '
    ensures RunLength(a) < |a|
  {
  }

  /** SegmentsAppend over a leading space. */
  lemma {:induction false} AppendAfterSpace(a: string, b: string, offset: int)
    requires a != [] && a[|a| - 1] == ' ' && a[0] == ' '
    ensures Segments(a + b, offset) == Segments(a, offset) + Segments(b, offset + |a|)
    decreases |a|, 0
  {
    SegmentsAppend(a[1..], b, offset + 1);
    AppendSpaceStep(a, b, offset);
  }

  /** The step of AppendAfterSpace, once the text after the space is split. */
  lemma AppendSpaceStep(a: string, b: string, offset: int)
    requires a != [] && a[0] == ' '
    requires Segments(a[1..] + b, offset + 1) == Segments(a[1..], offset + 1) + Segments(b, offset + 1 + |a[1..]|)
    ensures Segments(a + b, offset) == Segments(a, offset) + Segments(b, offset + |a|)
  {
    assert (a + b)[0] == ' ' && (a + b)[1..] == a[1..] + b;
    SegmentsLeadingSpace(a + b, offset);
    SegmentsLeadingSpace(a, offset);
  }

  /** SegmentsAppend over a leading run and the space after it. */
  lemma {:induction false} AppendAfterRun(a: string, b: string, offset: int)
    requires a != [] && a[|a| - 1] == ' ' && a[0] != ' '
    ensures Segments(a + b, offset) == Segments(a, offset) + Segments(b, offset + |a|)
    decreases |a|, 0
  {
    RunStopsAtFinalSpace(a);
    var d := RunLength(a) + 1;
    SegmentsAppend(a[d..], b, offset + d);
    AppendRunStep(a, b, offset);
  }

  /** The step of AppendAfterRun, once the text after the run and its space is split. */
  lemma AppendRunStep(a: string, b: string, offset: int)
    requires a != [] && a[0] != ' ' && RunLength(a) < |a|
    requires var d := RunLength(a) + 1;
      Segments(a[d..] + b, offset + d) == Segments(a[d..], offset + d) + Segments(b, offset + |a|)
    ensures Segments(a + b, offset) == Segments(a, offset) + Segments(b, offset + |a|)
  {
    var n := RunLength(a);
    var ab := a + b;
    RunLengthPrefix(a, b);
    assert ab[0] != ' ' && RunLength(ab) == n;
    assert ab[..n] == a[..n] && ab[n + 1..] == a[n + 1..] + b;
    SegmentsSkipRun(ab, offset);
    SegmentsSkipRun(a, offset);
  }

  /** A leading space only moves the offset. */
  lemma SegmentsLeadingSpace(s: string, offset: int)
    requires s != [] && s[0] == ' '
    ensures Segments(s, offset) == Segments(s[1..], offset + 1)
  {
  }

  /** A leading run becomes the first token. */
  lemma SegmentsLeadingRun(s: string, offset: int)
    requires s != [] && s[0] != ' '
    ensures Segments(s, offset)
      == [PlainTextToken(s[..RunLength(s)], offset)] + Segments(s[RunLength(s)..], offset + RunLength(s))
  {
  }

  /** A leading run that stops at a space becomes the first token, and the
      rest of the tokens are those of the text after that space. */
  lemma SegmentsSkipRun(s: string, offset: int)
    requires s != [] && s[0] != ' ' && RunLength(s) < |s|
    ensures Segments(s, offset)
      == [PlainTextToken(s[..RunLength(s)], offset)] + Segments(s[RunLength(s) + 1..], offset + RunLength(s) + 1)
  {
    SegmentsLeadingRun(s, offset);
    SegmentsAfterRun(s, RunLength(s), offset);
  }

  /** The leading run of `a + b` is that of `a` when `a` has a space. */
  lemma {:induction false} RunLengthPrefix(a: string, b: string)
    requires RunLength(a) < |a|
    ensures RunLength(a + b) == RunLength(a)
    decreases |a|
  {
    if a[0] != ' ' {
      assert (a + b)[1..] == a[1..] + b;
      RunLengthPrefix(a[1..], b);
    }
  }

  /** A single run, alone or followed by one space, is one token. */
  lemma SegmentsOfRun(r: string, offset: int)
    requires r != [] && NoSpace(r)
    ensures Segments(r, offset) == [PlainTextToken(r, offset)]
    ensures Segments(r + [' '], offset) == [PlainTextToken(r, offset)]
  {
    assert RunLength(r) == |r| by { RunLengthOfNoSpace(r); }
    assert r[..|r|] == r;
    assert RunLength(r + [' ']) == |r| by { RunLengthSpaceEnd(r); }
    assert (r + [' '])[..|r|] == r;
    assert (r + [' '])[|r|..] == [' '];
    assert [' '][1..] == [];
    assert Segments([' '], offset + |r|) == [];
  }

  lemma {:induction false} RunLengthOfNoSpace(r: string)
    requires NoSpace(r)
    ensures RunLength(r) == |r|
    decreases |r|
  {
    if r != [] {
      RunLengthOfNoSpace(r[1..]);
    }
  }

  lemma {:induction false} RunLengthSpaceEnd(r: string)
    requires NoSpace(r)
    ensures RunLength(r + [' ']) == |r|
    decreases |r|
  {
    if r != [] {
      assert (r + [' '])[1..] == r[1..] + [' '];
      RunLengthSpaceEnd(r[1..]);
    }
  }

  /** A text of spaces only, in particular the empty text, has no tokens. */
  lemma {:induction false} SegmentsOfSpaces(s: string, offset: int)
    requires forall k :: 0 <= k < |s| ==> s[k] == ' '
    ensures Segments(s, offset) == []
    decreases |s|
  {
    if s != [] {
      SegmentsOfSpaces(s[1..], offset + 1);
    }
  }

  /** `t` is the PlainText token of a maximal run of `s`, positioned by `offset`. */
  ghost predicate IsRunToken(s: string, offset: int, t: Token) {
    && t.kind == TokenKind.PlainText
    && t.content == Text(t.segment)
    && !t.isCompleteEnum
    && IsMaximalRun(s, t.start - offset, t.start - offset + |t.segment|)
    && t.segment == s[t.start - offset .. t.start - offset + |t.segment|]
  }

  /** A run of the text after a space is a run of the whole text. */
  lemma ShiftRunToken(s: string, d: nat, offset: int, t: Token)
    requires 0 < d <= |s| && s[d - 1] == ' '
    requires IsRunToken(s[d..], offset + d, t)
    ensures IsRunToken(s, offset, t)
  {
    var r := s[d..];
    var i := t.start - offset - d;
    var j := i + |t.segment|;
    assert IsMaximalRun(r, i, j);
    assert r[i..j] == s[d + i .. d + j];
    forall k | d + i <= k < d + j ensures s[k] != ' ' {
      assert s[k] == r[k - d];
    }
    assert d + i == 0 || s[d + i - 1] == ' ' by {
      if i > 0 { assert s[d + i - 1] == r[i - 1]; }
    }
    assert d + j == |s| || s[d + j] == ' ' by {
      if j < |r| { assert s[d + j] == r[j]; }
    }
  }

  /** After a leading run that stops at a space, the rest starts after that space. */
  lemma SegmentsAfterRun(s: string, n: nat, offset: int)
    requires n < |s| && s[n] == ' '
    ensures Segments(s[n..], offset + n) == Segments(s[n + 1..], offset + n + 1)
  {
    assert s[n..][0] == ' ';
    assert s[n..][1..] == s[n + 1..];
  }

  /** Every token of `ts` is a run token of `s` positioned by `offset`. */
  ghost predicate AllRunTokens(s: string, offset: int, ts: seq<Token>) {
    forall k :: 0 <= k < |ts| ==> IsRunToken(s, offset, ts[k])
  }

  /** All runs of the text after a space are runs of the whole text. */
  lemma ShiftRunTokens(s: string, d: nat, offset: int)
    requires 0 < d <= |s| && s[d - 1] == ' '
    requires AllRunTokens(s[d..], offset + d, Segments(s[d..], offset + d))
    ensures AllRunTokens(s, offset, Segments(s[d..], offset + d))
  {
    var ts := Segments(s[d..], offset + d);
    forall k | 0 <= k < |ts| ensures IsRunToken(s, offset, ts[k]) {
      ShiftRunToken(s, d, offset, ts[k]);
    }
  }

  /** A run token followed by run tokens are all run tokens. */
  lemma RunTokensCons(s: string, offset: int, head: Token, rest: seq<Token>)
    requires IsRunToken(s, offset, head) && AllRunTokens(s, offset, rest)
    ensures AllRunTokens(s, offset, [head] + rest)
  {
    forall k | 0 <= k < |[head] + rest| ensures IsRunToken(s, offset, ([head] + rest)[k]) {
      if k > 0 { assert ([head] + rest)[k] == rest[k - 1]; }
    }
  }

  /** Soundness: every token is a PlainText token whose text is a maximal run
      of `s`, found at its start minus the offset, and whose content is that text. */
  lemma {:induction false} SegmentsAreMaximalRuns(s: string, offset: int)
    ensures AllRunTokens(s, offset, Segments(s, offset))
    decreases |s|
  {
    var ts := Segments(s, offset);
    if s != [] {
      if s[0] == ' ' {
        SegmentsAreMaximalRuns(s[1..], offset + 1);
        ShiftRunTokens(s, 1, offset);
        assert ts == Segments(s[1..], offset + 1);
      } else {
        var n := RunLength(s);
        var head := PlainTextToken(s[..n], offset);
        var rest := Segments(s[n..], offset + n);
        assert ts == [head] + rest;
        assert IsRunToken(s, offset, head);
        if n < |s| {
          SegmentsAfterRun(s, n, offset);
          SegmentsAreMaximalRuns(s[n + 1..], offset + (n + 1));
          ShiftRunTokens(s, n + 1, offset);
          assert rest == Segments(s[n + 1..], offset + (n + 1));
        } else {
          assert rest == [];
        }
        RunTokensCons(s, offset, head, rest);
      }
    }
  }

  /** Every token of `s` lies within `s`. */
  lemma SegmentsWithin(s: string, offset: int, k: nat)
    requires k < |Segments(s, offset)|
    ensures offset <= Segments(s, offset)[k].start
    ensures Segments(s, offset)[k].start + |Segments(s, offset)[k].segment| <= offset + |s|
  {
    SegmentsAreMaximalRuns(s, offset);
    assert IsRunToken(s, offset, Segments(s, offset)[k]);
  }

  /** Order: each token ends, and at least one space passes, before the next begins. */
  lemma {:induction false} SegmentsInOrder(s: string, offset: int)
    ensures var ts := Segments(s, offset);
      forall i, j :: 0 <= i < j < |ts| ==> ts[i].start + |ts[i].segment| < ts[j].start
    decreases |s|
  {
    var ts := Segments(s, offset);
    if s != [] {
      if s[0] == ' ' {
        SegmentsInOrder(s[1..], offset + 1);
        assert ts == Segments(s[1..], offset + 1);
      } else {
        var n := RunLength(s);
        var rest := Segments(s[n..], offset + n);
        assert ts == [PlainTextToken(s[..n], offset)] + rest;
        if n < |s| {
          SegmentsAfterRun(s, n, offset);
          SegmentsInOrder(s[n + 1..], offset + n + 1);
          forall j | 0 <= j < |rest|
            ensures offset + n < rest[j].start
          {
            SegmentsWithin(s[n + 1..], offset + n + 1, j);
          }
        } else {
          assert rest == [];
        }
        forall i, j | 0 <= i < j < |ts|
          ensures ts[i].start + |ts[i].segment| < ts[j].start
        {
          assert ts[j] == rest[j - 1];
          if i > 0 {
            assert ts[i] == rest[i - 1];
          }
        }
      }
    }
  }

  /** Completeness: every maximal run of `s` is yielded, at its index plus the offset. */
  lemma SegmentsCoverRuns(s: string, offset: int)
    ensures forall i, j :: IsMaximalRun(s, i, j) ==> PlainTextToken(s[i..j], i + offset) in Segments(s, offset)
  {
    forall i, j | IsMaximalRun(s, i, j)
      ensures PlainTextToken(s[i..j], i + offset) in Segments(s, offset)
    {
      var k := SegmentsCoverRun(s, offset, i, j);
    }
  }

  /** The maximal run `s[i..j]` is yielded, at `i` plus the offset, as the
      token after those of the text before it. */
  lemma SegmentsCoverRun(s: string, offset: int, i: int, j: int) returns (k: nat)
    requires IsMaximalRun(s, i, j)
    ensures k == |Segments(s[..i], offset)|
    ensures k < |Segments(s, offset)| && Segments(s, offset)[k] == PlainTextToken(s[i..j], i + offset)
  {
    var before, after := s[..i], s[i..];
    assert IsMaximalRun(after, 0, j - i) && after[..j - i] == s[i..j] by { RunFromItsStart(s, i, j); }
    LeadingRunFirst(after, offset + i, j - i);
    assert Segments(s, offset) == Segments(before, offset) + Segments(after, offset + |before|) by {
      assert s == before + after;
      SegmentsAppend(before, after, offset);
    }
    k := |Segments(before, offset)|;
  }

  /** A maximal run at the start is the first token. */
  lemma LeadingRunFirst(s: string, offset: int, j: int)
    requires IsMaximalRun(s, 0, j)
    ensures Segments(s, offset) != [] && Segments(s, offset)[0] == PlainTextToken(s[..j], offset)
  {
    SegmentsLeadingRun(s, offset);
    assert s[..j] == s[..RunLength(s)];
  }

  /** A maximal run is a maximal run at the start of the text from where it begins. */
  lemma RunFromItsStart(s: string, i: int, j: int)
    requires IsMaximalRun(s, i, j)
    ensures IsMaximalRun(s[i..], 0, j - i) && s[i..][..j - i] == s[i..j]
  {
    var r := s[i..];
    forall k | 0 <= k < j - i ensures r[k] != ' ' {
      assert r[k] == s[i + k];
    }
    assert j - i == |r| || r[j - i] == s[j];
  }

  /** A run of non-spaces after a text that ends in a space (or is empty)
      adds its one token, whether or not a space follows it. */
  lemma SegmentsRunClosed(done: string, segment: string, offset: int)
    requires done == [] || done[|done| - 1] == ' '
    requires segment != [] && NoSpace(segment)
    ensures Segments(done + segment, offset) == Segments(done, offset) + [PlainTextToken(segment, offset + |done|)]
    ensures Segments(done + (segment + [' ']), offset) == Segments(done, offset) + [PlainTextToken(segment, offset + |done|)]
  {
    var token := PlainTextToken(segment, offset + |done|);
    SegmentsOfRun(segment, offset + |done|);
    assert Segments(done + segment, offset) == Segments(done, offset) + [token] by {
      SegmentsAppend(done, segment, offset);
    }
    assert Segments(done + (segment + [' ']), offset) == Segments(done, offset) + [token] by {
      SegmentsAppend(done, segment + [' '], offset);
    }
  }

  /** Closing the run `view[ss..se+1]` at the end of the text or before a
      space adds exactly its token to the runs found so far. */
  lemma SegmentsCloseRun(view: string, ss: int, se: int, offset: int)
    requires 0 <= ss <= se < |view|
    requires ss == 0 || view[ss - 1] == ' '
    requires forall k :: ss <= k <= se ==> view[k] != ' '
    requires se == |view| - 1 || view[se + 1] == ' '
    ensures se == |view| - 1 ==>
      Segments(view, offset) == Segments(view[..ss], offset) + [PlainTextToken(view[ss..se + 1], ss + offset)]
    ensures se < |view| - 1 ==>
      Segments(view[..se + 2], offset) == Segments(view[..ss], offset) + [PlainTextToken(view[ss..se + 1], ss + offset)]
  {
    var done := view[..ss];
    var segment := view[ss..se + 1];
    assert NoSpace(segment);
    assert PlainTextToken(segment, offset + |done|) == PlainTextToken(view[ss..se + 1], ss + offset);
    if se == |view| - 1 {
      assert view == done + segment by { SliceAround(view, ss, se + 1); }
      SegmentsRunClosed(done, segment, offset);
    } else {
      assert view[..se + 2] == done + (segment + [' ']) by {
        SliceAround(view, ss, se + 2);
        assert [view[se + 1]] == [' '];
      }
      SegmentsRunClosed(done, segment, offset);
    }
  }

  /** `v[..j]` is `v[..i]`, then `v[i..j - 1]`, then `v[j - 1]`. */
  lemma SliceAround(v: string, i: int, j: int)
    requires 0 <= i < j <= |v|
    ensures v[..j] == v[..i] + (v[i..j - 1] + [v[j - 1]])
    ensures j == |v| ==> v == v[..i] + v[i..j]
  {
    assert v[i..j] == v[i..j - 1] + [v[j - 1]];
  }

  /** Passing over a space (or the end of the text) where no run is open
      adds no token. */
  lemma SegmentsPassSpace(view: string, ss: int, offset: int)
    requires 0 <= ss <= |view|
    requires ss == 0 || view[ss - 1] == ' '
    requires ss == |view| || view[ss] == ' '
    ensures ss == |view| ==> Segments(view, offset) == Segments(view[..ss], offset)
    ensures ss < |view| ==> Segments(view[..ss + 1], offset) == Segments(view[..ss], offset)
  {
    var done := view[..ss];
    if ss == |view| {
      assert view == done;
    } else {
      assert view[..ss + 1] == done + [' '];
      SegmentsAppend(done, [' '], offset);
      SegmentsOfSpaces([' '], offset + ss);
    }
  }
}
