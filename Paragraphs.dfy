/**
 * `formatSegmentsToParagraphs` (`src/utils/transcript.ts`): consecutive
 * segments whose gap is at most the threshold are joined into one paragraph;
 * a paragraph's whitespace is collapsed and its first character upper-cased.
 */
module Paragraphs {
  import opened Text
  import opened Transcript

  /** The default `gapThresholdMs`. */
  const DefaultGapMs: int := 1600

  /** `text.charAt(0).toUpperCase() + text.slice(1)`, on ASCII letters. */
  function Capitalize(t: string): (r: string)
    ensures |r| == |t|
  {
    if t == [] then [] else [UpperChar(t[0])] + t[1..]
  }

  /** What `pushCur` stores: `curText.replace(/\s+/g, ' ').trim()`, capitalised. */
  function ParagraphText(cur: string): string
  {
    Capitalize(Trim(Js, Collapse(Js, cur)))
  }

  /** The variables of `formatSegmentsToParagraphs`: the paragraphs so far and the current one. */
  datatype ParaState = ParaState(paras: seq<Segment>, curText: string, curStart: int, curEnd: int)

  /** `pushCur()`: the current text becomes a paragraph unless it is blank. */
  function PushCur(st: ParaState): seq<Segment>
  {
    if !IsBlank(Js, st.curText) then st.paras + [Segment(st.curStart, st.curEnd, ParagraphText(st.curText))]
    else st.paras
  }

  /**
   * One iteration: with no current text the segment starts one; a gap above
   * the threshold closes the current paragraph and starts a new one; else the
   * segment's text is appended and the end extended.
   */
  function ParaStep(st: ParaState, s: Segment, gapThresholdMs: int): ParaState
  {
    if st.curText == [] then ParaState(st.paras, s.text, s.startMs, s.endMs)
    else if s.startMs - st.curEnd > gapThresholdMs then ParaState(PushCur(st), s.text, s.startMs, s.endMs)
    else ParaState(st.paras, Trim(Js, st.curText + " " + s.text), st.curStart, Max(st.curEnd, s.endMs))
  }

  function ParaStart(segments: seq<Segment>): ParaState
    requires segments != []
  {
    ParaState([], "", segments[0].startMs, segments[0].endMs)
  }

  /** The state after the first `n` segments. */
  function ParaFold(segments: seq<Segment>, n: nat, gapThresholdMs: int): ParaState
    requires segments != [] && n <= |segments|
  {
    if n == 0 then ParaStart(segments)
    else ParaStep(ParaFold(segments, n - 1, gapThresholdMs), segments[n - 1], gapThresholdMs)
  }

  /** `formatSegmentsToParagraphs(segments, gapThresholdMs)` */
  function Paragraphs(segments: seq<Segment>, gapThresholdMs: int): seq<Segment>
  {
    if segments == [] then [] else PushCur(ParaFold(segments, |segments|, gapThresholdMs))
  }

  lemma ParaFoldNext(segments: seq<Segment>, n: nat, gapThresholdMs: int)
    requires segments != [] && n < |segments|
    ensures ParaFold(segments, n + 1, gapThresholdMs) ==
      ParaStep(ParaFold(segments, n, gapThresholdMs), segments[n], gapThresholdMs)
  {
  }

  /** The loop of `formatSegmentsToParagraphs`, with `pushCur` as `PushParagraph`. */
  method FormatSegmentsToParagraphs(segments: seq<Segment>, gapThresholdMs: int) returns (paras: seq<Segment>)
    ensures paras == Paragraphs(segments, gapThresholdMs)
  {
    if |segments| == 0 {
      return [];
    }
    paras := [];
    var curText := "";
    var curStart := segments[0].startMs;
    var curEnd := segments[0].endMs;
    var i := 0;
    while i < |segments|
      invariant 0 <= i <= |segments|
      invariant ParaState(paras, curText, curStart, curEnd) == ParaFold(segments, i, gapThresholdMs)
    {
      ParaFoldNext(segments, i, gapThresholdMs);
      var s := segments[i];
      if curText == [] {
        curStart := s.startMs;
        curEnd := s.endMs;
        curText := s.text;
      } else {
        var gap := s.startMs - curEnd;
        if gap > gapThresholdMs {
          paras := PushParagraph(paras, curText, curStart, curEnd);
          curStart := s.startMs;
          curEnd := s.endMs;
          curText := s.text;
        } else {
          curText := Trim(Js, curText + " " + s.text);
          curEnd := Max(curEnd, s.endMs);
        }
      }
      i := i + 1;
    }
    paras := PushParagraph(paras, curText, curStart, curEnd);
  }

  /** `pushCur()` */
  method PushParagraph(paras: seq<Segment>, curText: string, curStart: int, curEnd: int) returns (next: seq<Segment>)
    ensures next == PushCur(ParaState(paras, curText, curStart, curEnd))
  {
    next := paras;
    if !IsBlank(Js, curText) {
      var text := Trim(Js, Collapse(Js, curText));
      var cap := Capitalize(text);
      next := next + [Segment(curStart, curEnd, cap)];
    }
  }

  // ---------------------------------------------------------------------
  // How many paragraphs
  // ---------------------------------------------------------------------

  lemma {:induction false} ParaFoldCount(segments: seq<Segment>, n: nat, gapThresholdMs: int)
    requires segments != [] && n <= |segments|
    ensures n == 0 ==> ParaFold(segments, n, gapThresholdMs).paras == []
    ensures n > 0 ==> |ParaFold(segments, n, gapThresholdMs).paras| < n
  {
    if n > 0 {
      ParaFoldCount(segments, n - 1, gapThresholdMs);
    }
  }

  /** There are at most as many paragraphs as segments, and none without segments. */
  lemma ParagraphsCount(segments: seq<Segment>, gapThresholdMs: int)
    ensures |Paragraphs(segments, gapThresholdMs)| <= |segments|
    ensures segments == [] ==> Paragraphs(segments, gapThresholdMs) == []
  {
    if segments != [] {
      ParaFoldCount(segments, |segments|, gapThresholdMs);
    }
  }

  // ---------------------------------------------------------------------
  // What a paragraph's text looks like
  // ---------------------------------------------------------------------

  /** Not empty, no leading, trailing or doubled whitespace, and not starting with a lower-case ASCII letter. */
  predicate WellFormedText(t: string)
  {
    t != [] && Trimmed(t) && NoDoubleSpace(Js, t) && !('a' <= t[0] <= 'z')
  }

  lemma UpperCharSpace(c: char)
    ensures IsSpace(Js, UpperChar(c)) <==> IsSpace(Js, c)
    ensures !('a' <= UpperChar(c) <= 'z')
  {
  }

  /** Upper-casing the first character changes no whitespace. */
  lemma CapitalizeShape(t: string)
    requires t != [] && Trimmed(t) && NoDoubleSpace(Js, t)
    ensures WellFormedText(Capitalize(t))
  {
    var r := Capitalize(t);
    UpperCharSpace(t[0]);
    assert forall i :: 1 <= i < |t| ==> r[i] == t[i];
  }

  /** The text `pushCur` stores for a current text that is not blank is well formed. */
  lemma ParagraphTextShape(cur: string)
    requires !IsBlank(Js, cur)
    ensures WellFormedText(ParagraphText(cur))
  {
    var c := Collapse(Js, cur);
    var t := Trim(Js, c);
    assert t != [] && Trimmed(t) by {
      CollapseNonSpace(Js, cur);
      NonSpaceBlank(Js, cur);
      NonSpaceBlank(Js, c);
      TrimShape(Js, c);
    }
    assert NoDoubleSpace(Js, t) by {
      CollapseNoDoubleSpace(Js, cur);
      TrimNoDoubleSpace(Js, c);
    }
    CapitalizeShape(t);
  }

  predicate AllWellFormed(paras: seq<Segment>)
  {
    forall k :: 0 <= k < |paras| ==> WellFormedText(paras[k].text)
  }

  lemma PushCurShape(st: ParaState)
    requires AllWellFormed(st.paras)
    ensures AllWellFormed(PushCur(st))
  {
    if !IsBlank(Js, st.curText) {
      var p := Segment(st.curStart, st.curEnd, ParagraphText(st.curText));
      ParagraphTextShape(st.curText);
      assert forall k :: 0 <= k < |st.paras| ==> (st.paras + [p])[k] == st.paras[k];
      assert (st.paras + [p])[|st.paras|] == p;
    }
  }

  lemma {:induction false} ParaFoldShape(segments: seq<Segment>, n: nat, gapThresholdMs: int)
    requires segments != [] && n <= |segments|
    ensures AllWellFormed(ParaFold(segments, n, gapThresholdMs).paras)
  {
    if n > 0 {
      ParaFoldShape(segments, n - 1, gapThresholdMs);
      PushCurShape(ParaFold(segments, n - 1, gapThresholdMs));
    }
  }

  /** Every paragraph's text is well formed. */
  lemma ParagraphsShape(segments: seq<Segment>, gapThresholdMs: int)
    ensures AllWellFormed(Paragraphs(segments, gapThresholdMs))
  {
    if segments != [] {
      ParaFoldShape(segments, |segments|, gapThresholdMs);
      PushCurShape(ParaFold(segments, |segments|, gapThresholdMs));
    }
  }

  // ---------------------------------------------------------------------
  // Nothing is lost: the same non-whitespace characters, up to case
  // ---------------------------------------------------------------------

  /** The non-whitespace characters of `s`, lower-cased. */
  function Folded(s: string): string
  {
    Lower(NonSpace(Js, s))
  }

  lemma FoldedAppend(a: string, b: string)
    ensures Folded(a + b) == Folded(a) + Folded(b)
  {
    NonSpaceAppend(Js, a, b);
    var x, y := NonSpace(Js, a), NonSpace(Js, b);
    assert Lower(x + y) == Lower(x) + Lower(y);
  }

  lemma FoldedBlank(s: string)
    requires IsBlank(Js, s)
    ensures Folded(s) == []
  {
    NonSpaceBlank(Js, s);
  }

  /** Collapsing, trimming and capitalising keep the folded characters. */
  lemma FoldedParagraphText(cur: string)
    ensures Folded(ParagraphText(cur)) == Folded(cur)
  {
    var c := Collapse(Js, cur);
    var t := Trim(Js, c);
    CollapseNonSpace(Js, cur);
    TrimNonSpace(Js, c);
    TrimShape(Js, c);
    if t != [] {
      var u := Capitalize(t);
      UpperCharSpace(t[0]);
      assert t == [t[0]] + t[1..];
      assert u == [UpperChar(t[0])] + t[1..];
      FoldedAppend([t[0]], t[1..]);
      FoldedAppend([UpperChar(t[0])], t[1..]);
      assert Folded([t[0]]) == [LowerChar(t[0])];
      assert Folded([UpperChar(t[0])]) == [LowerChar(UpperChar(t[0]))];
    }
  }

  /** The joined merge `(cur + ' ' + text).trim()` keeps both texts' characters. */
  lemma FoldedJoin(cur: string, text: string)
    ensures Folded(Trim(Js, cur + " " + text)) == Folded(cur) + Folded(text)
  {
    calc {
      Folded(Trim(Js, cur + " " + text));
    == { TrimNonSpace(Js, cur + " " + text); }
      Folded(cur + " " + text);
    == { FoldedAppend(cur + " ", text); }
      Folded(cur + " ") + Folded(text);
    == { FoldedAppend(cur, " "); assert Folded(" ") == []; }
      Folded(cur) + Folded(text);
    }
  }

  lemma FoldedPushCur(st: ParaState)
    ensures Folded(AllText(PushCur(st))) == Folded(AllText(st.paras)) + Folded(st.curText)
  {
    if !IsBlank(Js, st.curText) {
      var p := Segment(st.curStart, st.curEnd, ParagraphText(st.curText));
      AllTextSnoc(st.paras, p);
      FoldedAppend(AllText(st.paras), p.text);
      FoldedParagraphText(st.curText);
    } else {
      FoldedBlank(st.curText);
    }
  }

  /** What the paragraphs so far and the current text hold is what the first `n` segments held. */
  ghost predicate FoldKeeps(segments: seq<Segment>, n: nat, gapThresholdMs: int)
    requires segments != [] && n <= |segments|
  {
    var st := ParaFold(segments, n, gapThresholdMs);
    Folded(AllText(st.paras)) + Folded(st.curText) == Folded(AllText(segments[..n]))
  }

  /** A step adds the segment's characters after those already held. */
  lemma ParaStepKeeps(st: ParaState, s: Segment, gapThresholdMs: int)
    ensures var next := ParaStep(st, s, gapThresholdMs);
      Folded(AllText(next.paras)) + Folded(next.curText) == Folded(AllText(st.paras)) + Folded(st.curText) + Folded(s.text)
  {
    var a, c, t := Folded(AllText(st.paras)), Folded(st.curText), Folded(s.text);
    if st.curText == [] {
      assert c == [];
      assert a + c + t == a + t;
    } else if s.startMs - st.curEnd > gapThresholdMs {
      FoldedPushCur(st);
    } else {
      FoldedJoin(st.curText, s.text);
      assert a + (c + t) == a + c + t;
    }
  }

  lemma ParaFoldKeepsStep(segments: seq<Segment>, n: nat, gapThresholdMs: int)
    requires segments != [] && 0 < n <= |segments| && FoldKeeps(segments, n - 1, gapThresholdMs)
    ensures FoldKeeps(segments, n, gapThresholdMs)
  {
    var s := segments[n - 1];
    AllTextPrefix(segments, n);
    FoldedAppend(AllText(segments[..n - 1]), s.text);
    ParaStepKeeps(ParaFold(segments, n - 1, gapThresholdMs), s, gapThresholdMs);
  }

  lemma {:induction false} ParaFoldKeeps(segments: seq<Segment>, n: nat, gapThresholdMs: int)
    requires segments != [] && n <= |segments|
    ensures FoldKeeps(segments, n, gapThresholdMs)
  {
    if n == 0 {
      assert Folded([]) == [];
    } else {
      ParaFoldKeeps(segments, n - 1, gapThresholdMs);
      ParaFoldKeepsStep(segments, n, gapThresholdMs);
    }
  }

  /**
   * The paragraphs hold exactly the segments' non-whitespace characters, in
   * order, up to ASCII case: only whitespace and the case of a paragraph's
   * first letter change.
   */
  lemma ParagraphsKeepText(segments: seq<Segment>, gapThresholdMs: int)
    ensures Folded(AllText(Paragraphs(segments, gapThresholdMs))) == Folded(AllText(segments))
  {
    if segments != [] {
      ParaFoldKeeps(segments, |segments|, gapThresholdMs);
      FoldedPushCur(ParaFold(segments, |segments|, gapThresholdMs));
      assert segments[..|segments|] == segments;
    }
  }

  // ---------------------------------------------------------------------
  // Paragraph breaks are gaps above the threshold
  // ---------------------------------------------------------------------

  /** Each paragraph starts more than `gapThresholdMs` after the previous one ends. */
  predicate Separated(paras: seq<Segment>, gapThresholdMs: int)
  {
    forall k :: 0 < k < |paras| ==> paras[k].startMs - paras[k - 1].endMs > gapThresholdMs
  }

  predicate NoBlankText(segments: seq<Segment>)
  {
    forall i :: 0 <= i < |segments| ==> !IsBlank(Js, segments[i].text)
  }

  /** Once a segment is read the current text is not blank, and it starts far enough after the last paragraph. */
  predicate GapInvariant(st: ParaState, gapThresholdMs: int)
  {
    && !IsBlank(Js, st.curText)
    && Separated(st.paras, gapThresholdMs)
    && (st.paras != [] ==> st.curStart - st.paras[|st.paras| - 1].endMs > gapThresholdMs)
  }

  lemma SeparatedPush(paras: seq<Segment>, p: Segment, gapThresholdMs: int)
    requires Separated(paras, gapThresholdMs)
    requires paras != [] ==> p.startMs - paras[|paras| - 1].endMs > gapThresholdMs
    ensures Separated(paras + [p], gapThresholdMs)
  {
    var r := paras + [p];
    forall k | 0 < k < |r|
      ensures r[k].startMs - r[k - 1].endMs > gapThresholdMs
    {
      if k < |paras| {
        assert r[k] == paras[k] && r[k - 1] == paras[k - 1];
      } else {
        assert r[k] == p && r[k - 1] == paras[|paras| - 1];
      }
    }
  }

  lemma ParaStepGap(st: ParaState, s: Segment, gapThresholdMs: int)
    requires !IsBlank(Js, s.text)
    requires st.curText == [] ==> st.paras == []
    requires st.curText != [] ==> GapInvariant(st, gapThresholdMs)
    ensures GapInvariant(ParaStep(st, s, gapThresholdMs), gapThresholdMs)
  {
    if st.curText != [] {
      if s.startMs - st.curEnd > gapThresholdMs {
        SeparatedPush(st.paras, Segment(st.curStart, st.curEnd, ParagraphText(st.curText)), gapThresholdMs);
      } else {
        BlankAppend(Js, st.curText + " ", s.text);
        BlankAppend(Js, st.curText, " ");
        TrimShape(Js, st.curText + " " + s.text);
      }
    }
  }

  lemma {:induction false} ParaFoldGap(segments: seq<Segment>, n: nat, gapThresholdMs: int)
    requires segments != [] && 0 < n <= |segments| && NoBlankText(segments)
    ensures GapInvariant(ParaFold(segments, n, gapThresholdMs), gapThresholdMs)
  {
    if n > 1 {
      ParaFoldGap(segments, n - 1, gapThresholdMs);
    }
    ParaStepGap(ParaFold(segments, n - 1, gapThresholdMs), segments[n - 1], gapThresholdMs);
  }

  /**
   * When no segment's text is blank, two consecutive paragraphs are
   * separated by a gap above the threshold: the break happens exactly there.
   */
  lemma ParagraphsSeparated(segments: seq<Segment>, gapThresholdMs: int)
    requires NoBlankText(segments)
    ensures Separated(Paragraphs(segments, gapThresholdMs), gapThresholdMs)
  {
    if segments != [] {
      var st := ParaFold(segments, |segments|, gapThresholdMs);
      ParaFoldGap(segments, |segments|, gapThresholdMs);
      SeparatedPush(st.paras, Segment(st.curStart, st.curEnd, ParagraphText(st.curText)), gapThresholdMs);
    }
  }
}
