/**
 * The front end's transcript utilities (`src/utils/transcript.ts`): clock
 * formatting, normalising caption events into segments, merging adjacent
 * segments, cleaning annotation and filler words out of text, chunking for
 * the AI context window, and grouping segments into paragraphs.
 *
 * Times are whole milliseconds; string lengths count characters.
 */
module Transcript {
  import opened Wrappers
  import opened Text

  /** `{ startMs, endMs, text }`: a segment, a chunk and a paragraph all have this shape. */
  datatype Segment = Segment(startMs: int, endMs: int, text: string)

  // ---------------------------------------------------------------------
  // fmtMs
  // ---------------------------------------------------------------------

  /** `fmtMs(ms)`: `h:mm:ss` when there is at least one whole hour, else `m:ss`. */
  function FmtMs(ms: nat): string
  {
    var s := ms / 1000;
    var hh := s / 3600;
    var mm := (s % 3600) / 60;
    var ss := s % 60;
    ClockText(hh, mm, ss)
  }

  /** `H:MM:SS` when there are hours, `M:SS` otherwise. */
  function ClockText(hh: nat, mm: nat, ss: nat): string
  {
    if hh != 0 then NatToString(hh) + ":" + Pad2(mm) + ":" + Pad2(ss)
    else NatToString(mm) + ":" + Pad2(ss)
  }

  predicate AllDigits(t: string)
  {
    forall i :: 0 <= i < |t| ==> IsDigit(t[i])
  }

  /** The characters of `t` from `lo` up to `hi` are all digits. */
  predicate DigitsIn(t: string, lo: int, hi: int)
  {
    0 <= lo <= hi <= |t| && forall i :: lo <= i < hi ==> IsDigit(t[i])
  }

  /** The number those digits write, most significant first. */
  function ValueIn(t: string, lo: int, hi: int): nat
    requires DigitsIn(t, lo, hi)
    decreases hi - lo
  {
    if hi == lo then 0 else 10 * ValueIn(t, lo, hi - 1) + (t[hi - 1] as int - '0' as int)
  }

  /**
   * A clock reader, independent of `FmtMs`: `h:mm:ss` or `m:ss` (any number
   * of leading digits) back to whole seconds, `None` for anything else.
   */
  function ReadClock(t: string): Option<nat>
  {
    var n := |t|;
    if n < 4 || t[n - 3] != ':' || !DigitsIn(t, n - 2, n) then None
    else
      var ss := ValueIn(t, n - 2, n);
      if n >= 7 && t[n - 6] == ':' && DigitsIn(t, n - 5, n - 3) && DigitsIn(t, 0, n - 6) then
        Some(ValueIn(t, 0, n - 6) * 3600 + ValueIn(t, n - 5, n - 3) * 60 + ss)
      else if DigitsIn(t, 0, n - 3) then Some(ValueIn(t, 0, n - 3) * 60 + ss)
      else None
  }

  /** The clock has an hours field: `h:mm:ss`. */
  predicate HasHours(t: string)
  {
    |t| >= 7 && t[|t| - 6] == ':'
  }

  lemma SecondsSplit(s: nat)
    ensures s == (s / 3600) * 3600 + ((s % 3600) / 60) * 60 + s % 60
    ensures (s % 3600) / 60 < 60
  {
    var h := s / 3600;
    var r := s % 3600;
    var m := r / 60;
    var q := r % 60;
    assert s == 3600 * h + r;
    assert r == 60 * m + q;
    assert s == 60 * (60 * h + m) + q;
    assert 0 <= q < 60;
    assert s % 60 == q;
  }

  /** Digits `x` written into `t` at `lo` are read back as `x`'s value. */
  lemma {:induction false} ValueInAgrees(t: string, lo: nat, x: string)
    requires lo + |x| <= |t| && AllDigits(x)
    requires forall i :: 0 <= i < |x| ==> t[lo + i] == x[i]
    ensures DigitsIn(t, lo, lo + |x|) && ValueIn(t, lo, lo + |x|) == DigitsValue(x)
    decreases |x|
  {
    if x != [] {
      var y := x[..|x| - 1];
      ValueInAgrees(t, lo, y);
      assert t[lo + |x| - 1] == x[|x| - 1];
    }
  }

  /** A clock with an hours field, described by where its colons are and what its fields read as. */
  lemma ReadClockFields(t: string, h: nat, hours: nat, minutes: nat, seconds: nat)
    requires |t| == h + 6 && t[h] == ':' && t[h + 3] == ':'
    requires DigitsIn(t, 0, h) && h > 0 && DigitsIn(t, h + 1, h + 3) && DigitsIn(t, h + 4, h + 6)
    requires ValueIn(t, 0, h) == hours && ValueIn(t, h + 1, h + 3) == minutes && ValueIn(t, h + 4, h + 6) == seconds
    ensures ReadClock(t) == Some(hours * 3600 + minutes * 60 + seconds)
    ensures HasHours(t)
  {
  }

  /** Where the fields of `H:M:S` lie and what they read as. */
  lemma ClockFields(H: string, M: string, S: string)
    requires AllDigits(H) && |M| == 2 && AllDigits(M) && |S| == 2 && AllDigits(S)
    ensures var t := H + ":" + M + ":" + S; var h := |H|;
      |t| == h + 6 && t[h] == ':' && t[h + 3] == ':' &&
      DigitsIn(t, 0, h) && DigitsIn(t, h + 1, h + 3) && DigitsIn(t, h + 4, h + 6) &&
      ValueIn(t, 0, h) == DigitsValue(H) && ValueIn(t, h + 1, h + 3) == DigitsValue(M) &&
      ValueIn(t, h + 4, h + 6) == DigitsValue(S)
  {
    var t := H + ":" + M + ":" + S;
    var h := |H|;
    assert |t| == h + 6 && t[h] == ':' && t[h + 3] == ':';
    ValueInAgrees(t, 0, H);
    ValueInAgrees(t, h + 1, M);
    ValueInAgrees(t, h + 4, S);
  }

  lemma ReadClockWithHours(H: string, M: string, S: string, hours: nat, minutes: nat, seconds: nat)
    requires H != [] && AllDigits(H) && |M| == 2 && AllDigits(M) && |S| == 2 && AllDigits(S)
    requires DigitsValue(H) == hours && DigitsValue(M) == minutes && DigitsValue(S) == seconds
    ensures ReadClock(H + ":" + M + ":" + S) == Some(hours * 3600 + minutes * 60 + seconds)
    ensures HasHours(H + ":" + M + ":" + S)
  {
    ClockFields(H, M, S);
    ReadClockFields(H + ":" + M + ":" + S, |H|, hours, minutes, seconds);
  }

  /** A clock without an hours field: minutes (one or two digits), a colon, seconds. */
  lemma ReadClockShortFields(t: string, m: nat, minutes: nat, seconds: nat)
    requires |t| == m + 3 && t[m] == ':' && 0 < m <= 2
    requires DigitsIn(t, 0, m) && DigitsIn(t, m + 1, m + 3)
    requires ValueIn(t, 0, m) == minutes && ValueIn(t, m + 1, m + 3) == seconds
    ensures ReadClock(t) == Some(minutes * 60 + seconds)
    ensures !HasHours(t)
  {
  }

  lemma ShortClockFields(M: string, S: string)
    requires AllDigits(M) && |S| == 2 && AllDigits(S)
    ensures var t := M + ":" + S; var m := |M|;
      |t| == m + 3 && t[m] == ':' && DigitsIn(t, 0, m) && DigitsIn(t, m + 1, m + 3) &&
      ValueIn(t, 0, m) == DigitsValue(M) && ValueIn(t, m + 1, m + 3) == DigitsValue(S)
  {
    var t := M + ":" + S;
    var m := |M|;
    assert |t| == m + 3 && t[m] == ':';
    ValueInAgrees(t, 0, M);
    ValueInAgrees(t, m + 1, S);
  }

  lemma ReadClockWithoutHours(M: string, S: string, minutes: nat, seconds: nat)
    requires M != [] && |M| <= 2 && AllDigits(M) && |S| == 2 && AllDigits(S)
    requires DigitsValue(M) == minutes && DigitsValue(S) == seconds
    ensures ReadClock(M + ":" + S) == Some(minutes * 60 + seconds)
    ensures !HasHours(M + ":" + S)
  {
    ShortClockFields(M, S);
    ReadClockShortFields(M + ":" + S, |M|, minutes, seconds);
  }

  lemma WholeHours(ms: nat)
    ensures (ms / 1000) / 3600 != 0 <==> ms >= 3600000
  {
    if ms >= 3600000 {
      assert ms / 1000 >= 3600;
    } else {
      assert ms / 1000 < 3600;
    }
  }

  /** Reading the clock back gives the whole seconds of `ms`; the hours field appears exactly from one hour on. */
  lemma FmtMsRoundTrip(ms: nat)
    ensures ReadClock(FmtMs(ms)) == Some(ms / 1000)
    ensures HasHours(FmtMs(ms)) <==> ms >= 3600000
  {
    var s := ms / 1000;
    var hh := s / 3600;
    var mm := (s % 3600) / 60;
    var ss := s % 60;
    assert s == hh * 3600 + mm * 60 + ss && mm < 60 by {
      SecondsSplit(s);
    }
    assert hh != 0 <==> ms >= 3600000 by {
      WholeHours(ms);
    }
    ClockTextRoundTrip(hh, mm, ss);
    assert FmtMs(ms) == ClockText(hh, mm, ss);
  }

  /** The clock text of hours, minutes and seconds reads back as their total in seconds. */
  lemma ClockTextRoundTrip(hh: nat, mm: nat, ss: nat)
    requires mm < 60 && ss < 60
    ensures ReadClock(ClockText(hh, mm, ss)) == Some(hh * 3600 + mm * 60 + ss)
    ensures HasHours(ClockText(hh, mm, ss)) <==> hh != 0
  {
    if hh != 0 {
      ClockWithHours(hh, mm, ss);
    } else {
      ClockWithoutHours(mm, ss);
    }
  }

  lemma ClockWithHours(hh: nat, mm: nat, ss: nat)
    requires hh != 0 && mm < 60 && ss < 60
    ensures var t := NatToString(hh) + ":" + Pad2(mm) + ":" + Pad2(ss);
      ReadClock(t) == Some(hh * 3600 + mm * 60 + ss) && HasHours(t)
  {
    Pad2RoundTrip(mm);
    Pad2RoundTrip(ss);
    NatToStringRoundTrip(hh);
    ReadClockWithHours(NatToString(hh), Pad2(mm), Pad2(ss), hh, mm, ss);
  }

  lemma ClockWithoutHours(mm: nat, ss: nat)
    requires mm < 60 && ss < 60
    ensures var t := NatToString(mm) + ":" + Pad2(ss);
      ReadClock(t) == Some(mm * 60 + ss) && !HasHours(t)
  {
    Pad2RoundTrip(ss);
    NatToStringRoundTrip(mm);
    ReadClockWithoutHours(NatToString(mm), Pad2(ss), mm, ss);
  }

  // ---------------------------------------------------------------------
  // cleanText: three global, case-insensitive removals, then `\s{2,}` -> ' '
  // and trim. In each alternation no word is a prefix of another, so at
  // most one alternative can match at a position and trying them in order
  // is the same as taking the one that is there.
  // ---------------------------------------------------------------------

  const BracketWords: seq<string> := ["music", "applause", "laughter", "cheering"]
  const ParenWords: seq<string> := ["music", "applause", "laughs", "crosstalk"]
  const FillerWords: seq<string> := ["uh", "um", "ah", "you know", "like"]

  /** `w` occurs at `i` ignoring ASCII case (the `i` flag; `w` is lower-case). */
  predicate OccursAtIgnoreCase(s: string, w: string, i: nat)
  {
    i + |w| <= |s| && Lower(s[i..i + |w|]) == w
  }

  /** The first of `words` occurring at `i`: the alternation tried in order. */
  function WordAt(s: string, i: nat, words: seq<string>): (r: Option<string>)
    ensures r.Some? ==> OccursAtIgnoreCase(s, r.value, i) && r.value in words
  {
    if words == [] then None
    else if OccursAtIgnoreCase(s, words[0], i) then Some(words[0])
    else WordAt(s, i, words[1..])
  }

  /** Just past the first `c` at or after `i`. */
  function PastFirst(s: string, c: char, i: nat): (r: Option<nat>)
    ensures r.Some? ==> i < r.value <= |s| && s[r.value - 1] == c
    ensures r.Some? ==> forall k :: i <= k < r.value - 1 ==> s[k] != c
    ensures r.None? ==> forall k :: i <= k < |s| ==> s[k] != c
    decreases |s| - i
  {
    if i >= |s| then None else if s[i] == c then Some(i + 1) else PastFirst(s, c, i + 1)
  }

  /** End of a match of `\[(words)[^\]]*\]` (or the parenthesised form) at `i`. */
  function AnnotationAt(s: string, i: nat, open: char, close: char, words: seq<string>): (r: Option<nat>)
    ensures r.Some? ==> i < r.value <= |s|
  {
    if i < |s| && s[i] == open then
      match WordAt(s, i + 1, words)
      case None => None
      case Some(w) => PastFirst(s, close, i + 1 + |w|)
    else None
  }

  /** `s[i..]` with the annotations removed left to right: `replace(/…/gi, '')`. */
  function StripAnnotations(s: string, i: nat, open: char, close: char, words: seq<string>): string
    decreases |s| - i
  {
    if i >= |s| then []
    else
      match AnnotationAt(s, i, open, close, words)
      case Some(e) => StripAnnotations(s, e, open, close, words)
      case None => [s[i]] + StripAnnotations(s, i + 1, open, close, words)
  }

  /** `\b` at `i` before a word character. */
  predicate BoundaryBefore(s: string, i: nat)
  {
    i == 0 || (i <= |s| && !IsWordChar(s[i - 1]))
  }

  /** `\b` at `e` after a word character. */
  predicate BoundaryAfter(s: string, e: nat)
  {
    e >= |s| || !IsWordChar(s[e])
  }

  /** End of a match of `\b(uh|um|ah|you know|like)\b` at `i`. */
  function FillerAt(s: string, i: nat): (r: Option<nat>)
    ensures r.Some? ==> i < r.value <= |s|
  {
    if BoundaryBefore(s, i) then
      match WordAt(s, i, FillerWords)
      case Some(w) => if BoundaryAfter(s, i + |w|) then Some(i + |w|) else None
      case None => None
    else None
  }

  /** `s[i..]` with the filler words removed; `\b` looks at the original text. */
  function StripFillers(s: string, i: nat): string
    decreases |s| - i
  {
    if i >= |s| then []
    else
      match FillerAt(s, i)
      case Some(e) => StripFillers(s, e)
      case None => [s[i]] + StripFillers(s, i + 1)
  }

  /** `s[i..].replace(/\s{2,}/g, ' ')`: runs of two or more whitespace characters become one space. */
  function CollapseRuns(s: string, i: nat): string
    decreases |s| - i
  {
    if i >= |s| then []
    else if i + 1 < |s| && IsSpace(Js, s[i]) && IsSpace(Js, s[i + 1]) then [' '] + CollapseRuns(s, SpaceRunFrom(Js, s, i))
    else [s[i]] + CollapseRuns(s, i + 1)
  }

  /** `cleanText(s)` */
  function CleanText(s: string): string
  {
    if s == [] then []
    else
      var a := StripAnnotations(s, 0, '[', ']', BracketWords);
      var b := StripAnnotations(a, 0, '(', ')', ParenWords);
      var c := StripFillers(b, 0);
      Trim(Js, CollapseRuns(c, 0))
  }

  lemma {:induction false} CollapseRunsShape(s: string, i: nat)
    requires i <= |s|
    ensures var r := CollapseRuns(s, i);
      && |r| <= |s| - i
      && NoDoubleSpace(Js, r)
      && (i < |s| ==> r != [] && (IsSpace(Js, r[0]) <==> IsSpace(Js, s[i])))
    decreases |s| - i
  {
    if i < |s| {
      if i + 1 < |s| && IsSpace(Js, s[i]) && IsSpace(Js, s[i + 1]) {
        var e := SpaceRunFrom(Js, s, i);
        assert i + 2 <= e;
        CollapseRunsShape(s, e);
        var rest := CollapseRuns(s, e);
        assert CollapseRuns(s, i) == [' '] + rest;
        ConsNoDoubleSpace(' ', rest);
      } else {
        CollapseRunsShape(s, i + 1);
        var rest := CollapseRuns(s, i + 1);
        assert CollapseRuns(s, i) == [s[i]] + rest;
        ConsNoDoubleSpace(s[i], rest);
      }
    }
  }

  /** A character before a run without double whitespace keeps it so, unless both are whitespace. */
  lemma ConsNoDoubleSpace(c: char, rest: string)
    requires NoDoubleSpace(Js, rest)
    requires rest != [] && IsSpace(Js, c) ==> !IsSpace(Js, rest[0])
    ensures NoDoubleSpace(Js, [c] + rest)
  {
    assert forall k :: 1 <= k < |rest| + 1 ==> ([c] + rest)[k] == rest[k - 1];
  }

  lemma {:induction false} StripAnnotationsLength(s: string, i: nat, open: char, close: char, words: seq<string>)
    requires i <= |s|
    ensures |StripAnnotations(s, i, open, close, words)| <= |s| - i
    decreases |s| - i
  {
    if i < |s| {
      match AnnotationAt(s, i, open, close, words)
      case Some(e) => StripAnnotationsLength(s, e, open, close, words);
      case None => StripAnnotationsLength(s, i + 1, open, close, words);
    }
  }

  lemma {:induction false} StripFillersLength(s: string, i: nat)
    requires i <= |s|
    ensures |StripFillers(s, i)| <= |s| - i
    decreases |s| - i
  {
    if i < |s| {
      match FillerAt(s, i)
      case Some(e) => StripFillersLength(s, e);
      case None => StripFillersLength(s, i + 1);
    }
  }

  /**
   * Cleaned text is no longer than the input, has no whitespace at either
   * end and never two whitespace characters in a row.
   */
  lemma CleanTextShape(s: string)
    ensures var r := CleanText(s);
      && |r| <= |s| && NoDoubleSpace(Js, r)
      && (r != [] ==> !IsSpace(Js, r[0]) && !IsSpace(Js, r[|r| - 1]))
  {
    if s != [] {
      var a := StripAnnotations(s, 0, '[', ']', BracketWords);
      var b := StripAnnotations(a, 0, '(', ')', ParenWords);
      var c := StripFillers(b, 0);
      StripAnnotationsLength(s, 0, '[', ']', BracketWords);
      StripAnnotationsLength(a, 0, '(', ')', ParenWords);
      StripFillersLength(b, 0);
      CollapseRunsShape(c, 0);
      TrimShape(Js, CollapseRuns(c, 0));
      TrimNoDoubleSpace(Js, CollapseRuns(c, 0));
    }
  }

  /** Without the opening character no annotation is removed. */
  lemma {:induction false} StripAnnotationsAbsent(s: string, i: nat, open: char, close: char, words: seq<string>)
    requires i <= |s| && forall k :: i <= k < |s| ==> s[k] != open
    ensures StripAnnotations(s, i, open, close, words) == s[i..]
    decreases |s| - i
  {
    if i < |s| {
      StripAnnotationsAbsent(s, i + 1, open, close, words);
      assert s[i..] == [s[i]] + s[i + 1..];
    }
  }

  /** Where no filler word stands between word boundaries, nothing is removed. */
  lemma {:induction false} StripFillersAbsent(s: string, i: nat)
    requires i <= |s| && forall k :: i <= k < |s| ==> FillerAt(s, k).None?
    ensures StripFillers(s, i) == s[i..]
    decreases |s| - i
  {
    if i < |s| {
      StripFillersAbsent(s, i + 1);
      assert s[i..] == [s[i]] + s[i + 1..];
    }
  }

  lemma {:induction false} CollapseRunsAbsent(s: string, i: nat)
    requires i <= |s| && NoDoubleSpace(Js, s)
    ensures CollapseRuns(s, i) == s[i..]
    decreases |s| - i
  {
    if i < |s| {
      CollapseRunsAbsent(s, i + 1);
      assert s[i..] == [s[i]] + s[i + 1..];
    }
  }

  /**
   * Text that is already clean passes unchanged: no `[` or `(`, no filler word
   * between word boundaries, no double whitespace and nothing to trim.
   */
  lemma CleanTextKeepsCleanText(s: string)
    requires forall k :: 0 <= k < |s| ==> s[k] != '[' && s[k] != '('
    requires forall k :: 0 <= k < |s| ==> FillerAt(s, k).None?
    requires NoDoubleSpace(Js, s)
    requires s != [] ==> !IsSpace(Js, s[0]) && !IsSpace(Js, s[|s| - 1])
    ensures CleanText(s) == s
  {
    if s != [] {
      StripAnnotationsAbsent(s, 0, '[', ']', BracketWords);
      StripAnnotationsAbsent(s, 0, '(', ')', ParenWords);
      StripFillersAbsent(s, 0);
      CollapseRunsAbsent(s, 0);
      TrimOfTrimmed(Js, s);
    }
  }

  // ---------------------------------------------------------------------
  // mergeAdjacentSegments: `segs.sort((a, b) => a.startMs - b.startMs)`
  // in place, then a left-to-right fold into the output list.
  // ---------------------------------------------------------------------

  /** Ordered by start time. */
  predicate SortedByStart(s: seq<Segment>)
  {
    forall i, j :: 0 <= i < j < |s| ==> s[i].startMs <= s[j].startMs
  }

  /** Places `x` after every segment that starts no later than it. */
  function InsertByStart(x: Segment, s: seq<Segment>): seq<Segment>
  {
    if s == [] then [x]
    else if x.startMs < s[0].startMs then [x] + s
    else [s[0]] + InsertByStart(x, s[1..])
  }

  /**
   * `Array.prototype.sort` with the comparator `a.startMs - b.startMs`,
   * which is stable: segments with equal starts keep their order.
   */
  function SortByStart(s: seq<Segment>): seq<Segment>
  {
    if s == [] then [] else InsertByStart(s[|s| - 1], SortByStart(s[..|s| - 1]))
  }

  /** Every segment of `s` starts at `v` or later. */
  predicate StartsFrom(s: seq<Segment>, v: int)
  {
    forall j :: 0 <= j < |s| ==> v <= s[j].startMs
  }

  lemma {:induction false} InsertByStartFrom(x: Segment, s: seq<Segment>, v: int)
    requires StartsFrom(s, v) && v <= x.startMs
    ensures StartsFrom(InsertByStart(x, s), v)
  {
    if s != [] && x.startMs >= s[0].startMs {
      InsertByStartFrom(x, s[1..], v);
    }
  }

  lemma {:induction false} InsertByStartSorted(x: Segment, s: seq<Segment>)
    requires SortedByStart(s)
    ensures SortedByStart(InsertByStart(x, s))
  {
    if s != [] && x.startMs >= s[0].startMs {
      InsertByStartSorted(x, s[1..]);
      InsertByStartFrom(x, s[1..], s[0].startMs);
      var r := InsertByStart(x, s);
      assert r == [s[0]] + InsertByStart(x, s[1..]);
    }
  }

  lemma {:induction false} InsertByStartPerm(x: Segment, s: seq<Segment>)
    ensures multiset(InsertByStart(x, s)) == multiset(s) + multiset{x}
  {
    if s != [] && x.startMs >= s[0].startMs {
      InsertByStartPerm(x, s[1..]);
      assert s == [s[0]] + s[1..];
    }
  }

  /** The sorted list is ordered by start... */
  lemma {:induction false} SortByStartSorted(s: seq<Segment>)
    ensures SortedByStart(SortByStart(s))
  {
    if s != [] {
      SortByStartSorted(s[..|s| - 1]);
      InsertByStartSorted(s[|s| - 1], SortByStart(s[..|s| - 1]));
    }
  }

  /** ...and holds the same segments. */
  lemma {:induction false} SortByStartPerm(s: seq<Segment>)
    ensures multiset(SortByStart(s)) == multiset(s)
  {
    if s != [] {
      var init := s[..|s| - 1];
      SortByStartPerm(init);
      InsertByStartPerm(s[|s| - 1], SortByStart(init));
      assert s == init + [s[|s| - 1]];
    }
  }

  /** `Math.max`. */
  function Max(a: int, b: int): int
  {
    if a >= b then a else b
  }

  /** Whether `cur` is folded into `last`: small gap and combined text under 1000 characters. */
  predicate Mergeable(last: Segment, cur: Segment, maxGapMs: int)
  {
    cur.startMs - last.endMs <= maxGapMs && |last.text| + |cur.text| < 1000
  }

  /** `last` with `cur` folded in: the later end, the texts joined with single spaces and trimmed. */
  function Absorb(last: Segment, cur: Segment): Segment
  {
    Segment(last.startMs, Max(last.endMs, cur.endMs), Trim(Js, Collapse(Js, last.text + " " + cur.text)))
  }

  /** One step of the loop: fold `cur` into the last output segment or append it. */
  function MergeStep(out: seq<Segment>, cur: Segment, maxGapMs: int): (r: seq<Segment>)
    requires out != []
    ensures |out| <= |r| <= |out| + 1
  {
    var last := out[|out| - 1];
    if Mergeable(last, cur, maxGapMs) then out[..|out| - 1] + [Absorb(last, cur)]
    else out + [cur]
  }

  /** The output after the first `n` segments of the sorted list. */
  function MergeFold(s: seq<Segment>, n: nat, maxGapMs: int): (r: seq<Segment>)
    requires 1 <= n <= |s|
    ensures 1 <= |r| <= n
  {
    if n == 1 then [s[0]] else MergeStep(MergeFold(s, n - 1, maxGapMs), s[n - 1], maxGapMs)
  }

  lemma MergeFoldNext(s: seq<Segment>, n: nat, maxGapMs: int)
    requires 1 <= n < |s|
    ensures MergeFold(s, n + 1, maxGapMs) == MergeStep(MergeFold(s, n, maxGapMs), s[n], maxGapMs)
  {
  }

  /** The merge of an already sorted list: empty exactly for the empty list, and never longer than its input. */
  function Merged(s: seq<Segment>, maxGapMs: int): (r: seq<Segment>)
    ensures |r| <= |s|
    ensures r == [] <==> s == []
  {
    if s == [] then [] else MergeFold(s, |s|, maxGapMs)
  }

  /** The segments' texts run together, in order. */
  function AllText(s: seq<Segment>): string
  {
    if s == [] then [] else AllText(s[..|s| - 1]) + s[|s| - 1].text
  }

  lemma AllTextSnoc(s: seq<Segment>, x: Segment)
    ensures AllText(s + [x]) == AllText(s) + x.text
  {
    assert (s + [x])[..|s|] == s;
  }

  /** Folding a segment in loses no non-whitespace character and keeps them in order. */
  lemma AbsorbNonSpace(last: Segment, cur: Segment)
    ensures NonSpace(Js, Absorb(last, cur).text) == NonSpace(Js, last.text) + NonSpace(Js, cur.text)
  {
    var joined := last.text + " " + cur.text;
    TrimNonSpace(Js, Collapse(Js, joined));
    CollapseNonSpace(Js, joined);
    NonSpaceAppend(Js, last.text + " ", cur.text);
    NonSpaceAppend(Js, last.text, " ");
  }

  lemma MergeStepNonSpace(out: seq<Segment>, cur: Segment, maxGapMs: int)
    requires out != []
    ensures NonSpace(Js, AllText(MergeStep(out, cur, maxGapMs))) == NonSpace(Js, AllText(out) + cur.text)
  {
    var last := out[|out| - 1];
    if Mergeable(last, cur, maxGapMs) {
      var init := out[..|out| - 1];
      var m := Absorb(last, cur);
      AbsorbNonSpace(last, cur);
      ReplaceLastNonSpace(init, last, m, cur.text);
      assert AllText(out) == AllText(init) + last.text;
    } else {
      AllTextSnoc(out, cur);
    }
  }

  /** Replacing the last segment by one whose text reads as its text followed by `t`. */
  lemma ReplaceLastNonSpace(init: seq<Segment>, last: Segment, m: Segment, t: string)
    requires NonSpace(Js, m.text) == NonSpace(Js, last.text) + NonSpace(Js, t)
    ensures NonSpace(Js, AllText(init + [m])) == NonSpace(Js, AllText(init) + last.text + t)
  {
    var a := AllText(init);
    AllTextSnoc(init, m);
    calc {
      NonSpace(Js, AllText(init + [m]));
      NonSpace(Js, a + m.text);
      { NonSpaceAppend(Js, a, m.text); }
      NonSpace(Js, a) + NonSpace(Js, m.text);
      NonSpace(Js, a) + NonSpace(Js, last.text) + NonSpace(Js, t);
      { NonSpaceAppend(Js, a, last.text); }
      NonSpace(Js, a + last.text) + NonSpace(Js, t);
      { NonSpaceAppend(Js, a + last.text, t); }
      NonSpace(Js, a + last.text + t);
    }
  }

  lemma AllTextPrefix(s: seq<Segment>, n: nat)
    requires 1 <= n <= |s|
    ensures AllText(s[..n]) == AllText(s[..n - 1]) + s[n - 1].text
  {
    assert s[..n] == s[..n - 1] + [s[n - 1]];
    AllTextSnoc(s[..n - 1], s[n - 1]);
  }

  /** Whitespace aside, the merge of the first `n` segments reads as those segments. */
  ghost predicate FoldKeepsText(s: seq<Segment>, n: nat, maxGapMs: int)
    requires 1 <= n <= |s|
  {
    NonSpace(Js, AllText(MergeFold(s, n, maxGapMs))) == NonSpace(Js, AllText(s[..n]))
  }

  lemma {:induction false} MergeFoldNonSpace(s: seq<Segment>, n: nat, maxGapMs: int)
    requires 1 <= n <= |s|
    ensures FoldKeepsText(s, n, maxGapMs)
  {
    if n == 1 {
      MergeFoldFirst(s, maxGapMs);
    } else {
      MergeFoldNonSpace(s, n - 1, maxGapMs);
      MergeFoldNonSpaceStep(s, n, maxGapMs);
    }
  }

  lemma MergeFoldFirst(s: seq<Segment>, maxGapMs: int)
    requires 1 <= |s|
    ensures FoldKeepsText(s, 1, maxGapMs)
  {
    assert s[..1] == [s[0]];
    assert MergeFold(s, 1, maxGapMs) == [s[0]];
  }

  lemma MergeFoldNonSpaceStep(s: seq<Segment>, n: nat, maxGapMs: int)
    requires 2 <= n <= |s|
    requires FoldKeepsText(s, n - 1, maxGapMs)
    ensures FoldKeepsText(s, n, maxGapMs)
  {
    var prev := MergeFold(s, n - 1, maxGapMs);
    var t := s[n - 1].text;
    calc {
      NonSpace(Js, AllText(MergeFold(s, n, maxGapMs)));
      { MergeFoldNext(s, n - 1, maxGapMs); }
      NonSpace(Js, AllText(MergeStep(prev, s[n - 1], maxGapMs)));
      { MergeStepNonSpace(prev, s[n - 1], maxGapMs); }
      NonSpace(Js, AllText(prev) + t);
      { NonSpaceAppend(Js, AllText(prev), t); }
      NonSpace(Js, AllText(prev)) + NonSpace(Js, t);
      NonSpace(Js, AllText(s[..n - 1])) + NonSpace(Js, t);
      { NonSpaceAppend(Js, AllText(s[..n - 1]), t); }
      NonSpace(Js, AllText(s[..n - 1]) + t);
      { AllTextPrefix(s, n); }
      NonSpace(Js, AllText(s[..n]));
    }
  }

  /** Merging drops no text: apart from whitespace, the output reads exactly as the input. */
  lemma MergedNonSpace(s: seq<Segment>, maxGapMs: int)
    ensures NonSpace(Js, AllText(Merged(s, maxGapMs))) == NonSpace(Js, AllText(s))
  {
    if s != [] {
      MergeFoldNonSpace(s, |s|, maxGapMs);
      assert FoldKeepsText(s, |s|, maxGapMs);
      assert s[..|s|] == s;
    }
  }

  lemma {:induction false} MergeFoldSorted(s: seq<Segment>, n: nat, maxGapMs: int)
    requires 1 <= n <= |s| && SortedByStart(s)
    ensures SortedByStart(MergeFold(s, n, maxGapMs))
    ensures MergeFold(s, n, maxGapMs)[|MergeFold(s, n, maxGapMs)| - 1].startMs <= s[n - 1].startMs
  {
    if n > 1 {
      MergeFoldSorted(s, n - 1, maxGapMs);
      MergeFoldNext(s, n - 1, maxGapMs);
      MergeStepSorted(MergeFold(s, n - 1, maxGapMs), s[n - 1], maxGapMs);
    }
  }

  /** Appending a segment that starts no earlier than the last one, or folding it in, keeps the order. */
  lemma MergeStepSorted(out: seq<Segment>, cur: Segment, maxGapMs: int)
    requires out != [] && SortedByStart(out) && out[|out| - 1].startMs <= cur.startMs
    ensures SortedByStart(MergeStep(out, cur, maxGapMs))
    ensures MergeStep(out, cur, maxGapMs)[|MergeStep(out, cur, maxGapMs)| - 1].startMs <= cur.startMs
  {
    var r := MergeStep(out, cur, maxGapMs);
    if Mergeable(out[|out| - 1], cur, maxGapMs) {
      assert forall j :: 0 <= j < |r| ==> r[j].startMs == out[j].startMs;
    } else {
      assert forall j :: 0 <= j < |out| ==> r[j] == out[j];
    }
  }

  /** Merging a sorted list keeps it ordered by start. */
  lemma MergedSorted(s: seq<Segment>, maxGapMs: int)
    requires SortedByStart(s)
    ensures SortedByStart(Merged(s, maxGapMs))
  {
    if s != [] {
      MergeFoldSorted(s, |s|, maxGapMs);
    }
  }

  /** Overwrites the array with its stable sort by start: the library sort, by its result. */
  method SortSegments(a: array<Segment>)
    modifies a
    ensures a[..] == SortByStart(old(a[..]))
  {
    var sorted := SortByStart(a[..]);
    SortByStartPerm(a[..]);
    assert |sorted| == a.Length by {
      assert |multiset(sorted)| == |multiset(a[..])|;
    }
    forall i | 0 <= i < a.Length {
      a[i] := sorted[i];
    }
  }

  /**
   * `mergeAdjacentSegments(segs, maxGapMs)`: sorts `segs` in place by start,
   * then folds each segment into the previous output segment when the gap is
   * at most `maxGapMs` and the texts together stay under 1000 characters.
   */
  method MergeAdjacentSegments(segs: array<Segment>, maxGapMs: int) returns (out: seq<Segment>)
    modifies segs
    ensures segs[..] == SortByStart(old(segs[..]))
    ensures out == Merged(segs[..], maxGapMs)
  {
    if segs.Length == 0 {
      return [];
    }
    SortSegments(segs);
    out := MergeSorted(segs[..], maxGapMs);
  }

  /** The loop of `mergeAdjacentSegments` over the sorted, non-empty list. */
  method MergeSorted(s: seq<Segment>, maxGapMs: int) returns (out: seq<Segment>)
    requires s != []
    ensures out == Merged(s, maxGapMs)
  {
    out := [s[0]];
    assert out == MergeFold(s, 1, maxGapMs);
    var i := 1;
    while i < |s|
      invariant 1 <= i <= |s|
      invariant out == MergeFold(s, i, maxGapMs)
    {
      out := MergeNext(s, i, out, maxGapMs);
      i := i + 1;
    }
    assert Merged(s, maxGapMs) == MergeFold(s, |s|, maxGapMs);
  }

  /** One pass of the loop: segment `i` folded into the output of the segments before it. */
  method MergeNext(s: seq<Segment>, i: nat, out: seq<Segment>, maxGapMs: int) returns (next: seq<Segment>)
    requires 1 <= i < |s| && out == MergeFold(s, i, maxGapMs)
    ensures next == MergeFold(s, i + 1, maxGapMs)
  {
    MergeFoldNext(s, i, maxGapMs);
    next := MergeStep(out, s[i], maxGapMs);
  }

  /** What the merge returns is ordered by start and reads, whitespace aside, as the sorted input. */
  lemma MergeAdjacentSegmentsResult(input: seq<Segment>, maxGapMs: int)
    ensures SortedByStart(Merged(SortByStart(input), maxGapMs))
    ensures NonSpace(Js, AllText(Merged(SortByStart(input), maxGapMs))) == NonSpace(Js, AllText(SortByStart(input)))
    ensures |Merged(SortByStart(input), maxGapMs)| <= |input|
  {
    SortByStartSorted(input);
    SortByStartPerm(input);
    MergedSorted(SortByStart(input), maxGapMs);
    MergedNonSpace(SortByStart(input), maxGapMs);
    assert |multiset(SortByStart(input))| == |multiset(input)|;
  }

  // ---------------------------------------------------------------------
  // normalizeEvents
  // ---------------------------------------------------------------------

  /**
   * A caption event as the timed-text JSON gives it: `tStartMs`,
   * `dDurationMs` and the `utf8` of each entry of `segs`, each possibly absent.
   */
  datatype RawEvent = RawEvent(tStartMs: Option<int>, dDurationMs: Option<int>, segs: Option<seq<Option<string>>>)

  /** `x || 0` on a number: absent (or zero) reads as 0. */
  function NumberOrZero(x: Option<int>): int
  {
    if x.Some? then x.value else 0
  }

  /** `(ev.segs || []).map(s => s.utf8 || '').join(' ')` */
  function JoinedUtf8(ev: RawEvent): string
  {
    var segs := ev.segs.GetOr([]);
    Join(" ", seq(|segs|, i requires 0 <= i < |segs| => segs[i].GetOr("")))
  }

  /** The joined text with whitespace runs made single spaces and the ends trimmed. */
  function EventText(ev: RawEvent): string
  {
    Trim(Js, Collapse(Js, JoinedUtf8(ev)))
  }

  /** The segment an event contributes, if its text is not empty. */
  function EventSegment(ev: RawEvent): Option<Segment>
  {
    var text := EventText(ev);
    if text == [] then None
    else
      var start := NumberOrZero(ev.tStartMs);
      Some(Segment(start, start + NumberOrZero(ev.dDurationMs), text))
  }

  /** The segments the loop of `normalizeEvents` collects, in event order. */
  function EventSegments(events: seq<RawEvent>): seq<Segment>
  {
    if events == [] then []
    else
      var init := EventSegments(events[..|events| - 1]);
      match EventSegment(events[|events| - 1])
      case None => init
      case Some(seg) => init + [seg]
  }

  lemma EventSegmentsNext(events: seq<RawEvent>, i: nat)
    requires i < |events|
    ensures EventSegments(events[..i + 1]) ==
      EventSegments(events[..i]) + (if EventSegment(events[i]).Some? then [EventSegment(events[i]).value] else [])
  {
    assert events[..i + 1][..i] == events[..i];
  }

  /** The loop of `normalizeEvents`: the segments of the events with non-empty text. */
  method CollectEventSegments(events: seq<RawEvent>) returns (segs: seq<Segment>)
    ensures segs == EventSegments(events)
  {
    segs := [];
    var i := 0;
    while i < |events|
      invariant 0 <= i <= |events|
      invariant segs == EventSegments(events[..i])
    {
      EventSegmentsNext(events, i);
      var ev := events[i];
      var text := Trim(Js, Collapse(Js, JoinedUtf8(ev)));
      if text != [] {
        var start := NumberOrZero(ev.tStartMs);
        var end := start + NumberOrZero(ev.dDurationMs);
        segs := segs + [Segment(start, end, text)];
      }
      i := i + 1;
    }
    assert events[..|events|] == events;
  }

  /**
   * `normalizeEvents(events)`: one segment per event with non-blank text,
   * then `mergeAdjacentSegments` with a 1000 ms gap.
   */
  method NormalizeEvents(events: seq<RawEvent>) returns (out: seq<Segment>)
    ensures out == Merged(SortByStart(EventSegments(events)), 1000)
  {
    var segs := CollectEventSegments(events);
    var a := new Segment[|segs|](k requires 0 <= k < |segs| => segs[k]);
    assert a[..] == segs;
    out := MergeAdjacentSegments(a, 1000);
  }

  /** A text segment as `normalizeEvents` builds them: non-empty, trimmed, single-spaced. */
  predicate CleanSegmentText(t: string)
  {
    t != [] && !IsSpace(Js, t[0]) && !IsSpace(Js, t[|t| - 1]) && NoDoubleSpace(Js, t)
  }

  /** An event is dropped exactly when its joined text is blank. */
  lemma EventDropped(ev: RawEvent)
    ensures EventSegment(ev).None? <==> IsBlank(Js, JoinedUtf8(ev))
  {
    var j := JoinedUtf8(ev);
    var c := Collapse(Js, j);
    TrimShape(Js, c);
    TrimNonSpace(Js, c);
    NonSpaceBlank(Js, Trim(Js, c));
    CollapseNonSpace(Js, j);
    NonSpaceBlank(Js, j);
  }

  /**
   * A kept event's segment ends `dDurationMs` after it starts, and its text
   * is clean and keeps every non-whitespace character of the joined text.
   */
  lemma EventSegmentShape(ev: RawEvent)
    requires EventSegment(ev).Some?
    ensures var seg := EventSegment(ev).value;
      && seg.startMs == NumberOrZero(ev.tStartMs)
      && seg.endMs == seg.startMs + NumberOrZero(ev.dDurationMs)
      && CleanSegmentText(seg.text)
      && NonSpace(Js, seg.text) == NonSpace(Js, JoinedUtf8(ev))
  {
    var j := JoinedUtf8(ev);
    var c := Collapse(Js, j);
    TrimShape(Js, c);
    TrimNonSpace(Js, c);
    CollapseNonSpace(Js, j);
    CollapseNoDoubleSpace(Js, j);
    TrimNoDoubleSpace(Js, c);
  }

  /** Every collected segment has clean text, and there is at most one per event. */
  lemma {:induction false} EventSegmentsShape(events: seq<RawEvent>)
    ensures |EventSegments(events)| <= |events|
    ensures forall k :: 0 <= k < |EventSegments(events)| ==> CleanSegmentText(EventSegments(events)[k].text)
  {
    if events != [] {
      EventSegmentsShape(events[..|events| - 1]);
      if EventSegment(events[|events| - 1]).Some? {
        EventSegmentShape(events[|events| - 1]);
      }
    }
  }

  // ---------------------------------------------------------------------
  // chunkSegments
  // ---------------------------------------------------------------------

  /** `s.slice(start)`: a negative start counts from the end (and `-0` is `0`). */
  function SliceFrom(s: string, start: int): string
  {
    if start < 0 then (if |s| + start > 0 then s[|s| + start..] else s)
    else if start <= |s| then s[start..] else []
  }

  /** A negative start keeps the last `-start` characters, or all of them when there are fewer. */
  lemma SliceFromEnd(s: string, k: int)
    requires k > 0
    ensures SliceFrom(s, -k) == if k >= |s| then s else s[|s| - k..]
    ensures SliceFrom(s, 0) == s
  {
  }

  /** The variables of the loop of `chunkSegments`. */
  datatype ChunkState = ChunkState(chunks: seq<Segment>, buffer: string, bufferStart: int, bufferEnd: int)

  /**
   * One iteration, given the segment `seg` and its cleaned text `t`: skip an
   * empty `t`, else close the buffer when it would overflow or append to it.
   */
  function ChunkStep(st: ChunkState, seg: Segment, t: string, maxChars: int, overlapChars: int): ChunkState
  {
    if t == [] then st
    else
      var start := if st.buffer == [] then seg.startMs else st.bufferStart;
      if |st.buffer| + 1 + |t| > maxChars then
        ChunkState(st.chunks + [Segment(start, seg.endMs, Trim(Js, st.buffer))],
          Trim(Js, SliceFrom(st.buffer, -overlapChars) + " " + t), seg.startMs, seg.endMs)
      else
        ChunkState(st.chunks, st.buffer + (if st.buffer != [] then " " else "") + t, start, seg.endMs)
  }

  /** The state before the loop: no chunks, an empty buffer timed at the first segment's start (or 0). */
  function ChunkStart(segments: seq<Segment>): ChunkState
  {
    var start := if segments != [] then segments[0].startMs else 0;
    ChunkState([], "", start, start)
  }

  /** The cleaned text of each segment. */
  function CleanTexts(segments: seq<Segment>): (r: seq<string>)
    ensures |r| == |segments|
  {
    seq(|segments|, i requires 0 <= i < |segments| => CleanText(segments[i].text))
  }

  /** The state after the first `n` segments, whose cleaned texts are `texts`. */
  function ChunkFold(segments: seq<Segment>, texts: seq<string>, n: nat, maxChars: int, overlapChars: int): ChunkState
    requires n <= |segments| == |texts|
  {
    if n == 0 then ChunkStart(segments)
    else ChunkStep(ChunkFold(segments, texts, n - 1, maxChars, overlapChars), segments[n - 1], texts[n - 1], maxChars, overlapChars)
  }

  /** After the loop: a buffer that is not blank becomes the last chunk. */
  function ChunkFinish(st: ChunkState): seq<Segment>
  {
    if !IsBlank(Js, st.buffer) then st.chunks + [Segment(st.bufferStart, st.bufferEnd, Trim(Js, st.buffer))]
    else st.chunks
  }

  /** `chunkSegments(segments, maxChars, overlapChars)` */
  function Chunks(segments: seq<Segment>, maxChars: int, overlapChars: int): seq<Segment>
  {
    ChunkFinish(ChunkFold(segments, CleanTexts(segments), |segments|, maxChars, overlapChars))
  }

  lemma ChunkFoldNext(segments: seq<Segment>, texts: seq<string>, n: nat, maxChars: int, overlapChars: int)
    requires n < |segments| == |texts|
    ensures ChunkFold(segments, texts, n + 1, maxChars, overlapChars) ==
      ChunkStep(ChunkFold(segments, texts, n, maxChars, overlapChars), segments[n], texts[n], maxChars, overlapChars)
  {
  }

  /**
   * `chunkSegments`: cleans each segment's text, skips empty ones, and fills
   * a buffer up to `maxChars`; a segment that would overflow it closes the
   * buffer as a chunk and starts the next one with the last `overlapChars`
   * characters of the old buffer.
   */
  method ChunkSegments(segments: seq<Segment>, maxChars: int, overlapChars: int) returns (chunks: seq<Segment>)
    ensures chunks == Chunks(segments, maxChars, overlapChars)
  {
    var st := ChunkStart(segments);
    var i := 0;
    ghost var texts := CleanTexts(segments);
    while i < |segments|
      invariant 0 <= i <= |segments|
      invariant st == ChunkFold(segments, texts, i, maxChars, overlapChars)
    {
      ChunkFoldNext(segments, texts, i, maxChars, overlapChars);
      st := ChunkSegment(st, segments[i], maxChars, overlapChars);
      i := i + 1;
    }
    chunks := st.chunks;
    if !IsBlank(Js, st.buffer) {
      chunks := chunks + [Segment(st.bufferStart, st.bufferEnd, Trim(Js, st.buffer))];
    }
  }

  /** The body of the loop of `chunkSegments` for one segment `s`. */
  method ChunkSegment(st: ChunkState, s: Segment, maxChars: int, overlapChars: int) returns (next: ChunkState)
    ensures next == ChunkStep(st, s, CleanText(s.text), maxChars, overlapChars)
  {
    var chunks, buffer, bufferStart, bufferEnd := st.chunks, st.buffer, st.bufferStart, st.bufferEnd;
    var t := CleanText(s.text);
    if t != [] {
      if buffer == [] {
        bufferStart := s.startMs;
      }
      if |buffer| + 1 + |t| > maxChars {
        bufferEnd := s.endMs;
        chunks := chunks + [Segment(bufferStart, bufferEnd, Trim(Js, buffer))];
        var overlap := SliceFrom(buffer, -overlapChars);
        buffer := Trim(Js, overlap + " " + t);
        bufferStart := s.startMs;
        bufferEnd := s.endMs;
      } else {
        buffer := buffer + (if buffer != [] then " " else "") + t;
        bufferEnd := s.endMs;
      }
    }
    next := ChunkState(chunks, buffer, bufferStart, bufferEnd);
  }

  /** `x` occurs in `s` at `p`, so `s` contains it. */
  lemma ContainsAt(s: string, x: string, p: nat)
    requires OccursAt(s, x, p)
    ensures Contains(s, x)
  {
  }

  lemma ContainsExtend(a: string, b: string, x: string)
    requires Contains(a, x)
    ensures Contains(a + b, x)
  {
    var p: nat :| p <= |a| && OccursAt(a, x, p);
    assert (a + b)[p..p + |x|] == a[p..p + |x|];
    ContainsAt(a + b, x, p);
  }

  lemma ContainsSuffix(a: string, x: string)
    ensures Contains(a + x, x)
  {
    assert (a + x)[|a|..|a| + |x|] == x;
    ContainsAt(a + x, x, |a|);
  }

  /** A string containing a piece that starts with non-whitespace is not blank. */
  lemma ContainsNotBlank(s: string, x: string)
    requires Contains(s, x) && x != [] && !IsSpace(Js, x[0])
    ensures !IsBlank(Js, s)
  {
    var p: nat :| p <= |s| && OccursAt(s, x, p);
    assert s[p] == s[p..p + |x|][0];
  }

  /** A piece with non-whitespace ends survives stripping. */
  lemma ContainsTrim(s: string, x: string)
    requires Contains(s, x) && x != [] && !IsSpace(Js, x[0]) && !IsSpace(Js, x[|x| - 1])
    ensures Contains(Trim(Js, s), x)
  {
    var p: nat :| p <= |s| && OccursAt(s, x, p);
    TrimKeepsInner(Js, s, x, p);
  }

  /** A cleaned text that is not empty: what the chunks must keep. */
  predicate Kept(x: string)
  {
    x != [] && Trimmed(x)
  }

  lemma CleanTextKept(s: string)
    ensures CleanText(s) != [] ==> Kept(CleanText(s))
  {
    CleanTextShape(s);
  }

  /** Some chunk's text contains `x`. */
  ghost predicate InChunks(chunks: seq<Segment>, x: string)
  {
    exists k :: 0 <= k < |chunks| && Contains(chunks[k].text, x)
  }

  /** `x` is in a closed chunk or still in the buffer. */
  ghost predicate Covered(st: ChunkState, x: string)
  {
    InChunks(st.chunks, x) || Contains(st.buffer, x)
  }

  lemma InChunksExtend(chunks: seq<Segment>, c: Segment, x: string)
    requires InChunks(chunks, x) || Contains(c.text, x)
    ensures InChunks(chunks + [c], x)
  {
    if InChunks(chunks, x) {
      var k :| 0 <= k < |chunks| && Contains(chunks[k].text, x);
      assert (chunks + [c])[k] == chunks[k];
    } else {
      assert (chunks + [c])[|chunks|] == c;
    }
  }

  /** The text a step adds ends up in the new buffer. */
  lemma ChunkStepAdds(st: ChunkState, seg: Segment, t: string, maxChars: int, overlapChars: int)
    requires Kept(t)
    ensures Contains(ChunkStep(st, seg, t, maxChars, overlapChars).buffer, t)
  {
    if |st.buffer| + 1 + |t| > maxChars {
      var u := SliceFrom(st.buffer, -overlapChars) + " " + t;
      ContainsSuffix(SliceFrom(st.buffer, -overlapChars) + " ", t);
      ContainsTrim(u, t);
    } else {
      ContainsSuffix(st.buffer + (if st.buffer != [] then " " else ""), t);
    }
  }

  /** A text already kept stays kept: in the chunks, or in the buffer, or in the chunk the buffer becomes. */
  lemma ChunkStepKeeps(st: ChunkState, seg: Segment, t: string, maxChars: int, overlapChars: int, x: string)
    requires Kept(x) && Covered(st, x)
    ensures Covered(ChunkStep(st, seg, t, maxChars, overlapChars), x)
  {
    if t != [] {
      var start := if st.buffer == [] then seg.startMs else st.bufferStart;
      if |st.buffer| + 1 + |t| > maxChars {
        if Contains(st.buffer, x) {
          ContainsTrim(st.buffer, x);
        }
        InChunksExtend(st.chunks, Segment(start, seg.endMs, Trim(Js, st.buffer)), x);
      } else if Contains(st.buffer, x) {
        ContainsExtend(st.buffer, (if st.buffer != [] then " " else "") + t, x);
        assert st.buffer + ((if st.buffer != [] then " " else "") + t) == st.buffer + (if st.buffer != [] then " " else "") + t;
      }
    }
  }

  /**
   * After `n` segments, the text of each earlier segment is covered, when it
   * is kept (not empty, with non-whitespace ends).
   */
  lemma {:induction false} ChunkFoldCovers(segments: seq<Segment>, texts: seq<string>, n: nat, maxChars: int, overlapChars: int, j: nat)
    requires j < n <= |segments| == |texts| && Kept(texts[j])
    ensures Covered(ChunkFold(segments, texts, n, maxChars, overlapChars), texts[j])
  {
    var prev := ChunkFold(segments, texts, n - 1, maxChars, overlapChars);
    if j == n - 1 {
      ChunkStepAdds(prev, segments[n - 1], texts[n - 1], maxChars, overlapChars);
    } else {
      ChunkFoldCovers(segments, texts, n - 1, maxChars, overlapChars, j);
      ChunkStepKeeps(prev, segments[n - 1], texts[n - 1], maxChars, overlapChars, texts[j]);
    }
  }

  lemma ChunkFinishCovers(st: ChunkState, x: string)
    requires Kept(x) && Covered(st, x)
    ensures InChunks(ChunkFinish(st), x)
  {
    if Contains(st.buffer, x) {
      ContainsNotBlank(st.buffer, x);
      ContainsTrim(st.buffer, x);
    }
    if !IsBlank(Js, st.buffer) {
      InChunksExtend(st.chunks, Segment(st.bufferStart, st.bufferEnd, Trim(Js, st.buffer)), x);
    }
  }

  /**
   * Nothing is dropped: the cleaned text of every segment, when not empty,
   * appears whole in some chunk.
   */
  lemma ChunksKeepEveryText(segments: seq<Segment>, maxChars: int, overlapChars: int, j: nat)
    requires j < |segments| && CleanText(segments[j].text) != []
    ensures InChunks(Chunks(segments, maxChars, overlapChars), CleanText(segments[j].text))
  {
    var texts := CleanTexts(segments);
    assert texts[j] == CleanText(segments[j].text);
    CleanTextKept(segments[j].text);
    ChunkFoldCovers(segments, texts, |segments|, maxChars, overlapChars, j);
    ChunkFinishCovers(ChunkFold(segments, texts, |segments|, maxChars, overlapChars), texts[j]);
  }

  /** No leading or trailing whitespace: what `trim()` leaves. */
  predicate Trimmed(s: string)
  {
    s == [] || (!IsSpace(Js, s[0]) && !IsSpace(Js, s[|s| - 1]))
  }

  predicate AllTrimmed(chunks: seq<Segment>)
  {
    forall k :: 0 <= k < |chunks| ==> Trimmed(chunks[k].text)
  }

  lemma TrimTrimmed(s: string)
    ensures Trimmed(Trim(Js, s))
  {
    TrimShape(Js, s);
  }

  lemma AllTrimmedPush(chunks: seq<Segment>, c: Segment)
    requires AllTrimmed(chunks) && Trimmed(c.text)
    ensures AllTrimmed(chunks + [c])
  {
    forall k | 0 <= k < |chunks| + 1
      ensures Trimmed((chunks + [c])[k].text)
    {
      if k < |chunks| {
        assert (chunks + [c])[k] == chunks[k];
      }
    }
  }

  /** A step only appends to the chunks, and what it appends is trimmed. */
  lemma ChunkStepChunks(st: ChunkState, seg: Segment, t: string, maxChars: int, overlapChars: int)
    ensures st.chunks <= ChunkStep(st, seg, t, maxChars, overlapChars).chunks
    ensures AllTrimmed(st.chunks) ==> AllTrimmed(ChunkStep(st, seg, t, maxChars, overlapChars).chunks)
  {
    if t != [] && |st.buffer| + 1 + |t| > maxChars {
      var start := if st.buffer == [] then seg.startMs else st.bufferStart;
      TrimTrimmed(st.buffer);
      if AllTrimmed(st.chunks) {
        AllTrimmedPush(st.chunks, Segment(start, seg.endMs, Trim(Js, st.buffer)));
      }
    }
  }

  /** The chunks closed after `m` segments stay, in order, at the front of those closed after `n >= m`; all of them are trimmed. */
  lemma {:induction false} ChunkFoldChunks(segments: seq<Segment>, texts: seq<string>, m: nat, n: nat, maxChars: int, overlapChars: int)
    requires m <= n <= |segments| == |texts|
    ensures ChunkFold(segments, texts, m, maxChars, overlapChars).chunks <= ChunkFold(segments, texts, n, maxChars, overlapChars).chunks
    ensures AllTrimmed(ChunkFold(segments, texts, n, maxChars, overlapChars).chunks)
  {
    if n > 0 {
      ChunkFoldChunks(segments, texts, if m == n then n - 1 else m, n - 1, maxChars, overlapChars);
      ChunkStepChunks(ChunkFold(segments, texts, n - 1, maxChars, overlapChars), segments[n - 1], texts[n - 1], maxChars, overlapChars);
    }
  }

  /** Every chunk's text is trimmed. */
  lemma ChunksTrimmed(segments: seq<Segment>, maxChars: int, overlapChars: int)
    ensures AllTrimmed(Chunks(segments, maxChars, overlapChars))
  {
    var st := ChunkFold(segments, CleanTexts(segments), |segments|, maxChars, overlapChars);
    ChunkFoldChunks(segments, CleanTexts(segments), 0, |segments|, maxChars, overlapChars);
    if !IsBlank(Js, st.buffer) {
      TrimTrimmed(st.buffer);
      AllTrimmedPush(st.chunks, Segment(st.bufferStart, st.bufferEnd, Trim(Js, st.buffer)));
    }
  }

  /**
   * A first kept segment whose cleaned text alone reaches `maxChars` closes
   * the still empty buffer: the first chunk has empty text.
   */
  lemma ChunksFirstOverflowEmpty(segments: seq<Segment>, maxChars: int, overlapChars: int)
    requires segments != [] && CleanText(segments[0].text) != [] && |CleanText(segments[0].text)| >= maxChars
    ensures Chunks(segments, maxChars, overlapChars) != []
    ensures Chunks(segments, maxChars, overlapChars)[0] == Segment(segments[0].startMs, segments[0].endMs, [])
  {
    var texts := CleanTexts(segments);
    var st := ChunkFold(segments, texts, |segments|, maxChars, overlapChars);
    assert texts[0] == CleanText(segments[0].text);
    assert ChunkFold(segments, texts, 1, maxChars, overlapChars).chunks == [Segment(segments[0].startMs, segments[0].endMs, [])];
    ChunkFoldChunks(segments, texts, 1, |segments|, maxChars, overlapChars);
    assert st.chunks[0] == Segment(segments[0].startMs, segments[0].endMs, []);
  }
}
