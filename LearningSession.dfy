/**
 * The transcript handling of the learning session page
 * (`components/LearningSession.tsx`): splitting a transcript into
 * paragraph-aligned chunks, ranking chunks by keyword occurrences, and the
 * reductions applied before a transcript is sent along with a quiz request
 * or a chat message.
 */
module LearningSession {
  import opened Wrappers
  import opened Text
  import Transcript

  // ---------------------------------------------------------------------
  // text.split(/\n\s*\n/)
  // ---------------------------------------------------------------------

  /** The last line feed in `s[lo..hi]`. */
  function LastNewline(s: string, lo: nat, hi: nat): (r: Option<nat>)
    requires lo <= hi <= |s|
    ensures r.Some? ==> lo <= r.value < hi && s[r.value] == '\n'
    ensures r.Some? ==> forall k :: r.value < k < hi ==> s[k] != '\n'
    ensures r.None? ==> forall k :: lo <= k < hi ==> s[k] != '\n'
    decreases hi - lo
  {
    if hi == lo then None
    else if s[hi - 1] == '\n' then Some(hi - 1)
    else LastNewline(s, lo, hi - 1)
  }

  /**
   * End of a match of `\n\s*\n` at `i`: a line feed, then the longest run of
   * whitespace that is followed by a line feed, then that line feed. The
   * whole match is whitespace.
   */
  function BlankLineAt(s: string, i: nat): (r: Option<nat>)
    requires i <= |s|
    ensures r.Some? ==> i + 2 <= r.value <= |s| && IsBlank(Js, s[i..r.value])
  {
    if i < |s| && s[i] == '\n' then
      var e := SpaceRunFrom(Js, s, i + 1);
      match LastNewline(s, i + 1, e)
      case None => None
      case Some(k) =>
        assert IsSpace(Js, s[i]);
        assert forall j :: i <= j < k + 1 ==> s[i..k + 1][j - i] == s[j];
        Some(k + 1)
    else None
  }

  /** The pieces of `s[start..]` between matches, looking for the next match from `i`. */
  function SplitFrom(s: string, start: nat, i: nat): (r: seq<string>)
    requires start <= i <= |s|
    ensures r != []
    decreases |s| - i
  {
    if i == |s| then [s[start..]]
    else match BlankLineAt(s, i)
      case Some(e) => [s[start..i]] + SplitFrom(s, e, e)
      case None => SplitFrom(s, start, i + 1)
  }

  /** `text.split(/\n\s*\n/)` */
  function SplitBlankLines(s: string): seq<string>
  {
    SplitFrom(s, 0, 0)
  }

  /** A match and the piece before it lose no non-whitespace character. */
  lemma SplitPieceNonSpace(s: string, start: nat, i: nat, e: nat, rest: string)
    requires start <= i <= e <= |s| && IsBlank(Js, s[i..e]) && NonSpace(Js, rest) == NonSpace(Js, s[e..])
    ensures NonSpace(Js, s[start..i] + rest) == NonSpace(Js, s[start..])
  {
    assert s[start..] == s[start..i] + s[i..e] + s[e..];
    NonSpaceAppend(Js, s[start..i] + s[i..e], s[e..]);
    NonSpaceAppend(Js, s[start..i], s[i..e]);
    NonSpaceBlank(Js, s[i..e]);
    NonSpaceAppend(Js, s[start..i], rest);
  }

  /** The separators are whitespace: splitting keeps every other character, in order. */
  lemma {:induction false} SplitFromNonSpace(s: string, start: nat, i: nat)
    requires start <= i <= |s|
    ensures NonSpace(Js, Concat(SplitFrom(s, start, i))) == NonSpace(Js, s[start..])
    decreases |s| - i
  {
    var r := SplitFrom(s, start, i);
    if i == |s| {
      assert r == [s[start..]];
      assert r[1..] == [];
      assert Concat(r) == s[start..] + Concat([]);
      assert s[start..] + [] == s[start..];
    } else {
      match BlankLineAt(s, i)
      case Some(e) =>
        SplitFromNonSpace(s, e, e);
        assert r[1..] == SplitFrom(s, e, e);
        SplitPieceNonSpace(s, start, i, e, Concat(r[1..]));
      case None =>
        SplitFromNonSpace(s, start, i + 1);
    }
  }

  lemma SplitNonSpace(s: string)
    ensures NonSpace(Js, Concat(SplitBlankLines(s))) == NonSpace(Js, s)
  {
    SplitFromNonSpace(s, 0, 0);
  }

  // ---------------------------------------------------------------------
  // chunkTranscript
  // ---------------------------------------------------------------------

  const NoTranscriptChunk: string := "No transcript available"

  /** `.filter(p => p.trim())` */
  function NonBlank(ps: seq<string>): (r: seq<string>)
    ensures |r| <= |ps|
    ensures forall k :: 0 <= k < |r| ==> !IsBlank(Js, r[k])
  {
    if ps == [] then []
    else if IsBlank(Js, ps[|ps| - 1]) then NonBlank(ps[..|ps| - 1])
    else NonBlank(ps[..|ps| - 1]) + [ps[|ps| - 1]]
  }

  /** Each piece trimmed. */
  function TrimAll(ps: seq<string>): (r: seq<string>)
    ensures |r| == |ps|
    ensures forall k :: 0 <= k < |r| ==> r[k] == Trim(Js, ps[k])
  {
    seq(|ps|, k requires 0 <= k < |ps| => Trim(Js, ps[k]))
  }

  /** The paragraphs of a transcript: split on blank lines, blank ones dropped. */
  function TranscriptParagraphs(text: string): seq<string>
  {
    NonBlank(SplitBlankLines(text))
  }

  /** The variables of the loop of `chunkTranscript`. */
  datatype ChunkState = ChunkState(chunks: seq<string>, current: string)

  /** One paragraph: close the current chunk if it is not empty and the trimmed paragraph would overflow it, then append. */
  function ChunkStep(st: ChunkState, paragraph: string, maxChunkSize: int): ChunkState
  {
    ChunkAppend(st, Trim(Js, paragraph), maxChunkSize)
  }

  /** Appending a trimmed paragraph `p`, after a blank line unless the current chunk is empty. */
  function ChunkAppend(st: ChunkState, p: string, maxChunkSize: int): ChunkState
  {
    var closing := st.current != [] && |st.current| + |p| + 2 > maxChunkSize;
    var chunks := if closing then st.chunks + [Trim(Js, st.current)] else st.chunks;
    var current := if closing then [] else st.current;
    ChunkState(chunks, current + (if current != [] then "\n\n" else "") + p)
  }

  function ChunkFold(paragraphs: seq<string>, n: nat, maxChunkSize: int): ChunkState
    requires n <= |paragraphs|
  {
    if n == 0 then ChunkState([], [])
    else ChunkStep(ChunkFold(paragraphs, n - 1, maxChunkSize), paragraphs[n - 1], maxChunkSize)
  }

  /** After the loop: a current chunk that is not blank is the last chunk. */
  function ChunkFinish(st: ChunkState): seq<string>
  {
    if !IsBlank(Js, st.current) then st.chunks + [Trim(Js, st.current)] else st.chunks
  }

  /** `text.substring(0, n)` */
  function Prefix(text: string, n: int): string
  {
    if n <= 0 then [] else if n >= |text| then text else text[..n]
  }

  /** `chunkTranscript(text, maxChunkSize)` */
  function TranscriptChunks(text: string, maxChunkSize: int): (r: seq<string>)
    ensures r != []
  {
    if IsBlank(Js, text) then [NoTranscriptChunk]
    else
      var paragraphs := TranscriptParagraphs(text);
      var chunks := ChunkFinish(ChunkFold(paragraphs, |paragraphs|, maxChunkSize));
      if |chunks| > 0 then chunks else [Prefix(text, maxChunkSize)]
  }

  lemma ChunkFoldNext(paragraphs: seq<string>, n: nat, maxChunkSize: int)
    requires n < |paragraphs|
    ensures ChunkFold(paragraphs, n + 1, maxChunkSize) == ChunkStep(ChunkFold(paragraphs, n, maxChunkSize), paragraphs[n], maxChunkSize)
  {
  }

  /** `chunkTranscript`: the loop over paragraphs with `currentChunk` and `chunks.push`. */
  method ChunkTranscript(text: string, maxChunkSize: int) returns (chunks: seq<string>)
    ensures chunks == TranscriptChunks(text, maxChunkSize)
  {
    if IsBlank(Js, text) {
      return [NoTranscriptChunk];
    }
    chunks := [];
    var paragraphs := NonBlank(SplitBlankLines(text));
    var currentChunk := "";
    var i := 0;
    while i < |paragraphs|
      invariant 0 <= i <= |paragraphs|
      invariant ChunkState(chunks, currentChunk) == ChunkFold(paragraphs, i, maxChunkSize)
    {
      ChunkFoldNext(paragraphs, i, maxChunkSize);
      chunks, currentChunk := ChunkParagraph(chunks, currentChunk, paragraphs[i], maxChunkSize);
      i := i + 1;
    }
    if !IsBlank(Js, currentChunk) {
      chunks := chunks + [Trim(Js, currentChunk)];
    }
    if |chunks| == 0 {
      chunks := [Prefix(text, maxChunkSize)];
    }
  }

  /** The body of the loop of `chunkTranscript` for one paragraph. */
  method ChunkParagraph(chunks: seq<string>, currentChunk: string, paragraph: string, maxChunkSize: int)
    returns (chunks': seq<string>, currentChunk': string)
    ensures ChunkState(chunks', currentChunk') == ChunkStep(ChunkState(chunks, currentChunk), paragraph, maxChunkSize)
  {
    chunks', currentChunk' := chunks, currentChunk;
    var trimmedPara := Trim(Js, paragraph);
    if currentChunk' != [] && |currentChunk'| + |trimmedPara| + 2 > maxChunkSize {
      chunks' := chunks' + [Trim(Js, currentChunk')];
      currentChunk' := "";
    }
    currentChunk' := currentChunk' + (if currentChunk' != [] then "\n\n" else "") + trimmedPara;
  }

  // ---------------------------------------------------------------------
  // Properties of chunkTranscript
  // ---------------------------------------------------------------------

  /** The separator `chunkTranscript` puts between paragraphs of one chunk. */
  const ParagraphBreak: string := "\n\n"

  /** Dropping blank pieces loses no non-whitespace character. */
  lemma {:induction false} NonBlankNonSpace(ps: seq<string>)
    ensures NonSpace(Js, Concat(NonBlank(ps))) == NonSpace(Js, Concat(ps))
  {
    if ps != [] {
      var init, last := ps[..|ps| - 1], ps[|ps| - 1];
      assert ps == init + [last];
      NonBlankNonSpace(init);
      ConcatSnoc(init, last);
      NonSpaceAppend(Js, Concat(init), last);
      if IsBlank(Js, last) {
        NonSpaceBlank(Js, last);
      } else {
        ConcatSnoc(NonBlank(init), last);
        NonSpaceAppend(Js, Concat(NonBlank(init)), last);
      }
    }
  }

  /** Trimming each piece loses no non-whitespace character. */
  lemma {:induction false} TrimAllNonSpace(ps: seq<string>)
    ensures NonSpace(Js, Concat(TrimAll(ps))) == NonSpace(Js, Concat(ps))
  {
    if ps != [] {
      var t := TrimAll(ps);
      assert t[1..] == TrimAll(ps[1..]);
      TrimAllNonSpace(ps[1..]);
      NonSpaceAppend(Js, t[0], Concat(t[1..]));
      NonSpaceAppend(Js, ps[0], Concat(ps[1..]));
      TrimNonSpace(Js, ps[0]);
    }
  }

  /** Joining with a whitespace separator adds only whitespace. */
  lemma {:induction false} JoinNonSpace(sep: string, ps: seq<string>)
    requires IsBlank(Js, sep)
    ensures NonSpace(Js, Join(sep, ps)) == NonSpace(Js, Concat(ps))
  {
    if |ps| == 1 {
      assert ps[1..] == [];
      assert Concat(ps) == ps[0] + Concat([]);
      assert ps[0] + [] == ps[0];
    } else if |ps| > 1 {
      JoinNonSpace(sep, ps[1..]);
      NonSpaceAppend(Js, ps[0] + sep, Join(sep, ps[1..]));
      NonSpaceAppend(Js, ps[0], sep);
      NonSpaceBlank(Js, sep);
      NonSpaceAppend(Js, ps[0], Concat(ps[1..]));
    }
  }

  /** Extending the last piece of a join by a separator and more text extends the join. */
  lemma JoinExtendLast(sep: string, xs: seq<string>, a: string, b: string)
    ensures Join(sep, xs + [a + sep + b]) == Join(sep, xs + [a]) + sep + b
  {
    if xs == [] {
      assert xs + [a + sep + b] == [a + sep + b];
      assert xs + [a] == [a];
    } else {
      JoinAppend(sep, xs, a + sep + b);
      JoinAppend(sep, xs, a);
    }
  }

  /** A chunk is within the size limit or is one paragraph on its own. */
  predicate Fits(c: string, trimmed: seq<string>, maxChunkSize: int)
  {
    |c| <= maxChunkSize || c in trimmed
  }

  /**
   * The loop variables after `n` paragraphs: nothing yet, or a current chunk
   * that is non-empty and trimmed, such that the chunks so far and the
   * current one, joined by blank lines, are the first `n` trimmed paragraphs
   * joined by blank lines; and every chunk fits.
   */
  predicate FoldInv(trimmed: seq<string>, n: nat, maxChunkSize: int, st: ChunkState)
    requires n <= |trimmed|
  {
    if n == 0 then st == ChunkState([], [])
    else
      && st.current != [] && Transcript.Trimmed(st.current)
      && Join(ParagraphBreak, st.chunks + [st.current]) == Join(ParagraphBreak, trimmed[..n])
      && Fits(st.current, trimmed, maxChunkSize)
      && forall k :: 0 <= k < |st.chunks| ==> Fits(st.chunks[k], trimmed, maxChunkSize)
  }

  /** The first paragraph is the current chunk. */
  lemma FirstInv(trimmed: seq<string>, maxChunkSize: int)
    requires 0 < |trimmed| && trimmed[0] != [] && Transcript.Trimmed(trimmed[0])
    ensures FoldInv(trimmed, 1, maxChunkSize, ChunkState([], trimmed[0]))
  {
    assert trimmed[..1] == [trimmed[0]];
  }

  /** Closing the current chunk and starting a new one with the next paragraph. */
  lemma CloseInv(trimmed: seq<string>, n: nat, maxChunkSize: int, chunks: seq<string>, current: string)
    requires 1 < n <= |trimmed| && FoldInv(trimmed, n - 1, maxChunkSize, ChunkState(chunks, current))
    requires trimmed[n - 1] != [] && Transcript.Trimmed(trimmed[n - 1])
    ensures FoldInv(trimmed, n, maxChunkSize, ChunkState(chunks + [current], trimmed[n - 1]))
  {
    var p := trimmed[n - 1];
    assert trimmed[..n] == trimmed[..n - 1] + [p];
    assert (chunks + [current]) + [p] == chunks + [current] + [p];
    JoinAppend(ParagraphBreak, chunks + [current], p);
    JoinAppend(ParagraphBreak, trimmed[..n - 1], p);
    forall k | 0 <= k < |chunks| + 1 ensures Fits((chunks + [current])[k], trimmed, maxChunkSize) {
      if k < |chunks| { assert (chunks + [current])[k] == chunks[k]; }
    }
  }

  /** Appending the next paragraph to the current chunk after a blank line. */
  lemma ExtendInv(trimmed: seq<string>, n: nat, maxChunkSize: int, chunks: seq<string>, current: string)
    requires 1 < n <= |trimmed| && FoldInv(trimmed, n - 1, maxChunkSize, ChunkState(chunks, current))
    requires trimmed[n - 1] != [] && Transcript.Trimmed(trimmed[n - 1])
    requires |current| + |trimmed[n - 1]| + 2 <= maxChunkSize
    ensures FoldInv(trimmed, n, maxChunkSize, ChunkState(chunks, current + ParagraphBreak + trimmed[n - 1]))
  {
    var p := trimmed[n - 1];
    var c := current + ParagraphBreak + p;
    assert c[0] == current[0] && c[|c| - 1] == p[|p| - 1];
    assert trimmed[..n] == trimmed[..n - 1] + [p];
    JoinExtendLast(ParagraphBreak, chunks, current, p);
    JoinAppend(ParagraphBreak, trimmed[..n - 1], p);
  }

  lemma ChunkStepInv(trimmed: seq<string>, n: nat, maxChunkSize: int, st: ChunkState)
    requires 0 < n <= |trimmed| && FoldInv(trimmed, n - 1, maxChunkSize, st)
    requires trimmed[n - 1] != [] && Transcript.Trimmed(trimmed[n - 1])
    ensures FoldInv(trimmed, n, maxChunkSize, ChunkAppend(st, trimmed[n - 1], maxChunkSize))
  {
    var p := trimmed[n - 1];
    if n == 1 {
      FirstInv(trimmed, maxChunkSize);
      assert ChunkAppend(st, p, maxChunkSize) == ChunkState([], p);
    } else {
      TrimOfTrimmed(Js, st.current);
      if |st.current| + |p| + 2 > maxChunkSize {
        CloseInv(trimmed, n, maxChunkSize, st.chunks, st.current);
        assert ChunkAppend(st, p, maxChunkSize) == ChunkState(st.chunks + [st.current], p);
      } else {
        ExtendInv(trimmed, n, maxChunkSize, st.chunks, st.current);
        assert ChunkAppend(st, p, maxChunkSize) == ChunkState(st.chunks, st.current + ParagraphBreak + p);
      }
    }
  }

  /** `trimmed` holds the trimmed paragraphs, none of them empty. */
  predicate TrimmedParagraphs(paragraphs: seq<string>, trimmed: seq<string>)
  {
    && |trimmed| == |paragraphs|
    && forall k :: 0 <= k < |paragraphs| ==>
         trimmed[k] == Trim(Js, paragraphs[k]) && trimmed[k] != [] && Transcript.Trimmed(trimmed[k])
  }

  lemma {:induction false} ChunkFoldInv(paragraphs: seq<string>, trimmed: seq<string>, n: nat, maxChunkSize: int)
    requires n <= |paragraphs| && TrimmedParagraphs(paragraphs, trimmed)
    ensures FoldInv(trimmed, n, maxChunkSize, ChunkFold(paragraphs, n, maxChunkSize))
  {
    if n > 0 {
      ChunkFoldInv(paragraphs, trimmed, n - 1, maxChunkSize);
      var st := ChunkFold(paragraphs, n - 1, maxChunkSize);
      ChunkStepInv(trimmed, n, maxChunkSize, st);
      assert ChunkFold(paragraphs, n, maxChunkSize) == ChunkAppend(st, trimmed[n - 1], maxChunkSize);
    }
  }

  /** Non-blank paragraphs trim to non-empty trimmed strings. */
  lemma TrimAllParagraphs(paragraphs: seq<string>)
    requires forall k :: 0 <= k < |paragraphs| ==> !IsBlank(Js, paragraphs[k])
    ensures TrimmedParagraphs(paragraphs, TrimAll(paragraphs))
  {
    forall k | 0 <= k < |paragraphs|
      ensures Trim(Js, paragraphs[k]) != [] && Transcript.Trimmed(Trim(Js, paragraphs[k]))
    {
      TrimShape(Js, paragraphs[k]);
    }
  }

  /** A transcript with some non-whitespace character has at least one paragraph. */
  lemma ParagraphsOfNonBlank(text: string)
    requires !IsBlank(Js, text)
    ensures TranscriptParagraphs(text) != []
  {
    SplitNonSpace(text);
    NonBlankNonSpace(SplitBlankLines(text));
    NonSpaceBlank(Js, text);
  }

  /** Only whitespace: the one placeholder chunk. */
  lemma ChunkTranscriptBlank(text: string, maxChunkSize: int)
    requires IsBlank(Js, text)
    ensures TranscriptChunks(text, maxChunkSize) == [NoTranscriptChunk]
  {
  }

  /**
   * Otherwise the chunks, joined by blank lines, are the trimmed paragraphs
   * joined by blank lines (so the substring fallback is never taken), and
   * every chunk is within the size limit unless it is a single paragraph.
   */
  lemma ChunkTranscriptJoin(text: string, maxChunkSize: int)
    requires !IsBlank(Js, text)
    ensures var chunks := TranscriptChunks(text, maxChunkSize);
      var trimmed := TrimAll(TranscriptParagraphs(text));
      && chunks != []
      && Join(ParagraphBreak, chunks) == Join(ParagraphBreak, trimmed)
      && forall k :: 0 <= k < |chunks| ==> Fits(chunks[k], trimmed, maxChunkSize)
  {
    var paragraphs := TranscriptParagraphs(text);
    ParagraphsOfNonBlank(text);
    var trimmed := TrimAll(paragraphs);
    TrimAllParagraphs(paragraphs);
    ChunkFoldInv(paragraphs, trimmed, |paragraphs|, maxChunkSize);
    var st := ChunkFold(paragraphs, |paragraphs|, maxChunkSize);
    assert trimmed[..|paragraphs|] == trimmed;
    TrimShape(Js, st.current);
    TrimOfTrimmed(Js, st.current);
    assert !IsBlank(Js, st.current);
    assert ChunkFinish(st) == st.chunks + [st.current];
  }

  /** Chunking keeps every non-whitespace character of the transcript, in order. */
  lemma ChunkTranscriptKeepsText(text: string, maxChunkSize: int)
    requires !IsBlank(Js, text)
    ensures NonSpace(Js, Join(ParagraphBreak, TranscriptChunks(text, maxChunkSize))) == NonSpace(Js, text)
  {
    var chunks := TranscriptChunks(text, maxChunkSize);
    var paragraphs := TranscriptParagraphs(text);
    ChunkTranscriptJoin(text, maxChunkSize);
    assert IsBlank(Js, ParagraphBreak) by {
      assert IsSpace(Js, ParagraphBreak[0]) && IsSpace(Js, ParagraphBreak[1]);
    }
    JoinNonSpace(ParagraphBreak, TrimAll(paragraphs));
    TrimAllNonSpace(paragraphs);
    NonBlankNonSpace(SplitBlankLines(text));
    SplitNonSpace(text);
  }

  /** Without a line feed there is no blank line to split on. */
  lemma {:induction false} SplitFromNoBreak(s: string, i: nat)
    requires i <= |s| && forall k :: 0 <= k < |s| ==> s[k] != '\n'
    ensures SplitFrom(s, 0, i) == [s]
    decreases |s| - i
  {
    if i == |s| {
      assert s[0..] == s;
    } else {
      assert BlankLineAt(s, i) == None;
      SplitFromNoBreak(s, i + 1);
    }
  }

  /** A transcript with no line feed (and not blank) is one chunk: the whole text, trimmed, however long. */
  lemma ChunksWithoutLineBreaks(text: string, maxChunkSize: int)
    requires !IsBlank(Js, text) && forall k :: 0 <= k < |text| ==> text[k] != '\n'
    ensures TranscriptChunks(text, maxChunkSize) == [Trim(Js, text)]
  {
    SplitFromNoBreak(text, 0);
    assert [text][..0] == [];
    assert TranscriptParagraphs(text) == [text];
    var t := Trim(Js, text);
    assert ChunkFold([text], 1, maxChunkSize) == ChunkAppend(ChunkState([], []), t, maxChunkSize);
    assert ChunkFold([text], 1, maxChunkSize) == ChunkState([], t);
    TrimShape(Js, text);
    TrimOfTrimmed(Js, t);
    TrimShape(Js, t);
  }
}
