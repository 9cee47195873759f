/**
 * What the learning session page sends along with a quiz request and with a
 * chat message (`handleGenerateQuiz` and `handleSendMessage` in
 * `components/LearningSession.tsx`): long transcripts are cut down to a few
 * chunks first.
 */
module SessionContext {
  import opened Wrappers
  import opened Text
  import opened LearningSession
  import opened ChunkRanking

  // ---------------------------------------------------------------------
  // The quiz transcript
  // ---------------------------------------------------------------------

  /** Transcripts longer than this are cut down for a quiz. */
  const QuizLimit: nat := 10000
  /** The chunk size used for the quiz. */
  const QuizChunkSize: nat := 4000
  /** What goes between the picked chunks. */
  const QuizSeparator: string := "\n...\n"

  /** `.filter(Boolean)` on strings: the empty ones go. */
  function NonEmpty(xs: seq<string>): (r: seq<string>)
    ensures |r| <= |xs|
    ensures forall k :: 0 <= k < |r| ==> r[k] != []
  {
    if xs == [] then []
    else (if xs[0] != [] then [xs[0]] else []) + NonEmpty(xs[1..])
  }

  /**
   * The transcript sent with a quiz request as the page builds it; `None`
   * when there is no transcript and no request is made. Over the limit:
   * the first, middle and last chunk. With one or two chunks those
   * positions coincide and a chunk is sent more than once.
   */
  function QuizTranscriptAsWritten(transcript: string): (r: Option<string>)
    ensures r.None? <==> transcript == []
    ensures 0 < |transcript| <= QuizLimit ==> r == Some(transcript)
  {
    if transcript == [] then None
    else if |transcript| > QuizLimit then
      var chunks := TranscriptChunks(transcript, QuizChunkSize);
      var n := |chunks|;
      Some(Join(QuizSeparator, NonEmpty([chunks[0], chunks[n / 2], chunks[n - 1]])))
    else Some(transcript)
  }

  /** The first, middle and last of `n` positions, each once, in order. */
  function QuizPositions(n: nat): (r: seq<nat>)
    requires n > 0
    ensures r != [] && r[0] == 0 && r[|r| - 1] == n - 1 && n / 2 in r
    ensures forall p, q :: 0 <= p < q < |r| ==> r[p] < r[q]
    ensures forall p :: 0 <= p < |r| ==> r[p] < n
  {
    if n == 1 then [0] else if n == 2 then [0, 1] else [0, n / 2, n - 1]
  }

  /** The transcript sent with a quiz request, each picked chunk once. */
  function QuizTranscript(transcript: string): Option<string>
  {
    if transcript == [] then None
    else if |transcript| > QuizLimit then
      var chunks := TranscriptChunks(transcript, QuizChunkSize);
      var positions := QuizPositions(|chunks|);
      Some(Join(QuizSeparator, NonEmpty(seq(|positions|, k requires 0 <= k < |positions| => chunks[positions[k]]))))
    else Some(transcript)
  }

  /** No transcript, no quiz request; one within the limit is sent as it is. */
  lemma QuizShort(transcript: string)
    requires |transcript| <= QuizLimit
    ensures QuizTranscript(transcript).None? <==> transcript == []
    ensures transcript != [] ==> QuizTranscript(transcript) == QuizTranscriptAsWritten(transcript) == Some(transcript)
  {
  }

  /**
   * A long transcript with no line feed is one chunk, and the quiz request
   * as written carries that chunk three times: three times longer than the
   * transcript it was meant to shorten.
   */
  lemma QuizTranscriptRepeats(transcript: string)
    requires |transcript| > QuizLimit && !IsBlank(Js, transcript)
    requires forall k :: 0 <= k < |transcript| ==> transcript[k] != '\n'
    ensures var c := Trim(Js, transcript);
      QuizTranscriptAsWritten(transcript) == Some(c + QuizSeparator + c + QuizSeparator + c)
    ensures Trim(Js, transcript) == transcript ==>
      |QuizTranscriptAsWritten(transcript).value| == 3 * |transcript| + 2 * |QuizSeparator|
  {
    var c := Trim(Js, transcript);
    ChunksWithoutLineBreaks(transcript, QuizChunkSize);
    TrimShape(Js, transcript);
    ThreeTimes(c);
  }

  /** The same non-empty chunk picked three times. */
  lemma ThreeTimes(c: string)
    requires c != []
    ensures Join(QuizSeparator, NonEmpty([c, c, c])) == c + QuizSeparator + c + QuizSeparator + c
  {
    assert [c, c, c][1..] == [c, c];
    assert [c, c][1..] == [c];
    assert [c][1..] == [];
    assert NonEmpty([c]) == [c] + NonEmpty([]);
    assert NonEmpty([c, c]) == [c] + NonEmpty([c]);
    assert NonEmpty([c, c, c]) == [c] + NonEmpty([c, c]);
    assert NonEmpty([c, c, c]) == [c, c, c];
    assert Join(QuizSeparator, [c, c]) == c + QuizSeparator + c;
    assert Join(QuizSeparator, [c, c, c]) == c + QuizSeparator + (c + QuizSeparator + c);
  }

  /** With the positions taken once, the same transcript is sent as its one chunk. */
  lemma QuizTranscriptOnce(transcript: string)
    requires |transcript| > QuizLimit && !IsBlank(Js, transcript)
    requires forall k :: 0 <= k < |transcript| ==> transcript[k] != '\n'
    ensures QuizTranscript(transcript) == Some(Trim(Js, transcript))
  {
    var c := Trim(Js, transcript);
    ChunksWithoutLineBreaks(transcript, QuizChunkSize);
    TrimShape(Js, transcript);
    assert [c][1..] == [];
    assert NonEmpty([c]) == [c] + NonEmpty([]);
  }

  /**
   * Over the limit, the corrected quiz transcript is picked chunks in
   * transcript order, each chunk position at most once: always the first
   * and the last chunk, and the middle one.
   */
  lemma QuizTranscriptPicks(transcript: string)
    requires |transcript| > QuizLimit
    ensures var chunks := TranscriptChunks(transcript, QuizChunkSize);
      var positions := QuizPositions(|chunks|);
      && 1 <= |positions| <= 3 && |positions| == (if |chunks| < 3 then |chunks| else 3)
      && QuizTranscript(transcript) == Some(Join(QuizSeparator, NonEmpty(seq(|positions|, k requires 0 <= k < |positions| => chunks[positions[k]]))))
  {
  }

  // ---------------------------------------------------------------------
  // The chat context
  // ---------------------------------------------------------------------

  /** Transcripts longer than this are cut down for a chat message. */
  const ChatLimit: nat := 5000
  /** The chunk size used for a chat message. */
  const ChatChunkSize: nat := 3000
  /** What goes between the relevant chunks. */
  const ContextSeparator: string := "\n\n---\n\n"
  /** Appended to a message that does not ask for detail. */
  const ConciseSuffix: string := "\n\n[System: Keep response concise (2-3 sentences) unless asked for details.]"
  /** `/explain more|tell me more|detailed|deep dive|elaborate/i` */
  const DetailPhrases: seq<string> := ["explain more", "tell me more", "detailed", "deep dive", "elaborate"]

  /** The message asks for detail: one of the phrases occurs in it, ignoring case. */
  predicate WantsDetailed(message: string)
  {
    exists k :: 0 <= k < |DetailPhrases| && Contains(Lower(message), DetailPhrases[k])
  }

  /** How many relevant chunks a message gets. */
  function ContextChunks(message: string): nat
  {
    if WantsDetailed(message) then 4 else 2
  }

  /** What is sent: the (possibly extended) message and the transcript context. */
  datatype ChatRequest = ChatRequest(message: string, context: string)

  /** The request `handleSendMessage` makes; `None` when the message is blank and nothing is sent. */
  function ChatRequestFor(transcript: string, message: string): Option<ChatRequest>
  {
    if IsBlank(Js, message) then None
    else
      var context :=
        if |transcript| > ChatLimit then
          Join(ContextSeparator, RelevantChunks(TranscriptChunks(transcript, ChatChunkSize), message, ContextChunks(message)))
        else transcript;
      Some(ChatRequest(if WantsDetailed(message) then message else message + ConciseSuffix, context))
  }

  /** Nothing is sent for a blank message; the message goes out as typed exactly when it asks for detail, otherwise with the reminder to be concise. */
  lemma ChatMessage(transcript: string, message: string)
    ensures ChatRequestFor(transcript, message).None? <==> IsBlank(Js, message)
    ensures ChatRequestFor(transcript, message).Some? ==>
      var sent := ChatRequestFor(transcript, message).value.message;
      && (sent == message <==> WantsDetailed(message))
      && (!WantsDetailed(message) ==> sent == message + ConciseSuffix)
  {
    if !IsBlank(Js, message) && !WantsDetailed(message) {
      assert |message + ConciseSuffix| > |message|;
    }
  }

  /** A transcript within the limit is the context as it is. */
  lemma ChatShortContext(transcript: string, message: string)
    requires !IsBlank(Js, message) && |transcript| <= ChatLimit
    ensures ChatRequestFor(transcript, message).value.context == transcript
  {
  }

  /**
   * A longer one is cut to at least one and at most two chunks (four when
   * the message asks for detail), each a different chunk of the transcript,
   * and each within the chunk size unless it is a single paragraph.
   */
  lemma ChatLongContext(transcript: string, message: string)
    requires !IsBlank(Js, message) && |transcript| > ChatLimit
    ensures var chunks := TranscriptChunks(transcript, ChatChunkSize);
      var relevant := RelevantChunks(chunks, message, ContextChunks(message));
      && ChatRequestFor(transcript, message).value.context == Join(ContextSeparator, relevant)
      && 1 <= |relevant| <= ContextChunks(message)
      && multiset(relevant) <= multiset(chunks)
      && forall k :: 0 <= k < |relevant| ==>
           |relevant[k]| <= ChatChunkSize || relevant[k] in TrimAll(TranscriptParagraphs(transcript))
  {
    var chunks := TranscriptChunks(transcript, ChatChunkSize);
    var relevant := RelevantChunks(chunks, message, ContextChunks(message));
    RelevantCount(chunks, message, ContextChunks(message));
    if !IsBlank(Js, transcript) {
      ChunkTranscriptJoin(transcript, ChatChunkSize);
    }
    forall k | 0 <= k < |relevant|
      ensures |relevant[k]| <= ChatChunkSize || relevant[k] in TrimAll(TranscriptParagraphs(transcript))
    {
      assert relevant[k] in multiset(chunks);
      var p :| 0 <= p < |chunks| && chunks[p] == relevant[k];
      if IsBlank(Js, transcript) {
        assert chunks == [NoTranscriptChunk];
      }
    }
  }
}
