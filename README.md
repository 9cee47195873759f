# EduReach core, modelled in Dafny

EduReach is a learning platform: a Django backend (courses and lessons,
assessments, payments and subscriptions, study groups, community threads,
YouTube transcript extraction) and a React front end (course and exam
builders, question creators, a learning session, discussion feeds, a
Markdown renderer). This project models the logic of that core in Dafny and
proves properties of it.

One Dafny module per source file:

| module | source file |
|---|---|
| `Wrappers`, `Text` | shared: `Option`, whitespace per language (JavaScript `\s`/`trim` and Python `str.isspace`), trim, split, join, replace |
| `YouTubeService` | `backend/services/youtube_service.py` |
| `YouTubeServiceTs` | `src/services/youtubeService.ts` |
| `Transcript` | `src/utils/transcript.ts`: `fmtMs`, `cleanText`, `normalizeEvents`, `mergeAdjacentSegments`, `chunkSegments` |
| `ProcessRaw` | `src/utils/transcript.ts`: `processRawTranscript` |
| `Paragraphs` | `src/utils/transcript.ts`: `formatSegmentsToParagraphs` |
| `LearningSession` | `components/LearningSession.tsx`: `chunkTranscript` |
| `ChunkRanking` | `components/LearningSession.tsx`: `findRelevantChunks` |
| `SessionContext` | `components/LearningSession.tsx`: the transcript reductions of `handleGenerateQuiz` and `handleSendMessage` |
| `CourseModels` | `backend/courses/models.py` |
| `PaymentModels` | `backend/payments/models.py` |
| `CourseViews` | `backend/courses/views.py` |
| `UserModels` | `backend/users/models.py` |
| `AssessmentModels` | `backend/assessments/models.py` |
| `AssessmentViews` | `backend/assessments/views.py` |
| `PaymentViews` | `backend/payments/views.py` |
| `RenewSubscriptions` | `backend/payments/management/commands/renew_subscriptions.py` |
| `StudyGroups` | `backend/study_groups/views.py` |
| `Community` | `backend/community/views.py` |
| `YouTubeViews` | `backend/api/youtube_views.py` |
| `ErrorHandler` | `src/utils/errorHandler.ts`: `handleApiError`, `isRecoverableError`, `retryWithBackoff` |
| `ApiConfig` | `src/config/api.ts`: the base URL's normalisation and `API_ENDPOINTS` |
| `App` | `App.tsx`: the shared state and its handlers (`userScore`, `handleTierChange`, `handleToggleLike`, `handleAddComment`, `handleDeletePost`, `handleUpdateLesson`, `handleSessionCreated`, `navigateToCreateCourse`) |
| `CreateExam` | `components/CreateExamPage.tsx` |
| `Cloze` | `components/ClozeQuestionCreator.tsx` |
| `Passage` | `components/PassageQuestionCreator.tsx` |
| `Essay` | `components/EssayQuestionCreator.tsx` |
| `ShortAnswer` | `components/ShortAnswerQuestionCreator.tsx` |
| `QuizView` | `components/QuizView.tsx` |
| `SetupSession` | `components/SetupSession.tsx` |
| `CreateCourse` | `components/CreateCoursePage.tsx` |
| `DiscussionFeed` | `components/DiscussionFeed.tsx` |
| `DiscussionsPage` | `components/DiscussionsPage.tsx` |
| `Markdown` | `components/MarkdownRenderer.tsx` |

The network, third-party libraries (the transcript library, yt_dlp), the
HTML/XML/JSON parsers, the clock and the database are oracles: they are
parameters of the functions that use them, so every property holds for
whatever they answer.

## Model

| member | source | states |
|---|---|---|
| YouTubeService.ExtractVideoIdShape | backend/services/youtube_service.py:70-84 | an extracted ID is non-empty, has no `&`, `?`, `#` or newline, and sits in the URL right after `watch?v=`, `youtu.be/`, `embed/` or a `v=` inside a watch query |
| YouTubeService.ExtractVideoId | backend/services/youtube_service.py:70-84 | nothing is extracted exactly when neither pattern matches anywhere in the URL |
| YouTubeService.Pattern1First | backend/services/youtube_service.py:74-82 | where the first pattern matches, its capture at the leftmost match is the answer, whatever the second pattern would give |
| YouTubeService.DecodeEntitiesNoAmpersand | backend/services/youtube_service.py:359-361 | text without `&` passes the entity decoding unchanged |
| YouTubeService.DecodeEntitiesCascades | backend/services/youtube_service.py:359-361 | because `&amp;` is decoded first, `&amp;lt;` ends up as `<` |
| YouTubeService.LookupFound | backend/services/youtube_service.py:464-467 | a caption language is found exactly when it is a key of the caption dict |
| YouTubeService.ChooseCaptions | backend/services/youtube_service.py:460-475 | manual captions in the requested language first, then automatic ones, then the first manual language, then the first automatic one; no sources when both dicts are empty |
| YouTubeService.ChosenSourcesListed | backend/services/youtube_service.py:460-478 | non-empty chosen sources are the chosen language's entry in the manual or the automatic caption dict |
| YouTubeService.FilterCaptionLines | backend/services/youtube_service.py:520-528 | the loop keeps exactly the stripped lines that pass the cue, index, timestamp and header filters; a bare number or a leading clock time in digits of any script (Python's `\d`, Unicode category Nd) is dropped |
| YouTubeService.ArabicIndicNumberDropped | backend/services/youtube_service.py:525 | a line of Arabic-Indic digits counts as a bare number and is dropped |
| YouTubeService.KeptLinesPass | backend/services/youtube_service.py:520-528 | every kept line passes the filters and no more lines come out than went in |
| YouTubeService.CaptionJoinEmpty | backend/services/youtube_service.py:529-530 | the joined caption text is empty exactly when no line was kept |
| YouTubeService.NonBlankStrippedEmpty | backend/services/youtube_service.py:509-515 | the XML caption text is empty exactly when every element text is blank |
| YouTubeService.RequestStopsAtFirstDecisive | backend/services/youtube_service.py:43-68 | the retry loop returns what the first non-retryable attempt gives |
| YouTubeService.RequestNone | backend/services/youtube_service.py:43-68 | no attempts (max_retries <= 0) or no reply on any attempt gives None |
| YouTubeService.MakeRequest | backend/services/youtube_service.py:39-68 | the loop returns the first decisive attempt's answer, waits only after retryable attempts, never after the last, and the wait after attempt `attempt` is `2**attempt + attempt` after a 429 or 403 reply and `2**attempt + 1` after an exception |
| YouTubeService.SnippetShape | backend/services/youtube_service.py:620-624 | the debug snippet is the first 1000 characters of the body with every newline replaced by a space |
| YouTubeService.EntrySegmentsTexts | backend/services/youtube_service.py:282-290 | there is one segment per kept library entry, carrying its stripped text |
| YouTubeService.KeptEntriesNonBlank | backend/services/youtube_service.py:272 | only entries with non-blank text are kept; none are kept exactly when all are blank |
| YouTubeService.LibraryTranscriptShape | backend/services/youtube_service.py:262-295 | a library result names the library strategy and language, and its transcript is the join of the stripped non-blank texts |
| YouTubeService.LibraryEmptyJoin | backend/services/youtube_service.py:272-275 | all-blank entries give nothing; a non-blank entry, with every kept entry's times readable, gives a result |
| YouTubeService.CollectTimedText | backend/services/youtube_service.py:353-369 | the loop over `<text>` elements builds the same segments and transcript as the specification function (a missing `start` or `dur` reads as 0), or stops when `float()` of one raises, which ends the whole strategy |
| YouTubeService.TimedTextSegmentsShape | backend/services/youtube_service.py:353-369 | there is one segment per element, with the decoded and stripped text |
| YouTubeService.TimedTextSegmentsNoneExtends | backend/services/youtube_service.py:362-363 | one element whose `start` or `dur` does not convert with `float()` makes the segments of every longer prefix fail too |
| YouTubeService.TimedTextFullBlank | backend/services/youtube_service.py:369-372 | the joined timed text is blank exactly when every decoded element text is blank |
| YouTubeService.DirectApiShape | backend/services/youtube_service.py:306-389 | the direct strategy returns the first accepted candidate URL, and every earlier candidate was skipped |
| YouTubeService.DirectCandidateAccepted | backend/services/youtube_service.py:371-384 | an accepted candidate names the direct strategy, the language and URL used, and carries a non-empty transcript |
| YouTubeService.DirectCandidateBlankSkipped | backend/services/youtube_service.py:369-373 | a candidate whose text is all blank is skipped |
| YouTubeService.FetchCaption | backend/services/youtube_service.py:481-529 | fetching one caption source gives the specified normalised transcript; the WebVTT and SRT substitutions and the line filter read `\d` as a decimal digit of any script |
| YouTubeService.ExtractWithYtDlp | backend/services/youtube_service.py:433-543 | the yt_dlp strategy returns the specified outcome |
| YouTubeService.CaptionTranscriptKept | backend/services/youtube_service.py:520-530 | a non-empty caption transcript is the stripped join of kept lines and starts with a non-space |
| YouTubeService.YtDlpTranscriptShape | backend/services/youtube_service.py:477-543 | a yt_dlp result comes from the first caption source with a non-empty transcript, and every earlier source gave nothing |
| YouTubeService.ChainAudit | backend/services/youtube_service.py:159-209 | each invoked strategy leaves exactly one audit entry, in order, and the strategies after the winner are not invoked |
| YouTubeService.ChainWinner | backend/services/youtube_service.py:160-197 | the first winning strategy's result is returned with the audit list up to and including it |
| YouTubeService.ChainFailure | backend/services/youtube_service.py:200-209 | when no strategy wins the result fails with the fixed message, an empty transcript and four audit entries, none a success |
| YouTubeService.ChainStep | backend/services/youtube_service.py:160-199 | one step of the chain either returns the winner with the extended audit list or keeps the audit invariant for the next strategy |
| YouTubeService.ChainEnd | backend/services/youtube_service.py:200-209 | after four losing strategies the result is the failure dict with the collected audit |
| YouTubeService.StrategiesSucceed | backend/services/youtube_service.py:159-199 | whatever a strategy returns reports success, names its strategy and the requested video, and has no error |
| YouTubeService.LibrarySucceeds | backend/services/youtube_service.py:277-295 | a library result reports success and names the library strategy |
| YouTubeService.DirectSucceeds | backend/services/youtube_service.py:375-384 | a direct-API result reports success and names the direct strategy |
| YouTubeService.ScrapingSucceeds | backend/services/youtube_service.py:419-427 | a scraping result reports success and names the scraping strategy |
| YouTubeService.YtDlpSucceeds | backend/services/youtube_service.py:531-540 | a yt_dlp result reports success and names the yt_dlp strategy |
| YouTubeService.ExtractTranscriptSuccess | backend/services/youtube_service.py:159-209 | the transcript result succeeds exactly when some strategy wins, and always names the requested video |
| YouTubeService.ScrapedEmptyTranscriptWins | backend/services/youtube_service.py:409-427 | when the first two strategies find nothing, the scraping strategy wins even with an empty transcript, after three audit entries |
| YouTubeService.MetadataFallback | backend/services/youtube_service.py:86-116 | metadata names the video; it is the fallback exactly when there is no 200 oEmbed answer that parses, and the fallback is titled `YouTube Video <id>` |
| YouTubeService.LanguagesShape | backend/services/youtube_service.py:118-157 | without a 200 watch page or a captions block the languages default to English (auto-generated); otherwise they are the listed ones |
| YouTubeService.LanguagesCanBeEmpty | backend/services/youtube_service.py:136-155 | a captions block with no language entries gives an empty list |
| YouTubeService.CompleteVideoDataShape | backend/services/youtube_service.py:576-610 | an invalid URL gives the error dict; otherwise the dict names the video in its metadata and transcript, success is the transcript's success, and when the final watch-page fetch answered with a truthy response (any status outside 400 to 599, 600 and above included) the debug snapshot is that fetch |
| YouTubeService.RecordedAllConcat | backend/services/youtube_service.py:612-636 | recording two runs of fetches in turn is recording their concatenation |
| YouTubeService.HighStatusRecorded | backend/services/youtube_service.py:93-96 | a reply with a status of 600 or more is truthy for `requests` and so is recorded |
| YouTubeService.TranscriptViewShape | backend/services/youtube_service.py:638-661 | a missing or empty `videoId` is a 400; otherwise a 200 that carries a transcript exactly when some strategy wins, else the chain's failure message |
| YouTubeService.YouTubeTranscriptService.constructor | backend/services/youtube_service.py:22-37 | a new service has no recorded response |
| YouTubeService.YouTubeTranscriptService.RecordResponse | backend/services/youtube_service.py:612-636 | with no response nothing changes; otherwise the snapshot is the URL, status, reason and snippet |
| YouTubeService.YouTubeTranscriptService.RequestAndRecord | backend/services/youtube_service.py:93-96 | the response is the retry loop's, and the snapshot becomes that response exactly when `if response:` holds, that is for any status outside 400 to 599; otherwise the snapshot is kept |
| YouTubeService.YouTubeTranscriptService.GetVideoMetadata | backend/services/youtube_service.py:86-116 | returns the specified metadata and records the oEmbed fetch |
| YouTubeService.YouTubeTranscriptService.GetAvailableTranscripts | backend/services/youtube_service.py:118-157 | returns the specified languages and records the watch-page fetch |
| YouTubeService.YouTubeTranscriptService.TryTimedTextCandidate | backend/services/youtube_service.py:322-384 | one candidate URL of the direct strategy, recorded |
| YouTubeService.YouTubeTranscriptService.ExtractWithDirectApi | backend/services/youtube_service.py:306-389 | returns the specified direct result and records every candidate it tried |
| YouTubeService.YouTubeTranscriptService.ExtractWithWebScraping | backend/services/youtube_service.py:391-431 | returns the specified scraping result and records the watch-page fetch |
| YouTubeService.YouTubeTranscriptService.RunStrategy | backend/services/youtube_service.py:161-199 | runs the i-th strategy and leaves the snapshot of every fetch made so far |
| YouTubeService.YouTubeTranscriptService.ExtractTranscript | backend/services/youtube_service.py:159-209 | the loop over the four strategies returns the chain's result and records every fetch made |
| YouTubeService.YouTubeTranscriptService.GetVideoChapters | backend/services/youtube_service.py:545-574 | returns the specified chapters and records the watch-page fetch |
| YouTubeService.YouTubeTranscriptService.ExtractCompleteVideoData | backend/services/youtube_service.py:576-610 | returns the specified combined dict; an invalid URL records nothing, otherwise the debug snapshot is the final one |
| YouTubeServiceTs.ExtractVideoIdShape | src/services/youtubeService.ts:39-51 | the front end's extracted ID has the same shape as the backend's |
| YouTubeServiceTs.ExtractVideoIdNull | src/services/youtubeService.ts:45-50 | `null` exactly when neither pattern matches anywhere |
| YouTubeServiceTs.Pattern1Wins | src/services/youtubeService.ts:41-48 | the first pattern's leftmost capture wins wherever it matches |
| YouTubeServiceTs.SameAsBackend | src/services/youtubeService.ts:39-51 | on a URL without `\r`, U+2028 or U+2029 the front end extracts the same ID as the backend |
| YouTubeServiceTs.DivergesOnCarriageReturn | src/services/youtubeService.ts:43 | on `youtube.com/watch?x\rv=abc` the backend extracts `abc` and the front end nothing |
| Transcript.FmtMsRoundTrip | src/utils/transcript.ts:8-15 | reading the clock string back gives the whole seconds of the input, and it shows an hours field exactly when the input is at least an hour |
| Transcript.ClockTextRoundTrip | src/utils/transcript.ts:13-14 | the `h:mm:ss` text of an hours field and the `m:ss` text read back as the total seconds, and the hours field is there exactly when the hours are non-zero |
| Transcript.WholeHours | src/utils/transcript.ts:9-13 | the hours field is non-zero exactly from 3600000 ms on |
| Transcript.CleanTextShape | src/utils/transcript.ts:47-55 | cleaned text is no longer than its input, has no whitespace at either end and never two whitespace characters in a row |
| Transcript.CleanTextKeepsCleanText | src/utils/transcript.ts:47-55 | text without `[` or `(`, without a filler word between word boundaries, without double whitespace and with nothing to trim passes unchanged |
| Transcript.SortByStartSorted | src/utils/transcript.ts:32 | the sort leaves segments ordered by start |
| Transcript.SortByStartPerm | src/utils/transcript.ts:32 | the sort is a permutation of its input |
| Transcript.SortSegments | src/utils/transcript.ts:32 | sorting the array in place leaves the sorted sequence of its old contents |
| Transcript.MergeSorted | src/utils/transcript.ts:33-44 | the loop over the sorted segments, extending or pushing the last output segment, returns the merged list |
| Transcript.MergeAdjacentSegments | src/utils/transcript.ts:30-45 | the argument array is left sorted by start and the result is the merge of its sorted contents |
| Transcript.MergeAdjacentSegmentsResult | src/utils/transcript.ts:30-45 | merged output is ordered by start, has no more segments than the input and keeps every non-whitespace character in order |
| Transcript.MergedNonSpace | src/utils/transcript.ts:37-42 | merging absorbs text into the last segment without losing or reordering a non-whitespace character |
| Transcript.MergedSorted | src/utils/transcript.ts:33-44 | merging sorted segments keeps them sorted |
| Transcript.CollectEventSegments | src/utils/transcript.ts:19-26 | the loop over events pushes one segment per event whose joined text is not blank |
| Transcript.NormalizeEvents | src/utils/transcript.ts:17-28 | the result is the merge (gap 1000 ms) of the sorted event segments |
| Transcript.EventDropped | src/utils/transcript.ts:21-22 | an event is skipped exactly when its joined `utf8` text is blank |
| Transcript.EventSegmentShape | src/utils/transcript.ts:21-25 | a kept event's segment starts at `tStartMs` (or 0), lasts `dDurationMs` (or 0), and its text is trimmed, collapsed and keeps every non-whitespace character |
| Transcript.EventSegmentsShape | src/utils/transcript.ts:19-26 | at most one segment per event, each with clean text |
| Transcript.SliceFromEnd | src/utils/transcript.ts:70 | `slice(-k)` keeps the last `k` characters, or all of a shorter string; `slice(-0)` keeps everything |
| Transcript.ChunkSegments | src/utils/transcript.ts:57-82 | the loop over the segments with the buffer variables, and the final push, compute the chunk list |
| Transcript.ChunkSegment | src/utils/transcript.ts:64-77 | one iteration: a blank cleaned text changes nothing, an overflow closes the buffer and restarts it with the overlap, otherwise the text is appended |
| Transcript.ChunksKeepEveryText | src/utils/transcript.ts:57-82 | the cleaned text of every segment that is not blank occurs inside some chunk |
| Transcript.ChunkFoldChunks | src/utils/transcript.ts:63-78 | chunks are only ever appended, and each has trimmed text |
| Transcript.ChunksTrimmed | src/utils/transcript.ts:57-82 | every chunk's text is trimmed |
| Transcript.ChunksFirstOverflowEmpty | src/utils/transcript.ts:66-69 | when the first kept segment's cleaned text alone reaches `maxChars`, the still empty buffer is closed and the first chunk has empty text |
| ProcessRaw.ProcessRawTranscript | src/utils/transcript.ts:84-112 | the dispatch on the input's shape returns the specified segments and chunks, or the thrown error, including the one `normalizeEvents` throws on a null event, a null `segs` entry or a truthy `segs` that is not an array |
| ProcessRaw.ProcessEmpty | src/utils/transcript.ts:86-111 | a falsy input, the empty string or an object with none of the known properties gives no segments and no chunks |
| ProcessRaw.ProcessText | src/utils/transcript.ts:87-109 | a string, or an object's `transcript` string, becomes one segment at time 0 with the cleaned text, which is also the one chunk |
| ProcessRaw.ProcessThrows | src/utils/transcript.ts:17-23 | it throws exactly when the events hold a null entry, an entry whose `segs` is truthy but not an array, or one whose `segs` holds a null entry; or, without events, when the chosen list is not an array or holds a null item |
| ProcessRaw.EventsIn | src/utils/transcript.ts:20-21 | the events are read one for one, each keeping its start, duration and `utf8` texts, exactly when no entry makes `ev.segs`, `.map` or `s.utf8` throw |
| ProcessRaw.NullEventThrows | src/utils/transcript.ts:20-21 | `{events: [null]}` and an event whose `segs` holds `null` both throw |
| ProcessRaw.ItemSegments | src/utils/transcript.ts:99 | the map succeeds exactly when no item is null, and then gives one segment per item |
| ProcessRaw.NumberOr | src/utils/transcript.ts:99 | `x \|\| d` on numbers: zero and absent fall through |
| ProcessRaw.TextOr | src/utils/transcript.ts:99 | `x \|\| d` on strings: the empty string and absent fall through |
| ProcessRaw.MergedOrdered | src/utils/transcript.ts:100 | merged list segments are ordered, no more than the items, and keep the text |
| ProcessRaw.ProcessShape | src/utils/transcript.ts:84-112 | every result has segments ordered by start and trimmed chunks; from events or a list the chunks are those of the segments and there are no more segments than inputs |
| Paragraphs.FormatSegmentsToParagraphs | src/utils/transcript.ts:118-160 | the loop with `curText`, `curStart`, `curEnd` and the final push computes the paragraph list |
| Paragraphs.PushParagraph | src/utils/transcript.ts:125-134 | `pushCur` appends a paragraph only when the current text is not blank, collapsed, trimmed and capitalized |
| Paragraphs.ParagraphsCount | src/utils/transcript.ts:118-160 | no segments give no paragraphs, and there are never more paragraphs than segments |
| Paragraphs.ParagraphsShape | src/utils/transcript.ts:125-134 | every paragraph text is non-empty, trimmed, free of double whitespace and does not start with a lower-case letter |
| Paragraphs.ParagraphsKeepText | src/utils/transcript.ts:136-158 | up to whitespace and case, the paragraphs hold exactly the segments' text, in order |
| Paragraphs.ParagraphsSeparated | src/utils/transcript.ts:144-155 | when no segment text is blank, consecutive paragraphs are separated by more than the gap threshold |
| Paragraphs.CapitalizeShape | src/utils/transcript.ts:130 | capitalizing keeps the length and the whitespace and leaves no lower-case first letter |
| LearningSession.SplitNonSpace | components/LearningSession.tsx:86 | splitting on blank lines loses only whitespace |
| LearningSession.BlankLineAt | components/LearningSession.tsx:86 | a match of `\n\s*\n` is at least two characters, all whitespace |
| LearningSession.ChunkTranscript | components/LearningSession.tsx:83-98 | the loop over the paragraphs with `currentChunk` and `chunks.push`, and the fallbacks, compute the chunk list |
| LearningSession.ChunkParagraph | components/LearningSession.tsx:89-95 | one iteration: close the current chunk when it is non-empty and would overflow, then append the trimmed paragraph after a blank line |
| LearningSession.TranscriptChunks | components/LearningSession.tsx:83-98 | the chunk list is never empty |
| LearningSession.ChunkTranscriptBlank | components/LearningSession.tsx:84 | a blank transcript gives the single placeholder chunk |
| LearningSession.ChunkTranscriptJoin | components/LearningSession.tsx:86-97 | for a transcript that is not blank the chunks joined by blank lines are the trimmed non-blank paragraphs joined by blank lines, the substring fallback is never taken, and every chunk is within the size or is one paragraph |
| LearningSession.ChunkTranscriptKeepsText | components/LearningSession.tsx:84-97 | chunking keeps every non-whitespace character of the transcript, in order |
| LearningSession.ChunksWithoutLineBreaks | components/LearningSession.tsx:86-96 | a transcript with no line feed is a single chunk, its trimmed text, however long |
| ChunkRanking.KeywordsMembers | components/LearningSession.tsx:104-105 | a keyword is exactly the word characters of a lower-cased whitespace token longer than three characters that is not a stop word |
| ChunkRanking.Matches | components/LearningSession.tsx:113 | the match count of a non-empty keyword is zero exactly when it does not occur, and at most the text length over the keyword length; the empty keyword matches at every position |
| ChunkRanking.ScoreChunk | components/LearningSession.tsx:109-117 | the `forEach` over the keywords adds up the matches before the positional bonus |
| ChunkRanking.ScoreChunks | components/LearningSession.tsx:109-118 | the map gives each chunk with its score and position |
| ChunkRanking.EarlierScoresHigher | components/LearningSession.tsx:116 | an earlier chunk with at least as many matches scores strictly higher |
| ChunkRanking.SortByScore | components/LearningSession.tsx:120 | the sort is a permutation of its input, of the same length |
| ChunkRanking.SortByScoreRanked | components/LearningSession.tsx:120 | the sort orders by descending score and, stably, by position among equal scores |
| ChunkRanking.SortByScoreTexts | components/LearningSession.tsx:120 | the sort keeps the chunk texts |
| ChunkRanking.FindRelevantChunks | components/LearningSession.tsx:100-122 | the early returns, the scoring loop, the sort and the slice compute the specified list |
| ChunkRanking.RelevantFew | components/LearningSession.tsx:101-102 | no chunks give none, and at most `maxChunks` chunks come back unchanged |
| ChunkRanking.RelevantNoKeywords | components/LearningSession.tsx:107 | a message without keywords keeps the first `maxChunks` chunks |
| ChunkRanking.SelectRanked | components/LearningSession.tsx:109-121 | with keywords the kept chunks are the first entries of the stable ranking, each coming before every dropped one |
| ChunkRanking.RelevantCount | components/LearningSession.tsx:100-122 | the result has `min(maxChunks, n)` chunks for a non-negative `maxChunks`, each from a different input position |
| ChunkRanking.SelectEarlierWins | components/LearningSession.tsx:109-121 | if a later chunk is kept, an earlier one with at least as many keyword matches is kept too |
| SessionContext.QuizShort | components/LearningSession.tsx:124-130 | no transcript means no quiz request; one within 10000 characters is sent as it is |
| SessionContext.QuizTranscriptRepeats | components/LearningSession.tsx:128-133 | a transcript over 10000 characters with no line feed is sent three times over, joined by `\n...\n` |
| SessionContext.QuizTranscriptAsWritten | components/LearningSession.tsx:124-133 | as written, no request exactly when there is no transcript, and a transcript within 10000 characters is sent as it is |
| SessionContext.QuizPositions | components/LearningSession.tsx:130-132 | the first, middle and last chunk positions, each once and in order |
| SessionContext.QuizTranscriptOnce | components/LearningSession.tsx:128-133 | with each position taken once, that transcript is sent once, trimmed |
| SessionContext.QuizTranscriptPicks | components/LearningSession.tsx:128-133 | over the limit the quiz transcript is one to three chunks, in transcript order, never one twice |
| SessionContext.ChatMessage | components/LearningSession.tsx:146-171 | nothing is sent for a blank message; the message is sent as typed exactly when it asks for detail, otherwise with the conciseness reminder appended |
| SessionContext.ChatShortContext | components/LearningSession.tsx:163-165 | a transcript of at most 5000 characters is the whole context |
| SessionContext.ChatLongContext | components/LearningSession.tsx:166-169 | a longer one is cut to one or two relevant 3000-size chunks (four when the message asks for detail), each a different chunk and within the size unless a single paragraph, joined by `\n\n---\n\n` |
| CourseModels.GetTranscript | backend/courses/models.py:56-58 | the auto-fetched transcript when non-empty, else the manual one; empty only when both are |
| CourseModels.ProgressPercentage | backend/courses/models.py:93-94 | the largest whole percentage not above `completed/total`; with `completed <= total` it lies in 0..100 and is 100 exactly when every lesson is completed |
| CourseModels.UserProgress.UpdateProgress | backend/courses/models.py:89-95 | with lessons, the stored percentage becomes `ProgressPercentage` of the completed count; a course without lessons leaves it unchanged |
| PaymentModels.ParsePaymentStatus | backend/payments/models.py:54-59 | a wire value names a status exactly when it is one of the five `Payment.Status` values |
| PaymentModels.Merge | backend/payments/models.py:86-87 | `metadata.update`: keys of the new metadata win, other keys keep their values, and missing or empty metadata changes nothing |
| PaymentModels.MergeTwice | backend/payments/models.py:86-87 | merging the same metadata twice equals merging it once |
| PaymentModels.Payment.constructor | backend/payments/models.py:61-78 | a new payment is PENDING with no processing time |
| PaymentModels.Payment.MarkCompleted | backend/payments/models.py:83-88 | COMPLETED whatever the prior status, stamped with the time, metadata merged |
| PaymentModels.Payment.MarkFailed | backend/payments/models.py:90-95 | FAILED whatever the prior status, stamped with the time, metadata merged |
| PaymentModels.Subscription.constructor | backend/payments/models.py:113-138 | a new subscription is ACTIVE and renews automatically |
| PaymentModels.Subscription.Cancel | backend/payments/models.py:143-147 | renewal off and status CANCELLED; the frame leaves `expires_at` untouched |
| PaymentModels.Subscription.MarkExpired | backend/payments/models.py:149-151 | only the status changes, to EXPIRED |
| CourseViews.ExtractVideoId | backend/courses/views.py:69-79 | a non-empty explicit ID wins, stripped; with neither ID nor URL there is none |
| CourseViews.FirstMatch | backend/courses/views.py:75-78 | `re.search`: the leftmost position where a recognised prefix is followed by an ID character |
| CourseViews.ExtractFromUrlShape | backend/courses/views.py:75-79 | an ID read from a URL is a maximal non-empty run without `&`, `?` and `/`, right after `watch?v=`, `embed/` or `youtu.be/` |
| CourseViews.CaptureShape | backend/courses/views.py:75-79 | the capture of a match has that shape at the match's capture position |
| CourseViews.ExtractFromUrlNone | backend/courses/views.py:73-79 | without an explicit ID, no ID exactly when the pattern matches nowhere in the URL |
| CourseViews.LessonUrl | backend/courses/views.py:278 | the URL given, else `https://www.youtube.com/watch?v=` and the ID |
| CourseViews.NextOrder | backend/courses/views.py:272 | the order for a new lesson is above every order already used in its course |
| CourseViews.NextOrderAsWritten | backend/courses/views.py:272 | as written, the order is the course's lesson count: never more than the lessons, 0 exactly when the course has none |
| CourseViews.NextOrderMatchesCount | backend/courses/views.py:272 | while a course's orders are exactly 0 to n - 1 for its n lessons, the count and one past the largest order agree |
| CourseViews.AddAfterDeleteCollides | backend/courses/views.py:272-280 | with the count as order, deleting a course's first lesson makes the next added lesson reuse an order |
| CourseViews.AppendKeepsUniqueOrders | backend/courses/views.py:272-285 | a lesson ordered by `NextOrder` keeps the orders of each course distinct |
| CourseViews.RemoveKeepsUniqueOrders | backend/courses/views.py:395-401 | deleting a lesson keeps the orders of each course distinct |
| CourseViews.CourseStore.AddLesson | backend/courses/views.py:246-288 | 403 for non-owners, 400 without title or video ID, else 201 with exactly one new lesson appended, fresh order, default URL, `N/A` duration and `en` language |
| CourseViews.CourseStore.DeleteLesson | backend/courses/views.py:395-401 | only the course owner deletes, and exactly the named lesson goes; the table constraints hold after |
| CourseViews.FindPayment | backend/courses/views.py:138-141 | the payment with that id belonging to that user, or none when no row matches both |
| CourseViews.PurchaseRefusal | backend/courses/views.py:125-144 | the owner and unpaid or non-positive-price courses are refused with 400; then a missing or falsy `payment_id` (the number 0 included) with 400 "payment_id is required"; a purchase goes ahead exactly for a non-owner of a paid course with a COMPLETED payment of their own |
| CourseViews.CourseStore.BuyCourse | backend/courses/views.py:125-160 | refusals change nothing; a repeat purchase answers "already unlocked" with no new row; otherwise exactly one purchase at the course's price, and at most one per user and course |
| CourseViews.TipMessage | backend/courses/views.py:197 | the message cut to its first 280 characters |
| CourseViews.TipRefusal | backend/courses/views.py:163-189 | with tips enabled, a missing amount or a missing or falsy `payment_id` (the number 0 included) is refused with 400 "amount and payment_id are required"; a tip goes ahead exactly when tips are enabled, the amount parses to a positive number and a COMPLETED payment of the user is named; refusals are 400 or 404 |
| CourseViews.CourseStore.SendTip | backend/courses/views.py:163-202 | a refused tip changes nothing; an accepted one appends one tip to the course owner in the payment's currency with the cut message |
| CourseViews.FetchedLesson | backend/courses/views.py:439-453 | a fetched transcript is stored with its language and time, a missing URL and an `N/A` duration are filled in, and no other field changes |
| CourseViews.FallbackReply | backend/courses/views.py:463-500 | after a failed or raised fetch the manual transcript is served with success if there is one; otherwise success is false and a manual transcript is asked for, with the given status |
| CourseViews.CourseStore.FetchTranscript | backend/courses/views.py:415-500 | a stored transcript without forced refresh is served as `cached` and nothing changes; a fetch stores its result in that lesson only; failures reply 422 and exceptions 500 unless a manual transcript exists |
| CourseViews.FetchedThenCached | backend/courses/views.py:420-442 | after a fetch of a non-empty transcript that transcript is the lesson's, so the next fetch serves it |
| CourseViews.CourseStore.UpdateManualTranscript | backend/courses/views.py:512-535 | 403 for non-owners, 400 for an empty transcript, else only that lesson's manual transcript changes |
| CourseViews.PromptTranscript | backend/courses/views.py:551-585 | none when the lesson has no transcript; otherwise at most the first 3000 characters of `get_transcript` |
| CourseViews.StripJsonFence | backend/courses/views.py:607-617 | a reply wrapped in a "```json" fence comes back as its stripped body |
| CourseViews.StripFences | backend/courses/views.py:607-617 | the cleaned reply is no longer than the reply, has no whitespace at either end, and is empty for a blank reply |
| CourseViews.StripNoFence | backend/courses/views.py:607-617 | a reply without backquotes at either end is only stripped |
| CourseViews.Unfenced | backend/courses/views.py:610-615 | removing the fences never lengthens the reply, and leaves nothing of an empty one |
| CourseViews.UnfencedJson | backend/courses/views.py:610-615 | "```json", a body not starting with a backquote, and "```" give back exactly the body |
| UserModels.User.constructor | backend/users/models.py:17-35 | a new user has the given tier, no trial dates, no active trial and `free` as the tier to return to |
| UserModels.User.StartFreeTrial | backend/users/models.py:50-60 | the user record moves exactly as `StartTrial` says: a first trial makes the user PRO for 30 days, any later call changes nothing and answers false |
| UserModels.User.CheckTrialStatus | backend/users/models.py:62-71 | the record moves as `CheckTrial` says: an active trial past its end returns the user to the remembered tier |
| UserModels.User.GetEffectiveTier | backend/users/models.py:73-76 | the tier after the trial check, with the check's change applied to the record |
| UserModels.TrialOnlyOnce | backend/users/models.py:50-60 | only a user who never started a trial gets one, and neither a second call nor one after the trial ran out starts another |
| UserModels.TrialLifetime | backend/users/models.py:62-76 | for 30 days after the start the effective tier is PRO; afterwards it is the tier held before the trial, and the trial stays over |
| UserModels.NoTrialNoChange | backend/users/models.py:62-71 | without an active trial the check changes nothing and reports no trial |
| UserModels.UnknownTierIsFree | backend/users/models.py:108-117 | a tier value outside the table gets the free allowances for all three counters |
| UserModels.TierExtremes | backend/users/models.py:108-132 | a free user may never use AI; pro-plus and admin users are never refused |
| UserModels.TiersAreOrdered | backend/users/models.py:110-116 | learner allows at least what free allows, pro at least what learner allows, pro-plus at least what pro allows |
| UserModels.BelowDownward | backend/users/models.py:119-132 | the checks are strict `<` against the limit, so an allowed count stays allowed at any smaller count |
| UserModels.ResetsNextMonth | backend/users/models.py:100-106 | a usage month resets on the first of the following month, in January of the next year after December, later than the month itself |
| UserModels.ResetsAtCanRaise | backend/users/models.py:100-106 | a month row dated the 31st before a shorter month has no reset date: `replace` raises |
| AssessmentModels.RelatedLessonsShape | backend/assessments/models.py:48-53 | the list holds the tagged lessons and the source lesson and nothing else; the source comes first unless already tagged; no duplicates are added |
| AssessmentModels.EarnedAtMostTotal | backend/assessments/models.py:134-146 | an attempt never earns more points than the questions are worth |
| AssessmentModels.AllCorrectEarnsTotal | backend/assessments/models.py:134-146 | answering every question correctly earns every point |
| AssessmentModels.EssayEarnsNothing | backend/assessments/models.py:139-146 | essay questions earn nothing automatically |
| AssessmentModels.CaseAndSpaceIgnored | backend/assessments/models.py:139-146 | choice and true/false answers match ignoring case; short answers also ignoring surrounding whitespace |
| AssessmentModels.MissingAnswerIsEmpty | backend/assessments/models.py:138 | an unanswered question is graded as the empty answer |
| AssessmentModels.GradeQuestion | backend/assessments/models.py:138-146 | one loop step earns the question's points exactly when the answer matches under the type's rule |
| AssessmentModels.Tally | backend/assessments/models.py:133-146 | the loop's totals are the points earned and the points available |
| AssessmentModels.ScoreTextRoundTrip | backend/assessments/models.py:148 | the score text splits at its only `/` into the earned and total numbers, which read back as those numbers |
| AssessmentModels.PercentageRange | backend/assessments/models.py:149 | the percentage is 0 without points, lies in 0..100, and is 100 exactly for a full score |
| AssessmentModels.WholeMinutesBounds | backend/assessments/models.py:153-155 | the minutes taken are the elapsed seconds divided by 60, truncated toward zero |
| AssessmentModels.UserAttempt.constructor | backend/assessments/models.py:112-122 | a new attempt is IN_PROGRESS with score `0/0`, percentage 0 and no answers |
| AssessmentModels.UserAttempt.CalculateScore | backend/assessments/models.py:130-157 | the attempt gets the score text and percentage of its earned and total points, becomes GRADED, is stamped, and records the whole minutes taken |
| AssessmentModels.WordCount | backend/assessments/models.py:186-188 | the whitespace-separated word count, 0 exactly for blank notes |
| AssessmentModels.SortByTimeSorted | backend/assessments/models.py:206 | sorting by time leaves the notes ordered by time |
| AssessmentModels.SortByTimeOfSorted | backend/assessments/models.py:206 | an already sorted list is left as it is |
| AssessmentModels.VideoNotes.AddTimestampNote | backend/assessments/models.py:195-208 | the list grows by exactly the new note, keeps every old note, and is sorted by time |
| AssessmentModels.AddToSortedInserts | backend/assessments/models.py:195-208 | on sorted notes the new note lands after every note not later than it and before every later one; the old notes keep their order |
| AssessmentViews.QuestionList | backend/assessments/views.py:37-49 | every question in order; the correct answers and explanations go to the creator and to no one else |
| AssessmentViews.LearnersNeverSeeKeys | backend/assessments/views.py:43-47 | no question sent to a learner carries its answer or explanation |
| AssessmentViews.AttemptStore.OpenAttempt | backend/assessments/views.py:57-61 | the position of the learner's IN_PROGRESS attempt at the assessment, or none when there is none |
| AssessmentViews.AttemptStore.OpenAttemptUnique | backend/assessments/views.py:57-98 | with at most one open attempt per learner and assessment, the lookup finds exactly it |
| AssessmentViews.AttemptStore.Start | backend/assessments/views.py:51-78 | an existing open attempt is returned with 200 and nothing changes; otherwise one new IN_PROGRESS attempt is added with 201; at most one open attempt per learner and assessment is kept |
| AssessmentViews.AttemptStore.Submit | backend/assessments/views.py:80-104 | 400 without answers, 404 without an open attempt; otherwise that attempt gets the answers and is graded, leaving it GRADED with its score, percentage, submission time and `time_taken_minutes` set to the whole minutes since it started, its user, assessment and start kept, and every other attempt untouched; the error replies change no attempt |
| AssessmentViews.AttemptStore.History | backend/assessments/views.py:139-147 | exactly the requesting learner's GRADED attempts |
| PaymentViews.InitialRecord | backend/payments/views.py:76-92 | a new payment is PENDING unless the sandbox `status` names a payment status; it is stamped exactly when not PENDING; its reference is the request's or a fresh one |
| PaymentViews.MpesaNeedsPhone | backend/payments/views.py:96-100 | an M-Pesa payment without a phone number ends FAILED and the reply is 400 |
| PaymentViews.CardCompletedIff | backend/payments/views.py:117-135 | a card payment with a token ends COMPLETED exactly when the provider's payload says `completed`, FAILED otherwise, with the payload merged into its metadata |
| PaymentViews.OverrideCompletes | backend/payments/views.py:76-78 | a bank-transfer request naming `completed` as its status yields a COMPLETED payment with 201 |
| PaymentViews.PaymentStore.Initiate | backend/payments/views.py:52-150 | 400 without a method id or amount, for an inactive method or an unparseable amount, with nothing stored; otherwise exactly one new payment with the request's fields and upper-cased currency, whose status and reply follow the provider branch |
| PaymentViews.PaymentStore.RunProvider | backend/payments/views.py:94-147 | the provider branch changes the new payment's status, stamp, reference and metadata exactly as the provider step says, and returns its status |
| PaymentViews.CallbackRecord | backend/payments/views.py:174-180 | result code 0 completes the payment and any other code fails it with the description; the callback is kept under `mpesa_callback`, the payment is stamped and its reference kept |
| PaymentViews.PaymentStore.WithReference | backend/payments/views.py:169-172 | exactly the positions of the payments whose reference is the checkout id |
| PaymentViews.PaymentStore.Callback | backend/payments/views.py:160-182 | 400 without a checkout id, 404 when no payment has it, a server error when several do; otherwise that payment is settled as the callback record says |
| PaymentViews.PaymentStore.Settle | backend/payments/views.py:174-180 | the matched payment's new status, stamp and metadata are the callback record of its old ones |
| PaymentViews.PaymentStore.PaymentOf | backend/payments/views.py:216-219 | the position of the user's payment with that id, or none when the user has none |
| PaymentViews.PaymentStore.SubscriptionOf | backend/payments/views.py:227-228 | the position of the user's subscription, or none |
| PaymentViews.PaymentStore.UpgradeRefusal | backend/payments/views.py:213-222 | 400 without a tier or payment id, 404 for a payment the user does not own, 400 unless it is COMPLETED; no refusal exactly when the user's payment is COMPLETED |
| PaymentViews.PaymentStore.Upgrade | backend/payments/views.py:207-270 | a refused upgrade changes nothing; otherwise the user's one subscription is ACTIVE on the tier from now for the given days, renews, is priced and paid by that payment, and the account takes the tier |
| PaymentViews.PaymentStore.Activate | backend/payments/views.py:226-267 | creates the user's subscription when there is none, overwrites it otherwise, keeping one subscription per user |
| PaymentViews.PaymentStore.Overwrite | backend/payments/views.py:241-262 | every overwritten field of the existing subscription takes the new tier, dates and payment's method, price and currency, and it renews |
| PaymentViews.PaymentStore.CancelSubscription | backend/payments/views.py:280-285 | 404 without a subscription; otherwise it stops renewing and is CANCELLED, with its tier, price, currency, payment method, last payment, start and expiry unchanged, and no other subscription changes |
| RenewSubscriptions.RenewalOf | backend/payments/management/commands/renew_subscriptions.py:58-81 | an M-Pesa renewal is never COMPLETED, any other method's always is; the subscription is extended exactly when the renewal did not fail |
| RenewSubscriptions.RenewalAsWritten | backend/payments/management/commands/renew_subscriptions.py:58-81 | as written, a configured M-Pesa renewal is never COMPLETED, while an unconfigured M-Pesa renewal and any other method's are COMPLETED and extended; no reference is ever kept |
| RenewSubscriptions.UnconfiguredMpesaCompletes | backend/payments/management/commands/renew_subscriptions.py:36-71 | as written, an unconfigured M-Pesa renewal is COMPLETED and extended; the corrected renewal leaves it PENDING |
| RenewSubscriptions.SentPushLosesCheckout | backend/payments/management/commands/renew_subscriptions.py:60-67 | as written, a sent STK push leaves the payment without the checkout id a callback matches on; the corrected renewal stores it |
| RenewSubscriptions.CompletedOnlyWithoutMpesa | backend/payments/management/commands/renew_subscriptions.py:60-71 | a renewal is COMPLETED exactly when the method is not M-Pesa |
| RenewSubscriptions.Settle | backend/payments/management/commands/renew_subscriptions.py:58-81 | corrected behaviour (see Findings): the new payment's status, metadata and reference are those of the corrected renewal `RenewalOf`, it is stamped exactly when no longer PENDING, and the extension flag is the renewal's |
| RenewSubscriptions.RenewOne | backend/payments/management/commands/renew_subscriptions.py:42-81 | corrected behaviour (see Findings): a subscription without a payment method is skipped; otherwise one fresh payment for its user, price, currency, method and last phone number, settled by `RenewalOf`, and 30 more days, ACTIVE and linked to it unless the renewal failed |
| RenewSubscriptions.RenewAll | backend/payments/management/commands/renew_subscriptions.py:23-81 | corrected behaviour (see Findings): each due subscription with a payment method gets exactly one fresh payment for its user, price, currency, method and last phone number, with the status, metadata and reference of `RenewalOf`, and unless the renewal failed is extended by 30 days, made ACTIVE and has that payment as its last payment; every other subscription gets no payment and keeps its expiry, status and last payment; no other field of a subscription changes |
| StudyGroups.JoinMembership | backend/study_groups/views.py:46-53 | a join answers 200 exactly when the user is a member afterwards and 400 exactly for a non-member of a full group; it removes nobody, adds at most the user, and never grows a group past `max_members` |
| StudyGroups.JoinIdempotent | backend/study_groups/views.py:46-53 | joining twice leaves the same members as joining once |
| StudyGroups.LeaveMembership | backend/study_groups/views.py:56-61 | after a leave the user is not a member and nobody else went; 200 exactly for a member |
| StudyGroups.LeaveUndoesJoin | backend/study_groups/views.py:46-61 | a non-member who joins and then leaves restores the group's members |
| StudyGroups.StudyGroup.constructor | backend/study_groups/views.py:41-43 | a new group's only member is its creator |
| StudyGroups.StudyGroup.Join | backend/study_groups/views.py:46-53 | the members and status after a join are as the join rule says |
| StudyGroups.StudyGroup.Leave | backend/study_groups/views.py:56-61 | the members and status after a leave are as the leave rule says |
| StudyGroups.GroupStore.GroupAt | backend/study_groups/views.py:80-81 | the group with the requested id, or none for a missing id or an unknown group |
| StudyGroups.GroupStore.CreateGroup | backend/study_groups/views.py:41-43 | one fresh group is stored, created by the user, with the user as its only member |
| StudyGroups.GroupStore.CreatePost | backend/study_groups/views.py:79-84 | 404 for an unknown group, 403 for a non-member, both storing nothing; otherwise exactly the member's post is appended |
| StudyGroups.GroupStore.CreateChallenge | backend/study_groups/views.py:102-107 | 404 for an unknown group, 403 unless the user created the group or is staff; otherwise exactly the challenge is appended |
| StudyGroups.OfChallenge | backend/study_groups/views.py:112 | exactly the participations of the challenge |
| StudyGroups.Leaderboard | backend/study_groups/views.py:109-114 | at most 50 rows, all of them when the challenge has no more |
| StudyGroups.LeaderboardMembers | backend/study_groups/views.py:112 | every leaderboard row is a participation of that challenge |
| StudyGroups.LeaderboardRanked | backend/study_groups/views.py:112 | the rows are ordered by score, then last update, both descending; with at most 50 participations they are all there |
| StudyGroups.LeaderboardIsTop | backend/study_groups/views.py:112 | every participation left off ranks behind every row shown |
| Community.LikersOf | backend/community/models.py:23-25 | a user is among a post's likers exactly when their like row exists |
| Community.ToggleLikeEffect | backend/community/views.py:65-82 | `liked` is reported exactly when the user had not liked the post, with 201; the like count moves by one and no other like changes |
| Community.ToggleTwiceRestores | backend/community/views.py:65-82 | two toggles by the same user restore the likes |
| Community.EditImpliesDelete | backend/community/views.py:30-44 | an author may edit and delete; anyone else may delete exactly when staff, and never edit |
| Community.CommunityStore.UpdatePost | backend/community/views.py:30-36 | 404 for a missing post, 403 for anyone but its author with nothing changed; otherwise only its content changes |
| Community.CommunityStore.DeletePost | backend/community/views.py:38-44 | 404, 403 unless author or staff; otherwise the post goes with exactly its comments and likes, and every comment and like still belongs to a post |
| Community.CommunityStore.Like | backend/community/views.py:65-82 | 404 for a missing post; otherwise the likes, `liked` and the status are the toggle's |
| Community.CommunityStore.UpdateComment | backend/community/views.py:106-112 | 404 for a missing comment, 403 for anyone but its author; otherwise only its content changes |
| Community.CommunityStore.DeleteComment | backend/community/views.py:114-120 | 404, 403 unless author or staff; otherwise exactly that comment goes |
| YouTubeViews.TranscriptKeyDeterminedBySource | backend/api/youtube_views.py:38 | the transcript cache key depends on the URL and language only through `url:language` |
| YouTubeViews.KeySourceShared | backend/api/youtube_views.py:38 | a URL with a colon and a shorter URL with a longer language can share a cache key |
| YouTubeViews.NotesStore.ExtractTranscript | backend/api/youtube_views.py:28-79 | 400 without a URL; a cached entry is served as cached; otherwise only a successful extraction is cached, for 3600 s, a failure is 422 and an exception 500 with nothing cached |
| YouTubeViews.InfoOf | backend/api/youtube_views.py:120-125 | `has_transcript` holds exactly when some transcript language is available |
| YouTubeViews.NotesStore.GetVideoInfo | backend/api/youtube_views.py:89-140 | 400 without a URL or without a readable video ID; a cached entry is served as cached; otherwise the info is answered and cached for 21600 s |
| YouTubeViews.NotesPreview | backend/api/youtube_views.py:237 | notes up to 200 characters are shown whole; longer ones as their first 200 characters and `...` |
| YouTubeViews.NotesPreviewBounded | backend/api/youtube_views.py:237 | a preview has at most 203 characters and starts like the notes |
| YouTubeViews.TimeLabelRoundTrip | backend/api/youtube_views.py:300 | a time label is at least two digits of minutes, a colon and two digits of seconds below 60, and reading them back gives the time |
| YouTubeViews.TimeLabelFiveChars | backend/api/youtube_views.py:300 | under 100 minutes the label is exactly `MM:SS` |
| YouTubeViews.LinesOf | backend/api/youtube_views.py:299-301 | one line per timestamped note, in order, each built from that note |
| YouTubeViews.RenderNotes | backend/api/youtube_views.py:299-301 | the built content is the header followed by the notes' lines in order |
| YouTubeViews.NotesStore.NotesOf | backend/api/youtube_views.py:209-210 | the user's notes row for the video, or none |
| YouTubeViews.NotesStore.SaveNotes | backend/api/youtube_views.py:158-186 | 400 without a video ID; otherwise the user's row for the video is overwritten, or a fresh one is made and reported as created, keeping one row per user and video |
| YouTubeViews.NotesStore.DownloadNotes | backend/api/youtube_views.py:260-336 | 404 unless the row is the user's, 400 for a format other than `txt` or `md`; otherwise the file `notes_<id>.<ext>` holding the header and one line per timestamped note |
| YouTubeViews.SaveNotesAlwaysFails | backend/api/youtube_views.py:171-186 | as written, every request with a video ID ends in a 500 |
| YouTubeViews.SaveNotesStatusAsWritten | backend/api/youtube_views.py:158-186 | as written, the reply is 400 exactly without a video ID and is never a success |
| ErrorHandler.Lookup | src/utils/errorHandler.ts:93 | a body's property is present exactly when some entry has that key, and then it is that entry's value |
| ErrorHandler.FieldErrors | src/utils/errorHandler.ts:96-101 | a non-empty object gives a non-empty `field: message` list; anything but an object gives nothing |
| ErrorHandler.NullBodyThrows | src/utils/errorHandler.ts:93-101 | a 400 whose body is JSON `null` reaches `Object.entries(null)`, which throws; for every other value the as-written extraction agrees with the corrected one |
| ErrorHandler.FieldErrorsAsWritten | src/utils/errorHandler.ts:93-101 | as written, only a JSON `null` body throws; for every other value the extraction agrees with the corrected one |
| ErrorHandler.NoResponseError | src/utils/errorHandler.ts:26-48 | without a response the error is a timeout exactly for `ECONNABORTED` and a network error otherwise; it has no status and is neither a server nor a client error |
| ErrorHandler.BadRequest | src/utils/errorHandler.ts:91-110 | a 400 is a BAD_REQUEST client error with status 400 |
| ErrorHandler.OtherStatusError | src/utils/errorHandler.ts:122-138 | a remaining status from 400 up is a CLIENT_ERROR, one below 400 an UNKNOWN_ERROR; the status is kept |
| ErrorHandler.ResponseError | src/utils/errorHandler.ts:50-138 | with a response the status is kept, it is a server error exactly from 500 and a client error exactly from 400 to 499, and every status from 500 is a SERVER_ERROR, tried before any 4xx case |
| ErrorHandler.HandleApiError | src/utils/errorHandler.ts:18-139 | a falsy error gives the unknown-error message and no code; a thrown one always gets a code; the status is the response's; timeout, network, server and client flags hold exactly in their cases |
| ErrorHandler.StatusCodes | src/utils/errorHandler.ts:53-138 | each response status gets exactly one code: SERVER_ERROR from 500, UNAUTHORIZED, FORBIDDEN, NOT_FOUND, BAD_REQUEST and RATE_LIMITED for 401, 403, 404, 400 and 429, CLIENT_ERROR for the other 4xx, UNKNOWN_ERROR below 400 |
| ErrorHandler.NoResponseCodes | src/utils/errorHandler.ts:26-48 | without a response the code is TIMEOUT exactly for `ECONNABORTED`, NETWORK_ERROR exactly for `ERR_NETWORK`, CONNECTION_ERROR otherwise |
| ErrorHandler.BadRequestMessages | src/utils/errorHandler.ts:91-110 | a 400 reports the `field: message` pairs joined by ", " when what it reports is a non-empty object, the generic message otherwise, and carries what it reports as details |
| ErrorHandler.ErrorMessagesPriority | src/utils/errorHandler.ts:93 | a truthy `errors` wins over a truthy `detail`, which wins over the body itself |
| ErrorHandler.RecoverableIff | src/utils/errorHandler.ts:180-188 | an error is recoverable exactly when it has no response (timeout, network or connection failure) or its status is 429 or at least 500 |
| ErrorHandler.RetryFromShape | src/utils/errorHandler.ts:198-217 | from any attempt on, the loop makes at most the remaining calls, waits `baseDelay * 2^(k-1)` after each failed attempt `k` it retries, retries only recoverable failures, and ends with the last call's value or error |
| ErrorHandler.RetryShape | src/utils/errorHandler.ts:193-220 | `fn` is called at most `maxAttempts` times and at least once when `maxAttempts >= 1`; the waits double from `baseDelay`; every call but the last failed recoverably; the result is the last call's value, or its error rethrown, which is non-recoverable unless attempts ran out; with no attempts `undefined` is thrown |
| ErrorHandler.Retry | src/utils/errorHandler.ts:193-220 | `fn` is called at most `maxAttempts` times, never exactly when `maxAttempts < 1`; one wait fewer than calls; the result is returned exactly when the last call resolved |
| ErrorHandler.RetryExhausts | src/utils/errorHandler.ts:198-213 | when every attempt fails recoverably, `fn` is called exactly `maxAttempts` times and the last error is rethrown |
| ErrorHandler.RetryWithBackoff | src/utils/errorHandler.ts:193-220 | the loop ends as `Retry` says: the same result, number of calls and waits |
| ApiConfig.RawBaseUrl | src/config/api.ts:1 | an unset or empty `VITE_API_BASE_URL` gives `http://localhost:8000/api`; any other setting is taken as it is |
| ApiConfig.TrimTrailingSlashes | src/config/api.ts:2 | the result is a prefix of the URL that does not end in a slash, and everything removed is slashes |
| ApiConfig.TrimUnique | src/config/api.ts:2 | a URL made of a slash-free-ending prefix and any number of slashes trims to exactly that prefix |
| ApiConfig.NormalizeBaseUrl | src/config/api.ts:2-3 | the normalised base URL ends with `/api` and never with a slash |
| ApiConfig.NormalizeKeepsOrAppends | src/config/api.ts:3 | the trimmed URL is kept exactly when it already ends with `/api`, and gets `/api` appended exactly when it does not |
| ApiConfig.TrailingSlashesIgnored | src/config/api.ts:2-3 | any number of trailing slashes on the setting give the same base URL |
| ApiConfig.NormalizeIdempotent | src/config/api.ts:2-3 | normalising a normalised base URL changes nothing |
| ApiConfig.DefaultBase | src/config/api.ts:1-3 | with no setting, or an empty one, the base URL is the default one, unchanged by normalisation |
| ApiConfig.AuthPath | src/config/api.ts:15-18 | every auth endpoint begins with one slash and ends with a slash |
| ApiConfig.UserPath | src/config/api.ts:21-22 | every user endpoint begins with one slash and ends with a slash |
| ApiConfig.CoursePath | src/config/api.ts:25-29 | every fixed course endpoint begins with one slash and ends with a slash |
| ApiConfig.AssessmentPath | src/config/api.ts:33-37 | every fixed assessment endpoint begins with one slash and ends with a slash |
| ApiConfig.PostPath | src/config/api.ts:41-45 | every fixed community endpoint begins with one slash and ends with a slash |
| ApiConfig.AiPath | src/config/api.ts:48-51 | every AI endpoint begins with one slash and ends with a slash |
| ApiConfig.YoutubePath | src/config/api.ts:54-57 | every YouTube endpoint begins with one slash and ends with a slash |
| ApiConfig.BuilderPath | src/config/api.ts:26-63 | every id-parameterised builder's path begins with one slash and ends with a slash, whatever the id |
| ApiConfig.Path | src/config/api.ts:13-64 | every entry of `API_ENDPOINTS` begins with one slash and ends with a slash |
| ApiConfig.IdDetermined | src/config/api.ts:26-63 | two paths from the same builder are equal only for the same id |
| ApiConfig.UrlJoin | src/config/api.ts:3-64 | the base URL followed by any endpoint reads `/api/` at the join, with no doubled slash |
| App.ToggleLikeIn | App.tsx:284-291 | a post with the id flips `liked` and has one like more when now liked, one fewer when now unliked, every other field kept; every other post is unchanged |
| App.ToggleLikeTwice | App.tsx:284-291 | toggling the same post's like twice restores the posts |
| App.ToggleLikeCount | App.tsx:284-291 | after a toggle, a liked post has one like more and an unliked one one like fewer than before |
| App.AuthorName | App.tsx:295 | the comment's author is the username, or `User` when it is empty |
| App.AddCommentTo | App.tsx:293-301 | a post with the id gets exactly one comment more, at the end of its comments; every other post is unchanged |
| App.LikeAndCommentCommute | App.tsx:284-301 | toggling a like and adding a comment give the same posts in either order |
| App.WithoutPost | App.tsx:306 | the posts kept are exactly those without the id; a single post is kept exactly when its id differs |
| App.WithoutPostAppend | App.tsx:306 | filtering distributes over concatenation, so with the one-post case the kept posts keep their order and multiplicity |
| App.WithoutAbsent | App.tsx:306 | filtering posts none of which has the id keeps them all, in order |
| App.WithoutPostIdempotent | App.tsx:306 | deleting the same id twice removes no more than deleting it once |
| App.DeletePostIn | App.tsx:303-308 | only an admin who confirms removes anything, and then the posts are filtered by `WithoutPost`: exactly the posts with the id go, the others stay in order |
| App.Patched | App.tsx:318-320 | a patched lesson keeps its id, and is completed as the update says, or as before when the update does not say |
| App.PatchLessons | App.tsx:318-320 | exactly the lessons with the id are patched |
| App.UpdateLessonIn | App.tsx:313-333 | only the named course changes: its lessons with the named id are patched and its progress is recomputed from the patched lessons |
| App.ProgressIsRounded | App.tsx:323-324 | a course with lessons gets its completed share in percent rounded to the nearest whole number, halves up; it lies between 0 and 100, is 0 with nothing completed and 100 with everything completed |
| App.CompletingNeverLowers | App.tsx:318-323 | marking a lesson completed never lowers a course's completed count |
| App.CompletingNeverLowersScore | App.tsx:202-333 | marking a lesson completed never lowers the user's score |
| App.AppState.UserScore | App.tsx:202-215 | the score is 50 per completed lesson over all courses plus 100 per completed assessment |
| App.TierChange | App.tsx:227-234 | the tier is the new one; an admin ends on the admin panel; a non-admin never does, leaves it for the dashboard, and otherwise keeps the view |
| App.TierChangeIdempotent | App.tsx:227-234 | choosing the same tier a second time changes nothing more |
| App.PrivateCount | App.tsx:421 | the own courses are at most all the courses |
| App.CreateCourseView | App.tsx:420-427 | creating a course leads to billing exactly when the tier has a course limit and the own courses have reached it, and to the course form otherwise |
| App.UpgradeNeverBlocks | App.tsx:185-191 | a user a tier lets create a course is let create one by every higher tier |
| App.UnlimitedTiers | App.tsx:185-191 | pro, pro-plus and admin users are never sent to billing |
| App.FindByTitle | App.tsx:343 | the course found has the title; none is found only when no course has it |
| App.FindById | App.tsx:367 | the course found has the id; none is found only when no course has it |
| App.FindByVideo | App.tsx:368 | the lesson found has the video; none is found only when no lesson has it |
| App.AddLessonTo | App.tsx:385-393 | every course with the id gets the lesson at the end of its lessons; the others are unchanged |
| App.SessionReusesLesson | App.tsx:364-404 | without a lesson id, a video the target course already has reuses that lesson and leaves the courses unchanged; otherwise the target course gets one lesson more at the end, with that video, the transcript and the title `title \|\| 'Untitled Session'` |
| App.SessionPersonalCourse | App.tsx:340-361 | without a course id the session goes to the existing "Personal Learning" course, or to a new private one appended after the others |
| App.LessonTitle | App.tsx:378 | `title \|\| 'Untitled Session'`: a non-empty title is kept, an absent or empty one gives the default, so the title is never empty |
| App.Destructure | App.tsx:336-337 | destructuring the payload object reads its video and transcript; a string passed in its place has none of the fields |
| App.SetupHandOffAsWritten | components/SetupSession.tsx:31 | as written, a submitted setup form passes the id string as the handler's only argument and drops the transcript |
| App.SetupHandOffLosesSession | components/SetupSession.tsx:31-35 | as written, the handler receives neither video nor transcript from a submitted setup form, nor a video from the example button |
| App.SetupHandOff | components/SetupSession.tsx:31 | corrected: a submitted form hands on one payload with the well-formed id and the transcript, which destructuring reads back |
| App.SetupSessionOpens | App.tsx:336-406 | with the corrected hand-off the session opens on the form's video and transcript in the "Personal Learning" course, the existing one or a new one |
| App.AppState.ChangeTier | App.tsx:227-234 | the tier and view become what `TierChange` says |
| App.AppState.ToggleLike | App.tsx:284-291 | the posts become what `ToggleLikeIn` says |
| App.AppState.AddComment | App.tsx:293-301 | the posts become what `AddCommentTo` says |
| App.AppState.DeletePost | App.tsx:303-308 | the posts become what `DeletePostIn` says for the current tier |
| App.AppState.UpdateLesson | App.tsx:313-333 | the courses become what `UpdateLessonIn` says |
| App.AppState.NavigateToCreateCourse | App.tsx:420-427 | the view becomes what `CreateCourseView` says for the current courses and tier |
| App.AppState.SessionStarted | App.tsx:336-406 | the courses and session become what `SessionCreated` says, and the view is the learning session |
| App.AppState.SetupSubmitted | components/SetupSession.tsx:19-32 | corrected hand-off: a refused form changes nothing; otherwise the courses, session and view become what `SessionCreated` says for the form's payload |
| CreateExam.NewQuestion | components/CreateExamPage.tsx:53-120 | a new question has the chosen type, the given id and its type's default points, with empty text and the type's starting fields (four empty options, one empty answer, 500 words, no rubric, an empty passage, the sample cloze text) |
| CreateExam.HigherTierAllowsMore | components/CreateExamPage.tsx:32-38 | a higher tier enables every question type a lower one does, and its question cap is no smaller (unbounded when the lower one is) |
| CreateExam.AddQuestion | components/CreateExamPage.tsx:122-130 | adding is refused exactly when the tier has a cap and the list has reached it; otherwise the list gains the new question at the end and is otherwise unchanged |
| CreateExam.AddKeepsCap | components/CreateExamPage.tsx:122-130 | a list within the cap stays within it after adding |
| CreateExam.UpdateQuestion | components/CreateExamPage.tsx:132-134 | every question with the id is replaced by the update; every other question stays in its place |
| CreateExam.UpdateAbsent | components/CreateExamPage.tsx:132-134 | updating an id no question carries leaves the list unchanged |
| CreateExam.RemoveQuestion | components/CreateExamPage.tsx:136-138 | a question remains exactly when it was in the list and its id differs |
| CreateExam.RemoveAbsent | components/CreateExamPage.tsx:136-138 | removing an id no question carries leaves the list unchanged |
| CreateExam.RemoveIdempotent | components/CreateExamPage.tsx:136-138 | removing an id twice is removing it once |
| CreateExam.RemoveAppend | components/CreateExamPage.tsx:136-138 | removal distributes over appending one question: the appended question stays exactly when its id differs |
| CreateExam.Distinct | components/CreateExamPage.tsx:168 | the distinct types hold exactly the types of the input, each once |
| CreateExam.Types | components/CreateExamPage.tsx:168 | one type per question, position by position |
| CreateExam.Submit | components/CreateExamPage.tsx:140-172 | submission fails exactly when the trimmed title is blank, there is no question, or a question is incomplete, with the title's and the empty list's alerts first; on success the exam data holds the trimmed fields, the time, the count and the questions, and each type that occurs exactly once |
| CreateExam.SavedTitleNotBlank | components/CreateExamPage.tsx:140-172 | a saved exam has a non-blank title and at least one question |
| CreateExam.TotalPointsAppend | components/CreateExamPage.tsx:174-183 | the total of two lists put together is the sum of their totals |
| CreateExam.AddRaisesTotal | components/CreateExamPage.tsx:174-183 | adding a question raises the total by its default points, and a new passage adds nothing |
| CreateExam.RemoveLowersTotal | components/CreateExamPage.tsx:174-183 | removing an id lowers the total by exactly the worth of the questions carrying it |
| Cloze.CloseFrom | components/ClozeQuestionCreator.tsx:22 | the lazy `.*?\]` finds the first `]` from the start, with no `]` and no line break before it, or nothing |
| Cloze.GroupEnd | components/ClozeQuestionCreator.tsx:22 | a bracket group found at an index is `[`, then a body without `]` or a line break, then `]` |
| Cloze.GroupSlice | components/ClozeQuestionCreator.tsx:22 | a `[`, a body without `]` or line breaks, and a `]` form a bracket group |
| Cloze.SplitFromShape | components/ClozeQuestionCreator.tsx:39 | the split alternates texts and captured groups: one more text than groups, every odd piece a group |
| Cloze.SplitFromConcat | components/ClozeQuestionCreator.tsx:39 | the split's pieces put back together give the text from where the scan started |
| Cloze.PartsReassemble | components/ClozeQuestionCreator.tsx:22-39 | the preview's pieces spell out the question text, and it holds exactly one group per blank the points count |
| Cloze.UpdateQuestion | components/ClozeQuestionCreator.tsx:19-34 | a text edit sets the text and the points to the number of blanks, at least 1; any other edit changes that field alone |
| Cloze.TextEditScoresBlanks | components/ClozeQuestionCreator.tsx:19-27 | after a text edit the question is worth at least one point and at least one per blank, exactly one per blank when there is one, with the id kept |
| Cloze.OtherEditsKeepPoints | components/ClozeQuestionCreator.tsx:28-33 | an edit of a field other than the text and the points keeps both |
| Cloze.SegmentsAsWritten | components/ClozeQuestionCreator.tsx:42-56 | the preview as written draws one segment per piece |
| Cloze.PreviewShowsUnscoredBlank | components/ClozeQuestionCreator.tsx:36-56 | for the text `[`, line feed, `]` no blank is counted, yet the preview as written draws one blank input |
| Cloze.PreviewAsWritten | components/ClozeQuestionCreator.tsx:36-56 | as written, no preview exactly for empty text, otherwise one segment per piece of the split |
| Cloze.Classify | components/ClozeQuestionCreator.tsx:42-56 | the corrected preview draws one segment per piece |
| Cloze.ClassifyBlanks | components/ClozeQuestionCreator.tsx:42-56 | when the pieces at the group places are groups, the corrected preview draws exactly one blank per group place |
| Cloze.ClassifyAt | components/ClozeQuestionCreator.tsx:42-56 | at a group place the corrected preview draws what the preview as written draws; at a text place it draws the text |
| Cloze.PreviewBlanksScored | components/ClozeQuestionCreator.tsx:22-56 | the corrected preview of a non-empty text draws exactly as many blank inputs as the points count blanks, agrees with the preview as written at every group, and draws every text piece as text |
| Passage.WordCountMeaning | components/PassageQuestionCreator.tsx:48 | every passage counts at least one word; a blank passage counts one, and any other counts its words, whose characters are exactly its non-space characters |
| Passage.SetField | components/PassageQuestionCreator.tsx:44 | replacing a field keeps a passage question |
| Passage.UpdateQuestion | components/PassageQuestionCreator.tsx:43-52 | the edited field takes the new value and every other field is kept; a new passage text also sets the word count to that text's count |
| Passage.AddSubQuestion | components/PassageQuestionCreator.tsx:54-66 | one new multiple-choice sub-question is appended after the others, and the passage and its word count are kept |
| Passage.SetSubField | components/PassageQuestionCreator.tsx:68-73 | an edited sub-question keeps its id; a points entry becomes its number, or 1 when it is not a non-zero number; other edits keep the points |
| Passage.UpdateSubs | components/PassageQuestionCreator.tsx:68-73 | every sub-question with the id is edited, every other stays in its place |
| Passage.UpdateSubQuestion | components/PassageQuestionCreator.tsx:68-73 | the question's sub-questions become the edited ones |
| Passage.RemoveSubs | components/PassageQuestionCreator.tsx:75-78 | a sub-question remains exactly when it was there and its id differs; a single one remains exactly when its id differs |
| Passage.RemoveSubsAppend | components/PassageQuestionCreator.tsx:75-78 | removal distributes over concatenation, so with the one-element case the remaining sub-questions keep their order and multiplicity |
| Passage.RemoveSubQuestion | components/PassageQuestionCreator.tsx:75-78 | the question's sub-questions become the remaining ones |
| Passage.TotalPoints | components/PassageQuestionCreator.tsx:92-94 | the passage's total is the worth the exam page counts for it |
| Passage.AddSubRaisesTotal | components/PassageQuestionCreator.tsx:54-94 | adding a sub-question raises the total by one point |
| Passage.UpdateKeepsPoints | components/PassageQuestionCreator.tsx:68-94 | an edit other than the points leaves the total unchanged |
| Passage.RemoveSubsAbsent | components/PassageQuestionCreator.tsx:75-78 | removing an id no sub-question carries changes nothing |
| Passage.RemoveSubsIdempotent | components/PassageQuestionCreator.tsx:75-78 | removing an id twice is removing it once |
| Passage.ReadingTime | components/PassageQuestionCreator.tsx:87-90 | the estimate is the word count divided by 225, rounded up: the least whole number of minutes covering the words |
| Passage.ReadingTimeMonotone | components/PassageQuestionCreator.tsx:87-90 | more words never give a shorter estimate, and a passage with a word takes at least a minute |
| Passage.ToggleReadingLimit | components/PassageQuestionCreator.tsx:355 | ticking sets the limit to the estimate plus two minutes, unticking removes it; the passage and sub-questions are kept |
| Passage.LimitOfEntry | components/PassageQuestionCreator.tsx:367 | the typed limit is kept as read when it reads as a non-zero number; an unreadable or zero entry removes the limit |
| Passage.LimitAfterText | components/PassageQuestionCreator.tsx:43-90 | after a text edit, ticking the limit gives at least three minutes and leaves two spare minutes beyond the reading time |
| Essay.UpdateQuestion | components/EssayQuestionCreator.tsx:22-27 | the edited field takes the new value and every other field is kept; the word limit and points entries become their number, or 0 when not a non-zero number |
| Essay.UnreadablePointsAreZero | components/EssayQuestionCreator.tsx:119 | an unreadable or zero points entry gives zero base points |
| Essay.AddRubricCriterion | components/EssayQuestionCreator.tsx:29-37 | one five-point criterion is appended after the others; the points and text are kept |
| Essay.SetCriterionField | components/EssayQuestionCreator.tsx:39-44 | an edited criterion keeps its id and changes its points only when the points are edited |
| Essay.UpdateCriteria | components/EssayQuestionCreator.tsx:39-44 | every criterion with the id is edited, every other stays in its place |
| Essay.UpdateRubricCriterion | components/EssayQuestionCreator.tsx:39-44 | the rubric becomes the edited one; the base points are kept |
| Essay.RemoveCriteria | components/EssayQuestionCreator.tsx:46-49 | a criterion remains exactly when it was there and its id differs; a single one remains exactly when its id differs |
| Essay.RemoveCriteriaAppend | components/EssayQuestionCreator.tsx:46-49 | removal distributes over concatenation, so with the one-element case the remaining criteria keep their order and multiplicity |
| Essay.RemoveRubricCriterion | components/EssayQuestionCreator.tsx:46-49 | the rubric becomes the remaining criteria; the base points are kept |
| Essay.TotalPoints | components/EssayQuestionCreator.tsx:67 | the rubric's total plus the base points is the worth the exam page counts for the essay |
| Essay.AddRaisesTotal | components/EssayQuestionCreator.tsx:29-67 | a new criterion raises the rubric total by five |
| Essay.TextEditsKeepTotal | components/EssayQuestionCreator.tsx:39-67 | renaming or redescribing criteria leaves the rubric total unchanged |
| Essay.PointsEditMovesTotal | components/EssayQuestionCreator.tsx:39-67 | setting one uniquely named criterion's points moves the total by the difference |
| Essay.UpdateCriteriaAbsent | components/EssayQuestionCreator.tsx:39-44 | editing an id no criterion carries changes nothing |
| Essay.RemoveAbsent | components/EssayQuestionCreator.tsx:46-49 | removing an id no criterion carries changes nothing |
| Essay.EnterCriterionPoints | components/EssayQuestionCreator.tsx:171 | the criterion with the id gets the typed points as read, 0 when the entry does not read as a number; every criterion keeps its id and the others keep their points |
| ShortAnswer.AddCorrectAnswer | components/ShortAnswerQuestionCreator.tsx:38-43 | a pending answer with a non-space character is appended trimmed and the input cleared; a blank one changes neither |
| ShortAnswer.AddedAnswerIsClean | components/ShortAnswerQuestionCreator.tsx:38-43 | an added answer adds exactly one entry, clears the input, is not blank and has no whitespace at its ends |
| ShortAnswer.RemoveCorrectAnswer | components/ShortAnswerQuestionCreator.tsx:45-48 | the answers without the one at the index, in order; an index outside the list removes nothing |
| ShortAnswer.UpdateCorrectAnswer | components/ShortAnswerQuestionCreator.tsx:50-54 | the copied list with the one cell replaced |
| ShortAnswer.RemoveForgetsUpdate | components/ShortAnswerQuestionCreator.tsx:45-54 | removing an edited answer gives the list that removing it unedited gives |
| ShortAnswer.AddRemoveRoundTrip | components/ShortAnswerQuestionCreator.tsx:38-48 | removing the answer just added, at its index, gives back the answers as they were |
| ShortAnswer.RemoveShifts | components/ShortAnswerQuestionCreator.tsx:45-48 | removing shortens the list by one, keeps the answers before the index and shifts those after it down by one |
| ShortAnswer.UpdateQuestion | components/ShortAnswerQuestionCreator.tsx:31-36 | the edited field takes the new value and every other field is kept; the points entry becomes its number or 1, the length entry its number or 100 |
| ShortAnswer.NumericEntriesNeverZero | components/ShortAnswerQuestionCreator.tsx:143 | neither points nor the length limit can be set to zero; an unreadable entry gives 1 point and a limit of 100 |
| QuizView.CorrectAmong | components/QuizView.tsx:14-16 | the count of right picks among the first questions is at most their number |
| QuizView.Score | components/QuizView.tsx:12-17 | the score is 0 before submission or without a quiz, and never more than the number of questions |
| QuizView.FullMarksIff | components/QuizView.tsx:14-16 | the count reaches the number of questions exactly when each of them is answered right |
| QuizView.ScoreMeaning | components/QuizView.tsx:12-17 | a submitted quiz has full marks exactly when every pick is the answer key, and 0 when no pick is |
| QuizView.NoneCorrect | components/QuizView.tsx:14-16 | with no right pick the count is 0 |
| QuizView.SelectAnswer | components/QuizView.tsx:19-22 | after submission a pick is ignored; before it, the question's pick is replaced and nothing else changes |
| QuizView.Submit | components/QuizView.tsx:24-26 | submitting marks the quiz submitted and keeps the picks |
| QuizView.SubmittedIsFinal | components/QuizView.tsx:19-26 | once submitted, neither a pick nor another submission changes the score |
| QuizView.SelectKeepsRange | components/QuizView.tsx:19-22 | a pick on a question of the quiz keeps every picked key a question index |
| QuizView.SubmitGate | components/QuizView.tsx:90 | with picks only at question indices, the submit button is enabled exactly when every question has a pick |
| QuizView.Indices | components/QuizView.tsx:90 | the question indices are exactly the numbers below the quiz length, as many as the questions |
| SetupSession.IdAt | components/SetupSession.tsx:14 | the capture group matches at an index exactly when eleven characters of `[a-zA-Z0-9_-]` start there, and captures them |
| SetupSession.SegmentEnd | components/SetupSession.tsx:14 | `[^\/\n\s]+` runs to the first `/` or whitespace |
| SetupSession.NonSpaceEnd | components/SetupSession.tsx:14 | `\S+` runs to the first whitespace |
| SetupSession.SlashIdDown | components/SetupSession.tsx:14 | what the backing-off `\S+\/` captures is an id right after a `/` in the searched range |
| SetupSession.PathAlt | components/SetupSession.tsx:14 | the first alternative after `youtube.com/` captures an id that follows a later `/` |
| SetupSession.ShortPathAlt | components/SetupSession.tsx:14 | the `v/`, `embed/` or `e/` alternative captures an id that follows a `/` |
| SetupSession.QueryAlt | components/SetupSession.tsx:14 | the lazy `\S*?[?&]v=` alternative captures an id right after a `?v=` or `&v=` |
| SetupSession.PathWitness | components/SetupSession.tsx:14 | the path alternative's id sits right after a `/` at or after the host |
| SetupSession.ShortPathWitness | components/SetupSession.tsx:14 | the short-path alternative's id sits right after a `/` at or after the host |
| SetupSession.QueryWitness | components/SetupSession.tsx:14 | the query alternative's id sits right after an `=` at or after the host |
| SetupSession.MatchAtShape | components/SetupSession.tsx:14 | a match at an index starts with a recognised host and captures a well-formed id after it |
| SetupSession.FirstMatchShape | components/SetupSession.tsx:14-16 | the leftmost match captures a well-formed id placed after a recognised host |
| SetupSession.FirstMatch | components/SetupSession.tsx:14-16 | from an index on, nothing is found exactly when the pattern matches at no later index; otherwise the capture is that of the leftmost match |
| SetupSession.ExtractVideoId | components/SetupSession.tsx:13-17 | `null` exactly when the pattern matches nowhere in the URL; otherwise `match[1]` of the leftmost match |
| SetupSession.ExtractShape | components/SetupSession.tsx:13-17 | a found id is eleven characters of `[a-zA-Z0-9_-]` copied from right after a `/` or `=` that follows a recognised host |
| SetupSession.NoHostNoId | components/SetupSession.tsx:13-17 | a URL without `youtube.com/` or `youtu.be/` gives no id |
| SetupSession.SkipNoY | components/SetupSession.tsx:14-15 | the search passes over text without a `y` |
| SetupSession.ShortLinkRoundTrip | components/SetupSession.tsx:13-17 | the id of a `youtu.be/` link is found, whatever scheme text without a `y` comes first |
| SetupSession.EmbedAlts | components/SetupSession.tsx:14 | after `youtube.com/` an `embed/` link is taken by the `embed/` alternative alone |
| SetupSession.EmbedRoundTrip | components/SetupSession.tsx:13-17 | the id of a `youtube.com/embed/` link is found |
| SetupSession.QuerySkip | components/SetupSession.tsx:14 | the lazy query scan steps over non-space characters other than `?` and `&` |
| SetupSession.WatchAlts | components/SetupSession.tsx:14 | after `youtube.com/` a `watch?v=` link is taken by the query alternative alone |
| SetupSession.SegmentTo | components/SetupSession.tsx:14 | a segment without `/` or whitespace runs to the end |
| SetupSession.WatchRoundTrip | components/SetupSession.tsx:13-17 | the id of a `youtube.com/watch?v=` link is found |
| SetupSession.SegmentEndAt | components/SetupSession.tsx:14 | a segment ends at its first `/` |
| SetupSession.NonSpaceTo | components/SetupSession.tsx:14 | a run without whitespace runs to the end |
| SetupSession.NoSlashDown | components/SetupSession.tsx:14 | without a `/` in the range the backing-off scan finds nothing |
| SetupSession.HandleSubmit | components/SetupSession.tsx:19-32 | a URL without an id is refused first, then a blank transcript; otherwise the well-formed id and the transcript as typed are passed to `onSessionCreated` (positionally, see Findings), and only then |
| CreateCourse.LessonLimit | App.tsx:185-190 | a tier has a lesson limit exactly when it is free or learner (5 and 25); the others are unlimited |
| CreateCourse.LessonLimitMonotone | App.tsx:185-190 | a higher tier never allows fewer lessons per course |
| CreateCourse.ExtractOrUrl | components/CreateCoursePage.tsx:124-128 | the id the link pattern captures, or the text unchanged when the pattern matches nowhere |
| CreateCourse.GuardMeaning | components/CreateCoursePage.tsx:77-79 | the guard of `validateVideo` passes exactly for a recognised link or for any eleven characters typed in directly |
| CreateCourse.BareIdKept | components/CreateCoursePage.tsx:124-128 | a bare video id is kept unchanged |
| CreateCourse.InfoOf | components/CreateCoursePage.tsx:100-107 | the video details always have a non-empty title, the video's own title when it has one, and the transcript the second request answered |
| CreateCourse.ChangedMeaning | components/CreateCoursePage.tsx:63-73 | a title edit keeps the check and the details; a video edit leaves the lesson unchecked, without error or details |
| CreateCourse.SettledMeaning | components/CreateCoursePage.tsx:98-121 | a settled lesson is no longer being checked and is checked exactly when both requests answered, then with details and no error; a failure records the error and keeps the details; a typed title is kept, and an empty one takes the video's title |
| CreateCourse.FirstColon | components/CreateCoursePage.tsx:148 | the first colon's index lies within the text |
| CreateCourse.FirstColonAfterDigits | components/CreateCoursePage.tsx:148 | after a run of digits the first colon ends the run |
| CreateCourse.ColonSplit | components/CreateCoursePage.tsx:148 | two `digits:rest` texts are equal only when their digits and rests are |
| CreateCourse.FormatDurationInjective | components/CreateCoursePage.tsx:148 | a known duration is never shown as `N/A`, and two different durations are shown differently |
| CreateCourse.Published | components/CreateCoursePage.tsx:144-151 | a published lesson keeps its title, carries the extracted video id and is not completed |
| CreateCourse.PublishAll | components/CreateCoursePage.tsx:144-151 | one published lesson per lesson, in order |
| CreateCourse.SubmitCourse | components/CreateCoursePage.tsx:130-155 | submission fails exactly when a `required` input (course title, description, a lesson's title or video) is empty, which the browser blocks first, or a lesson is unchecked, which `handleSubmit` refuses; otherwise the course carries the non-empty title, the description, visibility and every lesson in order |
| CreateCourse.SubmittedIdsChecked | components/CreateCoursePage.tsx:130-155 | when every checked lesson passed the guard, every lesson of a created course has an eleven-character video id |
| CreateCourse.EditBlocksSubmit | components/CreateCoursePage.tsx:63-73 | a lesson whose video was just edited blocks the course until it is checked again; with the required inputs filled the refusal is the unchecked-video alert |
| CreateCourse.Without | components/CreateCoursePage.tsx:59-61 | the list without the element at the index, the others in order; an index outside the list removes nothing |
| CreateCourse.Lesson.constructor | components/CreateCoursePage.tsx:48 | a new lesson is blank |
| CreateCourse.StatesOf | components/CreateCoursePage.tsx:48 | the values of the lesson objects, in order |
| CreateCourse.CourseForm.constructor | components/CreateCoursePage.tsx:48 | the page opens with one blank lesson and the given limit |
| CreateCourse.CourseForm.AddLesson | components/CreateCoursePage.tsx:50-57 | at the limit the page goes to pricing and the list is unchanged; otherwise one fresh blank lesson is appended; the limit is never passed |
| CreateCourse.CourseForm.RemoveLesson | components/CreateCoursePage.tsx:59-61 | the lesson at the index goes and the others keep their order; with the button enabled one lesson remains at least |
| CreateCourse.CourseForm.LessonChange | components/CreateCoursePage.tsx:63-73 | only the lesson at the index changes, with the field set and a video edit clearing its check |
| CreateCourse.CourseForm.BeginValidation | components/CreateCoursePage.tsx:75-90 | a video failing the guard is marked with the error and nothing is fetched; otherwise the lesson is marked as being checked and the current list and an eleven-character id are returned |
| CreateCourse.CourseForm.FinishValidationAsWritten | components/CreateCoursePage.tsx:98-121 | the outcome is recorded on the lesson object taken before the fetch, and the list becomes the copy taken then |
| CreateCourse.CourseForm.FinishValidation | components/CreateCoursePage.tsx:98-121 | the list is kept; the outcome is recorded only when the lesson still holds the fetched video, and otherwise only the checking mark is cleared |
| CreateCourse.CourseForm.Submit | components/CreateCoursePage.tsx:130-155 | the course built from the lessons as they are, or the browser's block of an empty required input, or the unchecked-video refusal; every created lesson's video id has eleven characters |
| CreateCourse.StaleValidationAsWritten | components/CreateCoursePage.tsx:75-121 | with a check pending, adding a lesson and retyping the checked video lose the added lesson and leave the first lesson checked with a video that fails the guard |
| CreateCourse.StaleValidationCorrected | components/CreateCoursePage.tsx:75-121 | with the intended completion the same steps keep both lessons and leave the edited lesson unchecked |
| DiscussionFeed.FormatDate | components/DiscussionFeed.tsx:40-53 | under a minute (or in the future) reads `just now`; under an hour whole minutes, under a day whole hours, under a week whole days, each at least 1 and rounded down; from a week on the locale date |
| DiscussionFeed.AuthorNameMeaning | components/DiscussionFeed.tsx:55-60 | without names the username is shown; with a name the shown name has no whitespace at either end and keeps every non-space character of both names, first name first |
| DiscussionFeed.FullNameShown | components/DiscussionFeed.tsx:55-60 | two names without whitespace at their outer ends are shown as the first name, a space and the last name |
| DiscussionFeed.CompareConsistent | components/DiscussionFeed.tsx:62-71 | each order's comparator flips sign when its arguments swap, and "may go first" is transitive |
| DiscussionFeed.Compare | components/DiscussionFeed.tsx:62-71 | `a` goes strictly first: by recency exactly when it is newer, by popularity exactly when it has more votes or as many and more replies, unanswered exactly when it has fewer replies |
| DiscussionFeed.Insert | components/DiscussionFeed.tsx:62-71 | inserting adds exactly the one thread: one more thread, the same threads otherwise |
| DiscussionFeed.SortThreads | components/DiscussionFeed.tsx:62 | the sorted list is a permutation of the threads |
| DiscussionFeed.InsertBound | components/DiscussionFeed.tsx:62-71 | a thread that may go before the inserted one and before every other may go before everything after the insertion |
| DiscussionFeed.InsertSorted | components/DiscussionFeed.tsx:62-71 | inserting into a sorted list keeps it sorted |
| DiscussionFeed.SortThreadsSorted | components/DiscussionFeed.tsx:62-71 | the sorted list is sorted in the chosen order |
| DiscussionFeed.SortOrders | components/DiscussionFeed.tsx:62-71 | by recency newer threads come first; by popularity more votes first, then more replies; unanswered ones by fewer replies first |
| DiscussionsPage.AuthorId | components/DiscussionsPage.tsx:118 | the user's id when there is a non-zero one, 999 otherwise |
| DiscussionsPage.CreateThread | components/DiscussionsPage.tsx:111-129 | the new thread goes first, unpinned and with no replies, votes or views, by the current user, and the other threads follow in their order |
| DiscussionsPage.CreatedThreadHeadsRecent | components/DiscussionsPage.tsx:111-129 | a new thread no other thread is newer than heads the list sorted by recency |
| DiscussionsPage.InsertFirst | components/DiscussionsPage.tsx:111-129 | a thread no other is newer than is inserted first by recency |
| DiscussionsPage.AddReply | components/DiscussionsPage.tsx:161-181 | a reply without an open thread does nothing |
| DiscussionsPage.AddReplyMeaning | components/DiscussionsPage.tsx:161-181 | a reply appends exactly one reply, with the content, unverified, unaccepted and without upvotes, and keeps the rest of the thread |
| DiscussionsPage.UpvoteReplies | components/DiscussionsPage.tsx:189 | upvoting keeps the number of replies |
| DiscussionsPage.Upvote | components/DiscussionsPage.tsx:184-191 | an upvote without an open thread does nothing; otherwise the thread's replies become the upvoted ones |
| DiscussionsPage.CountId | components/DiscussionsPage.tsx:189 | the number of replies carrying an id is at most the number of replies |
| DiscussionsPage.UpvoteMeaning | components/DiscussionsPage.tsx:184-191 | only replies with the id change, each by one vote and the upvoted mark |
| DiscussionsPage.UpvoteTotal | components/DiscussionsPage.tsx:184-191 | an upvote raises the thread's total votes by the number of replies with the id |
| DiscussionsPage.UpvoteRepeats | components/DiscussionsPage.tsx:184-191 | a second upvote of the same reply counts again |
| DiscussionsPage.AcceptReplies | components/DiscussionsPage.tsx:198 | accepting keeps the number of replies |
| DiscussionsPage.MarkAccepted | components/DiscussionsPage.tsx:194-200 | accepting without an open thread does nothing; otherwise the thread's replies become the accepted ones |
| DiscussionsPage.MarkAcceptedMeaning | components/DiscussionsPage.tsx:194-200 | a reply is accepted afterwards exactly when it was before or carries the id, nothing else changes, and accepting twice is accepting once |
| DiscussionsPage.NoThreadNoChange | components/DiscussionsPage.tsx:161-200 | replying, upvoting and accepting change nothing while no thread is open |
| Markdown.CloseFrom | components/MarkdownRenderer.tsx:44 | the lazy body stops at the first closing delimiter at or after the index |
| Markdown.Enclosed | components/MarkdownRenderer.tsx:44 | a span found at an index is the delimiter, the body and the delimiter again, within the text; a code body is never empty |
| Markdown.MathAt | components/MarkdownRenderer.tsx:44 | a math span found covers exactly its source text and is not plain text |
| Markdown.EmphasisAt | components/MarkdownRenderer.tsx:44 | a bold or italic span found covers exactly its source text and is not plain text |
| Markdown.CodeAt | components/MarkdownRenderer.tsx:44 | a code span found covers exactly its source text and has a non-empty body |
| Markdown.MatchAt | components/MarkdownRenderer.tsx:44 | a span the pattern matches at an index covers exactly its source text and is not plain text |
| Markdown.NextMatch | components/MarkdownRenderer.tsx:47 | the match found is the leftmost one from the index: a span starts there and none starts between |
| Markdown.TokensStep | components/MarkdownRenderer.tsx:47-76 | one step of the loop adds the text before the leftmost span, then the span, and goes on after it |
| Markdown.TokensUnparse | components/MarkdownRenderer.tsx:47-80 | the parts from an index on spell out the text from that index on |
| Markdown.Render | components/MarkdownRenderer.tsx:39-84 | there is at least one part, and nothing is lost or reordered: the parts spell out the text |
| Markdown.RenderNoMatch | components/MarkdownRenderer.tsx:83 | text where no span starts is returned whole as one part |
| Markdown.CodeSpanRoundTrip | components/MarkdownRenderer.tsx:44-73 | text without a backtick between two backticks renders as that one code span |
| Markdown.TickSkip | components/MarkdownRenderer.tsx:44 | the code body scan passes over characters that are not backticks |
| Markdown.RenderInlineContent | components/MarkdownRenderer.tsx:39-84 | the loop's parts are what `Render` says, and they spell out the text |
| Markdown.NonBlank | components/MarkdownRenderer.tsx:87 | filtering never adds a piece |
| Markdown.NonBlankAppend | components/MarkdownRenderer.tsx:87 | the filter distributes over concatenation and keeps a single piece exactly when it is not blank, so the kept pieces keep their order and multiplicity |
| Markdown.NonBlankMeaning | components/MarkdownRenderer.tsx:87 | a piece is kept exactly when it has a non-space character |
| Markdown.BlocksMeaning | components/MarkdownRenderer.tsx:87 | every block has a non-space character and holds no blank-line separator, and every such piece of the text is a block |
| Markdown.StripMarker | components/MarkdownRenderer.tsx:107 | the item is what remains of the line after removing something from its front |
| Markdown.StripMarkerMeaning | components/MarkdownRenderer.tsx:107 | from a marked line exactly the leading whitespace, one marker and the whitespace after it are removed, and the item starts with a non-space character; an unmarked line is kept |
| Markdown.StripMarkerRoundTrip | components/MarkdownRenderer.tsx:107 | a marker, a space and an item give back the item |
| Markdown.HashRun | components/MarkdownRenderer.tsx:115 | `#+` runs to the first character that is not `#` |
| Markdown.LineEnd | components/MarkdownRenderer.tsx:115 | `.*` runs to the first line terminator |
| Markdown.HeaderOf | components/MarkdownRenderer.tsx:115 | a header has at least one leading `#`, and its text holds no line terminator |
| Markdown.HeaderRoundTrip | components/MarkdownRenderer.tsx:115-119 | `#`s, a space and one line of text read back as that level and text |
| Markdown.HashRunAt | components/MarkdownRenderer.tsx:115 | the `#` run ends at the first character that is not `#` |
| Markdown.LineEndAll | components/MarkdownRenderer.tsx:115 | a line without terminators runs to the end |
| Markdown.Classify | components/MarkdownRenderer.tsx:89-140 | a block is code exactly when it starts with a fence, a list exactly when it does not and a line begins with a marker, a header exactly when it is neither and starts with `#`s and whitespace, with tag `h1` to `h6` from the level capped at 6, and a paragraph otherwise; a list has one item per non-blank line |
| Markdown.RenderMarkdown | components/MarkdownRenderer.tsx:86-141 | one rendered block per non-blank piece between blank lines |
| Markdown.ReplaceFenceAfter | components/MarkdownRenderer.tsx:92 | removing fences from code without backticks followed by a fence leaves the code |
| Markdown.CodeBlockRoundTrip | components/MarkdownRenderer.tsx:91-93 | fenced code without backticks and without whitespace at its ends reads back as that code |

## Left out

- The network, the clock, `time.sleep`, the transcript library, yt_dlp, and the HTML, XML and JSON parsers are oracles; the waits are returned, not slept.
- `datetime.now().isoformat()` timestamps (`extracted_at`) and `print` logging are not modelled.
- Upper- and lower-casing are ASCII-only.
- YouTubeService.FetchCaption: `\d` follows the Unicode 15.0 digit table of Python 3.12; another Python version's table may add or lack a few scripts.
- YouTubeService.LanguagesShape: the source comments call the language list never empty, but a captions block without language entries gives an empty list (LanguagesCanBeEmpty).
- The failure dict of `extract_transcript` has no `word_count`; the model stores 0 there.
- The HTTP wrappers of `src/services/youtubeService.ts` (`getVideoInfo`, `extractTranscript` and the lesson calls) only forward to the API and are not modelled.
- Lengths are counted in characters, not UTF-16 code units, and JavaScript's `\s` is modelled by its code-point list.
- `toUpperCase`, `toLowerCase` and the `i` regular-expression flag are modelled ASCII-only, and JavaScript's `\w` is ASCII as in the source.
- Transcript.FmtMs: takes a non-negative whole number of milliseconds; negative, fractional and NaN inputs are not modelled.
- ProcessRaw.ProcessResult: numbers are whole; NaN and fields of unexpected types (other than a non-array list) are not modelled.
- ChunkRanking.Score: the source's score `matches + (n - index) * 0.1` is a float; the model uses ten times it, exact, so floating-point rounding among equal exact scores is not modelled.
- ChunkRanking.SortByScore: `Array.prototype.sort` is the engine's; the model states its result (a stable sort by descending score), not its steps in place.
- ChunkRanking.Matches: the keyword becomes a regular expression; after stripping non-word characters it holds only `[A-Za-z0-9_]`, so it is matched literally.
- SessionContext.ChatRequestFor: the React state updates (messages, loading flag, last prompt) and the model calls are not modelled; only what is sent is.
- `chunkTranscript`'s `text.split(/\n\s*\n/)` is modelled for the match positions JavaScript's regular-expression engine picks: each match starts at a line feed and ends after the last line feed of the whitespace run that follows.
- CourseModels.ProgressPercentage: computed on exact numbers. The source divides in floating point, so a share just below a whole percentage can come out one lower (29 of 100 lessons gives 28.999…, stored as 28).
- `start_session`, `ensure_personal`, `pricing`, `creator_dashboard`, the course and lesson listings, and the model calls of `generate_quiz`, `ai_tutor` and `generate_content` are database queries or calls to the AI model and are not modelled. `start_session` numbers its lesson like `add_lesson`.
- Decimal parsing of tip and payment amounts is abstracted to `AmountField` (missing, unparseable, or a value in hundredths).
- The course's owner, its pricing row and the payments table are read as values passed to each action; `get_object` failing with 404 before the action runs is not modelled.
- `start_free_trial` reads the clock twice; the model uses one `now` for both readings.
- The usage checks read the tier stored on the user, as the source does; they do not run the trial check first.
- AssessmentModels.Percentage: computed on exact numbers; the source divides in floating point.
- Answers that are not strings, and an `answers` value that is not an object, make the source raise; the model takes a map of strings.
- `add_timestamp_note` stamps each note with an ISO date string; the model keeps the time as a number.
- The `started_at` guard of `calculate_score` always holds, since the field is set on creation.
- AssessmentViews.AttemptStore.History: the source orders attempts by newest start; the model keeps store order.
- Anonymous `start` and `submit` calls are refused by the permission class before the view runs and are not modelled; `my_assessments`, question creation and `get_serializer_class` are plain queries.
- The payment and subscription listings and the subscription detail view are plain queries and are not modelled.
- A `duration_days` that is not an integer makes `int()` raise; the model takes an integer.
- PaymentViews.CallbackRecord: a result code is compared with `== 0`, so `0.0` and `False` also complete a payment; the model reads the code as a number or not a number.
- Constructing the M-Pesa service can raise for missing settings; the model folds that into the provider's `Raised` answer.
- The renewal command's early return when no subscription is due only writes a message; stdout and stderr messages are not modelled.
- RenewSubscriptions.RenewAll: the transaction rollback is modelled only for the extension (a failed push leaves the subscription as it was); the ordering of the due subscriptions is the sequence given.
- Fresh `uuid4` transaction ids and reference codes are parameters.
- The study-group, post, challenge and participation listings are plain queries; `StudyGroupPost.models.none()` raises for a request without a group, which the model does not cover.
- StudyGroups.Leaderboard: scores are floats in the source; the model takes whole numbers. Rows with equal score and update time come in the order the database picks; the model keeps input order.
- Community post and comment listings, `my_posts` and the `comment` action (whose serializer validation is the framework's) are not modelled.
- The cache's expiry is not modelled: an entry stays until replaced; the timeout is recorded with it.
- YouTubeViews.TimeLabel: timestamp times are whole seconds; float times are not modelled.
- The notes list orders rows by last update; the model gives the per-row preview only. Dates are formatted by `strftime` and passed in as text.
- A notes row's id is its position in the store.
- ErrorHandler.OtherStatusError: a truthy `detail` that is not a string becomes the message as it would render (`String(detail)`), where the source passes the value itself through.
- ErrorHandler: JSON numbers are whole numbers; a fractional number in a body is not modelled. An object's keys are taken in the order the body lists them, without JavaScript's moving integer-like keys first, and a repeated key is looked up at its first occurrence.
- ErrorHandler: `logError` (a console write) and `getErrorMessage` (a default for a falsy error, otherwise `handleApiError`'s message) are not modelled; the waits are recorded instead of slept, and `fn` is the function `answer` from attempt number to outcome.
- ApiConfig.BuilderPath: ids are natural numbers; a negative or fractional `id` is not modelled.
- ApiConfig: `import.meta.env.VITE_API_BASE_URL` is a parameter; the timeout and the JSON content-type header are constants nothing here depends on.
- App.ProgressIsRounded: the percentage is computed exactly; the source's floating-point `completed / total * 100` may land just under a half (29 of 200 is a candidate, 0.145 having no exact binary form) and round down where the exact share rounds up.
- App: `Date.now()` ids are the parameters `courseStamp` and `lessonStamp`; `window.confirm` is the parameter `confirmed`; avatars, thumbnails' display, alerts and the handlers that only set a view or a selected id are not modelled; `TIER_LIMITS`' lesson and assessment limits are not used by any modelled handler.
- App: a `Partial<Lesson>` update carries the title, video, completion, duration and transcript; an update that changes the id or thumbnail is not modelled.
- The exam, question and course builders take `Date.now()` ids, and the discussion page `Date.now()` and the current time, as parameters; alerts are the refusals the functions return, and the views they switch to are not modelled.
- The essay creator's AI sample answer (`generateAISampleAnswer`) fills a fixed text after a delay and is not modelled; nor are the passage creator's text-selection helper and the question creators' remove buttons, which only call back.
- CreateCourse: the two requests of `validateVideo` are one outcome passed in (`Fetched` or `Failed`); durations are whole seconds, and the thumbnail and description are carried through unread.
- CreateCourse.CourseForm.FinishValidationAsWritten: the stale copy of the list is a parameter, as is the order of the user's edits while a check is pending.
- DiscussionFeed.SortThreads: `Array.prototype.sort` is the engine's; the model states its result (sorted in the chosen order and a permutation), not its steps, and that equal threads keep their input order is not proved.
- DiscussionFeed.FormatDate: the elapsed time is whole milliseconds passed in, and `toLocaleDateString` is the parameter `localeDate`.
- DiscussionsPage: the `setTimeout` delays of the mock API, the loading flags and the fixed thread `fetchThreadDetail` shows are not modelled; each handler acts on the list or thread it was called with.
- Markdown: KaTeX typesetting of math spans is not modelled; a math part keeps its source text. The JSX and class names of each block are not modelled, only the block's kind, level and parts.
- QuizView: picks are kept in a map from question index to answer; the JSX is not modelled.
- CourseViews.PurchaseRefusal, CourseViews.TipRefusal: `payment_id` is modelled as a number, where 0 is falsy; a string id such as `"0"`, truthy in Python, is not modelled.

## Findings

| source | as written | input that shows it | evidently intended | confidence | as-written member | corrected member |
|---|---|---|---|---|---|---|
| components/LearningSession.tsx:128-133 | over the length limit, the quiz transcript picks the first, middle and last chunk, even when they are the same chunk | a transcript of 10001 non-blank characters without a line feed: one chunk, sent three times | each chunk position at most once, so the transcript is sent once | not executed | SessionContext.QuizTranscriptRepeats | SessionContext.QuizTranscriptOnce |
| backend/courses/views.py:272-280 | a new lesson's order is the course's lesson count | lessons of order 0 and 1, the first deleted: the next lesson gets order 1 again and breaks the course's unique orders | one past the largest order in the course | not executed | CourseViews.AddAfterDeleteCollides | CourseViews.AppendKeepsUniqueOrders |
| backend/payments/management/commands/renew_subscriptions.py:60-71 | an M-Pesa renewal with the service not configured falls into the `else` branch and is marked COMPLETED | an M-Pesa subscription due for renewal while the M-Pesa settings are missing | the renewal stays PENDING, as the warning at line 40 says | not executed | RenewSubscriptions.UnconfiguredMpesaCompletes | RenewSubscriptions.RenewalOf |
| backend/payments/management/commands/renew_subscriptions.py:61-67 | the STK push's answer is dropped, so the renewal payment keeps an empty reference | an M-Pesa renewal whose push answers with a `CheckoutRequestID`: the callback carrying that id finds no payment | the checkout id becomes the payment's reference, as the payment view does, so the callback settles it | not executed | RenewSubscriptions.SentPushLosesCheckout | RenewSubscriptions.RenewOne |
| backend/api/youtube_views.py:171-178 | `save_video_notes` calls `timezone.now()`, but the module never imports `timezone` | any request with a video ID: the name lookup raises, the `except` answers 500, and nothing is saved | the notes are created or updated and the reply is 200 | not executed | YouTubeViews.SaveNotesAlwaysFails | YouTubeViews.NotesStore.SaveNotes |
| src/utils/errorHandler.ts:93-101 | `typeof errorMessages === 'object'` also holds for `null`, so `Object.entries(null)` runs and throws a TypeError | a 400 answer whose JSON body is `null`: `errors` and `detail` are undefined, the reported value is `null`, and `handleApiError` throws instead of returning | the generic "Invalid request" message, as for any other body without field errors | not executed | ErrorHandler.NullBodyThrows | ErrorHandler.FieldErrors |
| components/ClozeQuestionCreator.tsx:39-56 | the preview draws a blank input for any piece that starts with `[` and ends with `]`, including a bracket pair around a line break that the pattern did not capture | the text `[`, line feed, `]`: the points count no blank, yet the preview shows one blank input | blank inputs only for the captured groups, so the preview shows exactly the blanks that are scored | not executed | Cloze.PreviewShowsUnscoredBlank | Cloze.PreviewBlanksScored |
| components/CreateCoursePage.tsx:87-121 | `validateVideo` records the answer on the lesson objects and list copied before the fetch, and then sets that copy as the list | a check pending on lesson 1 while a lesson is added and lesson 1's video is retyped as `x`: the added lesson disappears and lesson 1 is marked checked with `x` | the answer lands on the lesson as it now is, only while it still holds the fetched video, and the list is kept | not executed | CreateCourse.StaleValidationAsWritten | CreateCourse.StaleValidationCorrected |
| components/SetupSession.tsx:31 | `onSessionCreated(videoId, transcript)` passes two positional arguments, but App wires it to `handleSessionCreated`, which destructures one payload object | any submitted setup form, or the example button: the handler reads `videoId` and `transcript` of a string, both `undefined`, and opens a lesson with no video and no transcript | one payload object `{ videoId, transcript }`, so the session opens on the form's video and transcript | not executed | App.SetupHandOffLosesSession | App.SetupSessionOpens |
