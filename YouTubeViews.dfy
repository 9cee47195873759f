/**
 * The YouTube API views (backend/api/youtube_views.py): transcript
 * extraction and video information behind a cache, saving and listing a
 * user's video notes, and downloading them as text or Markdown. The
 * transcript service, the MD5 digest and the date formatting are oracles
 * passed in; the cache and the notes table are fields of a store.
 */
module YouTubeViews {
  import opened Wrappers
  import opened Text
  import YouTubeService
  import opened AssessmentModels

  /** What a successful extraction keeps: the fields that are cached. */
  datatype TranscriptData = TranscriptData(
    videoId: string, metadata: map<string, string>, transcript: string,
    availableLanguages: seq<string>, chapters: seq<string>)

  /** `extract_complete_video_data`: success, a failure with or without an error text, or an exception. */
  datatype Extraction =
    | Extracted(data: TranscriptData)
    | NotExtracted(error: Option<string>)
    | Crashed(message: string)

  /** A transcript reply: the data and whether it came from the cache, or an error status and text. */
  datatype TranscriptReply =
    | TranscriptServed(data: TranscriptData, cached: bool)
    | TranscriptRefused(status: int, error: string)

  const TranscriptTtl: nat := 3600
  const InfoTtl: nat := 21600
  const DefaultLanguage: string := "en"

  /** The text whose digest names a transcript's cache entry: `url:language`. */
  function KeySource(url: string, language: string): string
  {
    url + ":" + language
  }

  /** `youtube_transcript:<md5 of url:language>`, for a digest given as a function. */
  function TranscriptKey(digest: string -> string, url: string, language: string): string
  {
    "youtube_transcript:" + digest(KeySource(url, language))
  }

  /** The key depends on the URL and the language only through `url:language`. */
  lemma TranscriptKeyDeterminedBySource(digest: string -> string, url1: string, language1: string, url2: string, language2: string)
    requires KeySource(url1, language1) == KeySource(url2, language2)
    ensures TranscriptKey(digest, url1, language1) == TranscriptKey(digest, url2, language2)
  {
  }

  /**
   * The separator can come from either side: a URL with a colon and a
   * language without one may share a key with a shorter URL and a longer
   * language.
   */
  lemma KeySourceShared(digest: string -> string)
    ensures TranscriptKey(digest, "a:b", "c") == TranscriptKey(digest, "a", "b:c")
    ensures "a:b" != "a" && "c" != "b:c"
  {
    assert KeySource("a:b", "c") == KeySource("a", "b:c");
  }

  /** The basic video information `get_video_info` answers and caches. */
  datatype VideoInfo = VideoInfo(
    videoId: string, metadata: map<string, string>, availableLanguages: seq<string>, hasTranscript: bool)

  datatype InfoReply =
    | InfoServed(info: VideoInfo, cached: bool)
    | InfoRefused(status: int, error: string)

  /** `has_transcript` is whether any transcript language is available. */
  function InfoOf(videoId: string, metadata: map<string, string>, languages: seq<string>): (r: VideoInfo)
    ensures r.hasTranscript <==> languages != []
    ensures r.videoId == videoId && r.availableLanguages == languages && r.metadata == metadata
  {
    VideoInfo(videoId, metadata, languages, |languages| > 0)
  }

  /**
   * One row of the notes list: the notes cut to their first 200
   * characters followed by `...` when longer than 200.
   */
  function NotesPreview(notes: string): (r: string)
    ensures |notes| <= 200 ==> r == notes
    ensures |notes| > 200 ==> |r| == 203 && r[..200] == notes[..200] && r[200..] == "..."
  {
    if |notes| > 200 then notes[..200] + "..." else notes
  }

  /** A preview is never longer than 203 characters and always starts like the notes. */
  lemma NotesPreviewBounded(notes: string)
    ensures |NotesPreview(notes)| <= 203
    ensures var k := if |notes| < 200 then |notes| else 200;
      NotesPreview(notes)[..k] == notes[..k]
  {
  }

  /** Python's `f"{n:02d}"`: zero-padded to two digits; a negative number keeps its sign and is not padded further. */
  function PyPad2(n: int): (r: string)
  {
    if n >= 0 then Pad2(n) else "-" + NatToString(-n)
  }

  /** `MM:SS` from `time // 60` and `time % 60`, both floor operations as in Python. */
  function TimeLabel(time: int): (r: string)
  {
    PyPad2(time / 60) + ":" + Pad2(time % 60)
  }

  /**
   * For a non-negative time the label is the minutes, a colon and exactly
   * two digits of seconds below 60, and reading both back gives the time.
   */
  lemma TimeLabelRoundTrip(time: nat)
    ensures var r := TimeLabel(time);
      var k := |PyPad2(time / 60)|;
      && k >= 2 && |r| == k + 3 && r[k] == ':'
      && (forall i :: 0 <= i < |r| && i != k ==> IsDigit(r[i]))
      && DigitsValue(r[..k]) * 60 + DigitsValue(r[k + 1..]) == time
      && DigitsValue(r[k + 1..]) < 60
  {
    var r := TimeLabel(time);
    var m := Pad2(time / 60);
    var s := Pad2(time % 60);
    Pad2RoundTrip(time / 60);
    Pad2RoundTrip(time % 60);
    assert r == m + ":" + s;
    assert r[..|m|] == m;
    assert r[|m| + 1..] == s;
  }

  /** Under 100 minutes the label is exactly `MM:SS`. */
  lemma TimeLabelFiveChars(time: nat)
    requires time < 6000
    ensures |TimeLabel(time)| == 5 && TimeLabel(time)[2] == ':'
  {
  }

  /** One line of a downloaded text file: a line break, `[MM:SS]` and the note. */
  function TxtLine(t: TimedNote): string
  {
    "\n[" + TimeLabel(t.time) + "] " + t.note
  }

  /** One line of a downloaded Markdown file: `- **[MM:SS]** note` and a line break. */
  function MdLine(t: TimedNote): string
  {
    "- **[" + TimeLabel(t.time) + "]** " + t.note + "\n"
  }

  datatype NotesFormat = Txt | Md

  /** `format` as the request gives it: `txt` (also when missing), `md`, or anything else. */
  function FormatOf(format: string): Option<NotesFormat>
  {
    if format == "txt" then Some(Txt) else if format == "md" then Some(Md) else None
  }

  function LineOf(f: NotesFormat, t: TimedNote): string
  {
    match f
    case Txt => TxtLine(t)
    case Md => MdLine(t)
  }

  /** The lines of the timestamped notes, one per note, in the notes' order. */
  function LinesOf(f: NotesFormat, ts: seq<TimedNote>): (r: seq<string>)
    ensures |r| == |ts| && forall i :: 0 <= i < |ts| ==> r[i] == LineOf(f, ts[i])
  {
    seq(|ts|, i requires 0 <= i < |ts| => LineOf(f, ts[i]))
  }

  /** What the file header shows of the video and the notes. */
  datatype NotesHeader = NotesHeader(
    title: string, author: string, videoId: string, created: string, updated: string, notes: string)

  /** `metadata.get(key, 'Unknown')`. */
  function OrUnknown(metadata: map<string, string>, key: string): string
  {
    if key in metadata then metadata[key] else "Unknown"
  }

  function WatchUrl(videoId: string): string
  {
    "https://www.youtube.com/watch?v=" + videoId
  }

  /** The text file's header, up to the timestamped notes. */
  function TxtHeader(h: NotesHeader): string
  {
    "\nYouTube Video Notes\n==================\n\nVideo: " + h.title + "\nAuthor: " + h.author
    + "\nVideo ID: " + h.videoId + "\nURL: " + WatchUrl(h.videoId)
    + "\n\nNotes Created: " + h.created + "\nLast Updated: " + h.updated
    + "\n\nNOTES:\n------\n" + h.notes + "\n\nTIMESTAMPED NOTES:\n-----------------\n"
  }

  /** The Markdown file's header, up to the timestamped notes. */
  function MdHeader(h: NotesHeader): string
  {
    "# YouTube Video Notes\n\n## Video Information\n- **Title:** " + h.title + "\n- **Author:** " + h.author
    + "\n- **Video ID:** " + h.videoId + "\n- **URL:** [Watch Video](" + WatchUrl(h.videoId) + ")"
    + "\n- **Notes Created:** " + h.created + "\n- **Last Updated:** " + h.updated
    + "\n\n## Notes\n\n" + h.notes + "\n\n## Timestamped Notes\n\n"
  }

  function HeaderOf(f: NotesFormat, h: NotesHeader): string
  {
    match f
    case Txt => TxtHeader(h)
    case Md => MdHeader(h)
  }

  /** The attachment's file name: `notes_<video id>.txt` or `.md`. */
  function FileName(f: NotesFormat, videoId: string): string
  {
    "notes_" + videoId + (match f case Txt => ".txt" case Md => ".md")
  }

  /** A download: the file's name and content, or an error status. */
  datatype Download = File(name: string, content: string) | DownloadRefused(status: int)

  /**
   * The `content +=` loop of `download_notes`: the header followed by one
   * line per timestamped note, in order.
   */
  method RenderNotes(f: NotesFormat, header: string, ts: seq<TimedNote>) returns (content: string)
    ensures content == header + Concat(LinesOf(f, ts))
  {
    content := AppendLines(header, LinesOf(f, ts));
  }

  /** Appends each line in turn. */
  method AppendLines(header: string, lines: seq<string>) returns (content: string)
    ensures content == header + Concat(lines)
  {
    content := header;
    var i := 0;
    while i < |lines|
      invariant 0 <= i <= |lines|
      invariant content == header + Concat(lines[..i])
    {
      ConcatPrefixStep(lines, i);
      content := content + lines[i];
      i := i + 1;
    }
    assert lines[..|lines|] == lines;
  }

  /** One more line of a prefix adds that line to the text. */
  lemma ConcatPrefixStep(lines: seq<string>, i: nat)
    requires i < |lines|
    ensures Concat(lines[..i + 1]) == Concat(lines[..i]) + lines[i]
  {
    assert lines[..i + 1] == lines[..i] + [lines[i]];
    ConcatSnoc(lines[..i], lines[i]);
  }

  /** A user's notes rows; a row's id is its position. */
  class NotesStore {
    var rows: seq<VideoNotes>
    var transcripts: map<string, (TranscriptData, nat)>
    var infos: map<string, (VideoInfo, nat)>

    /** Rows are distinct objects, one per user and video. */
    predicate Valid()
      reads this, rows
    {
      forall i, j :: 0 <= i < j < |rows| ==>
        rows[i] != rows[j] && (rows[i].user != rows[j].user || rows[i].videoId != rows[j].videoId)
    }

    constructor ()
      ensures Valid() && rows == [] && transcripts == map[] && infos == map[]
    {
      rows := [];
      transcripts := map[];
      infos := map[];
    }

    /**
     * `extract_youtube_transcript`: 400 without a URL; a cached entry for
     * the key is served as cached; otherwise the extraction runs, and only
     * a success is cached, for an hour; a failure is 422 and an exception
     * 500, with nothing cached.
     */
    method ExtractTranscript(url: string, language: Option<string>, digest: string -> string, extraction: Extraction)
      returns (reply: TranscriptReply)
      modifies this`transcripts
      ensures url == [] ==> reply == TranscriptRefused(400, "YouTube URL is required") && transcripts == old(transcripts)
      ensures url != [] ==>
        var key := TranscriptKey(digest, url, language.GetOr(DefaultLanguage));
        if key in old(transcripts) then
          reply == TranscriptServed(old(transcripts)[key].0, true) && transcripts == old(transcripts)
        else match extraction
          case Extracted(data) =>
            reply == TranscriptServed(data, false) && transcripts == old(transcripts)[key := (data, TranscriptTtl)]
          case NotExtracted(error) =>
            reply == TranscriptRefused(422, error.GetOr("Failed to extract transcript")) && transcripts == old(transcripts)
          case Crashed(message) =>
            reply == TranscriptRefused(500, "Server error: " + message) && transcripts == old(transcripts)
    {
      if url == [] {
        return TranscriptRefused(400, "YouTube URL is required");
      }
      var key := TranscriptKey(digest, url, language.GetOr(DefaultLanguage));
      if key in transcripts {
        return TranscriptServed(transcripts[key].0, true);
      }
      match extraction
      case Extracted(data) =>
        transcripts := transcripts[key := (data, TranscriptTtl)];
        reply := TranscriptServed(data, false);
      case NotExtracted(error) =>
        reply := TranscriptRefused(422, error.GetOr("Failed to extract transcript"));
      case Crashed(message) =>
        reply := TranscriptRefused(500, "Server error: " + message);
    }

    /**
     * `get_video_info`: 400 without a URL or for a URL no video ID can be
     * read from; a cached entry for `youtube_info:<id>` is served as
     * cached; otherwise the metadata and languages are fetched, and the
     * answer is cached for six hours.
     */
    method GetVideoInfo(url: string, metadata: map<string, string>, languages: seq<string>)
      returns (reply: InfoReply)
      modifies this`infos
      ensures url == [] ==> reply == InfoRefused(400, "YouTube URL is required") && infos == old(infos)
      ensures url != [] && YouTubeService.ExtractVideoId(Py, url).None? ==>
        reply == InfoRefused(400, "Invalid YouTube URL") && infos == old(infos)
      ensures url != [] && YouTubeService.ExtractVideoId(Py, url).Some? ==>
        var key := "youtube_info:" + YouTubeService.ExtractVideoId(Py, url).value;
        if key in old(infos) then reply == InfoServed(old(infos)[key].0, true) && infos == old(infos)
        else
          var info := InfoOf(YouTubeService.ExtractVideoId(Py, url).value, metadata, languages);
          reply == InfoServed(info, false) && infos == old(infos)[key := (info, InfoTtl)]
    {
      if url == [] {
        return InfoRefused(400, "YouTube URL is required");
      }
      var id := YouTubeService.ExtractVideoId(Py, url);
      if id.None? {
        return InfoRefused(400, "Invalid YouTube URL");
      }
      var key := "youtube_info:" + id.value;
      if key in infos {
        return InfoServed(infos[key].0, true);
      }
      var info := InfoOf(id.value, metadata, languages);
      infos := infos[key := (info, InfoTtl)];
      reply := InfoServed(info, false);
    }

    /** The position of the user's notes on a video, if any. */
    function NotesOf(user: nat, videoId: string): (r: Option<nat>)
      reads this, rows
      ensures r.Some? ==> r.value < |rows| && rows[r.value].user == user && rows[r.value].videoId == videoId
      ensures r.None? ==> forall i :: 0 <= i < |rows| ==> !(rows[i].user == user && rows[i].videoId == videoId)
    {
      NotesOfBelow(user, videoId, |rows|)
    }

    function NotesOfBelow(user: nat, videoId: string, n: nat): (r: Option<nat>)
      requires n <= |rows|
      reads this, rows
      ensures r.Some? ==> r.value < n && rows[r.value].user == user && rows[r.value].videoId == videoId
      ensures r.None? ==> forall i :: 0 <= i < n ==> !(rows[i].user == user && rows[i].videoId == videoId)
    {
      if n == 0 then None
      else if rows[n - 1].user == user && rows[n - 1].videoId == videoId then Some(n - 1)
      else NotesOfBelow(user, videoId, n - 1)
    }

    /**
     * `save_video_notes` as meant: 400 without a video ID; otherwise the
     * user's notes on the video are overwritten (`created` false) or a new
     * row is made (`created` true), holding the given notes and timestamps.
     */
    method SaveNotes(user: nat, videoId: string, notes: string, timestamps: seq<TimedNote>)
      returns (status: int, created: bool)
      requires Valid()
      modifies this`rows
      modifies set i | 0 <= i < |rows| && rows[i].user == user && rows[i].videoId == videoId :: rows[i]
      ensures Valid()
      ensures videoId == [] ==> status == 400 && rows == old(rows)
      ensures videoId != [] ==>
        && status == 200
        && (created <==> old(NotesOf(user, videoId)).None?)
        && (old(NotesOf(user, videoId)).Some? ==> rows == old(rows))
        && (created ==> |rows| == |old(rows)| + 1 && rows[..|old(rows)|] == old(rows) && fresh(rows[|old(rows)|]))
        && NotesOf(user, videoId).Some?
        && rows[NotesOf(user, videoId).value].notes == notes
        && rows[NotesOf(user, videoId).value].timestamps == timestamps
    {
      if videoId == [] {
        return 400, false;
      }
      var k := NotesOf(user, videoId);
      if k.Some? {
        var row := rows[k.value];
        row.notes := notes;
        row.timestamps := timestamps;
        assert NotesOf(user, videoId) == Some(k.value) by {
          NotesOfUnique(user, videoId, k.value);
        }
        return 200, false;
      }
      var row := new VideoNotes(user, videoId);
      row.notes := notes;
      row.timestamps := timestamps;
      rows := rows + [row];
      assert NotesOf(user, videoId) == Some(|rows| - 1) by {
        NotesOfUnique(user, videoId, |rows| - 1);
      }
      status, created := 200, true;
    }

    /** With one row per user and video, the lookup finds exactly that row. */
    lemma NotesOfUnique(user: nat, videoId: string, k: nat)
      requires Valid() && k < |rows| && rows[k].user == user && rows[k].videoId == videoId
      ensures NotesOf(user, videoId) == Some(k)
    {
    }

    /**
     * `download_notes`: 404 unless the notes row exists and is the user's,
     * 400 for a format other than `txt` or `md`; otherwise the file named
     * after the video, whose content is the header and one line per
     * timestamped note.
     */
    method DownloadNotes(user: nat, notesId: nat, format: string, metadata: map<string, string>,
                         created: string, updated: string) returns (d: Download)
      ensures notesId >= |rows| || rows[notesId].user != user ==> d == DownloadRefused(404)
      ensures notesId < |rows| && rows[notesId].user == user && FormatOf(format).None? ==> d == DownloadRefused(400)
      ensures notesId < |rows| && rows[notesId].user == user && FormatOf(format).Some? ==>
        var row := rows[notesId];
        var f := FormatOf(format).value;
        var h := NotesHeader(OrUnknown(metadata, "title"), OrUnknown(metadata, "author"), row.videoId, created, updated, row.notes);
        d == File(FileName(f, row.videoId), HeaderOf(f, h) + Concat(LinesOf(f, row.timestamps)))
    {
      if notesId >= |rows| || rows[notesId].user != user {
        return DownloadRefused(404);
      }
      var row := rows[notesId];
      var f := FormatOf(format);
      if f.None? {
        return DownloadRefused(400);
      }
      var h := NotesHeader(OrUnknown(metadata, "title"), OrUnknown(metadata, "author"), row.videoId, created, updated, row.notes);
      var content := RenderNotes(f.value, HeaderOf(f.value, h), row.timestamps);
      d := File(FileName(f.value, row.videoId), content);
    }
  }

  /**
   * `save_video_notes` as written calls `timezone.now()` without importing
   * `timezone`: every request with a video ID ends in the `except` branch
   * with a 500, and nothing is saved.
   */
  function SaveNotesStatusAsWritten(videoId: string): (r: int)
    ensures r == 400 <==> videoId == []
    ensures r != 200 && r != 201
  {
    if videoId == [] then 400 else 500
  }

  lemma SaveNotesAlwaysFails(videoId: string)
    requires videoId != []
    ensures SaveNotesStatusAsWritten(videoId) == 500
  {
  }
}
