/**
 * The backend's YouTube transcript service (`YouTubeTranscriptService`).
 *
 * The network, the transcript library, yt_dlp and the HTML/XML/JSON parsers
 * are oracles held in an `Env`; what remains is the retry loop, the four-step
 * fallback chain with its audit list, the text normalisers inside the
 * strategies, and the recording of the last response for debugging.
 */
module YouTubeService {
  import opened Wrappers
  import opened Text

  // ---------------------------------------------------------------------
  // Video-ID extraction: two regular expressions tried in order.
  //   1. (?:youtube\.com\/watch\?v=|youtu\.be\/|youtube\.com\/embed\/)([^&\n?#]+)
  //   2. youtube\.com\/watch\?.*v=([^&\n?#]+)
  // The first is searched over the whole URL before the second is tried.
  // The same two patterns are used by the front end, where `.` also refuses
  // `\r`, U+2028 and U+2029; `Dialect` selects which `.` is meant.
  // ---------------------------------------------------------------------

  /** `[^&\n?#]` */
  predicate IsIdChar(c: char)
  {
    c != '&' && c != '\n' && c != '?' && c != '#'
  }

  /** Characters the regular-expression `.` accepts. */
  predicate DotAccepts(d: Dialect, c: char)
  {
    match d
    case Py => c != '\n'
    case Js => !IsJsLineTerminator(c)
  }

  const WatchPrefix: string := "youtube.com/watch?v="
  const ShortPrefix: string := "youtu.be/"
  const EmbedPrefix: string := "youtube.com/embed/"
  const WatchQuery: string := "youtube.com/watch?"

  /** Length of the maximal run of `[^&\n?#]` starting at `i`: the greedy capture group. */
  function IdRunLength(s: string, i: nat): (n: nat)
    requires i <= |s|
    ensures i + n <= |s|
    ensures forall k :: i <= k < i + n ==> IsIdChar(s[k])
    ensures i + n < |s| ==> !IsIdChar(s[i + n])
    decreases |s| - i
  {
    if i < |s| && IsIdChar(s[i]) then 1 + IdRunLength(s, i + 1) else 0
  }

  /** The capture `([^&\n?#]+)` when it starts at `i`. */
  function IdAt(s: string, i: nat): string
    requires i <= |s|
  {
    s[i..i + IdRunLength(s, i)]
  }

  /** Length of the alternative of pattern 1 that occurs at `p` (at most one can). */
  function Prefix1At(s: string, p: nat): Option<nat>
  {
    if OccursAt(s, WatchPrefix, p) then Some(|WatchPrefix|)
    else if OccursAt(s, ShortPrefix, p) then Some(|ShortPrefix|)
    else if OccursAt(s, EmbedPrefix, p) then Some(|EmbedPrefix|)
    else None
  }

  /** Pattern 1 matches at `p`: a prefix, then at least one ID character. */
  predicate Pattern1At(s: string, p: nat)
  {
    match Prefix1At(s, p)
    case None => false
    case Some(n) => p + n < |s| && IsIdChar(s[p + n])
  }

  /** Leftmost start of pattern 1 at or after `p`. */
  function FirstPattern1(s: string, p: nat): (r: Option<nat>)
    ensures r.Some? ==> p <= r.value && Pattern1At(s, r.value)
    ensures r.Some? ==> forall q :: p <= q < r.value ==> !Pattern1At(s, q)
    ensures r.None? ==> forall q :: p <= q ==> !Pattern1At(s, q)
    decreases |s| - p
  {
    if p >= |s| then
      assert forall q :: p <= q ==> !Pattern1At(s, q) by {
        forall q | p <= q ensures !Pattern1At(s, q) {
          assert !OccursAt(s, WatchPrefix, q) && !OccursAt(s, ShortPrefix, q) && !OccursAt(s, EmbedPrefix, q);
        }
      }
      None
    else if Pattern1At(s, p) then Some(p)
    else FirstPattern1(s, p + 1)
  }

  /** The capture of pattern 1 at a start where it matches. */
  function Capture1(s: string, p: nat): string
    requires Pattern1At(s, p)
  {
    IdAt(s, p + Prefix1At(s, p).value)
  }

  /** "v=" at `j`, followed by at least one ID character. */
  predicate VEqualsAt(s: string, j: nat)
  {
    OccursAt(s, "v=", j) && j + 2 < |s| && IsIdChar(s[j + 2])
  }

  /** End of the run `.*` can cover from `b`: the first character `.` refuses, or `|s|`. */
  function DotEnd(d: Dialect, s: string, b: nat): (e: nat)
    requires b <= |s|
    ensures b <= e <= |s|
    ensures forall k :: b <= k < e ==> DotAccepts(d, s[k])
    ensures e < |s| ==> !DotAccepts(d, s[e])
    decreases |s| - b
  {
    if b < |s| && DotAccepts(d, s[b]) then DotEnd(d, s, b + 1) else b
  }

  /** The largest `j` in `[b, k]` with `VEqualsAt(s, j)`: where the greedy `.*` stops. */
  function LastVEquals(s: string, b: nat, k: nat): (r: Option<nat>)
    requires b <= k
    ensures r.Some? ==> b <= r.value <= k && VEqualsAt(s, r.value)
    ensures r.Some? ==> forall j :: r.value < j <= k ==> !VEqualsAt(s, j)
    ensures r.None? ==> forall j :: b <= j <= k ==> !VEqualsAt(s, j)
    decreases k - b
  {
    if VEqualsAt(s, k) then Some(k)
    else if k == b then None
    else LastVEquals(s, b, k - 1)
  }

  /** Where pattern 2 started at `p` puts its "v=", if it matches there. */
  function Pattern2VAt(d: Dialect, s: string, p: nat): Option<nat>
  {
    if OccursAt(s, WatchQuery, p) then
      var b := p + |WatchQuery|;
      LastVEquals(s, b, DotEnd(d, s, b))
    else None
  }

  predicate Pattern2At(d: Dialect, s: string, p: nat)
  {
    Pattern2VAt(d, s, p).Some?
  }

  function FirstPattern2(d: Dialect, s: string, p: nat): (r: Option<nat>)
    ensures r.Some? ==> p <= r.value && Pattern2At(d, s, r.value)
    ensures r.Some? ==> forall q :: p <= q < r.value ==> !Pattern2At(d, s, q)
    ensures r.None? ==> forall q :: p <= q ==> !Pattern2At(d, s, q)
    decreases |s| - p
  {
    if p >= |s| then
      assert forall q :: p <= q ==> !Pattern2At(d, s, q) by {
        forall q | p <= q ensures !Pattern2At(d, s, q) {
          assert !OccursAt(s, WatchQuery, q);
        }
      }
      None
    else if Pattern2At(d, s, p) then Some(p)
    else FirstPattern2(d, s, p + 1)
  }

  /** Where the capture of pattern 2 begins: just after its "v=". */
  function Capture2Start(d: Dialect, s: string, p: nat): nat
    requires Pattern2At(d, s, p)
  {
    Pattern2VAt(d, s, p).value + 2
  }

  /** The capture of pattern 2 at a start where it matches. */
  function Capture2(d: Dialect, s: string, p: nat): string
    requires Pattern2At(d, s, p)
  {
    IdAt(s, Capture2Start(d, s, p))
  }

  /**
   * `extract_video_id`: the capture of the leftmost match of pattern 1, else
   * of pattern 2, else nothing: nothing exactly when neither pattern
   * matches anywhere in the URL.
   */
  function ExtractVideoId(d: Dialect, url: string): (r: Option<string>)
    ensures r.None? <==> forall p: nat :: !Pattern1At(url, p) && !Pattern2At(d, url, p)
  {
    match FirstPattern1(url, 0)
    case Some(p) => Some(Capture1(url, p))
    case None =>
      match FirstPattern2(d, url, 0)
      case Some(p) => Some(Capture2(d, url, p))
      case None => None
  }

  /** `id` sits in `url` at `j`, right after one of the recognised prefixes. */
  predicate FollowsPrefix(url: string, id: string, j: nat)
  {
    j + |id| <= |url| && url[j..j + |id|] == id
    && (EndsWith(url[..j], WatchPrefix) || EndsWith(url[..j], ShortPrefix)
        || EndsWith(url[..j], EmbedPrefix) || EndsWith(url[..j], "v="))
  }

  /**
   * What an extracted ID looks like: non-empty, free of `&`, `?`, `#` and
   * newlines, and found in the URL right after `watch?v=`, `youtu.be/`,
   * `embed/` or a `v=` inside a watch query.
   */
  lemma ExtractVideoIdShape(d: Dialect, url: string)
    ensures ExtractVideoId(d, url).Some? ==> exists j: nat :: IdShape(url, ExtractVideoId(d, url).value, j)
  {
    match FirstPattern1(url, 0)
    case Some(p) => Pattern1Shape(d, url, p);
    case None =>
      match FirstPattern2(d, url, 0)
      case Some(p) => Pattern2Shape(d, url, p);
      case None =>
  }

  lemma Pattern1Shape(d: Dialect, url: string, p: nat)
    requires FirstPattern1(url, 0) == Some(p)
    ensures ExtractVideoId(d, url).Some?
    ensures exists j: nat :: IdShape(url, ExtractVideoId(d, url).value, j)
  {
    Capture1Shape(url, p);
    assert IdShape(url, ExtractVideoId(d, url).value, p + Prefix1At(url, p).value);
  }

  lemma Pattern2Shape(d: Dialect, url: string, p: nat)
    requires FirstPattern1(url, 0).None? && FirstPattern2(d, url, 0) == Some(p)
    ensures ExtractVideoId(d, url).Some?
    ensures exists j: nat :: IdShape(url, ExtractVideoId(d, url).value, j)
  {
    Capture2Shape(d, url, p);
    assert IdShape(url, ExtractVideoId(d, url).value, Capture2Start(d, url, p));
  }

  /** `id` is a non-empty run of ID characters that follows a recognised prefix at `j`. */
  predicate IdShape(url: string, id: string, j: nat)
  {
    id != [] && (forall i :: 0 <= i < |id| ==> IsIdChar(id[i])) && FollowsPrefix(url, id, j)
  }

  lemma Capture1Shape(url: string, p: nat)
    requires Pattern1At(url, p)
    ensures IdShape(url, Capture1(url, p), p + Prefix1At(url, p).value)
  {
    var n := Prefix1At(url, p).value;
    var j := p + n;
    var id := Capture1(url, p);
    assert url[..j][j - n..] == url[p..p + n];
    assert |id| > 0;
    if OccursAt(url, WatchPrefix, p) {
      assert EndsWith(url[..j], WatchPrefix);
    } else if OccursAt(url, ShortPrefix, p) {
      assert EndsWith(url[..j], ShortPrefix);
    } else {
      assert EndsWith(url[..j], EmbedPrefix);
    }
  }

  lemma Capture2Shape(d: Dialect, url: string, p: nat)
    requires Pattern2At(d, url, p)
    ensures IdShape(url, Capture2(d, url, p), Capture2Start(d, url, p))
  {
    var j := Capture2Start(d, url, p);
    assert VEqualsAt(url, j - 2);
    assert url[..j][j - 2..] == url[j - 2..j];
    assert EndsWith(url[..j], "v=");
  }

  /** Where pattern 1 matches, its capture is the answer, even when pattern 2 would match further left. */
  lemma {:induction false} Pattern1First(d: Dialect, url: string, p: nat)
    requires Pattern1At(url, p)
    requires forall q: nat :: q < p ==> !Pattern1At(url, q)
    ensures ExtractVideoId(d, url) == Some(Capture1(url, p))
  {
    var r := FirstPattern1(url, 0);
    assert r.Some?;
    assert r.value == p;
  }

  // ---------------------------------------------------------------------
  // Pure normalisers inside the strategies.
  // ---------------------------------------------------------------------

  /** `bytes.isspace()` characters: what `content.strip()` removes. */
  predicate IsAsciiSpace(c: char)
  {
    c == ' ' || c == '\t' || c == '\n' || c == '\r' || c == '\U{000B}' || c == '\U{000C}'
  }

  predicate IsBytesBlank(s: string)
  {
    forall i :: 0 <= i < |s| ==> IsAsciiSpace(s[i])
  }

  /** The direct strategy's clean-up: `&amp;`, then `&lt;`, then `&gt;`. */
  function DecodeEntities(s: string): string
  {
    ReplaceAll(ReplaceAll(ReplaceAll(s, "&amp;", "&"), "&lt;", "<"), "&gt;", ">")
  }

  /** Text without `&` has nothing to decode. */
  lemma DecodeEntitiesNoAmpersand(s: string)
    requires forall i :: 0 <= i < |s| ==> s[i] != '&'
    ensures DecodeEntities(s) == s
  {
    NoAmpersandNoEntity(s, "&amp;");
    ReplaceAllAbsent(s, "&amp;", "&");
    NoAmpersandNoEntity(s, "&lt;");
    ReplaceAllAbsent(s, "&lt;", "<");
    NoAmpersandNoEntity(s, "&gt;");
    ReplaceAllAbsent(s, "&gt;", ">");
  }

  lemma NoAmpersandNoEntity(s: string, e: string)
    requires |e| > 0 && e[0] == '&'
    requires forall i :: 0 <= i < |s| ==> s[i] != '&'
    ensures !Contains(s, e)
  {
    forall j: nat | j <= |s| ensures !OccursAt(s, e, j) {
      if j + |e| <= |s| {
        assert s[j..j + |e|][0] == s[j];
      }
    }
  }

  /**
   * Because `&amp;` is decoded first, a doubly escaped entity is decoded
   * twice: the text `&amp;lt;` comes out as `<`, not `&lt;`.
   */
  lemma DecodeEntitiesCascades()
    ensures DecodeEntities("&amp;lt;") == "<"
  {
    assert ReplaceAll("&amp;lt;", "&amp;", "&") == "&lt;" by {
      assert "&amp;lt;"[..5] == "&amp;";
      assert "&amp;lt;"[5..] == "lt;";
      assert ReplaceAll("lt;", "&amp;", "&") == "lt;" by {
        assert !Contains("lt;", "&amp;");
      }
    }
    assert ReplaceAll("&lt;", "&lt;", "<") == "<" by {
      assert "&lt;"[..4] == "&lt;";
      assert "&lt;"[4..] == "";
    }
    assert ReplaceAll("<", "&gt;", ">") == "<";
  }

  // ----- yt_dlp caption-source preference -----

  /** A caption track offered by yt_dlp: `fmt.get('url')` and `fmt.get('ext', '')`. */
  datatype SubtitleFormat = SubtitleFormat(url: Option<string>, ext: string)

  /** A dict from language code to formats, in insertion order, keys distinct. */
  type CaptionMap = seq<(string, seq<SubtitleFormat>)>

  function Keys(m: CaptionMap): seq<string>
  {
    seq(|m|, i requires 0 <= i < |m| => m[i].0)
  }

  /** `m[k]` when `k in m`. */
  function Lookup(m: CaptionMap, k: string): Option<seq<SubtitleFormat>>
  {
    if m == [] then None else if m[0].0 == k then Some(m[0].1) else Lookup(m[1..], k)
  }

  lemma {:induction false} LookupFound(m: CaptionMap, k: string)
    ensures Lookup(m, k).Some? <==> k in Keys(m)
  {
    if m != [] {
      LookupFound(m[1..], k);
      assert Keys(m) == [m[0].0] + Keys(m[1..]);
    }
  }

  /** The language and the formats the yt_dlp strategy works through. */
  datatype CaptionChoice = CaptionChoice(language: string, sources: seq<SubtitleFormat>)

  /**
   * Manual captions in the requested language, then automatic ones in that
   * language, then the first manual language, then the first automatic one.
   */
  function ChooseCaptions(subs: CaptionMap, auto: CaptionMap, lang: string): (c: CaptionChoice)
    ensures Lookup(subs, lang).Some? ==> c == CaptionChoice(lang, Lookup(subs, lang).value)
    ensures Lookup(subs, lang).None? && Lookup(auto, lang).Some? ==> c == CaptionChoice(lang, Lookup(auto, lang).value)
    ensures Lookup(subs, lang).None? && Lookup(auto, lang).None? && subs != [] ==> c == CaptionChoice(subs[0].0, subs[0].1)
    ensures Lookup(subs, lang).None? && Lookup(auto, lang).None? && subs == [] && auto != [] ==> c == CaptionChoice(auto[0].0, auto[0].1)
    ensures subs == [] && auto == [] ==> c.sources == []
  {
    match Lookup(subs, lang)
    case Some(f) => CaptionChoice(lang, f)
    case None =>
      match Lookup(auto, lang)
      case Some(f) => CaptionChoice(lang, f)
      case None =>
        if subs != [] then CaptionChoice(subs[0].0, subs[0].1)
        else if auto != [] then CaptionChoice(auto[0].0, auto[0].1)
        else CaptionChoice(lang, [])
  }

  // ----- yt_dlp per-format clean-up -----

  /** Case-insensitive "WEBVTT" at `i`. */
  predicate WebVttAt(s: string, i: nat)
  {
    i + 6 <= |s| && Upper(s[i..i + 6]) == "WEBVTT"
  }

  /** First `\n` at or after `i`. */
  function NewlineFrom(s: string, i: nat): (r: Option<nat>)
    ensures r.Some? ==> i <= r.value < |s| && s[r.value] == '\n'
    ensures r.Some? ==> forall k :: i <= k < r.value ==> s[k] != '\n'
    ensures r.None? ==> forall k :: i <= k < |s| ==> s[k] != '\n'
    decreases |s| - i
  {
    if i >= |s| then None else if s[i] == '\n' then Some(i) else NewlineFrom(s, i + 1)
  }

  /**
   * `re.sub(r'WEBVTT.*?\n', '', text, flags=re.IGNORECASE | re.DOTALL)`:
   * every "WEBVTT" (any case) that has a newline after it is removed up to
   * and including that newline, scanning from the left.
   */
  function StripWebVttHeaders(s: string): (r: string)
    ensures |r| <= |s|
    decreases |s|
  {
    if s == [] then []
    else if WebVttAt(s, 0) && NewlineFrom(s, 6).Some? then
      StripWebVttHeaders(s[NewlineFrom(s, 6).value + 1..])
    else [s[0]] + StripWebVttHeaders(s[1..])
  }

  /** Maximal run of whitespace (Python `\s`) from `i`. */
  function SpaceRunEnd(s: string, i: nat): (e: nat)
    requires i <= |s|
    ensures i <= e <= |s|
    ensures forall k :: i <= k < e ==> IsSpace(Py, s[k])
    ensures e < |s| ==> !IsSpace(Py, s[e])
    decreases |s| - i
  {
    if i < |s| && IsSpace(Py, s[i]) then SpaceRunEnd(s, i + 1) else i
  }

  /** Maximal run of digits from `i`. */
  function DigitRunEnd(s: string, i: nat): (e: nat)
    requires i <= |s|
    ensures i <= e <= |s|
    ensures forall k :: i <= k < e ==> IsPyDecimal(s[k])
    ensures e < |s| ==> !IsPyDecimal(s[e])
    decreases |s| - i
  {
    if i < |s| && IsPyDecimal(s[i]) then DigitRunEnd(s, i + 1) else i
  }

  /** `\d{2}:\d{2}:\d{2}` at `i`. */
  predicate ClockAt(s: string, i: nat)
  {
    i + 8 <= |s| && IsPyDecimal(s[i]) && IsPyDecimal(s[i + 1]) && s[i + 2] == ':'
    && IsPyDecimal(s[i + 3]) && IsPyDecimal(s[i + 4]) && s[i + 5] == ':'
    && IsPyDecimal(s[i + 6]) && IsPyDecimal(s[i + 7])
  }

  /** `\d{2}:\d{2}:\d{2}<sep>\d{3}` at `i`: a cue time with `.` (WebVTT) or `,` (SRT). */
  predicate CueTimeAt(s: string, i: nat, sep: char)
  {
    ClockAt(s, i) && i + 12 <= |s| && s[i + 8] == sep
    && IsPyDecimal(s[i + 9]) && IsPyDecimal(s[i + 10]) && IsPyDecimal(s[i + 11])
  }

  /** `^` with `re.MULTILINE`. */
  predicate LineStart(s: string, i: nat)
  {
    i <= |s| && (i == 0 || s[i - 1] == '\n')
  }

  /**
   * End of a match of `^\s*\d{2}:\d{2}:\d{2}<sep>\d{3}.*$` started at `i`:
   * `\s*` is maximal (a shorter run leaves whitespace where a digit is
   * needed) and `.*$` runs to the next newline or the end.
   */
  function CueLineMatch(s: string, i: nat, sep: char): Option<nat>
    requires i <= |s|
  {
    var w := SpaceRunEnd(s, i);
    if LineStart(s, i) && CueTimeAt(s, w, sep) then
      match NewlineFrom(s, w + 12)
      case Some(n) => Some(n)
      case None => Some(|s|)
    else None
  }

  /**
   * End of a match of `^\s*\d+\s*$` started at `i`. `\s*` and `\d+` are
   * maximal; the trailing `\s*` gives back characters until `$` holds, that
   * is until the end of the text or a position before a newline.
   */
  function IndexLineMatch(s: string, i: nat): Option<nat>
    requires i <= |s|
  {
    var w := SpaceRunEnd(s, i);
    var e := DigitRunEnd(s, w);
    if !LineStart(s, i) || e == w then None
    else
      var t := SpaceRunEnd(s, e);
      if t == |s| || s[t] == '\n' then Some(t)
      else LastNewlineIn(s, e, t)
  }

  /** The last `\n` in `s[b..t]`. */
  function LastNewlineIn(s: string, b: nat, t: nat): (r: Option<nat>)
    requires b <= t <= |s|
    ensures r.Some? ==> b <= r.value < t && s[r.value] == '\n'
    decreases t - b
  {
    if t == b then None else if s[t - 1] == '\n' then Some(t - 1) else LastNewlineIn(s, b, t - 1)
  }

  /** Which line-anchored pattern a `re.sub(..., flags=re.MULTILINE)` call removes. */
  datatype LinePattern = VttCue | SrtCue | SrtIndex

  function LinePatternMatch(s: string, i: nat, pat: LinePattern): (r: Option<nat>)
    requires i <= |s|
    ensures r.Some? ==> i < r.value <= |s|
  {
    match pat
    case VttCue =>
      var m := CueLineMatch(s, i, '.');
      if m.Some? then assert CueTimeAt(s, SpaceRunEnd(s, i), '.'); m else m
    case SrtCue =>
      var m := CueLineMatch(s, i, ',');
      if m.Some? then assert CueTimeAt(s, SpaceRunEnd(s, i), ','); m else m
    case SrtIndex =>
      var m := IndexLineMatch(s, i);
      if m.Some? then assert DigitRunEnd(s, SpaceRunEnd(s, i)) > i; m else m
  }

  /** `re.sub(pattern, '', s, flags=re.MULTILINE)` for a line-anchored pattern, scanning from `i`. */
  function RemoveLineMatches(s: string, i: nat, pat: LinePattern): (r: string)
    requires i <= |s|
    ensures |r| <= |s| - i
    decreases |s| - i
  {
    if i == |s| then []
    else
      match LinePatternMatch(s, i, pat)
      case Some(e) => RemoveLineMatches(s, e, pat)
      case None => [s[i]] + RemoveLineMatches(s, i + 1, pat)
  }

  /** Python's line boundaries for `str.splitlines()`. */
  predicate IsLineBoundary(c: char)
  {
    c == '\n' || c == '\r' || c == '\U{000B}' || c == '\U{000C}' || c == '\U{001C}' || c == '\U{001D}'
    || c == '\U{001E}' || c == '\U{0085}' || c == '\U{2028}' || c == '\U{2029}'
  }

  /**
   * The lines of `s`, cut at every line boundary. `splitlines()` treats
   * `\r\n` as one boundary and drops a final empty line; the pieces differ
   * only by empty lines, which the caption filter drops anyway.
   */
  function Lines(s: string): seq<string>
  {
    LinesFrom(s, 0, 0)
  }

  function LinesFrom(s: string, start: nat, i: nat): seq<string>
    requires start <= i <= |s|
    decreases |s| - i
  {
    if i == |s| then [s[start..i]]
    else if IsLineBoundary(s[i]) then [s[start..i]] + LinesFrom(s, i + 1, i + 1)
    else LinesFrom(s, start, i + 1)
  }

  /** The caption filter's verdict on one stripped line. */
  predicate KeepCaptionLine(line: string)
  {
    line != []
    && !Contains(line, "-->")
    && !(forall k :: 0 <= k < |line| ==> IsPyDecimal(line[k]))
    && !ClockAt(line, 0)
    && !StartsWith(Upper(line), "WEBVTT")
  }

  /** A line of digits of another script is a bare number too: `١٢` is dropped. */
  lemma ArabicIndicNumberDropped()
    ensures !KeepCaptionLine("\U{0661}\U{0662}")
  {
    var line := "\U{0661}\U{0662}";
    assert IsPyDecimal(line[0]) && IsPyDecimal(line[1]);
  }

  /**
   * The fallback normalisation loop: strip every line, drop blank lines,
   * cue arrows, bare numbers, lines starting with a clock time and WEBVTT
   * headers; keep the rest in order.
   */
  method FilterCaptionLines(text: string) returns (kept: seq<string>)
    ensures kept == KeptLines(Lines(text))
  {
    var lines := Lines(text);
    kept := [];
    var i := 0;
    while i < |lines|
      invariant 0 <= i <= |lines|
      invariant kept == KeptLines(lines[..i])
    {
      var line := Trim(Py, lines[i]);
      KeptLinesStep(lines, i);
      if KeepCaptionLine(line) {
        kept := kept + [line];
      }
      i := i + 1;
    }
    assert lines[..|lines|] == lines;
  }

  /** The stripped lines the filter keeps, in order. */
  function KeptLines(lines: seq<string>): seq<string>
  {
    if lines == [] then []
    else
      var init := KeptLines(lines[..|lines| - 1]);
      var line := Trim(Py, lines[|lines| - 1]);
      if KeepCaptionLine(line) then init + [line] else init
  }

  lemma KeptLinesStep(lines: seq<string>, i: nat)
    requires i < |lines|
    ensures KeptLines(lines[..i + 1]) == (if KeepCaptionLine(Trim(Py, lines[i])) then KeptLines(lines[..i]) + [Trim(Py, lines[i])] else KeptLines(lines[..i]))
  {
    assert lines[..i + 1][..i] == lines[..i];
  }

  /** Every line the filter keeps passes all five tests, and there are no more of them than lines. */
  lemma {:induction false} KeptLinesPass(lines: seq<string>)
    ensures |KeptLines(lines)| <= |lines|
    ensures forall i :: 0 <= i < |KeptLines(lines)| ==> KeepCaptionLine(KeptLines(lines)[i])
  {
    if lines != [] {
      KeptLinesPass(lines[..|lines| - 1]);
    }
  }

  /** A caption transcript built from kept lines is empty exactly when no line was kept. */
  lemma {:induction false} CaptionJoinEmpty(kept: seq<string>)
    requires forall i :: 0 <= i < |kept| ==> KeepCaptionLine(kept[i])
    ensures Join(" ", kept) == [] <==> kept == []
  {
    if |kept| > 1 {
      assert KeepCaptionLine(kept[0]);
    } else if |kept| == 1 {
      assert KeepCaptionLine(kept[0]);
    }
  }

  /** The clean-up applied to a fetched caption file before the line filter, by extension. */
  function NormaliseByFormat(ext: string, text: string, parseXml: string -> Option<seq<string>>): string
  {
    if ext == "vtt" || ext == "webvtt" then
      RemoveLineMatches(StripWebVttHeaders(text), 0, VttCue)
    else if ext == "srt" then
      RemoveLineMatches(RemoveLineMatches(text, 0, SrtIndex), 0, SrtCue)
    else if ext == "json3" || ext == "srv3" || ext == "ttml" || ext == "xml" then
      match parseXml(text)
      case Some(texts) => Join(" ", NonBlankStripped(texts))
      case None => ReplaceAll(text, "-->", "")
    else text
  }

  /** `[t.strip() for t in texts if t and t.strip()]` */
  function NonBlankStripped(texts: seq<string>): seq<string>
  {
    if texts == [] then []
    else
      var t := Trim(Py, texts[0]);
      if t == [] then NonBlankStripped(texts[1..]) else [t] + NonBlankStripped(texts[1..])
  }

  /** `' '.join(x.strip() for x in texts if x.strip())` keeps exactly the non-blank texts. */
  lemma {:induction false} NonBlankStrippedEmpty(texts: seq<string>)
    ensures NonBlankStripped(texts) == [] <==> forall i :: 0 <= i < |texts| ==> IsBlank(Py, texts[i])
  {
    if texts != [] {
      TrimShape(Py, texts[0]);
      NonBlankStrippedEmpty(texts[1..]);
      if forall i :: 0 <= i < |texts[1..]| ==> IsBlank(Py, texts[1..][i]) {
        if IsBlank(Py, texts[0]) {
          forall i | 0 <= i < |texts| ensures IsBlank(Py, texts[i]) {
            if i > 0 { assert texts[i] == texts[1..][i - 1]; }
          }
        }
      } else {
        var i :| 0 <= i < |texts[1..]| && !IsBlank(Py, texts[1..][i]);
        assert texts[i + 1] == texts[1..][i];
      }
    }
  }

  // ---------------------------------------------------------------------
  // HTTP with retries (`_make_request`).
  // The network is a fixed function from a URL and an attempt number to
  // what `requests.get` ends in; the sleeps are returned instead of slept.
  // ---------------------------------------------------------------------

  /** What one `requests.get` ends in: a response, a timeout, or another exception. */
  datatype HttpOutcome = Reply(status: int, reason: string, text: string) | TimedOut | Failed

  /** A `requests.Response` as the service reads it. */
  datatype Response = Response(status: int, reason: string, text: string)

  /** The answer to the `attempt`-th GET of a URL. */
  type Network = (string, nat) -> HttpOutcome

  /**
   * `if response:` on a `requests.Response` is `response.ok`, which is false
   * exactly for a client or server error status, 400 to 599; any other
   * status, 600 and above included, is truthy.
   */
  predicate Truthy(r: Option<Response>)
  {
    r.Some? && !(400 <= r.value.status < 600)
  }

  /** An outcome after which the loop sleeps and tries again, while attempts remain. */
  predicate Retryable(o: HttpOutcome)
  {
    !o.Reply? || o.status == 429 || o.status == 403
  }

  function Pow2(n: nat): nat
  {
    if n == 0 then 1 else 2 * Pow2(n - 1)
  }

  /** The sleep after attempt `attempt`: `2**attempt + attempt` when blocked, `2**attempt + 1` after an exception. */
  function Backoff(o: HttpOutcome, attempt: nat): nat
  {
    if o.Reply? then Pow2(attempt) + attempt else Pow2(attempt) + 1
  }

  /** What `_make_request` returns when `o` is the attempt it stops at. */
  function Returned(o: HttpOutcome): Option<Response>
  {
    if o.Reply? then Some(Response(o.status, o.reason, o.text)) else None
  }

  /** The result of `_make_request(url, maxRetries)`, from attempt `attempt` on. */
  function Request(net: Network, url: string, maxRetries: int, attempt: nat): Option<Response>
    decreases maxRetries - attempt
  {
    if attempt >= maxRetries then None
    else if Retryable(net(url, attempt)) && attempt < maxRetries - 1 then Request(net, url, maxRetries, attempt + 1)
    else Returned(net(url, attempt))
  }

  /**
   * `_make_request` returns what the first attempt that is not retried
   * ended in: a 200 or any status other than 429/403 at once, and on the
   * last attempt the still-blocked response or, after an exception, None.
   */
  lemma {:induction false} RequestStopsAtFirstDecisive(net: Network, url: string, maxRetries: int, attempt: nat, k: nat)
    requires attempt <= k < maxRetries
    requires k == maxRetries - 1 || !Retryable(net(url, k))
    requires forall j :: attempt <= j < k ==> Retryable(net(url, j))
    ensures Request(net, url, maxRetries, attempt) == Returned(net(url, k))
    decreases k - attempt
  {
    if attempt < k {
      RequestStopsAtFirstDecisive(net, url, maxRetries, attempt + 1, k);
    }
  }

  /** With no attempts allowed, or when every attempt throws, there is no response. */
  lemma RequestNone(net: Network, url: string, maxRetries: int)
    ensures maxRetries <= 0 ==> Request(net, url, maxRetries, 0) == None
    ensures (forall j :: 0 <= j < maxRetries ==> !net(url, j).Reply?) ==> Request(net, url, maxRetries, 0) == None
  {
    if maxRetries > 0 && forall j :: 0 <= j < maxRetries ==> !net(url, j).Reply? {
      RequestStopsAtFirstDecisive(net, url, maxRetries, 0, maxRetries - 1);
    }
  }

  /**
   * `_make_request`: at most `maxRetries` GETs; `waits` are the sleeps
   * between them, one per retried attempt, and the call stops at attempt
   * `|waits|`.
   */
  method MakeRequest(net: Network, url: string, maxRetries: int) returns (r: Option<Response>, waits: seq<nat>)
    ensures r == Request(net, url, maxRetries, 0)
    ensures maxRetries <= 0 ==> r == None && waits == []
    ensures maxRetries > 0 ==> |waits| < maxRetries
    ensures maxRetries > 0 ==> r == Returned(net(url, |waits|))
    ensures maxRetries > 0 ==> |waits| == maxRetries - 1 || !Retryable(net(url, |waits|))
    ensures forall i :: 0 <= i < |waits| ==> Retryable(net(url, i)) && waits[i] == Backoff(net(url, i), i)
  {
    waits := [];
    var attempt: nat := 0;
    while attempt < maxRetries
      invariant maxRetries > 0 ==> attempt < maxRetries
      invariant maxRetries <= 0 ==> attempt == 0
      invariant attempt == |waits|
      invariant Request(net, url, maxRetries, 0) == Request(net, url, maxRetries, attempt)
      invariant forall i :: 0 <= i < |waits| ==> Retryable(net(url, i)) && waits[i] == Backoff(net(url, i), i)
      decreases maxRetries - attempt
    {
      match net(url, attempt) {
        case Reply(status, reason, text) =>
          if status == 200 {
            r := Some(Response(status, reason, text));
            return;
          } else if status == 429 || status == 403 {
            var wait := Pow2(attempt) + attempt;
            if attempt < maxRetries - 1 {
              waits := waits + [wait];
              attempt := attempt + 1;
              continue;
            }
            r := Some(Response(status, reason, text));
            return;
          } else {
            r := Some(Response(status, reason, text));
            return;
          }
        case TimedOut =>
          if attempt < maxRetries - 1 {
            waits := waits + [Pow2(attempt) + 1];
            attempt := attempt + 1;
            continue;
          }
          r := None;
          return;
        case Failed =>
          if attempt < maxRetries - 1 {
            waits := waits + [Pow2(attempt) + 1];
            attempt := attempt + 1;
            continue;
          }
          r := None;
          return;
      }
    }
    r := None;
  }

  // ---------------------------------------------------------------------
  // The debugging snapshot of the last response (`_record_response`).
  // ---------------------------------------------------------------------

  datatype ResponseInfo = ResponseInfo(url: string, statusCode: int, reason: string, snippet: string)

  /** `text.replace('\n', ' ')[:1000]` */
  function Snippet(text: string): string
  {
    var flat := ReplaceAll(text, "\n", " ");
    if |flat| <= 1000 then flat else flat[..1000]
  }

  /** Replacing the one-character string "\n" maps each character on its own. */
  lemma {:induction false} ReplaceNewlines(text: string)
    ensures |ReplaceAll(text, "\n", " ")| == |text|
    ensures forall i :: 0 <= i < |text| ==> ReplaceAll(text, "\n", " ")[i] == (if text[i] == '\n' then ' ' else text[i])
    decreases |text|
  {
    if |text| > 0 {
      ReplaceNewlines(text[1..]);
      var rest := ReplaceAll(text[1..], "\n", " ");
      if text[..1] == "\n" {
        assert ReplaceAll(text, "\n", " ") == " " + rest;
        assert text[0] == '\n' by { assert text[..1][0] == text[0]; }
      } else {
        assert ReplaceAll(text, "\n", " ") == [text[0]] + rest;
        assert text[0] != '\n' by { assert text[..1] == [text[0]]; }
      }
      forall i | 1 <= i < |text| ensures text[i] == text[1..][i - 1] { }
    }
  }

  /** The snippet is the first 1000 characters of the body with every newline turned into a space. */
  lemma SnippetShape(text: string)
    ensures |Snippet(text)| == (if |text| <= 1000 then |text| else 1000)
    ensures forall i :: 0 <= i < |Snippet(text)| ==> Snippet(text)[i] != '\n'
    ensures forall i :: 0 <= i < |Snippet(text)| ==> Snippet(text)[i] == (if text[i] == '\n' then ' ' else text[i])
  {
    ReplaceNewlines(text);
  }

  /** The snapshot `_record_response` stores for a response fetched from `url`. */
  function InfoOf(url: string, r: Response): ResponseInfo
  {
    ResponseInfo(url, r.status, r.reason, Snippet(r.text))
  }

  /** The snapshot after fetching `url`: callers record only truthy responses. */
  function Recorded(prev: Option<ResponseInfo>, url: string, r: Option<Response>): Option<ResponseInfo>
  {
    if Truthy(r) then Some(InfoOf(url, r.value)) else prev
  }

  /** A reply with a status from 600 on is truthy, so it is recorded. */
  lemma HighStatusRecorded(prev: Option<ResponseInfo>, url: string, resp: Response)
    requires resp.status >= 600
    ensures Recorded(prev, url, Some(resp)) == Some(InfoOf(url, resp))
  {
  }

  // ---------------------------------------------------------------------
  // Results shared by the strategies and the fallback chain.
  // ---------------------------------------------------------------------

  datatype Strategy = TranscriptApi | DirectApi | WebScraping | YtDlpStrategy

  /** The four strategies in the order `extract_transcript` tries them. */
  const StrategyOrder: seq<Strategy> := [TranscriptApi, DirectApi, WebScraping, YtDlpStrategy]

  /** One entry of the `fallbacks` audit list: `{method, result}` or `{method, error}`. */
  datatype FallbackEntry = Tried(via: Strategy, result: bool) | Errored(via: Strategy, error: string)

  datatype Segment = Segment(start: real, duration: real, text: string)

  /**
   * The transcript dict (`via` is its `method` key). `language`, `via`, `usedUrl`, `ytDlpFormat` and
   * `error` are None where the dict has no such key; `wordCount` is 0 in the
   * failure dict, which has none.
   */
  datatype TranscriptResult = TranscriptResult(
    success: bool, videoId: string, language: Option<string>, transcript: string,
    segments: seq<Segment>, wordCount: nat, via: Option<Strategy>,
    usedUrl: Option<string>, ytDlpFormat: Option<string>, error: Option<string>,
    fallbacks: seq<FallbackEntry>)

  /** A strategy's successful result, before the chain attaches its audit list. */
  function Found(videoId: string, language: Option<string>, transcript: string, segments: seq<Segment>,
                 wordCount: nat, m: Strategy, usedUrl: Option<string>, format: Option<string>): TranscriptResult
  {
    TranscriptResult(true, videoId, language, transcript, segments, wordCount, Some(m), usedUrl, format, None, [])
  }

  /** What a strategy call ends in: a result (None when it found nothing) or an exception it let escape. */
  datatype StrategyOutcome = Produced(result: Option<TranscriptResult>) | Raised(error: string)

  // ----- strategy 1: the transcript library -----

  /** One entry from the library: its text ('' when absent) and `float()` of start and duration (None when that raises). */
  datatype LibraryEntry = LibraryEntry(text: string, start: Option<real>, duration: Option<real>)

  /** A library call: a fetched list, NoTranscriptFound/TranscriptsDisabled, or any other exception. */
  datatype LibraryCall = Got(entries: seq<LibraryEntry>) | NotFound | Broke

  /** `list_transcripts(video_id)`: `find_transcript(langs).fetch()` and the `_transcripts` keys. */
  datatype Listing = Listing(find: seq<string> -> LibraryCall, keys: seq<string>)

  /**
   * The installed library as the strategy probes it: `get_transcript(id,
   * languages=[l])` (None for no language list) when that attribute exists,
   * and `list_transcripts(id)` (None when it raises) when that one does.
   */
  datatype TranscriptLibrary =
    | NotInstalled
    | Installed(getTranscript: Option<(string, Option<string>) -> LibraryCall>,
                listTranscripts: Option<string -> Option<Listing>>)

  /** Where the language search stands: nothing yet, a list and its language, or an escaped exception. */
  datatype LibraryStep = NothingYet | Done(entries: seq<LibraryEntry>, language: string) | Abort

  /** `get_transcript` with the requested language, then 'en', then no language list. */
  function PrimaryLookup(get: (string, Option<string>) -> LibraryCall, videoId: string, lang: string): LibraryStep
  {
    match get(videoId, Some(lang))
    case Got(e) => Done(e, lang)
    case Broke => Abort
    case NotFound =>
      match get(videoId, Some("en"))
      case Got(e) => Done(e, "en")
      case Broke => Abort
      case NotFound =>
        match get(videoId, None)
        case Got(e) => Done(e, lang)
        case _ => NothingYet
  }

  /** `find_transcript` with the requested language, then 'en', then every listed key. */
  function ListingLookup(listing: Option<Listing>, lang: string): LibraryStep
  {
    match listing
    case None => NothingYet
    case Some(l) =>
      match l.find([lang])
      case Got(e) => Done(e, lang)
      case _ =>
        match l.find(["en"])
        case Got(e) => Done(e, "en")
        case _ =>
          if l.keys == [] then NothingYet
          else
            match l.find(l.keys)
            case Got(e) => Done(e, lang)
            case _ => NothingYet
  }

  /** The list the library strategy ends up with, and the language it reports. */
  function LibraryLookup(lib: TranscriptLibrary, videoId: string, lang: string): LibraryStep
  {
    match lib
    case NotInstalled => Abort
    case Installed(get, list) =>
      var first := if get.Some? then PrimaryLookup(get.value, videoId, lang) else NothingYet;
      if first.NothingYet? && list.Some? then ListingLookup(list.value(videoId), lang) else first
  }

  /** Entries whose stripped text is non-empty, in order. */
  function KeptEntries(entries: seq<LibraryEntry>): seq<LibraryEntry>
  {
    if entries == [] then []
    else if IsBlank(Py, entries[0].text) then KeptEntries(entries[1..])
    else [entries[0]] + KeptEntries(entries[1..])
  }

  /** The segments of the kept entries; None when a `float()` conversion raises. */
  function EntrySegments(kept: seq<LibraryEntry>): Option<seq<Segment>>
  {
    if kept == [] then Some([])
    else
      var e := kept[0];
      if e.start.None? || e.duration.None? then None
      else
        match EntrySegments(kept[1..])
        case None => None
        case Some(rest) => Some([Segment(e.start.value, e.duration.value, Trim(Py, e.text))] + rest)
  }

  function SegmentTexts(segments: seq<Segment>): seq<string>
  {
    seq(|segments|, i requires 0 <= i < |segments| => segments[i].text)
  }

  /**
   * `_extract_with_transcript_api`. The source joins the texts before it
   * converts the numbers; either failure gives None, so the order is moot.
   */
  function ExtractWithTranscriptApi(lib: TranscriptLibrary, videoId: string, lang: string): Option<TranscriptResult>
  {
    match LibraryLookup(lib, videoId, lang)
    case Done(entries, language) =>
      if entries == [] then None
      else
        (match EntrySegments(KeptEntries(entries))
         case None => None
         case Some(segments) =>
           var full := Join(" ", SegmentTexts(segments));
           if full == [] then None
           else Some(Found(videoId, Some(language), full, segments, |Words(Py, full)|, TranscriptApi, None, None)))
    case NothingYet => None
    case Abort => None
  }

  /** Converted segments keep one entry each, with its stripped text. */
  lemma {:induction false} EntrySegmentsTexts(kept: seq<LibraryEntry>)
    requires EntrySegments(kept).Some?
    ensures |EntrySegments(kept).value| == |kept|
    ensures forall i :: 0 <= i < |kept| ==> EntrySegments(kept).value[i].text == Trim(Py, kept[i].text)
  {
    if kept != [] {
      EntrySegmentsTexts(kept[1..]);
    }
  }

  /** Every kept entry has a non-blank text, so its stripped text is non-empty. */
  lemma {:induction false} KeptEntriesNonBlank(entries: seq<LibraryEntry>)
    ensures forall i :: 0 <= i < |KeptEntries(entries)| ==> !IsBlank(Py, KeptEntries(entries)[i].text)
    ensures KeptEntries(entries) == [] <==> forall i :: 0 <= i < |entries| ==> IsBlank(Py, entries[i].text)
  {
    if entries != [] {
      KeptEntriesNonBlank(entries[1..]);
      if !IsBlank(Py, entries[0].text) {
        assert KeptEntries(entries)[0] == entries[0];
      } else {
        forall i | 1 <= i < |entries| ensures entries[i] == entries[1..][i - 1] { }
      }
    }
  }

  /**
   * The library strategy's transcript is the stripped non-blank entry texts
   * joined by single spaces, and its segments are exactly those entries,
   * carrying the same stripped texts.
   */
  lemma LibraryTranscriptShape(lib: TranscriptLibrary, videoId: string, lang: string)
    requires ExtractWithTranscriptApi(lib, videoId, lang).Some?
    ensures LibraryLookup(lib, videoId, lang).Done?
    ensures var r := ExtractWithTranscriptApi(lib, videoId, lang).value;
      var kept := KeptEntries(LibraryLookup(lib, videoId, lang).entries);
      && r.success && r.via == Some(TranscriptApi) && r.videoId == videoId
      && r.language == Some(LibraryLookup(lib, videoId, lang).language)
      && r.transcript == Join(" ", SegmentTexts(r.segments)) && r.transcript != []
      && |r.segments| == |kept|
      && (forall i :: 0 <= i < |kept| ==> r.segments[i].text == Trim(Py, kept[i].text) && r.segments[i].text != [])
  {
    var kept := KeptEntries(LibraryLookup(lib, videoId, lang).entries);
    EntrySegmentsTexts(kept);
    KeptEntriesNonBlank(LibraryLookup(lib, videoId, lang).entries);
    forall i | 0 <= i < |kept| ensures Trim(Py, kept[i].text) != [] {
      TrimShape(Py, kept[i].text);
    }
  }

  /** A list of entries whose texts are all blank gives no result; one non-blank entry with readable numbers gives one. */
  lemma LibraryEmptyJoin(lib: TranscriptLibrary, videoId: string, lang: string)
    requires LibraryLookup(lib, videoId, lang).Done?
    ensures var entries := LibraryLookup(lib, videoId, lang).entries;
      (forall i :: 0 <= i < |entries| ==> IsBlank(Py, entries[i].text)) ==> ExtractWithTranscriptApi(lib, videoId, lang).None?
    ensures var entries := LibraryLookup(lib, videoId, lang).entries;
      (exists i :: 0 <= i < |entries| && !IsBlank(Py, entries[i].text)) && EntrySegments(KeptEntries(entries)).Some? ==>
        ExtractWithTranscriptApi(lib, videoId, lang).Some?
  {
    var entries := LibraryLookup(lib, videoId, lang).entries;
    var kept := KeptEntries(entries);
    KeptEntriesNonBlank(entries);
    if EntrySegments(kept).Some? {
      var segments := EntrySegments(kept).value;
      EntrySegmentsTexts(kept);
      forall i | 0 <= i < |segments| ensures SegmentTexts(segments)[i] != [] {
        TrimShape(Py, kept[i].text);
      }
      JoinEmptyIff(" ", SegmentTexts(segments));
    }
  }

  // ----- strategy 2: the timedtext endpoint -----

  const TimedTextBase: string := "https://www.youtube.com/api/timedtext"

  /** The five timedtext URLs, in the order they are tried. */
  function DirectCandidates(videoId: string, lang: string): seq<string>
  {
    [ TimedTextBase + "?lang=" + lang + "&v=" + videoId,
      TimedTextBase + "?v=" + videoId,
      TimedTextBase + "?tlang=" + lang + "&v=" + videoId,
      TimedTextBase + "?v=" + videoId + "&fmt=json3",
      TimedTextBase + "?v=" + videoId + "&fmt=srv3" ]
  }

  /** A `<text>` element: `float()` of its `start` and `dur` (a missing attribute reads 0; None when `float()` raises) and its text. */
  datatype TimedTextElem = TimedTextElem(start: Option<real>, duration: Option<real>, text: string)

  /** The concatenation `full_transcript` over the first `n` elements: each decoded text followed by one space. */
  function TimedTextFull(elems: seq<TimedTextElem>, n: nat): string
    requires n <= |elems|
  {
    if n == 0 then []
    else TimedTextFull(elems, n - 1) + DecodeEntities(elems[n - 1].text) + " "
  }

  /** The segment of one element; None when a `float()` conversion raises. */
  function ElemSegment(e: TimedTextElem): Option<Segment>
  {
    if e.start.None? || e.duration.None? then None
    else Some(Segment(e.start.value, e.duration.value, Trim(Py, DecodeEntities(e.text))))
  }

  /** The segments of the first `n` elements, one per element; None once a conversion has raised. */
  function TimedTextSegments(elems: seq<TimedTextElem>, n: nat): Option<seq<Segment>>
    requires n <= |elems|
  {
    if n == 0 then Some([])
    else
      match TimedTextSegments(elems, n - 1)
      case None => None
      case Some(init) =>
        if ElemSegment(elems[n - 1]).None? then None else Some(init + [ElemSegment(elems[n - 1]).value])
  }

  /** The loop over `<text>` elements of one parsed candidate. */
  method CollectTimedText(elems: seq<TimedTextElem>) returns (segments: Option<seq<Segment>>, full: string)
    ensures segments == TimedTextSegments(elems, |elems|)
    ensures segments.Some? ==> full == TimedTextFull(elems, |elems|)
  {
    var acc: seq<Segment> := [];
    full := "";
    var i := 0;
    while i < |elems|
      invariant 0 <= i <= |elems|
      invariant TimedTextSegments(elems, i) == Some(acc)
      invariant full == TimedTextFull(elems, i)
    {
      var seg := ElemSegment(elems[i]);
      if seg.None? {
        TimedTextSegmentsNoneExtends(elems, i + 1, |elems|);
        return None, full;
      }
      acc := acc + [seg.value];
      full := full + DecodeEntities(elems[i].text) + " ";
      i := i + 1;
    }
    segments := Some(acc);
  }

  /** Once a conversion has raised, every longer prefix fails too. */
  lemma {:induction false} TimedTextSegmentsNoneExtends(elems: seq<TimedTextElem>, i: nat, n: nat)
    requires i <= n <= |elems|
    requires TimedTextSegments(elems, i) == None
    ensures TimedTextSegments(elems, n) == None
    decreases n
  {
    if i < n {
      TimedTextSegmentsNoneExtends(elems, i, n - 1);
    }
  }

  /** The joined text is blank exactly when every decoded element text is. */
  lemma {:induction false} TimedTextFullBlank(elems: seq<TimedTextElem>, n: nat)
    requires n <= |elems|
    ensures IsBlank(Py, TimedTextFull(elems, n)) <==> forall i :: 0 <= i < n ==> IsBlank(Py, DecodeEntities(elems[i].text))
  {
    if n > 0 {
      var last := DecodeEntities(elems[n - 1].text);
      TimedTextFullBlank(elems, n - 1);
      BlankAppend(Py, TimedTextFull(elems, n - 1) + last, " ");
      BlankAppend(Py, TimedTextFull(elems, n - 1), last);
      assert IsSpace(Py, " "[0]);
    }
  }

  /** Converted segments hold one entry per element: that element's segment. */
  lemma {:induction false} TimedTextSegmentsShape(elems: seq<TimedTextElem>, n: nat)
    requires n <= |elems|
    requires TimedTextSegments(elems, n).Some?
    ensures |TimedTextSegments(elems, n).value| == n
    ensures forall i :: 0 <= i < n ==> ElemSegment(elems[i]) == Some(TimedTextSegments(elems, n).value[i])
  {
    if n > 0 {
      TimedTextSegmentsShape(elems, n - 1);
      var segs := TimedTextSegments(elems, n - 1).value;
      var all := TimedTextSegments(elems, n).value;
      assert all == segs + [ElemSegment(elems[n - 1]).value];
      forall i | 0 <= i < n ensures ElemSegment(elems[i]) == Some(all[i]) {
        if i < n - 1 {
          assert all[i] == segs[i];
        }
      }
    }
  }

  /** How one candidate URL turns out. */
  datatype CandidateOutcome = Skipped | Aborted | Accepted(result: TranscriptResult)

  /**
   * One candidate: skipped unless it answers 200 with a non-blank body that
   * parses and whose joined text is non-blank; a `float()` failure aborts the
   * whole strategy.
   */
  function DirectCandidate(env: Env, videoId: string, lang: string, url: string): CandidateOutcome
  {
    var r := Request(env.net, url, 3, 0);
    if !Truthy(r) || r.value.status != 200 || IsBytesBlank(r.value.text) then Skipped
    else
      match env.parseTimedText(r.value.text)
      case None => Skipped
      case Some(elems) =>
        match TimedTextSegments(elems, |elems|)
        case None => Aborted
        case Some(segments) =>
          var full := TimedTextFull(elems, |elems|);
          if IsBlank(Py, full) then Skipped
          else Accepted(Found(videoId, Some(lang), Trim(Py, full), segments, |Words(Py, full)|, DirectApi, Some(url), None))
  }

  /** The first index from `i` on where `flags` holds, or `|flags|`. */
  function FirstSet(flags: seq<bool>, i: nat): (k: nat)
    requires i <= |flags|
    ensures i <= k <= |flags|
    ensures forall j :: i <= j < k ==> !flags[j]
    ensures k < |flags| ==> flags[k]
    decreases |flags| - i
  {
    if i == |flags| || flags[i] then i else FirstSet(flags, i + 1)
  }

  /** Which candidates are not skipped. */
  function DirectFlags(env: Env, videoId: string, lang: string, urls: seq<string>): (f: seq<bool>)
    ensures |f| == |urls|
  {
    seq(|urls|, j requires 0 <= j < |urls| => !DirectCandidate(env, videoId, lang, urls[j]).Skipped?)
  }

  /** The index of the first candidate that is not skipped, or `|urls|`. */
  function DirectStop(env: Env, videoId: string, lang: string, urls: seq<string>): nat
  {
    FirstSet(DirectFlags(env, videoId, lang, urls), 0)
  }

  /** `_extract_with_direct_api` */
  function DirectApiResult(env: Env, videoId: string, lang: string): Option<TranscriptResult>
  {
    var urls := DirectCandidates(videoId, lang);
    var k := DirectStop(env, videoId, lang, urls);
    if k == |urls| then None
    else
      match DirectCandidate(env, videoId, lang, urls[k])
      case Accepted(res) => Some(res)
      case _ => None
  }

  /** The candidates the direct strategy fetched: up to and including the one it stopped at. */
  function DirectTried(env: Env, videoId: string, lang: string): seq<string>
  {
    var urls := DirectCandidates(videoId, lang);
    var k := DirectStop(env, videoId, lang, urls);
    if k == |urls| then urls else urls[..k + 1]
  }

  /**
   * The direct strategy returns the first candidate, in order, that is not
   * skipped; its transcript is that candidate's stripped joined text, which
   * is non-blank, with the decoded text of every element as a segment.
   */
  lemma DirectApiShape(env: Env, videoId: string, lang: string)
    requires DirectApiResult(env, videoId, lang).Some?
    ensures var urls := DirectCandidates(videoId, lang);
      var r := DirectApiResult(env, videoId, lang).value;
      exists k :: 0 <= k < |urls| && r.usedUrl == Some(urls[k])
        && (forall j :: 0 <= j < k ==> DirectCandidate(env, videoId, lang, urls[j]).Skipped?)
        && DirectCandidate(env, videoId, lang, urls[k]) == Accepted(r)
    ensures var r := DirectApiResult(env, videoId, lang).value;
      r.success && r.via == Some(DirectApi) && r.language == Some(lang) && r.transcript != []
  {
    var urls := DirectCandidates(videoId, lang);
    var flags := DirectFlags(env, videoId, lang, urls);
    var k := DirectStop(env, videoId, lang, urls);
    var r := DirectApiResult(env, videoId, lang).value;
    assert DirectCandidate(env, videoId, lang, urls[k]) == Accepted(r);
    DirectCandidateAccepted(env, videoId, lang, urls[k]);
    forall j | 0 <= j < k ensures DirectCandidate(env, videoId, lang, urls[j]).Skipped? {
      assert !flags[j];
    }
  }

  /** An accepted candidate is a success of the direct strategy in the requested language, with text. */
  lemma DirectCandidateAccepted(env: Env, videoId: string, lang: string, url: string)
    requires DirectCandidate(env, videoId, lang, url).Accepted?
    ensures var r := DirectCandidate(env, videoId, lang, url).result;
      r.success && r.via == Some(DirectApi) && r.language == Some(lang) && r.usedUrl == Some(url) && r.transcript != []
  {
    var elems := env.parseTimedText(Request(env.net, url, 3, 0).value.text).value;
    TrimShape(Py, TimedTextFull(elems, |elems|));
  }

  /** A parsed 200 response whose elements all decode to blank text is skipped. */
  lemma DirectCandidateBlankSkipped(env: Env, videoId: string, lang: string, url: string, elems: seq<TimedTextElem>)
    requires var r := Request(env.net, url, 3, 0); r.Some? && r.value.status == 200 && env.parseTimedText(r.value.text) == Some(elems)
    requires TimedTextSegments(elems, |elems|).Some?
    requires forall i :: 0 <= i < |elems| ==> IsBlank(Py, DecodeEntities(elems[i].text))
    ensures DirectCandidate(env, videoId, lang, url).Skipped?
  {
    TimedTextFullBlank(elems, |elems|);
  }

  // ----- strategy 3: scraping the watch page -----

  function WatchUrl(videoId: string): string
  {
    "https://www.youtube.com/watch?v=" + videoId
  }

  /** `_extract_with_web_scraping`: any text runs of the transcript renderer, joined by spaces, even none. */
  function WebScrapingResult(env: Env, videoId: string): Option<TranscriptResult>
  {
    var r := Request(env.net, WatchUrl(videoId), 3, 0);
    if Truthy(r) && r.value.status == 200 then
      match env.transcriptRuns(r.value.text)
      case Some(texts) =>
        var full := Join(" ", texts);
        Some(Found(videoId, None, full, [], |Words(Py, full)|, WebScraping, None, None))
      case None => None
    else None
  }

  // ----- strategy 4: yt_dlp -----

  /** `extract_info`: raised, returned None, or a dict with its two caption maps (`or {}` applied). */
  datatype InfoResult = InfoRaised | InfoNone | InfoDict(subtitles: CaptionMap, automaticCaptions: CaptionMap)

  datatype YtDlp = YtDlpMissing | YtDlpInstalled(extractInfo: string -> InfoResult)

  /** What Python says when `.get` is called on None. */
  const NoneGetError: string := "'NoneType' object has no attribute 'get'"

  /** The transcript one caption format yields, or "" when it is skipped or yields nothing. */
  function CaptionTranscript(env: Env, fmt: SubtitleFormat): string
  {
    if fmt.url.None? || fmt.url.value == [] then ""
    else
      match env.net(fmt.url.value, 0)
      case Reply(status, _, body) =>
        if status != 200 || IsBytesBlank(body) then ""
        else Trim(Py, Join(" ", KeptLines(Lines(NormaliseByFormat(Lower(fmt.ext), body, env.parseXml)))))
      case _ => ""
  }

  /** Which formats yield a non-empty transcript. */
  function CaptionFlags(env: Env, sources: seq<SubtitleFormat>): (f: seq<bool>)
    ensures |f| == |sources|
  {
    seq(|sources|, j requires 0 <= j < |sources| => CaptionTranscript(env, sources[j]) != [])
  }

  /** The body of the format loop: fetch one caption file and reduce it to text. */
  method FetchCaption(env: Env, fmt: SubtitleFormat) returns (full: string)
    ensures full == CaptionTranscript(env, fmt)
  {
    var ext := Lower(fmt.ext);
    if fmt.url.None? || fmt.url.value == [] {
      return "";
    }
    match env.net(fmt.url.value, 0) {
      case Reply(status, _, body) =>
        if status != 200 || IsBytesBlank(body) {
          return "";
        }
        var text := NormaliseByFormat(ext, body, env.parseXml);
        var lines := FilterCaptionLines(text);
        full := Trim(Py, Join(" ", lines));
      case TimedOut =>
        full := "";
      case Failed =>
        full := "";
    }
  }

  /** `_extract_with_yt_dlp` */
  function YtDlpResult(env: Env, videoId: string, lang: string): StrategyOutcome
  {
    match env.ytDlp
    case YtDlpMissing => Produced(None)
    case YtDlpInstalled(extract) =>
      match extract(WatchUrl(videoId))
      case InfoRaised => Produced(None)
      case InfoNone => Raised(NoneGetError)
      case InfoDict(subs, auto) =>
        var choice := ChooseCaptions(subs, auto, lang);
        var k := FirstSet(CaptionFlags(env, choice.sources), 0);
        if k == |choice.sources| then Produced(None)
        else
          var full := CaptionTranscript(env, choice.sources[k]);
          Produced(Some(Found(videoId, Some(choice.language), full, [], |Words(Py, full)|, YtDlpStrategy, None, Some(Lower(choice.sources[k].ext)))))
  }

  /** The loop over the chosen caption formats. */
  method ExtractWithYtDlp(env: Env, videoId: string, lang: string) returns (o: StrategyOutcome)
    ensures o == YtDlpResult(env, videoId, lang)
  {
    if env.ytDlp.YtDlpMissing? {
      return Produced(None);
    }
    var info := env.ytDlp.extractInfo(WatchUrl(videoId));
    if info.InfoRaised? {
      return Produced(None);
    }
    if info.InfoNone? {
      return Raised(NoneGetError);
    }
    var choice := ChooseCaptions(info.subtitles, info.automaticCaptions, lang);
    var sources := choice.sources;
    if sources == [] {
      return Produced(None);
    }
    var flags := CaptionFlags(env, sources);
    var i := 0;
    while i < |sources|
      invariant 0 <= i <= |sources|
      invariant FirstSet(flags, 0) == FirstSet(flags, i)
    {
      var full := FetchCaption(env, sources[i]);
      if full != [] {
        assert flags[i];
        return Produced(Some(Found(videoId, Some(choice.language), full, [], |Words(Py, full)|, YtDlpStrategy, None, Some(Lower(sources[i].ext)))));
      }
      i := i + 1;
    }
    return Produced(None);
  }

  /** The chosen sources really are the captions listed for the chosen language. */
  lemma ChosenSourcesListed(subs: CaptionMap, auto: CaptionMap, lang: string)
    ensures var c := ChooseCaptions(subs, auto, lang);
      c.sources != [] ==> Lookup(subs, c.language) == Some(c.sources) || Lookup(auto, c.language) == Some(c.sources)
  {
  }

  /**
   * A caption file that yields text yields the kept caption lines joined by
   * spaces and stripped: every line that survives passes the filter.
   */
  lemma CaptionTranscriptKept(env: Env, fmt: SubtitleFormat)
    requires CaptionTranscript(env, fmt) != []
    ensures !IsSpace(Py, CaptionTranscript(env, fmt)[0])
    ensures exists kept ::
      && (forall i :: 0 <= i < |kept| ==> KeepCaptionLine(kept[i]))
      && CaptionTranscript(env, fmt) == Trim(Py, Join(" ", kept))
  {
    var body := env.net(fmt.url.value, 0).text;
    var lines := Lines(NormaliseByFormat(Lower(fmt.ext), body, env.parseXml));
    var kept := KeptLines(lines);
    KeptLinesPass(lines);
    TrimShape(Py, Join(" ", kept));
    assert CaptionTranscript(env, fmt) == Trim(Py, Join(" ", kept));
  }

  /**
   * A yt_dlp transcript comes from the first chosen format that yields text,
   * and every earlier format yields nothing.
   */
  lemma YtDlpTranscriptShape(env: Env, videoId: string, lang: string)
    requires YtDlpResult(env, videoId, lang).Produced? && YtDlpResult(env, videoId, lang).result.Some?
    ensures env.ytDlp.YtDlpInstalled? && env.ytDlp.extractInfo(WatchUrl(videoId)).InfoDict?
    ensures var r := YtDlpResult(env, videoId, lang).result.value;
      var info := env.ytDlp.extractInfo(WatchUrl(videoId));
      var c := ChooseCaptions(info.subtitles, info.automaticCaptions, lang);
      && r.success && r.via == Some(YtDlpStrategy) && r.language == Some(c.language)
      && exists k ::
           && 0 <= k < |c.sources| && r.ytDlpFormat == Some(Lower(c.sources[k].ext))
           && (forall j :: 0 <= j < k ==> CaptionTranscript(env, c.sources[j]) == [])
           && r.transcript == CaptionTranscript(env, c.sources[k]) != []
  {
    var info := env.ytDlp.extractInfo(WatchUrl(videoId));
    var c := ChooseCaptions(info.subtitles, info.automaticCaptions, lang);
    var flags := CaptionFlags(env, c.sources);
    var k := FirstSet(flags, 0);
    forall j | 0 <= j < k ensures CaptionTranscript(env, c.sources[j]) == [] {
      assert !flags[j];
    }
  }

  // ---------------------------------------------------------------------
  // The outside world the service talks to.
  // ---------------------------------------------------------------------

  /** The oEmbed JSON fields the service reads; None where a key is absent. */
  datatype OEmbed = OEmbed(title: Option<string>, authorName: Option<string>, duration: Option<int>,
                           thumbnailUrl: Option<string>, providerName: Option<string>)

  /**
   * The oracles: the network, the transcript library, yt_dlp, and the
   * parsers and page-scraping regular expressions the service hands text to.
   */
  datatype Env = Env(
    net: Network,
    library: TranscriptLibrary,
    /** `ET.fromstring` then `findall('.//text')`; None on a parse error. */
    parseTimedText: string -> Option<seq<TimedTextElem>>,
    /** The text runs inside the transcript renderer; None when the renderer pattern does not match. */
    transcriptRuns: string -> Option<seq<string>>,
    ytDlp: YtDlp,
    /** The texts of every element of a caption XML document; None when it does not parse. */
    parseXml: string -> Option<seq<string>>,
    /** `response.json()` of the oEmbed answer; None when it raises. */
    oembed: string -> Option<OEmbed>,
    /** (code, name) pairs in the caption track list; None when the captions pattern does not match. */
    captionTracks: string -> Option<seq<(string, string)>>,
    /** (time, title) pairs found by the chapter pattern. */
    chapters: string -> seq<(string, string)>)

  // ---------------------------------------------------------------------
  // The fallback chain (`extract_transcript`).
  // ---------------------------------------------------------------------

  const NoTranscriptError: string := "Could not extract transcript from this video"

  predicate Wins(o: StrategyOutcome)
  {
    o.Produced? && o.result.Some?
  }

  function Entry(s: Strategy, o: StrategyOutcome): FallbackEntry
  {
    match o
    case Produced(r) => Tried(s, r.Some?)
    case Raised(e) => Errored(s, e)
  }

  /** The audit list for the strategies invoked, in order. */
  function Audit(outcomes: seq<StrategyOutcome>): seq<FallbackEntry>
    requires |outcomes| <= 4
  {
    seq(|outcomes|, i requires 0 <= i < |outcomes| => Entry(StrategyOrder[i], outcomes[i]))
  }

  /** The first winning strategy from `i` on, or `|outcomes|`. */
  function FirstWin(outcomes: seq<StrategyOutcome>, i: nat): (k: nat)
    requires i <= |outcomes|
    ensures i <= k <= |outcomes|
    ensures forall j :: i <= j < k ==> !Wins(outcomes[j])
    ensures k < |outcomes| ==> Wins(outcomes[k])
    decreases |outcomes| - i
  {
    if i == |outcomes| then i
    else if Wins(outcomes[i]) then i
    else FirstWin(outcomes, i + 1)
  }

  /** The dict returned when all four strategies miss. */
  function NoTranscript(videoId: string, fallbacks: seq<FallbackEntry>): TranscriptResult
  {
    TranscriptResult(false, videoId, None, "", [], 0, None, None, None, Some(NoTranscriptError), fallbacks)
  }

  /** The chain over what the four strategies would return, in order. */
  function Chain(videoId: string, outcomes: seq<StrategyOutcome>): TranscriptResult
    requires |outcomes| == 4
  {
    var k := FirstWin(outcomes, 0);
    if k < 4 then outcomes[k].result.value.(fallbacks := Audit(outcomes[..k + 1]))
    else NoTranscript(videoId, Audit(outcomes))
  }

  /** What each strategy returns for this video; only yt_dlp lets an exception escape. */
  function StrategyOutcomes(env: Env, videoId: string, lang: string): (o: seq<StrategyOutcome>)
    ensures |o| == 4
  {
    [ Produced(ExtractWithTranscriptApi(env.library, videoId, lang)),
      Produced(DirectApiResult(env, videoId, lang)),
      Produced(WebScrapingResult(env, videoId)),
      YtDlpResult(env, videoId, lang) ]
  }

  /** `extract_transcript` */
  function ExtractTranscriptResult(env: Env, videoId: string, lang: string): TranscriptResult
  {
    Chain(videoId, StrategyOutcomes(env, videoId, lang))
  }

  /**
   * Every invoked strategy leaves exactly one audit entry, in invocation
   * order; the strategies invoked are those up to the first winner, and the
   * ones after it never appear.
   */
  lemma ChainAudit(videoId: string, outcomes: seq<StrategyOutcome>)
    requires |outcomes| == 4
    ensures var r := Chain(videoId, outcomes);
      && |r.fallbacks| == (if FirstWin(outcomes, 0) < 4 then FirstWin(outcomes, 0) + 1 else 4)
      && (forall i :: 0 <= i < |r.fallbacks| ==> r.fallbacks[i].via == StrategyOrder[i] && r.fallbacks[i] == Entry(StrategyOrder[i], outcomes[i]))
      && (forall i :: 0 <= i < |r.fallbacks| - 1 ==> !Wins(outcomes[i]))
  {
  }

  /** The first winning strategy's result is returned, with the audit list attached. */
  lemma ChainWinner(videoId: string, outcomes: seq<StrategyOutcome>, k: nat)
    requires |outcomes| == 4 && k < 4
    requires Wins(outcomes[k]) && forall j :: 0 <= j < k ==> !Wins(outcomes[j])
    ensures Chain(videoId, outcomes) == outcomes[k].result.value.(fallbacks := Audit(outcomes[..k + 1]))
    ensures Chain(videoId, outcomes).fallbacks[k] == Tried(StrategyOrder[k], true)
  {
  }

  /** After four misses: no success, empty transcript and segments, the fixed error, four entries. */
  lemma ChainFailure(videoId: string, outcomes: seq<StrategyOutcome>)
    requires |outcomes| == 4 && forall i :: 0 <= i < 4 ==> !Wins(outcomes[i])
    ensures Chain(videoId, outcomes) == NoTranscript(videoId, Audit(outcomes))
    ensures var r := Chain(videoId, outcomes);
      && !r.success && r.transcript == [] && r.segments == [] && r.videoId == videoId
      && r.error == Some(NoTranscriptError) && |r.fallbacks| == 4
      && forall i :: 0 <= i < 4 ==> r.fallbacks[i] != Tried(StrategyOrder[i], true)
  {
  }

  /** Whatever a strategy returns reports success and names itself. */
  lemma StrategiesSucceed(env: Env, videoId: string, lang: string)
    ensures forall i :: 0 <= i < 4 && Wins(StrategyOutcomes(env, videoId, lang)[i]) ==>
      var r := StrategyOutcomes(env, videoId, lang)[i].result.value;
      r.success && r.via == Some(StrategyOrder[i]) && r.videoId == videoId && r.error == None
  {
    LibrarySucceeds(env.library, videoId, lang);
    DirectSucceeds(env, videoId, lang);
    ScrapingSucceeds(env, videoId);
    YtDlpSucceeds(env, videoId, lang);
  }

  /** A result reports success, names its strategy and its video, and carries no error. */
  predicate SucceedsAs(r: TranscriptResult, s: Strategy, videoId: string)
  {
    r.success && r.via == Some(s) && r.videoId == videoId && r.error == None
  }

  lemma LibrarySucceeds(lib: TranscriptLibrary, videoId: string, lang: string)
    ensures ExtractWithTranscriptApi(lib, videoId, lang).Some? ==> SucceedsAs(ExtractWithTranscriptApi(lib, videoId, lang).value, TranscriptApi, videoId)
  {
  }

  lemma DirectSucceeds(env: Env, videoId: string, lang: string)
    ensures DirectApiResult(env, videoId, lang).Some? ==> SucceedsAs(DirectApiResult(env, videoId, lang).value, DirectApi, videoId)
  {
  }

  lemma ScrapingSucceeds(env: Env, videoId: string)
    ensures WebScrapingResult(env, videoId).Some? ==> SucceedsAs(WebScrapingResult(env, videoId).value, WebScraping, videoId)
  {
  }

  lemma YtDlpSucceeds(env: Env, videoId: string, lang: string)
    ensures YtDlpResult(env, videoId, lang).Produced? && YtDlpResult(env, videoId, lang).result.Some? ==>
      SucceedsAs(YtDlpResult(env, videoId, lang).result.value, YtDlpStrategy, videoId)
  {
  }

  /** The chain succeeds exactly when some strategy wins, and it always reports the video it was asked about. */
  lemma ExtractTranscriptSuccess(env: Env, videoId: string, lang: string)
    ensures ExtractTranscriptResult(env, videoId, lang).success <==> exists i :: 0 <= i < 4 && Wins(StrategyOutcomes(env, videoId, lang)[i])
    ensures ExtractTranscriptResult(env, videoId, lang).videoId == videoId
  {
    var o := StrategyOutcomes(env, videoId, lang);
    StrategiesSucceed(env, videoId, lang);
    var k := FirstWin(o, 0);
    if k == 4 {
      ChainFailure(videoId, o);
    }
  }

  /**
   * The scraper wins with an empty transcript when the renderer is on the
   * page but holds no text runs, provided the first two strategies miss.
   */
  lemma ScrapedEmptyTranscriptWins(env: Env, videoId: string, lang: string)
    requires ExtractWithTranscriptApi(env.library, videoId, lang).None?
    requires DirectApiResult(env, videoId, lang).None?
    requires var r := Request(env.net, WatchUrl(videoId), 3, 0); r.Some? && r.value.status == 200 && env.transcriptRuns(r.value.text) == Some([])
    ensures var r := ExtractTranscriptResult(env, videoId, lang);
      r.success && r.transcript == [] && r.via == Some(WebScraping) && |r.fallbacks| == 3
  {
    var o := StrategyOutcomes(env, videoId, lang);
    ChainWinner(videoId, o, 2);
  }

  // ---------------------------------------------------------------------
  // Metadata, languages and chapters.
  // ---------------------------------------------------------------------

  /** The metadata dict: the oEmbed fields with their defaults, or the fallback. */
  datatype Metadata =
    | FullMetadata(title: string, author: string, duration: int, thumbnailUrl: string, provider: string, videoId: string)
    | FallbackMetadata(videoId: string, title: string)

  function OEmbedUrl(videoId: string): string
  {
    "https://www.youtube.com/oembed?url=https://www.youtube.com/watch?v=" + videoId + "&format=json"
  }

  /** `get_video_metadata` */
  function MetadataOf(env: Env, videoId: string): Metadata
  {
    var r := Request(env.net, OEmbedUrl(videoId), 3, 0);
    var fallback := FallbackMetadata(videoId, "YouTube Video " + videoId);
    if Truthy(r) && r.value.status == 200 then
      match env.oembed(r.value.text)
      case Some(o) =>
        FullMetadata(o.title.GetOr(""), o.authorName.GetOr(""), o.duration.GetOr(0),
                     o.thumbnailUrl.GetOr(""), o.providerName.GetOr("YouTube"), videoId)
      case None => fallback
    else fallback
  }

  /** Metadata is always about the video asked for; without a readable 200 answer it is the titled fallback. */
  lemma MetadataFallback(env: Env, videoId: string)
    ensures MetadataOf(env, videoId).videoId == videoId
    ensures var r := Request(env.net, OEmbedUrl(videoId), 3, 0);
      MetadataOf(env, videoId).FallbackMetadata? <==> !(r.Some? && r.value.status == 200 && env.oembed(r.value.text).Some?)
    ensures MetadataOf(env, videoId).FallbackMetadata? ==> MetadataOf(env, videoId).title == "YouTube Video " + videoId
  {
  }

  datatype TranscriptLanguage = TranscriptLanguage(code: string, name: string, autoGenerated: bool)

  const DefaultLanguages: seq<TranscriptLanguage> := [TranscriptLanguage("en", "English", true)]

  /** `get_available_transcripts` */
  function LanguagesOf(env: Env, videoId: string): seq<TranscriptLanguage>
  {
    var r := Request(env.net, WatchUrl(videoId), 3, 0);
    if Truthy(r) && r.value.status == 200 then
      match env.captionTracks(r.value.text)
      case Some(pairs) =>
        seq(|pairs|, i requires 0 <= i < |pairs| =>
          TranscriptLanguage(pairs[i].0, pairs[i].1, Contains(Lower(pairs[i].1), "auto-generated")))
      case None => DefaultLanguages
    else DefaultLanguages
  }

  /**
   * Without a caption track list the answer is one English auto-generated
   * entry; with one, each listed (code, name) pair in order, flagged
   * auto-generated exactly when its name contains that word.
   */
  lemma LanguagesShape(env: Env, videoId: string)
    ensures var r := Request(env.net, WatchUrl(videoId), 3, 0);
      !(r.Some? && r.value.status == 200 && env.captionTracks(r.value.text).Some?) ==> LanguagesOf(env, videoId) == DefaultLanguages
    ensures var r := Request(env.net, WatchUrl(videoId), 3, 0);
      r.Some? && r.value.status == 200 && env.captionTracks(r.value.text).Some? ==>
        var pairs := env.captionTracks(r.value.text).value;
        |LanguagesOf(env, videoId)| == |pairs|
        && forall i :: 0 <= i < |pairs| ==>
             && LanguagesOf(env, videoId)[i].code == pairs[i].0
             && LanguagesOf(env, videoId)[i].name == pairs[i].1
             && (LanguagesOf(env, videoId)[i].autoGenerated <==> Contains(Lower(pairs[i].1), "auto-generated"))
  {
  }

  /** A caption block with no language in it gives an empty list, not the English default. */
  lemma LanguagesCanBeEmpty(env: Env, videoId: string)
    requires var r := Request(env.net, WatchUrl(videoId), 3, 0); r.Some? && r.value.status == 200 && env.captionTracks(r.value.text) == Some([])
    ensures LanguagesOf(env, videoId) == []
  {
  }

  datatype Chapter = Chapter(timestamp: string, title: string)

  /** `get_video_chapters` */
  function ChaptersOf(env: Env, videoId: string): seq<Chapter>
  {
    var r := Request(env.net, WatchUrl(videoId), 3, 0);
    if Truthy(r) && r.value.status == 200 then
      var found := env.chapters(r.value.text);
      seq(|found|, i requires 0 <= i < |found| => Chapter(found[i].0, found[i].1))
    else []
  }

  // ---------------------------------------------------------------------
  // Everything at once (`extract_complete_video_data`).
  // ---------------------------------------------------------------------

  const InvalidUrlError: string := "Invalid YouTube URL"

  datatype VideoData =
    | InvalidUrl(error: string, url: string)
    | VideoData(success: bool, videoId: string, url: string, metadata: Metadata, transcript: TranscriptResult,
                availableLanguages: seq<TranscriptLanguage>, chapters: seq<Chapter>, serverDebug: Option<ResponseInfo>)

  /** The snapshot after recording every truthy response among `urls`, fetched in order. */
  function RecordedAll(prev: Option<ResponseInfo>, net: Network, urls: seq<string>): Option<ResponseInfo>
  {
    if urls == [] then prev
    else
      var last := urls[|urls| - 1];
      Recorded(RecordedAll(prev, net, urls[..|urls| - 1]), last, Request(net, last, 3, 0))
  }

  /** The URLs whose responses strategy `i` records, in fetch order. */
  function StrategyFetches(env: Env, videoId: string, lang: string, i: nat): seq<string>
  {
    if i == 1 then DirectTried(env, videoId, lang)
    else if i == 2 then [WatchUrl(videoId)]
    else []
  }

  /** The URLs the first `i` strategies record, in fetch order. */
  function FetchesUpTo(env: Env, videoId: string, lang: string, i: nat): seq<string>
  {
    if i == 0 then [] else FetchesUpTo(env, videoId, lang, i - 1) + StrategyFetches(env, videoId, lang, i - 1)
  }

  /** The URLs whose responses `extract_transcript` records: those of every strategy it invokes. */
  function TranscriptFetches(env: Env, videoId: string, lang: string): seq<string>
  {
    var n := |ExtractTranscriptResult(env, videoId, lang).fallbacks|;
    FetchesUpTo(env, videoId, lang, n)
  }

  /** The URLs `extract_complete_video_data` fetches through `_make_request`, in order. */
  function CompleteFetches(env: Env, videoId: string, lang: string): seq<string>
  {
    [OEmbedUrl(videoId), WatchUrl(videoId)] + TranscriptFetches(env, videoId, lang) + [WatchUrl(videoId)]
  }

  /** `extract_complete_video_data`, given the snapshot held before the call. */
  function CompleteVideoData(env: Env, url: string, lang: string, prev: Option<ResponseInfo>): VideoData
  {
    match ExtractVideoId(Py, url)
    case None => InvalidUrl(InvalidUrlError, url)
    case Some(id) =>
      var t := ExtractTranscriptResult(env, id, lang);
      VideoData(t.success, id, url, MetadataOf(env, id), t, LanguagesOf(env, id), ChaptersOf(env, id),
                RecordedAll(prev, env.net, CompleteFetches(env, id, lang)))
  }

  /** The snapshot after a batch of fetches ends in the last truthy response, if any. */
  lemma {:induction false} RecordedAllLast(prev: Option<ResponseInfo>, net: Network, urls: seq<string>)
    ensures RecordedAll(prev, net, urls) == prev
         || exists i :: 0 <= i < |urls| && Truthy(Request(net, urls[i], 3, 0)) && RecordedAll(prev, net, urls) == Some(InfoOf(urls[i], Request(net, urls[i], 3, 0).value))
  {
    if urls != [] {
      var init := urls[..|urls| - 1];
      RecordedAllLast(prev, net, init);
      if RecordedAll(prev, net, init) != prev && !Truthy(Request(net, urls[|urls| - 1], 3, 0)) {
        var i :| 0 <= i < |init| && Truthy(Request(net, init[i], 3, 0)) && RecordedAll(prev, net, init) == Some(InfoOf(init[i], Request(net, init[i], 3, 0).value));
        assert init[i] == urls[i];
      }
    }
  }

  /**
   * An unparseable URL is refused before anything is fetched; otherwise
   * `success` is the transcript's own, and a truthy watch page, fetched last
   * for the chapters, is what `server_debug` shows.
   */
  lemma CompleteVideoDataShape(env: Env, url: string, lang: string, prev: Option<ResponseInfo>)
    ensures ExtractVideoId(Py, url).None? ==> CompleteVideoData(env, url, lang, prev) == InvalidUrl(InvalidUrlError, url)
    ensures ExtractVideoId(Py, url).Some? ==>
      var v := CompleteVideoData(env, url, lang, prev);
      var id := ExtractVideoId(Py, url).value;
      && v.VideoData? && v.videoId == id && v.success == v.transcript.success
      && v.transcript.videoId == id && v.metadata.videoId == id
      && (Truthy(Request(env.net, WatchUrl(id), 3, 0)) ==> v.serverDebug == Some(InfoOf(WatchUrl(id), Request(env.net, WatchUrl(id), 3, 0).value)))
  {
    if ExtractVideoId(Py, url).Some? {
      var id := ExtractVideoId(Py, url).value;
      ExtractTranscriptSuccess(env, id, lang);
      MetadataFallback(env, id);
      RecordedAllAppend(prev, env.net, [OEmbedUrl(id), WatchUrl(id)] + TranscriptFetches(env, id, lang), WatchUrl(id));
    }
  }

  /** After `i` strategies have run and missed, the audit so far lists exactly them. */
  predicate ChainPrefix(outcomes: seq<StrategyOutcome>, i: nat, fallbacks: seq<FallbackEntry>)
    requires |outcomes| == 4 && i <= 4
  {
    fallbacks == Audit(outcomes[..i]) && forall j :: 0 <= j < i ==> !Wins(outcomes[j])
  }

  /** One more strategy run: the audit grows by its entry, and a win ends the chain with that audit. */
  lemma ChainStep(videoId: string, outcomes: seq<StrategyOutcome>, i: nat, fallbacks: seq<FallbackEntry>)
    requires |outcomes| == 4 && i < 4 && ChainPrefix(outcomes, i, fallbacks)
    ensures Wins(outcomes[i]) ==> Chain(videoId, outcomes) == outcomes[i].result.value.(fallbacks := fallbacks + [Entry(StrategyOrder[i], outcomes[i])])
    ensures !Wins(outcomes[i]) ==> ChainPrefix(outcomes, i + 1, fallbacks + [Entry(StrategyOrder[i], outcomes[i])])
  {
    AuditStep(outcomes, i);
    if Wins(outcomes[i]) {
      ChainWinner(videoId, outcomes, i);
    }
  }

  /** Four misses: the chain's answer is the failure dict with the full audit. */
  lemma ChainEnd(videoId: string, outcomes: seq<StrategyOutcome>, fallbacks: seq<FallbackEntry>)
    requires |outcomes| == 4 && ChainPrefix(outcomes, 4, fallbacks)
    ensures Chain(videoId, outcomes) == NoTranscript(videoId, fallbacks)
  {
    assert outcomes[..4] == outcomes;
    ChainFailure(videoId, outcomes);
  }

  lemma AuditStep(outcomes: seq<StrategyOutcome>, i: nat)
    requires i < |outcomes| <= 4
    ensures Audit(outcomes[..i + 1]) == Audit(outcomes[..i]) + [Entry(StrategyOrder[i], outcomes[i])]
  {
  }

  lemma RecordedAllAppend(prev: Option<ResponseInfo>, net: Network, urls: seq<string>, url: string)
    ensures RecordedAll(prev, net, urls + [url]) == Recorded(RecordedAll(prev, net, urls), url, Request(net, url, 3, 0))
  {
    assert (urls + [url])[..|urls|] == urls;
  }

  lemma RecordedAllStep(prev: Option<ResponseInfo>, net: Network, urls: seq<string>, i: nat)
    requires i < |urls|
    ensures RecordedAll(prev, net, urls[..i + 1]) == Recorded(RecordedAll(prev, net, urls[..i]), urls[i], Request(net, urls[i], 3, 0))
  {
    assert urls[..i + 1][..i] == urls[..i];
  }

  /** Recording two batches of fetches is recording their concatenation. */
  lemma {:induction false} RecordedAllConcat(prev: Option<ResponseInfo>, net: Network, a: seq<string>, b: seq<string>)
    ensures RecordedAll(prev, net, a + b) == RecordedAll(RecordedAll(prev, net, a), net, b)
    decreases |b|
  {
    if b == [] {
      assert a + b == a;
    } else {
      var init := b[..|b| - 1];
      assert (a + b)[..|a + b| - 1] == a + init;
      RecordedAllConcat(prev, net, a, init);
    }
  }

  // ---------------------------------------------------------------------
  // The service object: its one piece of state is the debugging snapshot.
  // ---------------------------------------------------------------------

  // ---------------------------------------------------------------------
  // The module-level POST view `extract_transcript`.
  // ---------------------------------------------------------------------

  /** The JSON body the view answers with. */
  datatype TranscriptViewBody =
    | MissingVideoId
    | TranscriptFound(videoId: string, transcript: string, segments: seq<Segment>, language: Option<string>)
    | TranscriptMissing(error: string, videoId: string)

  datatype TranscriptViewResponse = TranscriptViewResponse(status: int, body: TranscriptViewBody)

  /**
   * `extract_transcript(request)`: `videoId` is the request field (None when
   * absent); the service runs its chain with the default language `en`.
   */
  function TranscriptView(env: Env, videoId: Option<string>): TranscriptViewResponse
  {
    if videoId.None? || videoId.value == "" then TranscriptViewResponse(400, MissingVideoId)
    else
      var r := ExtractTranscriptResult(env, videoId.value, "en");
      if r.success then
        TranscriptViewResponse(200, TranscriptFound(videoId.value, r.transcript, r.segments, r.language))
      else
        TranscriptViewResponse(200, TranscriptMissing(r.error.GetOr("Could not extract transcript"), videoId.value))
  }

  /**
   * A missing or empty `videoId` is a 400; otherwise the answer is a 200 that
   * carries the chain's transcript exactly when some strategy found one, and
   * the chain's failure message otherwise.
   */
  lemma TranscriptViewShape(env: Env, videoId: Option<string>)
    ensures var v := TranscriptView(env, videoId);
      (v.status == 400 <==> videoId.None? || videoId.value == "")
      && (v.body.MissingVideoId? <==> v.status == 400)
    ensures videoId.Some? && videoId.value != "" ==>
      var v := TranscriptView(env, videoId);
      var outcomes := StrategyOutcomes(env, videoId.value, "en");
      && (v.body.TranscriptFound? <==> exists i :: 0 <= i < 4 && Wins(outcomes[i]))
      && (v.body.TranscriptMissing? ==> v.body.error == NoTranscriptError && v.body.videoId == videoId.value)
  {
    if videoId.Some? && videoId.value != "" {
      ExtractTranscriptSuccess(env, videoId.value, "en");
      var outcomes := StrategyOutcomes(env, videoId.value, "en");
      if FirstWin(outcomes, 0) == 4 {
        ChainFailure(videoId.value, outcomes);
      }
    }
  }

  class YouTubeTranscriptService {
    var lastResponseInfo: Option<ResponseInfo>

    constructor ()
      ensures lastResponseInfo == None
    {
      lastResponseInfo := None;
    }

    /** `_record_response`: a snapshot of `response`; nothing for None. */
    method RecordResponse(response: Option<Response>, url: string)
      modifies this
      ensures response.None? ==> lastResponseInfo == old(lastResponseInfo)
      ensures response.Some? ==> lastResponseInfo == Some(InfoOf(url, response.value))
    {
      if response.None? {
        return;
      }
      var text := response.value.text;
      var snippet := Snippet(text);
      lastResponseInfo := Some(ResponseInfo(url, response.value.status, response.value.reason, snippet));
    }

    /** `response = self._make_request(url)` followed by `if response: self._record_response(response, url)`. */
    method RequestAndRecord(net: Network, url: string) returns (r: Option<Response>)
      modifies this
      ensures r == Request(net, url, 3, 0)
      ensures lastResponseInfo == Recorded(old(lastResponseInfo), url, r)
    {
      var waits;
      r, waits := MakeRequest(net, url, 3);
      if Truthy(r) {
        RecordResponse(r, url);
      }
    }

    /** `get_video_metadata` */
    method GetVideoMetadata(env: Env, videoId: string) returns (m: Metadata)
      modifies this
      ensures m == MetadataOf(env, videoId)
      ensures lastResponseInfo == RecordedAll(old(lastResponseInfo), env.net, [OEmbedUrl(videoId)])
    {
      var url := OEmbedUrl(videoId);
      var response := RequestAndRecord(env.net, url);
      assert [url][..0] == [];
      m := FallbackMetadata(videoId, "YouTube Video " + videoId);
      if Truthy(response) && response.value.status == 200 {
        var data := env.oembed(response.value.text);
        if data.Some? {
          var o := data.value;
          m := FullMetadata(o.title.GetOr(""), o.authorName.GetOr(""), o.duration.GetOr(0),
                            o.thumbnailUrl.GetOr(""), o.providerName.GetOr("YouTube"), videoId);
        }
      }
    }

    /** `get_available_transcripts` */
    method GetAvailableTranscripts(env: Env, videoId: string) returns (langs: seq<TranscriptLanguage>)
      modifies this
      ensures langs == LanguagesOf(env, videoId)
      ensures lastResponseInfo == Recorded(old(lastResponseInfo), WatchUrl(videoId), Request(env.net, WatchUrl(videoId), 3, 0))
    {
      var response := RequestAndRecord(env.net, WatchUrl(videoId));
      if Truthy(response) && response.value.status == 200 {
        var tracks := env.captionTracks(response.value.text);
        if tracks.Some? {
          var pairs := tracks.value;
          langs := [];
          var i := 0;
          while i < |pairs|
            invariant 0 <= i <= |pairs|
            invariant |langs| == i
            invariant forall j :: 0 <= j < i ==> langs[j] == TranscriptLanguage(pairs[j].0, pairs[j].1, Contains(Lower(pairs[j].1), "auto-generated"))
          {
            langs := langs + [TranscriptLanguage(pairs[i].0, pairs[i].1, Contains(Lower(pairs[i].1), "auto-generated"))];
            i := i + 1;
          }
          return;
        }
      }
      langs := DefaultLanguages;
    }

    /** One timedtext candidate of the direct strategy. */
    method TryTimedTextCandidate(env: Env, videoId: string, lang: string, url: string) returns (o: CandidateOutcome)
      modifies this
      ensures o == DirectCandidate(env, videoId, lang, url)
      ensures lastResponseInfo == Recorded(old(lastResponseInfo), url, Request(env.net, url, 3, 0))
    {
      var response := RequestAndRecord(env.net, url);
      if !Truthy(response) || response.value.status != 200 || IsBytesBlank(response.value.text) {
        return Skipped;
      }
      var parsed := env.parseTimedText(response.value.text);
      if parsed.None? {
        return Skipped;
      }
      var segments, full := CollectTimedText(parsed.value);
      if segments.None? {
        return Aborted;
      }
      if IsBlank(Py, full) {
        return Skipped;
      }
      o := Accepted(Found(videoId, Some(lang), Trim(Py, full), segments.value, |Words(Py, full)|, DirectApi, Some(url), None));
    }

    /** `_extract_with_direct_api` */
    method ExtractWithDirectApi(env: Env, videoId: string, lang: string) returns (r: Option<TranscriptResult>)
      modifies this
      ensures r == DirectApiResult(env, videoId, lang)
      ensures lastResponseInfo == RecordedAll(old(lastResponseInfo), env.net, DirectTried(env, videoId, lang))
    {
      var urls := DirectCandidates(videoId, lang);
      ghost var flags := DirectFlags(env, videoId, lang, urls);
      var i := 0;
      while i < |urls|
        invariant 0 <= i <= |urls|
        invariant FirstSet(flags, 0) == FirstSet(flags, i)
        invariant lastResponseInfo == RecordedAll(old(lastResponseInfo), env.net, urls[..i])
      {
        RecordedAllStep(old(lastResponseInfo), env.net, urls, i);
        var o := TryTimedTextCandidate(env, videoId, lang, urls[i]);
        match o {
          case Skipped =>
            assert !flags[i];
          case Aborted =>
            assert flags[i];
            return None;
          case Accepted(res) =>
            assert flags[i];
            return Some(res);
        }
        i := i + 1;
      }
      assert urls[..|urls|] == urls;
      r := None;
    }

    /** `_extract_with_web_scraping` */
    method ExtractWithWebScraping(env: Env, videoId: string) returns (r: Option<TranscriptResult>)
      modifies this
      ensures r == WebScrapingResult(env, videoId)
      ensures lastResponseInfo == Recorded(old(lastResponseInfo), WatchUrl(videoId), Request(env.net, WatchUrl(videoId), 3, 0))
    {
      var response := RequestAndRecord(env.net, WatchUrl(videoId));
      r := None;
      if Truthy(response) && response.value.status == 200 {
        var runs := env.transcriptRuns(response.value.text);
        if runs.Some? {
          var full := Join(" ", runs.value);
          r := Some(Found(videoId, None, full, [], |Words(Py, full)|, WebScraping, None, None));
        }
      }
    }

    /**
     * Strategy `i` of `StrategyOrder`, called as `extract_transcript` calls
     * it; `prev` is the snapshot before the chain began.
     */
    method RunStrategy(env: Env, videoId: string, lang: string, i: nat, ghost prev: Option<ResponseInfo>) returns (out: StrategyOutcome)
      requires i < 4
      requires lastResponseInfo == RecordedAll(prev, env.net, FetchesUpTo(env, videoId, lang, i))
      modifies this
      ensures out == StrategyOutcomes(env, videoId, lang)[i]
      ensures lastResponseInfo == RecordedAll(prev, env.net, FetchesUpTo(env, videoId, lang, i + 1))
    {
      RecordedAllConcat(prev, env.net, FetchesUpTo(env, videoId, lang, i), StrategyFetches(env, videoId, lang, i));
      if i == 0 {
        out := Produced(ExtractWithTranscriptApi(env.library, videoId, lang));
        assert FetchesUpTo(env, videoId, lang, i) + [] == FetchesUpTo(env, videoId, lang, i);
      } else if i == 1 {
        var res := ExtractWithDirectApi(env, videoId, lang);
        out := Produced(res);
      } else if i == 2 {
        var res := ExtractWithWebScraping(env, videoId);
        out := Produced(res);
      } else {
        out := ExtractWithYtDlp(env, videoId, lang);
        assert FetchesUpTo(env, videoId, lang, i) + [] == FetchesUpTo(env, videoId, lang, i);
      }
    }

    /**
     * `extract_transcript`: the four try blocks, one per strategy in
     * `StrategyOrder`, each appending one audit entry and returning on a
     * truthy result.
     */
    method ExtractTranscript(env: Env, videoId: string, lang: string) returns (r: TranscriptResult)
      modifies this
      ensures r == ExtractTranscriptResult(env, videoId, lang)
      ensures lastResponseInfo == RecordedAll(old(lastResponseInfo), env.net, TranscriptFetches(env, videoId, lang))
    {
      ghost var o := StrategyOutcomes(env, videoId, lang);
      ghost var prev := lastResponseInfo;
      var fallbacks: seq<FallbackEntry> := [];
      var i := 0;
      while i < 4
        invariant 0 <= i <= 4
        invariant ChainPrefix(o, i, fallbacks)
        invariant lastResponseInfo == RecordedAll(prev, env.net, FetchesUpTo(env, videoId, lang, i))
      {
        var out := RunStrategy(env, videoId, lang, i, prev);
        ChainStep(videoId, o, i, fallbacks);
        fallbacks := fallbacks + [Entry(StrategyOrder[i], out)];
        if Wins(out) {
          return out.result.value.(fallbacks := fallbacks);
        }
        i := i + 1;
      }
      ChainEnd(videoId, o, fallbacks);
      r := NoTranscript(videoId, fallbacks);
    }

    /** `get_video_chapters` */
    method GetVideoChapters(env: Env, videoId: string) returns (chapters: seq<Chapter>)
      modifies this
      ensures chapters == ChaptersOf(env, videoId)
      ensures lastResponseInfo == Recorded(old(lastResponseInfo), WatchUrl(videoId), Request(env.net, WatchUrl(videoId), 3, 0))
    {
      var response := RequestAndRecord(env.net, WatchUrl(videoId));
      chapters := [];
      if Truthy(response) && response.value.status == 200 {
        var found := env.chapters(response.value.text);
        var i := 0;
        while i < |found|
          invariant 0 <= i <= |found|
          invariant |chapters| == i
          invariant forall j :: 0 <= j < i ==> chapters[j] == Chapter(found[j].0, found[j].1)
        {
          chapters := chapters + [Chapter(found[i].0, found[i].1)];
          i := i + 1;
        }
      }
    }

    /** `extract_complete_video_data` */
    method ExtractCompleteVideoData(env: Env, url: string, lang: string) returns (v: VideoData)
      modifies this
      ensures v == CompleteVideoData(env, url, lang, old(lastResponseInfo))
      ensures v.InvalidUrl? ==> lastResponseInfo == old(lastResponseInfo)
      ensures v.VideoData? ==> lastResponseInfo == v.serverDebug
    {
      var found := ExtractVideoId(Py, url);
      if found.None? {
        return InvalidUrl(InvalidUrlError, url);
      }
      var id := found.value;
      ghost var prev := lastResponseInfo;
      ghost var net := env.net;
      var metadata := GetVideoMetadata(env, id);
      var languages := GetAvailableTranscripts(env, id);
      RecordedAllStep(prev, net, [OEmbedUrl(id), WatchUrl(id)], 1);
      assert [OEmbedUrl(id), WatchUrl(id)][..1] == [OEmbedUrl(id)];
      var transcript := ExtractTranscript(env, id, lang);
      RecordedAllConcat(prev, net, [OEmbedUrl(id), WatchUrl(id)], TranscriptFetches(env, id, lang));
      var chapters := GetVideoChapters(env, id);
      ghost var before := [OEmbedUrl(id), WatchUrl(id)] + TranscriptFetches(env, id, lang);
      assert (before + [WatchUrl(id)])[..|before|] == before;
      v := VideoData(transcript.success, id, url, metadata, transcript, languages, chapters, lastResponseInfo);
    }
  }
}
