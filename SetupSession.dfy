/**
 * Starting a learning session by hand (components/SetupSession.tsx): a
 * YouTube URL and a pasted transcript. The same video-id pattern is used by
 * the course builder (CreateCourse module).
 *
 * The pattern is
 *   (?:https?://)?(?:www\.)?
 *   (?:youtube\.com/(?:[^/\n\s]+/\S+/|(?:v|e(?:mbed)?)/|\S*?[?&]v=)|youtu\.be/)
 *   ([a-zA-Z0-9_-]{11})
 * searched anywhere in the text. Neither optional prefix contains a `y`,
 * and both hosts start with one, so the leftmost match is the one whose
 * host starts leftmost; the prefixes never change the captured id. The
 * model therefore searches for the leftmost host position at which the rest
 * matches, and at that position follows the alternatives in the order the
 * backtracking tries them.
 */
module SetupSession {
  import opened Wrappers
  import opened Text

  const Host := "youtube.com/"
  const ShortHost := "youtu.be/"
  const VSlash := "v/"
  const EmbedSlash := "embed/"
  const ESlash := "e/"
  const VEquals := "v="

  predicate IsIdChar(c: char)
  {
    ('a' <= c <= 'z') || ('A' <= c <= 'Z') || ('0' <= c <= '9') || c == '_' || c == '-'
  }

  /** What the capture group accepts: exactly eleven of `[a-zA-Z0-9_-]`. */
  predicate IsVideoId(w: string)
  {
    |w| == 11 && forall i :: 0 <= i < 11 ==> IsIdChar(w[i])
  }

  /** `([a-zA-Z0-9_-]{11})` at `k`. */
  function IdAt(s: string, k: nat): (r: Option<string>)
    ensures r.Some? ==> k + 11 <= |s| && r.value == s[k..k + 11] && IsVideoId(r.value)
    ensures r.None? ==> !(k + 11 <= |s| && IsVideoId(s[k..k + 11]))
  {
    if k + 11 <= |s| && IsVideoId(s[k..k + 11]) then Some(s[k..k + 11]) else None
  }

  /** End of the run of characters that are neither `/` nor whitespace, from `q`. */
  function SegmentEnd(s: string, q: nat): (e: nat)
    requires q <= |s|
    ensures q <= e <= |s|
    ensures forall m :: q <= m < e ==> s[m] != '/' && !IsSpace(Js, s[m])
    ensures e < |s| ==> s[e] == '/' || IsSpace(Js, s[e])
    decreases |s| - q
  {
    if q < |s| && s[q] != '/' && !IsSpace(Js, s[q]) then SegmentEnd(s, q + 1) else q
  }

  /** End of the run of non-whitespace characters from `q`. */
  function NonSpaceEnd(s: string, q: nat): (f: nat)
    requires q <= |s|
    ensures q <= f <= |s|
    ensures forall m :: q <= m < f ==> !IsSpace(Js, s[m])
    ensures f < |s| ==> IsSpace(Js, s[f])
    decreases |s| - q
  {
    if q < |s| && !IsSpace(Js, s[q]) then NonSpaceEnd(s, q + 1) else q
  }

  /** The greedy `\S+/` backing off: the last `/` at an index in `[lo, t)` that an id follows. */
  function SlashIdDown(s: string, lo: nat, t: nat): (r: Option<string>)
    requires lo <= t <= |s|
    ensures r.Some? ==> exists k :: lo < k <= t && s[k - 1] == '/' && IdAt(s, k) == r
    decreases t - lo
  {
    if t == lo then None
    else if s[t - 1] == '/' && IdAt(s, t).Some? then IdAt(s, t)
    else SlashIdDown(s, lo, t - 1)
  }

  /** `[^/\n\s]+/\S+/` then the id, after the host's `/` at `q`. */
  function PathAlt(s: string, q: nat): (r: Option<string>)
    requires q <= |s|
    ensures r.Some? ==> exists k :: q < k <= |s| && s[k - 1] == '/' && IdAt(s, k) == r
  {
    var e := SegmentEnd(s, q);
    if e == q || e == |s| || s[e] != '/' then None
    else
      var f := NonSpaceEnd(s, e + 1);
      if f < e + 2 then None else SlashIdDown(s, e + 2, f)
  }

  /** `(?:v|e(?:mbed)?)/` then the id: `v/` first, then `embed/`, then `e/`. */
  function ShortPathAlt(s: string, q: nat): (r: Option<string>)
    ensures r.Some? ==> exists k :: q < k && k - 1 < |s| && s[k - 1] == '/' && IdAt(s, k) == r
  {
    if OccursAt(s, VSlash, q) && IdAt(s, q + 2).Some? then
      assert s[q + 1] == VSlash[1];
      IdAt(s, q + 2)
    else if OccursAt(s, EmbedSlash, q) && IdAt(s, q + 6).Some? then
      assert s[q + 5] == EmbedSlash[5];
      IdAt(s, q + 6)
    else if OccursAt(s, ESlash, q) && IdAt(s, q + 2).Some? then
      assert s[q + 1] == ESlash[1];
      IdAt(s, q + 2)
    else None
  }

  /** The lazy `\S*?[?&]v=` then the id: the first `?v=` or `&v=` after `k`, with no whitespace before it, that an id follows. */
  function QueryAlt(s: string, k: nat): (r: Option<string>)
    ensures r.Some? ==> exists j :: k <= j && j + 3 <= |s| && (s[j] == '?' || s[j] == '&') && s[j + 2] == '=' && IdAt(s, j + 3) == r
    decreases |s| - k
  {
    if k >= |s| || IsSpace(Js, s[k]) then None
    else if (s[k] == '?' || s[k] == '&') && OccursAt(s, VEquals, k + 1) && IdAt(s, k + 3).Some? then
      assert s[k + 2] == VEquals[1];
      IdAt(s, k + 3)
    else QueryAlt(s, k + 1)
  }

  /** The part of the pattern from a host starting at `c`: the id it captures there, if it matches there. */
  function MatchAt(s: string, c: nat): (r: Option<string>)
    requires c <= |s|
  {
    if OccursAt(s, Host, c) then
      var q := c + |Host|;
      match PathAlt(s, q)
      case Some(id) => Some(id)
      case None =>
        match ShortPathAlt(s, q)
        case Some(id) => Some(id)
        case None => QueryAlt(s, q)
    else if OccursAt(s, ShortHost, c) then IdAt(s, c + |ShortHost|)
    else None
  }

  /** The leftmost match from `c` on. */
  function FirstMatch(s: string, c: nat): (r: Option<string>)
    requires c <= |s|
    ensures r.None? <==> forall q :: c <= q <= |s| ==> MatchAt(s, q).None?
    ensures r.Some? ==> exists p :: c <= p <= |s| && MatchAt(s, p) == r && forall q :: c <= q < p ==> MatchAt(s, q).None?
    decreases |s| - c
  {
    match MatchAt(s, c)
    case Some(id) => Some(id)
    case None => if c == |s| then None else FirstMatch(s, c + 1)
  }

  /** `extractVideoId`: `match[1]`, or `null` when the pattern matches nowhere. */
  function ExtractVideoId(url: string): (r: Option<string>)
    ensures r.None? <==> forall q :: 0 <= q <= |url| ==> MatchAt(url, q).None?
    ensures r.Some? ==> exists p :: 0 <= p <= |url| && MatchAt(url, p) == r && forall q :: 0 <= q < p ==> MatchAt(url, q).None?
  {
    FirstMatch(url, 0)
  }

  /** A host of either kind starts at `c`. */
  predicate HostAt(s: string, c: nat)
  {
    OccursAt(s, Host, c) || OccursAt(s, ShortHost, c)
  }

  /** The id sits at `k`, at or after `lo`, right after a `/` or an `=`. */
  predicate IdAfter(s: string, id: string, lo: nat, k: nat)
  {
    lo <= k && 1 <= k && k + 11 <= |s| && s[k..k + 11] == id && (s[k - 1] == '/' || s[k - 1] == '=')
  }

  /** The id sits at `k`, right after a `/` or an `=`, and a host starts at or before `k - 9`. */
  ghost predicate IdShape(s: string, id: string, k: nat)
  {
    exists c: nat :: HostAt(s, c) && IdAfter(s, id, c + 9, k)
  }

  /** Where each alternative after `youtube.com/` finds its id. */
  lemma PathWitness(s: string, q: nat, id: string) returns (k: nat)
    requires q <= |s| && PathAlt(s, q) == Some(id)
    ensures IdAfter(s, id, q, k)
  {
    k :| q < k <= |s| && s[k - 1] == '/' && IdAt(s, k) == Some(id);
  }

  lemma ShortPathWitness(s: string, q: nat, id: string) returns (k: nat)
    requires ShortPathAlt(s, q) == Some(id)
    ensures IdAfter(s, id, q, k)
  {
    k :| q < k && k - 1 < |s| && s[k - 1] == '/' && IdAt(s, k) == Some(id);
  }

  lemma QueryWitness(s: string, q: nat, id: string) returns (k: nat)
    requires QueryAlt(s, q) == Some(id)
    ensures IdAfter(s, id, q, k)
  {
    var j :| q <= j && j + 3 <= |s| && (s[j] == '?' || s[j] == '&') && s[j + 2] == '=' && IdAt(s, j + 3) == Some(id);
    k := j + 3;
  }

  lemma {:induction false} MatchAtShape(s: string, c: nat)
    requires c <= |s| && MatchAt(s, c).Some?
    ensures HostAt(s, c) && IsVideoId(MatchAt(s, c).value)
    ensures exists k :: IdShape(s, MatchAt(s, c).value, k)
  {
    var id := MatchAt(s, c).value;
    if OccursAt(s, Host, c) {
      var q := c + |Host|;
      var k: nat;
      if PathAlt(s, q).Some? {
        k := PathWitness(s, q, id);
      } else if ShortPathAlt(s, q).Some? {
        k := ShortPathWitness(s, q, id);
      } else {
        k := QueryWitness(s, q, id);
      }
      assert IsVideoId(id) by { assert IdAt(s, k) == Some(id); }
      assert IdAfter(s, id, c + 9, k);
      assert HostAt(s, c);
      assert IdShape(s, id, k);
    } else {
      var k := c + |ShortHost|;
      assert s[k - 1] == ShortHost[8];
      assert IdAfter(s, id, c + 9, k);
      assert HostAt(s, c);
      assert IdShape(s, id, k);
    }
  }

  lemma {:induction false} FirstMatchShape(s: string, c: nat)
    requires c <= |s| && FirstMatch(s, c).Some?
    ensures IsVideoId(FirstMatch(s, c).value)
    ensures exists k :: IdShape(s, FirstMatch(s, c).value, k)
    decreases |s| - c
  {
    if MatchAt(s, c).Some? {
      MatchAtShape(s, c);
    } else {
      FirstMatchShape(s, c + 1);
    }
  }

  /** A found id is eleven characters of `[a-zA-Z0-9_-]`, copied from right after a `/` or `=` that follows a recognised host. */
  lemma ExtractShape(url: string)
    requires ExtractVideoId(url).Some?
    ensures IsVideoId(ExtractVideoId(url).value)
    ensures exists k :: IdShape(url, ExtractVideoId(url).value, k)
  {
    FirstMatchShape(url, 0);
  }

  /** Without a host no id is found. */
  lemma {:induction false} NoHostNoId(url: string, c: nat)
    requires c <= |url| && forall m :: c <= m <= |url| ==> !HostAt(url, m)
    ensures FirstMatch(url, c).None?
    decreases |url| - c
  {
    assert !HostAt(url, c);
    if c < |url| {
      NoHostNoId(url, c + 1);
    }
  }

  /** Text without a `y` holds no host, so the search passes over it. */
  lemma {:induction false} SkipNoY(s: string, p: nat, c: nat)
    requires c <= p <= |s| && forall m :: c <= m < p ==> s[m] != 'y'
    ensures FirstMatch(s, c) == FirstMatch(s, p)
    decreases p - c
  {
    if c < p {
      assert !OccursAt(s, Host, c) by { assert s[c] != Host[0]; }
      assert !OccursAt(s, ShortHost, c) by { assert s[c] != ShortHost[0]; }
      SkipNoY(s, p, c + 1);
    }
  }

  /** A short link's id is found whatever scheme text (without a `y`) comes before it. */
  lemma ShortLinkRoundTrip(prefix: string, id: string)
    requires IsVideoId(id) && forall m :: 0 <= m < |prefix| ==> prefix[m] != 'y'
    ensures ExtractVideoId(prefix + ShortHost + id) == Some(id)
  {
    var s := prefix + ShortHost + id;
    var c := |prefix|;
    SkipNoY(s, c, 0);
    assert s[c..c + 9] == ShortHost;
    assert !OccursAt(s, Host, c) by { assert s[c + 5] != Host[5]; }
    assert s[c + 9..c + 20] == id;
  }

  /** At `embed/` followed by an id and nothing else, only the `embed/` alternative matches. */
  lemma EmbedAlts(s: string, q: nat, id: string)
    requires IsVideoId(id) && |s| == q + 17 && s[q..q + 6] == EmbedSlash && s[q + 6..] == id
    ensures PathAlt(s, q).None? && ShortPathAlt(s, q) == Some(id)
  {
    forall m | q + 6 <= m < |s| ensures s[m] != '/' && !IsSpace(Js, s[m]) {
      assert s[m] == id[m - q - 6];
      assert IsIdChar(id[m - q - 6]);
    }
    forall m | q <= m < q + 5 ensures s[m] != '/' && !IsSpace(Js, s[m]) {
      assert s[m] == EmbedSlash[m - q];
    }
    assert s[q + 5] == EmbedSlash[5];
    SegmentEndAt(s, q, q + 5);
    NonSpaceTo(s, q + 6);
    NoSlashDown(s, q + 7, |s|);
    assert !OccursAt(s, VSlash, q) by { assert s[q] == EmbedSlash[0]; }
    assert OccursAt(s, EmbedSlash, q);
    assert s[q + 6..q + 17] == id;
  }

  /** An embed link's id is found: the path alternative finds no second `/` and the `embed/` alternative takes it. */
  lemma EmbedRoundTrip(prefix: string, id: string)
    requires IsVideoId(id) && forall m :: 0 <= m < |prefix| ==> prefix[m] != 'y'
    ensures ExtractVideoId(prefix + Host + EmbedSlash + id) == Some(id)
  {
    var s := prefix + Host + EmbedSlash + id;
    var c := |prefix|;
    var q := c + 12;
    SkipNoY(s, c, 0);
    assert s[c..c + 12] == Host;
    assert s[q..q + 6] == EmbedSlash;
    assert s[q + 6..] == id;
    EmbedAlts(s, q, id);
    assert MatchAt(s, c) == Some(id);
  }

  const Watch := "watch?v="

  /** The lazy scan steps over non-space characters that are neither `?` nor `&`. */
  lemma {:induction false} QuerySkip(s: string, k: nat, j: nat)
    requires k <= j <= |s| && forall m :: k <= m < j ==> s[m] != '?' && s[m] != '&' && !IsSpace(Js, s[m])
    ensures QueryAlt(s, k) == QueryAlt(s, j)
    decreases j - k
  {
    if k < j {
      QuerySkip(s, k + 1, j);
    }
  }

  /** At `watch?v=` followed by an id and nothing else, only the query alternative matches. */
  lemma WatchAlts(s: string, q: nat, id: string)
    requires IsVideoId(id) && |s| == q + 19 && s[q..q + 8] == Watch && s[q + 8..] == id
    ensures PathAlt(s, q).None? && ShortPathAlt(s, q).None? && QueryAlt(s, q) == Some(id)
  {
    forall m | q <= m < |s| ensures s[m] != '/' && !IsSpace(Js, s[m]) {
      if m < q + 8 {
        assert s[m] == Watch[m - q];
      } else {
        assert s[m] == id[m - q - 8];
        assert IsIdChar(id[m - q - 8]);
      }
    }
    assert SegmentEnd(s, q) == |s| by { SegmentTo(s, q); }
    assert s[q] == Watch[0];
    forall m | q <= m < q + 5 ensures s[m] != '?' && s[m] != '&' {
      assert s[m] == Watch[m - q];
    }
    QuerySkip(s, q, q + 5);
    assert s[q + 5] == Watch[5];
    assert s[q + 6..q + 8] == VEquals;
    assert s[q + 8..q + 19] == id;
  }

  lemma {:induction false} SegmentTo(s: string, q: nat)
    requires q <= |s| && forall m :: q <= m < |s| ==> s[m] != '/' && !IsSpace(Js, s[m])
    ensures SegmentEnd(s, q) == |s|
    decreases |s| - q
  {
    if q < |s| {
      SegmentTo(s, q + 1);
    }
  }

  /** A watch link's id is found by the `?v=` alternative. */
  lemma WatchRoundTrip(prefix: string, id: string)
    requires IsVideoId(id) && forall m :: 0 <= m < |prefix| ==> prefix[m] != 'y'
    ensures ExtractVideoId(prefix + Host + Watch + id) == Some(id)
  {
    var s := prefix + Host + Watch + id;
    var c := |prefix|;
    var q := c + 12;
    SkipNoY(s, c, 0);
    assert s[c..c + 12] == Host;
    assert s[q..q + 8] == Watch;
    assert s[q + 8..] == id;
    WatchAlts(s, q, id);
    assert MatchAt(s, c) == Some(id);
  }

  lemma SegmentEndAt(s: string, q: nat, e: nat)
    requires q <= e < |s| && s[e] == '/' && forall m :: q <= m < e ==> s[m] != '/' && !IsSpace(Js, s[m])
    ensures SegmentEnd(s, q) == e
    decreases e - q
  {
    if q < e {
      SegmentEndAt(s, q + 1, e);
    }
  }

  lemma {:induction false} NonSpaceTo(s: string, q: nat)
    requires q <= |s| && forall m :: q <= m < |s| ==> !IsSpace(Js, s[m])
    ensures NonSpaceEnd(s, q) == |s|
    decreases |s| - q
  {
    if q < |s| {
      NonSpaceTo(s, q + 1);
    }
  }

  lemma {:induction false} NoSlashDown(s: string, lo: nat, t: nat)
    requires lo <= t <= |s| && forall m :: lo <= m < t ==> s[m] != '/'
    ensures SlashIdDown(s, lo, t).None?
    decreases t - lo
  {
    if t > lo {
      NoSlashDown(s, lo, t - 1);
    }
  }

  const InvalidUrl := "Please enter a valid YouTube video URL."
  const MissingTranscript := "Please provide a transcript for the video."

  /**
   * `handleSubmit`: an error for a URL without an id, then for a blank
   * transcript; otherwise the id and the transcript, as typed, handed to
   * `onSessionCreated`.
   */
  function HandleSubmit(url: string, transcript: string): (r: Result<(string, string), string>)
    ensures ExtractVideoId(url).None? ==> r == Failure(InvalidUrl)
    ensures ExtractVideoId(url).Some? && IsBlank(Js, transcript) ==> r == Failure(MissingTranscript)
    ensures r.Success? <==> ExtractVideoId(url).Some? && !IsBlank(Js, transcript)
    ensures r.Success? ==> r.value == (ExtractVideoId(url).value, transcript) && IsVideoId(r.value.0)
  {
    TrimShape(Js, transcript);
    match ExtractVideoId(url)
    case None => Failure(InvalidUrl)
    case Some(id) =>
      ExtractShape(url);
      if Trim(Js, transcript) == "" then Failure(MissingTranscript) else Success((id, transcript))
  }
}
