/**
 * The front end's `youtubeService.extractVideoId`.
 *
 * It tries the same two regular expressions as the backend, in the same
 * order, but with JavaScript's `.`, which also stops at `\r`, U+2028 and
 * U+2029. The HTTP wrappers around the API (`getVideoInfo`,
 * `extractTranscript`, ...) only forward their arguments and are not modelled.
 */
module YouTubeServiceTs {
  import opened Wrappers
  import opened Text
  import YouTubeService

  /** `extractVideoId(url)`: `match[1]` of the first pattern that matches, or `null`. */
  function ExtractVideoId(url: string): (r: Option<string>)
  {
    YouTubeService.ExtractVideoId(Js, url)
  }

  /** The extracted ID is a non-empty run of `[^&\n?#]` right after a recognised prefix. */
  lemma ExtractVideoIdShape(url: string)
    ensures ExtractVideoId(url).Some? ==>
      exists j: nat :: YouTubeService.IdShape(url, ExtractVideoId(url).value, j)
  {
    YouTubeService.ExtractVideoIdShape(Js, url);
  }

  /** `null` exactly when neither pattern matches anywhere. */
  lemma ExtractVideoIdNull(url: string)
    ensures ExtractVideoId(url).None? <==>
      forall p: nat :: !YouTubeService.Pattern1At(url, p) && !YouTubeService.Pattern2At(Js, url, p)
  {
  }

  /** The first pattern wins over the second wherever the first matches. */
  lemma Pattern1Wins(url: string, p: nat)
    requires YouTubeService.Pattern1At(url, p)
    requires forall q: nat :: q < p ==> !YouTubeService.Pattern1At(url, q)
    ensures ExtractVideoId(url) == Some(YouTubeService.Capture1(url, p))
  {
    YouTubeService.Pattern1First(Js, url, p);
  }

  /** Characters on which the two dialects' `.` disagree. */
  predicate IsJsOnlyTerminator(c: char)
  {
    c == '\r' || c == '\U{2028}' || c == '\U{2029}'
  }

  predicate NoJsOnlyTerminator(s: string)
  {
    forall i :: 0 <= i < |s| ==> !IsJsOnlyTerminator(s[i])
  }

  lemma {:induction false} DotEndAgrees(s: string, b: nat)
    requires b <= |s| && NoJsOnlyTerminator(s)
    ensures YouTubeService.DotEnd(Js, s, b) == YouTubeService.DotEnd(Py, s, b)
    decreases |s| - b
  {
    if b < |s| {
      assert !IsJsOnlyTerminator(s[b]);
      if YouTubeService.DotAccepts(Py, s[b]) {
        DotEndAgrees(s, b + 1);
      }
    }
  }

  lemma Pattern2VAtAgrees(s: string, p: nat)
    requires NoJsOnlyTerminator(s)
    ensures YouTubeService.Pattern2VAt(Js, s, p) == YouTubeService.Pattern2VAt(Py, s, p)
  {
    if OccursAt(s, YouTubeService.WatchQuery, p) {
      DotEndAgrees(s, p + |YouTubeService.WatchQuery|);
    }
  }

  lemma {:induction false} FirstPattern2Agrees(s: string, p: nat)
    requires NoJsOnlyTerminator(s)
    ensures YouTubeService.FirstPattern2(Js, s, p) == YouTubeService.FirstPattern2(Py, s, p)
    decreases |s| - p
  {
    if p < |s| {
      Pattern2VAtAgrees(s, p);
      FirstPattern2Agrees(s, p + 1);
    }
  }

  /**
   * On a URL without `\r`, U+2028 or U+2029 the front end and the backend
   * extract the same ID (or both nothing).
   */
  lemma SameAsBackend(url: string)
    requires NoJsOnlyTerminator(url)
    ensures ExtractVideoId(url) == YouTubeService.ExtractVideoId(Py, url)
  {
    if YouTubeService.FirstPattern1(url, 0).None? {
      FirstPattern2Agrees(url, 0);
      var r := YouTubeService.FirstPattern2(Py, url, 0);
      if r.Some? {
        Pattern2VAtAgrees(url, r.value);
        assert YouTubeService.Capture2(Js, url, r.value) == YouTubeService.Capture2(Py, url, r.value);
      }
    }
  }

  /** A literal that starts with a different character does not occur at `q`. */
  lemma NotOccursAt(s: string, p: string, q: nat)
    requires |p| > 0 && (q >= |s| || s[q] != p[0])
    ensures !OccursAt(s, p, q)
  {
    if q + |p| <= |s| {
      assert s[q..q + |p|][0] == s[q];
    }
  }

  /** A URL the two disagree on: a carriage return between `watch?` and `v=`. */
  const CarriageReturnUrl: string := "youtube.com/watch?x\rv=abc"

  /** The backend extracts `abc` from it; the front end extracts nothing. */
  lemma DivergesOnCarriageReturn()
    ensures YouTubeService.ExtractVideoId(Py, CarriageReturnUrl) == Some("abc")
    ensures ExtractVideoId(CarriageReturnUrl) == None
  {
    CarriageReturnUrlNoPattern1();
    CarriageReturnUrlPy();
    CarriageReturnUrlJs();
  }

  /** Only the watch query, at 0, begins in the URL; pattern 1 matches nowhere. */
  lemma CarriageReturnUrlNoPattern1()
    ensures YouTubeService.FirstPattern1(CarriageReturnUrl, 0) == None
    ensures OccursAt(CarriageReturnUrl, YouTubeService.WatchQuery, 0)
    ensures forall q: nat :: 0 < q ==> !OccursAt(CarriageReturnUrl, YouTubeService.WatchQuery, q)
  {
    var u := CarriageReturnUrl;
    assert u[..20] != YouTubeService.WatchPrefix by { assert u[18] != YouTubeService.WatchPrefix[18]; }
    assert u[..9] != YouTubeService.ShortPrefix by { assert u[5] != YouTubeService.ShortPrefix[5]; }
    assert u[..18] != YouTubeService.EmbedPrefix by { assert u[12] != YouTubeService.EmbedPrefix[12]; }
    assert !YouTubeService.Pattern1At(u, 0);
    forall q: nat | 0 < q
      ensures !YouTubeService.Pattern1At(u, q) && !OccursAt(u, YouTubeService.WatchQuery, q)
    {
      assert q >= |u| || u[q] != 'y';
      NotOccursAt(u, YouTubeService.WatchPrefix, q);
      NotOccursAt(u, YouTubeService.ShortPrefix, q);
      NotOccursAt(u, YouTubeService.EmbedPrefix, q);
      NotOccursAt(u, YouTubeService.WatchQuery, q);
    }
    assert u[..18] == YouTubeService.WatchQuery;
  }

  /** Python's `.*` runs over the carriage return to the `v=` at 20. */
  lemma CarriageReturnUrlPy()
    requires OccursAt(CarriageReturnUrl, YouTubeService.WatchQuery, 0)
    ensures YouTubeService.Pattern2VAt(Py, CarriageReturnUrl, 0) == Some(20)
    ensures YouTubeService.Capture2(Py, CarriageReturnUrl, 0) == "abc"
  {
    var u := CarriageReturnUrl;
    assert YouTubeService.DotEnd(Py, u, 25) == 25;
    assert YouTubeService.DotEnd(Py, u, 18) == 25;
    assert u[20..22] == "v=";
    assert YouTubeService.VEqualsAt(u, 20);
    forall j | 21 <= j <= 25 ensures !YouTubeService.VEqualsAt(u, j) {
      assert j >= |u| || u[j] != 'v';
    }
    assert YouTubeService.LastVEquals(u, 18, 25) == Some(20);
    assert YouTubeService.IdRunLength(u, 24) == 1;
    assert YouTubeService.IdRunLength(u, 23) == 2;
    assert YouTubeService.IdRunLength(u, 22) == 3;
    assert u[22..25] == "abc";
  }

  /** JavaScript's `.*` stops at the carriage return, before any `v=`. */
  lemma CarriageReturnUrlJs()
    ensures YouTubeService.Pattern2VAt(Js, CarriageReturnUrl, 0) == None
  {
    var u := CarriageReturnUrl;
    assert YouTubeService.DotEnd(Js, u, 19) == 19;
    assert YouTubeService.DotEnd(Js, u, 18) == 19;
    assert !YouTubeService.VEqualsAt(u, 19) by { assert u[19] != 'v'; }
    assert !YouTubeService.VEqualsAt(u, 18) by { assert u[18] != 'v'; }
  }
}
