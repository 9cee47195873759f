/**
 * The course and lesson actions of the REST API (backend/courses/views.py):
 * reading a video ID out of a request, adding and deleting lessons,
 * unlocking a paid course, tipping its creator, fetching a lesson's
 * transcript with the manual transcript as fallback, and the clean-up of the
 * quiz generator's reply. The rows these actions create or rewrite live in a
 * `CourseStore`; payments are read from a snapshot of their table.
 */
module CourseViews {
  import opened Wrappers
  import opened Text
  import opened CourseModels
  import opened PaymentModels

  // ---------------------------------------------------------------------
  // `_extract_video_id`: an explicit ID, else the first match of
  //   (?:youtube\.com/(?:watch\?v=|embed/)|youtu\.be/)([^&?/]+)
  // in the URL.
  // ---------------------------------------------------------------------

  const WatchPrefix: string := "youtube.com/watch?v="
  const EmbedPrefix: string := "youtube.com/embed/"
  const ShortPrefix: string := "youtu.be/"

  /** `[^&?/]` */
  predicate IsIdChar(c: char)
  {
    c != '&' && c != '?' && c != '/'
  }

  /** Length of the run of ID characters starting at `i`: the greedy capture. */
  function IdRun(s: string, i: nat): (n: nat)
    requires i <= |s|
    ensures i + n <= |s|
    ensures forall k :: i <= k < i + n ==> IsIdChar(s[k])
    ensures i + n < |s| ==> !IsIdChar(s[i + n])
    decreases |s| - i
  {
    if i < |s| && IsIdChar(s[i]) then 1 + IdRun(s, i + 1) else 0
  }

  /** Length of the prefix alternative occurring at `p` (at most one can). */
  function PrefixAt(s: string, p: nat): Option<nat>
  {
    if OccursAt(s, WatchPrefix, p) then Some(|WatchPrefix|)
    else if OccursAt(s, EmbedPrefix, p) then Some(|EmbedPrefix|)
    else if OccursAt(s, ShortPrefix, p) then Some(|ShortPrefix|)
    else None
  }

  /** The pattern matches at `p`: a prefix, then at least one ID character. */
  predicate MatchAt(s: string, p: nat)
  {
    match PrefixAt(s, p)
    case None => false
    case Some(n) => p + n < |s| && IsIdChar(s[p + n])
  }

  /** `re.search`: the leftmost start at or after `p` where the pattern matches. */
  function FirstMatch(s: string, p: nat): (r: Option<nat>)
    ensures r.Some? ==> p <= r.value && MatchAt(s, r.value)
    ensures r.Some? ==> forall q :: p <= q < r.value ==> !MatchAt(s, q)
    ensures r.None? ==> forall q :: p <= q ==> !MatchAt(s, q)
    decreases |s| - p
  {
    if p >= |s| then
      assert forall q :: p <= q ==> !MatchAt(s, q) by {
        forall q | p <= q ensures !MatchAt(s, q) {
          assert !OccursAt(s, WatchPrefix, q) && !OccursAt(s, EmbedPrefix, q) && !OccursAt(s, ShortPrefix, q);
        }
      }
      None
    else if MatchAt(s, p) then Some(p)
    else FirstMatch(s, p + 1)
  }

  /** Where the capture group starts for a match at `p`. */
  function CaptureStart(s: string, p: nat): (j: nat)
    requires MatchAt(s, p)
    ensures j < |s|
  {
    p + PrefixAt(s, p).value
  }

  /** `match.group(1)` for a match at `p`. */
  function Capture(s: string, p: nat): string
    requires MatchAt(s, p)
  {
    var j := CaptureStart(s, p);
    s[j..j + IdRun(s, j)]
  }

  /**
   * `_extract_video_id`: a non-empty `video_id` wins, stripped; with neither
   * an ID nor a URL there is none; otherwise the capture of the leftmost
   * match in the URL, if any.
   */
  function ExtractVideoId(videoId: string, videoUrl: string): (r: Option<string>)
    ensures videoId != [] ==> r == Some(Trim(Py, videoId))
    ensures videoId == [] && videoUrl == [] ==> r == None
  {
    if videoId != [] then Some(Trim(Py, videoId))
    else if videoUrl == [] then None
    else
      match FirstMatch(videoUrl, 0)
      case Some(p) => Some(Capture(videoUrl, p))
      case None => None
  }

  /**
   * An ID taken from a URL is a maximal non-empty run of characters other
   * than `&`, `?` and `/`, found right after `watch?v=`, `embed/` or
   * `youtu.be/`.
   */
  lemma ExtractFromUrlShape(videoUrl: string)
    requires ExtractVideoId([], videoUrl).Some?
    ensures exists j: nat :: UrlIdAt(videoUrl, ExtractVideoId([], videoUrl).value, j)
  {
    var p := FirstMatch(videoUrl, 0).value;
    CaptureShape(videoUrl, p);
  }

  lemma CaptureShape(url: string, p: nat)
    requires MatchAt(url, p)
    ensures UrlIdAt(url, Capture(url, p), CaptureStart(url, p))
  {
    var j := CaptureStart(url, p);
    var n := PrefixAt(url, p).value;
    var id := Capture(url, p);
    assert |id| == IdRun(url, j) > 0;
    assert url[..j][j - n..] == url[p..j];
    if OccursAt(url, WatchPrefix, p) {
      assert EndsWith(url[..j], WatchPrefix);
    } else if OccursAt(url, EmbedPrefix, p) {
      assert EndsWith(url[..j], EmbedPrefix);
    } else {
      assert EndsWith(url[..j], ShortPrefix);
    }
  }

  /** `id` sits at `j` in `url`, after a recognised prefix, and cannot be extended. */
  predicate UrlIdAt(url: string, id: string, j: nat)
  {
    && id != []
    && j + |id| <= |url| && url[j..j + |id|] == id
    && (forall i :: 0 <= i < |id| ==> IsIdChar(id[i]))
    && (j + |id| == |url| || !IsIdChar(url[j + |id|]))
    && (EndsWith(url[..j], WatchPrefix) || EndsWith(url[..j], EmbedPrefix) || EndsWith(url[..j], ShortPrefix))
  }

  /** Without an explicit ID, nothing is extracted exactly when the pattern matches nowhere. */
  lemma ExtractFromUrlNone(videoUrl: string)
    ensures ExtractVideoId([], videoUrl).None? <==> forall p: nat :: !MatchAt(videoUrl, p)
  {
    if videoUrl == [] {
      assert forall p: nat :: !MatchAt(videoUrl, p) by {
        forall p: nat ensures !MatchAt(videoUrl, p) {
          assert !OccursAt(videoUrl, WatchPrefix, p) && !OccursAt(videoUrl, EmbedPrefix, p) && !OccursAt(videoUrl, ShortPrefix, p);
        }
      }
    }
  }

  // ---------------------------------------------------------------------
  // Lessons.
  // ---------------------------------------------------------------------

  /** The course an action targets: its id and its owner. */
  datatype CourseInfo = CourseInfo(id: nat, owner: nat)

  /**
   * The body of an `add_lesson` request. A missing text field is `""`,
   * except where the action supplies a default other than `""`.
   */
  datatype LessonRequest = LessonRequest(
    title: string,
    videoId: string,
    videoUrl: string,
    duration: Option<string>,
    description: string,
    transcript: string,
    transcriptLanguage: Option<string>,
    manualTranscript: string)

  /** The URL stored with a lesson: the one given, else the watch page of its ID. */
  function LessonUrl(videoUrl: string, videoId: string): (r: string)
    ensures videoUrl != [] ==> r == videoUrl
    ensures videoUrl == [] ==> r == "https://www.youtube.com/watch?v=" + videoId
  {
    if videoUrl != [] then videoUrl else "https://www.youtube.com/watch?v=" + videoId
  }

  /**
   * The order `add_lesson` gives a new lesson AS WRITTEN: the number of
   * lessons the course has now.
   */
  function NextOrderAsWritten(lessons: seq<Lesson>, course: nat): (n: nat)
    ensures n <= |lessons|
    ensures n == 0 <==> forall i :: 0 <= i < |lessons| ==> lessons[i].course != course
  {
    LessonCount(lessons, course)
  }

  /**
   * The order a new lesson should get: one past the largest order in the
   * course, 0 for a course without lessons.
   */
  function NextOrder(lessons: seq<Lesson>, course: nat): (n: nat)
    ensures forall i :: 0 <= i < |lessons| && lessons[i].course == course ==> lessons[i].order < n
    ensures n == 0 || exists i :: 0 <= i < |lessons| && lessons[i].course == course && lessons[i].order + 1 == n
  {
    if lessons == [] then 0
    else
      var last := lessons[|lessons| - 1];
      var rest := NextOrder(lessons[..|lessons| - 1], course);
      if last.course == course && last.order + 1 > rest then last.order + 1 else rest
  }

  /**
   * While the orders of a course are exactly 0 to n - 1 for its n lessons,
   * counting and taking one past the largest order agree.
   */
  lemma NextOrderMatchesCount(lessons: seq<Lesson>, course: nat)
    requires forall i :: 0 <= i < |lessons| && lessons[i].course == course ==> lessons[i].order < LessonCount(lessons, course)
    requires forall k :: 0 <= k < LessonCount(lessons, course) ==> OrderTaken(lessons, course, k)
    ensures NextOrder(lessons, course) == NextOrderAsWritten(lessons, course)
  {
    var n := LessonCount(lessons, course);
    if n > 0 {
      assert OrderTaken(lessons, course, n - 1);
    }
  }

  /** Some lesson of the course has order `k`. */
  predicate OrderTaken(lessons: seq<Lesson>, course: nat, k: nat)
  {
    exists i :: 0 <= i < |lessons| && lessons[i].course == course && lessons[i].order == k
  }

  /**
   * Counting gives an order already taken once an earlier lesson is deleted:
   * a course with lessons of order 0 and 1 loses the first, and the next
   * lesson gets order 1 again, which `unique_together` refuses.
   */
  lemma AddAfterDeleteCollides(first: Lesson, second: Lesson, added: Lesson)
    requires first.course == second.course == added.course
    requires first.order == 0 && second.order == 1
    requires added.order == NextOrderAsWritten([second], second.course)
    ensures UniqueOrders([first, second])
    ensures !UniqueOrders([second, added])
  {
    assert LessonCount([second], second.course) == LessonCount([], second.course) + 1;
    assert [second, added][0] == second && [second, added][1] == added;
  }

  /** The lesson `add_lesson` creates for a request whose title and video ID are present. */
  function NewLesson(id: nat, course: nat, req: LessonRequest, videoId: string, order: nat): Lesson
  {
    Lesson(id, course, req.title, videoId, LessonUrl(req.videoUrl, videoId),
           req.duration.GetOr(UnknownDuration), order, req.description, req.transcript,
           req.transcriptLanguage.GetOr(DefaultLanguage), req.manualTranscript, None)
  }

  /** A new lesson ordered by `NextOrder` keeps the orders of its course distinct. */
  lemma {:induction false} AppendKeepsUniqueOrders(lessons: seq<Lesson>, l: Lesson)
    requires UniqueOrders(lessons)
    requires l.order == NextOrder(lessons, l.course)
    ensures UniqueOrders(lessons + [l])
  {
    var s := lessons + [l];
    forall i, j | 0 <= i < |s| && 0 <= j < |s| && i != j && s[i].course == s[j].course
      ensures s[i].order != s[j].order
    {
      if i == |lessons| {
        assert s[j] == lessons[j];
      } else if j == |lessons| {
        assert s[i] == lessons[i];
      } else {
        assert s[i] == lessons[i] && s[j] == lessons[j];
      }
    }
  }

  /** Removing lessons keeps the orders of each course distinct. */
  lemma {:induction false} RemoveKeepsUniqueOrders(lessons: seq<Lesson>, k: nat)
    requires UniqueOrders(lessons) && k < |lessons|
    ensures UniqueOrders(lessons[..k] + lessons[k + 1..])
  {
    var s := lessons[..k] + lessons[k + 1..];
    forall i, j | 0 <= i < |s| && 0 <= j < |s| && i != j && s[i].course == s[j].course
      ensures s[i].order != s[j].order
    {
      var i' := if i < k then i else i + 1;
      var j' := if j < k then j else j + 1;
      assert s[i] == lessons[i'] && s[j] == lessons[j'];
    }
  }

  /** The position of the lesson with a given id, if there is one. */
  function FindLesson(lessons: seq<Lesson>, id: nat): (r: Option<nat>)
    ensures r.Some? ==> r.value < |lessons| && lessons[r.value].id == id
    ensures r.None? ==> forall i :: 0 <= i < |lessons| ==> lessons[i].id != id
  {
    if lessons == [] then None
    else if lessons[|lessons| - 1].id == id then Some(|lessons| - 1)
    else FindLesson(lessons[..|lessons| - 1], id)
  }

  // ---------------------------------------------------------------------
  // Purchases and tips.
  // ---------------------------------------------------------------------

  /** A course's `CoursePricing` row (the default row when none exists). */
  datatype Pricing = Pricing(isPaid: bool, price: int, currency: string, allowTips: bool)

  /** What the views read of a `Payment` row. */
  datatype PaymentRow = PaymentRow(id: nat, user: nat, status: PaymentStatus, currency: string)

  /** `Payment.objects.get(id=..., user=...)`. */
  function FindPayment(payments: seq<PaymentRow>, id: nat, user: nat): (r: Option<PaymentRow>)
    ensures r.Some? ==> r.value in payments && r.value.id == id && r.value.user == user
    ensures r.None? ==> forall p :: p in payments ==> !(p.id == id && p.user == user)
  {
    if payments == [] then None
    else if payments[0].id == id && payments[0].user == user then Some(payments[0])
    else FindPayment(payments[1..], id, user)
  }

  /** A `ContentPurchase`: a user's unlock of one course. */
  datatype Purchase = Purchase(user: nat, course: nat, amount: int, currency: string, payment: nat)

  /** A `CreatorTip`. */
  datatype Tip = Tip(fromUser: nat, toCreator: nat, course: nat, amount: int, currency: string, message: string, payment: nat)

  /** A refused request: its HTTP status and its detail. */
  datatype Refusal = Refusal(status: int, detail: string)

  /** `payment_id` is truthy: present and not the number 0; `None` stands for any other falsy value. */
  predicate GivenPaymentId(paymentId: Option<nat>)
  {
    paymentId.Some? && paymentId.value != 0
  }

  /**
   * Why `purchase` refuses, checked in the source's order: the owner, a free
   * course, a missing or falsy payment id, an unknown payment, an unfinished
   * payment.
   */
  function PurchaseRefusal(course: CourseInfo, pricing: Pricing, user: nat, paymentId: Option<nat>,
                           payments: seq<PaymentRow>): (r: Option<Refusal>)
    ensures user == course.owner ==> r == Some(Refusal(400, "You already own this course."))
    ensures user != course.owner && !(pricing.isPaid && pricing.price > 0) ==> r.Some? && r.value.status == 400
    ensures user != course.owner && pricing.isPaid && pricing.price > 0 && !GivenPaymentId(paymentId) ==>
      r == Some(Refusal(400, "payment_id is required"))
    ensures r.None? <==>
      && user != course.owner && pricing.isPaid && pricing.price > 0 && GivenPaymentId(paymentId)
      && FindPayment(payments, paymentId.value, user).Some?
      && FindPayment(payments, paymentId.value, user).value.status == Completed
  {
    if user == course.owner then Some(Refusal(400, "You already own this course."))
    else if !pricing.isPaid || pricing.price <= 0 then Some(Refusal(400, "Course is not paid; no purchase needed."))
    else if !GivenPaymentId(paymentId) then Some(Refusal(400, "payment_id is required"))
    else match FindPayment(payments, paymentId.value, user)
      case None => Some(Refusal(404, "Payment not found"))
      case Some(p) =>
        if p.status != Completed then Some(Refusal(400, "Payment must be completed before unlocking content."))
        else None
  }

  /** `get_or_create(user=..., course=...)` finds a row. */
  predicate HasPurchase(purchases: seq<Purchase>, user: nat, course: nat)
  {
    exists i :: 0 <= i < |purchases| && purchases[i].user == user && purchases[i].course == course
  }

  /** At most one purchase per user and course. */
  predicate OnePurchaseEach(purchases: seq<Purchase>)
  {
    forall i, j :: 0 <= i < j < |purchases| ==> !(purchases[i].user == purchases[j].user && purchases[i].course == purchases[j].course)
  }

  /** The longest tip message stored. */
  const TipMessageLimit: nat := 280

  /** `message[:280]`. */
  function TipMessage(message: string): (r: string)
    ensures |r| <= TipMessageLimit && |r| <= |message| && r == message[..|r|]
    ensures |message| <= TipMessageLimit ==> r == message
  {
    if |message| <= TipMessageLimit then message else message[..TipMessageLimit]
  }

  /**
   * Why `tip` refuses, in the source's order: tips disabled, amount or
   * payment id missing, an amount that is not a positive number, an unknown
   * payment, an unfinished payment.
   */
  function TipRefusal(pricing: Pricing, user: nat, amount: AmountField, paymentId: Option<nat>,
                      payments: seq<PaymentRow>): (r: Option<Refusal>)
    ensures pricing.allowTips && (amount.NoAmount? || !GivenPaymentId(paymentId)) ==>
      r == Some(Refusal(400, "amount and payment_id are required"))
    ensures r.None? <==>
      && pricing.allowTips && amount.Amount? && amount.value > 0 && GivenPaymentId(paymentId)
      && FindPayment(payments, paymentId.value, user).Some?
      && FindPayment(payments, paymentId.value, user).value.status == Completed
    ensures r.Some? ==> r.value.status == 400 || r.value.status == 404
  {
    if !pricing.allowTips then Some(Refusal(400, "Tips are disabled for this course."))
    else if amount.NoAmount? || !GivenPaymentId(paymentId) then Some(Refusal(400, "amount and payment_id are required"))
    else if amount.Unparseable? || amount.value <= 0 then Some(Refusal(400, "Invalid amount"))
    else match FindPayment(payments, paymentId.value, user)
      case None => Some(Refusal(404, "Payment not found"))
      case Some(p) =>
        if p.status != Completed then Some(Refusal(400, "Payment must be completed to send a tip."))
        else None
  }

  // ---------------------------------------------------------------------
  // Transcript fetching.
  // ---------------------------------------------------------------------

  /**
   * What `extract_complete_video_data` gives back: a transcript (and the
   * video's duration when the metadata has a truthy one), a failure with
   * its error, or an exception.
   */
  datatype FetchOutcome =
    | Fetched(transcript: string, duration: Option<string>)
    | NotFetched(error: string)
    | Raised(error: string)

  /** The reply of `fetch_transcript`. */
  datatype TranscriptReply = TranscriptReply(status: int, success: bool, transcript: string, source: string, canPasteManual: bool)

  /** The lesson after a successful fetch: transcript, language, time, and missing metadata filled in. */
  function FetchedLesson(l: Lesson, language: string, t: string, duration: Option<string>, now: int): (r: Lesson)
    ensures r.transcript == t && r.transcriptLanguage == language && r.transcriptFetchedAt == Some(now)
    ensures r.videoUrl == LessonUrl(l.videoUrl, l.videoId)
    ensures r.duration == (if l.duration == UnknownDuration && duration.Some? && duration.value != [] then duration.value else l.duration)
    ensures r.(transcript := l.transcript, transcriptLanguage := l.transcriptLanguage,
               transcriptFetchedAt := l.transcriptFetchedAt, videoUrl := l.videoUrl, duration := l.duration) == l
  {
    var withUrl := if l.videoUrl == [] then l.(videoUrl := LessonUrl(l.videoUrl, l.videoId)) else l;
    var withDuration :=
      if l.duration == UnknownDuration && duration.Some? && duration.value != [] then withUrl.(duration := duration.value)
      else withUrl;
    withDuration.(transcript := t, transcriptLanguage := language, transcriptFetchedAt := Some(now))
  }

  /** The reply when fetching failed (`status` 422) or raised (`status` 500). */
  function FallbackReply(l: Lesson, status: int): (r: TranscriptReply)
    ensures l.manualTranscript != [] ==> r.success && r.status == 200 && r.transcript == l.manualTranscript && r.source == "manual"
    ensures l.manualTranscript == [] ==> !r.success && r.status == status && r.canPasteManual
  {
    if l.manualTranscript != [] then TranscriptReply(200, true, l.manualTranscript, "manual", false)
    else TranscriptReply(status, false, [], "", true)
  }

  // ---------------------------------------------------------------------
  // Quiz generation: the transcript sent to the model and the clean-up of
  // its reply.
  // ---------------------------------------------------------------------

  /** How much of the transcript goes into the prompt. */
  const PromptTranscriptLimit: nat := 3000

  /**
   * `generate_quiz`'s transcript: none when the lesson has neither transcript
   * (a 400 reply), else the first 3000 characters of `get_transcript`.
   */
  function PromptTranscript(l: Lesson): (r: Option<string>)
    ensures r.None? <==> GetTranscript(l) == []
    ensures r.Some? ==> |r.value| <= PromptTranscriptLimit && |r.value| <= |GetTranscript(l)|
    ensures r.Some? ==> r.value == GetTranscript(l)[..|r.value|]
    ensures r.Some? && |GetTranscript(l)| <= PromptTranscriptLimit ==> r.value == GetTranscript(l)
  {
    var t := GetTranscript(l);
    if t == [] then None
    else if |t| <= PromptTranscriptLimit then Some(t)
    else Some(t[..PromptTranscriptLimit])
  }

  const JsonFence: string := "```json"
  const Fence: string := "```"

  /** Drop a leading "```json", then a leading "```", then a trailing "```". */
  function Unfenced(s0: string): (r: string)
    ensures |r| <= |s0| && (s0 == [] ==> r == [])
  {
    var s1 := if StartsWith(s0, JsonFence) then s0[|JsonFence|..] else s0;
    var s2 := if StartsWith(s1, Fence) then s1[|Fence|..] else s1;
    if EndsWith(s2, Fence) then s2[..|s2| - |Fence|] else s2
  }

  /**
   * The reply clean-up: strip, drop a leading "```json", then a leading
   * "```", then a trailing "```", and strip again.
   */
  function StripFences(text: string): (r: string)
    ensures |r| <= |text|
    ensures r != [] ==> !IsSpace(Py, r[0]) && !IsSpace(Py, r[|r| - 1])
    ensures IsBlank(Py, text) ==> r == []
  {
    TrimShape(Py, text);
    var s3 := Unfenced(Trim(Py, text));
    TrimShape(Py, s3);
    Trim(Py, s3)
  }

  /** The fences come off a "```json" fenced body that does not start with a backquote. */
  lemma UnfencedJson(body: string)
    requires !StartsWith(body, "`")
    ensures Unfenced(JsonFence + body + Fence) == body
  {
    var text := JsonFence + body + Fence;
    assert text[..|JsonFence|] == JsonFence;
    var s1 := text[|JsonFence|..];
    assert s1 == body + Fence;
    if body == [] {
      assert s1 == Fence;
      assert s1[|Fence|..] == [];
    } else {
      assert body[..1] == [body[0]];
      assert s1[0] == body[0] != Fence[0];
      assert s1[..|Fence|][0] == s1[0];
      assert s1[|s1| - |Fence|..] == Fence;
      assert s1[..|s1| - |Fence|] == body;
    }
  }

  /** A reply wrapped in a "```json" fence comes back as the stripped body. */
  lemma StripJsonFence(body: string)
    requires !StartsWith(body, "`")
    ensures StripFences(JsonFence + body + Fence) == Trim(Py, body)
  {
    var text := JsonFence + body + Fence;
    assert text[0] == '`' && text[|text| - 1] == '`';
    TrimOfTrimmed(Py, text);
    UnfencedJson(body);
  }

  /** A reply without fences is only stripped. */
  lemma StripNoFence(text: string)
    requires !StartsWith(Trim(Py, text), "`") && !EndsWith(Trim(Py, text), "`")
    ensures StripFences(text) == Trim(Py, text)
  {
    var s0 := Trim(Py, text);
    TrimShape(Py, text);
    if s0 != [] {
      assert s0[..1] == [s0[0]];
      assert s0[|s0| - 1..] == [s0[|s0| - 1]];
      if |JsonFence| <= |s0| {
        assert s0[..|JsonFence|][0] == s0[0];
      }
      if |Fence| <= |s0| {
        assert s0[..|Fence|][0] == s0[0];
        assert s0[|s0| - |Fence|..][2] == s0[|s0| - 1];
      }
      TrimOfTrimmed(Py, s0);
    }
  }

  // ---------------------------------------------------------------------
  // The rows the actions create and rewrite.
  // ---------------------------------------------------------------------

  class CourseStore {
    var lessons: seq<Lesson>
    var nextLessonId: nat
    var purchases: seq<Purchase>
    var tips: seq<Tip>

    /** The table's constraints: distinct orders per course, fresh ids, one purchase per user and course. */
    predicate Valid()
      reads this
    {
      && UniqueOrders(lessons)
      && (forall i :: 0 <= i < |lessons| ==> lessons[i].id < nextLessonId)
      && OnePurchaseEach(purchases)
    }

    constructor ()
      ensures Valid()
      ensures lessons == [] && purchases == [] && tips == []
    {
      lessons := [];
      nextLessonId := 0;
      purchases := [];
      tips := [];
    }

    /**
     * `add_lesson`: only the owner may add (403); a title and a video ID are
     * required (400); the new lesson goes after the course's others with a
     * fresh order, and its URL defaults to the watch page of its ID.
     */
    method AddLesson(course: CourseInfo, user: nat, req: LessonRequest) returns (status: int, created: Option<Lesson>)
      requires Valid()
      modifies this`lessons, this`nextLessonId
      ensures Valid()
      ensures user != course.owner ==> status == 403
      ensures var id := ExtractVideoId(req.videoId, req.videoUrl);
        user == course.owner && (req.title == [] || id.None? || id.value == []) ==> status == 400
      ensures status != 201 ==> created == None && lessons == old(lessons) && nextLessonId == old(nextLessonId)
      ensures status == 201 <==>
        user == course.owner && req.title != [] && ExtractVideoId(req.videoId, req.videoUrl).Some?
        && ExtractVideoId(req.videoId, req.videoUrl).value != []
      ensures status == 201 ==>
        && created == Some(NewLesson(old(nextLessonId), course.id, req, ExtractVideoId(req.videoId, req.videoUrl).value,
                                     NextOrder(old(lessons), course.id)))
        && lessons == old(lessons) + [created.value]
    {
      if user != course.owner {
        return 403, None;
      }
      var videoId := ExtractVideoId(req.videoId, req.videoUrl);
      if req.title == [] || videoId.None? || videoId.value == [] {
        return 400, None;
      }
      var lesson := NewLesson(nextLessonId, course.id, req, videoId.value, NextOrder(lessons, course.id));
      AppendKeepsUniqueOrders(lessons, lesson);
      lessons := lessons + [lesson];
      nextLessonId := nextLessonId + 1;
      return 201, Some(lesson);
    }

    /**
     * `perform_destroy`: an unknown lesson is 404; only the owner of its
     * course (`owner` maps a course to its owner) may delete it (403).
     */
    method DeleteLesson(lessonId: nat, user: nat, owner: nat -> nat) returns (status: int)
      requires Valid()
      modifies this`lessons
      ensures Valid()
      ensures FindLesson(old(lessons), lessonId).None? ==> status == 404 && lessons == old(lessons)
      ensures FindLesson(old(lessons), lessonId).Some? ==>
        var k := FindLesson(old(lessons), lessonId).value;
        if owner(old(lessons)[k].course) != user then status == 403 && lessons == old(lessons)
        else status == 204 && lessons == old(lessons)[..k] + old(lessons)[k + 1..]
    {
      var k := FindLesson(lessons, lessonId);
      if k.None? {
        return 404;
      }
      if owner(lessons[k.value].course) != user {
        return 403;
      }
      RemoveKeepsUniqueOrders(lessons, k.value);
      lessons := lessons[..k.value] + lessons[k.value + 1..];
      return 204;
    }

    /**
     * `purchase`: refused as `PurchaseRefusal` says; a user who already
     * unlocked the course gets 200 "Course already unlocked." and no new
     * row; otherwise one purchase at the course's price is recorded (201).
     */
    method BuyCourse(course: CourseInfo, pricing: Pricing, user: nat, paymentId: Option<nat>,
                     payments: seq<PaymentRow>) returns (status: int, detail: string)
      requires Valid()
      modifies this`purchases
      ensures Valid()
      ensures var refusal := PurchaseRefusal(course, pricing, user, paymentId, payments);
        refusal.Some? ==> status == refusal.value.status && detail == refusal.value.detail && purchases == old(purchases)
      ensures PurchaseRefusal(course, pricing, user, paymentId, payments).None? && HasPurchase(old(purchases), user, course.id)
        ==> status == 200 && detail == "Course already unlocked." && purchases == old(purchases)
      ensures PurchaseRefusal(course, pricing, user, paymentId, payments).None? && !HasPurchase(old(purchases), user, course.id)
        ==> status == 201 && purchases == old(purchases) + [Purchase(user, course.id, pricing.price, pricing.currency, paymentId.value)]
      ensures HasPurchase(purchases, user, course.id) <==> HasPurchase(old(purchases), user, course.id) || status == 201
    {
      var refusal := PurchaseRefusal(course, pricing, user, paymentId, payments);
      if refusal.Some? {
        return refusal.value.status, refusal.value.detail;
      }
      if HasPurchase(purchases, user, course.id) {
        return 200, "Course already unlocked.";
      }
      var p := Purchase(user, course.id, pricing.price, pricing.currency, paymentId.value);
      purchases := purchases + [p];
      assert purchases[|purchases| - 1] == p;
      return 201, "";
    }

    /**
     * `tip`: refused as `TipRefusal` says; otherwise one tip to the course's
     * owner, in the payment's currency, with the message cut to 280
     * characters (201).
     */
    method SendTip(course: CourseInfo, pricing: Pricing, user: nat, amount: AmountField, paymentId: Option<nat>,
                   message: string, payments: seq<PaymentRow>) returns (status: int, detail: string)
      modifies this`tips
      ensures var refusal := TipRefusal(pricing, user, amount, paymentId, payments);
        refusal.Some? ==> status == refusal.value.status && detail == refusal.value.detail && tips == old(tips)
      ensures TipRefusal(pricing, user, amount, paymentId, payments).None? ==>
        status == 201
        && tips == old(tips) + [Tip(user, course.owner, course.id, amount.value,
                                   FindPayment(payments, paymentId.value, user).value.currency,
                                   TipMessage(message), paymentId.value)]
    {
      var refusal := TipRefusal(pricing, user, amount, paymentId, payments);
      if refusal.Some? {
        return refusal.value.status, refusal.value.detail;
      }
      var payment := FindPayment(payments, paymentId.value, user).value;
      tips := tips + [Tip(user, course.owner, course.id, amount.value, payment.currency, TipMessage(message), paymentId.value)];
      return 201, "";
    }

    /**
     * `fetch_transcript` for the lesson at `k`: a stored transcript is served
     * as is unless a refresh is forced; a fetched one is saved with its
     * language, time and missing metadata; a failure or an exception falls
     * back to the manual transcript, or asks for one (422 or 500).
     */
    method FetchTranscript(k: nat, language: string, forceRefresh: bool, outcome: FetchOutcome, now: int)
      returns (reply: TranscriptReply)
      requires Valid() && k < |lessons|
      modifies this`lessons
      ensures Valid()
      ensures var l := old(lessons)[k];
        l.transcript != [] && !forceRefresh ==>
          reply == TranscriptReply(200, true, l.transcript, "cached", false) && lessons == old(lessons)
      ensures var l := old(lessons)[k];
        !(l.transcript != [] && !forceRefresh) ==>
          match outcome
          case Fetched(t, d) =>
            reply == TranscriptReply(200, true, t, "youtube", false)
            && lessons == old(lessons)[k := FetchedLesson(l, language, t, d, now)]
          case NotFetched(_) => reply == FallbackReply(l, 422) && lessons == old(lessons)
          case Raised(_) => reply == FallbackReply(l, 500) && lessons == old(lessons)
    {
      var l := lessons[k];
      if l.transcript != [] && !forceRefresh {
        return TranscriptReply(200, true, l.transcript, "cached", false);
      }
      match outcome {
        case Fetched(t, d) =>
          var fetched := FetchedLesson(l, language, t, d, now);
          SameKeys(lessons, k, fetched);
          lessons := lessons[k := fetched];
          reply := TranscriptReply(200, true, t, "youtube", false);
        case NotFetched(_) =>
          reply := FallbackReply(l, 422);
        case Raised(_) =>
          reply := FallbackReply(l, 500);
      }
    }

    /**
     * `update_manual_transcript` for the lesson at `k`: only the course owner
     * (403), and only with a non-empty transcript (400).
     */
    method UpdateManualTranscript(k: nat, user: nat, courseOwner: nat, manual: string) returns (status: int)
      requires Valid() && k < |lessons|
      modifies this`lessons
      ensures Valid()
      ensures user != courseOwner ==> status == 403 && lessons == old(lessons)
      ensures user == courseOwner && manual == [] ==> status == 400 && lessons == old(lessons)
      ensures user == courseOwner && manual != [] ==>
        status == 200 && lessons == old(lessons)[k := old(lessons)[k].(manualTranscript := manual)]
    {
      if user != courseOwner {
        return 403;
      }
      if manual == [] {
        return 400;
      }
      var updated := lessons[k].(manualTranscript := manual);
      SameKeys(lessons, k, updated);
      lessons := lessons[k := updated];
      return 200;
    }
  }

  /** Rewriting one lesson's content, not its id, course or order, keeps the table's constraints. */
  lemma SameKeys(lessons: seq<Lesson>, k: nat, l: Lesson)
    requires k < |lessons| && l.id == lessons[k].id && l.course == lessons[k].course && l.order == lessons[k].order
    ensures UniqueOrders(lessons) ==> UniqueOrders(lessons[k := l])
    ensures forall i :: 0 <= i < |lessons[k := l]| ==> lessons[k := l][i].id == lessons[i].id
  {
  }

  /**
   * A fetched, non-empty transcript is served from the lesson afterwards:
   * the next fetch without a forced refresh answers "cached" with it.
   */
  lemma FetchedThenCached(l: Lesson, language: string, t: string, d: Option<string>, now: int)
    requires t != []
    ensures FetchedLesson(l, language, t, d, now).transcript == t
    ensures GetTranscript(FetchedLesson(l, language, t, d, now)) == t
  {
  }
}
