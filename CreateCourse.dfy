/**
 * The course builder (components/CreateCoursePage.tsx). The page keeps a
 * list of lesson objects; its handlers copy the list and then change the
 * fields of a lesson object in place, so a lesson is a class here and the
 * form holds a sequence of them. Checking a video is asynchronous: the
 * check is split into the part before the fetch and the part after it, and
 * the fetch's outcome is a parameter.
 */
module CreateCourse {
  import opened Wrappers
  import opened Text
  import App
  import SetupSession

  /** `TIER_LIMITS[tier].lessonsPerCourse`, the page's `lessonLimit`; `None` is `Infinity`. */
  function LessonLimit(tier: App.Tier): (r: Option<nat>)
    ensures r.Some? <==> App.Rank(tier) <= 1
  {
    match tier
    case Free => Some(5)
    case Learner => Some(25)
    case _ => None
  }

  /** A higher tier never allows fewer lessons. */
  lemma LessonLimitMonotone(a: App.Tier, b: App.Tier)
    requires App.Rank(a) <= App.Rank(b)
    ensures LessonLimit(b).Some? ==> LessonLimit(a).Some? && LessonLimit(a).value <= LessonLimit(b).value
  {
  }

  /** This page's `extractVideoId`: the captured id, or the text unchanged when the pattern matches nowhere. */
  function ExtractOrUrl(url: string): (r: string)
    ensures SetupSession.ExtractVideoId(url).Some? ==> r == SetupSession.ExtractVideoId(url).value
    ensures SetupSession.ExtractVideoId(url).None? ==> r == url
  {
    match SetupSession.ExtractVideoId(url)
    case Some(id) => id
    case None => url
  }

  /** The guard of `validateVideo`: the extracted text is eleven characters long. */
  predicate GuardPasses(url: string)
  {
    |ExtractOrUrl(url)| == 11
  }

  /** The guard passes exactly for a recognised link, or for any eleven characters typed in directly. */
  lemma GuardMeaning(url: string)
    ensures GuardPasses(url) <==> SetupSession.ExtractVideoId(url).Some? || |url| == 11
  {
    if SetupSession.ExtractVideoId(url).Some? {
      SetupSession.ExtractShape(url);
    }
  }

  /** A bare video id is kept as it is: it is shorter than `youtube.com/`, and the `.` of `youtu.be/` is not an id character. */
  lemma BareIdKept(id: string)
    requires SetupSession.IsVideoId(id)
    ensures ExtractOrUrl(id) == id
  {
    forall m: nat | m <= |id| ensures !SetupSession.HostAt(id, m) {
      if m + 9 <= |id| {
        assert id[m..m + 9][5] != SetupSession.ShortHost[5] by { assert SetupSession.IsIdChar(id[m + 5]); }
      }
    }
    SetupSession.NoHostNoId(id, 0);
  }

  /** What the metadata request answers. */
  datatype Metadata = Metadata(
    title: string,
    description: Option<string>,
    duration: Option<nat>,
    hasTranscript: Option<bool>,
    thumbnail: Option<string>)

  /** The outcome of the two requests `Promise.all` waits for: both answered (the metadata may be `null`), or one threw. */
  datatype Fetch = Fetched(metadata: Option<Metadata>, transcript: Option<string>) | Failed

  /** What a lesson keeps about its video once checked. */
  datatype VideoInfo = VideoInfo(
    title: string,
    description: Option<string>,
    duration: Option<nat>,
    hasTranscript: Option<bool>,
    thumbnail: Option<string>,
    transcript: Option<string>)

  const Unknown := "Unknown"
  const InvalidId := "Invalid YouTube URL or Video ID"
  const NotFound := "Video not found or unavailable"
  const Unvalidated := "Please validate all video URLs before creating the course."

  /** The `videoInfo` built from an answer; a missing or empty title reads `Unknown`. */
  function InfoOf(metadata: Option<Metadata>, transcript: Option<string>): (r: VideoInfo)
    ensures r.title != ""
    ensures metadata.Some? && metadata.value.title != "" ==> r.title == metadata.value.title
    ensures r.transcript == transcript
  {
    match metadata
    case None => VideoInfo(Unknown, None, None, None, None, transcript)
    case Some(m) =>
      VideoInfo(if m.title != "" then m.title else Unknown, m.description, m.duration, m.hasTranscript, m.thumbnail, transcript)
  }

  /** The fields of a lesson, as a value. */
  datatype LessonState = LessonState(
    title: string,
    videoId: string,
    validated: bool,
    validating: bool,
    error: Option<string>,
    info: Option<VideoInfo>)

  /** `{ title: '', videoId: '' }`: the other fields are unset. */
  const BlankLesson := LessonState("", "", false, false, None, None)

  /** The two inputs of a lesson row. */
  datatype LessonField = Title | VideoId

  /** `handleLessonChange` on one lesson: the field is set, and a new video also forgets the last check. */
  function Changed(s: LessonState, field: LessonField, value: string): (r: LessonState)
  {
    match field
    case Title => s.(title := value)
    case VideoId => s.(videoId := value, validated := false, error := None, info := None)
  }

  /** A title edit keeps the check; a video edit leaves the lesson unchecked, with no error and no video details. */
  lemma ChangedMeaning(s: LessonState, field: LessonField, value: string)
    ensures var r := Changed(s, field, value);
      && (field == Title ==> r.title == value && r.videoId == s.videoId && r.validated == s.validated && r.info == s.info)
      && (field == VideoId ==> r.videoId == value && r.title == s.title && !r.validated && r.error.None? && r.info.None?)
  {
  }

  /** The lesson after the guard of `validateVideo` refused its video. */
  function Refused(s: LessonState): (r: LessonState)
  {
    s.(error := Some(InvalidId), validated := false)
  }

  /** The lesson after the fetch settled: checked with its details, or unchecked with an error. */
  function Settled(s: LessonState, outcome: Fetch): (r: LessonState)
  {
    match outcome
    case Fetched(metadata, transcript) =>
      var title := if s.title == "" && metadata.Some? && metadata.value.title != "" then metadata.value.title else s.title;
      s.(validated := true, validating := false, info := Some(InfoOf(metadata, transcript)), error := None, title := title)
    case Failed => s.(validated := false, validating := false, error := Some(NotFound))
  }

  /**
   * A settled lesson is checked exactly when both requests answered, and
   * then has no error; a typed title is never overwritten, and an empty one
   * takes the video's title when there is one.
   */
  lemma SettledMeaning(s: LessonState, outcome: Fetch)
    ensures var r := Settled(s, outcome);
      && !r.validating && r.videoId == s.videoId
      && (r.validated <==> outcome.Fetched?)
      && (r.validated ==> r.error.None? && r.info.Some? && r.info.value.title != "")
      && (!r.validated ==> r.error == Some(NotFound) && r.info == s.info)
      && (s.title != "" ==> r.title == s.title)
      && (outcome.Fetched? && outcome.metadata.Some? && outcome.metadata.value.title != "" && s.title == "" ==> r.title == outcome.metadata.value.title)
  {
  }

  /** `m:ss` for a known, non-zero duration in seconds, else `N/A`. */
  function FormatDuration(duration: Option<nat>): (r: string)
  {
    if duration.None? || duration.value == 0 then "N/A"
    else NatToString(duration.value / 60) + ":" + Pad2(duration.value % 60)
  }

  /** The index of the first `:` in `s`, or `|s|` when there is none. */
  function FirstColon(s: string): (k: nat)
    ensures k <= |s|
  {
    if s == [] || s[0] == ':' then 0 else 1 + FirstColon(s[1..])
  }

  /** After a run of digits, the first colon is the one that ends the run. */
  lemma {:induction false} FirstColonAfterDigits(a: string, b: string)
    requires forall i :: 0 <= i < |a| ==> IsDigit(a[i])
    ensures FirstColon(a + ":" + b) == |a|
  {
    if a != [] {
      assert (a + ":" + b)[1..] == a[1..] + ":" + b;
      FirstColonAfterDigits(a[1..], b);
    }
  }

  /** Text made only of digits, a colon, and digits again splits at its only colon. */
  lemma ColonSplit(a1: string, b1: string, a2: string, b2: string)
    requires forall i :: 0 <= i < |a1| ==> IsDigit(a1[i])
    requires forall i :: 0 <= i < |a2| ==> IsDigit(a2[i])
    requires a1 + ":" + b1 == a2 + ":" + b2
    ensures a1 == a2 && b1 == b2
  {
    var s := a1 + ":" + b1;
    FirstColonAfterDigits(a1, b1);
    FirstColonAfterDigits(a2, b2);
    assert a1 == s[..|a1|] == a2;
    assert b1 == s[|a1| + 1..] == b2;
  }

  /** Known durations are never shown as `N/A`, and different durations are shown differently. */
  lemma FormatDurationInjective(a: nat, b: nat)
    requires a > 0 && b > 0
    ensures FormatDuration(Some(a)) != "N/A"
    ensures FormatDuration(Some(a)) == FormatDuration(Some(b)) ==> a == b
  {
    var r := FormatDuration(Some(a));
    assert r[|NatToString(a / 60)|] == ':';
    assert "N/A"[1] == '/';
    if r == FormatDuration(Some(b)) {
      ColonSplit(NatToString(a / 60), Pad2(a % 60), NatToString(b / 60), Pad2(b % 60));
      NatToStringInjective(a / 60, b / 60);
      Pad2RoundTrip(a % 60);
      Pad2RoundTrip(b % 60);
    }
  }

  /** One lesson of the course handed to `onCourseCreated`. */
  datatype CourseLesson = CourseLesson(
    title: string,
    videoId: string,
    isCompleted: bool,
    duration: string,
    thumbnail: Option<string>,
    transcript: Option<string>)

  datatype CourseData = CourseData(
    title: string,
    description: string,
    isPublic: bool,
    lessons: seq<CourseLesson>,
    thumbnail: string)

  const Placeholder := "/placeholder.svg"

  /** A lesson as the course records it. */
  function Published(s: LessonState): (r: CourseLesson)
    ensures r.title == s.title && r.videoId == ExtractOrUrl(s.videoId) && !r.isCompleted
  {
    var duration := if s.info.Some? then s.info.value.duration else None;
    var thumbnail := if s.info.Some? then s.info.value.thumbnail else None;
    var transcript := if s.info.Some? then s.info.value.transcript else None;
    CourseLesson(s.title, ExtractOrUrl(s.videoId), false, FormatDuration(duration), thumbnail, transcript)
  }

  function PublishAll(states: seq<LessonState>): (r: seq<CourseLesson>)
    ensures |r| == |states|
    ensures forall i :: 0 <= i < |r| ==> r[i] == Published(states[i])
  {
    if states == [] then [] else [Published(states[0])] + PublishAll(states[1..])
  }

  /**
   * The browser's check of the `required` inputs (course title, description,
   * and each lesson's title and video): an empty one blocks the submit
   * before `handleSubmit` runs. The text is the browser's own prompt.
   */
  const FieldMissing := "Please fill out this field."

  predicate RequiredFilled(title: string, description: string, states: seq<LessonState>)
  {
    title != [] && description != []
    && forall i :: 0 <= i < |states| ==> states[i].title != [] && states[i].videoId != []
  }

  /**
   * Submitting the form: blocked while a required input is empty; then
   * `handleSubmit` refuses while a lesson is unchecked; otherwise the
   * course, its lessons in order.
   */
  function SubmitCourse(title: string, description: string, isPublic: bool, states: seq<LessonState>): (r: Result<CourseData, string>)
    ensures r.Failure? <==> !RequiredFilled(title, description, states) || exists i :: 0 <= i < |states| && !states[i].validated
    ensures !RequiredFilled(title, description, states) ==> r == Failure(FieldMissing)
    ensures RequiredFilled(title, description, states) && r.Failure? ==> r.error == Unvalidated
    ensures r.Success? ==> r.value.title == title && r.value.description == description && r.value.isPublic == isPublic
    ensures r.Success? ==> r.value.title != [] && r.value.lessons == PublishAll(states)
    ensures r.Success? ==> forall i :: 0 <= i < |r.value.lessons| ==> r.value.lessons[i].title != []
  {
    if !RequiredFilled(title, description, states) then Failure(FieldMissing)
    else if exists i :: 0 <= i < |states| && !states[i].validated then Failure(Unvalidated)
    else Success(CourseData(title, description, isPublic, PublishAll(states), Placeholder))
  }

  /** When every checked lesson passed the guard, every lesson of a created course carries an eleven-character video id. */
  lemma SubmittedIdsChecked(title: string, description: string, isPublic: bool, states: seq<LessonState>)
    requires forall i :: 0 <= i < |states| && states[i].validated ==> GuardPasses(states[i].videoId)
    ensures var r := SubmitCourse(title, description, isPublic, states);
      r.Success? ==> forall i :: 0 <= i < |r.value.lessons| ==> |r.value.lessons[i].videoId| == 11
  {
  }

  /** A lesson whose video was just edited blocks the course until it is checked again. */
  lemma EditBlocksSubmit(title: string, description: string, isPublic: bool, states: seq<LessonState>, index: nat, value: string)
    requires index < |states|
    ensures SubmitCourse(title, description, isPublic, states[index := Changed(states[index], VideoId, value)]).Failure?
    ensures var after := states[index := Changed(states[index], VideoId, value)];
      RequiredFilled(title, description, after) ==> SubmitCourse(title, description, isPublic, after) == Failure(Unvalidated)
  {
    var after := states[index := Changed(states[index], VideoId, value)];
    assert !after[index].validated;
  }

  /** The list `lessons.filter((_, i) => i !== index)` leaves. */
  function Without<T>(s: seq<T>, index: int): (r: seq<T>)
    ensures 0 <= index < |s| ==> |r| == |s| - 1
    ensures 0 <= index < |s| ==> forall k :: 0 <= k < |r| ==> r[k] == if k < index then s[k] else s[k + 1]
    ensures !(0 <= index < |s|) ==> r == s
  {
    if 0 <= index < |s| then s[..index] + s[index + 1..] else s
  }

  /** A lesson row. */
  class Lesson {
    var title: string
    var videoId: string
    var validated: bool
    var validating: bool
    var error: Option<string>
    var info: Option<VideoInfo>

    constructor ()
      ensures State() == BlankLesson
    {
      title, videoId := "", "";
      validated, validating := false, false;
      error, info := None, None;
    }

    function State(): LessonState
      reads this
    {
      LessonState(title, videoId, validated, validating, error, info)
    }
  }

  function StatesOf(lessons: seq<Lesson>): (r: seq<LessonState>)
    reads lessons
    ensures |r| == |lessons|
    ensures forall i :: 0 <= i < |lessons| ==> r[i] == lessons[i].State()
  {
    if lessons == [] then [] else [lessons[0].State()] + StatesOf(lessons[1..])
  }

  /** The form: its lesson rows and the plan's limit on them. */
  class CourseForm {
    var lessons: seq<Lesson>
    const lessonLimit: Option<nat>

    /**
     * No lesson object appears twice, and a lesson marked checked holds a
     * video that passes the guard.
     */
    ghost predicate Valid()
      reads this, lessons
    {
      && (forall i, j :: 0 <= i < j < |lessons| ==> lessons[i] != lessons[j])
      && (forall i :: 0 <= i < |lessons| && lessons[i].validated ==> GuardPasses(lessons[i].videoId))
    }

    /** The page opens with one blank lesson. */
    constructor (lessonLimit: Option<nat>)
      ensures Valid() && this.lessonLimit == lessonLimit
      ensures |lessons| == 1 && fresh(lessons[0]) && lessons[0].State() == BlankLesson
    {
      var first := new Lesson();
      lessons := [first];
      this.lessonLimit := lessonLimit;
    }

    /** `atLessonLimit`, which also disables the add button. */
    predicate AtLimit()
      reads this
    {
      lessonLimit.Some? && |lessons| >= lessonLimit.value
    }

    /** `handleAddLesson`: at the limit, a redirect to the pricing page; otherwise one blank lesson more. */
    method AddLesson() returns (toPricing: bool)
      requires Valid()
      modifies this`lessons
      ensures Valid()
      ensures toPricing <==> old(AtLimit())
      ensures toPricing ==> lessons == old(lessons)
      ensures !toPricing ==> |lessons| == |old(lessons)| + 1 && lessons[..|old(lessons)|] == old(lessons)
      ensures !toPricing ==> fresh(lessons[|lessons| - 1]) && lessons[|lessons| - 1].State() == BlankLesson
      ensures lessonLimit.Some? && |old(lessons)| <= lessonLimit.value ==> |lessons| <= lessonLimit.value
    {
      if AtLimit() {
        return true;
      }
      var lesson := new Lesson();
      lessons := lessons + [lesson];
      toPricing := false;
    }

    /** The remove button is disabled while only one lesson is left. */
    predicate RemoveEnabled()
      reads this
    {
      |lessons| > 1
    }

    /** `handleRemoveLesson`: the lesson at `index` goes, the others keep their order; with the button enabled, one remains at least. */
    method RemoveLesson(index: int)
      requires Valid()
      modifies this`lessons
      ensures Valid()
      ensures lessons == Without(old(lessons), index)
      ensures old(RemoveEnabled()) ==> |lessons| >= 1
    {
      var before := lessons;
      lessons := Without(lessons, index);
      if 0 <= index < |before| {
        forall i, j | 0 <= i < j < |lessons| ensures lessons[i] != lessons[j] {
          var oi := if i < index then i else i + 1;
          var oj := if j < index then j else j + 1;
          assert lessons[i] == before[oi] && lessons[j] == before[oj];
        }
      }
    }

    /** `handleLessonChange`: only the lesson at `index` changes, as `Changed` says. */
    method LessonChange(index: nat, field: LessonField, value: string)
      requires Valid() && index < |lessons|
      modifies lessons[index]
      ensures Valid()
      ensures lessons[index].State() == Changed(old(lessons[index].State()), field, value)
    {
      var lesson := lessons[index];
      match field {
        case Title =>
          lesson.title := value;
        case VideoId =>
          lesson.videoId := value;
          lesson.validated := false;
          lesson.error := None;
          lesson.info := None;
      }
    }

    /**
     * `validateVideo` up to the fetch. A video that fails the guard is
     * marked with an error and nothing is fetched; otherwise the lesson is
     * marked as being checked, and the copy of the list taken now and the
     * id to fetch are returned.
     */
    method BeginValidation(index: nat) returns (pending: Option<(seq<Lesson>, string)>)
      requires Valid() && index < |lessons|
      modifies lessons[index]
      ensures Valid()
      ensures pending.None? <==> !GuardPasses(old(lessons[index].videoId))
      ensures pending.None? ==> lessons[index].State() == Refused(old(lessons[index].State()))
      ensures pending.Some? ==> lessons[index].State() == old(lessons[index].State()).(validating := true)
      ensures pending.Some? ==> pending.value == (lessons, ExtractOrUrl(lessons[index].videoId)) && |pending.value.1| == 11
    {
      var lesson := lessons[index];
      var id := ExtractOrUrl(lesson.videoId);
      if |id| != 11 {
        lesson.error := Some(InvalidId);
        lesson.validated := false;
        return None;
      }
      lesson.validating := true;
      pending := Some((lessons, id));
    }

    /**
     * `validateVideo` after the fetch, as written: the outcome is recorded
     * on the lesson of the copy taken before the fetch, and the list is
     * replaced by that copy.
     */
    method FinishValidationAsWritten(snapshot: seq<Lesson>, index: nat, outcome: Fetch)
      requires index < |snapshot|
      modifies this`lessons, snapshot[index]
      ensures lessons == snapshot
      ensures snapshot[index].State() == Settled(old(snapshot[index].State()), outcome)
    {
      var lesson := snapshot[index];
      match outcome {
        case Fetched(metadata, transcript) =>
          lesson.validated := true;
          lesson.validating := false;
          lesson.info := Some(InfoOf(metadata, transcript));
          lesson.error := None;
          if lesson.title == "" && metadata.Some? && metadata.value.title != "" {
            lesson.title := metadata.value.title;
          }
        case Failed =>
          lesson.validated := false;
          lesson.validating := false;
          lesson.error := Some(NotFound);
      }
      lessons := snapshot;
    }

    /**
     * `validateVideo` after the fetch, as intended: the list is left as it
     * now is, and the outcome is recorded only while the lesson still
     * holds the video that was fetched; otherwise only the checking mark
     * is cleared.
     */
    method FinishValidation(lesson: Lesson, id: string, outcome: Fetch)
      requires Valid() && |id| == 11
      modifies lesson
      ensures Valid()
      ensures ExtractOrUrl(old(lesson.videoId)) == id ==> lesson.State() == Settled(old(lesson.State()), outcome)
      ensures ExtractOrUrl(old(lesson.videoId)) != id ==> lesson.State() == old(lesson.State()).(validating := false)
    {
      if ExtractOrUrl(lesson.videoId) != id {
        lesson.validating := false;
        return;
      }
      match outcome {
        case Fetched(metadata, transcript) =>
          lesson.validated := true;
          lesson.validating := false;
          lesson.info := Some(InfoOf(metadata, transcript));
          lesson.error := None;
          if lesson.title == "" && metadata.Some? && metadata.value.title != "" {
            lesson.title := metadata.value.title;
          }
        case Failed =>
          lesson.validated := false;
          lesson.validating := false;
          lesson.error := Some(NotFound);
      }
    }

    /** `handleSubmit`: the course made of the lessons as they now are, or the refusal; every created lesson's video id is eleven characters long. */
    method Submit(title: string, description: string, isPublic: bool) returns (r: Result<CourseData, string>)
      requires Valid()
      ensures r == SubmitCourse(title, description, isPublic, StatesOf(lessons))
      ensures r.Success? ==> forall i :: 0 <= i < |r.value.lessons| ==> |r.value.lessons[i].videoId| == 11
    {
      var states := StatesOf(lessons);
      SubmittedIdsChecked(title, description, isPublic, states);
      r := SubmitCourse(title, description, isPublic, states);
    }
  }

  const SampleId := "dQw4w9WgXcQ"
  const Typo := "x"

  /**
   * The race in the code as written: a check of the first lesson is
   * started; while it is pending a second lesson is added and the first
   * lesson's video is replaced by text that fails the guard. When the
   * check succeeds, the added lesson is gone and the first lesson is marked
   * checked with a video that was never checked.
   */
  method StaleValidationAsWritten() returns (countBefore: nat, countAfter: nat, checked: bool, guard: bool)
    ensures countBefore == 2 && countAfter == 1
    ensures checked && !guard
  {
    var form := new CourseForm(None);
    form.LessonChange(0, VideoId, SampleId);
    assert GuardPasses(SampleId) by { GuardMeaning(SampleId); }
    var pending := form.BeginValidation(0);
    var toPricing := form.AddLesson();
    form.LessonChange(0, VideoId, Typo);
    countBefore := |form.lessons|;
    assert !GuardPasses(Typo) by { GuardMeaning(Typo); }
    form.FinishValidationAsWritten(pending.value.0, 0, Fetched(None, None));
    countAfter := |form.lessons|;
    checked := form.lessons[0].validated;
    guard := GuardPasses(form.lessons[0].videoId);
  }

  /** The same steps with the intended completion: both lessons stay, and the edited lesson stays unchecked. */
  method StaleValidationCorrected() returns (countBefore: nat, countAfter: nat, checked: bool)
    ensures countBefore == 2 && countAfter == 2
    ensures !checked
  {
    var form := new CourseForm(None);
    form.LessonChange(0, VideoId, SampleId);
    assert GuardPasses(SampleId) by { GuardMeaning(SampleId); }
    var first := form.lessons[0];
    var pending := form.BeginValidation(0);
    var toPricing := form.AddLesson();
    form.LessonChange(0, VideoId, Typo);
    countBefore := |form.lessons|;
    assert ExtractOrUrl(Typo) == Typo by { GuardMeaning(Typo); }
    form.FinishValidation(first, pending.value.1, Fetched(None, None));
    countAfter := |form.lessons|;
    checked := form.lessons[0].validated;
  }
}
