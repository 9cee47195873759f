/**
 * The front end's top-level state (App.tsx): the courses, assessments and
 * community posts the pages share, the user's tier and the current view.
 * The state updaters are pure functions over the lists; the handlers are
 * methods of a class whose fields are the component's state.
 */
module App {
  import opened Wrappers
  import SetupSession

  datatype View =
    | Dashboard | CoursesView | AssessmentsView | Community | NewSession | LearningSession | CourseDetail
    | ExamDetail | CreateCourse | CreateExam | GenerateAiQuiz | AdminPanel | Billing | StudyGroups
    | Profile | Discussions

  datatype Tier = Free | Learner | Pro | ProPlus | Admin

  /** A course's progress: a whole percentage, or `NaN` when it has no lessons to divide by. */
  datatype Percent = Pct(value: int) | NaN

  datatype Lesson = Lesson(id: nat, title: string, videoId: string, isCompleted: bool, duration: string,
                           transcript: string, thumbnail: Option<string>)

  datatype Course = Course(id: nat, title: string, description: string, progress: Percent, thumbnail: string,
                           isPublic: bool, lessons: seq<Lesson>)

  datatype Assessment = Assessment(id: nat, status: string)

  datatype Comment = Comment(author: string, content: string)

  datatype Post = Post(id: nat, author: string, time: string, content: string, likes: int,
                       comments: seq<Comment>, liked: bool)

  /** The fields of a `Partial<Lesson>` update; an absent one keeps the lesson's value. */
  datatype LessonPatch = LessonPatch(title: Option<string>, videoId: Option<string>, isCompleted: Option<bool>,
                                     duration: Option<string>, transcript: Option<string>)

  /** What a learning session is opened with. */
  datatype SessionData = SessionData(videoId: string, transcript: string, courseId: nat, lessonId: nat)

  // ---------------------------------------------------------------- posts

  /** `handleToggleLike`'s updater: every post with the id flips `liked` and moves `likes` by one. */
  function ToggleLikeIn(posts: seq<Post>, id: nat): (r: seq<Post>)
    ensures |r| == |posts|
    ensures forall i :: 0 <= i < |posts| && posts[i].id != id ==> r[i] == posts[i]
    ensures forall i :: 0 <= i < |posts| && posts[i].id == id ==>
      && r[i].liked == !posts[i].liked
      && r[i].likes == (if posts[i].liked then posts[i].likes - 1 else posts[i].likes + 1)
      && r[i] == posts[i].(liked := r[i].liked, likes := r[i].likes)
  {
    seq(|posts|, i requires 0 <= i < |posts| =>
      var p := posts[i];
      if p.id == id then p.(liked := !p.liked, likes := if p.liked then p.likes - 1 else p.likes + 1) else p)
  }

  /** Toggling a like twice restores the posts. */
  lemma ToggleLikeTwice(posts: seq<Post>, id: nat)
    ensures ToggleLikeIn(ToggleLikeIn(posts, id), id) == posts
  {
    var once := ToggleLikeIn(posts, id);
    var twice := ToggleLikeIn(once, id);
    assert forall i :: 0 <= i < |posts| ==> twice[i] == posts[i];
  }

  /** A liked post shows one like more than the same post unliked. */
  lemma ToggleLikeCount(posts: seq<Post>, id: nat, i: nat)
    requires i < |posts| && posts[i].id == id
    ensures var q := ToggleLikeIn(posts, id)[i];
      (q.liked ==> q.likes == posts[i].likes + 1) && (!q.liked ==> q.likes == posts[i].likes - 1)
  {
  }

  /** `user.username || 'User'`. */
  function AuthorName(username: string): (r: string)
    ensures r != []
    ensures username != [] ==> r == username
  {
    if username == [] then "User" else username
  }

  /** `handleAddComment`'s updater: every post with the id gets the comment at the end of its comments. */
  function AddCommentTo(posts: seq<Post>, id: nat, username: string, content: string): (r: seq<Post>)
    ensures |r| == |posts|
    ensures forall i :: 0 <= i < |posts| && posts[i].id != id ==> r[i] == posts[i]
    ensures forall i :: 0 <= i < |posts| && posts[i].id == id ==>
      r[i] == posts[i].(comments := posts[i].comments + [Comment(AuthorName(username), content)])
  {
    seq(|posts|, i requires 0 <= i < |posts| =>
      var p := posts[i];
      if p.id == id then p.(comments := p.comments + [Comment(AuthorName(username), content)]) else p)
  }

  /** Liking and commenting touch different fields, so their order does not matter. */
  lemma LikeAndCommentCommute(posts: seq<Post>, a: nat, b: nat, username: string, content: string)
    ensures ToggleLikeIn(AddCommentTo(posts, a, username, content), b)
         == AddCommentTo(ToggleLikeIn(posts, b), a, username, content)
  {
    var x := ToggleLikeIn(AddCommentTo(posts, a, username, content), b);
    var y := AddCommentTo(ToggleLikeIn(posts, b), a, username, content);
    assert forall i :: 0 <= i < |posts| ==> x[i] == y[i];
  }

  /** `posts.filter(p => p.id !== id)`. */
  function WithoutPost(posts: seq<Post>, id: nat): (r: seq<Post>)
    ensures |r| <= |posts|
    ensures forall q :: q in r <==> q in posts && q.id != id
    ensures |posts| == 1 ==> r == if posts[0].id == id then [] else posts
  {
    if posts == [] then []
    else if posts[|posts| - 1].id == id then WithoutPost(posts[..|posts| - 1], id)
    else WithoutPost(posts[..|posts| - 1], id) + [posts[|posts| - 1]]
  }

  /** Filtering distributes over concatenation: each part loses its own posts with the id, in place. */
  lemma {:induction false} WithoutPostAppend(a: seq<Post>, b: seq<Post>, id: nat)
    ensures WithoutPost(a + b, id) == WithoutPost(a, id) + WithoutPost(b, id)
  {
    if b == [] {
      assert a + b == a;
    } else {
      var last := b[|b| - 1];
      InitAppend(a, b);
      WithoutPostAppend(a, b[..|b| - 1], id);
      Associative(WithoutPost(a, id), WithoutPost(b[..|b| - 1], id), if last.id == id then [] else [last]);
    }
  }

  /** Filtering keeps the posts without the id, in order: it changes nothing when none has it. */
  lemma {:induction false} WithoutAbsent(posts: seq<Post>, id: nat)
    requires forall i :: 0 <= i < |posts| ==> posts[i].id != id
    ensures WithoutPost(posts, id) == posts
  {
    if posts != [] {
      WithoutAbsent(posts[..|posts| - 1], id);
      assert posts[..|posts| - 1] + [posts[|posts| - 1]] == posts;
    }
  }

  /** Deleting twice deletes no more than once. */
  lemma WithoutPostIdempotent(posts: seq<Post>, id: nat)
    ensures WithoutPost(WithoutPost(posts, id), id) == WithoutPost(posts, id)
  {
    var once := WithoutPost(posts, id);
    assert forall i :: 0 <= i < |once| ==> once[i] in once;
    WithoutAbsent(once, id);
  }

  /** `handleDeletePost`: only an admin who confirms removes the post. */
  function DeletePostIn(posts: seq<Post>, tier: Tier, confirmed: bool, id: nat): (r: seq<Post>)
    ensures tier != Admin || !confirmed ==> r == posts
    ensures tier == Admin && confirmed ==> forall q :: q in r <==> q in posts && q.id != id
    ensures tier == Admin && confirmed ==> r == WithoutPost(posts, id)
  {
    if tier != Admin then posts
    else if confirmed then WithoutPost(posts, id)
    else posts
  }

  // -------------------------------------------------------------- lessons

  /** `{ ...lesson, ...updates }`. */
  function Patched(l: Lesson, u: LessonPatch): (r: Lesson)
    ensures r.id == l.id && r.thumbnail == l.thumbnail
    ensures r.isCompleted == (if u.isCompleted.Some? then u.isCompleted.value else l.isCompleted)
  {
    Lesson(l.id, u.title.GetOr(l.title), u.videoId.GetOr(l.videoId), u.isCompleted.GetOr(l.isCompleted),
           u.duration.GetOr(l.duration), u.transcript.GetOr(l.transcript), l.thumbnail)
  }

  /** The number of completed lessons. */
  function CompletedCount(lessons: seq<Lesson>): (n: nat)
    ensures n <= |lessons|
  {
    if lessons == [] then 0
    else CompletedCount(lessons[..|lessons| - 1]) + (if lessons[|lessons| - 1].isCompleted then 1 else 0)
  }

  /** `Math.round(completed / total * 100)`, `NaN` for no lessons. */
  function ProgressOf(lessons: seq<Lesson>): Percent
  {
    if lessons == [] then NaN
    else Pct((200 * CompletedCount(lessons) + |lessons|) / (2 * |lessons|))
  }

  /**
   * The progress is the completed share in percent rounded to the nearest
   * whole number, halves up: within half a point of `100 * completed /
   * total`, between 0 and 100, 0 with nothing completed and 100 with
   * everything completed.
   */
  lemma ProgressIsRounded(lessons: seq<Lesson>)
    requires lessons != []
    ensures var p := ProgressOf(lessons).value;
      var c, n := CompletedCount(lessons), |lessons|;
      && 2 * n * p - n <= 200 * c < 2 * n * p + n
      && 0 <= p <= 100
      && (c == 0 ==> p == 0)
      && (c == n ==> p == 100)
  {
    RoundedShare(CompletedCount(lessons), |lessons|);
  }

  /** `(200c + n) / 2n` is `100c / n` rounded, halves up, for `c <= n`. */
  lemma RoundedShare(c: nat, n: nat)
    requires 0 < n && c <= n
    ensures var p := (200 * c + n) / (2 * n);
      && 2 * n * p - n <= 200 * c < 2 * n * p + n
      && 0 <= p <= 100
      && (c == 0 ==> p == 0)
      && (c == n ==> p == 100)
  {
    var d := 2 * n;
    var x := 200 * c + n;
    var p := x / d;
    assert x == d * p + x % d && 0 <= x % d < d;
    assert d * p <= x < d * p + d;
    if p > 100 {
      MulAtLeast(d, p, 101);
      assert false;
    }
    if c == 0 {
      assert d * 0 <= x < d * 0 + d;
      DivUnique(x, d, 0);
    }
    if c == n {
      assert x == d * 100 + n;
      DivUnique(x, d, 100);
    }
  }

  /** The quotient is the one multiple that fits. */
  lemma DivUnique(x: nat, d: nat, q: nat)
    requires 0 < d && d * q <= x < d * q + d
    ensures x / d == q
  {
    var p := x / d;
    assert d * p <= x < d * p + d;
    assert d * (q + 1) == d * q + d && d * (p + 1) == d * p + d;
    if p > q {
      MulAtLeast(d, p, q + 1);
      assert false;
    } else if p < q {
      MulAtLeast(d, q, p + 1);
      assert false;
    }
  }

  lemma MulAtLeast(d: nat, p: nat, q: nat)
    requires p >= q
    ensures d * p >= d * q
  {
    assert d * p == d * q + d * (p - q);
  }

  /** The lessons with the given id patched, the others untouched. */
  function PatchLessons(lessons: seq<Lesson>, lessonId: nat, u: LessonPatch): (r: seq<Lesson>)
    ensures |r| == |lessons|
    ensures forall i :: 0 <= i < |lessons| ==> r[i] == if lessons[i].id == lessonId then Patched(lessons[i], u) else lessons[i]
  {
    seq(|lessons|, i requires 0 <= i < |lessons| =>
      if lessons[i].id == lessonId then Patched(lessons[i], u) else lessons[i])
  }

  /** `handleUpdateLesson`'s updater. */
  function UpdateLessonIn(courses: seq<Course>, courseId: nat, lessonId: nat, u: LessonPatch): (r: seq<Course>)
    ensures |r| == |courses|
    ensures forall i :: 0 <= i < |courses| && courses[i].id != courseId ==> r[i] == courses[i]
    ensures forall i :: 0 <= i < |courses| && courses[i].id == courseId ==>
      var lessons := PatchLessons(courses[i].lessons, lessonId, u);
      r[i] == courses[i].(lessons := lessons, progress := ProgressOf(lessons))
  {
    seq(|courses|, i requires 0 <= i < |courses| =>
      var c := courses[i];
      if c.id != courseId then c
      else
        var lessons := PatchLessons(c.lessons, lessonId, u);
        c.(lessons := lessons, progress := ProgressOf(lessons)))
  }

  /** Marking lessons completed never lowers a course's completed count. */
  lemma {:induction false} CompletingNeverLowers(lessons: seq<Lesson>, lessonId: nat, u: LessonPatch)
    requires u.isCompleted == Some(true)
    ensures CompletedCount(PatchLessons(lessons, lessonId, u)) >= CompletedCount(lessons)
  {
    if lessons != [] {
      var init := lessons[..|lessons| - 1];
      var r := PatchLessons(lessons, lessonId, u);
      assert r[..|r| - 1] == PatchLessons(init, lessonId, u);
      CompletingNeverLowers(init, lessonId, u);
    }
  }

  // ---------------------------------------------------------------- score

  /** The completed lessons of all courses. */
  function CompletedLessons(courses: seq<Course>): nat
  {
    if courses == [] then 0
    else CompletedLessons(courses[..|courses| - 1]) + CompletedCount(courses[|courses| - 1].lessons)
  }

  /** The assessments whose status is `completed`. */
  function CompletedAssessments(assessments: seq<Assessment>): (n: nat)
    ensures n <= |assessments|
  {
    if assessments == [] then 0
    else CompletedAssessments(assessments[..|assessments| - 1]) + (if assessments[|assessments| - 1].status == "completed" then 1 else 0)
  }

  /** `userScore`: 50 points per completed lesson, 100 per completed assessment. */
  function Score(courses: seq<Course>, assessments: seq<Assessment>): nat
  {
    50 * CompletedLessons(courses) + 100 * CompletedAssessments(assessments)
  }

  /** Completing lessons never lowers the score. */
  lemma {:induction false} CompletingNeverLowersScore(courses: seq<Course>, assessments: seq<Assessment>,
                                                     courseId: nat, lessonId: nat, u: LessonPatch)
    requires u.isCompleted == Some(true)
    ensures Score(UpdateLessonIn(courses, courseId, lessonId, u), assessments) >= Score(courses, assessments)
  {
    CompletedLessonsGrow(courses, courseId, lessonId, u);
  }

  lemma {:induction false} CompletedLessonsGrow(courses: seq<Course>, courseId: nat, lessonId: nat, u: LessonPatch)
    requires u.isCompleted == Some(true)
    ensures CompletedLessons(UpdateLessonIn(courses, courseId, lessonId, u)) >= CompletedLessons(courses)
  {
    if courses != [] {
      var init := courses[..|courses| - 1];
      var last := courses[|courses| - 1];
      var r := UpdateLessonIn(courses, courseId, lessonId, u);
      assert r[..|r| - 1] == UpdateLessonIn(init, courseId, lessonId, u);
      CompletedLessonsGrow(init, courseId, lessonId, u);
      if last.id == courseId {
        CompletingNeverLowers(last.lessons, lessonId, u);
      }
    }
  }

  // ---------------------------------------------------------------- tiers

  /** `handleTierChange`: the new tier, and the view it leads to. */
  function TierChange(view: View, newTier: Tier): (r: (Tier, View))
    ensures r.0 == newTier
    ensures newTier == Admin ==> r.1 == AdminPanel
    ensures newTier != Admin ==> r.1 != AdminPanel && (view != AdminPanel ==> r.1 == view)
    ensures newTier != Admin && view == AdminPanel ==> r.1 == Dashboard
  {
    if newTier == Admin && view != AdminPanel then (newTier, AdminPanel)
    else if newTier != Admin && view == AdminPanel then (newTier, Dashboard)
    else (newTier, view)
  }

  /** Choosing the same tier again changes nothing more. */
  lemma TierChangeIdempotent(view: View, newTier: Tier)
    ensures TierChange(TierChange(view, newTier).1, newTier) == TierChange(view, newTier)
  {
  }

  /** `TIER_LIMITS[tier].courses`; `None` is `Infinity`. */
  function CourseLimit(tier: Tier): Option<nat>
  {
    match tier
    case Free => Some(1)
    case Learner => Some(5)
    case _ => None
  }

  /** The number of the user's own (not public) courses. */
  function PrivateCount(courses: seq<Course>): (n: nat)
    ensures n <= |courses|
  {
    if courses == [] then 0
    else PrivateCount(courses[..|courses| - 1]) + (if courses[|courses| - 1].isPublic then 0 else 1)
  }

  /** `navigateToCreateCourse`: billing once the own courses reach the tier's limit. */
  function CreateCourseView(courses: seq<Course>, tier: Tier): (v: View)
    ensures v == Billing <==> CourseLimit(tier).Some? && PrivateCount(courses) >= CourseLimit(tier).value
    ensures v == Billing || v == CreateCourse
  {
    var limit := CourseLimit(tier);
    if limit.Some? && PrivateCount(courses) >= limit.value then Billing else CreateCourse
  }

  /** A tier's place in the upgrade order. */
  function Rank(tier: Tier): nat
  {
    match tier
    case Free => 0
    case Learner => 1
    case Pro => 2
    case ProPlus => 3
    case Admin => 4
  }

  /** A higher tier never sends to billing a user a lower tier lets create a course. */
  lemma UpgradeNeverBlocks(courses: seq<Course>, lower: Tier, higher: Tier)
    requires Rank(lower) <= Rank(higher)
    ensures CreateCourseView(courses, lower) == CreateCourse ==> CreateCourseView(courses, higher) == CreateCourse
  {
  }

  /** Pro and above are never sent to billing. */
  lemma UnlimitedTiers(courses: seq<Course>, tier: Tier)
    requires Rank(tier) >= 2
    ensures CreateCourseView(courses, tier) == CreateCourse
  {
  }

  // -------------------------------------------------------------- session

  /** What a learning session is started with. */
  datatype SessionPayload = SessionPayload(videoId: string, transcript: string, title: Option<string>,
                                           courseId: Option<nat>, lessonId: Option<nat>)

  const PersonalTitle: string := "Personal Learning"

  /** A JavaScript id is truthy when present and not 0. */
  predicate Given(id: Option<nat>)
  {
    id.Some? && id.value != 0
  }

  function ThumbnailOf(videoId: string): string
  {
    "https://i.ytimg.com/vi/" + videoId + "/maxresdefault.jpg"
  }

  /** `courses.find(c => c.title === title)`. */
  function FindByTitle(courses: seq<Course>, title: string): (r: Option<Course>)
    ensures r.Some? ==> r.value in courses && r.value.title == title
    ensures r.None? ==> forall c :: c in courses ==> c.title != title
  {
    if courses == [] then None
    else if courses[0].title == title then Some(courses[0])
    else FindByTitle(courses[1..], title)
  }

  /** `courses.find(c => c.id === id)`. */
  function FindById(courses: seq<Course>, id: nat): (r: Option<Course>)
    ensures r.Some? ==> r.value in courses && r.value.id == id
    ensures r.None? ==> forall c :: c in courses ==> c.id != id
  {
    if courses == [] then None
    else if courses[0].id == id then Some(courses[0])
    else FindById(courses[1..], id)
  }

  /** `lessons.find(l => l.videoId === videoId)`. */
  function FindByVideo(lessons: seq<Lesson>, videoId: string): (r: Option<Lesson>)
    ensures r.Some? ==> r.value in lessons && r.value.videoId == videoId
    ensures r.None? ==> forall l :: l in lessons ==> l.videoId != videoId
  {
    if lessons == [] then None
    else if lessons[0].videoId == videoId then Some(lessons[0])
    else FindByVideo(lessons[1..], videoId)
  }

  /** Every course with the id gets the lesson at the end of its lessons. */
  function AddLessonTo(courses: seq<Course>, courseId: nat, l: Lesson): (r: seq<Course>)
    ensures |r| == |courses|
    ensures forall i :: 0 <= i < |courses| ==>
      r[i] == if courses[i].id == courseId then courses[i].(lessons := courses[i].lessons + [l]) else courses[i]
  {
    seq(|courses|, i requires 0 <= i < |courses| =>
      if courses[i].id == courseId then courses[i].(lessons := courses[i].lessons + [l]) else courses[i])
  }

  /** `title || 'Untitled Session'`: an absent or empty title falls through to the default. */
  function LessonTitle(title: Option<string>): (r: string)
    ensures r != ""
    ensures r == "Untitled Session" <==> title.None? || title.value == "" || title.value == "Untitled Session"
    ensures title.Some? && title.value != "" ==> r == title.value
  {
    if title.Some? && title.value != "" then title.value else "Untitled Session"
  }

  /**
   * `handleSessionCreated`: the target course is the one given, else the
   * "Personal Learning" course, created (with id `courseStamp`) when there
   * is none; the lesson is the one given, else the target course's lesson
   * with the same video, else a new lesson (with id `lessonStamp`) added to
   * the target course. Lookups see the courses as they were before the
   * call, as the handler's closure does.
   */
  function SessionCreated(courses: seq<Course>, p: SessionPayload, courseStamp: nat, lessonStamp: nat)
    : (seq<Course>, SessionData)
  {
    var personal := FindByTitle(courses, PersonalTitle);
    var withCourse :=
      if Given(p.courseId) || personal.Some? then courses
      else courses + [Course(courseStamp, PersonalTitle, "Your auto-saved learning sessions.", Pct(0),
                             ThumbnailOf(p.videoId), false, [])];
    var courseId :=
      if Given(p.courseId) then p.courseId.value
      else if personal.Some? then personal.value.id
      else courseStamp;
    if Given(p.lessonId) then
      (withCourse, SessionData(p.videoId, p.transcript, courseId, p.lessonId.value))
    else
      var course := FindById(courses, courseId);
      var existing := if course.Some? then FindByVideo(course.value.lessons, p.videoId) else None;
      if existing.Some? then
        (withCourse, SessionData(p.videoId, p.transcript, courseId, existing.value.id))
      else
        var lesson := Lesson(lessonStamp, LessonTitle(p.title), p.videoId, false, "N/A",
                             p.transcript, Some(ThumbnailOf(p.videoId)));
        (AddLessonTo(withCourse, courseId, lesson), SessionData(p.videoId, p.transcript, courseId, lessonStamp))
  }

  /**
   * Without a lesson id, a session on a video the target course already
   * has reuses that lesson and adds none; otherwise exactly one lesson with
   * the video is appended to the target course.
   */
  lemma SessionReusesLesson(courses: seq<Course>, p: SessionPayload, courseStamp: nat, lessonStamp: nat)
    requires !Given(p.lessonId) && Given(p.courseId)
    ensures var (after, session) := SessionCreated(courses, p, courseStamp, lessonStamp);
      var course := FindById(courses, p.courseId.value);
      && session.courseId == p.courseId.value
      && (course.Some? && FindByVideo(course.value.lessons, p.videoId).Some? ==>
            after == courses && session.lessonId == FindByVideo(course.value.lessons, p.videoId).value.id)
      && (!(course.Some? && FindByVideo(course.value.lessons, p.videoId).Some?) ==>
            session.lessonId == lessonStamp
            && |after| == |courses|
            && forall i :: 0 <= i < |courses| && courses[i].id == p.courseId.value ==>
                 after[i].lessons == courses[i].lessons + [after[i].lessons[|after[i].lessons| - 1]]
                 && after[i].lessons[|after[i].lessons| - 1].videoId == p.videoId
                 && after[i].lessons[|after[i].lessons| - 1].title == LessonTitle(p.title)
                 && after[i].lessons[|after[i].lessons| - 1].transcript == p.transcript)
  {
  }

  /** Without a course id, the session goes to the existing "Personal Learning" course, or to a new one at the end. */
  lemma SessionPersonalCourse(courses: seq<Course>, p: SessionPayload, courseStamp: nat, lessonStamp: nat)
    requires !Given(p.courseId)
    ensures var (after, session) := SessionCreated(courses, p, courseStamp, lessonStamp);
      var personal := FindByTitle(courses, PersonalTitle);
      && (personal.Some? ==> session.courseId == personal.value.id && |after| == |courses|)
      && (personal.None? ==>
            && session.courseId == courseStamp && |after| == |courses| + 1
            && after[|courses|].title == PersonalTitle && !after[|courses|].isPublic)
  {
  }

  // ------------------------------------------------ hand-off from the setup page

  /**
   * The one argument `handleSessionCreated` receives: the payload object, or
   * the string a caller passed as its first positional argument.
   */
  datatype SessionArg = PayloadArg(payload: SessionPayload) | StringArg(s: string)

  /** The fields `const { videoId, transcript, title, courseId, lessonId } = payload` reads, `None` for `undefined`. */
  datatype Received = Received(videoId: Option<string>, transcript: Option<string>, title: Option<string>,
                               courseId: Option<nat>, lessonId: Option<nat>)

  /** Destructuring reads the object's fields; a string primitive has none of them. */
  function Destructure(arg: SessionArg): (r: Received)
    ensures arg.StringArg? ==> r.videoId.None? && r.transcript.None? && r.title.None?
                               && r.courseId.None? && r.lessonId.None?
    ensures arg.PayloadArg? ==> r.videoId == Some(arg.payload.videoId) && r.transcript == Some(arg.payload.transcript)
  {
    match arg
    case StringArg(_) => Received(None, None, None, None, None)
    case PayloadArg(p) => Received(Some(p.videoId), Some(p.transcript), p.title, p.courseId, p.lessonId)
  }

  /**
   * As written: the setup page calls `onSessionCreated(videoId, transcript)`,
   * which App wires to `handleSessionCreated`; the handler takes one
   * parameter, so it receives the id string and the transcript is dropped.
   */
  function SetupHandOffAsWritten(url: string, transcript: string): (r: Option<SessionArg>)
    ensures r.Some? <==> SetupSession.HandleSubmit(url, transcript).Success?
    ensures r.Some? ==> r.value == StringArg(SetupSession.HandleSubmit(url, transcript).value.0)
  {
    match SetupSession.HandleSubmit(url, transcript)
    case Success((id, _)) => Some(StringArg(id))
    case Failure(_) => None
  }

  /** As written: the example button passes its video id the same way. */
  const ExampleHandOffAsWritten: SessionArg := StringArg("zNzzGgr2mhk")

  /**
   * As written, a session started from the setup page reaches the handler
   * with neither its video nor its transcript, and so does the example.
   */
  lemma SetupHandOffLosesSession(url: string, transcript: string)
    requires SetupSession.HandleSubmit(url, transcript).Success?
    ensures SetupHandOffAsWritten(url, transcript).Some?
    ensures var r := Destructure(SetupHandOffAsWritten(url, transcript).value);
      r.videoId.None? && r.transcript.None?
    ensures Destructure(ExampleHandOffAsWritten).videoId.None?
  {
  }

  /** Corrected: the setup page hands on one payload object with the id and the transcript as typed. */
  function SetupHandOff(url: string, transcript: string): (r: Option<SessionPayload>)
    ensures r.Some? <==> SetupSession.HandleSubmit(url, transcript).Success?
    ensures r.Some? ==>
      && r.value.videoId == SetupSession.HandleSubmit(url, transcript).value.0
      && SetupSession.IsVideoId(r.value.videoId)
      && r.value.transcript == transcript
      && Destructure(PayloadArg(r.value)).videoId == Some(r.value.videoId)
      && Destructure(PayloadArg(r.value)).transcript == Some(transcript)
  {
    match SetupSession.HandleSubmit(url, transcript)
    case Success((id, t)) => Some(SessionPayload(id, t, None, None, None))
    case Failure(_) => None
  }

  /**
   * With the corrected hand-off, a submitted setup form opens a session on
   * its video and transcript in the "Personal Learning" course (created when
   * missing); a new lesson there carries the video, the transcript and the
   * default title.
   */
  lemma SetupSessionOpens(courses: seq<Course>, url: string, transcript: string, courseStamp: nat, lessonStamp: nat)
    requires SetupSession.HandleSubmit(url, transcript).Success?
    ensures var p := SetupHandOff(url, transcript).value;
      var (after, session) := SessionCreated(courses, p, courseStamp, lessonStamp);
      var personal := FindByTitle(courses, PersonalTitle);
      && session.videoId == SetupSession.HandleSubmit(url, transcript).value.0
      && session.transcript == transcript
      && session.courseId == (if personal.Some? then personal.value.id else courseStamp)
      && (session.lessonId == lessonStamp ==> LessonTitle(p.title) == "Untitled Session")
  {
    var p := SetupHandOff(url, transcript).value;
    SessionPersonalCourse(courses, p, courseStamp, lessonStamp);
  }

  // ---------------------------------------------------------------- state

  /** The component's state and its handlers. */
  class AppState {
    var tier: Tier
    var view: View
    var courses: seq<Course>
    var assessments: seq<Assessment>
    var posts: seq<Post>
    var session: Option<SessionData>

    constructor (courses: seq<Course>, assessments: seq<Assessment>, posts: seq<Post>)
      ensures this.tier == Free && this.view == Dashboard && this.session == None
      ensures this.courses == courses && this.assessments == assessments && this.posts == posts
    {
      this.tier := Free;
      this.view := Dashboard;
      this.courses := courses;
      this.assessments := assessments;
      this.posts := posts;
      this.session := None;
    }

    /** `userScore`: the `forEach` loops adding 50 per completed lesson and 100 per completed assessment. */
    method UserScore() returns (score: nat)
      ensures score == Score(courses, assessments)
    {
      score := 0;
      for i := 0 to |courses|
        invariant score == 50 * CompletedLessons(courses[..i])
      {
        var lessons := courses[i].lessons;
        var before := score;
        for j := 0 to |lessons|
          invariant score == before + 50 * CompletedCount(lessons[..j])
        {
          assert lessons[..j + 1][..j] == lessons[..j];
          if lessons[j].isCompleted {
            score := score + 50;
          }
        }
        assert lessons[..|lessons|] == lessons;
        assert courses[..i + 1][..i] == courses[..i];
      }
      assert courses[..|courses|] == courses;
      var lessonPoints := score;
      for k := 0 to |assessments|
        invariant score == lessonPoints + 100 * CompletedAssessments(assessments[..k])
      {
        assert assessments[..k + 1][..k] == assessments[..k];
        if assessments[k].status == "completed" {
          score := score + 100;
        }
      }
      assert assessments[..|assessments|] == assessments;
    }

    method ChangeTier(newTier: Tier)
      modifies this`tier, this`view
      ensures (tier, view) == TierChange(old(view), newTier)
    {
      tier := newTier;
      if newTier == Admin && view != AdminPanel {
        view := AdminPanel;
      } else if newTier != Admin && view == AdminPanel {
        view := Dashboard;
      }
    }

    method ToggleLike(id: nat)
      modifies this`posts
      ensures posts == ToggleLikeIn(old(posts), id)
    {
      posts := ToggleLikeIn(posts, id);
    }

    method AddComment(id: nat, username: string, content: string)
      modifies this`posts
      ensures posts == AddCommentTo(old(posts), id, username, content)
    {
      posts := AddCommentTo(posts, id, username, content);
    }

    /** `confirmed` is the answer to `window.confirm`, asked only of an admin. */
    method DeletePost(id: nat, confirmed: bool)
      modifies this`posts
      ensures posts == DeletePostIn(old(posts), tier, confirmed, id)
    {
      if tier != Admin {
        return;
      }
      if confirmed {
        posts := WithoutPost(posts, id);
      }
    }

    method UpdateLesson(courseId: nat, lessonId: nat, u: LessonPatch)
      modifies this`courses
      ensures courses == UpdateLessonIn(old(courses), courseId, lessonId, u)
    {
      courses := UpdateLessonIn(courses, courseId, lessonId, u);
    }

    method NavigateToCreateCourse()
      modifies this`view
      ensures view == CreateCourseView(courses, tier)
    {
      var limit := CourseLimit(tier);
      if limit.Some? && PrivateCount(courses) >= limit.value {
        view := Billing;
      } else {
        view := CreateCourse;
      }
    }

    method SessionStarted(p: SessionPayload, courseStamp: nat, lessonStamp: nat)
      modifies this`courses, this`session, this`view
      ensures var (after, data) := SessionCreated(old(courses), p, courseStamp, lessonStamp);
        courses == after && session == Some(data) && view == LearningSession
    {
      var result := SessionCreated(courses, p, courseStamp, lessonStamp);
      courses := result.0;
      session := Some(result.1);
      view := LearningSession;
    }

    /** The setup page's submit, with the corrected hand-off: a refused form changes nothing. */
    method SetupSubmitted(url: string, transcript: string, courseStamp: nat, lessonStamp: nat)
      modifies this`courses, this`session, this`view
      ensures SetupHandOff(url, transcript).None? ==>
        courses == old(courses) && session == old(session) && view == old(view)
      ensures SetupHandOff(url, transcript).Some? ==>
        var (after, data) := SessionCreated(old(courses), SetupHandOff(url, transcript).value, courseStamp, lessonStamp);
        courses == after && session == Some(data) && view == LearningSession
    {
      var p := SetupHandOff(url, transcript);
      if p.Some? {
        SessionStarted(p.value, courseStamp, lessonStamp);
      }
    }
  }
}
