/**
 * The front end's API configuration (src/config/api.ts): the base URL,
 * normalised from the environment's setting, and the endpoint paths the
 * services append to it.
 */
module ApiConfig {
  import opened Wrappers
  import opened Text

  /** The base URL when the environment sets none. */
  const DefaultBaseUrl: string := "http://localhost:8000/api"

  /** What every normalised base URL ends with. */
  const ApiSuffix: string := "/api"

  /** `API_CONFIG.TIMEOUT`, in milliseconds. */
  const Timeout: nat := 30000

  /** `VITE_API_BASE_URL || default`: an unset or empty setting gives the default. */
  function RawBaseUrl(env: Option<string>): (r: string)
    ensures r != []
    ensures env.Some? && env.value != [] ==> r == env.value
    ensures env.None? || env.value == [] ==> r == DefaultBaseUrl
  {
    if env.Some? && env.value != [] then env.value else DefaultBaseUrl
  }

  /** `replace(/\/+$/, '')`: the URL without its run of trailing slashes. */
  function TrimTrailingSlashes(s: string): (r: string)
    ensures |r| <= |s| && r == s[..|r|]
    ensures r == [] || r[|r| - 1] != '/'
    ensures forall i :: |r| <= i < |s| ==> s[i] == '/'
  {
    if s != [] && s[|s| - 1] == '/' then TrimTrailingSlashes(s[..|s| - 1]) else s
  }

  /** The base URL as `API_CONFIG.BASE_URL` holds it. */
  function NormalizeBaseUrl(raw: string): (r: string)
    ensures EndsWith(r, ApiSuffix)
    ensures r[|r| - 1] != '/'
  {
    var t := TrimTrailingSlashes(raw);
    if EndsWith(t, ApiSuffix) then t else t + ApiSuffix
  }

  /** `API_CONFIG.BASE_URL` for the environment's setting. */
  function BaseUrl(env: Option<string>): string
  {
    NormalizeBaseUrl(RawBaseUrl(env))
  }

  /** A string without a trailing slash is its own trimming. */
  lemma TrimNoTrailingSlash(s: string)
    requires s == [] || s[|s| - 1] != '/'
    ensures TrimTrailingSlashes(s) == s
  {
  }

  /** The trimming is the longest prefix that is followed by slashes only. */
  lemma {:induction false} TrimUnique(s: string, p: string, k: nat)
    requires p + Slashes(k) == s
    requires p == [] || p[|p| - 1] != '/'
    ensures TrimTrailingSlashes(s) == p
    decreases k
  {
    if k == 0 {
      assert s == p;
      TrimNoTrailingSlash(p);
    } else {
      assert Slashes(k) == Slashes(k - 1) + "/";
      assert s[..|s| - 1] == p + Slashes(k - 1);
      TrimUnique(s[..|s| - 1], p, k - 1);
    }
  }

  /** `k` slashes. */
  function Slashes(k: nat): (r: string)
    ensures |r| == k && forall i :: 0 <= i < k ==> r[i] == '/'
  {
    if k == 0 then "" else Slashes(k - 1) + "/"
  }

  lemma SlashesAdd(m: nat, k: nat)
    ensures Slashes(m) + Slashes(k) == Slashes(m + k)
  {
  }

  /** A string is its trimming followed by slashes. */
  lemma TrimSplit(s: string)
    ensures s == TrimTrailingSlashes(s) + Slashes(|s| - |TrimTrailingSlashes(s)|)
  {
    var p := TrimTrailingSlashes(s);
    assert s[|p|..] == Slashes(|s| - |p|);
    assert s == s[..|p|] + s[|p|..];
  }

  /** Appending slashes leaves the trimming as it was. */
  lemma TrimAfterSlashes(s: string, k: nat)
    ensures TrimTrailingSlashes(s + Slashes(k)) == TrimTrailingSlashes(s)
  {
    var p := TrimTrailingSlashes(s);
    var m := |s| - |p|;
    assert s + Slashes(k) == p + Slashes(m + k) by {
      TrimSplit(s);
      SlashesAdd(m, k);
      assert s + Slashes(k) == p + (Slashes(m) + Slashes(k));
    }
    TrimUnique(s + Slashes(k), p, m + k);
  }

  /** Trailing slashes make no difference to the base URL. */
  lemma TrailingSlashesIgnored(raw: string, k: nat)
    ensures NormalizeBaseUrl(raw + Slashes(k)) == NormalizeBaseUrl(raw)
  {
    TrimAfterSlashes(raw, k);
  }

  /** A normalised base URL normalises to itself. */
  lemma NormalizeIdempotent(raw: string)
    ensures NormalizeBaseUrl(NormalizeBaseUrl(raw)) == NormalizeBaseUrl(raw)
  {
    TrimNoTrailingSlash(NormalizeBaseUrl(raw));
  }

  /**
   * A base URL already ending in `/api` (once its trailing slashes are
   * gone) is kept as it is; any other one gets `/api` appended.
   */
  lemma NormalizeKeepsOrAppends(raw: string)
    ensures var t := TrimTrailingSlashes(raw);
      && (EndsWith(t, ApiSuffix) <==> NormalizeBaseUrl(raw) == t)
      && (!EndsWith(t, ApiSuffix) <==> NormalizeBaseUrl(raw) == t + ApiSuffix)
  {
    var t := TrimTrailingSlashes(raw);
    if !EndsWith(t, ApiSuffix) {
      assert |t + ApiSuffix| != |t|;
    }
  }

  /** With no setting the base URL is the local development server's. */
  lemma DefaultBase()
    ensures BaseUrl(None) == DefaultBaseUrl
    ensures BaseUrl(Some("")) == DefaultBaseUrl
  {
    TrimNoTrailingSlash(DefaultBaseUrl);
    assert DefaultBaseUrl[|DefaultBaseUrl| - 4..] == ApiSuffix;
  }

  /** The endpoints without a parameter, in the groups `API_ENDPOINTS` lists them. */
  datatype AuthRoute = Login | Register | Logout | RefreshToken
  datatype UserRoute = UserMe | UpgradeTier
  datatype CourseRoute = Courses | MyCourses | StartCourse
  datatype AssessmentRoute = Assessments | MyAssessments
  datatype PostRoute = Posts | MyPosts
  datatype AiRoute = AiGenerateQuiz | AiChat | AiStudyPlan | AiExplain
  datatype YoutubeRoute = YoutubeExtractTranscript | YoutubeVideoInfo | YoutubeSaveNotes | YoutubeGetNotes

  /** The endpoint builders that take an id. */
  datatype IdRoute =
    | CourseDetail | CourseLessons | CompleteLesson
    | AssessmentDetail | StartAssessment | SubmitAssessment | AssessmentQuestions
    | PostDetail | PostLike | PostComment
    | LessonFetchTranscript | LessonUpdateManualTranscript | LessonGetTranscript | LessonGenerateQuiz

  /** An entry of `API_ENDPOINTS`, with its id when it is a builder. */
  datatype Endpoint =
    | Auth(auth: AuthRoute)
    | User(user: UserRoute)
    | Course(course: CourseRoute)
    | Assessment(assessment: AssessmentRoute)
    | Post(post: PostRoute)
    | Ai(ai: AiRoute)
    | Youtube(youtube: YoutubeRoute)
    | ById(builder: IdRoute, id: nat)

  /** A path as `API_ENDPOINTS` spells them: one slash first, one slash last. */
  predicate Delimited(r: string)
  {
    |r| >= 3 && r[0] == '/' && r[1] != '/' && r[|r| - 1] == '/'
  }

  function AuthPath(route: AuthRoute): (r: string)
    ensures Delimited(r)
  {
    match route
    case Login => "/auth/login/"
    case Register => "/auth/registration/"
    case Logout => "/auth/logout/"
    case RefreshToken => "/auth/token/refresh/"
  }

  function UserPath(route: UserRoute): (r: string)
    ensures Delimited(r)
  {
    match route
    case UserMe => "/users/me/"
    case UpgradeTier => "/users/upgrade_tier/"
  }

  function CoursePath(route: CourseRoute): (r: string)
    ensures Delimited(r)
  {
    match route
    case Courses => "/courses/"
    case MyCourses => "/courses/my_courses/"
    case StartCourse => "/progress/start_course/"
  }

  function AssessmentPath(route: AssessmentRoute): (r: string)
    ensures Delimited(r)
  {
    match route
    case Assessments => "/assessments/"
    case MyAssessments => "/assessments/my_assessments/"
  }

  function PostPath(route: PostRoute): (r: string)
    ensures Delimited(r)
  {
    match route
    case Posts => "/posts/"
    case MyPosts => "/posts/my_posts/"
  }

  function AiPath(route: AiRoute): (r: string)
    ensures Delimited(r)
  {
    match route
    case AiGenerateQuiz => "/ai/generate-quiz/"
    case AiChat => "/ai/chat/"
    case AiStudyPlan => "/ai/study-plan/"
    case AiExplain => "/ai/explain/"
  }

  function YoutubePath(route: YoutubeRoute): (r: string)
    ensures Delimited(r)
  {
    match route
    case YoutubeExtractTranscript => "/youtube/extract-transcript/"
    case YoutubeVideoInfo => "/youtube/video-info/"
    case YoutubeSaveNotes => "/youtube/save-notes/"
    case YoutubeGetNotes => "/youtube/notes/"
  }

  /** What a builder's template puts before the id. */
  function IdPrefix(b: IdRoute): (r: string)
    ensures |r| >= 3 && r[0] == '/' && r[1] != '/'
  {
    match b
    case CourseDetail | CourseLessons => "/courses/"
    case CompleteLesson => "/progress/"
    case AssessmentDetail | StartAssessment | SubmitAssessment | AssessmentQuestions => "/assessments/"
    case PostDetail | PostLike | PostComment => "/posts/"
    case LessonFetchTranscript | LessonUpdateManualTranscript | LessonGetTranscript | LessonGenerateQuiz => "/lessons/"
  }

  /** What a builder's template puts after the id. */
  function IdSuffix(b: IdRoute): (r: string)
    ensures r != [] && r[|r| - 1] == '/'
  {
    match b
    case CourseDetail | AssessmentDetail | PostDetail => "/"
    case CourseLessons => "/lessons/"
    case CompleteLesson => "/complete_lesson/"
    case StartAssessment => "/start/"
    case SubmitAssessment => "/submit/"
    case AssessmentQuestions => "/questions/"
    case PostLike => "/like/"
    case PostComment => "/comment/"
    case LessonFetchTranscript => "/fetch_transcript/"
    case LessonUpdateManualTranscript => "/update_manual_transcript/"
    case LessonGetTranscript => "/get_transcript/"
    case LessonGenerateQuiz => "/generate_quiz/"
  }

  /** The path of an endpoint. */
  function Path(e: Endpoint): (r: string)
    ensures Delimited(r)
  {
    match e
    case Auth(route) => AuthPath(route)
    case User(route) => UserPath(route)
    case Course(route) => CoursePath(route)
    case Assessment(route) => AssessmentPath(route)
    case Post(route) => PostPath(route)
    case Ai(route) => AiPath(route)
    case Youtube(route) => YoutubePath(route)
    case ById(b, id) => BuilderPath(b, id)
  }

  /** `API_ENDPOINTS[b](id)`. */
  function BuilderPath(b: IdRoute, id: nat): (r: string)
    ensures Delimited(r)
  {
    Template(IdPrefix(b), id, IdSuffix(b))
  }

  /** A builder's template string: `${prefix}${id}${suffix}`. */
  function Template(prefix: string, id: nat, suffix: string): (r: string)
    requires |prefix| >= 3 && prefix[0] == '/' && prefix[1] != '/'
    requires suffix != [] && suffix[|suffix| - 1] == '/'
    ensures Delimited(r)
  {
    prefix + NatToString(id) + suffix
  }

  /** A builder's path determines the id it was given. */
  lemma IdDetermined(b: IdRoute, id1: nat, id2: nat)
    requires Path(ById(b, id1)) == Path(ById(b, id2))
    ensures id1 == id2
  {
    var p, s := IdPrefix(b), IdSuffix(b);
    assert Path(ById(b, id1)) == p + NatToString(id1) + s;
    var x, y := NatToString(id1), NatToString(id2);
    assert (p + x + s)[|p|..|p| + |x|] == x;
    assert (p + y + s)[|p|..|p| + |y|] == y;
    NatToStringInjective(id1, id2);
  }

  /** A request URL joins the base and the path with exactly one slash after `/api`. */
  lemma UrlJoin(raw: string, e: Endpoint)
    ensures var base := NormalizeBaseUrl(raw);
      var url := base + Path(e);
      url[|base| - 4..|base| + 1] == "/api/" && url[|base| + 1] != '/'
  {
  }
}
