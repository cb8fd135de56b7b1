/**
 The edX rapid-response load test: a simulated learner logs in to edX, enrolls
 in a course once, and submits answers to multiple-choice problems. The
 client's cookie jar is an argument; the enrolled-username set is shared by all
 simulated users and is threaded through explicitly.
 */
module RapidResponse {
  import opened PyBase
  import opened Strings
  import opened Http

  // ---------------------------------------------------------------------------
  // Login state

  /** The cookie edX sets to `"true"` once a session is logged in. */
  const LoggedInCookie: string := "edxloggedin"

  /** The password every simulated learner uses. */
  const Password: string := "edx"

  /** `client_is_logged_into_edx`: the logged-in cookie is present and holds `"true"`. */
  function IsLoggedIntoEdx(cookies: map<string, string>): (b: bool)
    ensures b <==> LoggedInCookie in cookies && cookies[LoggedInCookie] == "true"
  {
    Lookup(cookies, LoggedInCookie) == Some("true")
  }

  // ---------------------------------------------------------------------------
  // Answer submission payloads

  const UrlPrefix: string := "/courses/"
  const UrlMiddle: string := "/xblock/"
  const UrlSuffix: string := "/handler/xmodule_handler/problem_check"

  /**
   The problem-check handler URL of block `blockId` in course `courseId`: each id
   sits at its own place between the fixed parts, whatever characters it holds.
   */
  function AnswerPostUrl(courseId: string, blockId: string): (url: string)
    ensures |url| == |UrlPrefix| + |courseId| + |UrlMiddle| + |blockId| + |UrlSuffix|
    ensures url[..|UrlPrefix|] == UrlPrefix
    ensures url[|UrlPrefix|..|UrlPrefix| + |courseId|] == courseId
    ensures url[|UrlPrefix| + |courseId|..|UrlPrefix| + |courseId| + |UrlMiddle|] == UrlMiddle
    ensures url[|UrlPrefix| + |courseId| + |UrlMiddle|..|url| - |UrlSuffix|] == blockId
    ensures url[|url| - |UrlSuffix|..] == UrlSuffix
  {
    FiveParts(UrlPrefix, courseId, UrlMiddle, blockId, UrlSuffix);
    UrlPrefix + courseId + UrlMiddle + blockId + UrlSuffix
  }

  /** The middle separator is a `/` followed by `xblock/`. */
  lemma MiddleSplits()
    ensures "/" + "xblock/" == UrlMiddle
  {
  }

  /** Regrouping the five parts of a problem-check URL. */
  lemma Regroup<T>(p: seq<T>, c: seq<T>, m1: seq<T>, m2: seq<T>, b: seq<T>, x: seq<T>)
    ensures p + (c + m1 + (m2 + b) + x) == p + c + (m1 + m2) + b + x
  {
  }

  /**
   Reads a problem-check URL back into its course and block ids, splitting the
   course id off at the first `/`. `None` for any other text.
   */
  function AnswerUrlParts(url: string): (r: Option<(string, string)>)
    ensures r.Some? ==> '/' !in r.value.0 && AnswerPostUrl(r.value.0, r.value.1) == url
  {
    match StripPrefix(UrlPrefix, url)
    case None => None
    case Some(afterPrefix) =>
      match StripSuffix(afterPrefix, UrlSuffix)
      case None => None
      case Some(inner) =>
        match SplitOnce(inner, '/')
        case None => None
        case Some((course, rest)) =>
          match StripPrefix("xblock/", rest)
          case None => None
          case Some(block) =>
            MiddleSplits();
            Regroup(UrlPrefix, course, "/", "xblock/", block, UrlSuffix);
            Some((course, block))
  }

  /**
   Reading the URL back at its first `/` recovers both ids when the course id has
   no `/`, as in edX course keys such as `course-v1:MITx+T+R`. Older
   slash-separated keys such as `MITx/6.002x/2012_Fall` are still placed
   correctly by `AnswerPostUrl`, but this reader splits them at the wrong `/`.
   */
  lemma AnswerUrlRoundTrip(courseId: string, blockId: string)
    requires '/' !in courseId
    ensures AnswerUrlParts(AnswerPostUrl(courseId, blockId)) == Some((courseId, blockId))
  {
    var rest := "xblock/" + blockId;
    var inner := courseId + "/" + rest;
    MiddleSplits();
    Regroup(UrlPrefix, courseId, "/", "xblock/", blockId, UrlSuffix);
    StripPrefixJoin(UrlPrefix, inner + UrlSuffix);
    StripSuffixJoin(inner, UrlSuffix);
    SplitOnceJoin(courseId, '/', rest);
    StripPrefixJoin("xblock/", blockId);
  }

  /** The form key naming a choice group. */
  const InputPrefix: string := "input_"

  /** The answer form: one field, `input_<choicegroup>`, holding the chosen answer. */
  function AnswerPostDict(choicegroupId: string, answerId: string): (form: Value)
    ensures form.Dict? && |form.fields| == 1
    ensures forall k :: k in form.fields ==> ChoiceGroupOf(k) == Some(choicegroupId) && form.fields[k] == Str(answerId)
  {
    ChoiceGroupOfInput(choicegroupId);
    Dict(map[InputPrefix + choicegroupId := Str(answerId)])
  }

  /** The choice group a form key names, when it starts with `input_`. */
  function ChoiceGroupOf(key: string): (r: Option<string>)
    ensures r.Some? <==> |key| >= |InputPrefix| && key[..|InputPrefix|] == InputPrefix
    ensures r.Some? ==> InputPrefix + r.value == key
  {
    if |key| >= |InputPrefix| && key[..|InputPrefix|] == InputPrefix then
      assert key == key[..|InputPrefix|] + key[|InputPrefix|..];
      Some(key[|InputPrefix|..])
    else None
  }

  /** The form key of a choice group reads back as that choice group. */
  lemma ChoiceGroupOfInput(choicegroupId: string)
    ensures ChoiceGroupOf(InputPrefix + choicegroupId) == Some(choicegroupId)
  {
    var key := InputPrefix + choicegroupId;
    assert key[..|InputPrefix|] == InputPrefix;
    assert key[|InputPrefix|..] == choicegroupId;
  }

  /** One problem of the course under test: its block, its choice group and its answers. */
  datatype Block = Block(id: string, choicegroupId: string, answerIds: seq<string>)

  /** An entry of the course list the simulated learners pick from. */
  datatype CourseData = CourseData(courseId: string, blocks: seq<Block>)

  /** The answer POST for `answerId` of `block`, with the session's CSRF cookie. */
  function AnswerRequest(course: CourseData, block: Block, answerId: string, cookies: map<string, string>): (r: Request)
    ensures r.verb == Post && r.statsName == Some("Problem Submission")
    ensures r.target == Path(AnswerPostUrl(course.courseId, block.id))
    ensures r.headers == CsrfHeader(Lookup(cookies, "csrftoken"))
    ensures r.body == AnswerPostDict(block.choicegroupId, answerId)
  {
    Request(Post, Path(AnswerPostUrl(course.courseId, block.id)), Some("Problem Submission"),
      CsrfHeader(Lookup(cookies, "csrftoken")), AnswerPostDict(block.choicegroupId, answerId))
  }

  /** How `submit_answer` ends. */
  datatype Submission =
    | Interrupted                                       // `self.interrupt()`: not logged in
    | Failed(error: Error)                              // `random.choice` on an empty list
    | Submitted(block: Block, answerId: string, request: Request)

  /**
   `submit_answer`: stop unless logged in, otherwise pick a block of the course
   and an answer of that block at random and post it.
   */
  method SubmitAnswer(cookies: map<string, string>, course: CourseData) returns (out: Submission)
    ensures out.Interrupted? <==> !IsLoggedIntoEdx(cookies)
    ensures out.Failed? ==> out.error == IndexOutOfRange
    ensures out.Failed? ==>
      course.blocks == [] || exists i :: 0 <= i < |course.blocks| && course.blocks[i].answerIds == []
    ensures (IsLoggedIntoEdx(cookies) && course.blocks != []
      && (forall i :: 0 <= i < |course.blocks| ==> course.blocks[i].answerIds != [])) ==> out.Submitted?
    ensures out.Submitted? ==> out.block in course.blocks && out.answerId in out.block.answerIds
    ensures out.Submitted? ==> out.request == AnswerRequest(course, out.block, out.answerId, cookies)
  {
    if !IsLoggedIntoEdx(cookies) {
      return Interrupted;
    }
    if course.blocks == [] {
      return Failed(IndexOutOfRange);
    }
    assert course.blocks[0] in course.blocks;
    var block :| block in course.blocks;
    if block.answerIds == [] {
      return Failed(IndexOutOfRange);
    }
    assert block.answerIds[0] in block.answerIds;
    var answerId :| answerId in block.answerIds;
    out := Submitted(block, answerId, AnswerRequest(course, block, answerId, cookies));
  }

  // ---------------------------------------------------------------------------
  // Login and enrollment

  /**
   `_login`: the login page, then the login form with the CSRF token the login
   page set (possibly missing).
   */
  function LoginRequests(username: string, loginCsrf: Option<string>): (rs: seq<Request>)
    ensures |rs| == 2
    ensures rs[0].verb == Get && rs[0].target == Path("/login") && rs[0].statsName == Some("Initial login request")
    ensures rs[1].verb == Post && rs[1].target == Path("/user_api/v1/account/login_session/")
    ensures rs[1].statsName == Some("Actual login")
    ensures rs[1].body == LoginForm(username, Password)
    ensures rs[1].headers.Keys == {"Referer", "X-CSRFToken"}
    ensures rs[1].headers["Referer"] == Some("/login") && rs[1].headers["X-CSRFToken"] == loginCsrf
  {
    [Request(Get, Path("/login"), Some("Initial login request"), map[], Null),
     Request(Post, Path("/user_api/v1/account/login_session/"), Some("Actual login"),
       map["Referer" := Some("/login"), "X-CSRFToken" := loginCsrf], LoginForm(username, Password))]
  }

  /** The enrollment form for one action. */
  function EnrollmentForm(courseId: string, action: string): (form: Value)
    ensures form.Dict? && form.fields.Keys == {"course_id", "enrollment_action"}
    ensures form.fields["course_id"] == Str(courseId) && form.fields["enrollment_action"] == Str(action)
  {
    Dict(map["course_id" := Str(courseId), "enrollment_action" := Str(action)])
  }

  /**
   One POST to `/change_enrollment` per action, in order. Each action comes with
   the session's CSRF cookie as it is read just before that POST, since a response
   may refresh it.
   */
  function EnrollmentPosts(courseId: string, actions: seq<(string, Option<string>)>): (rs: seq<Request>)
    ensures |rs| == |actions|
    ensures forall i :: 0 <= i < |rs| ==>
      rs[i].verb == Post && rs[i].target == Path("/change_enrollment")
      && rs[i].body == EnrollmentForm(courseId, actions[i].0) && rs[i].headers == CsrfHeader(actions[i].1)
      && rs[i].statsName == Some("Course Enrollment (" + actions[i].0 + ")")
  {
    if actions == [] then []
    else
      [Request(Post, Path("/change_enrollment"), Some("Course Enrollment (" + actions[0].0 + ")"),
        CsrfHeader(actions[0].1), EnrollmentForm(courseId, actions[0].0))]
      + EnrollmentPosts(courseId, actions[1..])
  }

  /**
   `_enroll`'s requests: unenroll first, since edX rejects enrolling an enrolled
   user. Each POST carries the CSRF cookie read just before it.
   */
  function EnrollRequests(courseId: string, unenrollCsrf: Option<string>, enrollCsrf: Option<string>): (rs: seq<Request>)
    ensures |rs| == 2
    ensures BodiesOf(rs, Post) == [EnrollmentForm(courseId, "unenroll"), EnrollmentForm(courseId, "enroll")]
    ensures rs[0].headers == CsrfHeader(unenrollCsrf) && rs[1].headers == CsrfHeader(enrollCsrf)
  {
    var rs := EnrollmentPosts(courseId, [("unenroll", unenrollCsrf), ("enroll", enrollCsrf)]);
    assert rs[1..][1..] == [];
    rs
  }

  /**
   One run of `login_and_enroll` by a learner: the session's cookies when the
   call starts, the learner, the course, the CSRF token the login page sets, and
   the session's CSRF cookie when the unenroll and when the enroll POST is made.
   */
  datatype Call = Call(cookies: map<string, string>, username: string, courseId: string, loginCsrf: Option<string>,
                       unenrollCsrf: Option<string>, enrollCsrf: Option<string>)

  /** What one `login_and_enroll` did: its requests, whether it enrolled, and the shared set afterwards. */
  datatype Step = Step(sent: seq<Request>, enrolledNow: bool, after: set<string>)

  /**
   The shared-set side of `login_and_enroll`: whether `_enroll` runs (the username
   is not yet in the set), and the set afterwards.
   */
  function EnrollmentUpdate(username: string, enrolled: set<string>): (u: (bool, set<string>))
    ensures u.0 <==> username !in enrolled
    ensures u.1 == enrolled + {username}
  {
    if username in enrolled then (false, enrolled) else (true, enrolled + {username})
  }

  /**
   `login_and_enroll`: log in unless already logged in, then enroll unless the
   username is already in the shared set.
   */
  function LoginAndEnroll(c: Call, enrolled: set<string>): (step: Step)
    ensures (step.enrolledNow, step.after) == EnrollmentUpdate(c.username, enrolled)
    ensures |step.sent| == (if IsLoggedIntoEdx(c.cookies) then 0 else 2) + (if step.enrolledNow then 2 else 0)
    ensures !IsLoggedIntoEdx(c.cookies) ==> step.sent[..2] == LoginRequests(c.username, c.loginCsrf)
    ensures step.enrolledNow ==> step.sent[|step.sent| - 2..] == EnrollRequests(c.courseId, c.unenrollCsrf, c.enrollCsrf)
  {
    var login := if IsLoggedIntoEdx(c.cookies) then [] else LoginRequests(c.username, c.loginCsrf);
    var (now, after) := EnrollmentUpdate(c.username, enrolled);
    if !now then
      Step(login, false, after)
    else
      var sent := login + EnrollRequests(c.courseId, c.unenrollCsrf, c.enrollCsrf);
      assert sent[..|login|] == login;
      Step(sent, true, after)
  }

  /** The usernames of a sequence of calls. */
  function UsernamesOf(calls: seq<Call>): set<string>
  {
    set i | 0 <= i < |calls| :: calls[i].username
  }

  /** The usernames enrolled over a run, in order, and the shared set at its end. */
  datatype RunResult = RunResult(newlyEnrolled: seq<string>, final: set<string>)

  /**
   A sequence of `login_and_enroll` calls from any learners in any order, each
   run to its end before the next starts, against the shared set.
   */
  function Run(calls: seq<Call>, enrolled: set<string>): (r: RunResult)
    ensures enrolled <= r.final
    decreases |calls|
  {
    if calls == [] then RunResult([], enrolled)
    else
      var (now, after) := EnrollmentUpdate(calls[0].username, enrolled);
      var rest := Run(calls[1..], after);
      RunResult((if now then [calls[0].username] else []) + rest.newlyEnrolled, rest.final)
  }

  /** The usernames of a non-empty sequence of calls are the first caller's and the rest's. */
  lemma UsernamesOfCons(calls: seq<Call>)
    requires calls != []
    ensures UsernamesOf(calls) == {calls[0].username} + UsernamesOf(calls[1..])
  {
    forall u | u in UsernamesOf(calls) ensures u in {calls[0].username} + UsernamesOf(calls[1..]) {
      var i :| 0 <= i < |calls| && calls[i].username == u;
      if i > 0 { assert calls[1..][i - 1] == calls[i]; }
    }
  }

  /** At the end of a run the shared set is the initial one plus every caller. */
  lemma {:induction false} RunFinalSet(calls: seq<Call>, enrolled: set<string>)
    ensures Run(calls, enrolled).final == enrolled + UsernamesOf(calls)
    decreases |calls|
  {
    if calls != [] {
      UsernamesOfCons(calls);
      RunFinalSet(calls[1..], EnrollmentUpdate(calls[0].username, enrolled).1);
    }
  }

  /** No element of `s` occurs twice. */
  predicate Distinct(s: seq<string>)
  {
    forall i, j :: 0 <= i < j < |s| ==> s[i] != s[j]
  }

  /**
   Over a run, no username is enrolled twice, and none that was in the shared set
   beforehand is enrolled at all.
   */
  lemma {:induction false} RunEnrollsOnce(calls: seq<Call>, enrolled: set<string>)
    ensures Distinct(Run(calls, enrolled).newlyEnrolled)
    ensures forall u :: u in Run(calls, enrolled).newlyEnrolled ==> u !in enrolled
    decreases |calls|
  {
    if calls != [] {
      var (now, after) := EnrollmentUpdate(calls[0].username, enrolled);
      var rest := Run(calls[1..], after).newlyEnrolled;
      var head: seq<string> := if now then [calls[0].username] else [];
      var names := head + rest;
      assert Run(calls, enrolled).newlyEnrolled == names;
      RunEnrollsOnce(calls[1..], after);
      forall u | u in names ensures u !in enrolled {
        if u !in head {
          assert u in rest;
        }
      }
      forall i, j | 0 <= i < j < |names| ensures names[i] != names[j] {
        assert names[j] == rest[j - |head|];
        if i >= |head| {
          assert names[i] == rest[i - |head|];
        } else {
          assert rest[j - |head|] in rest;
        }
      }
    }
  }

  /** Every caller that was not in the shared set beforehand is enrolled during the run. */
  lemma {:induction false} RunEnrollsEveryNewcomer(calls: seq<Call>, enrolled: set<string>)
    ensures forall u :: u in UsernamesOf(calls) && u !in enrolled ==> u in Run(calls, enrolled).newlyEnrolled
    decreases |calls|
  {
    if calls != [] {
      var (now, after) := EnrollmentUpdate(calls[0].username, enrolled);
      var rest := Run(calls[1..], after).newlyEnrolled;
      var head: seq<string> := if now then [calls[0].username] else [];
      assert Run(calls, enrolled).newlyEnrolled == head + rest;
      UsernamesOfCons(calls);
      RunEnrollsEveryNewcomer(calls[1..], after);
    }
  }
}
