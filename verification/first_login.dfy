/**
 The MicroMasters first-login task: load the index, log in through edX, reset
 and re-fill the user's profile in a fixed sequence of PATCH requests, and log
 out. The profile is the JSON dictionary the profile GET returned; the
 cookies the servers set are passed in as arguments.
 */
module FirstLogin {
  import opened PyBase
  import opened Strings
  import opened Http

  // ---------------------------------------------------------------------------
  // Login

  /**
   The cookie domain `login` derives from the site's network location: the host
   with any `:port` stripped.
   */
  function CookieDomain(netloc: string): (domain: string)
    ensures ':' !in domain
    ensures |domain| <= |netloc| && domain == netloc[..|domain|]
    ensures ':' !in netloc ==> domain == netloc
    ensures ':' in netloc ==> netloc[|domain|] == ':'
  {
    if ':' in netloc then BeforeFirst(netloc, ':') else netloc
  }

  /** A `host:port` location yields the host, whatever the port text is. */
  lemma CookieDomainStripsPort(host: string, port: string)
    requires ':' !in host
    ensures CookieDomain(host + ":" + port) == host
  {
    SplitOnceJoin(host, ':', port);
  }

  /**
   The three requests of `login`: the edX login page, the edX login form (with the
   CSRF token the login page set, possibly missing), and the MicroMasters edX login.
   */
  function LoginRequests(username: string, edxBase: string, edxCsrf: Option<string>): (rs: seq<Request>)
    ensures |rs| == 3
    ensures rs[0].verb == Get && rs[0].target == Joined(edxBase, "/login")
    ensures rs[1].verb == Post && rs[1].target == Joined(edxBase, "/user_api/v1/account/login_session/")
    ensures rs[1].body == LoginForm(username, "test") && rs[1].headers == CsrfHeader(edxCsrf)
    ensures rs[2].verb == Get && rs[2].target == Path("/login/edxorg/")
    ensures BodiesOf(rs, Patch) == []
  {
    var rs := [Request(Get, Joined(edxBase, "/login"), Some("/login[edx login page]"), map[], Null),
     Request(Post, Joined(edxBase, "/user_api/v1/account/login_session/"),
       Some("/user_api/v1/account/login_session/[edx login form]"),
       CsrfHeader(edxCsrf), LoginForm(username, "test")),
     Request(Get, Path("/login/edxorg/"), Some("/login/edxorg/[micromasters]"), map[], Null)];
    BodiesOfNone(rs, Patch);
    rs
  }

  /**
   The MicroMasters CSRF token `login` keeps: the `csrftoken` cookie of the site's
   cookie domain, given the jar of `csrftoken` cookies by domain.
   */
  function SiteCsrfToken(netloc: string, csrfJar: map<string, string>): (token: Option<string>)
    ensures token.Some? <==> CookieDomain(netloc) in csrfJar
    ensures token.Some? ==> token.value == csrfJar[CookieDomain(netloc)]
  {
    var domain := CookieDomain(netloc);
    if domain in csrfJar then Some(csrfJar[domain]) else None
  }

  /** The two requests of `logout`: edX, then MicroMasters. */
  function LogoutRequests(edxBase: string): (rs: seq<Request>)
    ensures |rs| == 2 && rs[0].target == Joined(edxBase, "/logout") && rs[1].target == Path("/logout")
    ensures rs[0].verb == Get && rs[1].verb == Get
    ensures BodiesOf(rs, Patch) == []
  {
    var rs := [Request(Get, Joined(edxBase, "/logout"), Some("/logout[edx]"), map[], Null),
     Request(Get, Path("/logout"), Some("/logout[micromasters]"), map[], Null)];
    BodiesOfNone(rs, Patch);
    rs
  }

  // ---------------------------------------------------------------------------
  // Profile reset

  const TermsKey: string := "agreed_to_terms_of_service"

  /** The keys the reset reads or deletes, in the order it touches them. */
  const ResetKeys: seq<string> := [TermsKey, "filled_out", "email_optin", "image"]

  /** The profile has every key the reset reads or deletes. */
  predicate HasResetKeys(profile: map<string, Value>)
  {
    TermsKey in profile && "filled_out" in profile && "email_optin" in profile && "image" in profile
  }

  /** Every key the reset assigns, toggles or deletes. */
  const ResetTouched: set<string> := {"education", "work_history", TermsKey, "filled_out", "email_optin", "image"}

  /**
   The reset part of `profile_tabs`: education and work history emptied, the
   terms-of-service flag toggled (removed when it is `True`, set to `True`
   otherwise), and `filled_out`, `email_optin` and `image` removed. Also returns
   the original `filled_out` value.
   */
  function ResetProfile(profile: map<string, Value>): (r: Result<(map<string, Value>, Value)>)
    ensures r.Ok? <==> HasResetKeys(profile)
    ensures r.Err? ==> FirstMissing(ResetKeys, profile).Some? && r.error == MissingKey(FirstMissing(ResetKeys, profile).value)
    ensures r.Ok? ==> r.value.1 == profile["filled_out"]
    ensures r.Ok? ==> var p := r.value.0;
      && "education" in p && p["education"] == List([])
      && "work_history" in p && p["work_history"] == List([])
      && "filled_out" !in p && "email_optin" !in p && "image" !in p
      && (profile[TermsKey] == Bool(true) ==> TermsKey !in p)
      && (profile[TermsKey] != Bool(true) ==> TermsKey in p && p[TermsKey] == Bool(true))
      && p.Keys <= profile.Keys + {"education", "work_history"}
      && forall k :: k in profile && k !in ResetTouched ==> k in p && p[k] == profile[k]
  {
    var p := profile["education" := List([])]["work_history" := List([])];
    assert ResetKeys[0] == TermsKey && ResetKeys[1] == "filled_out";
    assert ResetKeys[2] == "email_optin" && ResetKeys[3] == "image";
    match FirstMissing(ResetKeys, profile)
    case Some(key) => Err(MissingKey(key))
    case None =>
      var p := if p[TermsKey] == Bool(true) then p - {TermsKey} else p[TermsKey := Bool(true)];
      Ok((p - {"filled_out", "email_optin", "image"}, profile["filled_out"]))
  }

  // ---------------------------------------------------------------------------
  // Profile submission

  /** The fields the submission overwrites with fixed values, two derived from the username. */
  function FixedFields(username: string): (f: map<string, Value>)
    ensures f.Keys == {
      "birth_country", "city", "country", "date_of_birth", "first_name", "gender",
      "last_name", "nationality", "preferred_language", "preferred_name", "state_or_territory"}
    ensures f["first_name"] == Str(username)
    ensures f["preferred_name"] == Str(username + " Preferred")
    ensures f["date_of_birth"] == Str("2000-01-12") && f["country"] == Str("US")
  {
    map[
      "birth_country" := Str("IT"),
      "city" := Str("Los Angeles"),
      "country" := Str("US"),
      "date_of_birth" := Str("2000-01-12"),
      "first_name" := Str(username),
      "gender" := Str("f"),
      "last_name" := Str("Example"),
      "nationality" := Str("IT"),
      "preferred_language" := Str("en"),
      "preferred_name" := Str(username + " Preferred"),
      "state_or_territory" := Str("US-CA")]
  }

  /** The high-school education entry. */
  function HighSchool(): (v: Value)
    ensures v.Dict?
  {
    Dict(map[
      "degree_name" := Str("hs"),
      "graduation_date" := Str("1998-02-01"),
      "field_of_study" := Null,
      "online_degree" := Bool(false),
      "school_name" := Str("School User"),
      "school_city" := Str("Lexington"),
      "school_state_or_territory" := Str("US-MA"),
      "school_country" := Str("US")])
  }

  /** The master's-degree education entry. */
  function College(): (v: Value)
    ensures v.Dict?
  {
    Dict(map[
      "degree_name" := Str("m"),
      "graduation_date" := Str("2008-12-01"),
      "field_of_study" := Str("14.0903"),
      "online_degree" := Bool(false),
      "school_name" := Str("University of Here"),
      "school_city" := Str("Bologna"),
      "school_state_or_territory" := Str("IT-BO"),
      "school_country" := Str("IT"),
      "graduation_date_edit" := Dict(map["year" := Str("2008"), "month" := Str("12")])])
  }

  /** The work-history entry. */
  function Job(): (v: Value)
    ensures v.Dict?
  {
    Dict(map[
      "position" := Str("Senior Software Engineer"),
      "industry" := Str("Computer Software"),
      "company_name" := Str("MIT"),
      "start_date" := Str("2000-01-01"),
      "end_date" := Null,
      "city" := Str("Cambridge"),
      "country" := Str("US"),
      "state_or_territory" := Str("US-MA"),
      "start_date_edit" := Dict(map["year" := Str("2000"), "month" := Str("1")])])
  }

  /**
   The entries are the high-school degree, the master's degree and the MIT job;
   the master's degree and the job also carry the edit form of their date.
   */
  lemma EntryKinds()
    ensures HasEntry(HighSchool().fields, "degree_name", Str("hs"))
    ensures HasEntry(College().fields, "degree_name", Str("m"))
    ensures HasEntry(Job().fields, "company_name", Str("MIT"))
    ensures HighSchool().fields.Keys == {
      "degree_name", "graduation_date", "field_of_study", "online_degree",
      "school_name", "school_city", "school_state_or_territory", "school_country"}
    ensures College().fields.Keys == HighSchool().fields.Keys + {"graduation_date_edit"}
    ensures Job().fields.Keys == {
      "position", "industry", "company_name", "start_date", "end_date",
      "city", "country", "state_or_territory", "start_date_edit"}
  {
  }

  /** `profile[key].append(entry)` on a list-valued key. */
  function Append(profile: map<string, Value>, key: string, entry: Value): (p: map<string, Value>)
    requires key in profile && profile[key].List?
    ensures p.Keys == profile.Keys
    ensures p[key] == List(profile[key].items + [entry])
    ensures forall k :: k in profile && k != key ==> p[k] == profile[k]
  {
    profile[key := List(profile[key].items + [entry])]
  }

  /**
   `profile.update(...)` with the fixed fields: those are overwritten, every other
   key keeps its value.
   */
  function FillFixedFields(profile: map<string, Value>, username: string): (p: map<string, Value>)
    ensures p.Keys == profile.Keys + FixedFields(username).Keys
    ensures p["first_name"] == Str(username) && p["preferred_name"] == Str(username + " Preferred")
    ensures forall k :: k in FixedFields(username) ==> p[k] == FixedFields(username)[k]
    ensures forall k :: k in profile && k !in FixedFields(username) ==> p[k] == profile[k]
  {
    profile + FixedFields(username)
  }

  /** The keys the submission appends to or adds after the first PATCH. */
  const GrowingKeys: set<string> := {"education", "work_history", "filled_out"}

  /** How the fixed fields, the growing keys and the names relate. */
  lemma KeyFacts(username: string)
    ensures "education" !in FixedFields(username) && "work_history" !in FixedFields(username)
    ensures "filled_out" !in FixedFields(username)
    ensures "first_name" !in GrowingKeys && "preferred_name" !in GrowingKeys
    ensures "filled_out" != "education" && "filled_out" != "work_history" && "education" != "work_history"
  {
  }

  /**
   The PATCH bodies after the first one is built: the first body itself, then
   after each append, then with `filled_out: True` when `filledOut` is falsy.
   */
  function SubmissionPatches(p0: map<string, Value>, filledOut: Value): (ps: seq<map<string, Value>>)
    requires "education" in p0 && p0["education"].List?
    requires "work_history" in p0 && p0["work_history"].List?
    ensures |ps| == if Truthy(filledOut) then 4 else 5
    ensures ps[0] == p0
    ensures forall i :: 0 <= i < |ps| ==>
      p0.Keys <= ps[i].Keys && forall k :: k in p0 && k !in GrowingKeys ==> ps[i][k] == p0[k]
    ensures forall i :: 0 <= i < 4 ==> ps[i].Keys == p0.Keys
    ensures HasEntry(ps[1], "education", List(p0["education"].items + [HighSchool()]))
    ensures HasEntry(ps[1], "work_history", p0["work_history"])
    ensures HasEntry(ps[2], "education", List(p0["education"].items + [HighSchool(), College()]))
    ensures HasEntry(ps[2], "work_history", p0["work_history"])
    ensures HasEntry(ps[3], "education", List(p0["education"].items + [HighSchool(), College()]))
    ensures HasEntry(ps[3], "work_history", List(p0["work_history"].items + [Job()]))
    ensures ps[|ps| - 1].Keys <= p0.Keys + {"filled_out"}
    ensures var last := ps[|ps| - 1];
      && HasEntry(last, "education", List(p0["education"].items + [HighSchool(), College()]))
      && HasEntry(last, "work_history", List(p0["work_history"].items + [Job()]))
      && ("filled_out" in last <==> "filled_out" in p0 || !Truthy(filledOut))
      && (!Truthy(filledOut) ==> HasEntry(last, "filled_out", Bool(true)))
  {
    var p1 := Append(p0, "education", HighSchool());
    var p2 := Append(p1, "education", College());
    AppendTwo(p0["education"].items, HighSchool(), College());
    var p3 := Append(p2, "work_history", Job());
    if Truthy(filledOut) then [p0, p1, p2, p3]
    else [p0, p1, p2, p3, p3["filled_out" := Bool(true)]]
  }

  /**
   The JSON bodies `profile_tabs` PATCHes, in order: the reset profile with the
   fixed fields, then after adding high school, college, and the job, and finally
   with `filled_out: True` when the original `filled_out` was falsy.
   */
  function ProfilePatches(profile: map<string, Value>, username: string): (r: Result<seq<map<string, Value>>>)
    ensures r.Ok? <==> HasResetKeys(profile)
    ensures r.Err? ==> ResetProfile(profile).Err? && r.error == ResetProfile(profile).error
    ensures r.Ok? ==> |r.value| == if Truthy(profile["filled_out"]) then 4 else 5
  {
    match ResetProfile(profile)
    case Err(e) => Err(e)
    case Ok((reset, filledOut)) =>
      KeyFacts(username);
      Ok(SubmissionPatches(FillFixedFields(reset, username), filledOut))
  }

  /** The first PATCH body: the reset profile with the fixed fields filled in. */
  lemma FirstPatchIsFilledReset(profile: map<string, Value>, username: string)
    requires HasResetKeys(profile)
    ensures var p0 := FillFixedFields(ResetProfile(profile).value.0, username);
      && HasEntry(p0, "education", List([]))
      && HasEntry(p0, "work_history", List([]))
      && "filled_out" !in p0
      && ProfilePatches(profile, username).value == SubmissionPatches(p0, profile["filled_out"])
  {
    KeyFacts(username);
  }

  /** Every PATCH body carries the username-derived names. */
  lemma ProfilePatchesKeepUsername(profile: map<string, Value>, username: string)
    requires HasResetKeys(profile)
    ensures var ps := ProfilePatches(profile, username).value;
      forall i :: 0 <= i < |ps| ==>
        && HasEntry(ps[i], "first_name", Str(username))
        && HasEntry(ps[i], "preferred_name", Str(username + " Preferred"))
  {
    FirstPatchIsFilledReset(profile, username);
    KeyFacts(username);
  }

  /**
   The education and work history grow one entry per PATCH: empty in the first,
   high school in the second, and high school, college and the job at the end.
   */
  lemma ProfilePatchesBuildHistory(profile: map<string, Value>, username: string)
    requires HasResetKeys(profile)
    ensures var ps := ProfilePatches(profile, username).value;
      && HasEntry(ps[0], "education", List([]))
      && HasEntry(ps[0], "work_history", List([]))
      && HasEntry(ps[1], "education", List([HighSchool()]))
      && HasEntry(ps[|ps| - 1], "education", List([HighSchool(), College()]))
      && HasEntry(ps[|ps| - 1], "work_history", List([Job()]))
  {
    FirstPatchIsFilledReset(profile, username);
    AppendSmall(HighSchool(), College());
    AppendSmall(Job(), Job());
  }

  /**
   The middle PATCHes add one entry each, college before the job: work history is
   still empty in the second and third bodies, education is `[hs, m]` from the
   third body on, and the fourth body adds the job.
   */
  lemma ProfilePatchesJobAfterCollege(profile: map<string, Value>, username: string)
    requires HasResetKeys(profile)
    ensures var ps := ProfilePatches(profile, username).value;
      && HasEntry(ps[1], "work_history", List([]))
      && HasEntry(ps[2], "education", List([HighSchool(), College()]))
      && HasEntry(ps[2], "work_history", List([]))
      && HasEntry(ps[3], "education", List([HighSchool(), College()]))
      && HasEntry(ps[3], "work_history", List([Job()]))
  {
    FirstPatchIsFilledReset(profile, username);
    AppendSmall(HighSchool(), College());
    AppendSmall(Job(), Job());
  }

  /**
   `filled_out` is sent, as `True`, only in the last PATCH and only when the
   fetched profile's `filled_out` was falsy.
   */
  lemma ProfilePatchesFilledOut(profile: map<string, Value>, username: string)
    requires HasResetKeys(profile)
    ensures var ps := ProfilePatches(profile, username).value;
      && (forall i :: 0 <= i < 4 ==> "filled_out" !in ps[i])
      && (Truthy(profile["filled_out"]) ==> "filled_out" !in ps[|ps| - 1])
      && (!Truthy(profile["filled_out"]) ==> HasEntry(ps[|ps| - 1], "filled_out", Bool(true)))
  {
    FirstPatchIsFilledReset(profile, username);
    KeyFacts(username);
  }

  /** The statistics name every profile request is grouped under (leading quote included). */
  const ProfileLabel: string := "'/api/v0/profiles/[username]/"

  /** A PATCH of the user's profile with `body`. */
  function ProfilePatch(username: string, csrf: Option<string>, body: map<string, Value>): (r: Request)
    ensures r.verb == Patch && r.body == Dict(body)
    ensures r.target == Path("/api/v0/profiles/" + username + "/") && r.headers == CsrfHeader(csrf)
  {
    Request(Patch, Path("/api/v0/profiles/" + username + "/"), Some(ProfileLabel), CsrfHeader(csrf), Dict(body))
  }

  /** The dictionaries as JSON values. */
  function DictsOf(bodies: seq<map<string, Value>>): (vs: seq<Value>)
    ensures |vs| == |bodies| && forall i :: 0 <= i < |bodies| ==> vs[i] == Dict(bodies[i])
  {
    seq(|bodies|, i requires 0 <= i < |bodies| => Dict(bodies[i]))
  }

  /** Converting dictionaries distributes over concatenation. */
  lemma DictsOfAppend(a: seq<map<string, Value>>, b: seq<map<string, Value>>)
    ensures DictsOf(a + b) == DictsOf(a) + DictsOf(b)
  {
  }

  /** One profile PATCH per body, in order. */
  function PatchRequests(username: string, csrf: Option<string>, bodies: seq<map<string, Value>>): (rs: seq<Request>)
    ensures |rs| == |bodies|
    ensures forall i :: 0 <= i < |bodies| ==> rs[i] == ProfilePatch(username, csrf, bodies[i])
  {
    seq(|bodies|, i requires 0 <= i < |bodies| => ProfilePatch(username, csrf, bodies[i]))
  }

  /** A run of profile PATCHes sends exactly the given bodies. */
  lemma {:induction false} PatchRequestsSendBodies(username: string, csrf: Option<string>, bodies: seq<map<string, Value>>)
    ensures BodiesOf(PatchRequests(username, csrf, bodies), Patch) == DictsOf(bodies)
  {
    var rs := PatchRequests(username, csrf, bodies);
    if bodies != [] {
      PatchRequestsSendBodies(username, csrf, bodies[1..]);
      assert rs[1..] == PatchRequests(username, csrf, bodies[1..]);
      assert DictsOf(bodies) == [Dict(bodies[0])] + DictsOf(bodies[1..]);
    }
  }

  /**
   PATCHing the first body, then some requests without PATCH, then the remaining
   bodies, after a prefix without PATCH, sends exactly the bodies.
   */
  lemma PatchesAroundMiddle(username: string, csrf: Option<string>, before: seq<Request>, middle: seq<Request>,
                            bodies: seq<map<string, Value>>)
    requires BodiesOf(before, Patch) == [] && BodiesOf(middle, Patch) == [] && bodies != []
    ensures BodiesOf(before + PatchRequests(username, csrf, bodies[..1]) + middle
      + PatchRequests(username, csrf, bodies[1..]), Patch) == DictsOf(bodies)
  {
    var first := PatchRequests(username, csrf, bodies[..1]);
    var rest := PatchRequests(username, csrf, bodies[1..]);
    PatchRequestsSendBodies(username, csrf, bodies[..1]);
    PatchRequestsSendBodies(username, csrf, bodies[1..]);
    BodiesOfInterleaved(before, first, middle, rest, Patch);
    DictsOfAppend(bodies[..1], bodies[1..]);
    SplitJoin(bodies, 1);
  }

  /**
   The five loading requests `profile_tabs` makes before touching the profile:
   GETs of the profile page, the user's profile (the one whose answer is
   reset), the dashboard, the course prices and the enrolled programs.
   */
  function ProfileLoads(username: string): (rs: seq<Request>)
    ensures |rs| == 5 && BodiesOf(rs, Patch) == []
    ensures forall i :: 0 <= i < 5 ==> rs[i].verb == Get
    ensures rs[0].target == Path("/profile/")
    ensures rs[1].target == Path("/api/v0/profiles/" + username + "/") && rs[1].statsName == Some(ProfileLabel)
    ensures rs[2].target == Path("/api/v0/dashboard/") && rs[3].target == Path("/api/v0/course_prices/")
    ensures rs[4].target == Path("/api/v0/enrolledprograms/")
  {
    var rs := [GetPath("/profile/"),
      Request(Get, Path("/api/v0/profiles/" + username + "/"), Some(ProfileLabel), map[], Null),
      GetPath("/api/v0/dashboard/"),
      GetPath("/api/v0/course_prices/"),
      GetPath("/api/v0/enrolledprograms/")];
    BodiesOfNone(rs, Patch);
    rs
  }

  /** The requests between the first PATCH and the second: enrollment and two reloads. */
  function EnrollAndReload(csrf: Option<string>, programId: Value): (rs: seq<Request>)
    ensures |rs| == 3 && BodiesOf(rs, Patch) == []
    ensures rs[0].verb == Post && rs[0].target == Path("/api/v0/enrolledprograms/")
    ensures rs[0].body == Dict(map["program_id" := programId]) && rs[0].headers == CsrfHeader(csrf)
    ensures rs[1] == GetPath("/api/v0/dashboard/") && rs[2] == GetPath("/api/v0/course_prices/")
  {
    var rs := [
      Request(Post, Path("/api/v0/enrolledprograms/"), None, CsrfHeader(csrf), Dict(map["program_id" := programId])),
      GetPath("/api/v0/dashboard/"),
      GetPath("/api/v0/course_prices/")];
    BodiesOfNone(rs, Patch);
    rs
  }

  /**
   `profile_tabs`: the loading requests, then (unless the reset raises KeyError)
   the first PATCH, the program enrollment POST, two reloads and the remaining
   PATCHes. `fetched` is the profile the GET returned.
   */
  function ProfileTabs(username: string, fetched: map<string, Value>, csrf: Option<string>, programId: Value): (t: Trace)
    ensures t.error.None? <==> ResetProfile(fetched).Ok?
    ensures t.error.Some? ==> t.sent == ProfileLoads(username) && t.error.value == ResetProfile(fetched).error
    ensures t.error.None? ==> BodiesOf(t.sent, Patch) == DictsOf(ProfilePatches(fetched, username).value)
  {
    var loads := ProfileLoads(username);
    match ProfilePatches(fetched, username)
    case Err(e) => Trace(loads, Some(e))
    case Ok(patches) =>
      var middle := EnrollAndReload(csrf, programId);
      PatchesAroundMiddle(username, csrf, loads, middle, patches);
      Trace(loads + PatchRequests(username, csrf, patches[..1]) + middle
        + PatchRequests(username, csrf, patches[1..]), None)
  }

  /** `profile_tabs` sends its loading requests first, whether or not the reset raises. */
  lemma ProfileTabsLoadsFirst(username: string, fetched: map<string, Value>, csrf: Option<string>, programId: Value)
    ensures var t := ProfileTabs(username, fetched, csrf, programId);
      |t.sent| >= 5 && t.sent[..5] == ProfileLoads(username)
  {
    var loads := ProfileLoads(username);
    var t := ProfileTabs(username, fetched, csrf, programId);
    if ProfilePatches(fetched, username).Ok? {
      var patches := ProfilePatches(fetched, username).value;
      var first := PatchRequests(username, csrf, patches[..1]);
      var middle := EnrollAndReload(csrf, programId);
      var rest := PatchRequests(username, csrf, patches[1..]);
      assert t.sent == loads + first + middle + rest;
      FourParts(loads, first, middle, rest);
    }
  }

  /**
   In the loads, the first PATCH, the enrollment block and the remaining PATCHes,
   the first PATCH is at index 5, the enrollment block at 6 to 8, and the
   remaining PATCHes make up everything after it.
   */
  lemma SuccessShape(username: string, csrf: Option<string>, programId: Value, patches: seq<map<string, Value>>)
    requires patches != []
    ensures var sent := ProfileLoads(username) + PatchRequests(username, csrf, patches[..1])
      + EnrollAndReload(csrf, programId) + PatchRequests(username, csrf, patches[1..]);
      && |sent| >= 9
      && sent[5] == ProfilePatch(username, csrf, patches[0])
      && sent[6..9] == EnrollAndReload(csrf, programId)
      && sent[9..] == PatchRequests(username, csrf, patches[1..])
  {
    var loads := ProfileLoads(username);
    var first := PatchRequests(username, csrf, patches[..1]);
    var middle := EnrollAndReload(csrf, programId);
    var rest := PatchRequests(username, csrf, patches[1..]);
    assert first[0] == ProfilePatch(username, csrf, patches[0]) by {
      assert patches[..1][0] == patches[0];
    }
    FourParts(loads, first, middle, rest);
  }

  /**
   After a successful reset, the first PATCH follows the loading requests, the
   program enrollment POST and the two reloads follow the first PATCH, and the
   remaining profile PATCHes follow them, with nothing after.
   */
  lemma ProfileTabsEnrollsAfterFirstPatch(username: string, fetched: map<string, Value>, csrf: Option<string>, programId: Value)
    requires ResetProfile(fetched).Ok?
    ensures var t := ProfileTabs(username, fetched, csrf, programId);
      && |t.sent| >= 9
      && t.sent[5] == ProfilePatch(username, csrf, ProfilePatches(fetched, username).value[0])
      && t.sent[6..9] == EnrollAndReload(csrf, programId)
      && t.sent[9..] == PatchRequests(username, csrf, ProfilePatches(fetched, username).value[1..])
  {
    SuccessShape(username, csrf, programId, ProfilePatches(fetched, username).value);
  }

  /**
   The PATCH requests `profile_tabs` sends: four, or five when the original
   `filled_out` was falsy.
   */
  lemma ProfilePatchCount(username: string, fetched: map<string, Value>, csrf: Option<string>, programId: Value)
    requires ResetProfile(fetched).Ok?
    ensures var n := |BodiesOf(ProfileTabs(username, fetched, csrf, programId).sent, Patch)|;
      n == (if Truthy(fetched["filled_out"]) then 4 else 5)
  {
  }

  // ---------------------------------------------------------------------------
  // The locust task

  /**
   `login_and_profile`: index, login, profile, logout, in that order; a KeyError in
   the profile step ends `login_and_profile` before logout.
   */
  function LoginAndProfile(
    username: string, edxBase: string, siteNetloc: string,
    edxCsrf: Option<string>, csrfJar: map<string, string>,
    fetched: map<string, Value>, programId: Value): (t: Trace)
    ensures var profile := ProfileTabs(username, fetched, SiteCsrfToken(siteNetloc, csrfJar), programId);
      && t.error == profile.error
      && t.sent == [GetPath("/")] + LoginRequests(username, edxBase, edxCsrf) + profile.sent
                   + (if profile.error.None? then LogoutRequests(edxBase) else [])
  {
    var profile := ProfileTabs(username, fetched, SiteCsrfToken(siteNetloc, csrfJar), programId);
    var before := [GetPath("/")] + LoginRequests(username, edxBase, edxCsrf) + profile.sent;
    if profile.error.Some? then Trace(before, profile.error)
    else Trace(before + LogoutRequests(edxBase), None)
  }

  /**
   Login, logout and the index page send no PATCH: the PATCH bodies of `login_and_profile` are
   exactly the profile step's.
   */
  lemma LoginAndProfilePatches(
    username: string, edxBase: string, siteNetloc: string,
    edxCsrf: Option<string>, csrfJar: map<string, string>,
    fetched: map<string, Value>, programId: Value)
    ensures BodiesOf(LoginAndProfile(username, edxBase, siteNetloc, edxCsrf, csrfJar, fetched, programId).sent, Patch)
      == BodiesOf(ProfileTabs(username, fetched, SiteCsrfToken(siteNetloc, csrfJar), programId).sent, Patch)
  {
    var profile := ProfileTabs(username, fetched, SiteCsrfToken(siteNetloc, csrfJar), programId);
    var login := LoginRequests(username, edxBase, edxCsrf);
    var head := [GetPath("/")] + login;
    var tail := if profile.error.None? then LogoutRequests(edxBase) else [];
    BodiesOfNone([GetPath("/")], Patch);
    BodiesOfAppend([GetPath("/")], login, Patch);
    BodiesOfFramed(head, profile.sent, tail, Patch);
  }
}
