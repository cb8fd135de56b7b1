/**
 The open-discussions user-creation load test: a task set that creates up to a
 fixed number of users and updates random ones among those it created, through a
 patched client that validates the update's keyword arguments itself.
 */
module UsersCreation {
  import opened PyBase
  import opened Http

  // ---------------------------------------------------------------------------
  // Patched client

  /**
   `patch_get_session`: a replacement for the API client's session getter that
   ignores the API object it is called on and returns the load-testing client.
   */
  function PatchGetSession<Client, Api(!new)>(client: Client): (getSession: Api -> Client)
    ensures forall api :: getSession(api) == client
  {
    (api: Api) => client
  }

  /** The statistics label of every user update. */
  const UpdateLabel: string := "/users/[username]/"

  /** The path of a user's resource; `quote` is the library's URL quoting, left uninterpreted. */
  function UserPath(username: string, quote: string -> string): (path: string)
    ensures |path| == |quote(username)| + 8
    ensures path[..7] == "/users/" && path[|path| - 1..] == "/"
    ensures path[7..|path| - 1] == quote(username)
  {
    "/users/" + quote(username) + "/"
  }

  /**
   `patched_user_update`: reject an empty update, then reject the first keyword
   argument (in argument order) that is not a supported user attribute, then PATCH
   `{"profile": profile}` to the user's resource under the API's base URL. The
   library's supported-attribute set and quoting are parameters.
   */
  function PatchedUserUpdate(baseUrl: string, username: string, profile: Kwargs,
                             supported: set<string>, quote: string -> string): (r: Result<Request>)
    ensures r.Ok? <==> profile != [] && KeysOf(profile) <= supported
    ensures profile == [] ==> r == Err(NoFieldsProvided)
    ensures profile != [] && r.Err? ==>
      r.error.UnsupportedAttribute? && r.error.key in KeysOf(profile) && r.error.key !in supported
    ensures r.Ok? ==>
      r.value.verb == Patch && r.value.target == Joined(baseUrl, UserPath(username, quote))
      && r.value.statsName == Some(UpdateLabel)
  {
    if profile == [] then Err(NoFieldsProvided)
    else
      match FirstKeyOutside(profile, supported)
      case Some(key) =>
        Err(UnsupportedAttribute(key))
      case None =>
        Ok(Request(Patch, Joined(baseUrl, UserPath(username, quote)), Some(UpdateLabel), map[],
          Dict(map["profile" := Dict(ToDict(profile))])))
  }

  /**
   The unsupported key an update reports is the first one in argument order:
   every argument before it is supported.
   */
  lemma UpdateReportsFirstUnsupported(baseUrl: string, username: string, profile: Kwargs,
                                      supported: set<string>, quote: string -> string)
    requires PatchedUserUpdate(baseUrl, username, profile, supported, quote).Err?
    requires profile != []
    ensures var key := PatchedUserUpdate(baseUrl, username, profile, supported, quote).error.key;
      exists i :: 0 <= i < |profile| && profile[i].0 == key
        && forall j :: 0 <= j < i ==> profile[j].0 in supported
  {
    var key := FirstKeyOutside(profile, supported).value;
    var i :| 0 <= i < |profile| && profile[i].0 == key && KeysOf(profile[..i]) <= supported;
    forall j | 0 <= j < i ensures profile[j].0 in supported {
      assert profile[..i][j].0 in KeysOf(profile[..i]);
    }
  }

  /**
   A successful update's body is `{"profile": …}` holding exactly the keyword
   arguments, each with its value (Python keyword arguments have distinct names).
   */
  lemma UpdateBodyCarriesProfile(baseUrl: string, username: string, profile: Kwargs,
                                 supported: set<string>, quote: string -> string)
    requires PatchedUserUpdate(baseUrl, username, profile, supported, quote).Ok?
    requires forall i, j :: 0 <= i < j < |profile| ==> profile[i].0 != profile[j].0
    ensures var body := PatchedUserUpdate(baseUrl, username, profile, supported, quote).value.body;
      && body.Dict? && body.fields.Keys == {"profile"}
      && body.fields["profile"].Dict?
      && body.fields["profile"].fields.Keys == KeysOf(profile)
      && forall i :: 0 <= i < |profile| ==> body.fields["profile"].fields[profile[i].0] == profile[i].1
  {
    var d := ToDict(profile);
    forall i | 0 <= i < |profile| ensures d[profile[i].0] == profile[i].1 {
      assert LastOccurrence(profile, i);
    }
  }

  // ---------------------------------------------------------------------------
  // Task state

  /** `discussion_usernames_number`: how many users one task set creates at most. */
  const DiscussionUsernamesNumber: nat := 100

  /** What one `create_users` did: whether it asked the API to create a user, and the list after. */
  datatype CreateStep = CreateStep(requested: bool, usernames: seq<string>)

  /**
   `create_users`: nothing once the list holds `DiscussionUsernamesNumber` names;
   otherwise ask for a new user, and keep its username when the response status is 201.
   */
  function CreateUsers(usernames: seq<string>, status: int, created: string): (s: CreateStep)
    ensures s.requested <==> |usernames| < DiscussionUsernamesNumber
    ensures usernames <= s.usernames
    ensures |s.usernames| == |usernames| + 1 <==> s.requested && status == 201
    ensures |s.usernames| != |usernames| + 1 ==> s.usernames == usernames
    ensures |s.usernames| == |usernames| + 1 ==> s.usernames[|usernames|] == created
  {
    if |usernames| >= DiscussionUsernamesNumber then CreateStep(false, usernames)
    else if status == 201 then CreateStep(true, usernames + [created])
    else CreateStep(true, usernames)
  }

  /** The server's answer to one create request: its status and the username in its body. */
  datatype Response = Response(status: int, username: string)

  /** `create_users` run once per response, in order. */
  function CreateAll(usernames: seq<string>, responses: seq<Response>): (final: seq<string>)
    ensures usernames <= final
    ensures |final| <= |usernames| + |responses|
    ensures |usernames| <= DiscussionUsernamesNumber ==> |final| <= DiscussionUsernamesNumber
    ensures |usernames| >= DiscussionUsernamesNumber ==> final == usernames
    decreases |responses|
  {
    if responses == [] then usernames
    else CreateAll(CreateUsers(usernames, responses[0].status, responses[0].username).usernames, responses[1..])
  }

  /** How many responses report status 201. */
  function CountCreated(responses: seq<Response>): nat
  {
    if responses == [] then 0
    else (if responses[0].status == 201 then 1 else 0) + CountCreated(responses[1..])
  }

  /**
   However many times `create_users` runs, the list never shrinks or reorders, it
   never exceeds `DiscussionUsernamesNumber`, and it gains one name per 201 until
   it is full.
   */
  lemma {:induction false} CreateAllBounded(usernames: seq<string>, responses: seq<Response>)
    requires |usernames| <= DiscussionUsernamesNumber
    ensures usernames <= CreateAll(usernames, responses)
    ensures |CreateAll(usernames, responses)| <= DiscussionUsernamesNumber
    ensures |CreateAll(usernames, responses)|
      == if |usernames| + CountCreated(responses) <= DiscussionUsernamesNumber
         then |usernames| + CountCreated(responses)
         else DiscussionUsernamesNumber
    decreases |responses|
  {
    if responses != [] {
      var next := CreateUsers(usernames, responses[0].status, responses[0].username).usernames;
      CreateAllBounded(next, responses[1..]);
    }
  }

  /** The keyword arguments `update_users` passes: a fresh name and three cleared images. */
  function UpdateKwargs(name: string): (kw: Kwargs)
    ensures KeysOf(kw) == {"name", "image", "image_small", "image_medium"}
    ensures forall i, j :: 0 <= i < j < |kw| ==> kw[i].0 != kw[j].0
  {
    var kw := [("name", Str(name)), ("image", Null), ("image_small", Null), ("image_medium", Null)];
    assert kw[0].0 in KeysOf(kw) && kw[1].0 in KeysOf(kw) && kw[2].0 in KeysOf(kw) && kw[3].0 in KeysOf(kw);
    kw
  }

  /**
   `update_users`: nothing when no user has been created yet; otherwise update a
   username picked at random from the list. `fakeName` is the generated name.
   */
  method UpdateUsers(usernames: seq<string>, fakeName: string, baseUrl: string,
                     supported: set<string>, quote: string -> string)
    returns (out: Option<(string, Result<Request>)>)
    ensures out.None? <==> usernames == []
    ensures out.Some? ==> out.value.0 in usernames
    ensures out.Some? ==> out.value.1 == PatchedUserUpdate(baseUrl, out.value.0, UpdateKwargs(fakeName), supported, quote)
    ensures out.Some? ==> (out.value.1.Ok? <==> {"name", "image", "image_small", "image_medium"} <= supported)
  {
    if |usernames| == 0 {
      return None;
    }
    assert usernames[0] in usernames;
    var username :| username in usernames;
    var kw := UpdateKwargs(fakeName);
    out := Some((username, PatchedUserUpdate(baseUrl, username, kw, supported, quote)));
  }
}
