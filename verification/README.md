# Load-test scripts: request shaping, profile transformation and task state

This project models the decision and payload-building logic inside four locust
load-test scripts. It proves the properties those scripts rely on.

- **Channel API wrapper** (open discussions). This part covers:
  - the checks `create_channel`, `update_channel`, `create_post` and `create_comment` make before calling the Reddit client library;
  - the paging parameters of `front_page` and `list_posts`;
  - the splitting of Reddit "fullnames" in `more_comments`;
  - the subscriber and moderator checks;
  - the request-label override that `request_name` and the patched `altered_request` put on the load-testing client.
- **First login** (MicroMasters). This part covers:
  - the cookie domain derived from the site's network location;
  - the login and logout requests;
  - the profile reset;
  - the fixed sequence of profile PATCH bodies, including the conditional final `filled_out` patch;
  - the order of the whole task.
- **Rapid response** (edX). This part covers:
  - the logged-in cookie test;
  - the answer URL and form;
  - the random choice of block and answer;
  - the login and enrollment requests;
  - the shared set of enrolled usernames across any sequence of `login_and_enroll` calls.
- **User creation** (open discussions). This part covers:
  - the patched session getter;
  - the validation and payload of the patched user update;
  - the bounded, append-only list of created usernames;
  - the random choice made by `update_users`.

Modelling choices:
- **Python values.** `None` is `Option.None`. An exception is `Result.Err` with one
  `Error` constructor per kind of raise. JSON payloads are the `Value` datatype, and
  Python truthiness is `Truthy`.
- **Keyword arguments.** A `**kwargs` dictionary keeps Python's argument order as a
  `seq<(string, Value)>`, so "the first offending key" is well defined.
- **Outside calls and randomness.** Calls into the Reddit client library are
  `ClientCall` values. What a server or library answers is passed in as an argument:
  cookies, a fetched profile, a status code, a moderator set, a listing.
  `random.choice` is a nondeterministic choice (`:|`) of a member of the list.
- **Traffic.** The HTTP traffic a task generates is a list of `Http.Request` records
  in sending order. The label override is the one exception: it works on the request
  a caller hands to the patched client, whose method is still free text, so it has
  its own `ChannelApi.Outgoing` record.

Modules: `PyBase` (Python values, exceptions, keyword arguments), `Strings`
(splitting at a separator, prefix and suffix stripping, ASCII upper-casing), `Http`
(requests), `ChannelApi`, `FirstLogin`, `RapidResponse`, `UsersCreation`.

### Request-label state

The label state is modelled as written. `request_name` assigns the label, runs its
block, and then assigns `None`. The reset is not in a `finally`, so it is skipped
when the block raises. Once the label has been assigned, `altered_request` always
uses it in place of the caller's `name=`, even when it is `None`. Two lemmas state
what follows:
- `NameDroppedAfterBlock`: after a completed block, every later request loses the
  name its caller gave it.
- `NameLeaksAfterRaise`: after a block that raised, later requests keep that block's
  label.

## Model

| member | source | states |
|---|---|---|
| `PyBase.FirstKeyOutside` | open_discussions/channels/channel_api.py:214-216 | The `for key in kwargs: if key not in allowed: raise` loop. The result is `None` exactly when every key is allowed. Otherwise it is a key outside the allowed set, and every key before it in argument order is allowed. |
| `PyBase.FirstMissing` | micromasters/first_login.py:92-99 | The reset's KeyError order: `None` exactly when every key is present. Otherwise the result is a missing key, and every key before it in the list is present. |
| `PyBase.ToDict` | open_discussions/channels/channel_api.py:245 | The dictionary a keyword-argument list denotes has exactly the list's keys. Each key maps to its last value. |
| `Strings.SplitOnce` | open_discussions/channels/channel_api.py:442-443 | `s.split(c, 1)` yields two parts exactly when `c` occurs in `s`. Then `s` is head + c + tail, and the head contains no `c`. |
| `Strings.SplitOnceJoin` | open_discussions/channels/channel_api.py:442-443 | Splitting at the first `c` recovers any `c`-free head and any tail, even a tail that contains `c`. |
| `Strings.BeforeFirst` | micromasters/first_login.py:51-52 | `s.split(c)[0]` is a prefix of `s` without `c`. It equals `s` exactly when `c` does not occur; otherwise a `c` follows it in `s`. |
| `Strings.Upper` | open_discussions/channels/channel_api.py:55 | The upper-cased method name has the same length, each lower-case ASCII letter becomes its capital and every other character is kept, so no lower-case ASCII letter remains. |
| `Http.LoginEmail` | micromasters/first_login.py:36 | The login e-mail is the username followed by `@example.com`. |
| `Http.LoginForm` | micromasters/first_login.py:35-39 | The edX login form has exactly the keys email, password and remember. It carries the derived e-mail, the given password and `"false"`. |
| `ChannelApi.CreateChannel` | open_discussions/channels/channel_api.py:198-223 | Succeeds exactly when the type is `private` or `public` and every extra setting is one of the six channel settings. A bad type is reported first, naming the type. Otherwise the error names an unknown setting. On success the subreddit is created with the name, title, type and exactly the given settings. |
| `ChannelApi.CreateChannelDefaultsToPublic` | open_discussions/channels/channel_api.py:198 | Without a type or settings, a public channel is created. |
| `ChannelApi.UpdateChannel` | open_discussions/channels/channel_api.py:225-252 | A `None` type is accepted and only a given type is validated. Succeeds exactly when the type is absent or valid and every extra setting is known. The errors are the same as for creation. The update is sent to the named channel with the merged values. |
| `ChannelApi.UpdateValues` | open_discussions/channels/channel_api.py:245-249 | The update values have keys = the extra settings, plus `title` exactly when a title is given, plus `subreddit_type` exactly when a type is given. The given title and type are stored as values. Other settings keep the values from the arguments. |
| `ChannelApi.UpdateChannelKeepsSettings` | open_discussions/channels/channel_api.py:241-249 | On a successful update every extra setting reaches the client with its argument value: a setting can never be overwritten by `title` or `subreddit_type`. |
| `ChannelApi.CountGiven` | open_discussions/channels/channel_api.py:270 | The count of given arguments is at most the number of arguments. It is 0 exactly when none is given, and equals the number of arguments exactly when all are given. |
| `ChannelApi.CountGivenIsOneIffExactlyOne` | open_discussions/channels/channel_api.py:270 | The `len(list(filter(... is not None ...))) != 1` test fails exactly when exactly one of the two arguments is given. |
| `ChannelApi.CreatePost` | open_discussions/channels/channel_api.py:254-272 | Succeeds exactly when exactly one of text and url is given, and raises the "exactly one" error otherwise. Text, url, title and channel are passed on unchanged. |
| `ChannelApi.CreateComment` | open_discussions/channels/channel_api.py:357-378 | Succeeds exactly when exactly one of post id and comment id is given. Replies to the post when the post id is given, and to the comment otherwise. |
| `ChannelApi.PagingParams` | open_discussions/channels/channel_api.py:287-293 | The parameter map has key `before`/`after`/`count` exactly when that argument is not `None`, with the value unchanged, and no other key. |
| `ChannelApi.PagingParamsRoundTrip` | open_discussions/channels/channel_api.py:287-293 | The three paging arguments can be read back from the parameter map. |
| `ChannelApi.FrontPage` | open_discussions/channels/channel_api.py:274-295 | The front page's hot listing carries exactly the paging parameter map: a key for each given argument and no other. The given paging arguments are recovered from it. |
| `ChannelApi.ListPosts` | open_discussions/channels/channel_api.py:297-322 | The channel's hot listing is issued under the `/r/[channel_name]/hot…` label. Its parameters are exactly the paging parameter map, from which the given paging arguments are recovered. |
| `ChannelApi.FrontPageAndListPostsAgree` | open_discussions/channels/channel_api.py:311-317 | `front_page` and `list_posts` build identical parameters from identical arguments. |
| `ChannelApi.MoreComments` | open_discussions/channels/channel_api.py:429-454 | Fails with IndexError exactly when either fullname lacks `_`. On success: the comment id and submission id are the text after the first `_` of their fullnames; the data has exactly the keys id, name, parent_id, children and count; name and parent_id are the fullnames; count is unchanged; children is the given list, or empty when none is given. |
| `ChannelApi.MoreCommentsRecoversIds` | open_discussions/channels/channel_api.py:442-445 | For any `_`-free kinds and any ids, even ids containing `_`, `more_comments` recovers exactly the ids. |
| `ChannelApi.IsSubscriber` | open_discussions/channels/channel_api.py:590-602 | True exactly when the channel name is among the display names of the subscriber's own channel listing. The listing is requested as the subscriber. |
| `ChannelApi.AddModerator` | open_discussions/channels/channel_api.py:497-517 | The moderator list is always fetched under its label. An absent user is added and then accepts the invite as themself. A present user causes no further call. In every case the user ends up in the moderator set. |
| `ChannelApi.AddModeratorIdempotent` | open_discussions/channels/channel_api.py:508-517 | Adding the same moderator twice leaves the set as after the first call, and the second call only lists. |
| `ChannelApi.AlteredRequest` | open_discussions/channels/channel_api.py:53-63 | The method is upper-cased and the URL kept. The caller's name is used only while the label attribute does not exist; afterwards the label replaces it, even when the label is `None`. |
| `ChannelApi.RequestName` | open_discussions/channels/channel_api.py:68-72 | Every request of the block is sent under the block's name. Afterwards the label is `None`, or still the block's name if the block raised. |
| `ChannelApi.NameDroppedAfterBlock` | open_discussions/channels/channel_api.py:53-72 | After a completed block, a later request is sent with no name, whatever name its caller gave. |
| `ChannelApi.NameLeaksAfterRaise` | open_discussions/channels/channel_api.py:68-72 | After a block that raised, a later request is sent under that block's name. |
| `FirstLogin.CookieDomain` | micromasters/first_login.py:49-52 | The cookie domain contains no `:` and is a prefix of the network location. It is the location unchanged when that has no `:`; otherwise a `:` follows it. |
| `FirstLogin.CookieDomainStripsPort` | micromasters/first_login.py:50-52 | `host:port` yields the host for any port text. |
| `FirstLogin.LoginRequests` | micromasters/first_login.py:22-47 | The login sends three requests: the edX login page, the edX login form, then the MicroMasters edX login. The form has password `test` and the login page's CSRF token. None of the three is a PATCH. |
| `FirstLogin.SiteCsrfToken` | micromasters/first_login.py:49-53 | The kept token is the `csrftoken` cookie of the derived cookie domain, or `None` when there is none. |
| `FirstLogin.LogoutRequests` | micromasters/first_login.py:55-68 | The logout is two GETs, edX first and then MicroMasters, and no PATCH. |
| `FirstLogin.ResetProfile` | micromasters/first_login.py:89-99 | Succeeds exactly when the profile has the terms, filled_out, email_optin and image keys; otherwise the KeyError names the first missing one in the order the code touches them. On success: education and work history are empty lists; filled_out, email_optin and image are removed; the terms flag is removed when it was `True` and set to `True` otherwise; every other key is unchanged; the original filled_out is returned. |
| `FirstLogin.FixedFields` | micromasters/first_login.py:102-114 | The fixed fields are exactly the eleven overwritten keys. `first_name` is the username and `preferred_name` is the username followed by " Preferred". |
| `FirstLogin.FillFixedFields` | micromasters/first_login.py:102-114 | The fixed fields overwrite the profile; every other key keeps its value. |
| `FirstLogin.HighSchool` | micromasters/first_login.py:132-143 | The high-school entry is a JSON dictionary; its keys and degree are stated by `FirstLogin.EntryKinds`. |
| `FirstLogin.College` | micromasters/first_login.py:151-163 | The college entry is a JSON dictionary; its keys and degree are stated by `FirstLogin.EntryKinds`. |
| `FirstLogin.Job` | micromasters/first_login.py:172-184 | The job entry is a JSON dictionary; its keys and company are stated by `FirstLogin.EntryKinds`. |
| `FirstLogin.EntryKinds` | micromasters/first_login.py:132-184 | The two education entries are the `hs` and `m` degrees, and the work-history entry is the job at `MIT`. The high-school entry has exactly the eight school keys, the college entry those plus `graduation_date_edit`, and the job exactly its nine keys, including `start_date_edit`. |
| `FirstLogin.SubmissionPatches` | micromasters/first_login.py:116-202 | There are four bodies, or five when filled_out was falsy. The first body is the filled reset profile. No key other than education, work history and filled_out ever changes, and the last body adds no key other than filled_out. The second body adds the high-school entry to education, the third adds the college entry, and the fourth adds the job to work history; work history is unchanged in the second and third. The first four bodies have the first one's keys. The last body has filled_out exactly when the first did or filled_out was falsy, and then holds `True`. |
| `FirstLogin.ProfilePatches` | micromasters/first_login.py:89-202 | Fails exactly when the reset fails, with the reset's KeyError. Otherwise it produces 4 or 5 bodies, by the original filled_out. |
| `FirstLogin.FirstPatchIsFilledReset` | micromasters/first_login.py:89-121 | The first PATCH body is the reset profile with the fixed fields filled in. It has empty education and work history and no filled_out. |
| `FirstLogin.ProfilePatchesKeepUsername` | micromasters/first_login.py:107-112 | Every PATCH body carries `first_name` = username and `preferred_name` = username + " Preferred". |
| `FirstLogin.ProfilePatchesBuildHistory` | micromasters/first_login.py:130-184 | Education is empty in the first body and `[hs]` in the second. At the end it is exactly `[hs, m]`, and work history is exactly `[job]`. |
| `FirstLogin.ProfilePatchesJobAfterCollege` | micromasters/first_login.py:150-190 | Work history is still empty in the second and third bodies. Education is `[hs, m]` in the third and fourth bodies, and the fourth body's work history is `[job]`. |
| `FirstLogin.ProfilePatchesFilledOut` | micromasters/first_login.py:192-202 | The first four bodies lack filled_out. The last body carries `filled_out: True` exactly when the original filled_out was falsy. |
| `FirstLogin.ProfilePatch` | micromasters/first_login.py:116-121 | A profile PATCH goes to the user's profile path with the CSRF header and carries the body as a JSON dictionary. |
| `FirstLogin.PatchRequests` | micromasters/first_login.py:116-121 | One profile PATCH per body, in the order of the bodies. |
| `FirstLogin.ProfileLoads` | micromasters/first_login.py:78-87 | The five loading requests are GETs, in order, of the profile page, the user's profile (under the profile label), the dashboard, the course prices and the enrolled programs. None is a PATCH. |
| `FirstLogin.EnrollAndReload` | micromasters/first_login.py:122-128 | The enrollment block is a POST of the program id to enrolled programs with the CSRF header, then GETs of the dashboard and the course prices. None is a PATCH. |
| `FirstLogin.ProfileTabs` | micromasters/first_login.py:74-202 | The step fails exactly when the reset raises; then only the loading requests were sent, and the error is the reset's. Otherwise the PATCH requests sent carry exactly the profile bodies, in order. Where each request sits is stated by the two lemmas that follow. |
| `FirstLogin.ProfileTabsLoadsFirst` | micromasters/first_login.py:78-87 | Whether or not the reset raises, the profile step begins with the five loading requests. |
| `FirstLogin.ProfileTabsEnrollsAfterFirstPatch` | micromasters/first_login.py:116-202 | After a successful reset, the sixth request is the PATCH of the first body, and the next three are the enrollment POST and the two reloads. Everything after them is exactly the PATCHes of the remaining bodies, in order, each to the profile path with the CSRF header. |
| `FirstLogin.ProfilePatchCount` | micromasters/first_login.py:116-202 | A successful profile step sends four PATCH requests, or five when the original filled_out was falsy. |
| `FirstLogin.LoginAndProfile` | micromasters/first_login.py:204-215 | `login_and_profile` runs index, then login, then the profile step, then logout (skipped when the profile step raises), and ends with the profile step's error. |
| `FirstLogin.LoginAndProfilePatches` | micromasters/first_login.py:209-215 | The PATCH bodies of `login_and_profile` are exactly the profile step's. |
| `RapidResponse.IsLoggedIntoEdx` | rapid_response/loadtest_rapid_response.py:9-10 | Logged in exactly when the `edxloggedin` cookie is present and equals `"true"`. |
| `RapidResponse.AnswerPostUrl` | rapid_response/loadtest_rapid_response.py:22-27 | The URL is `/courses/`, the course id, `/xblock/`, the block id and `/handler/xmodule_handler/problem_check`, each at its own position, for any ids (also course ids containing `/`). |
| `RapidResponse.AnswerUrlParts` | rapid_response/loadtest_rapid_response.py:23-27 | Whatever course and block ids the reader extracts from a text build exactly that text back, and the course id has no `/`. |
| `RapidResponse.AnswerUrlRoundTrip` | rapid_response/loadtest_rapid_response.py:23-27 | For a course id without `/`, the course and block ids are read back from the URL. |
| `RapidResponse.AnswerPostDict` | rapid_response/loadtest_rapid_response.py:29-31 | The answer form has exactly one key. That key names the choice group through the `input_` prefix and holds the answer. |
| `RapidResponse.ChoiceGroupOf` | rapid_response/loadtest_rapid_response.py:31 | A form key names a choice group exactly when it starts with `input_`, and `input_` + the choice group is the key. |
| `RapidResponse.ChoiceGroupOfInput` | rapid_response/loadtest_rapid_response.py:31 | The key built for a choice group reads back as that choice group. |
| `RapidResponse.AnswerRequest` | rapid_response/loadtest_rapid_response.py:45-52 | The submission is a POST to the block's answer URL, named "Problem Submission", with the session's CSRF cookie and the answer form. |
| `RapidResponse.SubmitAnswer` | rapid_response/loadtest_rapid_response.py:33-52 | `submit_answer` stops exactly when the session is not logged in. An IndexError is possible only when the course has no blocks or some block has no answers. If every block has an answer, a logged-in session always submits. The submitted block is one of the course's blocks, and the answer is one of that block's answers. |
| `RapidResponse.LoginRequests` | rapid_response/loadtest_rapid_response.py:74-94 | The login is two requests: the login page, then the login form. The form has password `edx` and headers exactly Referer `/login` and the login page's CSRF token. |
| `RapidResponse.EnrollmentForm` | rapid_response/loadtest_rapid_response.py:103-106 | The enrollment form has exactly the keys course_id and enrollment_action, holding the course and the action. |
| `RapidResponse.EnrollmentPosts` | rapid_response/loadtest_rapid_response.py:100-111 | One POST to `/change_enrollment` per action, in order. Each has the course, the action, the CSRF cookie read just before that POST, and a per-action name. |
| `RapidResponse.EnrollRequests` | rapid_response/loadtest_rapid_response.py:96-111 | Enrolling sends two POSTs, the unenroll form before the enroll form. Each carries the CSRF cookie as read just before it, so a token refreshed by the unenroll response reaches the enroll POST. |
| `RapidResponse.EnrollmentUpdate` | rapid_response/loadtest_rapid_response.py:112-121 | `_enroll` runs exactly when the username is not in the shared set, and the set afterwards is the old set plus the username. |
| `RapidResponse.LoginAndEnroll` | rapid_response/loadtest_rapid_response.py:114-121 | Logs in exactly when the session's cookies fail the logged-in test, and enrolls only when the username is not yet in the shared set. Afterwards the username is in the set and nothing else has been added. |
| `RapidResponse.Run` | rapid_response/loadtest_rapid_response.py:112-121 | Over any sequence of calls the shared set only grows. |
| `RapidResponse.RunFinalSet` | rapid_response/loadtest_rapid_response.py:112-121 | After any sequence of calls the shared set is the initial set plus every caller. |
| `RapidResponse.RunEnrollsOnce` | rapid_response/loadtest_rapid_response.py:118-121 | Over any sequence of calls, each run from start to end before the next begins, no username is enrolled twice, and none already in the set is enrolled. Overlapping calls are not covered (see Left out). |
| `RapidResponse.RunEnrollsEveryNewcomer` | rapid_response/loadtest_rapid_response.py:118-121 | Every caller not initially in the set is enrolled at some point. |
| `UsersCreation.PatchGetSession` | open_discussions/users_creation.py:21-27 | The patched getter ignores its argument and always returns the captured client. |
| `UsersCreation.UserPath` | open_discussions/users_creation.py:42 | The path is `/users/` + the quoted username + `/`. |
| `UsersCreation.PatchedUserUpdate` | open_discussions/users_creation.py:30-45 | An empty update fails with "no fields". Otherwise the update succeeds exactly when every key is a supported attribute, and a failure names an unsupported key given by the caller. The update is a PATCH to the user's path under the update label. |
| `UsersCreation.UpdateReportsFirstUnsupported` | open_discussions/users_creation.py:37-39 | The reported key is the first unsupported one in argument order. |
| `UsersCreation.UpdateBodyCarriesProfile` | open_discussions/users_creation.py:41-45 | The body is `{"profile": …}`, holding exactly the keyword arguments with their values. |
| `UsersCreation.CreateUsers` | open_discussions/users_creation.py:68-76 | A request is made exactly when the list has fewer than 100 names. The list grows by one name, the created username, exactly when a request was made and the status is 201. Otherwise the list is unchanged. |
| `UsersCreation.CreateAll` | open_discussions/users_creation.py:68-76 | Repeated `create_users` keeps the old list as a prefix and adds at most one name per response. Starting from at most 100 names it stays at most 100; a full list never changes. |
| `UsersCreation.CreateAllBounded` | open_discussions/users_creation.py:68-76 | Starting from at most 100 names, any number of runs keeps the old list as a prefix and never exceeds 100. The final length is the initial length plus the number of 201 responses, capped at 100. |
| `UsersCreation.UpdateKwargs` | open_discussions/users_creation.py:84-90 | `update_users` passes exactly the distinct keys name, image, image_small and image_medium. |
| `UsersCreation.UpdateUsers` | open_discussions/users_creation.py:78-90 | Does nothing exactly when no username has been created. Otherwise it updates a username from the list. That update succeeds exactly when the four keys are supported attributes. |

## Left out

- **Libraries.**
  - The Reddit client library (praw) and its objects are not modelled. Each call into it is a `ClientCall` value. Its answers (listings, moderator lists) are arguments.
  - The other `Api` methods are not modelled: `list_channels`, `get_channel`, `get_post`, `update_post`, the contributor and subscriber management, and the comment listing.
  - `get_or_create_user` and the client and session construction are not modelled.
- **HTTP, cookies and JSON.** Sessions, cookies, responses and JSON decoding are external I/O. Cookie jars, status codes, fetched profiles and created usernames are arguments.
- **Library string helpers.**
  - `urljoin` is a `Target.Joined` value.
  - `urlparse` is not modelled: the network location is an argument.
  - `quote` is an uninterpreted function argument.
- **Settings and random data.**
  - Settings values are arguments: base URLs, user lists, course data and program id.
  - Generated names from `Faker` are arguments.
  - `random.choice` is a nondeterministic choice.
- **Locust.**
  - Scheduling, task weights, waits and `on_start` are not modelled.
  - The `stop` tasks are not modelled.
  - `interrupt` is modelled only as the `Interrupted` outcome.
- **Concurrency.**
  - `threading.local` is a single sequential label state.
  - The enrolled set shared by all simulated learners is modelled as one set threaded through any sequence of calls.
  - Each `login_and_enroll` call is treated as one indivisible step. In the source the membership test (line 120) and the `add` (line 112) are separated by the two enrollment POSTs. The set is a class attribute shared by every learner, and learners pick their usernames with `random.choice`, so two learners can share a username. When locust switches learners during those POSTs, two learners with the same username can both pass the test and both enroll. The `Run` lemmas therefore cover only calls that do not overlap.
- **Monkey-patching.** The assignments that install the patched functions are not modelled; only the patched functions are.
- **Python types.**
  - Floats and other Python types are not values of the model.
  - `Truthy` covers null, booleans, integers, strings, lists and dictionaries.
  - `Upper` upper-cases ASCII letters only.
- **Unmodelled errors.**
  - The fetched profile is assumed to be a JSON object.
  - The rapid-response course data is assumed to have its keys.
  - The created-user response is assumed to have a `username` key.
  - KeyErrors from these settings and responses are not modelled.
- `ChannelApi.AddModerator`: membership in the moderator list is exact string equality. The client library compares a `Redditor` with a string case-insensitively, so this contract is weaker for usernames that differ only in case.
- `ChannelApi.ListPosts`: the tag records the `request_name` block the listing is created in. The client library fetches listings lazily, so which label the request is finally sent under depends on the library, which is not modelled.
- `ChannelApi.FrontPage`: the `limit=` setting passed with the listing is not part of the call value.
- `ChannelApi.ListPosts`: the `limit=` setting passed with the listing is not part of the call value either.
- `RapidResponse.RunEnrollsOnce`: states "no username is enrolled twice" only for calls that do not overlap, because each call is one indivisible step of the model (see Concurrency).
- `UsersCreation.CreateUsers`: the user-creation request itself is made by the API library. Only the fact that it is made (`requested`) is modelled, not its content.
