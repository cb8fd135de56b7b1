/**
 The channel API wrapper of the discussion load test: the argument checks and
 request shaping it does before handing a call to the Reddit client library,
 and the request-label override it patches into the load-testing client.

 The client library is not modelled: each call into it is a `ClientCall`
 value, and what it would answer (a moderator list, a listing of subscribed
 channels) is passed in as an argument.
 */
module ChannelApi {
  import opened PyBase
  import opened Strings

  const ChannelTypePublic: string := "public"
  const ChannelTypePrivate: string := "private"

  /** The two channel types the API accepts. */
  const ValidChannelTypes: set<string> := {ChannelTypePrivate, ChannelTypePublic}

  /** The extra settings `create_channel` and `update_channel` accept. */
  const ChannelSettings: set<string> := {
    "header_title", "link_type", "public_description",
    "submit_link_label", "submit_text", "submit_text_label"
  }

  /** A call handed to the Reddit client library. */
  datatype ClientCall =
    | CreateSubreddit(name: string, title: string, subredditType: string, settings: map<string, Value>)
    | UpdateSubreddit(name: string, values: map<string, Value>)
    | Submit(channel: string, title: string, selftext: Option<string>, url: Option<string>)
    | ReplyToPost(postId: string, text: string)
    | ReplyToComment(commentId: string, text: string)
    | FrontPageHot(params: map<string, Value>)
    | ChannelHot(channel: string, params: map<string, Value>)
    | LoadMoreComments(submissionId: string, data: map<string, Value>)
    | ListSubscribedChannels(asUser: string)
    | ListModerators(channel: string)
    | AddModeratorCall(channel: string, user: string)
    | AcceptModeratorInvite(asUser: string, channel: string)

  /**
   A client call together with the `request_name` label it is issued under;
   `None` when it is issued outside any `request_name` block.
   */
  datatype LabelledCall = LabelledCall(tag: Option<string>, call: ClientCall)

  // ---------------------------------------------------------------------------
  // Channels

  /**
   `create_channel`: the type must be one of the two channel types (default
   public) and every extra setting a known one; only then is the subreddit created.
   */
  function CreateChannel(
    name: string,
    title: string,
    channelType: Option<string> := Some(ChannelTypePublic),
    otherSettings: Kwargs := []): (r: Result<ClientCall>)
    ensures r.Ok? <==>
      channelType.Some? && channelType.value in ValidChannelTypes && KeysOf(otherSettings) <= ChannelSettings
    ensures !(channelType.Some? && channelType.value in ValidChannelTypes) ==>
      r == Err(InvalidChannelType(channelType))
    ensures channelType.Some? && channelType.value in ValidChannelTypes && r.Err? ==>
      r.error.InvalidSetting? && r.error.key in KeysOf(otherSettings) && r.error.key !in ChannelSettings
    ensures r.Ok? ==> r.value.CreateSubreddit? && r.value.name == name && r.value.title == title
    ensures r.Ok? ==> r.value.subredditType == channelType.value
    ensures r.Ok? ==> r.value.settings.Keys == KeysOf(otherSettings)
    ensures r.Ok? ==> r.value.settings == ToDict(otherSettings)
  {
    if channelType.None? || channelType.value !in ValidChannelTypes then
      Err(InvalidChannelType(channelType))
    else match FirstKeyOutside(otherSettings, ChannelSettings)
      case Some(key) => Err(InvalidSetting(key))
      case None => Ok(CreateSubreddit(name, title, channelType.value, ToDict(otherSettings)))
  }

  /** Omitting the channel type creates a public channel. */
  lemma CreateChannelDefaultsToPublic(name: string, title: string)
    ensures CreateChannel(name, title) == Ok(CreateSubreddit(name, title, "public", map[]))
  {
  }

  /**
   `update_channel`: a missing type is accepted; a given one must be valid, and
   every extra setting known. The update values are the extra settings plus
   `title` and `subreddit_type` for exactly the arguments that were given.
   */
  function UpdateChannel(
    name: string,
    title: Option<string> := None,
    channelType: Option<string> := None,
    otherSettings: Kwargs := []): (r: Result<ClientCall>)
    ensures r.Ok? <==>
      (channelType.None? || channelType.value in ValidChannelTypes) && KeysOf(otherSettings) <= ChannelSettings
    ensures channelType.Some? && channelType.value !in ValidChannelTypes ==>
      r == Err(InvalidChannelType(channelType))
    ensures (channelType.None? || channelType.value in ValidChannelTypes) && r.Err? ==>
      r.error.InvalidSetting? && r.error.key in KeysOf(otherSettings) && r.error.key !in ChannelSettings
    ensures r.Ok? ==> r.value == UpdateSubreddit(name, UpdateValues(title, channelType, otherSettings))
  {
    if channelType.Some? && channelType.value !in ValidChannelTypes then
      Err(InvalidChannelType(channelType))
    else match FirstKeyOutside(otherSettings, ChannelSettings)
      case Some(key) => Err(InvalidSetting(key))
      case None => Ok(UpdateSubreddit(name, UpdateValues(title, channelType, otherSettings)))
  }

  /**
   The values `update_channel` sends: a copy of the extra settings, plus `title`
   and `subreddit_type` for exactly the arguments that are not `None`.
   */
  function UpdateValues(title: Option<string>, channelType: Option<string>, otherSettings: Kwargs): (values: map<string, Value>)
    ensures values.Keys ==
      KeysOf(otherSettings)
      + (if title.Some? then {"title"} else {})
      + (if channelType.Some? then {"subreddit_type"} else {})
    ensures title.Some? ==> values["title"] == Str(title.value)
    ensures channelType.Some? ==> values["subreddit_type"] == Str(channelType.value)
    ensures forall k :: k in KeysOf(otherSettings) && k != "title" && k != "subreddit_type" ==>
      values[k] == ToDict(otherSettings)[k]
  {
    var values := ToDict(otherSettings);
    var values := if title.Some? then values["title" := Str(title.value)] else values;
    if channelType.Some? then values["subreddit_type" := Str(channelType.value)] else values
  }

  /** The keys `update_channel` adds itself are not channel settings. */
  lemma ReservedKeysAreNotSettings()
    ensures "title" !in ChannelSettings && "subreddit_type" !in ChannelSettings
  {
  }

  /**
   On a successful update the extra settings reach the client unchanged: they
   can never collide with `title` or `subreddit_type`, which are not settings.
   */
  lemma UpdateChannelKeepsSettings(name: string, title: Option<string>, channelType: Option<string>, otherSettings: Kwargs)
    requires UpdateChannel(name, title, channelType, otherSettings).Ok?
    ensures forall k :: k in KeysOf(otherSettings) ==>
      UpdateChannel(name, title, channelType, otherSettings).value.values[k] == ToDict(otherSettings)[k]
  {
    ReservedKeysAreNotSettings();
    var values := UpdateChannel(name, title, channelType, otherSettings).value.values;
    assert values == UpdateValues(title, channelType, otherSettings);
    forall k | k in KeysOf(otherSettings)
      ensures values[k] == ToDict(otherSettings)[k]
    {
      assert k in ChannelSettings;
    }
  }

  // ---------------------------------------------------------------------------
  // Posts and comments

  /** How many of the optional arguments are not `None` (`len(list(filter(...)))`). */
  function CountGiven(args: seq<Option<string>>): (n: nat)
    ensures n <= |args|
    ensures n == 0 <==> forall i :: 0 <= i < |args| ==> args[i].None?
    ensures n == |args| <==> forall i :: 0 <= i < |args| ==> args[i].Some?
  {
    if args == [] then 0 else (if args[0].Some? then 1 else 0) + CountGiven(args[1..])
  }

  /** Exactly one of two optional arguments is given. */
  predicate ExactlyOne(a: Option<string>, b: Option<string>)
  {
    a.Some? != b.Some?
  }

  /** The "exactly one argument" check both `create_post` and `create_comment` perform. */
  lemma CountGivenIsOneIffExactlyOne(a: Option<string>, b: Option<string>)
    ensures CountGiven([a, b]) == 1 <==> ExactlyOne(a, b)
  {
    assert [a, b][1..] == [b];
    assert [b][1..] == [];
  }

  /** `create_post`: exactly one of text and url; both are passed on unchanged. */
  function CreatePost(channelName: string, title: string, text: Option<string> := None, url: Option<string> := None): (r: Result<ClientCall>)
    ensures r.Ok? <==> ExactlyOne(text, url)
    ensures r.Err? ==> r.error == ExactlyOneRequired("text", "url")
    ensures r.Ok? ==> r.value == Submit(channelName, title, text, url)
  {
    CountGivenIsOneIffExactlyOne(text, url);
    if CountGiven([text, url]) != 1 then Err(ExactlyOneRequired("text", "url"))
    else Ok(Submit(channelName, title, text, url))
  }

  /** `create_comment`: exactly one parent; a given post id wins, else the comment id. */
  function CreateComment(text: string, postId: Option<string> := None, commentId: Option<string> := None): (r: Result<ClientCall>)
    ensures r.Ok? <==> ExactlyOne(postId, commentId)
    ensures r.Err? ==> r.error == ExactlyOneRequired("post_id", "comment_id")
    ensures r.Ok? && postId.Some? ==> r.value == ReplyToPost(postId.value, text)
    ensures r.Ok? && commentId.Some? ==> r.value == ReplyToComment(commentId.value, text)
  {
    CountGivenIsOneIffExactlyOne(postId, commentId);
    if CountGiven([postId, commentId]) != 1 then Err(ExactlyOneRequired("post_id", "comment_id"))
    else if postId.Some? then Ok(ReplyToPost(postId.value, text))
    else Ok(ReplyToComment(commentId.value, text))
  }

  // ---------------------------------------------------------------------------
  // Listings

  /**
   The paging parameters of `front_page` and `list_posts`: a key for exactly the
   arguments that are not `None`, holding the argument unchanged.
   */
  function PagingParams(before: Option<string>, after: Option<string>, count: Option<int>): (p: map<string, Value>)
    ensures p.Keys <= {"before", "after", "count"}
    ensures "before" in p <==> before.Some?
    ensures "after" in p <==> after.Some?
    ensures "count" in p <==> count.Some?
    ensures before.Some? ==> p["before"] == Str(before.value)
    ensures after.Some? ==> p["after"] == Str(after.value)
    ensures count.Some? ==> p["count"] == Int(count.value)
  {
    var p := map[];
    var p := if before.Some? then p["before" := Str(before.value)] else p;
    var p := if after.Some? then p["after" := Str(after.value)] else p;
    if count.Some? then p["count" := Int(count.value)] else p
  }

  /** Reads the paging arguments back out of a parameter map. */
  function PagingArgs(p: map<string, Value>): (Option<string>, Option<string>, Option<int>)
  {
    (if "before" in p && p["before"].Str? then Some(p["before"].s) else None,
     if "after" in p && p["after"].Str? then Some(p["after"].s) else None,
     if "count" in p && p["count"].Int? then Some(p["count"].i) else None)
  }

  /** The parameter map loses nothing: the arguments are recovered from it. */
  lemma PagingParamsRoundTrip(before: Option<string>, after: Option<string>, count: Option<int>)
    ensures PagingArgs(PagingParams(before, after, count)) == (before, after, count)
  {
  }

  /** `front_page`: the hot listing of the front page with the paging parameters. */
  function FrontPage(before: Option<string> := None, after: Option<string> := None, count: Option<int> := None): (c: ClientCall)
    ensures c.FrontPageHot? && PagingArgs(c.params) == (before, after, count)
    ensures c.params == PagingParams(before, after, count)
  {
    PagingParamsRoundTrip(before, after, count);
    FrontPageHot(PagingParams(before, after, count))
  }

  /** The label `list_posts` issues its listing under. */
  const ListPostsLabel: string := "/r/[channel_name]/hot?count=0&limit=25&raw_json=1"

  /** `list_posts`: the hot listing of one channel, labelled, with the paging parameters. */
  function ListPosts(channelName: string, before: Option<string> := None, after: Option<string> := None, count: Option<int> := None): (c: LabelledCall)
    ensures c.tag == Some(ListPostsLabel)
    ensures c.call.ChannelHot? && c.call.channel == channelName
    ensures PagingArgs(c.call.params) == (before, after, count)
    ensures c.call.params == PagingParams(before, after, count)
  {
    PagingParamsRoundTrip(before, after, count);
    LabelledCall(Some(ListPostsLabel), ChannelHot(channelName, PagingParams(before, after, count)))
  }

  /** `front_page` and `list_posts` build the same parameters from the same arguments. */
  lemma FrontPageAndListPostsAgree(channelName: string, before: Option<string>, after: Option<string>, count: Option<int>)
    ensures FrontPage(before, after, count).params == ListPosts(channelName, before, after, count).call.params
  {
  }

  /**
   `more_comments`: both fullnames are split at their first underscore (IndexError
   when there is none, the parent's checked first); the comment's id is the rest
   of its fullname, and `children` defaults to the empty list when falsy.
   */
  function MoreComments(commentFullname: string, parentFullname: string, count: int, children: Option<seq<string>> := None): (r: Result<ClientCall>)
    ensures r.Ok? <==> '_' in parentFullname && '_' in commentFullname
    ensures r.Err? ==> r.error == IndexOutOfRange
    ensures r.Ok? ==> r.value.LoadMoreComments?
    ensures r.Ok? ==> r.value.data.Keys == {"id", "name", "parent_id", "children", "count"}
    ensures r.Ok? ==> exists kind, id :: '_' !in kind && commentFullname == kind + "_" + id && r.value.data["id"] == Str(id)
    ensures r.Ok? ==> exists kind :: '_' !in kind && parentFullname == kind + "_" + r.value.submissionId
    ensures r.Ok? ==> r.value.data["name"] == Str(commentFullname)
    ensures r.Ok? ==> r.value.data["parent_id"] == Str(parentFullname)
    ensures r.Ok? ==> r.value.data["count"] == Int(count)
    ensures r.Ok? ==> r.value.data["children"] == List(StrList(if children.Some? then children.value else []))
  {
    match SplitOnce(parentFullname, '_')
    case None => Err(IndexOutOfRange)
    case Some((parentKind, submissionId)) =>
      match SplitOnce(commentFullname, '_')
      case None => Err(IndexOutOfRange)
      case Some((commentKind, commentId)) =>
        var kids := if children.Some? && children.value != [] then children.value else [];
        Ok(LoadMoreComments(submissionId, map[
          "id" := Str(commentId),
          "name" := Str(commentFullname),
          "parent_id" := Str(parentFullname),
          "children" := List(StrList(kids)),
          "count" := Int(count)]))
  }

  /** A list of strings as a list value. */
  function StrList(xs: seq<string>): (v: seq<Value>)
    ensures |v| == |xs| && forall i :: 0 <= i < |xs| ==> v[i] == Str(xs[i])
  {
    seq(|xs|, i requires 0 <= i < |xs| => Str(xs[i]))
  }

  /**
   A fullname is a kind prefix without underscores, an underscore, and an id that
   may contain underscores; `more_comments` recovers exactly those ids.
   */
  lemma MoreCommentsRecoversIds(commentKind: string, commentId: string, parentKind: string, postId: string, count: int)
    requires '_' !in commentKind && '_' !in parentKind
    ensures var r := MoreComments(commentKind + "_" + commentId, parentKind + "_" + postId, count);
      r.Ok? && r.value.data["id"] == Str(commentId) && r.value.submissionId == postId
  {
    SplitOnceJoin(commentKind, '_', commentId);
    SplitOnceJoin(parentKind, '_', postId);
  }

  // ---------------------------------------------------------------------------
  // Subscribers and moderators

  /**
   `is_subscriber`: whether `channelName` is among the display names of the
   channels the subscriber's own listing returns (`listed`, in listing order).
   */
  method IsSubscriber(subscriberName: string, channelName: string, listed: seq<string>) returns (r: bool, call: ClientCall)
    ensures call == ListSubscribedChannels(subscriberName)
    ensures r <==> channelName in listed
  {
    call := ListSubscribedChannels(subscriberName);
    r := false;
    var i := 0;
    while i < |listed| && !r
      invariant 0 <= i <= |listed|
      invariant r <==> channelName in listed[..i]
      decreases |listed| - i
    {
      r := listed[i] == channelName;
      i := i + 1;
    }
    assert !r ==> listed[..i] == listed;
  }

  const ModeratorsLabel: string := "/r/[channel_name]/about/moderators/?raw_json=1"
  const AddModeratorLabel: string := "/r/[channel_name]/api/friend/?raw_json=1"
  const AcceptInviteLabel: string := "/r/[channel_name]/api/accept_moderator_invite?raw_json=1"

  /**
   `add_moderator` against a channel whose moderators are `moderators`: the list is
   fetched; only an absent user is added and then accepts the invite as themself.
   */
  function AddModerator(moderatorName: string, channelName: string, moderators: set<string>): (r: (set<string>, seq<LabelledCall>))
    ensures r.0 == moderators + {moderatorName}
    ensures |r.1| >= 1 && r.1[0] == LabelledCall(Some(ModeratorsLabel), ListModerators(channelName))
    ensures moderatorName !in moderators ==> r.1[1..] == [
      LabelledCall(Some(AddModeratorLabel), AddModeratorCall(channelName, moderatorName)),
      LabelledCall(Some(AcceptInviteLabel), AcceptModeratorInvite(moderatorName, channelName))]
    ensures moderatorName in moderators ==> |r.1| == 1
  {
    var list := LabelledCall(Some(ModeratorsLabel), ListModerators(channelName));
    if moderatorName !in moderators then
      (moderators + {moderatorName},
       [list,
        LabelledCall(Some(AddModeratorLabel), AddModeratorCall(channelName, moderatorName)),
        LabelledCall(Some(AcceptInviteLabel), AcceptModeratorInvite(moderatorName, channelName))])
    else
      (moderators, [list])
  }

  /** Adding a moderator twice changes nothing more and the second time only lists. */
  lemma AddModeratorIdempotent(moderatorName: string, channelName: string, moderators: set<string>)
    ensures var first := AddModerator(moderatorName, channelName, moderators);
      var second := AddModerator(moderatorName, channelName, first.0);
      second.0 == first.0 && |second.1| == 1
  {
  }

  // ---------------------------------------------------------------------------
  // Request labels

  /**
   The per-thread label `request_name` sets: `Unset` until the first block runs
   (the attribute does not exist), then the last value assigned, possibly `None`.
   */
  datatype LabelState = Unset | Set(current: Option<string>)

  /** A request as a caller hands it to the patched client: method, url, `name=`. */
  datatype Outgoing = Outgoing(verb: string, url: string, name: Option<string>)

  /**
   `altered_request`: the method is upper-cased, and once the label attribute
   exists it replaces the caller's name, even when it is `None`.
   */
  function AlteredRequest(state: LabelState, req: Outgoing): (sent: Outgoing)
    ensures sent.verb == Upper(req.verb) && sent.url == req.url
    ensures state.Unset? ==> sent.name == req.name
    ensures state.Set? ==> sent.name == state.current
  {
    Outgoing(Upper(req.verb), req.url, if state.Set? then state.current else req.name)
  }

  /** The requests a body issues, each passed through `altered_request` in `state`. */
  function SendAll(state: LabelState, body: seq<Outgoing>): (sent: seq<Outgoing>)
    ensures |sent| == |body|
    ensures forall i :: 0 <= i < |body| ==> sent[i] == AlteredRequest(state, body[i])
  {
    seq(|body|, i requires 0 <= i < |body| => AlteredRequest(state, body[i]))
  }

  /**
   `with request_name(name): body`. The label is set for the body's requests and
   reset to `None` afterwards; the reset is skipped when the body raises.
   */
  function RequestName(state: LabelState, name: string, body: seq<Outgoing>, raises: bool): (r: (LabelState, seq<Outgoing>))
    ensures |r.1| == |body|
    ensures forall i :: 0 <= i < |body| ==>
      r.1[i].name == Some(name) && r.1[i].verb == Upper(body[i].verb) && r.1[i].url == body[i].url
    ensures r.0 == if raises then Set(Some(name)) else Set(None)
  {
    var sent := SendAll(Set(Some(name)), body);
    (if raises then Set(Some(name)) else Set(None), sent)
  }

  /**
   After a block that completed, every request is sent with no name at all,
   whatever name its caller asked for.
   */
  lemma NameDroppedAfterBlock(state: LabelState, name: string, body: seq<Outgoing>, later: Outgoing)
    ensures AlteredRequest(RequestName(state, name, body, false).0, later).name == None
  {
  }

  /** After a block that raised, later requests keep carrying that block's name. */
  lemma NameLeaksAfterRaise(state: LabelState, name: string, body: seq<Outgoing>, later: Outgoing)
    ensures AlteredRequest(RequestName(state, name, body, true).0, later).name == Some(name)
  {
  }
}
