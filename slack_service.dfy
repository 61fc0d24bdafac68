/** The Slack service's own logic around the Web API: the client guard,
    the per-token bot-id cache, the channel-name sanitiser, the paged
    channel search, the invite calls (plain and safe, with their
    error-as-success cases), the archive call and the workspace user
    filter. Every Web API answer is an input. */
module SlackService {
  import opened Wrappers
  import opened Text
  import opened PyValue

  type Dict = seq<(string, Value)>

  const NO_TOKEN: string := "Slack Bot Tokenが指定されていません。Firestoreのservice_configsからトークンを取得して渡してください。"

  /** `get_client`: an empty or missing token raises `ValueError`
      (`Err` with its message). */
  function GetClient(token: Option<string>): (r: Result<string, string>)
    ensures r.Err? <==> token.None? || token.value == ""
    ensures r.Err? ==> r.error == NO_TOKEN
    ensures r.Ok? ==> r.value == token.value
  {
    match token
    case Some(t) => if t == "" then Err(NO_TOKEN) else Ok(t)
    case None => Err(NO_TOKEN)
  }

  /** How one Web API call ended: an answer (`ok`, and its `error` field
      if any), a `SlackApiError` carrying the error code ("" when the
      response has none), or any other exception. */
  datatype Call = Answered(ok: bool, error: Option<string>) | ApiError(code: string) | Failed(message: string)

  /** The dict an endpoint returns. */
  datatype Reply = Reply(success: bool, invited: Option<nat>, note: Option<string>, error: Option<string>)

  function Success(): Reply { Reply(true, None, None, None) }
  function Failure(error: string): Reply { Reply(false, None, None, Some(error)) }

  // ---------------------------------------------------------------------
  // Bot-id cache

  /** What `auth_test` gave: `None` when it raised `SlackApiError`. */
  datatype AuthTest = AuthTest(ok: bool, userId: string)

  /** The class-level cache of bot user ids, per token. */
  class BotIdCache {
    var ids: map<string, string>

    constructor ()
      ensures ids == map[]
    {
      ids := map[];
    }

    /** `get_bot_user_id`: no id for an empty token; a cached token's id
        without a call; otherwise one `auth_test` call whose id is cached
        and returned only when the answer is ok. `called` says whether
        the call was made. */
    method GetBotUserId(token: Option<string>, answer: Option<AuthTest>) returns (r: Option<string>, called: bool)
      modifies this
      ensures token.None? || token.value == "" ==> r.None? && !called && ids == old(ids)
      ensures token.Some? && token.value != "" && token.value in old(ids) ==> r == Some(old(ids)[token.value]) && !called && ids == old(ids)
      ensures token.Some? && token.value != "" && token.value !in old(ids) ==>
                called &&
                if answer.Some? && answer.value.ok then
                  r == Some(answer.value.userId) && ids == old(ids)[token.value := answer.value.userId]
                else
                  r.None? && ids == old(ids)
    {
      if token.None? || token.value == "" {
        return None, false;
      }
      var t := token.value;
      if t in ids {
        return Some(ids[t]), false;
      }
      called := true;
      r := None;
      if answer.Some? && answer.value.ok {
        ids := ids[t := answer.value.userId];
        r := Some(answer.value.userId);
      }
    }
  }

  /** Once cached, a token's id is answered from the cache whatever the
      API would now say. */
  method CachedIdIsStable(cache: BotIdCache, token: string, first: Option<AuthTest>, later: Option<AuthTest>)
    returns (a: Option<string>, b: Option<string>, secondCalled: bool)
    requires token != "" && token !in cache.ids && first.Some? && first.value.ok
    modifies cache
    ensures a == b == Some(first.value.userId) && !secondCalled
  {
    var c1;
    a, c1 := cache.GetBotUserId(Some(token), first);
    b, secondCalled := cache.GetBotUserId(Some(token), later);
  }

  // ---------------------------------------------------------------------
  // Channel names

  const CHANNEL_NAME_LIMIT: nat := 80

  /** Spaces, ASCII and full-width, become '-'. */
  function Dashed(s: string): (r: string)
    ensures |r| == |s|
    ensures forall i :: 0 <= i < |s| ==> r[i] == if s[i] == ' ' || s[i] == '　' then '-' else s[i]
  {
    if s == [] then [] else [if s[0] == ' ' || s[0] == '　' then '-' else s[0]] + Dashed(s[1..])
  }

  /** The characters `alnum` accepts, with '-' and '_'. */
  function KeepAllowed(s: string, alnum: char -> bool): (r: string)
    ensures |r| <= |s|
    ensures forall i :: 0 <= i < |r| ==> alnum(r[i]) || r[i] == '-' || r[i] == '_'
  {
    if s == [] then []
    else (if alnum(s[0]) || s[0] == '-' || s[0] == '_' then [s[0]] else []) + KeepAllowed(s[1..], alnum)
  }

  /** `_sanitize_channel_name`; `alnum` is Python's `str.isalnum` on one
      character. */
  function SanitizeChannelName(name: string, alnum: char -> bool): string {
    Take(KeepAllowed(Dashed(Lower("pt-" + name)), alnum), CHANNEL_NAME_LIMIT)
  }

  /** What a sanitised name is: "pt-" first, at most 80 characters, and
      nothing but alphanumerics, '-' and '_'. */
  lemma SanitizedShape(name: string, alnum: char -> bool)
    requires alnum('p') && alnum('t')
    ensures var r := SanitizeChannelName(name, alnum);
            3 <= |r| <= CHANNEL_NAME_LIMIT && r[..3] == "pt-" &&
            forall i :: 0 <= i < |r| ==> alnum(r[i]) || r[i] == '-' || r[i] == '_'
  {
    var lowered := Lower("pt-" + name);
    assert lowered[..3] == "pt-";
    var dashed := Dashed(lowered);
    assert dashed == "pt-" + dashed[3..];
    KeepAllowedAppend("pt-", dashed[3..], alnum);
    assert KeepAllowed("pt-", alnum) == "pt-";
  }

  lemma {:induction false} KeepAllowedAppend(a: string, b: string, alnum: char -> bool)
    ensures KeepAllowed(a + b, alnum) == KeepAllowed(a, alnum) + KeepAllowed(b, alnum)
  {
    if a != [] {
      assert (a + b)[0] == a[0];
      assert (a + b)[1..] == a[1..] + b;
      KeepAllowedAppend(a[1..], b, alnum);
    } else {
      assert a + b == b;
    }
  }

  /** A name already made of lower-case alphanumerics and '-' or '_'
      keeps all of it, cut to 80 characters with the prefix. */
  lemma CleanNameKept(name: string, alnum: char -> bool)
    requires alnum('p') && alnum('t')
    requires forall i :: 0 <= i < |name| ==> (alnum(name[i]) || name[i] == '-' || name[i] == '_') &&
                                             !('A' <= name[i] <= 'Z') && name[i] != ' ' && name[i] != '　'
    ensures SanitizeChannelName(name, alnum) == Take("pt-" + name, CHANNEL_NAME_LIMIT)
  {
    var s := "pt-" + name;
    LowerNoCapitals(s);
    assert Dashed(s) == s;
    KeptAll(s, alnum);
  }

  lemma {:induction false} KeptAll(s: string, alnum: char -> bool)
    requires forall i :: 0 <= i < |s| ==> alnum(s[i]) || s[i] == '-' || s[i] == '_'
    ensures KeepAllowed(s, alnum) == s
  {
    if s != [] {
      KeptAll(s[1..], alnum);
    }
  }

  // ---------------------------------------------------------------------
  // Finding a channel by name

  datatype Channel = Channel(id: string, name: string)

  /** One page of `conversations_list`; `nextCursor` is "" when the
      response has no next cursor. */
  datatype Page = Page(channels: seq<Channel>, nextCursor: string)

  /** The channels the search reads: page by page, up to and including
      the first page without a next cursor. */
  function ListedChannels(pages: seq<Page>): seq<Channel> {
    if pages == [] then []
    else pages[0].channels + if pages[0].nextCursor == "" then [] else ListedChannels(pages[1..])
  }

  /** The first channel named exactly `name`. */
  function FirstNamed(channels: seq<Channel>, name: string): (r: Option<Channel>)
    ensures r.Some? ==> r.value.name == name && r.value in channels
  {
    if channels == [] then None
    else if channels[0].name == name then Some(channels[0])
    else FirstNamed(channels[1..], name)
  }

  /** The search's answer is the first channel with the name, and there
      is none exactly when no channel has it. */
  lemma {:induction false} FirstNamedMeaning(channels: seq<Channel>, name: string)
    ensures var r := FirstNamed(channels, name);
            (r.Some? ==> exists i :: 0 <= i < |channels| && channels[i] == r.value &&
                                     forall j :: 0 <= j < i ==> channels[j].name != name) &&
            (r.None? <==> forall i :: 0 <= i < |channels| ==> channels[i].name != name)
  {
    if channels != [] && channels[0].name != name {
      FirstNamedMeaning(channels[1..], name);
      var r := FirstNamed(channels, name);
      if r.Some? {
        var i :| 0 <= i < |channels[1..]| && channels[1..][i] == r.value &&
                 forall j :: 0 <= j < i ==> channels[1..][j].name != name;
        assert channels[i + 1] == r.value;
        assert forall j :: 0 < j <= i ==> channels[j] == channels[1..][j - 1];
      }
      assert forall i :: 0 < i < |channels| ==> channels[i] == channels[1..][i - 1];
    }
  }

  lemma {:induction false} FirstNamedAppend(a: seq<Channel>, b: seq<Channel>, name: string)
    ensures FirstNamed(a + b, name) == if FirstNamed(a, name).Some? then FirstNamed(a, name) else FirstNamed(b, name)
  {
    if a != [] {
      assert (a + b)[1..] == a[1..] + b;
      FirstNamedAppend(a[1..], b, name);
    } else {
      assert a + b == b;
    }
  }

  /** Pages after the last one are never read. */
  lemma PagesAfterEndIgnored(pages: seq<Page>, more: seq<Page>, k: nat)
    requires k < |pages| && pages[k].nextCursor == ""
    ensures ListedChannels(pages[..k + 1] + more) == ListedChannels(pages[..k + 1])
  {
    if k > 0 {
      assert (pages[..k + 1] + more)[1..] == pages[1..][..k] + more;
      assert pages[..k + 1][1..] == pages[1..][..k];
      PagesAfterEndIgnored(pages[1..], more, k - 1);
    }
  }

  /** `_find_channel_by_name`: reads pages in order, passing each page's
      cursor to the next call, until a page has no cursor; the first exact
      match wins. `pages` are the successive answers; the listing ends:
      page `end` has no cursor. `cursors` are the cursors the calls
      were made with ("" for none). */
  method FindChannelByName(pages: seq<Page>, name: string, ghost end: nat) returns (r: Option<Channel>, cursors: seq<string>)
    requires end < |pages| && pages[end].nextCursor == ""
    ensures r == FirstNamed(ListedChannels(pages), name)
    ensures CursorsSent(pages, cursors)
  {
    var cursor := "";
    cursors := [];
    var p := 0;
    assert pages[0..] == pages;
    while true
      invariant 0 <= p < |pages| && |cursors| == p
      invariant CursorsSent(pages, cursors + [cursor])
      invariant FirstNamed(ListedChannels(pages), name) == FirstNamed(ListedChannels(pages[p..]), name)
      decreases |pages| - p
    {
      cursors := cursors + [cursor];
      var page := pages[p];
      var found := FindInPage(page.channels, name);
      if found.Some? {
        PageFound(pages, p, name);
        return found, cursors;
      }
      PageMissed(pages, p, name);
      if page.nextCursor == "" {
        return None, cursors;
      }
      NextPage(pages, cursors, end);
      cursor := page.nextCursor;
      p := p + 1;
    }
  }

  /** A page with a cursor before the last one: the next call is made,
      with that cursor. */
  lemma NextPage(pages: seq<Page>, cursors: seq<string>, end: nat)
    requires end < |pages| && pages[end].nextCursor == ""
    requires CursorsSent(pages, cursors) && pages[|cursors| - 1].nextCursor != ""
    ensures |cursors| < |pages| && CursorsSent(pages, cursors + [pages[|cursors| - 1].nextCursor])
  {
    MorePages(pages, cursors, end);
    SendCursor(pages, cursors, pages[|cursors| - 1].nextCursor);
  }

  /** The cursors of the calls made so far: none for the first, then the
      cursor each page returned. */
  predicate CursorsSent(pages: seq<Page>, cursors: seq<string>) {
    && 1 <= |cursors| <= |pages| && cursors[0] == ""
    && forall k :: 0 < k < |cursors| ==> cursors[k] == pages[k - 1].nextCursor != ""
  }

  /** While every page so far returned a cursor, the page without one is
      still ahead. */
  lemma MorePages(pages: seq<Page>, cursors: seq<string>, end: nat)
    requires end < |pages| && pages[end].nextCursor == ""
    requires CursorsSent(pages, cursors) && pages[|cursors| - 1].nextCursor != ""
    ensures |cursors| < |pages|
  {
    forall j | 0 <= j < |cursors| - 1 ensures pages[j].nextCursor != "" {
      assert cursors[j + 1] == pages[j].nextCursor;
    }
  }

  lemma SendCursor(pages: seq<Page>, cursors: seq<string>, cursor: string)
    requires |cursors| < |pages|
    requires cursors == [] ==> cursor == ""
    requires cursors != [] ==> CursorsSent(pages, cursors) && cursor == pages[|cursors| - 1].nextCursor != ""
    ensures CursorsSent(pages, cursors + [cursor])
  {
    var next := cursors + [cursor];
    forall k | 0 < k < |next| ensures next[k] == pages[k - 1].nextCursor != "" {
      if k < |cursors| {
        assert next[k] == cursors[k];
      }
    }
  }

  /** The first channel of one page with the name. */
  method FindInPage(channels: seq<Channel>, name: string) returns (r: Option<Channel>)
    ensures r == FirstNamed(channels, name)
  {
    var i := 0;
    while i < |channels|
      invariant 0 <= i <= |channels|
      invariant forall j :: 0 <= j < i ==> channels[j].name != name
    {
      if channels[i].name == name {
        FirstNamedAt(channels, name, i);
        return Some(channels[i]);
      }
      i := i + 1;
    }
    FirstNamedNone(channels, name);
    return None;
  }

  /** A match on page `p` is the search's answer from there on. */
  lemma PageFound(pages: seq<Page>, p: nat, name: string)
    requires p < |pages| && FirstNamed(pages[p].channels, name).Some?
    ensures FirstNamed(ListedChannels(pages[p..]), name) == FirstNamed(pages[p].channels, name)
  {
    ListedFrom(pages, p);
    FirstNamedAppend(pages[p].channels, if pages[p].nextCursor == "" then [] else ListedChannels(pages[p + 1..]), name);
  }

  /** Without a match on page `p`, the search goes on with the next page
      when there is a cursor, and ends with nothing otherwise. */
  lemma PageMissed(pages: seq<Page>, p: nat, name: string)
    requires p < |pages| && FirstNamed(pages[p].channels, name).None?
    ensures FirstNamed(ListedChannels(pages[p..]), name) ==
              if pages[p].nextCursor == "" then None else FirstNamed(ListedChannels(pages[p + 1..]), name)
  {
    ListedFrom(pages, p);
    FirstNamedAppend(pages[p].channels, if pages[p].nextCursor == "" then [] else ListedChannels(pages[p + 1..]), name);
  }

  lemma ListedFrom(pages: seq<Page>, p: nat)
    requires p < |pages|
    ensures ListedChannels(pages[p..]) ==
              pages[p].channels + if pages[p].nextCursor == "" then [] else ListedChannels(pages[p + 1..])
  {
    assert pages[p..][1..] == pages[p + 1..];
  }

  lemma {:induction false} FirstNamedAt(channels: seq<Channel>, name: string, i: nat)
    requires i < |channels| && channels[i].name == name
    requires forall j :: 0 <= j < i ==> channels[j].name != name
    ensures FirstNamed(channels, name) == Some(channels[i])
  {
    if i > 0 {
      FirstNamedAt(channels[1..], name, i - 1);
    }
  }

  lemma {:induction false} FirstNamedNone(channels: seq<Channel>, name: string)
    requires forall j :: 0 <= j < |channels| ==> channels[j].name != name
    ensures FirstNamed(channels, name).None?
  {
    if channels != [] {
      FirstNamedNone(channels[1..], name);
    }
  }

  // ---------------------------------------------------------------------
  // Invites and archive

  /** `",".join(user_ids)`. */
  function UsersParam(users: seq<string>): string {
    Join(users, ",")
  }

  /** `invite_users_to_channel`: no call for an empty list; "already in
      channel" counts as success with nobody invited. `call` is the one
      invite call, made with `UsersParam(userIds)` when `calls` is 1. */
  function InviteUsers(userIds: seq<string>, token: Option<string>, call: Call): (r: (Reply, nat))
    ensures userIds == [] ==> r == (Reply(true, Some(0), None, None), 0)
    ensures userIds != [] && GetClient(token).Err? ==> r == (Failure("招待エラー: " + NO_TOKEN), 0)
    ensures userIds != [] && GetClient(token).Ok? ==> r.1 == 1
    ensures r.0.success && r.0.invited != Some(0) ==> r.0.invited == Some(|userIds|)
  {
    if userIds == [] then (Reply(true, Some(0), None, None), 0)
    else match GetClient(token)
      case Err(msg) => (Failure("招待エラー: " + msg), 0)
      case Ok(_) =>
        var reply := match call
          case Answered(ok, error) =>
            if ok then Reply(true, Some(|userIds|), None, None)
            else Failure(error.GetOr("招待に失敗しました"))
          case ApiError(code) =>
            if code == "already_in_channel" then Reply(true, Some(0), Some("既にチャンネルに参加済み"), None)
            else Failure("Slack APIエラー: " + code)
          case Failed(message) => Failure("招待エラー: " + message);
        (reply, 1)
  }

  /** An "already in channel" error is a success on the plain invite. */
  lemma AlreadyInChannelIsSuccess(userIds: seq<string>, token: string)
    requires userIds != [] && token != ""
    ensures InviteUsers(userIds, Some(token), ApiError("already_in_channel")).0 ==
              Reply(true, Some(0), Some("既にチャンネルに参加済み"), None)
  {
  }

  /** `archive_channel`; "already archived" is a success. */
  function ArchiveChannel(token: Option<string>, call: Call): (r: Reply)
    ensures GetClient(token).Ok? && call == ApiError("already_archived") ==> r == Success()
    ensures GetClient(token).Ok? && call.Answered? ==> r.success == call.ok
    ensures r.success ==> GetClient(token).Ok? && (call == ApiError("already_archived") || (call.Answered? && call.ok))
  {
    match GetClient(token)
    case Err(msg) => Failure("チャンネルアーカイブエラー: " + msg)
    case Ok(_) =>
      match call
      case Answered(ok, _) => if ok then Success() else Failure("チャンネルのアーカイブに失敗しました")
      case ApiError(code) => if code == "already_archived" then Success() else Failure("Slack APIエラー: " + code)
      case Failed(message) => Failure("チャンネルアーカイブエラー: " + message)
  }

  /** The users not yet members, in their request order. */
  function NewUsers(userIds: seq<string>, members: set<string>): (r: seq<string>)
    ensures |r| <= |userIds|
    ensures forall i :: 0 <= i < |r| ==> r[i] !in members && r[i] in userIds
    ensures forall i :: 0 <= i < |userIds| && userIds[i] !in members ==> userIds[i] in r
  {
    if userIds == [] then []
    else (if userIds[0] in members then [] else [userIds[0]]) + NewUsers(userIds[1..], members)
  }

  /** Filtering keeps the request order: the new users are a
      subsequence of the requested ones. */
  lemma {:induction false} NewUsersInOrder(userIds: seq<string>, members: set<string>, extra: seq<string>)
    ensures NewUsers(userIds + extra, members) == NewUsers(userIds, members) + NewUsers(extra, members)
  {
    if userIds != [] {
      assert (userIds + extra)[1..] == userIds[1..] + extra;
      NewUsersInOrder(userIds[1..], members, extra);
    } else {
      assert userIds + extra == extra;
    }
  }

  /** Nobody is new when everyone is a member. */
  lemma {:induction false} NoNewUsers(userIds: seq<string>, members: set<string>)
    requires forall i :: 0 <= i < |userIds| ==> userIds[i] in members
    ensures NewUsers(userIds, members) == []
  {
    if userIds != [] {
      NoNewUsers(userIds[1..], members);
    }
  }

  /** What `conversations_members` gave: its member ids, the error code
      of a `SlackApiError`, or another exception. */
  datatype Members = MemberIds(ids: seq<string>) | MembersError(code: string) | MembersFailed(message: string)

  /** `invite_users_to_channel_safe`: the first invite with everyone;
      on "already in channel", the members are read and a second invite
      is sent with only the users not yet members, unless there are none.
      `r.1` are the user lists of the invite calls made. The member read
      and the retry run inside the handler of the first call, so an
      exception there other than `SlackApiError` escapes the method
      (`r.0` is `None`). */
  function SafeInvite(userIds: seq<string>, token: Option<string>, first: Call, members: Members, retry: Call)
    : (r: (Option<Reply>, seq<seq<string>>))
    ensures userIds == [] ==> r == (Some(Reply(true, Some(0), Some("招待対象なし"), None)), [])
    ensures |r.1| <= 2 && (|r.1| >= 1 ==> r.1[0] == userIds)
    ensures r.0.None? <==>
              userIds != [] && GetClient(token).Ok? && first == ApiError("already_in_channel") &&
              (members.MembersFailed? ||
               (members.MemberIds? && NewUsers(userIds, set u | u in members.ids) != [] && retry.Failed?))
  {
    if userIds == [] then (Some(Reply(true, Some(0), Some("招待対象なし"), None)), [])
    else match GetClient(token)
      case Err(msg) => (Some(Failure("招待エラー: " + msg)), [])
      case Ok(_) =>
        match first
        case Answered(ok, error) =>
          (Some(if ok then Reply(true, Some(|userIds|), None, None) else Failure(error.GetOr("招待に失敗しました"))), [userIds])
        case Failed(message) => (Some(Failure("招待エラー: " + message)), [userIds])
        case ApiError(code) =>
          if code != "already_in_channel" then (Some(Failure("Slack APIエラー: " + code)), [userIds])
          else match members
            case MembersError(c) => (Some(Failure("再招待エラー: " + c)), [userIds])
            case MembersFailed(_) => (None, [userIds])
            case MemberIds(ids) =>
              var newUsers := NewUsers(userIds, set u | u in ids);
              if newUsers == [] then (Some(Reply(true, Some(0), Some("全員既にチャンネルに参加済み"), None)), [userIds])
              else
                var reply := match retry
                  case Answered(ok, error) =>
                    Some(if ok then Reply(true, Some(|newUsers|), Some(IntToString(|userIds| - |newUsers|) + "名は既に参加済み"), None)
                         else Failure(error.GetOr("再招待に失敗しました")))
                  case ApiError(c) => Some(Failure("再招待エラー: " + c))
                  case Failed(_) => None;
                (reply, [userIds, newUsers])
  }

  /** The retry sends exactly the users not yet members, in order; a
      successful retry reports them as invited and the others as already
      members. */
  lemma SafeInviteRetry(userIds: seq<string>, token: string, ids: seq<string>, retry: Call)
    requires userIds != [] && token != ""
    ensures var newUsers := NewUsers(userIds, set u | u in ids);
            var r := SafeInvite(userIds, Some(token), ApiError("already_in_channel"), MemberIds(ids), retry);
            (newUsers != [] ==> r.1 == [userIds, newUsers]) &&
            (newUsers != [] && retry.Answered? && retry.ok ==>
               r.0 == Some(Reply(true, Some(|newUsers|), Some(IntToString(|userIds| - |newUsers|) + "名は既に参加済み"), None)))
  {
  }

  /** When everyone is already a member, nobody is invited again. */
  lemma AllMembersInviteNobody(userIds: seq<string>, token: string, ids: seq<string>, retry: Call)
    requires userIds != [] && token != ""
    requires forall i :: 0 <= i < |userIds| ==> userIds[i] in ids
    ensures SafeInvite(userIds, Some(token), ApiError("already_in_channel"), MemberIds(ids), retry) ==
              (Some(Reply(true, Some(0), Some("全員既にチャンネルに参加済み"), None)), [userIds])
  {
    NoNewUsers(userIds, set u | u in ids);
  }

  // ---------------------------------------------------------------------
  // Workspace users

  datatype User = User(id: Value, name: Value, email: Value, displayName: Value)

  /** One member of `users_list`: skipped (`Some(None)`) when deleted or
      a bot; otherwise its id, its real name or else its name (or ""),
      and its profile's email and display name. A member without an id or
      with a profile that is not a dict raises (`None`). */
  function MemberUser(member: Value): (r: Option<Option<User>>)
    ensures r == Some(None) <==> (member.VDict? &&
              (Truthy(GetOr(member.entries, "deleted", VNone)) || Truthy(GetOr(member.entries, "is_bot", VNone))))
  {
    if !member.VDict? then None
    else
      var m := member.entries;
      if Truthy(GetOr(m, "deleted", VNone)) || Truthy(GetOr(m, "is_bot", VNone)) then Some(None)
      else match Lookup(m, "id")
        case None => None
        case Some(id) =>
          var realName := GetOr(m, "real_name", VNone);
          var name := if Truthy(realName) then realName else GetOr(m, "name", VStr(""));
          var profile := GetOr(m, "profile", VDict([]));
          if !profile.VDict? then None
          else Some(Some(User(id, name, GetOr(profile.entries, "email", VStr("")),
                               GetOr(profile.entries, "display_name", VStr("")))))
  }

  /** The listed users, in member order. */
  function WorkspaceUsers(members: seq<Value>): (r: Option<seq<User>>)
    ensures r.Some? ==> |r.value| <= |members|
  {
    if members == [] then Some([])
    else match WorkspaceUsers(members[..|members| - 1])
      case None => None
      case Some(users) =>
        match MemberUser(members[|members| - 1])
        case None => None
        case Some(None) => Some(users)
        case Some(Some(u)) => Some(users + [u])
  }

  /** A user's name: the real name when it is non-empty, else the name. */
  lemma UserNameRule(id: Value, realName: string, name: string)
    ensures var m := VDict([("id", id), ("real_name", VStr(realName)), ("name", VStr(name))]);
            MemberUser(m) == Some(Some(User(id, VStr(if realName != "" then realName else name), VStr(""), VStr(""))))
  {
    MemberEntries(id, realName, name);
    MemberAbsent(id, realName, name);
  }

  lemma MemberEntries(id: Value, realName: string, name: string)
    ensures var e := [("id", id), ("real_name", VStr(realName)), ("name", VStr(name))];
            Lookup(e, "id") == Some(id) && Lookup(e, "real_name") == Some(VStr(realName)) &&
            Lookup(e, "name") == Some(VStr(name))
  {
    var e := [("id", id), ("real_name", VStr(realName)), ("name", VStr(name))];
    assert "real_name" != "id" && "name" != "id" && "name" != "real_name";
    LookupAt(e, 0);
    LookupAt(e, 1);
    LookupAt(e, 2);
  }

  lemma MemberAbsent(id: Value, realName: string, name: string)
    ensures var e := [("id", id), ("real_name", VStr(realName)), ("name", VStr(name))];
            "deleted" !in Keys(e) && "is_bot" !in Keys(e) && "profile" !in Keys(e)
  {
    var e := [("id", id), ("real_name", VStr(realName)), ("name", VStr(name))];
    assert forall i :: 0 <= i < |e| ==> e[i].0 != "deleted" && e[i].0 != "is_bot" && e[i].0 != "profile";
  }

  /** Deleted members and bots are never listed. */
  lemma {:induction false} SkippedMembersAddNothing(members: seq<Value>, skipped: Value)
    requires MemberUser(skipped) == Some(None)
    ensures WorkspaceUsers(members + [skipped]) == WorkspaceUsers(members)
  {
    assert (members + [skipped])[..|members|] == members;
  }

  /** The member loop of `list_workspace_users`. */
  method ListWorkspaceUsers(members: seq<Value>) returns (r: Option<seq<User>>)
    ensures r == WorkspaceUsers(members)
  {
    var users: seq<User> := [];
    var i := 0;
    while i < |members|
      invariant 0 <= i <= |members|
      invariant WorkspaceUsers(members[..i]) == Some(users)
    {
      assert members[..i + 1][..i] == members[..i];
      var u := MemberUser(members[i]);
      if u.None? {
        UsersFailed(members, i + 1);
        return None;
      }
      if u.value.Some? {
        users := users + [u.value.value];
      }
      i := i + 1;
    }
    assert members[..i] == members;
    r := Some(users);
  }

  lemma {:induction false} UsersFailed(members: seq<Value>, n: nat)
    requires n <= |members| && WorkspaceUsers(members[..n]).None?
    ensures WorkspaceUsers(members).None?
    decreases |members| - n
  {
    if n < |members| {
      assert members[..n + 1][..n] == members[..n];
      UsersFailed(members, n + 1);
    } else {
      assert members[..n] == members;
    }
  }
}
