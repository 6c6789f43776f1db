/** The chat views of the HTTP API: `MessageCreateView` (the group a posted
    message is routed to, and the checks made before routing) and the three
    message-history views with their ordering and pagination. */
module ChatViews {
  import opened Common
  import opened Models
  import opened GroupNames
  import opened Pagination
  import opened Database

  /* ---------------------------------------------------- MessageCreateView */

  /** The fields of the request body the view reads: `chat_type`,
      `recipient` and `guild` (absent keys are `None`). */
  datatype MessageRequest = MessageRequest(chatType: string, recipient: Option<UserId>, guild: Option<GuildId>)

  /** `MessageCreateView.get_chat_group_name`. A one-on-one request without a
      recipient has no name: `sorted` of an int and `None` raises. A guild
      request without a guild prints `None` into the name. */
  function GetChatGroupName(user: UserId, data: MessageRequest): (r: Option<string>)
    ensures r.None? <==> data.chatType == ONE_ON_ONE && data.recipient.None?
    ensures data.chatType == ONE_ON_ONE && data.recipient.Some? ==>
              r == Some(DirectGroup(data.recipient.value, user))
    ensures data.chatType == GUILD_CHAT && data.guild.Some? ==>
              r == Some(GuildGroup(NatToString(data.guild.value)))
    ensures data.chatType == GUILD_CHAT && data.guild.None? ==> r == Some(GUILD_PREFIX + "None")
    ensures data.chatType != ONE_ON_ONE && data.chatType != GUILD_CHAT ==> r == Some(GLOBAL_GROUP)
  {
    if data.chatType == ONE_ON_ONE then
      match data.recipient
      case None => None
      case Some(r) =>
        DirectGroupSymmetric(user, r);
        Some(DirectGroup(user, r))
    else if data.chatType == GUILD_CHAT then
      Some(GuildGroup(match data.guild case Some(g) => NatToString(g) case None => "None"))
    else
      Some(GLOBAL_GROUP)
  }

  /** Either the status of a refused request, or the group the message is
      sent to. */
  datatype PostOutcome = Rejected(status: StatusCode) | Routed(group: string)

  /** `MessageCreateView.post`, as far as its checks and routing: an unknown
      recipient is a bad request, an unknown guild is not found, a guild the
      sender has not joined is forbidden, and a global message is never
      checked. Only once every check passed is a group name computed and
      the message sent. */
  function Post(users: set<UserId>, guilds: map<GuildId, Guild>, user: UserId, data: MessageRequest): (r: PostOutcome)
    ensures r.Rejected? ==> r.status in {HTTP_400_BAD_REQUEST, HTTP_403_FORBIDDEN, HTTP_404_NOT_FOUND}
    ensures r.Routed? ==> GetChatGroupName(user, data) == Some(r.group)
    ensures r.Routed? && data.chatType == ONE_ON_ONE ==> data.recipient.value in users
    ensures r.Routed? && data.chatType == GUILD_CHAT ==>
              data.guild.Some? && data.guild.value in guilds && user in guilds[data.guild.value].members
  {
    if data.chatType == ONE_ON_ONE && (data.recipient.None? || data.recipient.value !in users) then
      Rejected(HTTP_400_BAD_REQUEST)
    else if data.chatType == GUILD_CHAT && (data.guild.None? || data.guild.value !in guilds) then
      Rejected(HTTP_404_NOT_FOUND)
    else if data.chatType == GUILD_CHAT && user !in guilds[data.guild.value].members then
      Rejected(HTTP_403_FORBIDDEN)
    else
      Routed(GetChatGroupName(user, data).value)
  }

  /** The decision table of `Post`, case by case. */
  lemma PostOutcomes(users: set<UserId>, guilds: map<GuildId, Guild>, user: UserId, data: MessageRequest)
    ensures Post(users, guilds, user, data) == Rejected(HTTP_400_BAD_REQUEST)
            <==> data.chatType == ONE_ON_ONE && (data.recipient.None? || data.recipient.value !in users)
    ensures Post(users, guilds, user, data) == Rejected(HTTP_404_NOT_FOUND)
            <==> data.chatType == GUILD_CHAT && (data.guild.None? || data.guild.value !in guilds)
    ensures Post(users, guilds, user, data) == Rejected(HTTP_403_FORBIDDEN)
            <==> data.chatType == GUILD_CHAT && data.guild.Some? && data.guild.value in guilds
                 && user !in guilds[data.guild.value].members
    ensures data.chatType != ONE_ON_ONE && data.chatType != GUILD_CHAT
            ==> Post(users, guilds, user, data) == Routed(GLOBAL_GROUP)
    ensures Post(users, guilds, user, data).Routed?
            ==> GetChatGroupName(user, data) == Some(Post(users, guilds, user, data).group)
  {
  }

  /** A routed one-on-one message goes to the group both participants share,
      whichever of them sends; a routed guild message goes to its guild's
      group, and different guilds never share one. */
  lemma PostRoutesToScope(users: set<UserId>, guilds: map<GuildId, Guild>, user: UserId, data: MessageRequest)
    requires Post(users, guilds, user, data).Routed?
    ensures data.chatType == ONE_ON_ONE ==>
              Post(users, guilds, user, data).group == DirectGroup(data.recipient.value, user)
    ensures data.chatType == GUILD_CHAT ==>
              && Post(users, guilds, user, data).group == GuildGroup(NatToString(data.guild.value))
              && forall h :: h != data.guild.value ==> Post(users, guilds, user, data).group != GuildGroup(NatToString(h))
  {
    if data.chatType == ONE_ON_ONE {
      DirectGroupSymmetric(data.recipient.value, user);
    }
    if data.chatType == GUILD_CHAT {
      forall h | h != data.guild.value
        ensures GuildGroup(NatToString(data.guild.value)) != GuildGroup(NatToString(h))
      {
        GuildGroupInjective(data.guild.value, h);
      }
    }
  }

  /** `post` as written: after the checks it builds the event from
      `serializers.data`, an attribute the imported `serializers` module
      does not have, so every request that passes the checks fails with a
      server error before anything is sent. */
  function PostAsWritten(users: set<UserId>, guilds: map<GuildId, Guild>, user: UserId, data: MessageRequest): (r: PostOutcome)
    ensures r.Rejected?
    ensures Post(users, guilds, user, data).Rejected? ==> r == Post(users, guilds, user, data)
    ensures Post(users, guilds, user, data).Routed? ==> r == Rejected(HTTP_500_INTERNAL_SERVER_ERROR)
  {
    match Post(users, guilds, user, data)
    case Rejected(s) => Rejected(s)
    case Routed(_) => Rejected(HTTP_500_INTERNAL_SERVER_ERROR)
  }

  /** As written, no request is ever sent to a group, even a global one. */
  lemma PostAsWrittenNeverRoutes(users: set<UserId>, guilds: map<GuildId, Guild>, user: UserId, content: string)
    ensures Post(users, guilds, user, MessageRequest(GLOBAL_CHAT, None, None)) == Routed(GLOBAL_GROUP)
    ensures PostAsWritten(users, guilds, user, MessageRequest(GLOBAL_CHAT, None, None)) == Rejected(HTTP_500_INTERNAL_SERVER_ERROR)
  {
  }

  /* -------------------------------------------------- message history */

  predicate SortedByTime(ms: seq<Message>)
  {
    forall i, j :: 0 <= i < j < |ms| ==> ms[i].timestamp <= ms[j].timestamp
  }

  /** `Message.objects.filter(...)`: the rows that satisfy `keep`, in table
      order. */
  function Where(ms: seq<Message>, keep: Message -> bool): (r: seq<Message>)
    ensures forall m :: m in r <==> m in ms && keep(m)
    ensures SortedByTime(ms) ==> SortedByTime(r)
  {
    if ms == [] then []
    else if keep(ms[0]) then
      var rest := Where(ms[1..], keep);
      assert SortedByTime(ms) ==> forall k :: 0 <= k < |rest| ==> ms[0].timestamp <= rest[k].timestamp by {
        if SortedByTime(ms) {
          forall k | 0 <= k < |rest| ensures ms[0].timestamp <= rest[k].timestamp {
            assert rest[k] in ms[1..];
          }
        }
      }
      [ms[0]] + rest
    else Where(ms[1..], keep)
  }

  /** A single row is kept once when it matches and dropped otherwise; with
      `WhereAppend` this determines the filter on every table. */
  lemma WhereSingleton(x: Message, keep: Message -> bool)
    ensures Where([x], keep) == if keep(x) then [x] else []
  {
    assert [x][1..] == [];
  }

  /** Filtering distributes over appending rows. */
  lemma {:induction false} WhereAppend(ms: seq<Message>, more: seq<Message>, keep: Message -> bool)
    ensures Where(ms + more, keep) == Where(ms, keep) + Where(more, keep)
  {
    if ms == [] {
      assert ms + more == more;
    } else {
      assert (ms + more)[0] == ms[0];
      assert (ms + more)[1..] == ms[1..] + more;
      WhereAppend(ms[1..], more, keep);
    }
  }

  /** Putting `x` in front of a row sequence in time order keeps it in time
      order when no row of it is earlier than `x`. */
  lemma ConsSorted(x: Message, s: seq<Message>)
    requires SortedByTime(s)
    requires forall k :: 0 <= k < |s| ==> x.timestamp <= s[k].timestamp
    ensures SortedByTime([x] + s)
  {
    var r := [x] + s;
    forall i, j | 0 <= i < j < |r| ensures r[i].timestamp <= r[j].timestamp {
      assert r[j] == s[j - 1];
      if i > 0 {
        assert r[i] == s[i - 1];
      }
    }
  }

  /** The head of a time-ordered sequence is no later than any row of a
      sequence holding its tail and one later row. */
  lemma HeadBeforeInserted(s: seq<Message>, m: Message, rest: seq<Message>)
    requires SortedByTime(s) && s != [] && s[0].timestamp < m.timestamp
    requires multiset(rest) == multiset(s[1..]) + multiset{m}
    ensures forall k :: 0 <= k < |rest| ==> s[0].timestamp <= rest[k].timestamp
  {
    forall k | 0 <= k < |rest| ensures s[0].timestamp <= rest[k].timestamp {
      assert rest[k] in multiset(rest);
      if rest[k] != m {
        assert rest[k] in multiset(s[1..]);
        var i :| 0 <= i < |s[1..]| && s[1..][i] == rest[k];
        assert s[1..][i] == s[i + 1];
      }
    }
  }

  /** Inserts `m` before the first row that is not earlier than it. */
  function InsertByTime(m: Message, s: seq<Message>): (r: seq<Message>)
    requires SortedByTime(s)
    ensures SortedByTime(r)
    ensures multiset(r) == multiset(s) + multiset{m}
  {
    if s == [] || m.timestamp <= s[0].timestamp then
      ConsSorted(m, s);
      [m] + s
    else
      var rest := InsertByTime(m, s[1..]);
      HeadBeforeInserted(s, m, rest);
      ConsSorted(s[0], rest);
      assert s == [s[0]] + s[1..];
      assert multiset([s[0]] + rest) == multiset{s[0]} + multiset(rest);
      [s[0]] + rest
  }

  /** `.order_by('timestamp')`: a stable sort, ascending by timestamp. */
  function OrderByTimestamp(ms: seq<Message>): (r: seq<Message>)
    ensures SortedByTime(r)
    ensures multiset(r) == multiset(ms)
    ensures |r| == |ms|
  {
    if ms == [] then []
    else
      assert ms == [ms[0]] + ms[1..];
      InsertByTime(ms[0], OrderByTimestamp(ms[1..]))
  }

  /** Rows already in time order come back in the same order. */
  lemma {:induction false} OrderBySortedIsIdentity(ms: seq<Message>)
    requires SortedByTime(ms)
    ensures OrderByTimestamp(ms) == ms
  {
    if ms != [] {
      var tail := ms[1..];
      assert SortedByTime(tail) by {
        forall i, j | 0 <= i < j < |tail| ensures tail[i].timestamp <= tail[j].timestamp {
          assert tail[i] == ms[i + 1] && tail[j] == ms[j + 1];
        }
      }
      OrderBySortedIsIdentity(tail);
      assert OrderByTimestamp(ms) == InsertByTime(ms[0], tail);
      assert tail == [] || ms[0].timestamp <= tail[0].timestamp;
      assert [ms[0]] + tail == ms;
    }
  }

  /** One page of the rows satisfying `keep`, oldest first: 404 for a page
      number outside the filtered rows' pages, and otherwise, over a table in
      time order, rows 25(p-1) onwards of the filtered rows, 25 of them
      except on the last page. */
  function History(ms: seq<Message>, keep: Message -> bool, page: int): (r: Result<seq<Message>, StatusCode>)
    ensures r.Err? <==> page < 1 || page > PageCount(|Where(ms, keep)|)
    ensures r.Err? ==> r.error == HTTP_404_NOT_FOUND
    ensures r.Ok? ==> |r.value| == Min(PAGE_SIZE, |Where(ms, keep)| - (page - 1) * PAGE_SIZE)
    ensures r.Ok? && SortedByTime(ms) ==>
              forall k :: 0 <= k < |r.value| ==> r.value[k] == Where(ms, keep)[(page - 1) * PAGE_SIZE + k]
  {
    var rows := Where(ms, keep);
    var ordered := OrderByTimestamp(rows);
    assert SortedByTime(ms) ==> ordered == rows by {
      if SortedByTime(ms) {
        OrderBySortedIsIdentity(rows);
      }
    }
    Paginate(ordered, page)
  }

  /** Every page holds only rows that satisfy the filter, oldest first. */
  lemma HistoryPage(ms: seq<Message>, keep: Message -> bool, page: int)
    requires History(ms, keep, page).Ok?
    ensures forall m :: m in History(ms, keep, page).value ==> m in ms && keep(m)
    ensures SortedByTime(History(ms, keep, page).value)
  {
    var all := OrderByTimestamp(Where(ms, keep));
    var p := History(ms, keep, page).value;
    forall m | m in p ensures m in ms && keep(m) {
      var k :| 0 <= k < |p| && p[k] == m;
      assert m == all[(page - 1) * PAGE_SIZE + k];
      assert m in multiset(all);
    }
  }

  /** Over a table in time order, the pages together return every matching
      row exactly once, in table order. */
  lemma HistoryComplete(ms: seq<Message>, keep: Message -> bool)
    requires SortedByTime(ms)
    ensures PagesUpTo(OrderByTimestamp(Where(ms, keep)), PageCount(|Where(ms, keep)|)) == Where(ms, keep)
  {
    OrderBySortedIsIdentity(Where(ms, keep));
    AllPagesCoverItems(Where(ms, keep));
  }

  /** A row saved later than every other does not change a page that was
      already full. (A partly filled last page does grow, so a client that
      read it before the new row arrived sees that row only on a re-read.) */
  lemma HistoryPageStable(ms: seq<Message>, m: Message, keep: Message -> bool, page: int)
    requires SortedByTime(ms)
    requires forall i :: 0 <= i < |ms| ==> ms[i].timestamp <= m.timestamp
    requires 1 <= page && page * PAGE_SIZE <= |Where(ms, keep)|
    ensures History(ms + [m], keep, page) == History(ms, keep, page)
  {
    assert SortedByTime(ms + [m]);
    WhereAppend(ms, [m], keep);
    OrderBySortedIsIdentity(Where(ms, keep));
    OrderBySortedIsIdentity(Where(ms + [m], keep));
    PaginateAppendStable(Where(ms, keep), Where([m], keep), page);
  }

  /** The message table of a valid database is in time order, and every row
      is older than the clock, which stamps the next row saved. */
  lemma TableInTimeOrder(users: set<UserId>, guilds: map<GuildId, Guild>, messages: seq<Message>, clock: nat)
    requires MessagesValid(users, guilds, messages, clock)
    ensures SortedByTime(messages)
    ensures forall i :: 0 <= i < |messages| ==> messages[i].timestamp < clock
  {
  }

  /** Over the database's message table, all history pages together return
      every matching row exactly once, oldest first. */
  lemma TableHistoryComplete(users: set<UserId>, guilds: map<GuildId, Guild>, messages: seq<Message>, clock: nat, keep: Message -> bool)
    requires MessagesValid(users, guilds, messages, clock)
    ensures PagesUpTo(OrderByTimestamp(Where(messages, keep)), PageCount(|Where(messages, keep)|)) == Where(messages, keep)
  {
    TableInTimeOrder(users, guilds, messages, clock);
    HistoryComplete(messages, keep);
  }

  /** The row the next save appends (stamped with the clock, as
      `Db.CreateMessage` does) leaves every full history page unchanged. */
  lemma SaveKeepsFullPages(users: set<UserId>, guilds: map<GuildId, Guild>, messages: seq<Message>, clock: nat,
                           m: Message, keep: Message -> bool, page: int)
    requires MessagesValid(users, guilds, messages, clock)
    requires m.timestamp == clock
    requires 1 <= page && page * PAGE_SIZE <= |Where(messages, keep)|
    ensures History(messages + [m], keep, page) == History(messages, keep, page)
  {
    TableInTimeOrder(users, guilds, messages, clock);
    HistoryPageStable(messages, m, keep, page);
  }

  /** The rows `OneOnOneChatMessageListView` selects: one-on-one messages
      whose sender and recipient are both among the two users. */
  predicate InDirectChat(m: Message, me: UserId, other: UserId)
  {
    && m.chatType == ONE_ON_ONE
    && (m.sender == me || m.sender == other)
    && m.recipient.Some? && (m.recipient.value == me || m.recipient.value == other)
  }

  predicate InGuildChat(m: Message, guild: GuildId)
  {
    m.guild == Some(guild) && m.chatType == GUILD_CHAT
  }

  predicate InGlobalChat(m: Message)
  {
    m.chatType == GLOBAL_CHAT
  }

  /** The filters of the three views, as values `History` takes. */
  function DirectFilter(me: UserId, other: UserId): Message -> bool
  {
    m => InDirectChat(m, me, other)
  }

  function GuildFilter(guild: GuildId): Message -> bool
  {
    m => InGuildChat(m, guild)
  }

  /** `OneOnOneChatMessageListView.get`: 404 for an unknown other user, and
      otherwise the page of the pair's history. */
  function OneOnOneHistory(users: set<UserId>, ms: seq<Message>, me: UserId, other: UserId, page: int): (r: Result<seq<Message>, StatusCode>)
    ensures other !in users ==> r == Err(HTTP_404_NOT_FOUND)
    ensures other in users ==> r == History(ms, DirectFilter(me, other), page)
  {
    if other !in users then Err(HTTP_404_NOT_FOUND)
    else History(ms, DirectFilter(me, other), page)
  }

  /** `GuildChatMessageListView.get`: 404 for an unknown guild, 403 for a
      requester who is not a member, and otherwise the page of the guild's
      history. */
  function GuildHistory(guilds: map<GuildId, Guild>, ms: seq<Message>, me: UserId, guild: GuildId, page: int): (r: Result<seq<Message>, StatusCode>)
    ensures guild !in guilds ==> r == Err(HTTP_404_NOT_FOUND)
    ensures guild in guilds && me !in guilds[guild].members ==> r == Err(HTTP_403_FORBIDDEN)
    ensures guild in guilds && me in guilds[guild].members ==> r == History(ms, GuildFilter(guild), page)
  {
    if guild !in guilds then Err(HTTP_404_NOT_FOUND)
    else if me !in guilds[guild].members then Err(HTTP_403_FORBIDDEN)
    else History(ms, GuildFilter(guild), page)
  }

  /** `GlobalChatMessageListView.get`: the page of the global history. */
  function GlobalHistory(ms: seq<Message>, page: int): (r: Result<seq<Message>, StatusCode>)
    ensures r == History(ms, InGlobalChat, page)
  {
    History(ms, InGlobalChat, page)
  }

  /** The one-on-one history needs an existing other user; a page number
      outside the pair's pages is 404; a page holds only the two users'
      direct messages, oldest first, and over the stored table it is page p
      of exactly those messages, so the pages together show each of them
      once (`TableHistoryComplete`). */
  lemma OneOnOneHistoryOnlyPair(users: set<UserId>, ms: seq<Message>, me: UserId, other: UserId, page: int)
    ensures OneOnOneHistory(users, ms, me, other, page).Err? <==>
              other !in users || page < 1 || page > PageCount(|Where(ms, DirectFilter(me, other))|)
    ensures OneOnOneHistory(users, ms, me, other, page).Err? ==> OneOnOneHistory(users, ms, me, other, page).error == HTTP_404_NOT_FOUND
    ensures OneOnOneHistory(users, ms, me, other, page).Ok? ==>
              && (forall m :: m in OneOnOneHistory(users, ms, me, other, page).value ==> m in ms && InDirectChat(m, me, other))
              && SortedByTime(OneOnOneHistory(users, ms, me, other, page).value)
              && |OneOnOneHistory(users, ms, me, other, page).value| <= PAGE_SIZE
    ensures OneOnOneHistory(users, ms, me, other, page).Ok? && SortedByTime(ms) ==>
              forall k :: 0 <= k < |OneOnOneHistory(users, ms, me, other, page).value| ==>
                OneOnOneHistory(users, ms, me, other, page).value[k] == Where(ms, DirectFilter(me, other))[(page - 1) * PAGE_SIZE + k]
  {
    if OneOnOneHistory(users, ms, me, other, page).Ok? {
      HistoryPage(ms, DirectFilter(me, other), page);
    }
  }

  /** The guild history is refused to non-members and otherwise shows page p
      of that guild's messages, oldest first. */
  lemma GuildHistoryOnlyMembers(guilds: map<GuildId, Guild>, ms: seq<Message>, me: UserId, guild: GuildId, page: int)
    ensures guild !in guilds ==> GuildHistory(guilds, ms, me, guild, page) == Err(HTTP_404_NOT_FOUND)
    ensures guild in guilds && me !in guilds[guild].members
            ==> GuildHistory(guilds, ms, me, guild, page) == Err(HTTP_403_FORBIDDEN)
    ensures guild in guilds && me in guilds[guild].members ==>
              (GuildHistory(guilds, ms, me, guild, page).Err? <==> page < 1 || page > PageCount(|Where(ms, GuildFilter(guild))|))
    ensures GuildHistory(guilds, ms, me, guild, page).Ok? ==>
              && guild in guilds && me in guilds[guild].members
              && (forall m :: m in GuildHistory(guilds, ms, me, guild, page).value ==> m in ms && InGuildChat(m, guild))
              && SortedByTime(GuildHistory(guilds, ms, me, guild, page).value)
    ensures GuildHistory(guilds, ms, me, guild, page).Ok? && SortedByTime(ms) ==>
              forall k :: 0 <= k < |GuildHistory(guilds, ms, me, guild, page).value| ==>
                GuildHistory(guilds, ms, me, guild, page).value[k] == Where(ms, GuildFilter(guild))[(page - 1) * PAGE_SIZE + k]
  {
    if GuildHistory(guilds, ms, me, guild, page).Ok? {
      HistoryPage(ms, GuildFilter(guild), page);
    }
  }

  /** The global history shows page p of the global messages, oldest first. */
  lemma GlobalHistoryOnlyGlobal(ms: seq<Message>, page: int)
    ensures GlobalHistory(ms, page).Err? <==> page < 1 || page > PageCount(|Where(ms, InGlobalChat)|)
    ensures GlobalHistory(ms, page).Ok? ==>
              && (forall m :: m in GlobalHistory(ms, page).value ==> m in ms && m.chatType == GLOBAL_CHAT)
              && SortedByTime(GlobalHistory(ms, page).value)
    ensures GlobalHistory(ms, page).Ok? && SortedByTime(ms) ==>
              forall k :: 0 <= k < |GlobalHistory(ms, page).value| ==>
                GlobalHistory(ms, page).value[k] == Where(ms, InGlobalChat)[(page - 1) * PAGE_SIZE + k]
  {
    if GlobalHistory(ms, page).Ok? {
      HistoryPage(ms, InGlobalChat, page);
    }
  }
}
