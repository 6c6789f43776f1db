/** `ChatConsumer`, the websocket consumer: on connect it joins the group of
    the chat scope named in its URL, on disconnect it leaves that group, and
    on each received message it saves a `Message` row and then sends the
    message, with the new row's id, to its group. */
module ChatConsumer {
  import opened Common
  import opened Models
  import opened GroupNames
  import opened Database
  import opened ChannelLayer
  import ChatViews

  /** The keyword arguments of the websocket URL route
      (`scope['url_route']['kwargs']`); a missing key is `None`. */
  datatype Route = Route(chatType: string, recipientId: Option<UserId>, guildId: Option<GuildId>)

  /** `ChatConsumer.get_chat_group_name`; `None` where the method raises a
      `KeyError` because the route lacks the id its chat type needs. */
  function GetChatGroupName(user: UserId, route: Route): (r: Option<string>)
    ensures r.None? <==> (route.chatType == ONE_ON_ONE && route.recipientId.None?)
                         || (route.chatType == GUILD_CHAT && route.guildId.None?)
    ensures r.Some? ==>
              r == ChatViews.GetChatGroupName(user, ChatViews.MessageRequest(route.chatType, route.recipientId, route.guildId))
  {
    if route.chatType == ONE_ON_ONE then
      match route.recipientId
      case None => None
      case Some(r) => Some(DirectGroup(user, r))
    else if route.chatType == GUILD_CHAT then
      match route.guildId
      case None => None
      case Some(g) => Some(GuildGroup(NatToString(g)))
    else
      Some(GLOBAL_GROUP)
  }

  /** Two users whose connections name each other share one group, and no
      third user's one-on-one connection joins it. */
  lemma PeersShareGroup(a: UserId, b: UserId, c: UserId, g1: Option<GuildId>, g2: Option<GuildId>)
    ensures GetChatGroupName(a, Route(ONE_ON_ONE, Some(b), g1)) == GetChatGroupName(b, Route(ONE_ON_ONE, Some(a), g2))
    ensures c != a && c != b ==>
              forall d :: GetChatGroupName(c, Route(ONE_ON_ONE, Some(d), g1)) != GetChatGroupName(a, Route(ONE_ON_ONE, Some(b), g2))
  {
    DirectGroupSymmetric(a, b);
    if c != a && c != b {
      forall d ensures DirectGroup(c, d) != DirectGroup(a, b) {
        DirectGroupInjective(c, d, a, b);
      }
    }
  }

  /* ---------------------------------------------------------- save_message */

  /** The fields of a received JSON message: `chat_type` and `content`, and
      the optional `recipient_id` and `guild_id`. */
  datatype Payload = Payload(chatType: string, content: string, recipientId: Option<UserId>, guildId: Option<GuildId>)

  /** Why `save_message` stored nothing: the payload lacks the id its chat
      type needs (`KeyError`), the id names no row (`ValueError("Recipient or
      guild not found")`), or, in the code as written only, a variable read
      before assignment (`UnboundLocalError`). */
  datatype SaveError = MissingKey | RecipientOrGuildNotFound | UnboundLocal

  /** The row `save_message` creates, as intended: the sender is the
      connection's user; chat type and content are copied from the payload;
      a one-on-one message gets its recipient and no guild, a guild message
      its guild and no recipient, and any other chat type neither. */
  function NewMessage(users: set<UserId>, guilds: map<GuildId, Guild>, sender: UserId, payload: Payload, id: MessageId, timestamp: nat)
    : (r: Result<Message, SaveError>)
    ensures r.Ok? ==>
              && r.value.id == id && r.value.sender == sender && r.value.timestamp == timestamp
              && r.value.chatType == payload.chatType && r.value.content == payload.content
              && !r.value.delivered
              && ScopeConsistent(r.value)
    ensures r.Ok? && payload.chatType == ONE_ON_ONE ==> r.value.recipient == payload.recipientId
    ensures r.Ok? && payload.chatType == GUILD_CHAT ==> r.value.guild == payload.guildId
    ensures r.Ok? ==> (r.value.recipient.Some? ==> r.value.recipient.value in users)
                      && (r.value.guild.Some? ==> r.value.guild.value in guilds)
    ensures r == Err(MissingKey) <==>
              (payload.chatType == ONE_ON_ONE && payload.recipientId.None?)
              || (payload.chatType == GUILD_CHAT && payload.guildId.None?)
    ensures r == Err(RecipientOrGuildNotFound) <==>
              (payload.chatType == ONE_ON_ONE && payload.recipientId.Some? && payload.recipientId.value !in users)
              || (payload.chatType == GUILD_CHAT && payload.guildId.Some? && payload.guildId.value !in guilds)
    ensures r != Err(UnboundLocal)
    ensures payload.chatType !in CHAT_TYPE_CHOICES ==> r.Ok? && r.value.recipient.None? && r.value.guild.None?
  {
    var make := (recipient: Option<UserId>, guild: Option<GuildId>) =>
      Message(id, sender, recipient, guild, payload.content, timestamp, payload.chatType, false);
    if payload.chatType == ONE_ON_ONE then
      match payload.recipientId
      case None => Err(MissingKey)
      case Some(rid) => if rid in users then Ok(make(Some(rid), None)) else Err(RecipientOrGuildNotFound)
    else if payload.chatType == GUILD_CHAT then
      match payload.guildId
      case None => Err(MissingKey)
      case Some(gid) => if gid in guilds then Ok(make(None, Some(gid))) else Err(RecipientOrGuildNotFound)
    else
      Ok(make(None, None))
  }

  /** `save_message` as written: the one-on-one branch never assigns `guild`
      and the guild branch never assigns `recipient`, so reading both for
      `objects.create` raises once the lookup has succeeded. */
  function NewMessageAsWritten(users: set<UserId>, guilds: map<GuildId, Guild>, sender: UserId, payload: Payload, id: MessageId, timestamp: nat)
    : (r: Result<Message, SaveError>)
    ensures r.Ok? ==> payload.chatType != ONE_ON_ONE && payload.chatType != GUILD_CHAT
    ensures r == Err(UnboundLocal) <==>
              NewMessage(users, guilds, sender, payload, id, timestamp).Ok?
              && (payload.chatType == ONE_ON_ONE || payload.chatType == GUILD_CHAT)
    ensures r != Err(UnboundLocal) ==> r == NewMessage(users, guilds, sender, payload, id, timestamp)
  {
    if payload.chatType == ONE_ON_ONE then
      match payload.recipientId
      case None => Err(MissingKey)
      case Some(rid) => if rid in users then Err(UnboundLocal) else Err(RecipientOrGuildNotFound)
    else if payload.chatType == GUILD_CHAT then
      match payload.guildId
      case None => Err(MissingKey)
      case Some(gid) => if gid in guilds then Err(UnboundLocal) else Err(RecipientOrGuildNotFound)
    else
      Ok(Message(id, sender, None, None, payload.content, timestamp, payload.chatType, false))
  }

  /** A direct message to an existing user and a guild message to an
      existing guild are lost as written, where the intended save stores
      them with their recipient and their guild. */
  lemma AsWrittenDropsScopedMessages(users: set<UserId>, guilds: map<GuildId, Guild>, sender: UserId, r: UserId, g: GuildId, content: string)
    requires r in users && g in guilds
    ensures var direct := Payload(ONE_ON_ONE, content, Some(r), None);
            && NewMessageAsWritten(users, guilds, sender, direct, 1, 0) == Err(UnboundLocal)
            && NewMessage(users, guilds, sender, direct, 1, 0) == Ok(Message(1, sender, Some(r), None, content, 0, ONE_ON_ONE, false))
    ensures var scoped := Payload(GUILD_CHAT, content, None, Some(g));
            && NewMessageAsWritten(users, guilds, sender, scoped, 1, 0) == Err(UnboundLocal)
            && NewMessage(users, guilds, sender, scoped, 1, 0) == Ok(Message(1, sender, None, Some(g), content, 0, GUILD_CHAT, false))
  {
  }

  /* ---------------------------------------------------- connect as written */

  /** Why `connect` as written fails: the route lacks the id its chat type
      needs (`KeyError` inside `get_chat_group_name`), or the group name was
      computed and then awaited although it is a plain string (`TypeError`). */
  datatype ConnectError = MissingRouteKey | AwaitOnString

  /** The error `connect` raises as written: `get_chat_group_name` is an
      ordinary method, so `await` is applied to the string it returns; every
      route that has a group name fails with `TypeError`. */
  function ConnectErrorAsWritten(user: UserId, route: Route): (e: ConnectError)
    ensures e == MissingRouteKey <==> GetChatGroupName(user, route).None?
    ensures e == AwaitOnString <==> GetChatGroupName(user, route).Some?
  {
    if GetChatGroupName(user, route).None? then MissingRouteKey else AwaitOnString
  }

  /** A global route has a group name, so the intended `connect` accepts it;
      as written it fails with `TypeError`. */
  lemma ConnectAsWrittenFailsOnGlobal(user: UserId)
    ensures GetChatGroupName(user, Route(GLOBAL_CHAT, None, None)) == Some(GLOBAL_GROUP)
    ensures ConnectErrorAsWritten(user, Route(GLOBAL_CHAT, None, None)) == AwaitOnString
  {
  }

  /** A routed event: the group it is sent to, the received message, the id
      of the row saved for it, and the channels subscribed to the group when
      it is sent. */
  datatype Event = Event(group: string, message: Payload, messageId: MessageId, recipients: set<ChannelName>)

  class Consumer {
    /** `scope['user']`, the authenticated user of the connection. */
    const user: UserId
    const route: Route
    /** `self.channel_name`, this connection's name in the channel layer. */
    const channelName: ChannelName
    const layer: Layer
    const db: Db
    /** `self.chat_group_name`, unset until `connect` sets it. */
    var chatGroupName: Option<string>

    constructor (user: UserId, route: Route, channelName: ChannelName, layer: Layer, db: Db)
      ensures this.user == user && this.route == route && this.channelName == channelName
      ensures this.layer == layer && this.db == db
      ensures chatGroupName == None
    {
      this.user := user;
      this.route := route;
      this.channelName := channelName;
      this.layer := layer;
      this.db := db;
      chatGroupName := None;
    }

    /** `connect`: stores the group of the route and subscribes this
        connection to it. A route without the id its chat type needs fails
        before anything changes. No membership is checked here. */
    method Connect() returns (accepted: bool)
      requires layer.Valid()
      modifies this`chatGroupName, layer
      ensures layer.Valid()
      ensures accepted <==> GetChatGroupName(user, route).Some?
      ensures accepted ==> chatGroupName == GetChatGroupName(user, route)
      ensures accepted ==> layer.groups == Added(old(layer.groups), chatGroupName.value, channelName)
      ensures accepted ==> layer.Snapshot(chatGroupName.value) == Subscribers(old(layer.groups), chatGroupName.value) + {channelName}
      ensures !accepted ==> chatGroupName == old(chatGroupName) && layer.groups == old(layer.groups)
    {
      var name := GetChatGroupName(user, route);
      if name.None? {
        return false;
      }
      chatGroupName := name;
      layer.GroupAdd(name.value, channelName);
      accepted := true;
    }

    /** `connect` as written: the await on line 9 raises before `group_add`
        and `accept`, so no group is stored, nothing is subscribed and the
        connection is refused, on every route. */
    method ConnectAsWritten() returns (accepted: bool, error: ConnectError)
      ensures !accepted
      ensures error == ConnectErrorAsWritten(user, route)
    {
      accepted := false;
      error := ConnectErrorAsWritten(user, route);
    }

    /** `disconnect`: unsubscribes this connection from the group it stored;
        every other group and channel is untouched. Before a successful
        `connect` there is no stored group and nothing changes (the code
        reads the unset attribute and raises, with the same effect on the
        registry). */
    method Disconnect()
      requires layer.Valid()
      modifies layer
      ensures layer.Valid()
      ensures chatGroupName.Some? ==> layer.groups == Discarded(old(layer.groups), chatGroupName.value, channelName)
      ensures chatGroupName.Some? ==> channelName !in layer.Snapshot(chatGroupName.value)
      ensures chatGroupName.None? ==> layer.groups == old(layer.groups)
    {
      if chatGroupName.Some? {
        layer.GroupDiscard(chatGroupName.value, channelName);
      }
    }

    /** `save_message`, with the unset field taken as `None`: appends the
        row `NewMessage` describes, or stores nothing on an error. */
    method SaveMessage(payload: Payload) returns (r: Result<Message, SaveError>)
      requires db.Valid() && user in db.users
      modifies db`messages, db`clock
      ensures db.Valid()
      ensures r == NewMessage(db.users, db.guilds, user, payload, |old(db.messages)| + 1, old(db.clock))
      ensures r.Ok? ==> db.messages == old(db.messages) + [r.value]
      ensures r.Err? ==> db.messages == old(db.messages) && db.clock == old(db.clock)
    {
      var recipient: Option<UserId> := None;
      var guild: Option<GuildId> := None;
      if payload.chatType == ONE_ON_ONE {
        if payload.recipientId.None? {
          return Err(MissingKey);
        }
        if payload.recipientId.value !in db.users {
          return Err(RecipientOrGuildNotFound);
        }
        recipient := payload.recipientId;
      } else if payload.chatType == GUILD_CHAT {
        if payload.guildId.None? {
          return Err(MissingKey);
        }
        if payload.guildId.value !in db.guilds {
          return Err(RecipientOrGuildNotFound);
        }
        guild := payload.guildId;
      }
      var m := db.CreateMessage(user, recipient, guild, payload.chatType, payload.content);
      r := Ok(m);
    }

    /** `receive`: saves the message, and only then sends it with the new
        row's id to this connection's own group, whatever scope the payload
        names. A failed save sends nothing. */
    method Receive(payload: Payload) returns (r: Result<Event, SaveError>)
      requires db.Valid() && user in db.users
      requires chatGroupName.Some?
      modifies db`messages, db`clock
      ensures db.Valid()
      ensures r.Err? ==> db.messages == old(db.messages)
                         && NewMessage(db.users, db.guilds, user, payload, |old(db.messages)| + 1, old(db.clock)) == Err(r.error)
      ensures r.Ok? ==>
                && |db.messages| == |old(db.messages)| + 1
                && db.messages == old(db.messages) + [db.messages[|old(db.messages)|]]
                && Ok(db.messages[|old(db.messages)|]) == NewMessage(db.users, db.guilds, user, payload, |old(db.messages)| + 1, old(db.clock))
                && r.value == Event(chatGroupName.value, payload, db.messages[|old(db.messages)|].id, layer.Snapshot(chatGroupName.value))
    {
      var saved := SaveMessage(payload);
      if saved.Err? {
        return Err(saved.error);
      }
      var recipients := layer.Snapshot(chatGroupName.value);
      r := Ok(Event(chatGroupName.value, payload, saved.value.id, recipients));
    }
  }

  /** A fresh connection that connects and then disconnects leaves the
      registry as it found it. */
  method ConnectThenDisconnect(c: Consumer)
    requires c.layer.Valid() && c.chatGroupName.None?
    requires forall g :: c.channelName !in Subscribers(c.layer.groups, g)
    modifies c, c.layer
    ensures c.layer.Valid()
    ensures c.layer.groups == old(c.layer.groups)
  {
    var accepted := c.Connect();
    if accepted {
      AddThenDiscard(old(c.layer.groups), c.chatGroupName.value, c.channelName);
    }
    c.Disconnect();
  }

  /** On a global route the connection as written is refused and leaves the
      registry empty, where the intended `connect` subscribes it to
      `chat.global`. */
  method GlobalConnectScenario()
  {
    var db := new Db({3}, map[]);
    var layer := new Layer();
    var c := new Consumer(3, Route(GLOBAL_CHAT, None, None), "c", layer, db);
    var accepted, error := c.ConnectAsWritten();
    assert !accepted && error == AwaitOnString;
    assert c.chatGroupName.None? && layer.groups == map[];
    accepted := c.Connect();
    assert accepted && c.chatGroupName == Some(GLOBAL_GROUP);
    assert "c" in layer.Snapshot(GLOBAL_GROUP);
  }

  /** User 3 sends "hi" to user 7 over a one-on-one connection; user 7's
      connection to user 3 is among the channels the event is sent to, and
      the saved row names 3 as sender and 7 as recipient. */
  method DirectMessageScenario()
  {
    var db := new Db({3, 7}, map[]);
    var layer := new Layer();
    var alice := new Consumer(3, Route(ONE_ON_ONE, Some(7), None), "alice", layer, db);
    var bob := new Consumer(7, Route(ONE_ON_ONE, Some(3), None), "bob", layer, db);
    var ok := alice.Connect();
    assert ok;
    ok := bob.Connect();
    assert ok;
    DirectGroupSymmetric(3, 7);
    assert alice.chatGroupName == bob.chatGroupName;
    var r := alice.Receive(Payload(ONE_ON_ONE, "hi", Some(7), None));
    assert r.Ok?;
    assert r.value.messageId == 1;
    assert "bob" in r.value.recipients && "alice" in r.value.recipients;
    assert db.messages[0].sender == 3 && db.messages[0].recipient == Some(7);
    assert db.messages[0].content == "hi" && !db.messages[0].delivered;
  }
}
