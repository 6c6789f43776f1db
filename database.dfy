/** The database tables the views and the chat consumer read and write, held
    in one object, with the integrity constraints the schema imposes
    (foreign keys, the unique guild name, auto-increment keys, insertion
    timestamps). */
module Database {
  import opened Common
  import opened Models

  /** Every guild row: a name of at most 100 characters, a leader and
      members that are users; and no two guilds share a name. */
  ghost predicate GuildsValid(users: set<UserId>, guilds: map<GuildId, Guild>)
  {
    && (forall g :: g in guilds ==>
          && |guilds[g].name| <= GUILD_NAME_MAX_LENGTH
          && guilds[g].leader in users
          && guilds[g].members.Keys <= users)
    && (forall g, h :: g in guilds && h in guilds && g != h ==> guilds[g].name != guilds[h].name)
  }

  /** Every friend row points at two users and has a key below the next one
      the table will hand out. */
  ghost predicate FriendsValid(users: set<UserId>, friends: map<FriendId, Friend>, nextId: FriendId)
  {
    forall id :: id in friends ==> id < nextId && friends[id].user in users && friends[id].friend in users
  }

  /** The message table in insertion order: the i-th row has key i + 1, rows
      were stamped by a clock that only moves forward, and every foreign key
      points at an existing row. */
  ghost predicate MessagesValid(users: set<UserId>, guilds: map<GuildId, Guild>, messages: seq<Message>, clock: nat)
  {
    && (forall i :: 0 <= i < |messages| ==>
          && messages[i].id == i + 1
          && messages[i].timestamp < clock
          && messages[i].sender in users
          && (messages[i].recipient.Some? ==> messages[i].recipient.value in users)
          && (messages[i].guild.Some? ==> messages[i].guild.value in guilds))
    && (forall i, j :: 0 <= i < j < |messages| ==> messages[i].timestamp < messages[j].timestamp)
  }

  class Db {
    /** `auth.User`; the core never creates or deletes users. */
    var users: set<UserId>
    /** `Guild` with its `GuildMembership` rows. */
    var guilds: map<GuildId, Guild>
    /** `Friend`, by primary key. */
    var friends: map<FriendId, Friend>
    var nextFriendId: FriendId
    /** `Message`, in insertion order. */
    var messages: seq<Message>
    /** The time `auto_now_add` stamps on the next row. */
    var clock: nat

    ghost predicate Valid()
      reads this
    {
      && GuildsValid(users, guilds)
      && FriendsValid(users, friends, nextFriendId)
      && MessagesValid(users, guilds, messages, clock)
    }

    /** A database holding the given users and guilds and no friend or
        message rows. */
    constructor (users: set<UserId>, guilds: map<GuildId, Guild>)
      requires GuildsValid(users, guilds)
      ensures Valid()
      ensures this.users == users && this.guilds == guilds
      ensures friends == map[] && messages == []
    {
      this.users := users;
      this.guilds := guilds;
      friends := map[];
      nextFriendId := 1;
      messages := [];
      clock := 0;
    }

    /** `Friend.objects.create(...)`: inserts a row under a fresh key. */
    method CreateFriend(row: Friend) returns (id: FriendId)
      requires Valid()
      requires row.user in users && row.friend in users
      modifies this`friends, this`nextFriendId
      ensures Valid()
      ensures id == old(nextFriendId) && id !in old(friends)
      ensures friends == old(friends)[id := row]
    {
      id := nextFriendId;
      friends := friends[id := row];
      nextFriendId := nextFriendId + 1;
    }

    /** `Message.objects.create(...)`: appends a row with the next key, the
        current time and `delivered = False`. */
    method CreateMessage(sender: UserId, recipient: Option<UserId>, guild: Option<GuildId>, chatType: string, content: string)
      returns (m: Message)
      requires Valid()
      requires sender in users
      requires recipient.Some? ==> recipient.value in users
      requires guild.Some? ==> guild.value in guilds
      modifies this`messages, this`clock
      ensures Valid()
      ensures m == Message(|old(messages)| + 1, sender, recipient, guild, content, old(clock), chatType, false)
      ensures messages == old(messages) + [m]
      ensures clock > old(clock)
    {
      m := Message(|messages| + 1, sender, recipient, guild, content, clock, chatType, false);
      messages := messages + [m];
      clock := clock + 1;
    }
  }
}
