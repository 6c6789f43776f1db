/** The rows of the database tables the chat, guild and friend features use.
    Every row is a value; the tables that hold them live in `Database.Db`. */
module Models {
  import opened Common

  /** Primary keys. Django's auto-increment keys are never negative. */
  type UserId = nat
  type GuildId = nat
  type FriendId = nat
  type MessageId = nat

  /* ---------------------------------------------------------------- Friend */

  /** The two choices of `Friend.status`. */
  datatype FriendStatus = Pending | Accepted

  /** The value stored in the `status` column. */
  function FriendStatusValue(s: FriendStatus): string
  {
    match s
    case Pending => "pending"
    case Accepted => "accepted"
  }

  /** Reads a `status` column value; only the two declared choices are read. */
  function ParseFriendStatus(v: string): Option<FriendStatus>
  {
    if v == "pending" then Some(Pending)
    else if v == "accepted" then Some(Accepted)
    else None
  }

  /** The column default of `Friend.status`. */
  const DEFAULT_FRIEND_STATUS: FriendStatus := Pending

  lemma FriendStatusRoundTrip(s: FriendStatus, v: string)
    ensures ParseFriendStatus(FriendStatusValue(s)) == Some(s)
    ensures ParseFriendStatus(v) == Some(s) ==> FriendStatusValue(s) == v
    ensures ParseFriendStatus(v).Some? <==> v in {"pending", "accepted"}
    ensures DEFAULT_FRIEND_STATUS == Pending
  {
  }

  /** A friend request from `user` to `friend`; it becomes a friendship once
      accepted. */
  datatype Friend = Friend(user: UserId, friend: UserId, status: FriendStatus)

  /* ----------------------------------------------------------------- Guild */

  /** The three choices of `GuildMembership.role`. */
  datatype Role = Member | Officer | Leader

  /** The value stored in the `role` column (`Guild.MEMBER`, ...). */
  function RoleValue(r: Role): string
  {
    match r
    case Member => "member"
    case Officer => "officer"
    case Leader => "leader"
  }

  function ParseRole(v: string): Option<Role>
  {
    if v == "member" then Some(Member)
    else if v == "officer" then Some(Officer)
    else if v == "leader" then Some(Leader)
    else None
  }

  /** The column default of `GuildMembership.role`. */
  const DEFAULT_ROLE: Role := Member

  lemma RoleRoundTrip(r: Role, v: string)
    ensures ParseRole(RoleValue(r)) == Some(r)
    ensures ParseRole(v) == Some(r) ==> RoleValue(r) == v
    ensures ParseRole(v).Some? <==> v in {"member", "officer", "leader"}
    ensures DEFAULT_ROLE == Member
  {
  }

  const GUILD_NAME_MAX_LENGTH: nat := 100

  /** A guild row together with its `GuildMembership` rows: `members` maps
      each member to the role of that membership, so `members.Keys` is what
      `guild.members.all()` returns. `leader` is the separate foreign key
      `Guild.leader`, which need not be a member. */
  datatype Guild = Guild(name: string, description: string, leader: UserId, members: map<UserId, Role>)

  /* --------------------------------------------------------------- Message */

  const ONE_ON_ONE: string := "one-on-one"
  const GUILD_CHAT: string := "guild"
  const GLOBAL_CHAT: string := "global"

  /** The declared choices of `Message.chat_type`. `objects.create` does not
      validate choices, so a row may hold another value. */
  const CHAT_TYPE_CHOICES: set<string> := {ONE_ON_ONE, GUILD_CHAT, GLOBAL_CHAT}

  /** A chat message row. `timestamp` is the creation time, set on insert;
      `delivered` starts false and no code sets it. */
  datatype Message = Message(
    id: MessageId,
    sender: UserId,
    recipient: Option<UserId>,
    guild: Option<GuildId>,
    content: string,
    timestamp: nat,
    chatType: string,
    delivered: bool)

  /** The scope fields a row of each chat type holds: a direct message names
      its recipient only, a guild message its guild only, and a message of
      any other type neither. */
  predicate ScopeConsistent(m: Message)
  {
    if m.chatType == ONE_ON_ONE then m.recipient.Some? && m.guild.None?
    else if m.chatType == GUILD_CHAT then m.guild.Some? && m.recipient.None?
    else m.recipient.None? && m.guild.None?
  }
}
