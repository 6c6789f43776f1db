/** The guild membership views: `GuildJoinView`, `GuildLeaveView` and
    `GuildManageMembersView` with its promote, demote and remove actions.
    Each changes only the guild table (the guild row with its membership
    rows); the functions below give a guild row after each change, and the
    methods apply them to the database as the views do. */
module GuildViews {
  import opened Common
  import opened Models
  import opened Database

  /** Everything of a guild row except its memberships is left alone. */
  predicate SameGuildRow(r: Guild, g: Guild)
  {
    r.name == g.name && r.description == g.description && r.leader == g.leader
  }

  /** `guild.members.add(user)`: a new membership gets the default role; an
      existing membership is kept as it is. */
  function Joined(g: Guild, u: UserId): (r: Guild)
    ensures SameGuildRow(r, g)
    ensures r.members.Keys == g.members.Keys + {u}
    ensures forall v :: v in g.members ==> r.members[v] == g.members[v]
    ensures u !in g.members ==> r.members[u] == DEFAULT_ROLE
  {
    if u in g.members then g else g.(members := g.members[u := DEFAULT_ROLE])
  }

  /** `guild.members.remove(user)`: the membership row goes, whatever its
      role; every other membership stays. */
  function Left(g: Guild, u: UserId): (r: Guild)
    ensures SameGuildRow(r, g)
    ensures r.members.Keys == g.members.Keys - {u}
    ensures forall v :: v in r.members ==> r.members[v] == g.members[v]
  {
    g.(members := g.members - {u})
  }

  /** `_promote_member`: a member or officer becomes an officer, a leader
      stays a leader, and a user without a membership is ignored. */
  function Promoted(g: Guild, u: UserId): (r: Guild)
    ensures SameGuildRow(r, g)
    ensures r.members.Keys == g.members.Keys
    ensures u in g.members ==> r.members[u] == (if g.members[u] == Leader then Leader else Officer)
    ensures forall v :: v in g.members && v != u ==> r.members[v] == g.members[v]
  {
    if u in g.members && g.members[u] != Leader then g.(members := g.members[u := Officer]) else g
  }

  /** `_demote_member`: any membership ends with the member role, and a user
      without a membership is ignored. */
  function Demoted(g: Guild, u: UserId): (r: Guild)
    ensures SameGuildRow(r, g)
    ensures r.members.Keys == g.members.Keys
    ensures u in g.members ==> r.members[u] == Member
    ensures forall v :: v in g.members && v != u ==> r.members[v] == g.members[v]
  {
    if u in g.members && g.members[u] != Member then g.(members := g.members[u := Member]) else g
  }

  /** `_remove_member` for an existing user: anyone but the guild's leader
      loses their membership. */
  function Removed(g: Guild, u: UserId): (r: Guild)
    ensures SameGuildRow(r, g)
    ensures r.members.Keys == if u == g.leader then g.members.Keys else g.members.Keys - {u}
    ensures forall v :: v in r.members ==> r.members[v] == g.members[v]
  {
    if u == g.leader then g else Left(g, u)
  }

  /** Joining twice is joining once. */
  lemma JoinIdempotent(g: Guild, u: UserId)
    ensures Joined(Joined(g, u), u) == Joined(g, u)
  {
  }

  /** Leaving right after joining afresh restores the guild. */
  lemma LeaveUndoesJoin(g: Guild, u: UserId)
    requires u !in g.members
    ensures Left(Joined(g, u), u) == g
  {
    assert Left(Joined(g, u), u).members == g.members;
  }

  /** Promoting twice is promoting once, and a leader is never promoted. */
  lemma PromoteIdempotent(g: Guild, u: UserId)
    ensures Promoted(Promoted(g, u), u) == Promoted(g, u)
    ensures u in g.members && g.members[u] == Leader ==> Promoted(g, u) == g
  {
  }

  /** Demotion always ends at the member role, so it is idempotent. */
  lemma DemoteIdempotent(g: Guild, u: UserId)
    ensures Demoted(Demoted(g, u), u) == Demoted(g, u)
  {
  }

  /** Demoting a member who was just promoted restores the guild. */
  lemma DemoteUndoesPromote(g: Guild, u: UserId)
    requires u in g.members && g.members[u] == Member
    ensures Demoted(Promoted(g, u), u) == g
  {
    assert Demoted(Promoted(g, u), u).members == g.members;
  }

  /** The guild's leader keeps a membership through any removal. */
  lemma RemoveKeepsLeader(g: Guild, u: UserId)
    requires g.leader in g.members
    ensures g.leader in Removed(g, u).members
  {
  }

  /** The guild table after `GuildManageMembersView.put`, with its status:
      404 for an unknown guild, 400 for an action other than promote,
      demote or remove, and otherwise 200 with that one guild changed. A
      missing `member_id`, or one naming no user, changes nothing. */
  function ManageMembers(users: set<UserId>, guilds: map<GuildId, Guild>, guildId: GuildId, memberId: Option<UserId>, action: string)
    : (r: (StatusCode, map<GuildId, Guild>))
    ensures guildId !in guilds ==> r == (HTTP_404_NOT_FOUND, guilds)
    ensures guildId in guilds && action !in {"promote", "demote", "remove"} ==> r == (HTTP_400_BAD_REQUEST, guilds)
    ensures r.0 == HTTP_200_OK <==> guildId in guilds && action in {"promote", "demote", "remove"}
    ensures r.1.Keys == guilds.Keys
    ensures forall h :: h in guilds && h != guildId ==> r.1[h] == guilds[h]
    ensures guildId in guilds ==> SameGuildRow(r.1[guildId], guilds[guildId])
    ensures guildId in guilds && guilds[guildId].leader in guilds[guildId].members
            ==> guilds[guildId].leader in r.1[guildId].members
    ensures memberId.None? ==> r.1 == guilds
    ensures guildId in guilds && memberId.Some? && action == "promote"
            ==> r.1 == guilds[guildId := Promoted(guilds[guildId], memberId.value)]
    ensures guildId in guilds && memberId.Some? && action == "demote"
            ==> r.1 == guilds[guildId := Demoted(guilds[guildId], memberId.value)]
    ensures guildId in guilds && memberId.Some? && memberId.value in users && action == "remove"
            ==> r.1 == guilds[guildId := Removed(guilds[guildId], memberId.value)]
    ensures action == "remove" && memberId.Some? && memberId.value !in users ==> r.1 == guilds
  {
    if guildId !in guilds then (HTTP_404_NOT_FOUND, guilds)
    else
      var g := guilds[guildId];
      if action == "promote" then
        (HTTP_200_OK, if memberId.Some? then guilds[guildId := Promoted(g, memberId.value)] else guilds)
      else if action == "demote" then
        (HTTP_200_OK, if memberId.Some? then guilds[guildId := Demoted(g, memberId.value)] else guilds)
      else if action == "remove" then
        (HTTP_200_OK, if memberId.Some? && memberId.value in users then guilds[guildId := Removed(g, memberId.value)] else guilds)
      else (HTTP_400_BAD_REQUEST, guilds)
  }

  /** A guild row changed by one of the functions above keeps the guild
      table valid, provided any new member is a user. */
  lemma UpdateKeepsGuildsValid(users: set<UserId>, guilds: map<GuildId, Guild>, id: GuildId, r: Guild)
    requires GuildsValid(users, guilds) && id in guilds
    requires SameGuildRow(r, guilds[id]) && r.members.Keys <= users
    ensures GuildsValid(users, guilds[id := r])
    ensures guilds[id := r].Keys == guilds.Keys
  {
  }

  /* ------------------------------------------------------------ the views */

  /** `GuildJoinView.post`. */
  method GuildJoin(db: Db, user: UserId, guildId: GuildId) returns (status: StatusCode)
    requires db.Valid() && user in db.users
    modifies db`guilds
    ensures db.Valid()
    ensures guildId !in old(db.guilds) ==> status == HTTP_404_NOT_FOUND && db.guilds == old(db.guilds)
    ensures guildId in old(db.guilds) ==>
              status == HTTP_200_OK && db.guilds == old(db.guilds)[guildId := Joined(old(db.guilds)[guildId], user)]
  {
    if guildId !in db.guilds {
      return HTTP_404_NOT_FOUND;
    }
    var guild := db.guilds[guildId];
    UpdateKeepsGuildsValid(db.users, db.guilds, guildId, Joined(guild, user));
    db.guilds := db.guilds[guildId := Joined(guild, user)];
    status := HTTP_200_OK;
  }

  /** `GuildLeaveView.delete`: a member leaves; a non-member is refused. */
  method GuildLeave(db: Db, user: UserId, guildId: GuildId) returns (status: StatusCode)
    requires db.Valid()
    modifies db`guilds
    ensures db.Valid()
    ensures guildId !in old(db.guilds) ==> status == HTTP_404_NOT_FOUND && db.guilds == old(db.guilds)
    ensures guildId in old(db.guilds) && user !in old(db.guilds)[guildId].members
            ==> status == HTTP_400_BAD_REQUEST && db.guilds == old(db.guilds)
    ensures guildId in old(db.guilds) && user in old(db.guilds)[guildId].members
            ==> status == HTTP_200_OK && db.guilds == old(db.guilds)[guildId := Left(old(db.guilds)[guildId], user)]
  {
    if guildId !in db.guilds {
      return HTTP_404_NOT_FOUND;
    }
    var guild := db.guilds[guildId];
    if user in guild.members {
      UpdateKeepsGuildsValid(db.users, db.guilds, guildId, Left(guild, user));
      db.guilds := db.guilds[guildId := Left(guild, user)];
      status := HTTP_200_OK;
    } else {
      status := HTTP_400_BAD_REQUEST;
    }
  }

  /** `GuildManageMembersView._promote_member`. */
  method PromoteMember(db: Db, guildId: GuildId, memberId: Option<UserId>)
    requires db.Valid() && guildId in db.guilds
    modifies db`guilds
    ensures db.Valid()
    ensures memberId.None? ==> db.guilds == old(db.guilds)
    ensures memberId.Some? ==> db.guilds == old(db.guilds)[guildId := Promoted(old(db.guilds)[guildId], memberId.value)]
  {
    if memberId.Some? {
      var guild := db.guilds[guildId];
      UpdateKeepsGuildsValid(db.users, db.guilds, guildId, Promoted(guild, memberId.value));
      db.guilds := db.guilds[guildId := Promoted(guild, memberId.value)];
    }
  }

  /** `GuildManageMembersView._demote_member`. */
  method DemoteMember(db: Db, guildId: GuildId, memberId: Option<UserId>)
    requires db.Valid() && guildId in db.guilds
    modifies db`guilds
    ensures db.Valid()
    ensures memberId.None? ==> db.guilds == old(db.guilds)
    ensures memberId.Some? ==> db.guilds == old(db.guilds)[guildId := Demoted(old(db.guilds)[guildId], memberId.value)]
  {
    if memberId.Some? {
      var guild := db.guilds[guildId];
      UpdateKeepsGuildsValid(db.users, db.guilds, guildId, Demoted(guild, memberId.value));
      db.guilds := db.guilds[guildId := Demoted(guild, memberId.value)];
    }
  }

  /** `GuildManageMembersView._remove_member`: an unknown user is ignored. */
  method RemoveMember(db: Db, guildId: GuildId, memberId: Option<UserId>)
    requires db.Valid() && guildId in db.guilds
    modifies db`guilds
    ensures db.Valid()
    ensures memberId.None? || memberId.value !in db.users ==> db.guilds == old(db.guilds)
    ensures memberId.Some? && memberId.value in db.users
            ==> db.guilds == old(db.guilds)[guildId := Removed(old(db.guilds)[guildId], memberId.value)]
  {
    if memberId.Some? && memberId.value in db.users {
      var guild := db.guilds[guildId];
      UpdateKeepsGuildsValid(db.users, db.guilds, guildId, Removed(guild, memberId.value));
      db.guilds := db.guilds[guildId := Removed(guild, memberId.value)];
    }
  }

  /** `GuildManageMembersView.put`. The view checks no role of the
      requester, so the requester does not appear. */
  method GuildManage(db: Db, guildId: GuildId, memberId: Option<UserId>, action: string) returns (status: StatusCode)
    requires db.Valid()
    modifies db`guilds
    ensures db.Valid()
    ensures (status, db.guilds) == ManageMembers(db.users, old(db.guilds), guildId, memberId, action)
  {
    if guildId !in db.guilds {
      return HTTP_404_NOT_FOUND;
    }
    if action == "promote" {
      PromoteMember(db, guildId, memberId);
    } else if action == "demote" {
      DemoteMember(db, guildId, memberId);
    } else if action == "remove" {
      RemoveMember(db, guildId, memberId);
    } else {
      return HTTP_400_BAD_REQUEST;
    }
    status := HTTP_200_OK;
  }
}
