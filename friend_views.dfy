/** The friend-request views: creating a request, accepting it (pending to
    accepted), declining it (the row is deleted), and the friend list
    derived from accepted rows. Only the `Friend` table changes. */
module FriendViews {
  import opened Common
  import opened Models
  import opened Database

  /* --------------------------------------------------------------- create */

  /** `FriendRequestCreateView.post`: a pending request from the requester
      to the named user, or 404 when the body names no existing user.
      Nothing stops a duplicate request or a request to oneself. */
  method FriendRequestCreate(db: Db, user: UserId, recipient: Option<UserId>) returns (status: StatusCode)
    requires db.Valid() && user in db.users
    modifies db`friends, db`nextFriendId
    ensures db.Valid()
    ensures recipient.None? || recipient.value !in db.users
            ==> status == HTTP_404_NOT_FOUND && db.friends == old(db.friends) && db.nextFriendId == old(db.nextFriendId)
    ensures recipient.Some? && recipient.value in db.users ==>
              && status == HTTP_201_CREATED
              && old(db.nextFriendId) !in old(db.friends)
              && db.friends == old(db.friends)[old(db.nextFriendId) := Friend(user, recipient.value, DEFAULT_FRIEND_STATUS)]
  {
    if recipient.None? || recipient.value !in db.users {
      return HTTP_404_NOT_FOUND;
    }
    var _ := db.CreateFriend(Friend(user, recipient.value, Pending));
    status := HTTP_201_CREATED;
  }

  /* ------------------------------------------------------ accept, decline */

  /** `Friend.objects.get(id=request_id, friend=request.user)`: the request
      with that key, provided it is addressed to the requester. */
  function FindRequest(friends: map<FriendId, Friend>, requestId: FriendId, user: UserId): (r: Option<Friend>)
    ensures r.Some? <==> requestId in friends && friends[requestId].friend == user
    ensures r.Some? ==> r.value == friends[requestId]
  {
    if requestId in friends && friends[requestId].friend == user then Some(friends[requestId]) else None
  }

  /** The status and the friend table after `FriendRequestAcceptView.put`:
      404 when the requester has no such incoming request, 400 when it is
      no longer pending, and otherwise 200 with exactly that row accepted. */
  function AcceptRequest(friends: map<FriendId, Friend>, requestId: FriendId, user: UserId): (r: (StatusCode, map<FriendId, Friend>))
    ensures r.0 == HTTP_404_NOT_FOUND <==> FindRequest(friends, requestId, user).None?
    ensures r.0 == HTTP_400_BAD_REQUEST <==> FindRequest(friends, requestId, user).Some? && friends[requestId].status != Pending
    ensures r.0 == HTTP_200_OK <==> FindRequest(friends, requestId, user).Some? && friends[requestId].status == Pending
    ensures r.0 == HTTP_200_OK ==> r.1 == friends[requestId := Friend(friends[requestId].user, user, Accepted)]
    ensures r.0 != HTTP_200_OK ==> r.1 == friends
  {
    match FindRequest(friends, requestId, user)
    case None => (HTTP_404_NOT_FOUND, friends)
    case Some(f) =>
      if f.status != Pending then (HTTP_400_BAD_REQUEST, friends)
      else (HTTP_200_OK, friends[requestId := f.(status := Accepted)])
  }

  /** The status and the friend table after `FriendRequestDeclineView.delete`:
      404 when the requester has no such incoming request, and otherwise
      200 with exactly that row deleted, whatever its status. */
  function DeclineRequest(friends: map<FriendId, Friend>, requestId: FriendId, user: UserId): (r: (StatusCode, map<FriendId, Friend>))
    ensures r.0 == HTTP_404_NOT_FOUND <==> FindRequest(friends, requestId, user).None?
    ensures r.0 == HTTP_404_NOT_FOUND ==> r.1 == friends
    ensures r.0 != HTTP_404_NOT_FOUND ==> r.0 == HTTP_200_OK && r.1.Keys == friends.Keys - {requestId}
    ensures forall id :: id in r.1 ==> id in friends && r.1[id] == friends[id]
  {
    match FindRequest(friends, requestId, user)
    case None => (HTTP_404_NOT_FOUND, friends)
    case Some(_) => (HTTP_200_OK, friends - {requestId})
  }

  /** `FriendRequestAcceptView.put`. */
  method FriendRequestAccept(db: Db, user: UserId, requestId: FriendId) returns (status: StatusCode)
    requires db.Valid()
    modifies db`friends
    ensures db.Valid()
    ensures (status, db.friends) == AcceptRequest(old(db.friends), requestId, user)
  {
    var found := FindRequest(db.friends, requestId, user);
    if found.None? {
      return HTTP_404_NOT_FOUND;
    }
    var request := found.value;
    if request.status != Pending {
      return HTTP_400_BAD_REQUEST;
    }
    request := request.(status := Accepted);
    db.friends := db.friends[requestId := request];
    status := HTTP_200_OK;
  }

  /** `FriendRequestDeclineView.delete`. */
  method FriendRequestDecline(db: Db, user: UserId, requestId: FriendId) returns (status: StatusCode)
    requires db.Valid()
    modifies db`friends
    ensures db.Valid()
    ensures (status, db.friends) == DeclineRequest(old(db.friends), requestId, user)
  {
    var found := FindRequest(db.friends, requestId, user);
    if found.None? {
      return HTTP_404_NOT_FOUND;
    }
    db.friends := db.friends - {requestId};
    status := HTTP_200_OK;
  }

  /** Both views as written: their lookup filters on `recipient`, a field
      `Friend` does not have, so the query raises an error the views do not
      catch and every request fails with a server error, whatever the table
      holds; the table is never touched. No intended outcome is a 500. */
  function AcceptAsWritten(friends: map<FriendId, Friend>, requestId: FriendId, user: UserId): (r: (StatusCode, map<FriendId, Friend>))
    ensures r == (HTTP_500_INTERNAL_SERVER_ERROR, friends)
    ensures r.0 != AcceptRequest(friends, requestId, user).0
  {
    (HTTP_500_INTERNAL_SERVER_ERROR, friends)
  }

  function DeclineAsWritten(friends: map<FriendId, Friend>, requestId: FriendId, user: UserId): (r: (StatusCode, map<FriendId, Friend>))
    ensures r == (HTTP_500_INTERNAL_SERVER_ERROR, friends)
    ensures r.0 != DeclineRequest(friends, requestId, user).0
  {
    (HTTP_500_INTERNAL_SERVER_ERROR, friends)
  }

  /** A pending request addressed to its recipient: accepting it should
      succeed and declining it should delete it, but as written both fail
      and leave the request pending. */
  lemma RecipientLookupFails(from: UserId, to: UserId)
    ensures var friends := map[1 := Friend(from, to, Pending)];
            && AcceptRequest(friends, 1, to) == (HTTP_200_OK, map[1 := Friend(from, to, Accepted)])
            && AcceptAsWritten(friends, 1, to) == (HTTP_500_INTERNAL_SERVER_ERROR, friends)
            && DeclineRequest(friends, 1, to) == (HTTP_200_OK, map[])
            && DeclineAsWritten(friends, 1, to) == (HTTP_500_INTERNAL_SERVER_ERROR, friends)
  {
    var friends := map[1 := Friend(from, to, Pending)];
    assert friends[1 := Friend(from, to, Accepted)] == map[1 := Friend(from, to, Accepted)];
    assert (friends - {1}).Keys == {};
  }

  /* ----------------------------------------------------------- friend list */

  /** Some accepted row joins `u` and `v`, in either direction. */
  ghost predicate Befriended(friends: map<FriendId, Friend>, u: UserId, v: UserId)
  {
    exists id :: id in friends && friends[id].status == Accepted &&
      ((friends[id].user == u && friends[id].friend == v) || (friends[id].user == v && friends[id].friend == u))
  }

  predicate Involves(f: Friend, u: UserId)
  {
    f.status == Accepted && (f.user == u || f.friend == u)
  }

  /** `FriendListAPIView.get` as intended: the accepted rows naming `u` on
      either side, both of their user ids, restricted to existing users and
      with `u` itself excluded. */
  function FriendIds(users: set<UserId>, friends: map<FriendId, Friend>, u: UserId): (r: set<UserId>)
    ensures r <= users && u !in r
    ensures forall v :: v in r ==> exists id :: id in friends && Involves(friends[id], u) && Involves(friends[id], v)
  {
    var ids := (set id | id in friends && Involves(friends[id], u) :: friends[id].user)
             + (set id | id in friends && Involves(friends[id], u) :: friends[id].friend);
    ids * users - {u}
  }

  /** The friend list, or 404 for an unknown user. */
  function FriendList(users: set<UserId>, friends: map<FriendId, Friend>, u: UserId): (r: Result<set<UserId>, StatusCode>)
    ensures r.Err? <==> u !in users
    ensures r.Err? ==> r.error == HTTP_404_NOT_FOUND
    ensures r.Ok? ==> forall v :: v in r.value <==> v in users && v != u && Befriended(friends, u, v)
  {
    if u !in users then Err(HTTP_404_NOT_FOUND)
    else
      assert forall v :: v in FriendIds(users, friends, u) <==> v in users && v != u && Befriended(friends, u, v) by {
        forall v ensures v in FriendIds(users, friends, u) <==> v in users && v != u && Befriended(friends, u, v) {
          FriendIdsMeaning(users, friends, u, v);
        }
      }
      Ok(FriendIds(users, friends, u))
  }

  /** The friends of `u` are exactly the other users an accepted row joins
      `u` to; a pending request makes no one a friend. */
  lemma FriendIdsMeaning(users: set<UserId>, friends: map<FriendId, Friend>, u: UserId, v: UserId)
    ensures v in FriendIds(users, friends, u) <==> v in users && v != u && Befriended(friends, u, v)
  {
    if v in users && v != u && Befriended(friends, u, v) {
      var id :| id in friends && friends[id].status == Accepted &&
        ((friends[id].user == u && friends[id].friend == v) || (friends[id].user == v && friends[id].friend == u));
      assert Involves(friends[id], u);
      if friends[id].user == v {
        assert v in (set id | id in friends && Involves(friends[id], u) :: friends[id].user);
      } else {
        assert v in (set id | id in friends && Involves(friends[id], u) :: friends[id].friend);
      }
    }
  }

  /** Friendship is symmetric: `v` lists `u` whenever `u` lists `v`. */
  lemma FriendListSymmetric(users: set<UserId>, friends: map<FriendId, Friend>, u: UserId, v: UserId)
    requires u in users
    requires v in FriendIds(users, friends, u)
    ensures FriendList(users, friends, v) == Ok(FriendIds(users, friends, v))
    ensures u in FriendIds(users, friends, v)
  {
    FriendIdsMeaning(users, friends, u, v);
    var id :| id in friends && friends[id].status == Accepted &&
      ((friends[id].user == u && friends[id].friend == v) || (friends[id].user == v && friends[id].friend == u));
    assert Befriended(friends, v, u);
    FriendIdsMeaning(users, friends, v, u);
  }

  /** Accepting a request makes its sender a friend of the recipient. */
  lemma AcceptMakesFriends(users: set<UserId>, friends: map<FriendId, Friend>, requestId: FriendId, user: UserId)
    requires AcceptRequest(friends, requestId, user).0 == HTTP_200_OK
    requires friends[requestId].user in users && friends[requestId].user != user
    ensures friends[requestId].user in FriendIds(users, AcceptRequest(friends, requestId, user).1, user)
  {
    var after := AcceptRequest(friends, requestId, user).1;
    assert after[requestId].status == Accepted && after[requestId].friend == user;
    assert Befriended(after, user, friends[requestId].user);
    FriendIdsMeaning(users, after, user, friends[requestId].user);
  }

  /** `FriendListAPIView.get` as written: `Q` is not imported, so once the
      user is found the view fails with a server error. */
  function FriendListAsWritten(users: set<UserId>, friends: map<FriendId, Friend>, u: UserId): (r: Result<set<UserId>, StatusCode>)
    ensures r.Err?
    ensures FriendList(users, friends, u).Err? ==> r == FriendList(users, friends, u)
    ensures FriendList(users, friends, u).Ok? ==> r == Err(HTTP_500_INTERNAL_SERVER_ERROR)
  {
    if u !in users then Err(HTTP_404_NOT_FOUND) else Err(HTTP_500_INTERNAL_SERVER_ERROR)
  }

  /** Two users with an accepted friendship: the intended list names the
      friend, the list as written fails. */
  lemma FriendListAsWrittenFails(u: UserId, v: UserId)
    requires u != v
    ensures FriendList({u, v}, map[1 := Friend(u, v, Accepted)], u) == Ok({v})
    ensures FriendListAsWritten({u, v}, map[1 := Friend(u, v, Accepted)], u) == Err(HTTP_500_INTERNAL_SERVER_ERROR)
  {
    var friends := map[1 := Friend(u, v, Accepted)];
    forall w ensures w in FriendIds({u, v}, friends, u) <==> w == v {
      FriendIdsMeaning({u, v}, friends, u, w);
      if w == v {
        assert friends[1].user == u && friends[1].friend == v;
      }
    }
    assert FriendIds({u, v}, friends, u) == {v};
  }
}
