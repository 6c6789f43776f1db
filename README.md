# Unity backend chat, guild and friend core, modelled in Dafny

This project models the bookkeeping core of a Django/Channels game backend:

- how a chat request is turned into a channel-layer group name (one-on-one pair, guild, global), in the HTTP view and in the websocket consumer;
- the checks `MessageCreateView.post` makes before routing a message;
- the websocket consumer's life cycle: `connect` subscribes the connection to its group, `disconnect` unsubscribes it, and `receive` saves a `Message` row and then sends it to the group;
- the message table and the three history views (filter, order by timestamp, pages of 25);
- guild membership: join, leave, and promote, demote and remove with their guards;
- friend requests (create, accept, decline) and the friend list derived from them.

The database tables live in one object, `Database.Db`: users, guilds with their membership rows, friend rows and message rows. Its `Valid()` states the schema's integrity rules. The Channels registry is `ChannelLayer.Layer`: a map from group name to the set of subscribed channel names. Its semantics are those of Channels' in-memory layer: add to a set, discard from a set, and drop a group once it is empty. The registry is an assumed contract, since the Channels library is not part of this model. Every view method takes the database and the ids it needs. Its status code is a plain number.

Modules, one per source concern:

- `Common`: `Option`, `Result` and the status codes.
- `Models`: the rows of `models.py`.
- `GroupNames`: decimal printing and the group-name formats.
- `Database`: the tables.
- `ChannelLayer`: the group registry.
- `Pagination`: `MessageListPagination`.
- `ChatViews`, `GuildViews`, `FriendViews`: `views.py`.
- `ChatConsumer`: `chatConsumer.py`.

### Behaviour of the code worth knowing

The model follows the code. Some of that behaviour is easy to miss:

- As written, `connect` never succeeds. It awaits the plain string `get_chat_group_name` returns, which raises before `group_add` and `accept` (see Findings). The consumer's operations below `connect` model the intended behaviour, with the await removed.
- The websocket consumer checks no guild membership on `connect` or `receive`. Only the HTTP send and the guild history view return 403 to non-members.
- `receive` always sends to the group `connect` stored. It never uses the scope named in the message. With a working `connect` and a working save, a direct message received on a global connection would be saved as direct and sent to `chat.global`.
- Nothing ever sets `delivered`, so every row keeps `delivered = False`.
- History pages use page numbers (offsets), not a cursor. Because timestamps only grow and rows are appended, a page that was already full never changes when new messages arrive (`ChatViews.SaveKeepsFullPages`). A partly filled last page does grow.
- `GuildManageMembersView` checks no role of the requester. Any authenticated user may promote, demote or remove.

## Model

| member | source | states |
|---|---|---|
| `Models.FriendStatusRoundTrip` | unity_backend/models.py:21 | a friend status is exactly `pending` or `accepted`, its column value reads back as itself, and the default is pending |
| `Models.RoleRoundTrip` | unity_backend/models.py:28-41 | the guild roles are exactly member, officer and leader, each reads back as itself, and a new membership defaults to member |
| `GroupNames.NatToString` | unity_backend/views.py:186 | printing an id gives a non-empty string of decimal digits, of length 1 exactly for ids below 10 |
| `GroupNames.NatToStringInjective` | unity_backend/views.py:186 | distinct ids print differently |
| `GroupNames.Sorted2` | unity_backend/views.py:185 | `sorted` of two ids is ascending and holds the same two ids |
| `GroupNames.DirectGroupSymmetric` | unity_backend/views.py:184-186 | the one-on-one name of (A, B) equals that of (B, A) |
| `GroupNames.DirectGroupInjective` | unity_backend/views.py:184-186 | two one-on-one names are equal if and only if they name the same unordered pair of users |
| `GroupNames.GuildGroupInjective` | unity_backend/views.py:187-189 | two guild names are equal if and only if the guild ids are equal |
| `GroupNames.GroupKindsDisjoint` | unity_backend/views.py:182-191 | one-on-one, guild and global names never coincide |
| `GroupNames.DirectGroup` | unity_backend/views.py:184-186 | the one-on-one name is the prefix, the smaller id, a dash and the larger id, both printed in decimal (its meaning as a routing key is `GroupNames.DirectGroupSymmetric` and `GroupNames.DirectGroupInjective`) |
| `GroupNames.GuildGroup` | unity_backend/views.py:187-189 | the guild name is the guild prefix followed by exactly the id text, which can be read back by removing the prefix (see `GroupNames.GuildGroupInjective`) |
| `GroupNames.DirectGroupDeterminesPair` | unity_backend/views.py:184-186 | equal one-on-one names come from the same sorted pair of ids |
| `Database.Db.CreateFriend` | unity_backend/views.py:40 | inserting a friend row uses a fresh key, adds exactly that row and keeps the tables valid |
| `Database.Db.CreateMessage` | unity_backend/chatConsumer.py:47-53 | a new message row is appended with the next id, the current time and `delivered = false`, and the clock moves forward |
| `ChannelLayer.Added` | unity_backend/chatConsumer.py:11 | `group_add` puts the channel into that group's set and leaves every other group as it was |
| `ChannelLayer.Discarded` | unity_backend/chatConsumer.py:15 | `group_discard` takes the channel out of that group's set and leaves every other group as it was |
| `ChannelLayer.AddIdempotent` | unity_backend/chatConsumer.py:11 | subscribing twice equals subscribing once |
| `ChannelLayer.DiscardAbsent` | unity_backend/chatConsumer.py:15 | discarding a channel that is not subscribed changes nothing |
| `ChannelLayer.AddThenDiscard` | unity_backend/chatConsumer.py:8-15 | adding a channel that was not subscribed and then discarding it restores the registry exactly |
| `ChannelLayer.AddTwiceDiscardOnce` | unity_backend/chatConsumer.py:11-15 | after two adds, one discard unsubscribes the channel |
| `ChannelLayer.Layer.GroupAdd` | unity_backend/chatConsumer.py:11 | the registry becomes `Added` of the old one and keeps no empty group |
| `ChannelLayer.Layer.GroupDiscard` | unity_backend/chatConsumer.py:15 | the registry becomes `Discarded` of the old one and keeps no empty group |
| `ChannelLayer.Layer.Snapshot` | unity_backend/chatConsumer.py:21-28 | a group send reaches exactly the channels subscribed to that group at that moment |
| `Pagination.PageCount` | unity_backend/views.py:226-227 | the page count is the smallest number of 25-item pages that holds all items; an empty list has exactly one (empty) page |
| `Pagination.Paginate` | unity_backend/views.py:226-227 | page p holds items 25(p-1) onwards, 25 of them except on the last page; a page number outside 1..PageCount is 404 |
| `Pagination.PagesUpToIsPrefix` | unity_backend/views.py:226-227 | the first k pages are the first 25k items, in order |
| `Pagination.AllPagesCoverItems` | unity_backend/views.py:226-227 | all pages together return every item exactly once, in order |
| `Pagination.PaginateAppendStable` | unity_backend/views.py:226-227 | items appended after a page was full do not change that page |
| `ChatViews.GetChatGroupName` | unity_backend/views.py:180-191 | a one-on-one request without a recipient has no name; otherwise the one-on-one name is the pair's, the same whichever of the two asks; a guild request gets its guild's name, or `chat.guild.None` without a guild; any other chat type gets `chat.global` (its meaning is carried by `GroupNames.DirectGroupInjective` and `ChatViews.PostRoutesToScope`) |
| `ChatViews.Post` | unity_backend/views.py:193-215 | a refusal is 400, 403 or 404; a routed message goes to `get_chat_group_name`'s group, only after its recipient is known, or its guild is known and has the sender as a member (the full table is `ChatViews.PostOutcomes`) |
| `ChatViews.PostOutcomes` | unity_backend/views.py:193-215 | an unknown or missing recipient gives 400; an unknown guild gives 404; a non-member of an existing guild gives 403; a global message is never refused; a routed message goes to `get_chat_group_name`'s group |
| `ChatViews.PostRoutesToScope` | unity_backend/views.py:180-215 | a routed one-on-one message goes to the pair's shared group whoever sends; a guild message goes to its own guild's group and to no other guild's |
| `ChatViews.PostAsWritten` | unity_backend/views.py:216-223 | as written every post is refused: with the intended refusal where a check fails, taking the checks as run (see Left out), and with 500 where the intended view routes |
| `ChatViews.PostAsWrittenNeverRoutes` | unity_backend/views.py:216-223 | as written, even a global post that passes every check fails with 500 and nothing is sent |
| `ChatViews.Where` | unity_backend/views.py:235-240 | filtering keeps exactly the rows that satisfy the condition and keeps time order; each matching row appears once, in table order (`ChatViews.WhereSingleton` with `ChatViews.WhereAppend`) |
| `ChatViews.WhereAppend` | unity_backend/views.py:235-240 | filtering a table with rows appended gives the old result followed by the new matching rows |
| `ChatViews.WhereSingleton` | unity_backend/views.py:235-240 | a single row is kept exactly once when it matches the filter and dropped otherwise; with `ChatViews.WhereAppend` this fixes the filter's result on every table: each matching row once, in table order |
| `ChatViews.OrderByTimestamp` | unity_backend/views.py:240 | ordering by timestamp returns the same rows (as a multiset), ascending by timestamp |
| `ChatViews.OrderBySortedIsIdentity` | unity_backend/views.py:240 | rows already in time order come back unchanged |
| `ChatViews.History` | unity_backend/views.py:235-245 | a history page number outside the filtered rows' pages is 404; otherwise a page holds 25 rows, except the last; over a time-ordered table page p is rows 25(p-1) onwards of the filtered rows (all pages together: `ChatViews.HistoryComplete`) |
| `ChatViews.HistoryPage` | unity_backend/views.py:240-245 | every history page holds only rows of the table that match the filter, ascending by timestamp |
| `ChatViews.HistoryComplete` | unity_backend/views.py:240-245 | over a table in time order, all pages together return every matching row exactly once, in order |
| `ChatViews.HistoryPageStable` | unity_backend/views.py:240-245 | a message saved later than all others leaves every full history page unchanged |
| `ChatViews.TableInTimeOrder` | unity_backend/models.py:48 | the stored message table is in timestamp order, and every row is older than the timestamp the next insert gets |
| `ChatViews.TableHistoryComplete` | unity_backend/views.py:240-245 | over the database's message table, all history pages together return every matching row exactly once, oldest first |
| `ChatViews.SaveKeepsFullPages` | unity_backend/views.py:240-245 | the row the next save appends leaves every full history page of the database's table unchanged |
| `ChatViews.OneOnOneHistory` | unity_backend/views.py:232-248 | an unknown other user is 404; otherwise the answer is `History` of the pair's one-on-one rows for that page |
| `ChatViews.GuildHistory` | unity_backend/views.py:253-270 | an unknown guild is 404 and a requester who has not joined it 403; otherwise the answer is `History` of the guild's rows for that page |
| `ChatViews.GlobalHistory` | unity_backend/views.py:276-281 | the answer is `History` of the global rows for that page |
| `ChatViews.OneOnOneHistoryOnlyPair` | unity_backend/views.py:232-248 | the view fails, with 404, exactly for an unknown other user or a page outside the pair's pages; a page shows only the two users' direct rows, oldest first; over a time-ordered table it is rows 25(p-1) onwards of exactly those rows |
| `ChatViews.GuildHistoryOnlyMembers` | unity_backend/views.py:253-270 | 404 for an unknown guild, 403 to a non-member, and for a member 404 exactly for a page outside the guild's pages; a page shows only that guild's guild rows, oldest first; over a time-ordered table it is rows 25(p-1) onwards of exactly those rows |
| `ChatViews.GlobalHistoryOnlyGlobal` | unity_backend/views.py:276-281 | the view fails exactly for a page outside the global rows' pages; a page shows only global rows, oldest first; over a time-ordered table it is rows 25(p-1) onwards of exactly those rows |
| `GuildViews.Joined` | unity_backend/views.py:106 | joining adds the user to the member set with the default role and keeps existing memberships and the guild row as they were |
| `GuildViews.Left` | unity_backend/views.py:118 | leaving removes exactly that user's membership and keeps every other one |
| `GuildViews.Promoted` | unity_backend/views.py:150-157 | promotion makes a member or officer an officer, leaves a leader a leader, ignores a non-member and touches no other membership |
| `GuildViews.Demoted` | unity_backend/views.py:159-166 | demotion always ends at member, ignores a non-member and touches no other membership |
| `GuildViews.Removed` | unity_backend/views.py:168-174 | removal drops the membership of anyone except the guild's leader |
| `GuildViews.JoinIdempotent` | unity_backend/views.py:106 | joining twice equals joining once |
| `GuildViews.LeaveUndoesJoin` | unity_backend/views.py:106-118 | leaving right after a first join restores the guild |
| `GuildViews.PromoteIdempotent` | unity_backend/views.py:150-157 | promoting twice equals promoting once, and promoting a leader changes nothing |
| `GuildViews.DemoteIdempotent` | unity_backend/views.py:159-166 | demoting twice equals demoting once |
| `GuildViews.DemoteUndoesPromote` | unity_backend/views.py:150-166 | demoting a just-promoted member restores the guild |
| `GuildViews.RemoveKeepsLeader` | unity_backend/views.py:171-172 | the guild's leader never loses a membership through removal |
| `GuildViews.ManageMembers` | unity_backend/views.py:128-148 | an unknown guild gives 404 and an unknown action 400, both with no change; a valid action gives 200 and changes only that guild: promote applies `Promoted`, demote `Demoted`, and remove of an existing user `Removed`; a missing member id, or a remove naming no user, changes nothing; the leader keeps a membership |
| `GuildViews.UpdateKeepsGuildsValid` | unity_backend/models.py:24 | membership changes keep guild names unique and at most 100 characters |
| `GuildViews.GuildJoin` | unity_backend/views.py:103-109 | an unknown guild gives 404 with no change; otherwise 200 and the guild becomes `Joined` |
| `GuildViews.GuildLeave` | unity_backend/views.py:114-123 | an unknown guild gives 404 and a non-member 400, both with no change; a member gets 200 and the guild becomes `Left` |
| `GuildViews.PromoteMember` | unity_backend/views.py:150-157 | the guild becomes `Promoted`; a missing member id changes nothing |
| `GuildViews.DemoteMember` | unity_backend/views.py:159-166 | the guild becomes `Demoted`; a missing member id changes nothing |
| `GuildViews.RemoveMember` | unity_backend/views.py:168-174 | an id naming no user changes nothing; otherwise the guild becomes `Removed` |
| `GuildViews.GuildManage` | unity_backend/views.py:128-148 | the status and guild table are those `ManageMembers` gives |
| `FriendViews.FriendRequestCreate` | unity_backend/views.py:36-43 | an unknown recipient gives 404 with nothing inserted; otherwise 201 and exactly one new pending row from the requester to the recipient |
| `FriendViews.FindRequest` | unity_backend/views.py:50 | the lookup finds the row with that key only when the requester is its addressee |
| `FriendViews.AcceptRequest` | unity_backend/views.py:48-58 | no such incoming request gives 404 and a non-pending one 400, both with no change; a pending one gives 200 and that row alone becomes accepted |
| `FriendViews.DeclineRequest` | unity_backend/views.py:63-69 | no such incoming request gives 404 with no change; otherwise 200 and exactly that row is deleted |
| `FriendViews.FriendRequestAccept` | unity_backend/views.py:48-58 | the status and friend table are those `AcceptRequest` gives |
| `FriendViews.FriendRequestDecline` | unity_backend/views.py:63-69 | the status and friend table are those `DeclineRequest` gives |
| `FriendViews.AcceptAsWritten` | unity_backend/views.py:48-58 | as written accept answers 500 and leaves the table as it was, on every input, a status the intended view never gives |
| `FriendViews.DeclineAsWritten` | unity_backend/views.py:63-69 | as written decline answers 500 and leaves the table as it was, on every input, a status the intended view never gives |
| `FriendViews.RecipientLookupFails` | unity_backend/views.py:48-69 | a pending request accepted or declined by its addressee succeeds as intended but fails with 500 as written |
| `FriendViews.FriendIds` | unity_backend/views.py:77-85 | a user's friend ids are existing users other than the user, each sharing an accepted row with the user |
| `FriendViews.FriendList` | unity_backend/views.py:71-88 | an unknown user is 404, and otherwise the list holds exactly the other existing users joined to the user by an accepted row |
| `FriendViews.FriendIdsMeaning` | unity_backend/views.py:74-88 | a user's friends are exactly the other existing users joined to them by an accepted row, in either direction |
| `FriendViews.FriendListSymmetric` | unity_backend/views.py:77-85 | if v is in u's friend list then u is in v's |
| `FriendViews.AcceptMakesFriends` | unity_backend/views.py:54-85 | after a request is accepted, its sender is in the recipient's friend list |
| `FriendViews.FriendListAsWritten` | unity_backend/views.py:74-88 | as written the list view fails on every input: 404 for an unknown user as intended, 500 wherever the intended view answers |
| `FriendViews.FriendListAsWrittenFails` | unity_backend/views.py:75-78 | with one accepted friendship, the intended list names the friend; as written the view fails with 500 |
| `ChatConsumer.GetChatGroupName` | unity_backend/chatConsumer.py:60-71 | the consumer has no group name exactly when the route lacks the id its chat type needs, and otherwise names the same group as the HTTP view for the same user, chat type and target |
| `ChatConsumer.PeersShareGroup` | unity_backend/chatConsumer.py:62-66 | two users whose one-on-one connections name each other share one group, and no third user's one-on-one connection joins it |
| `ChatConsumer.NewMessage` | unity_backend/chatConsumer.py:33-57 | a saved row has the connection's user as sender, the payload's chat type and content, `delivered = false`, and the scope fields of its kind; global rows carry neither recipient nor guild; a chat type outside the declared choices is saved too, with neither; a missing id or an unknown recipient or guild saves nothing |
| `ChatConsumer.NewMessageAsWritten` | unity_backend/chatConsumer.py:38-53 | as written only messages that are neither one-on-one nor guild are saved; the unbound-variable error happens exactly where the intended save stores a one-on-one or guild row, and every other input behaves as intended |
| `ChatConsumer.AsWrittenDropsScopedMessages` | unity_backend/chatConsumer.py:38-53 | a direct message to an existing user and a guild message to an existing guild fail as written, where the intended save stores them with their recipient and guild |
| `ChatConsumer.ConnectErrorAsWritten` | unity_backend/chatConsumer.py:8-9 | as written `connect` raises the route's `KeyError` exactly when it lacks the needed id, and the await `TypeError` on every route that has a group name |
| `ChatConsumer.ConnectAsWrittenFailsOnGlobal` | unity_backend/chatConsumer.py:8-9 | a global route has the group `chat.global`, so the intended `connect` accepts it, but as written it fails with `TypeError` |
| `ChatConsumer.Consumer.ConnectAsWritten` | unity_backend/chatConsumer.py:8-12 | as written the connection is refused on every route, with the error above, and no group is stored or subscribed |
| `ChatConsumer.Consumer.Connect` | unity_backend/chatConsumer.py:8-12 | the intended connect, with the await removed: the stored group is the route's group and the channel is subscribed to exactly that group; a route missing its id changes nothing |
| `ChatConsumer.Consumer.Disconnect` | unity_backend/chatConsumer.py:14-15 | disconnect removes the channel from the stored group only; with no stored group nothing changes |
| `ChatConsumer.Consumer.SaveMessage` | unity_backend/chatConsumer.py:33-57 | the row `NewMessage` describes is appended, or nothing is stored on an error |
| `ChatConsumer.Consumer.Receive` | unity_backend/chatConsumer.py:17-28 | the message is saved first; only then is an event sent to the connection's own group, carrying the new row's id and reaching that group's current subscribers; a failed save sends nothing |
| `ChatConsumer.ConnectThenDisconnect` | unity_backend/chatConsumer.py:8-15 | a fresh connection that connects and disconnects leaves the registry unchanged |

## Left out

- Leaderboard views (`unity_backend/views.py:12-30`): serializer-validated create and update whose validation rules are not visible. An update of a missing key answers 404.
- `GuildCreateView` (`unity_backend/views.py:90-98`): serializer-validated creation. The guild table is given when the database is built.
- Authentication and permission classes: the requester's id is a parameter and is taken to be an existing user.
- Channels transport is not modelled: websocket accept, `json.loads`/`json.dumps`, the `chat_message` handler that forwards an event to the socket (`unity_backend/chatConsumer.py:30-31`), and group expiry. The model keeps only the group registry and the set of channels a send is addressed to.
- async execution, concurrency and ordering between connections: the code has no synchronisation of its own.
- The `delivered` flag: no code changes it.
- The body `MessageCreateView.post` would send (`unity_backend/views.py:216-223`): it is broken as written, see Findings. Only the checks and the routing are modelled.
- `post` is declared `async` inside a synchronous `APIView`. The model takes its checks as if they ran.
- Ids are natural numbers everywhere. A request value of another type, which Python's `sorted` could not compare with an int (`unity_backend/views.py:185`), is not modelled.
- `ChatConsumer.NewMessage`: a JSON `null` `recipient_id` or `guild_id` is treated like a missing key (`MissingKey`), where the code runs `objects.get(id=None)` and raises the not-found `ValueError`; nothing is stored or sent either way, so only the kind of error differs.
- A received JSON message always has `chat_type` and `content`. The `KeyError` for a missing one is not modelled.
- Page numbers are integers. The page strings `last` and non-numbers are not modelled.
- Timestamps are a counter that grows with every insert, so two rows never share a timestamp.
- `PlayerProfile`, `LeaderboardEntry`, `unity_backend/serializers.py`, `unity_backend/urls.py` and `unity_backend/admin.py` are not part of this model. They are declarative field lists, routes and admin registration.
- `ChatConsumer.Consumer.Receive`: states which channels the event is addressed to, not that they receive it, because message transport is outside the model.

## Findings

| source | as written | input that shows it | evidently intended | confidence | as-written member | corrected member |
|---|---|---|---|---|---|---|
| unity_backend/chatConsumer.py:39-45 | the one-on-one branch never assigns `guild` and the guild branch never assigns `recipient`, so `Message.objects.create` raises `UnboundLocalError` | a payload `{chat_type: "one-on-one", recipient_id: <an existing user>}` | the field a branch does not set is `None`, and direct and guild messages are saved | high (not executed) | `ChatConsumer.NewMessageAsWritten`, `ChatConsumer.AsWrittenDropsScopedMessages` | `ChatConsumer.NewMessage` |
| unity_backend/chatConsumer.py:9 | `connect` awaits `get_chat_group_name()`, an ordinary method returning a `str`; awaiting a string raises `TypeError` before `group_add` and `accept`, so no connection is ever opened and `receive` is never reached | a route `{chat_type: "global"}` | call `get_chat_group_name()` without `await`, subscribe to its group and accept | high (not executed) | `ChatConsumer.Consumer.ConnectAsWritten`, `ChatConsumer.ConnectErrorAsWritten`, `ChatConsumer.ConnectAsWrittenFailsOnGlobal` | `ChatConsumer.Consumer.Connect` |
| unity_backend/views.py:48-69 | the accept and decline lookups filter on `recipient`, which `Friend` does not have (its addressee is `friend`), so the query raises an error the views do not catch | a pending request with key 1 from user A to user B, accepted or declined by B | look the request up by `friend = request.user` | high (not executed) | `FriendViews.AcceptAsWritten`, `FriendViews.DeclineAsWritten`, `FriendViews.RecipientLookupFails` | `FriendViews.AcceptRequest`, `FriendViews.DeclineRequest` |
| unity_backend/views.py:77-85 | `Q` is never imported, so the view raises `NameError` once the user is found; the two-column `values_list` would not be a valid `id__in` value either | user u with one accepted friendship with v asks for u's list | list the users on the other side of u's accepted rows | high (not executed) | `FriendViews.FriendListAsWritten`, `FriendViews.FriendListAsWrittenFails` | `FriendViews.FriendList`, `FriendViews.FriendIdsMeaning` |
| unity_backend/views.py:216-223 | the event and the response use `serializers.data`, an attribute the imported module `serializers` does not have, so every post that passes the checks fails before anything is sent | a global chat post | send the message to the group and answer 201 | high (not executed) | `ChatViews.PostAsWritten`, `ChatViews.PostAsWrittenNeverRoutes` | `ChatViews.Post`, `ChatViews.PostOutcomes` |
