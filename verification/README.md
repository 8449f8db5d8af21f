# Verified model of the Pusher-compatible WebSocket server

A Dafny model of the stateful core of the server: channel and presence membership on a node, the webhooks it causes,
the scatter/gather and broadcast protocols between nodes, the channel cache, and the Redis work queue. Values and
functions state what a step does and carry the theorems; classes with the program's own fields, loops and maps are
proved against those functions.

| files | content |
|---|---|
| `Names.dfy` | channel kinds, name validation, the string keys of the cache and the flap detector |
| `Membership.dfy` | one app on one node as a value, the effect of every client request, runs |
| `MembershipCore.dfy` | what each request does to lists, users and sockets, from any state |
| `MembershipIndex.dfy`, `NamespaceLists.dfy` | the subscription index, user lists, compaction |
| `MembershipEvents.dfy`, `Alternation.dfy` | occupancy and member events, per topic: a channel, or a user in a channel |
| `ClusterMembership.dfy`, `ClusterEvents.dfy` | several nodes with serialised requests; occupancy and member events of the whole cluster |
| `ClientView.dfy`, `ClusterView.dfy`, `PresenceView.dfy` | what a client knows from the messages it received, per user: in a cluster, and on one node as a cluster of one |
| `Admissions.dfy`, `Replies.dfy` | who gets into a channel and is listed there, and what each socket is sent, in terms of names, signatures and numbers |
| `Capacity.dfy` | the presence member limit, on one node and in a cluster |
| `Witnesses.dfy` | concrete runs and histories that reach each failing condition |
| `Namespace.dfy`, `WebSocket.dfy` | the namespace, the sockets and the request handlers as classes |
| `Flap.dfy`, `FlapBursts.dfy` | the flap detector, its class, and what it lets through |
| `Webhooks.dfy`, `WebhookGates.dfy`, `AbstractQueue.dfy` | from client requests to dispatched webhooks; the queue manager as a class |
| `ClusterWebhooks.dfy` | the same on several nodes, each with a flap detector of its own |
| `Merge.dfy`, `Gather.dfy`, `HorizontalAdapter.dfy`, `GatheredQueries.dfy` | folding answers, the gather protocol, the adapter as a class; what the cluster-wide queries return |
| `Broadcast.dfy`, `RedisAdapter.dfy` | sending to a channel on all nodes; the Redis adapter as a class |
| `Cache.dfy`, `ApiEvents.dfy` | the local cache and its class; publishing and replay |
| `RedisQueue.dfy`, `WebhookDelivery.dfy` | the reliable queue and its workers; from the detector to the webhook endpoints |

## What the program does not keep

The behaviours below break a property that otherwise holds. Each is named by a predicate a caller can evaluate before the
request, for the one channel or user concerned, and the step theorems say "if and only if". What happens on other
channels, to other users and in other apps never matters.

- `JoinsAnonymously(c)`: a first presence subscribe to c without a user id. The socket is listed
  (`internal/channels.go:182`) before the check (`internal/websocket.go:453`), so it is subscribed without presence data:
  the index is broken, and on a cache channel the socket is sent neither the cached event nor a cache miss (`Nameless`).
- `VacatesSilently(c)`: such a socket, alone in c, leaves it or closes. The unsubscribe returns early
  (`internal/websocket.go:926`) and channel_vacated is never emitted.
- `Reoccupies(c)`: the only subscriber of a presence channel subscribes again. Presence joins count distinct sockets
  (`internal/channels.go:183`), so it is a first connection again. Other channels count list entries and are not affected.
- `AbandonsUser(c, u)`: the last socket of user u in a presence channel subscribes again under another user id
  (`internal/websocket.go:462`). Nobody is told that u is gone, so everybody there goes on taking u for a member until u
  joins again or they are sent a new roster (`Misled`).
- `SwitchesIdentity`: a listed socket signs in under a second user id (`internal/websocket.go:680`). The first user list
  keeps the socket for ever.
- One of two switches: if an app has only one of the two webhooks of a pair on, the opposite events never reach the flap
  detector, which then cancels nothing, and the webhooks alternate only if at most one event of that type was emitted.
- `ReoccupiesInCluster(c)`, on several nodes: besides the resubscription above, every first join on one node of a channel
  other than a presence channel that has subscribers on other nodes only, because that join counts the node's own list
  (`internal/channels.go:210`) while leaving counts the whole cluster (`internal/channels.go:236`).

"Misinforms about a topic" stands for `Reoccupies` or `VacatesSilently` of the channel for occupancy events, and for
`AbandonsUser` of the channel and user for member events.

Where names and code disagree the model follows the code: the sender writes `ExceptingId`
(`internal/adaptersHorizontal.go:145`), the receiver reads `ExceptingIds` (`internal/adaptersHorizontal.go:120`), so an
exclusion works on the sending node only; and the cleanup job keeps an item at the very instant at which lookups already
treat it as expired.

## Assumptions

- A client request, a timer callback, and the hand-over of an answer to a waiting gather are one atomic step each.
  Sends to registered sockets succeed.
- App ids contain no `:` (flap keys, `ColonFree`). The program has a validator for them but does not call it, and with a
  `:` two topics can indeed share a key (`AbstractQueueClass.ColonsCollide`). Cache keys need no such assumption, since
  channel names are validated on both sides.
- On several nodes (`ClusterMembership.dfy`) requests are handled one after another, gathers complete, and sends arrive.
- Pub/sub delivers a message at most once per subscriber and may lose it; request ids are fresh; node ids differ.
- The clock does not go backwards (cache). Timers fire at or after their deadline, arbitrarily late; only the theorems
  about bursts assume that a due timer of the key in question has fired before the next event for that key arrives.
- Signatures, parsed payloads, random ids, times, the iteration order of maps, and what a select statement yields are
  parameters.

## Model

| member | source | states |
|---|---|---|
| `ClusterView.ClusterRunBelieves` | internal/websocket.go:412-476 | Client view on any number of nodes, with no hypothesis on the clients: in every run with serialised requests, for every presence channel and user, each socket with presence data on any node was sent a roster, and what it has made of it with the member_added and member_removed messages in its inbox takes the user for a member exactly if the user is one on some node, except for the sockets of a set computed from the requests alone, which take it for one wrongly; so all are right if and only if that set is empty |
| `ClusterView.ClusterRosters` | internal/websocket.go:412-476 | all users together: every roster on every node is the member list of the whole cluster if and only if nobody is misled about anybody |
| `ClusterView.ClusterViewStep` | internal/websocket.go:451-476 | any request on any node keeps everybody in the cluster right about a user if and only if it is not an admitted resubscription under another user id by the last socket of that user on any node |
| `ClusterView.AllBelieveStep` | internal/websocket.go:911-957 | one request on one node turns the set of misled sockets of all nodes into exactly the one named |
| `Admissions.JoinsExactlyIf` | internal/channels.go:111-202 | any state and request: the socket is listed once more if and only if the server is open, the channel is not that of its own user, the name is valid, private, presence and user channels come with a valid signature, and a presence channel has fewer members than the limit (if there is one) and data of less than the limit plus one kilobytes; otherwise nothing but the inbox of the socket changes |
| `Admissions.JoinsExactlyIfInCluster` | internal/channels.go:150-202 | the same on several nodes, with the sum of the nodes' member counts |
| `Admissions.RoomMeansAdmitted` | internal/channels.go:150-165 | a signed, valid presence subscribe with a user id makes the user a member exactly if there is room below the limit (or it is one already) |
| `Admissions.RoomMeansAdmittedInCluster` | internal/channels.go:150-165 | the same on several nodes, for the gathered count |
| `Admissions.ListedAsAdmitted` | internal/namespace.go:227-284 | in every run a socket stands in the list of a channel exactly as often as it was let in since it last left the channel or was closed |
| `Admissions.ListedWithSignature` | internal/channels.go:120-131 | in every run, whoever is listed under a private, presence or user channel got there by a request with a valid signature |
| `Admissions.IdentityStep` | internal/websocket.go:592-606 | exactly which requests authorise a socket, and which user id it has afterwards |
| `Admissions.AwaitsUntilAuthorised` | internal/websocket.go:592-606 | in every run a socket still has to authorise exactly if the server asks for it and the socket, since it connected, was neither let into a channel that needs a signature nor signed in |
| `Replies.UnsignedIsDenied` | internal/channels.go:120-131 | any state: a subscribe to a private, presence or user channel without a valid signature leaves lists, users and events as they were, and if the server is open and the name valid the socket is sent exactly the three access-denied messages |
| `Replies.TurnedAwayIsTold` | internal/websocket.go:536-583 | on several nodes: whoever is not let in is sent exactly the messages of the first failing check, and nothing else happens on any node |
| `Replies.TurnedAwayHere` | internal/websocket.go:536-583 | the same on one node |
| `Replies.JoinIsTold` | internal/websocket.go:412-476 | an admitted subscribe appends to the inbox of every socket exactly: member_added for the others in a presence channel if the user is new, and for the subscriber the confirmation, with the members, and the replay of a cache channel |
| `Replies.LeaveIsTold` | internal/websocket.go:919-945 | a leave appends to the inbox of every socket exactly: member_removed for those that stay if the user is gone |
| `Replies.SigninIsTold` | internal/websocket.go:661-707 | a sign-in gives the socket its user, clears its need to authorise, confirms it, files it under the user, and changes nothing else; a missing user id is an invalid payload; a bad token costs the connection |
| `PresenceView.RunBelieves` | internal/websocket.go:412-476 | Client view, with no hypothesis on the clients: in every run, for every presence channel and user, each socket with presence data was sent a roster, and what it has made of it with the member_added and member_removed messages in its inbox takes the user for a member exactly if GetChannelMembers does, except for the sockets of a set computed from the requests alone (those present when the user's last socket changed names, until somebody joins as that user or they leave or are sent a new roster), which take it for one wrongly; so all are right if and only if that set is empty |
| `PresenceView.RunKeepsViews` | internal/websocket.go:412-476 | in every run in which the user was never abandoned in the channel, everybody there is right about that user, whatever happened to other users, on other channels, and with anonymous joins |
| `PresenceView.RunRosters` | internal/websocket.go:412-476 | all users together: every roster equals the member list if and only if nobody is misled about anybody; with no anonymous join of the channel, that is so for every subscriber |
| `PresenceView.ViewStep` | internal/websocket.go:451-476 | any request, anonymous joins included, keeps everybody in a channel right about a user if and only if it is not a resubscription to it under another user id by the last socket of that very user |
| `PresenceView.BeliefsStep` | internal/websocket.go:412-476 | one request turns the set of misled sockets into exactly the one named |
| `MembershipIndex.RunKeepsIndex` | internal/websocket.go:585-590 | for one channel: in every run without an anonymous first join of that channel, its subscribers by SubscribedChannels and by Channels are the same sockets, and presence data exists for it exactly in these if it is a presence channel |
| `MembershipIndex.RunKeepsGround` | internal/websocket.go:585-590 | in every run whatsoever: no list is empty, listed sockets are registered and subscribed, presence data is kept only for presence channels and only by listed sockets, and subscribers of other channels are listed |
| `MembershipIndex.RunKeepsUsers` | internal/namespace.go:377-425 | in every run without a change of identity, anonymous joins included, user lists are non-empty, repeat-free, and hold only live sockets that carry that user id |
| `MembershipIndex.IndexStep` | internal/websocket.go:536-623 | one request keeps the two-sided index of a channel if and only if it is not a first presence join of that channel without a user id |
| `MembershipIndex.UsersStep` | internal/websocket.go:661-707 | from any state with right user lists, one request keeps them live, repeat-free and consistent with the sockets if and only if it is not a sign-in of a listed socket under a second user id |
| `MembershipIndex.CloseErases` | internal/websocket.go:271-308 | after closeConnection, in any state, the socket id is in neither Sockets nor Channels, no other socket is gone, and it stays in a user list exactly if it was listed there under an id other than the one it carried |
| `NamespaceLists.ListsStep` | internal/namespace.go:162-284 | with no assumption on clients, every request keeps Channels and Users free of empty lists, channel lists free of unregistered ids and user lists free of repeats |
| `NamespaceLists.RunKeepsLists` | internal/namespace.go:148-284 | the same in every reachable state, so no filtered copy is ever made of an empty list |
| `NamespaceLists.CloseLists` | internal/namespace.go:162-221 | closing takes a socket out of Sockets and out of every channel list even in states reached by ill-behaved clients |
| `NamespaceLists.CompactIsInvisible` | internal/namespace.go:79-142 | CompactMaps inserted at any point of any run changes no later state, hence no later query or update |
| `MembershipIndex.CompactIsIdentity` | internal/namespace.go:79-142 | on maps without empty lists compaction is the identity |
| `MembershipEvents.OccupancyStep` | internal/websocket.go:608-612 | the channel_occupied/channel_vacated history of a channel stays alternating with its last entry telling whether the channel has subscribers if and only if the request is neither the sole presence subscriber of that channel subscribing to it again, nor a sole subscriber without presence data leaving it |
| `MembershipEvents.MemberEventsStep` | internal/websocket.go:911-957 | the member_added/member_removed history of a user in a channel stays alternating with its last entry telling whether some subscribed socket carries the user, however many sockets the user has, if and only if the request does not abandon that very user in that channel; anonymous joins make no difference |
| `MembershipEvents.TopicStep` | internal/websocket.go:608-612 | the same for any topic: events about it stay truthful if and only if the request does not misinform about that very topic |
| `MembershipEvents.RunTells` | internal/websocket.go:911-957 | in every run, what was announced about a topic has exactly one "on" too many for each request that misinformed about that topic, hence is alternating and truthful if and only if there was none; it never comes right again by itself |
| `MembershipEvents.JoinEmits` | internal/websocket.go:536-623 | an admitted subscribe emits exactly: occupied if it is the first connection, member added if the user is new, cache miss if a cache channel has nothing cached, in this order |
| `MembershipEvents.LeaveEmits` | internal/websocket.go:911-957 | an unsubscribe emits exactly: member removed if no other socket of the user stays, vacated if the channel is no longer listed, in this order |
| `MembershipEvents.MembersAfterLeaving` | internal/namespace.go:314-329 | leaving takes a user out of a channel exactly when no other listed socket carries it, and changes no other channel |
| `Witnesses.AnonymousJoinBreaksIndex` | internal/channels.go:177-183 | a concrete run: a presence subscribe without a user id leaves a subscribed presence channel without presence data |
| `Witnesses.AnonymousLeaveIsSilent` | internal/websocket.go:911-957 | a concrete run: an anonymous subscriber that leaves is never reported, so the channel stays occupied |
| `Witnesses.ResubscribeBreaksOccupancy` | internal/channels.go:177-202 | a concrete run: a sole presence subscriber that subscribes again is announced as first connection twice |
| `Witnesses.ResubscribeBreaksWebhooks` | internal/channels.go:177-202 | a concrete history with both switches on: after that run and both timers, channel_occupied was dispatched twice |
| `Witnesses.RenamingBreaksMembers` | internal/websocket.go:451-476 | a concrete run: subscribing again under another user id leaves the first user announced and never removed, and the client's own roster differs from the member list |
| `Witnesses.SecondSigninLeavesStaleUser` | internal/websocket.go:661-707 | a concrete run: a socket that signed in under two ids is still listed under the first one after it closed |
| `Witnesses.OneSwitchBreaksWebhooks` | internal/queues/queueAbstract.go:214-236 | a concrete history with channel_vacated off: a channel occupied, vacated and occupied again dispatches channel_occupied twice |
| `Witnesses.OtherNodeBreaksOccupancy` | internal/channels.go:208-225 | a concrete run of two nodes: a public channel with a subscriber on one node is announced as occupied again by a join on the other |
| `Capacity.CapacityHolds` | internal/channels.go:150-183 | with a positive limit no channel ever has more distinct members than the limit, in any run at all |
| `Capacity.CapacityStep` | internal/channels.go:150-183 | one request keeps every channel within the limit |
| `Capacity.SubscribeRespectsCount` | internal/channels.go:150-183 | a subscribe request decided on a reported member count adds at most its own user to its own channel, and nobody when the count leaves no room |
| `ClusterEvents.ClusterTopicStep` | internal/websocket.go:412-476 | several nodes: one request on any node keeps the events that all nodes together announced about a channel or user alternating and true of the cluster if and only if it does not misinform about that very topic |
| `ClusterEvents.ClusterMembersStep` | internal/websocket.go:911-957 | member_added and member_removed over all nodes: kept truthful if and only if the request is not an admitted resubscription under another user id by the last socket of the user in the whole cluster |
| `ClusterEvents.ClusterRunTells` | internal/websocket.go:911-957 | in every run of any number of nodes, what was announced about a topic has exactly one "on" too many for each request that misinformed about it, hence is alternating and truthful if and only if there was none |
| `ClusterMembership.OneNode` | internal/adaptersHorizontal.go:370-434 | a cluster of one node is the single-node machine, step for step |
| `GatheredQueries.ReturnsMemberCount` | internal/adaptersHorizontal.go:402-434 | in every interleaving, a completed ChannelMembersCount gather over all nodes in which each node said its member count returns their sum, the count that joins are decided on |
| `GatheredQueries.ReturnsConnections` | internal/adaptersHorizontal.go:847-850 | the same for ChannelSocketsCount: the number of connections in the cluster, which decides about first and last ones |
| `GatheredQueries.ReturnsMembers` | internal/adaptersHorizontal.go:800-819 | a completed ChannelMembers gather returns the users of the channel on any node |
| `GatheredQueries.ReturnsUserCounts` | internal/adaptersHorizontal.go:820-838 | a completed PresenceChannelsWithUsersCount gather returns the presence channels of all nodes, each with the sum of the nodes' member counts |
| `Capacity.GatheredCountBounds` | internal/adaptersHorizontal.go:402-434 | that sum bounds the size of the union of the member sets from above |
| `Capacity.ClusterCapacityHolds` | internal/adaptersHorizontal.go:402-434 | in every run of any number of nodes with serialised requests and gathered counts, the limit holds for the members of all nodes together |
| `Capacity.HandlerRespectsCount` | internal/channels.go:150-183 | a request adds at most an admitted user to the members of its node, and only when the gathered count leaves room, and nobody on other nodes |
| `WebSocketHandlers.Server.HandleSubscribe` | internal/websocket.go:536-623 | new state and error are those of the subscribe specification: generic reconnect while the server is closing, own user channel, bad name, refusal with its two error messages, or join |
| `WebSocketHandlers.Server.Join` | internal/channels.go:111-144 | the socket is let in exactly if a private, presence or user channel came with a valid signature and a presence channel has room below the limit and data within the size limit, the signature being checked first; an admitted socket is appended to the channel list once more and the connection count is the list length or the number of distinct sockets |
| `WebSocketHandlers.Server.JoinPresence` | internal/channels.go:150-202 | over capacity exactly if there is a limit and the distinct members have reached it, else too large exactly if the data is that of the limit plus one kilobytes or more, else the socket is listed |
| `WebSocketHandlers.Server.TrackOnSocket` | internal/websocket.go:585-606 | the subscription is recorded, and an unauthenticated socket without identity takes the one of its presence data |
| `WebSocketHandlers.Server.SendRefusal` | internal/websocket.go:566-583 | a refused subscribe sends two subscription errors and returns access denied or generic reconnect |
| `WebSocketHandlers.Server.HandlePresenceSubscription` | internal/websocket.go:451-476 | without a user id an error and nothing else; otherwise presence data, announcement, roster including the joiner, cached event |
| `WebSocketHandlers.Server.HandleMemberAdded` | internal/websocket.go:412-444 | a user that is a member already is not announced again; otherwise webhook and message to everybody else, and the roster gains it |
| `WebSocketHandlers.Server.SendCacheIfNeeded` | internal/websocket.go:770-787 | a cache channel replays what the cache holds now under the key of this channel of this app, or sends and reports a cache miss; other channels do nothing |
| `WebSocketHandlers.Server.Leave` | internal/channels.go:233-255 | the socket leaves the list, the remaining count is the number of distinct registered sockets, the member is the stored presence data |
| `WebSocketHandlers.Server.UnsubscribeFromChannel` | internal/websocket.go:911-957 | new state is that of the leave specification, including the early return when there is no presence data |
| `WebSocketHandlers.Server.AnnounceRemoval` | internal/websocket.go:919-945 | the user is announced as gone exactly when no other socket carries it |
| `WebSocketHandlers.Server.HandleUnsubscribe` | internal/websocket.go:629-654 | an unsubscribed channel is an invalid payload; otherwise the leave specification |
| `WebSocketHandlers.Server.UnsubscribeFromAllChannels` | internal/websocket.go:890-905 | visits each subscribed channel exactly once, in the order it returns |
| `WebSocketHandlers.Server.CloseConnection` | internal/websocket.go:271-308 | leave all channels, remove the socket, remove the user, forget the socket state |
| `WebSocketHandlers.Server.HandleSignin` | internal/websocket.go:661-707 | missing id, bad token (which closes the socket), or identity, user list entry, confirmation |
| `WebSocketHandlers.Server.Connect` | internal/adaptersLocal.go:115-133 | a new socket is filed once under its id; a taken id changes nothing |
| `WebSocketHandlers.Server.Send` | internal/adaptersLocal.go:171-203 | a user channel reaches the live sockets of the user in list order and ignores the exclusion; any other channel reaches each distinct registered subscriber once, without the excluded socket |
| `WebSocketHandlers.Server.OnSubscribe` | internal/websocket.go:185-193 | a subscribe frame performs one step of the machine, with the error event for a failed request, and keeps the lists well formed; in plain terms: the socket is sent exactly the messages of the first failing check and nothing else changes, or it is appended to the list of the channel |
| `WebSocketHandlers.Server.OnUnsubscribe` | internal/websocket.go:185-193 | the same for an unsubscribe frame |
| `WebSocketHandlers.Server.OnSignin` | internal/websocket.go:185-193 | the same for a sign-in frame, for the order in which a closing socket left its channels |
| `NamespaceClass.FilterOut` | internal/namespace.go:173-190 | the filter loop returns the list without one id |
| `Membership.Without` | internal/namespace.go:173-190 | removing an id from a list keeps exactly the other ids and never lengthens it |
| `Membership.WithoutKeepsNoRepeats` | internal/namespace.go:399-425 | a list without repeats stays so |
| `NamespaceClass.Namespace.AddSocket` | internal/namespace.go:148-156 | files a socket under its id unless the id is taken |
| `NamespaceClass.Namespace.RemoveSocket` | internal/namespace.go:162-221 | drops the socket, its entry in its own user list and its id from every channel, deleting lists that become empty |
| `NamespaceClass.Namespace.AddToChannel` | internal/namespace.go:227-235 | appends the id and returns the new list length |
| `NamespaceClass.Namespace.RemoveFromChannel` | internal/namespace.go:241-284 | drops the id from each listed channel, deletes empty lists, and returns the remaining length for a single channel and zero for several |
| `NamespaceClass.Namespace.GetChannelSockets` | internal/namespace.go:290-308 | the registered sockets of the list, each once |
| `NamespaceClass.Namespace.GetChannelMembers` | internal/namespace.go:314-329 | keys are exactly the user ids of the presence data of the registered sockets, values the data of some such socket |
| `NamespaceClass.Namespace.IsInChannel` | internal/namespace.go:334-346 | true exactly for listed ids |
| `NamespaceClass.Namespace.AddUser` | internal/namespace.go:377-393 | lists a socket under its user id once, and never under the empty id |
| `NamespaceClass.Namespace.RemoveUser` | internal/namespace.go:399-425 | drops a socket from its user list and the list when it becomes empty |
| `NamespaceClass.Namespace.GetUserSockets` | internal/namespace.go:431-451 | the live sockets of a user, in list order |
| `NamespaceClass.Namespace.GetChannelsWithSocketsCount` | internal/namespace.go:46-54 | list lengths, repeats included |
| `NamespaceClass.Namespace.GetPresenceChannelsWithUsersCount` | internal/namespace.go:60-72 | the presence channels with their numbers of distinct members |
| `NamespaceClass.Namespace.CompactMaps` | internal/namespace.go:79-142 | rebuilds Channels and Users with exactly their non-empty lists |
| `Names.CacheFlagsAgree` | internal/channels.go:60-105 | the subscriber side (IsCache) and the publisher side (IsCacheChannel) agree on every name, and so do the channel type and the presence prefix test |
| `Names.KindByPrefix` | internal/channels.go:60-105 | type, signature, cache and encryption flags of a channel, each said by the prefixes of its name |
| `Names.ValidNamesAre` | internal/util/utils.go:58-76 | a name is valid exactly if it is not longer than the limit and, after an optional #server-to-user- prefix, a non-empty text over letters, digits and seven signs |
| `Names.ValidNameHasNoColon` | internal/util/utils.go:58-76 | a name that passes validation has no colon |
| `Names.CacheKeyInjective` | internal/cache/cache.go:23-25 | cache keys determine app and channel for channel names without #, whatever the app ids are |
| `Names.CacheNameHasNoHash` | internal/util/utils.go:47-76 | a cache channel name that passes validation has no # |
| `Names.FlapKeyInjective` | internal/queues/queueAbstract.go:70-82 | channel keys and member keys are jointly injective for app ids and channel names without a colon, whatever the user ids contain |
| `Flap.ConservationByKind` | internal/queues/flapDetector.go:60-88 | on arbitrary input and for each event type, events accepted for a key equal events dispatched plus live timers of that type plus the cancelled pairs |
| `Flap.Conservation` | internal/queues/flapDetector.go:60-88 | both types together: accepted equals dispatched plus live timers plus twice the cancelled pairs |
| `Flap.AlwaysBacked` | internal/queues/flapDetector.go:60-88 | a pending entry always points to a live timer of the same key and type, even after entries were overwritten or deleted by an older timer |
| `Flap.Projects` | internal/queues/flapDetector.go:60-88 | an interleaved run restricted to one key is the run of that key alone |
| `Flap.OnKeyIsUniform` | internal/queues/flapDetector.go:60-88 | the projection holds only steps of its key |
| `FlapBursts.DetectorScans` | internal/queues/flapDetector.go:55-88 | for a key whose events toggle, and any delays of any timers, the dispatched events are exactly those kept by a scan with one slot that an arrival fills or empties and a firing emits, and what waits is what is in the slot |
| `FlapBursts.OutputAlternates` | internal/queues/flapDetector.go:55-88 | for an alternating input and any timer delays, the dispatched events alternate, and once no timer of the key is live the last one tells the truth |
| `FlapBursts.OutputBalances` | internal/queues/flapDetector.go:55-88 | on arbitrary input, once no timer of the key is live, connects minus disconnects is the same for what was dispatched as for what arrived |
| `FlapBursts.OneKindNeverCancels` | internal/queues/flapDetector.go:55-88 | if only one type ever arrives for a key nothing is cancelled, and once no timer of the key is live as many events were dispatched as arrived |
| `FlapBursts.DispatchesOddBurstEnds` | internal/queues/flapDetector.go:55-88 | for toggling events and timers of this key that are prompt, whatever the timers of other keys do, the dispatched events plus the waiting one are exactly the last events of the bursts of odd length |
| `FlapDetectorClass.FlapDetector.constructor` | internal/queues/flapDetector.go:34-44 | starts empty, with a window of three seconds when none is configured |
| `FlapDetectorClass.FlapDetector.CheckForFlapping` | internal/queues/flapDetector.go:46-89 | with detection off dispatches at once; with it on performs one arrival step of the detector |
| `FlapDetectorClass.FlapDetector.TimerCallback` | internal/queues/flapDetector.go:73-82 | dispatches the event and forgets what waits under its key |
| `Webhooks.OccupancyEndToEnd` | internal/queues/queueAbstract.go:55-98 | in every single-node history of any number of apps, for a channel of an app with both occupancy webhooks on: unless a request misinformed about this very channel the webhooks that get past the detector strictly alternate, and whenever no timer of the channel is live they alternate and the last one says whether it has subscribers if and only if no request did |
| `Webhooks.MembersEndToEnd` | internal/queues/queueAbstract.go:55-98 | the same for member_added and member_removed of one user in one channel, with both member webhooks on; only abandoning that user in that channel spoils it |
| `Webhooks.TopicEndToEnd` | internal/queues/queueAbstract.go:55-98 | the general form of both, with the exact damage: what was dispatched has one "on" too many for each request that misinformed about the topic |
| `Webhooks.HistoryDelivers` | internal/queues/queueAbstract.go:55-98 | in every history, whatever clients and timers do, the detector has received under the key of a channel or user exactly the events emitted about it whose switch is on, in order |
| `Webhooks.HistoryTells` | internal/websocket.go:608-612 | in every history, the events emitted about a topic have one "on" too many for each request that misinformed about it, and are truthful if and only if there was none |
| `Webhooks.OfferDelivers` | internal/queues/queueAbstract.go:66-98 | of new events, the detector receives under the key of a topic exactly those about that topic whose switch is on, in order |
| `Webhooks.StepExtends` | internal/websocket.go:536-565 | requests only add events, and events only concern validated channel names |
| `WebhookGates.GatesRespected` | internal/queues/queueAbstract.go:188-236 | in every history whatsoever, a dispatched webhook belongs to an app that has webhooks on and the switch of the very event on, with the type that the event calls for |
| `WebhookGates.OneSwitch` | internal/queues/queueAbstract.go:214-236 | in every history, if one of the two switches of a topic is on, the detector cancels nothing for it, and once no timer of the topic is live the webhooks are as many as the events of that type emitted, so they alternate if and only if at most one "on" event, or no "off" event, was emitted |
| `WebhookGates.TopicScanned` | internal/queues/flapDetector.go:55-88 | with both switches on and no request that misinformed about the topic, whatever the timer delays, the webhooks of a channel or user are exactly those kept by the one-slot scan |
| `WebhookGates.TopicPrompt` | internal/queues/flapDetector.go:55-88 | if moreover the timers of the topic are prompt, they are exactly the last changes of its bursts of odd length |
| `AbstractQueueClass.AbstractQueue.Send` | internal/queues/queueAbstract.go:55-98 | gates, event type, key and route: the four presence and occupancy events take one arrival step at the detector, everything else, and everything with detection off, goes straight to the queue |
| `AbstractQueueClass.AbstractQueue.SendChannelOccupied` | internal/queues/queueAbstract.go:225-236 | nothing happens unless a sender is present, webhooks are on for the app and its channel_occupied switch is on; then with detection on the detector takes one arrival under the channel key, else its jobs are enqueued |
| `AbstractQueueClass.AbstractQueue.SendChannelVacated` | internal/queues/queueAbstract.go:214-223 | likewise for channel_vacated and its switch |
| `AbstractQueueClass.AbstractQueue.SendMemberAdded` | internal/queues/queueAbstract.go:188-199 | likewise for member_added and its switch |
| `AbstractQueueClass.AbstractQueue.SendMemberRemoved` | internal/queues/queueAbstract.go:201-212 | likewise for member_removed and its switch |
| `AbstractQueueClass.AbstractQueue.SendCacheMissed` | internal/queues/queueAbstract.go:238-248 | likewise for cache_miss and its switch, which is never delayed |
| `AbstractQueueClass.AbstractQueue.SendClientEvent` | internal/queues/queueAbstract.go:173-186 | likewise for client events and their switch, which take the direct route |
| `AbstractQueueClass.AbstractQueue.PrepareQueuedMessages` | internal/queues/queueAbstract.go:106-125 | enqueues, in order, one job per configured webhook whose prefix begins the channel and whose suffix ends it, and no other |
| `AbstractQueueClass.EachMatchingWebhookOnce` | internal/queues/queueAbstract.go:106-125 | an event becomes exactly as many jobs for a webhook as the webhook is configured if the channel is the prefix followed by something and something followed by the suffix, and otherwise none |
| `AbstractQueueClass.JobIffAccepted` | internal/queues/queueAbstract.go:106-125 | a job is enqueued for exactly those configured webhooks whose two filters begin and end the channel name |
| `AbstractQueueClass.AbstractQueue.TimerFires` | internal/queues/flapDetector.go:73-82 | a firing timer is one firing step and enqueues the jobs of its event; the queue always holds the jobs of the events handed on, which with detection on are those the detector dispatched, in order |
| `AbstractQueueClass.KeysAsFormatted` | internal/queues/queueAbstract.go:70-82 | the two key formats are the ones proved injective |
| `AbstractQueueClass.ColonsCollide` | internal/queues/queueAbstract.go:70-82 | for any app, channels and users: with a colon in an app id the member keys of two different topics coincide |
| `Gather.GatherExactness` | internal/adaptersHorizontal.go:683-887 | a gather that ends without timeout has merged exactly numSub parts: the one the requester started with, as passed to the issuing step together with kind and numSub, and the answers given by the others, with numSub nodes every node exactly once; its response is their exact sum, pointwise sum or keyed union; on timeout the same over those who answered, fewer than numSub |
| `Gather.GatherByKind` | internal/adaptersHorizontal.go:800-870 | what a finished gather returns, kind by kind: for each of the three counts the sum of the merged parts, for each of the two count maps their sum channel by channel over the channels of any part, for sockets and members the keys of any part, each with a value some part has |
| `Gather.RecordsAreSteps` | internal/adaptersHorizontal.go:683-724 | what is recorded as issued and as answered was an issuing step and an answering step of the run |
| `Gather.SelfAnswersNeverMerged` | internal/adaptersHorizontal.go:510-517 | in every interleaving, a node ignores its own request while registered, and finds nothing to merge its own late reply into |
| `Gather.NeverOvershoots` | internal/adaptersHorizontal.go:875-883 | while a request is registered fewer than numSub - 1 answers came in, and each further one completes it or brings it strictly closer |
| `Gather.NeverStuck` | internal/adaptersHorizontal.go:500-761 | in every interleaving, as long as a request for no more subscribers than there are nodes is registered and nothing it waits for was lost, there is a node whose answer is missing and the request to it, which it will answer, or its answer is on its way and can be delivered |
| `Gather.RunKeeps` | internal/adaptersHorizontal.go:500-761 | every interleaving of issues, deliveries, losses and timeouts keeps the protocol invariant |
| `Merge.CombinesMore` | internal/adaptersHorizontal.go:800-870 | merging the answer of one more node keeps the response the exact combination of the answers merged |
| `Merge.CombinesIsUnique` | internal/adaptersHorizontal.go:800-870 | the combination determines the count, the count map, or the key set |
| `Merge.FoldIgnoresOrder` | internal/adaptersHorizontal.go:800-870 | folding the same answers in any order gives the same count, the same count map and the same keys |
| `HorizontalAdapterClass.MergeAnswer` | internal/adaptersHorizontal.go:800-874 | the switch over the seven request types, with its loops: the three counts add up, the two count maps add up channel by channel over the channels of both, members and sockets are put together |
| `HorizontalAdapterClass.MergeCounts` | internal/adaptersHorizontal.go:820-829 | the loop over a count map adds pointwise |
| `HorizontalAdapterClass.WaitForResponse` | internal/adaptersHorizontal.go:763-887 | the loop takes exactly numSub - 1 answers, or all before the first timeout, and returns their fold; it terminates |
| `HorizontalAdapterClass.LoopRefinesProtocol` | internal/adaptersHorizontal.go:763-887 | the loop and the protocol steps end after the same number of answers with the same response |
| `HorizontalAdapterClass.HorizontalAdapter.SendRequest` | internal/adaptersHorizontal.go:683-724 | registers the request with the own part already in |
| `HorizontalAdapterClass.HorizontalAdapter.OnRequest` | internal/adaptersHorizontal.go:500-519 | a request registered here is not answered, any other is |
| `HorizontalAdapterClass.HorizontalAdapter.OnResponse` | internal/adaptersHorizontal.go:654-680 | one receive step of the protocol; an unknown id is dropped |
| `HorizontalAdapterClass.HorizontalAdapter.OnTimeout` | internal/adaptersHorizontal.go:788-795 | the request ends with what was merged so far |
| `HorizontalAdapterClass.HorizontalAdapter.Get` | internal/adaptersHorizontal.go:402-434 | local part alone when asked for, when the node count is unknown or at most one; otherwise the fold a gather returns |
| `Broadcast.ExactlyOnce` | internal/adaptersHorizontal.go:148-171 | in every interleaving with membership changing meanwhile, a socket was sent the text of a message as often as it stood in the audience of its node when the node processed the message, except the excluded socket on the sending node, and never any other text on account of it; the audience is the subscribers, or on a user channel the entries of the user list, each as often as listed; messages with an empty app, channel or payload stay on the sending node |
| `Broadcast.ArrivesUnlessLost` | internal/adaptersHorizontal.go:148-171 | in every interleaving, a message whose copy for a node was not lost in transit has been processed by that node or is on its way and can be received |
| `Broadcast.ReceivedIsWritten` | internal/adaptersRedis.go:94-115 | after a node other than the sender received a message that is forwarded, exactly its audience at that moment has been written the text |
| `Broadcast.ReachedAre` | internal/adaptersLocal.go:171-203 | whom a local send reaches: registered sockets only; on a user channel as often as the user list has them, whoever is excluded; on any other channel each subscriber once but the excluded one |
| `Broadcast.NeverTwice` | internal/adaptersLocal.go:171-203 | with repeat-free user lists, which NamespaceLists.RunKeepsLists gives, no socket has a message twice, on user channels as on others |
| `Broadcast.GatherTrafficDeliversNothing` | internal/adaptersRedis.go:94-115 | requests and responses seen by the pattern subscription reach no socket |
| `Broadcast.DirectChannelsDiffer` | internal/adaptersRedis.go:54-60 | the request and response channels are told apart by prefix, and both match the broadcast pattern |
| `RedisAdapterClass.RedisAdapter.constructor` | internal/adaptersRedis.go:50-63 | channel names from prefix and name |
| `RedisAdapterClass.RedisAdapter.Send` | internal/adaptersHorizontal.go:148-171 | publishes the message once and delivers it to this node |
| `RedisAdapterClass.RedisAdapter.SendReaches` | internal/adaptersLocal.go:171-203 | local delivery writes to each socket as many copies as the cluster model says reach it, on user channels too, and does nothing else |
| `RedisAdapterClass.RedisAdapter.OnMessage` | internal/adaptersRedis.go:94-115 | foreign channels, unparsable payloads, gather traffic, own messages and messages with an empty app, channel or payload change nothing; any other message is written to the sockets of its channel, if its app is here, with the very text that was published and no exclusion, in as many copies as the cluster model says |
| `RedisAdapterClass.RedisAdapter.ProcessMessage` | internal/adaptersRedis.go:74-90 | whatever the channel and whether or not the payload parses: on a channel that starts with the response channel one receive step, on one that starts with the request channel an answer on the response channel unless registered here, otherwise nothing |
| `RedisAdapterClass.RedisAdapter.ReadsByChannel` | internal/adaptersRedis.go:54-60 | a request is never read as a response, and both direct channels match the broadcast pattern |
| `Cache.CleanupInvisible` | internal/cache/localCache.go:34-53 | with a monotone clock, cleanup passes at any moments change no later lookup |
| `Cache.ReadBack` | internal/cache/localCache.go:55-123 | what a lookup finds at any moment after each operation, expiry in seconds included |
| `Cache.ReplaysLatest` | internal/apiEvents.go:62-81 | for validated channel names and any app ids, a lookup for a cache channel finds exactly the latest event published on that channel of that app if it is less than half an hour old, whatever else was published and whenever cleanup ran |
| `ApiEventsClass.SubscriberGetsLatest` | internal/websocket.go:770-787 | an admitted subscriber to a cache channel is sent, right after the confirmation, that event or else a cache miss that is also reported; unless it is a presence subscribe without a user id, which is sent nothing and ends in an invalid payload |
| `ApiEventsClass.ApiServer.BroadcastMessage` | internal/apiEvents.go:62-81 | one cluster send and one local delivery per channel in order, and the cache is what the publications so far make of it |
| `ApiEventsClass.ApiServer.OnCacheSubscribe` | internal/websocket.go:770-787 | the same through the classes, for the cache that the validated publications filled; without a user id only the error event |
| `ApiEventsClass.ApiServer.EventTrigger` | internal/apiEvents.go:83-139 | a message that fails a check publishes, delivers and caches nothing; any other goes to each of its channels once, and only validated names are ever published |
| `ApiEventsClass.CheckMessage` | internal/apiEvents.go:25-60 | a single channel stands in for a missing list; each of the four rejections is reported exactly when its check is the first to fail, in the order names, number of channels, event name, payload |
| `LocalCacheClass.LocalCache.ExistsAndNotExpired` | internal/cache/localCache.go:55-64 | true exactly before the expiry instant |
| `LocalCacheClass.LocalCache.Get` | internal/cache/localCache.go:66-71 | the live value or the empty string |
| `LocalCacheClass.LocalCache.Set` | internal/cache/localCache.go:73-79 | replaces value and expiry: never expires |
| `LocalCacheClass.LocalCache.SetEx` | internal/cache/localCache.go:81-89 | replaces value and expiry |
| `LocalCacheClass.LocalCache.Delete` | internal/cache/localCache.go:91-97 | removes the key and nothing else |
| `LocalCacheClass.LocalCache.Remember` | internal/cache/localCache.go:99-109 | a live value is returned unchanged; otherwise the computed one is stored with its lifetime in seconds, and an error stores nothing |
| `LocalCacheClass.LocalCache.Update` | internal/cache/localCache.go:119-123 | replaces a live value and drops its expiry; a missing or expired key stays as it is |
| `LocalCacheClass.LocalCache.CleanupPass` | internal/cache/localCache.go:41-51 | deletes exactly the items whose expiry lies strictly in the past |
| `RedisQueue.NothingIsLost` | internal/queues/queueRedis.go:72-163 | over any interleaving of producers and workers, dying ones included: enqueued events equal queue plus working list plus removed, the working list is exactly what workers hold or held when they died even with identical payloads, and well-formed events were sent exactly as often as removed or about to be removed, malformed ones never |
| `RedisQueue.DrainedMeansSent` | internal/queues/queueRedis.go:72-163 | no event is sent more often than it was enqueued, and once both lists are empty each well-formed one was sent exactly as often; events are taken in the order they were pushed |
| `RedisQueue.OneWorkerDrains` | internal/queues/queueRedis.go:89-163 | from every reachable state, whatever the other workers did or left when they died, one living worker alone can empty the queue, and has then sent each well-formed event that was queued or in its hands exactly once more |
| `WebhookDelivery.EveryDispatchIsPosted` | internal/queues/queueRedis.go:72-163 | once drained, an event was posted to a webhook exactly as often as the queue manager handed it on, times the number of matching configured webhooks, and otherwise never |
| `WebhookDelivery.PostsTellTheTruth` | internal/queues/queueAbstract.go:55-125 | the whole way, from client requests through gates, detector, job preparation and work queue: with both switches of a topic on, none of its timers live and the queue drained, each endpoint whose filters accept the channel has been posted "on" once more than "off" if the channel is occupied (the user is a member), and once more for each request that misinformed about that topic, per configured webhook |
| `WebhookDelivery.ClusterPostsTellTheTruth` | internal/queues/queueRedis.go:72-163 | the whole way on several nodes: every node has a gate and a detector of its own, all push to one work queue, any number of workers drain it; whenever no timer of a topic is live anywhere, each endpoint whose filters accept the channel has been posted "on" more often than "off" exactly once if the channel has a subscriber, or the user a socket, anywhere in the cluster, and once more for each request that misinformed about this very topic, per configured webhook |
| `ClusterWebhooks.ClusterEndToEnd` | internal/queues/flapDetector.go:55-88 | in every history of any number of nodes and apps with both switches of a topic on, whenever no timer of the topic is live anywhere, what all detectors together dispatched about it has one "on" more than "off" if it is on anywhere in the cluster, and one more for each request that misinformed about it |
| `ClusterWebhooks.FleetDelivers` | internal/queues/queueAbstract.go:55-98 | each node's detector receives under a topic's key exactly what its node emitted about the topic and its switches let through, in order |
| `ClusterWebhooks.FleetTells` | internal/websocket.go:911-957 | what all nodes emitted about a topic has one "on" more than "off" if it is on in the cluster, and one more for each request that misinformed about it |
| `RedisQueue.LRemRemovesOne` | internal/queues/queueRedis.go:155-163 | removal takes one occurrence and keeps all others |
| `RedisQueueClass.RedisLists.AddToQueue` | internal/queues/queueRedis.go:72-87 | pushes at the head |
| `RedisQueueClass.RedisLists.PopPush` | internal/queues/queueRedis.go:89-116 | moves the oldest event from the queue to the working list |
| `RedisQueueClass.RedisLists.RemoveEventFromQueue` | internal/queues/queueRedis.go:155-163 | removes one occurrence from the working list |
| `RedisQueueClass.RedisLists.ProcessEvent` | internal/queues/queueRedis.go:118-153 | a well-formed event is sent and then removed once from the working list; a malformed one is removed unsent |

## Left out

- ClusterView.ClusterRunBelieves: requests are serialised and every gather completes and every send arrives; the roster message is the set of its user ids, and the user_info shown for a user with several sockets is not tracked.
- Webhooks.TopicEndToEnd: that the dispatched events alternate is said of one node, because every node has a flap detector of its own and the events of one topic that different nodes emit do not meet; ClusterWebhooks.ClusterEndToEnd counts what they dispatch together.
- WebhookDelivery.PostsTellTheTruth: several workers may post in another order than the events were dispatched, so it counts posts.
- ClusterEvents.ClusterRunTells: requests are serialised and every gather completes; two requests racing on different nodes can both find a user absent, or both find it present.
- Gather.GatherExactness: the three counts, the two count maps, channel sockets and channel members; the requester's parts are values, so CHANNELS (writes a nil map on the responder), SOCKETS (merges into the live socket map) and TERMINATE_USER_CONNECTIONS (broadcasts again on the responder) are not modelled.
- Capacity.ClusterCapacityHolds: joins are serialised and every gather completes; two joins racing on different nodes, or a timed-out count, can exceed the limit.
- WebSocketHandlers.Server.CloseConnection: the error frame written to the connection that is being closed (nothing of that socket remains to observe it), the sleeps, and a second close of a socket that is already closed.
- ApiEventsClass.ApiServer.EventTrigger: one message; the batch endpoint does the same for each message in turn and stops at the first that fails a check.
- SOCKET_EXISTS_IN_CHANNEL gathers, whose result leaves out the requester's own answer.
- Client messages (handleClientEvent) and their validation: a guard chain in front of the send that is modelled.
- TerminateUserConnections, and the goroutine that closes sockets that did not authenticate in time.
- The local adapter's map from apps to namespaces is one namespace per class instance; several apps appear in the webhook and broadcast models.
- Go mutexes and the races between a handler and the handler of another socket.
- Redis errors, reconnection, and re-queueing of events left in the working list by a dead worker, which the program does not do.
- JSON, HMAC, HTTP routing, metrics, logging, configuration, app managers, webhook senders.
