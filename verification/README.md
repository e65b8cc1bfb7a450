# Verified models of the subscription machinery

A Dafny model of the publish/subscribe state machines on both ends of the wire, and of the topic
language between them. `dafny verify dfyconfig.toml` checks all of it.

**Client.** `GroupedSubs` is the value of the grouped keeper: which topic map is stored under each
topic, and what every topic map ever created holds. The maps have identities, because payloads go on
referring to maps that were removed. `GroupedSubKeeper` is the keeper as an object over shared maps;
each method runs under the lock and is one step. `Resubscription` interleaves user calls, the
reconnect pass, losses and a FIFO server (`ServerPeer`) step by step; `Forgetting` says exactly when
the server holds only what the keeper knows; `FullPass` is what an uninterrupted pass achieves, and
`WakeUps` when a pass leaves work that nobody is woken for. `ScheduledPass` is one pass as a function
of its schedule, proved to be a path of protocol steps, and `ReconnectingClient` is the pass itself as
an object whose loop computes that function. `SoloSubs`, `SoloSubKeeper`, `SoloResubscription`,
`SoloForgetting` and `SoloFullPass` do the same for the keeper with one shared subscription per topic.
`Shards` and `ShardedStore`, `SoloShards` and `SoloShardedStore` are the sharded stores, proved to
refine one keeper.

**Server.** `TopicPattern` is routing: patterns, matching, formatting, the search over a map in any
order. `TopicSubs` is one topic as a value with the log of its events, and its runs; `ServerTopic` is
the object with its loops, and publishing. `ServerRouting` joins routing with the topics.
`ServerLifecycle` interleaves readers, writers, closings, drops and binds.

**Both.** `TopicText` is the topic language, its parser and its printer. `PeriodicExec` is the executor
that drives the passes, as a timed machine.

How state is modelled:

- A map iteration is a loop that picks any remaining key, so every result holds for every order.
- A goroutine per item runs in any order. Events are appended to a log where their functions are
  started; the order in which the functions run is not promised.
- A context is the identity of its connection and the parameters added to it.
- The server peer answers truthfully and in order, keeps one set per connection, and accepts or
  refuses each message as a whole.
- In the executor a select with a ready case takes no time, and the executed function does not delay
  the loop.
- Hashes are non-negative. Counters, hashes and times are unbounded.

Where the code departs from its documentation or its evident intent, the model follows the code:

- A confirmation through an emptied topic map deletes whatever map is stored under the topic by then
  (`wsclient/wsreconn/grouped_sub_keeper.go:352-354`); see
  `LateConfirmationDropsSubscription`, and `CountsAreTallies` for the exact condition.
- An unconfirmed key is forgotten without a message even if the server holds it
  (`wsclient/wsreconn/grouped_sub_keeper.go:233-238`); see `ForgottenKeyStaysServed`, and
  `ServedIsKeptExactly` for the exact condition.
- An inverted confirmation on a sharded store skips the keepers that own no listed key
  (`wsclient/wsshards/grouped_sub_keeper_store.go:91-95`); see
  `InvertedConfirmationMisses`, and `StoreRefinesKeeper` for the exact condition.
- A solo subscription is ignored while an unsubscription is pending
  (`wsclient/wsreconn/solo_sub_keeper.go:107-111`); see `SubscribeTakesEffect`.
- A stale solo response deletes by topic (`wsclient/wsreconn/solo_sub_keeper.go:224-225`); see
  `StaleConfirmationDropsSubscription`, and `FlagsAreFollowed` for the exact condition of this and the
  previous point.
- A removal fires the unsub functions even when the parameters were not held
  (`wsserver/topic.go:340-363`); see `EventsAreConserved`.
- The expression lets a text end in `~` or `@`, so the length said to be ensured is not for `~`
  (`wsutil/wsutil.go:103-105`); see `ParseOutcome` and `PrintOfParse`.
- A connection closed by another caller may be subscribed once more by a request its reader already
  holds (`wsserver/server.go:149-158`); see `ClosedMaySubscribe`, `ShutAddsAtMostOnce`, and
  `MayComeBackExactly` for the exact condition.
- Subscribing a key whose unsubscription is pending wakes nobody, so its subscription may wait for the
  next periodic pass (`wsclient/wsreconn/grouped_sub_keeper.go:187-193`); see `PendingIsNotWokenFor`,
  and `WorkWithoutWakeUp` for the exact condition.
- With overlapping patterns an unsubscription may reach another topic than its subscription did
  (`wsserver/topic.go:142-168`); see `UnsubscriptionUndoesExactly`.

## Model

| member | source | states |
|---|---|---|
| Resubscription.ConfirmedIsServed | wsclient/wsreconn/client.go:132-186 | in every interleaving of user calls, losses, lost or ignored responses and serialized passes, while the connection is open every key that is confirmed with a positive count is in the server's set of that connection |
| Resubscription.RunKeepsInv | wsclient/wsreconn/client.go:132-212 | the invariant of all reachable worlds: captured topic maps, frozen key lists, safety of every live key against messages still under way, nothing live before a reconnect |
| Resubscription.NextKeepsInv | wsclient/wsreconn/client.go:132-212 | each single step of user, environment and pass keeps that invariant |
| Resubscription.RespondKeepsInv | wsclient/wsreconn/grouped_sub_keeper.go:382-401 | a late confirmation keeps it, whatever calls came between the message and its response |
| Resubscription.TakePayloadsKeepsInv | wsclient/wsreconn/grouped_sub_keeper.go:54-98 | so does taking a batch: the batch of one topic shares the map and lists no key twice |
| Resubscription.CapturedMapsAreStoredOrEmpty | wsclient/wsreconn/grouped_sub_keeper.go:76-93 | in every run each captured topic map is the one stored for its topic or is empty, and once it is not stored no step stores or fills it again |
| Resubscription.StepCounts | wsclient/wsreconn/grouped_sub_keeper.go:173-263 | one step moves every stored count as a plain counter moves, for all keys if and only if the step is not a confirmation through a removed map of a topic that has subscriptions again |
| Resubscription.CountsAreTallies | wsclient/wsreconn/grouped_sub_keeper.go:173-282 | over whole runs the stored counts equal the counters (+1, max(0, n-1), 0) throughout if and only if every confirmation was of that harmless kind |
| Resubscription.ConnectionExactly | wsclient/wsreconn/client.go:132-212 | in every run the connection is open exactly when it was made and not lost since, and its messages and verdicts are those since it was made |
| FullPass.BatchSubscribesWantedOnce | wsclient/wsreconn/grouped_sub_keeper.go:54-124 | after a reset the messages of a batch are subscriptions only, and each wanted key is in exactly one of them |
| FullPass.AfterReconnectDelivered | wsclient/wsreconn/client.go:160-186 | a pass that reopens a lost connection and has every payload accepted and confirmed puts on the new connection exactly the batch's messages in order, all accepted and confirmed |
| FullPass.ReconnectPass | wsclient/wsreconn/client.go:145-186 | such a pass, from any reachable state, subscribes each wanted key in exactly one message, sends no unsubscription, keeps all counts, leaves nothing to send, and leaves the server with exactly the wanted keys |
| FullPass.OpenPass | wsclient/wsreconn/client.go:145-186 | on an open connection an uninterrupted and accepted pass over a batch of both directions sends one message for each payload in order, keeps all counts, leaves nothing to send, and leaves the server with exactly the keys of positive count and what it already held without the keeper's knowledge |
| FullPass.OpenPassIsExact | wsclient/wsreconn/client.go:145-186 | the server then holds exactly the keys of positive count if and only if it held only what the keeper knew |
| FullPass.CaughtUpKeepsInv | wsclient/wsreconn/client.go:202-207 | when the server handles messages of timed-out requests, in whatever way, the invariant stays |
| FullPass.SettleNext | wsclient/wsreconn/grouped_sub_keeper.go:382-401 | each of its deliveries settles exactly the keys of its payload, in the keeper and on the server |
| Forgetting.UnsubscribeForgetsExactly | wsclient/wsreconn/grouped_sub_keeper.go:227-241 | an unsubscription drops a key without a message if and only if the key is unconfirmed and its positive count is at most its occurrences in the call |
| Forgetting.CallDropsExactly | wsclient/wsreconn/grouped_sub_keeper.go:227-282 | a call drops an entry if and only if the guard of the deleting branch holds before the call: an unsubscription of an unconfirmed key with a positive count of at most its occurrences, or clearing an unconfirmed key of count one |
| Forgetting.StepKeepsServed | wsclient/wsreconn/grouped_sub_keeper.go:227-282 | one step keeps "the server of an open connection holds only keys with an entry" if and only if none of four guards on the world before the step holds: a call drops a served key, the server accepts a subscription of a dropped key, or a response confirms through a removed map while the server holds a key of its topic |
| Forgetting.ServedIsKeptExactly | wsclient/wsreconn/grouped_sub_keeper.go:227-282 | over whole runs: the property holds throughout if and only if no step broke it |
| Forgetting.NextKeepsTidy | wsclient/wsreconn/grouped_sub_keeper.go:227-282 | a step keeps the stronger "what the server may hold, or the pass has still to deliver, has an entry" if and only if it is not a call whose guard drops such a key |
| Forgetting.TidyIffNothingForgotten | wsclient/wsreconn/grouped_sub_keeper.go:227-282 | over whole runs: that stronger property holds throughout if and only if no call dropped such a key; then every confirmation is harmless |
| Forgetting.ServedIsKept | wsclient/wsreconn/grouped_sub_keeper.go:227-282 | a caller's sufficient condition: when no call dropped such a key, the server of an open connection holds only keys with an entry, and all counts are the plain counters |
| Forgetting.ForgottenKeyStaysServed | wsclient/wsreconn/grouped_sub_keeper.go:233-238 | a concrete run after which the server holds a key the keeper has forgotten and has nothing to send about |
| Forgetting.LateConfirmationDropsSubscription | wsclient/wsreconn/grouped_sub_keeper.go:352-354 | a concrete run in which a confirmation through an old, empty map deletes the new map of the topic, so a subscription the caller holds is lost |
| ScheduledPass.PassIsPath | wsclient/wsreconn/client.go:132-186 | a pass under any schedule of replies, losses and calls is a path of protocol steps, with the reset before the reopening and the payloads in order |
| ScheduledPass.PathIsRun | wsclient/wsreconn/client.go:132-186 | a path from a reachable world continues its run |
| ScheduledPass.PassIsRun | wsclient/wsreconn/client.go:132-186 | so every pass from a reachable world ends in a reachable one, and every lemma about runs holds after it |
| ScheduledPass.UninterruptedReconnect | wsclient/wsreconn/client.go:145-186 | under the uninterrupted schedule a pass on a lost connection ends exactly where the full reconnect pass does |
| ScheduledPass.UninterruptedOpenPass | wsclient/wsreconn/client.go:160-186 | and a pass on an open connection exactly where the full open pass does |
| ScheduledPass.LateOpenPass | wsclient/wsreconn/client.go:188-212 | a pass that starts while messages of timed-out requests are still under way ends as if the server had handled them, in whatever way, before the pass |
| ScheduledPass.EventsAreSteps | wsclient/wsreconn/client.go:132-212 | what others do during a pass are the protocol's steps, one after the other |
| ScheduledPass.OpenedExactly | wsclient/wsreconn/client.go:145-158 | the pass goes on exactly when the connection was open or could be reopened; a reopened one has no history, and the keeper was reset before anybody else acted |
| ScheduledPass.TurnEndsExactly | wsclient/wsreconn/client.go:161-186 | a payload ends the pass if and only if it had a message and the connection was found closed, or it is not the last and the pause after it was cancelled; otherwise the next payload follows |
| ScheduledPass.TurnWritesNothing | wsclient/wsreconn/client.go:162-176 | without a message, with a closed connection or a failed write nothing is written or confirmed |
| ScheduledPass.TurnActsExactly | wsclient/wsreconn/client.go:190-212 | otherwise exactly the payload's message is written, and the payload is confirmed if and only if the last message was handled and accepted and the formatter accepts the answer |
| ScheduledPass.CancelledPassStops | wsclient/wsreconn/client.go:179-185 | after a cancelled pause no further message is written |
| ScheduledPass.UncancelledPassGoesOn | wsclient/wsreconn/client.go:179-185 | without one, and with the connection open, the pass goes on with the next payload |
| WakeUps.RevivedWaits | wsclient/wsreconn/grouped_sub_keeper.go:185-203 | subscribing a key whose unsubscription is pending leaves a subscription to send and, for that key alone, runs no change function |
| WakeUps.CallOnTrack | wsclient/wsreconn/grouped_sub_keeper.go:173-282 | what a call that runs no change function can do to a key while a pass is under way |
| WakeUps.RespondOnTrack | wsclient/wsreconn/grouped_sub_keeper.go:323-355 | what a late confirmation does to each key during such a pass |
| WakeUps.WorkWithoutWakeUp | wsclient/wsreconn/client.go:160-186 | after a pass that confirmed its whole batch, with no change function run since it took the payloads, something is left to send if and only if a call of the pass subscribed a key whose unsubscription was pending and no later call dropped the key |
| WakeUps.PendingIsNotWokenFor | wsclient/wsreconn/grouped_sub_keeper.go:187-193 | a concrete reachable pass that ends like that |
| ReconnectingClient.Client.constructor | wsclient/wsreconn/client.go:77-90 | a client starts unconnected, with its keeper as it is |
| ReconnectingClient.Client.Start | wsclient/wsreconn/client.go:95-101 | the first connection is the protocol's first step; when it fails nothing changes |
| ReconnectingClient.Client.Process | wsclient/wsreconn/client.go:132-186 | the method's loop ends in exactly the world the schedule and the batch determine, the batch being one the keeper may hand out then; uninterrupted on a lost connection it ends in the full reconnect pass; a pass that finds another one running does nothing |
| ReconnectingClient.Client.Open | wsclient/wsreconn/client.go:145-158 | the keeper is reset before the connection is opened, and the pass goes on exactly when the connection was open or opens |
| ReconnectingClient.Client.DeliverAll | wsclient/wsreconn/client.go:161-186 | the loop over the frozen batch delivers the payloads in order, each as its plan says, until a closed connection or a cancelled pause |
| ReconnectingClient.Client.Deliver | wsclient/wsreconn/client.go:162-176 | a payload without a message is skipped, a closed connection ends the pass, and nothing else does |
| ReconnectingClient.Client.Request | wsclient/wsreconn/client.go:190-212 | the message is put on the wire, others act, and the wait ends |
| ReconnectingClient.Client.Await | wsclient/wsreconn/client.go:202-211 | the payload is confirmed, through its captured map, exactly when the last message was handled and accepted and the formatter accepts the response |
| GroupedSubs.EachAt | wsclient/wsreconn/grouped_sub_keeper.go:185-199 | a list of keys, with duplicates, acts on every key as often as it lists it, whatever the order |
| GroupedSubs.EachOfListing | wsclient/wsreconn/grouped_sub_keeper.go:265-282 | any listing of a map's keys makes a loop over the list act on the whole map |
| GroupedSubs.EachOfOthers | wsclient/wsreconn/grouped_sub_keeper.go:309-316 | the same for a listing of the keys that a call does not name |
| GroupedSubs.SlotAfterSubscribe | wsclient/wsreconn/grouped_sub_keeper.go:173-204 | a subscription changes only the listed keys of its topic |
| GroupedSubs.SlotAfterUnsubscribe | wsclient/wsreconn/grouped_sub_keeper.go:207-263 | and so does an unsubscription, also when it empties the topic |
| GroupedSubs.SlotAfterOnAll | wsclient/wsreconn/grouped_sub_keeper.go:102-124 | a reset or a clearing acts on every key of every topic |
| GroupedSubs.SlotAfterConfirm | wsclient/wsreconn/grouped_sub_keeper.go:323-355 | a confirmation through the stored map changes only its listed keys; through an empty map that is not stored it makes the whole topic disappear |
| GroupedSubs.TopicsAfterSubscribe | wsclient/wsreconn/grouped_sub_keeper.go:173-182 | a subscription stores its topic, under a new map if and only if it had none |
| GroupedSubs.TopicsAfterUnsubscribe | wsclient/wsreconn/grouped_sub_keeper.go:207-263 | an unsubscription removes its topic if and only if no key is left in it, and replaces no map |
| GroupedSubs.TopicsAfterOnAll | wsclient/wsreconn/grouped_sub_keeper.go:102-124 | a reset or a clearing removes exactly the topics in which no key is left |
| GroupedSubs.ManualConfirmSub | wsclient/wsreconn/grouped_sub_keeper.go:285-295 | a manual confirmation confirms exactly the listed keys of positive count |
| GroupedSubs.ManualConfirmUnsub | wsclient/wsreconn/grouped_sub_keeper.go:300-319 | a manual confirmation forgets exactly the waiting keys of count zero that are listed or, inverted, that are not |
| GroupedSubs.SubscribedSlot | wsclient/wsreconn/grouped_sub_keeper.go:185-199 | n subscriptions of a key add n to its count; it stays confirmed only if it was subscribed and confirmed |
| GroupedSubs.UnsubscribedSlot | wsclient/wsreconn/grouped_sub_keeper.go:227-255 | n unsubscriptions take n off the count, down to zero, and the key stays confirmed only while the count stays positive |
| GroupedSubs.UnconfirmedIsForgotten | wsclient/wsreconn/grouped_sub_keeper.go:233-238 | an unconfirmed key whose count would reach zero is gone instead |
| GroupedSubs.ConfirmKeeps | wsclient/wsreconn/grouped_sub_keeper.go:323-355 | no confirmation, through any map, makes a key confirmed with count zero or stores one map under two topics |
| GroupedSubs.OnAllKeeps | wsclient/wsreconn/grouped_sub_keeper.go:102-124 | the same for resets and clearings |
| GroupedSubs.SubscribeWakesExactly | wsclient/wsreconn/grouped_sub_keeper.go:183-203 | a subscription runs the change functions if and only if an absent or confirmed key became an unconfirmed entry |
| GroupedSubs.UnsubscribeWakesExactly | wsclient/wsreconn/grouped_sub_keeper.go:216-262 | so does an unsubscription: the early return on an emptied topic hides no pending message |
| GroupedSubs.UnsubscribeAllWakesExactly | wsclient/wsreconn/grouped_sub_keeper.go:266-281 | and clearing everything, if and only if a subscribed key is left waiting for its unsubscription |
| GroupedSubs.WakesAtMostOnce | wsclient/wsreconn/grouped_sub_keeper.go:102-355 | a call runs each change function at most once, and resets and confirmations run none |
| GroupedSubKeeper.Keeper.constructor | wsclient/wsreconn/grouped_sub_keeper.go:35-44 | a new keeper is empty |
| GroupedSubKeeper.Keeper.Subscribe | wsclient/wsreconn/grouped_sub_keeper.go:173-204 | the method over the shared topic maps does to the keeper's value exactly what DoSubscribe says; new maps are fresh |
| GroupedSubKeeper.Keeper.Unsubscribe | wsclient/wsreconn/grouped_sub_keeper.go:207-219 | exactly DoUnsubscribe; no topic map is created or replaced |
| GroupedSubKeeper.Keeper.UnsubscribeFrom | wsclient/wsreconn/grouped_sub_keeper.go:224-263 | the shared loop updates one map in place, removes an emptied topic, and reports an update exactly when a subscribed key of the map is left with count zero |
| GroupedSubKeeper.Keeper.UnsubscribeTopics | wsclient/wsreconn/grouped_sub_keeper.go:272-277 | the loop over the topics, in any order, clears all of them and reports whether any is left waiting |
| GroupedSubKeeper.Keeper.UnsubscribeAll | wsclient/wsreconn/grouped_sub_keeper.go:266-282 | exactly DoUnsubscribeAll |
| GroupedSubKeeper.Keeper.ResetAll | wsclient/wsreconn/grouped_sub_keeper.go:102-124 | exactly DoResetAll, and no change function runs |
| GroupedSubKeeper.Keeper.Confirm | wsclient/wsreconn/grouped_sub_keeper.go:323-355 | exactly DoConfirm, also through a map that is stored no longer |
| GroupedSubKeeper.Keeper.ConfirmSub | wsclient/wsreconn/grouped_sub_keeper.go:285-295 | a manual confirmation acts through the stored map, or not at all |
| GroupedSubKeeper.Keeper.ConfirmUnsub | wsclient/wsreconn/grouped_sub_keeper.go:300-319 | a manual confirmation of the listed keys or, inverted, of all the others |
| GroupedSubKeeper.Keeper.Acknowledge | wsclient/wsreconn/grouped_sub_keeper.go:386-401 | the closure confirms the payload's own keys, direction and map |
| GroupedSubKeeper.Keeper.Payloads | wsclient/wsreconn/grouped_sub_keeper.go:54-98 | one payload for each topic and direction with waiting keys, each listing exactly those keys once and sharing the stored map |
| GroupedSubKeeper.Keeper.TopicKeys | wsclient/wsreconn/grouped_sub_keeper.go:149-167 | a listing of exactly the confirmed keys with a positive count |
| GroupedSubKeeper.SubscribeKeys | wsclient/wsreconn/grouped_sub_keeper.go:183-203 | the loop over the keys and its flag: set exactly when some key has to be woken for |
| GroupedSubKeeper.UnsubscribeKeys | wsclient/wsreconn/grouped_sub_keeper.go:225-255 | the loop over the keys and its flag: set exactly when a subscribed key is left with count zero at the end |
| GroupedSubKeeper.ConfirmKeys | wsclient/wsreconn/grouped_sub_keeper.go:324-350 | the loop over the keys skips confirmed keys and keys of the other direction |
| GroupedSubKeeper.ResetKeys | wsclient/wsreconn/grouped_sub_keeper.go:107-118 | the loop that deletes while it iterates resets every entry once |
| GroupedSubKeeper.WaitingKeys | wsclient/wsreconn/grouped_sub_keeper.go:63-74 | the two lists hold exactly the waiting keys of each direction, once each |
| Shards.GroupCounts | wsclient/wsshards/grouped_sub_keeper_store.go:98-108 | a keeper's group holds each of its keys as often as the call lists it, and no other key |
| Shards.SlotAfterCall | wsclient/wsshards/grouped_sub_keeper_store.go:63-95 | what each call of the store's interface does to one key of one keeper |
| Shards.CallRefines | wsclient/wsshards/grouped_sub_keeper_store.go:63-95 | one call: the sharded store goes on refining one keeper if and only if the call visits every keeper it has something to do for, which only an inverted confirmation can fail to do |
| Shards.StoreRefinesKeeper | wsclient/wsshards/grouped_sub_keeper_store.go:63-108 | any sequence of calls: refinement holds throughout if and only if every call did; without inverted confirmations always |
| Shards.InvertedConfirmationMisses | wsclient/wsshards/grouped_sub_keeper_store.go:91-95 | concrete calls after which an inverted confirmation leaves a key waiting that one keeper would have forgotten |
| Shards.ShardsMakeOne | wsclient/wsshards/grouped_sub_keeper_store.go:10-13 | the flat maps of the keepers are disjoint, and their union is the one keeper's flat map |
| Shards.StoreWakes | wsclient/wsshards/grouped_sub_keeper_store.go:63-81 | some keeper of the store wakes its reconnect loop if and only if the one keeper would |
| ShardedStore.Store.constructor | wsclient/wsshards/grouped_sub_keeper_store.go:20-42 | the given number of empty keepers |
| ShardedStore.Store.DeriveKeyGroups | wsclient/wsshards/grouped_sub_keeper_store.go:98-108 | the map holds exactly the non-empty groups |
| ShardedStore.Store.VisitGroups | wsclient/wsshards/grouped_sub_keeper_store.go:64-66 | the loop over the groups, in any order, changes each visited keeper by its own part of the call and no other keeper |
| ShardedStore.Store.Subscribe | wsclient/wsshards/grouped_sub_keeper_store.go:63-67 | each keeper with a group is subscribed with exactly its group, and a keeper without one is untouched |
| ShardedStore.Store.UnsubscribeAll | wsclient/wsshards/grouped_sub_keeper_store.go:70-74 | every keeper is cleared |
| ShardedStore.Store.Unsubscribe | wsclient/wsshards/grouped_sub_keeper_store.go:77-81 | each keeper with a group is unsubscribed from exactly its group, and a keeper without one is untouched |
| ShardedStore.Store.ConfirmSub | wsclient/wsshards/grouped_sub_keeper_store.go:84-88 | each keeper with a group confirms exactly its group, and a keeper without one is untouched |
| ShardedStore.Store.ConfirmUnsub | wsclient/wsshards/grouped_sub_keeper_store.go:91-95 | each keeper with a group confirms its group or, inverted, all its other keys; a keeper without a group is untouched |
| SoloResubscription.ConfirmedIsServed | wsclient/wsreconn/client.go:132-186 | solo keeper: in every interleaving, while the connection is open every topic that is subscribed and confirmed is in the server's set |
| SoloResubscription.DirectionIsKept | wsclient/wsreconn/solo_sub_keeper.go:247-277 | in every run the direction a closure reads when the response arrives is that of the message that was sent |
| SoloResubscription.NextKeepsInv | wsclient/wsreconn/solo_sub_keeper.go:101-277 | each step keeps the invariant behind both |
| SoloResubscription.RunKeepsInv | wsclient/wsreconn/solo_sub_keeper.go:101-277 | every reachable world satisfies it |
| SoloResubscription.StepFollowsFlags | wsclient/wsreconn/solo_sub_keeper.go:101-277 | one step keeps the stored subscriptions equal to the flags a caller would keep if and only if it is neither a subscription while an unsubscription is pending nor a response to an unsubscription whose topic is subscribed anew |
| SoloResubscription.FlagsAreFollowed | wsclient/wsreconn/solo_sub_keeper.go:101-277 | over whole runs: the stored subscriptions are what the caller asked for throughout if and only if no such step was taken |
| SoloResubscription.ConnectionExactly | wsclient/wsreconn/client.go:132-212 | in every run the connection is open exactly when it was made and not lost since, and its messages and verdicts are those since it was made |
| SoloResubscription.PhaseExactly | wsclient/wsreconn/client.go:132-186 | in every run the pass is where its last step and the number of payloads tried since the last batch have brought it |
| SoloResubscription.StaleConfirmationDropsSubscription | wsclient/wsreconn/solo_sub_keeper.go:224-225 | a concrete run in which a stale unsubscription response removes a newer subscription of the same topic |
| SoloForgetting.StepKeepsServed | wsclient/wsreconn/solo_sub_keeper.go:101-277 | one step keeps "the server of an open connection holds only topics the keeper has" if and only if it is neither a call that deletes a served topic without a message nor the server accepting a subscription of a deleted topic; a response never breaks it |
| SoloForgetting.ServedIsKeptExactly | wsclient/wsreconn/solo_sub_keeper.go:101-277 | over whole runs: the property holds throughout if and only if no step broke it |
| SoloFullPass.AfterReconnectDelivered | wsclient/wsreconn/client.go:160-186 | an uninterrupted and accepted pass after a loss sends exactly the batch's messages in order and confirms exactly its subscriptions |
| SoloFullPass.ReconnectPass | wsclient/wsreconn/client.go:145-186 | such a pass, from any reachable state, subscribes each subscribed topic in exactly one message, sends no unsubscription, leaves nothing to send, and leaves the server with exactly the subscribed topics |
| SoloFullPass.OpenPass | wsclient/wsreconn/client.go:145-186 | on an open connection an uninterrupted and accepted pass over a batch of both directions sends one message for each payload in order, keeps what is subscribed, leaves nothing to send, and leaves the server with exactly the subscribed topics and what it already held without the keeper's knowledge |
| SoloFullPass.OpenPassIsExact | wsclient/wsreconn/client.go:145-186 | the server then holds exactly the subscribed topics if and only if it held only topics the keeper had |
| SoloSubs.SubscribeTakesEffect | wsclient/wsreconn/solo_sub_keeper.go:105-111 | a subscription leaves the topic subscribed if and only if no unsubscription of it was pending, and a stored topic is never touched |
| SoloSubs.UnsubscribeAllIsQuiet | wsclient/wsreconn/solo_sub_keeper.go:171-187 | clearing everything does to each topic what unsubscribing from it does, makes nothing live and changes no waiting subscription |
| SoloSubs.ResetAllIsQuiet | wsclient/wsreconn/solo_sub_keeper.go:67-78 | after a reset nothing is live, and waiting subscriptions are unchanged |
| SoloSubs.SubscribeWakesExactly | wsclient/wsreconn/solo_sub_keeper.go:101-121 | a subscription runs the change functions, once, if and only if its topic was not stored, and it waits for a message then |
| SoloSubs.UnsubscribeWakesExactly | wsclient/wsreconn/solo_sub_keeper.go:136-168 | an unsubscription does so if and only if its topic was subscribed and confirmed |
| SoloSubs.UnsubscribeAllWakesExactly | wsclient/wsreconn/solo_sub_keeper.go:171-187 | clearing everything does so if and only if some topic was subscribed and confirmed |
| SoloSubs.LocalAndManual | wsclient/wsreconn/solo_sub_keeper.go:127-213 | a local unsubscription forgets its topic only; a manual confirmation confirms a subscription or forgets a pending unsubscription, each in its own direction only |
| SoloSubKeeper.Keeper.Payloads | wsclient/wsreconn/solo_sub_keeper.go:50-63 | exactly the stored unconfirmed subscriptions, once each |
| SoloSubKeeper.Keeper.Subscribe | wsclient/wsreconn/solo_sub_keeper.go:101-121 | exactly DoSubscribe over shared subscriptions |
| SoloSubKeeper.Keeper.UnsubscribeLocal | wsclient/wsreconn/solo_sub_keeper.go:127-133 | removes the topic and nothing else |
| SoloSubKeeper.Keeper.Unsubscribe | wsclient/wsreconn/solo_sub_keeper.go:136-148 | exactly DoUnsubscribe |
| SoloSubKeeper.Keeper.UnsubscribeOne | wsclient/wsreconn/solo_sub_keeper.go:153-168 | deletes or marks the subscription, and reports exactly that it was live |
| SoloSubKeeper.Keeper.UnsubscribeAll | wsclient/wsreconn/solo_sub_keeper.go:171-187 | exactly DoUnsubscribeAll, in any order of the topics |
| SoloSubKeeper.Keeper.ResetAll | wsclient/wsreconn/solo_sub_keeper.go:67-78 | exactly DoResetAll, in any order of the topics |
| SoloSubKeeper.Keeper.Confirm | wsclient/wsreconn/solo_sub_keeper.go:217-233 | exactly DoConfirm through the given reference; an unsubscription deletes by topic |
| SoloSubKeeper.Keeper.Acknowledge | wsclient/wsreconn/solo_sub_keeper.go:251-266 | the closure confirms in the direction found at that moment |
| SoloSubKeeper.Keeper.ConfirmSub | wsclient/wsreconn/solo_sub_keeper.go:190-200 | a manual confirmation acts through the stored subscription, or not at all |
| SoloSubKeeper.Keeper.ConfirmUnsub | wsclient/wsreconn/solo_sub_keeper.go:203-213 | the same for an unsubscription |
| SoloShards.TopicAfterCall | wsclient/wsshards/solo_sub_keeper_store.go:60-93 | what each call does to one topic of one keeper |
| SoloShards.CallRefines | wsclient/wsshards/solo_sub_keeper_store.go:60-93 | one call on the store keeps it a refinement of one keeper |
| SoloShards.StoreRefinesKeeper | wsclient/wsshards/solo_sub_keeper_store.go:60-104 | after any sequence of calls the keepers hold disjoint parts of what one keeper would hold |
| SoloShards.CharIsEncoded | wsclient/wsshards/solo_sub_keeper_store.go:96-104 | the bytes of a character are a lead byte that tells their number and continuation bytes, and give the character back |
| SoloShards.BytesAddUp | wsclient/wsshards/solo_sub_keeper_store.go:96-104 | the sums of the bytes of two texts add up, in either order |
| SoloShards.IndexOfChar | wsclient/wsshards/solo_sub_keeper_store.go:96-104 | an ASCII character alone has its own code as index, modulo the number of keepers |
| SoloShardedStore.DeriveTopicIndex | wsclient/wsshards/solo_sub_keeper_store.go:96-104 | the loop computes the sum of the UTF-8 bytes modulo the number of keepers, a valid index |
| SoloShardedStore.Store.UnsubscribeAll | wsclient/wsshards/solo_sub_keeper_store.go:66-70 | every keeper is cleared |
| SoloShardedStore.Store.Dispatch | wsclient/wsshards/solo_sub_keeper_store.go:61-93 | a call about a topic changes the one keeper the topic belongs to |
| SoloShardedStore.Store.Subscribe | wsclient/wsshards/solo_sub_keeper_store.go:61-63 | only the keeper of the topic changes, by its own subscription |
| SoloShardedStore.Store.UnsubscribeLocal | wsclient/wsshards/solo_sub_keeper_store.go:76-78 | only the keeper of the topic changes, by its own local unsubscription |
| SoloShardedStore.Store.Unsubscribe | wsclient/wsshards/solo_sub_keeper_store.go:81-83 | only the keeper of the topic changes, by its own unsubscription |
| SoloShardedStore.Store.ConfirmSub | wsclient/wsshards/solo_sub_keeper_store.go:86-88 | only the keeper of the topic changes, by its own confirmation of a subscription |
| SoloShardedStore.Store.ConfirmUnsub | wsclient/wsshards/solo_sub_keeper_store.go:91-93 | only the keeper of the topic changes, by its own confirmation of an unsubscription |
| TopicSubs.ParamsEqualExactly | wsserver/topic.go:756-764 | the one-directional comparison is equality if and only if the second map has no further key |
| TopicSubs.SwapRemovedContents | wsserver/topic.go:341-352 | swap removal takes out exactly one occurrence of the element and keeps the rest |
| TopicSubs.PickedCounts | wsserver/topic.go:526-540 | the filter keeps the multiplicity of every selected parameter map and drops the others |
| TopicSubs.PickedPartition | wsserver/topic.go:520-552 | dropped and kept together are the old contents of a list |
| TopicSubs.PickedOfConcat | wsserver/topic.go:526-540 | the filter looks at one parameter map after the other and keeps their order |
| TopicSubs.StepHolds | wsserver/topic.go:301-567 | which pairs are held after each operation: the added one too, all but the removed one, none of the removed connection, none that the drop selects, and every other pair as before |
| TopicSubs.OthersKeepLists | wsserver/topic.go:301-389 | the lists of connections that the operation does not name stay the same, order included |
| TopicSubs.StepLogs | wsserver/topic.go:301-567 | which events an operation starts for each pair, and how often: a subscription of a pair not held, an unsubscription of each pair taken away, one of a removal that missed, and no others |
| TopicSubs.StepMarks | wsserver/topic.go:318-388 | first-sub is the first event, exactly when the topic gets its first connection, and last-unsub the last, exactly when it loses its last one |
| TopicSubs.RunKeeps | wsserver/topic.go:301-389 | in every run the lists are non-empty, free of duplicates and keyed by the pattern's names; first-sub and last-unsub events strictly alternate, starting with first-sub, and the last one is first-sub exactly when the topic has subscribers |
| TopicSubs.StepBalances | wsserver/topic.go:301-389 | one operation changes sub minus unsub events of a pair as it changes whether the pair is held, less one for a removal that missed |
| TopicSubs.EventsAreConserved | wsserver/topic.go:301-389 | over whole runs: sub minus unsub events of a pair equal 1 if it is held and 0 otherwise, less the removals by that subscribed connection of parameters it did not hold |
| ServerTopic.LiveTopic.constructor | wsserver/topic.go:291-298 | a bound topic has the pattern and the middlewares it was given, no subscribers and no events |
| ServerTopic.LiveTopic.AddSub | wsserver/topic.go:301-328 | the pair is held and no other pair changes; exactly the addition of the run model |
| ServerTopic.LiveTopic.RemoveSub | wsserver/topic.go:331-368 | the pair is not held and no other pair changes; exactly the removal of the run model, with its unsub event even when the parameters were not held |
| ServerTopic.LiveTopic.RemoveConn | wsserver/topic.go:371-389 | the connection holds nothing, no other connection changes, and there is one unsub event for each parameter map |
| ServerTopic.LiveTopic.DropMany | wsserver/topic.go:510-567 | exactly the pairs that the filter selects, or all without a filter, are no longer held and are sent one message each; the others keep their order, emptied connections disappear, each dropped pair has one unsub event, and last-unsub fires exactly on a change from non-empty to empty |
| ServerTopic.LiveTopic.DropSubs | wsserver/topic.go:520-552 | the loop over the connections, in any order: dropped is what the filter selects, kept is what it does not |
| ServerTopic.LiveTopic.PublishMany | wsserver/topic.go:464-484 | exactly the held pairs that every middleware and the filter accept are sent the event, once, under the descriptor pub, and each text is encoded once |
| ServerTopic.RunMiddlewares | wsserver/topic.go:446-450 | a subscription is accepted if and only if all middlewares and the filter accept it |
| ServerTopic.Launch | wsserver/topic.go:435-455 | one goroutine for each listed parameter map |
| ServerTopic.Publish | wsserver/topic.go:392-458 | whatever the order of the goroutines, exactly the owed deliveries are made, each with the direct encoding for its topic, and each topic is encoded once |
| ServerTopic.PublishedOnce | wsserver/topic.go:392-458 | to well-formed subscribers each owed delivery is made exactly once |
| ServerTopic.SubscriberHearsOwnTopic | wsserver/topic.go:464-484 | a client that subscribed with its own text is sent the event under that text, with only the descriptor changed, if and only if the middlewares accept it |
| ServerTopic.RemoveParams | wsserver/topic.go:341-352 | the in-place loop is the swap removal of the first equal map |
| ServerTopic.SameKeysEqual | wsserver/topic.go:756-764 | on maps with the same keys the one-directional comparison is equality |
| TopicPattern.NewPattern | wsserver/topic.go:690-710 | an element is a placeholder if and only if it begins with { and ends with }, it is named by what is between them, and every other element stays as it is |
| TopicPattern.Match | wsserver/topic.go:113-134 | one step of the search captures parameters if and only if the request fits |
| TopicPattern.CapturedValue | wsserver/topic.go:123-132 | a name captures the element at its last placeholder, after which no other has that name |
| TopicPattern.Format | wsserver/topic.go:713-727 | the loop fills the placeholders and prints |
| TopicPattern.FormattedPathOfCaptured | wsserver/topic.go:713-727 | formatting what was captured gives the request's path if and only if placeholders of one name captured equal elements |
| TopicPattern.DistinctNamesAreConsistent | wsserver/topic.go:690-710 | which distinct names always do |
| TopicPattern.SubToPub | wsserver/topic.go:110-138 | a client's text that loses nothing in parsing and fits a pattern comes back, under the new descriptor, from formatting the pattern with the captured parameters, if and only if they are consistent; parsing that text gives the same operation and path |
| TopicPattern.FindInOrder | wsserver/topic.go:110-138 | a found topic fits and carries its captured parameters; nothing found means nothing fits |
| TopicPattern.FoundParams | wsserver/topic.go:110-138 | found parameters have exactly the names of the pattern's placeholders |
| TopicPattern.FirstIsFound | wsserver/topic.go:110-138 | the search stops at the first bound topic in the order that fits, and finds none only when none fits |
| TopicPattern.Router.Bind | wsserver/topic.go:57-82 | binding panics if and only if the text does not parse, there is no binder or the text is bound already |
| TopicPattern.Router.FindTopic | wsserver/topic.go:110-138 | the search over any iteration order of the map |
| TopicPattern.OverlapIsAmbiguous | wsserver/topic.go:110-138 | two overlapping patterns have a client text that fits both |
| TopicPattern.DeterministicIffNoOverlap | wsserver/topic.go:110-138 | every client text finds the same answer under all iteration orders if and only if no two bound patterns overlap |
| TopicText.ParseOutcome | wsutil/wsutil.go:90-108 | the parser refuses exactly what the expression refuses, and indexes out of range on an accepted text if and only if it ends in a tilde |
| TopicText.AcceptsExactly | wsutil/wsutil.go:22 | the check accepts exactly the texts written as the expression says: an optional descriptor and tilde, an operation, an at sign, one or more path characters with an optional dot each, and a last character that is no dot |
| TopicText.ParseOfParts | wsutil/wsutil.go:90-108 | the outcome for every head and tail the expression accepts |
| TopicText.PrintOfParse | wsutil/wsutil.go:80-108 | printing a parsed text rebuilds it if and only if it does not end in an at sign, which is lost otherwise |
| TopicText.ParseOfPrint | wsutil/wsutil.go:80-108 | parsing a printed topic returns it if and only if the topic is printable |
| TopicText.PrintedPathSplits | wsutil/wsutil.go:81-105 | splitting a joined printable path returns the path |
| TopicText.JoinOfSplit | wsutil/wsutil.go:97-105 | joining what was split gives the text back |
| TopicText.SplitOfJoin | wsutil/wsutil.go:97-105 | splitting what was joined gives the parts back when none holds the separator |
| ServerRouting.RemovesExactly | wsserver/topic.go:158-168 | a routed unsubscription takes away the one subscription the search finds, and no other of any topic |
| ServerRouting.AddsExactly | wsserver/topic.go:142-156 | a routed subscription adds the one the search finds a topic for, and no other of any topic |
| ServerRouting.SameSearch | wsserver/topic.go:110-138 | the search ignores the descriptor |
| ServerRouting.UnsubscriptionUndoesExactly | wsserver/topic.go:142-168 | an unsubscription with the text of a subscription removes that subscription under all iteration orders of both searches if and only if at most one bound pattern fits |
| ServerRouting.AllUndoneIffNoOverlap | wsserver/topic.go:142-168 | that holds for every client text if and only if no two bound patterns overlap |
| ServerRouting.UnsubText | wsutil/wsutil.go:80-108 | the text of such an unsubscription parses to what it asks for |
| ServerLifecycle.TerminatedIsGone | wsserver/server.go:149-158 | in every interleaving of reader, writer, other closings, drops and binds, a connection whose reader has terminated is in no topic and not in the pool, and stays terminated |
| ServerLifecycle.NextKeepsInv | wsserver/server.go:220-322 | each step keeps how far the reader's own closing has got |
| ServerLifecycle.RunKeepsInv | wsserver/server.go:125-195 | every reachable world satisfies the invariant |
| ServerLifecycle.MayComeBackExactly | wsserver/server.go:148-158 | a connection that is in no topic can come into a given topic again, by some continuation of the run, if and only if its reader holds a request, or nobody has shut the connection and its reader has not begun to leave |
| ServerLifecycle.ShutAddsAtMostOnce | wsserver/server.go:253-292 | once a connection is shut its reader subscribes it at most once more, and only with a request it already holds |
| ServerLifecycle.RunStaysOut | wsserver/server.go:220-322 | once its reader gets no further request and it is in no topic, no continuation brings it back |
| ServerLifecycle.InTopicExactly | wsserver/server.go:128-322 | in every run a connection is in a topic if and only if its reader subscribed it there and neither its last unsubscription nor a drop nor a closing took it out since |
| ServerLifecycle.InPoolExactly | wsserver/server.go:149-195 | in every run a connection is in the pool if and only if it was registered and no closing of it has finished, and it is shut if and only if some closing of it has shut it |
| ServerLifecycle.ClosedMaySubscribe | wsserver/server.go:128-158 | a concrete run in which a closing by another caller finishes while the reader holds a request, and the reader then subscribes the connection once more |
| PeriodicExec.StartsAreTimely | internal/timeutil/timeutil.go:32-121 | in every run of a constructed executor: a start after a triggered one comes at least the cooldown later, or repeatAfter when that is shorter, neighbouring starts are at most repeatAfter apart, at most one trigger is queued, and no trigger waits longer than that cooldown |
| PeriodicExec.TimerStartsExactly | internal/timeutil/timeutil.go:57-96 | a start by the timer is exactly repeatAfter later than the last start; the first one is as late after the beginning, or immediate with a fast start |
| PeriodicExec.TriggerIsAnswered | internal/timeutil/timeutil.go:132-138 | while the executor runs, a call of Trigger is followed by a start within the cooldown, or within repeatAfter when that is shorter |
| PeriodicExec.RunIsCounted | internal/timeutil/timeutil.go:57-138 | the clock is the time that went by, and each triggered start used up a trigger |
| PeriodicExec.StopIsFinal | internal/timeutil/timeutil.go:123-129 | nothing is started after Stop |
| PeriodicExec.NeverStuck | internal/timeutil/timeutil.go:57-121 | a running executor can always go on |
| PeriodicExec.NextKeepsInv | internal/timeutil/timeutil.go:57-138 | each step of the timed machine keeps the invariant |
| PeriodicExec.RunKeepsInv | internal/timeutil/timeutil.go:57-138 | every reachable state satisfies it |
| PeriodicExec.LongCooldownIsLate | internal/timeutil/timeutil.go:38-40 | a concrete late run of any configuration whose cooldown is too long |
| PeriodicExec.LimitIsNeeded | internal/timeutil/timeutil.go:38-40 | without the constructor's limit some run is late if and only if the cooldown is longer than repeatAfter |

## Left out

- ReconnectingClient.Client.Process: does not model the `OnReconnect` functions, metrics and logging, because they touch no subscription; the trigger after a closed connection only hastens the next pass.
- ReconnectingClient.Client.Request: does not model deadlines or request numbers, because no liveness is claimed: a response that is lost, late or of another connection is one that never comes.
- Resubscription.ConfirmedIsServed: does not model subscriptions the server drops on its own, nor payloads confirmed by hand, because both leave the truth to handlers outside the keeper.
- SoloResubscription.ConfirmedIsServed: the same limits; making a message and putting it on the wire are one step, since a waiting subscription does not change in between.
- ServerTopic.LiveTopic.PublishMany: does not model the race of concurrent calls on the spare capacity of the middleware slice; middleware lists are values.
- ServerTopic.LiveTopic.DropMany: does not model the reason text of a drop, which is part of the encoding.
- ServerTopic.Publish: does not model a recipient whose write is cancelled; a delivery is the hand-over to the connection.
- SoloShardedStore.DeriveTopicIndex: does not model topics that are not valid UTF-8, because a topic is a sequence of characters here.
- ShardedStore.Store.DeriveKeyGroups: does not model a negative hash, for which the original indexes out of range, nor a store without keepers, for which it divides by zero.
- Subscription metrics: the gauges are not conserved by the code, so nothing is stated about them.
- `PublishOne` and `DropOne`: filters by connection identity on top of the modelled methods.
- The connections themselves: dialing, pings, JSON, HTTP upgrade, supervisors, cron, logging, panic recovery and context merging are libraries or I/O.
- Wrap-around of unsigned counters and of hash sums.
