# A verified model of the token ring

The program is a ring of processes that pass one token over UDP. A process that wants in broadcasts a
join request; the process holding the token splices it in between its predecessor and itself, keeping
the token until both neighbours have confirmed. Tokens and join messages go through a reliable
transport with an alternating bit. This project models the three layers and proves what they are for.

* **The join table** (`join_table*.dfy`, `join_state.dfy`, `slot_bags.dfy`): 32 slots with holes, oldest-first
  extraction, expiry, and the bounded cache of completed joins. The class works in place on the two
  arrays and the count; each method is proved to perform the operation whose laws are stated.
* **One node** (`node.dfy`, `node_laws.dfy`, `node_effects.dfy`, `ring_node.dfy`, `event_loop.dfy`,
  `pass_laws.dfy`, `timers.dfy`): the handlers and timer ticks as functions on the node's state, what each of
  them and a whole pass of the event loop achieve, a class whose methods overwrite the fields as the program
  does and are proved to follow those functions, and the sleep computed from the deadlines.
* **The ring** (`ring_*.dfy`, `pending_versions.dfy`, `late_request.dfy`, `stale_join.dfy`, `third_copy.dfy`,
  `replay.dfy`, `lossy_runs.dfy`, `join_wait.dfy`, `join_progress.dfy`, `dead_end.dfy`, `delivery.dfy`): all
  nodes, a network from which any packet ever sent may arrive at any time, in any order, any number of times
  or never, and the token in transit. Steps of the nodes interleave freely. `ring` and `history` record
  the run (the members seen from the token onwards, and the completed joins); no step reads them. For
  safety a network that keeps every packet is the worst case; where it is asked what can still be brought
  about, runs also lose packets for good (`lossy_runs.dfy`).
* **The transport** (`parked_frames.dfy`, `peer_table.dfy`, `rudp.dfy`, `rudp_endpoint.dfy`, `wait_laws.dfy`,
  `send_laws.dfy`, `reply_laws.dfy`, `receive_*.dfy`, `transport*.dfy`): the table of parked frames, the table of bits per peer, an endpoint's steps one
  socket event at a time, the same as loops over a script of socket events, and two endpoints joined by
  channels that keep order but lose and repeat datagrams.

The token's move is one step for the ring. While its sender is blocked in the transport the node is
`sending`: it still has its flag set but runs no handler. `TransportSends.UnlimitedSend` is the
transport's side of that step: an unlimited send, the kind used for tokens
(`src/include/consts.h:32`), never gives up, and when its epoch (the sends made under one value of the
sender's bit) is settled on its payload, that payload is what the epoch delivers, once.
`TransportSends.UnlimitedSendExact` shows that being settled is the exact condition. It holds for every
payload when no earlier send of the epoch was abandoned; it can fail otherwise, see the assumptions.

## Assumptions

* Names are distinct, NUL-free and shorter than 32 bytes; join request ids are distinct and not zero;
  system calls succeed; clock readings are positive. The first ring is well formed, its first node
  starts the token, and there are fewer than 2^32 nodes (versions are 32-bit and wrap in the model).
* `JoinsStartFresh`: a join is only started for a node that has not joined. The ring theorems state it;
  `PendingVersions.TimelyRunsStartFresh` proves it from `RequestsTimely`: every request a node takes
  into its table names a process whose join it has not already seen counted in its version, and meets no
  free slot before two entries of that name. `LateRequestStartsMember` shows the first half is exact, and
  `LateRequest.LateRequestBreaksRing` gives the run in which it fails: a node that was no part of a join
  learns of it from the token alone, takes the old request, and starts a join for the member, after which
  no ring is left. Where the member is the holder's own predecessor the ring stays, and the join never
  completes unless something of the member's first join is still on its way
  (`StaleJoin.StaleJoinNeverCompletes`). The second half keeps a name from getting into the table three
  times (`JoinTableLaws.AddKeepsAtMostTwo` says exactly when that happens). Two entries do no harm: the
  start of the join takes one and its completion the other. A third stays (`ThirdCopyStays`), and
  `ThirdCopy.ThirdCopyStartsMember` is a run with no late request in which the holder then starts a join
  for a member.
* No process exchanges frames with more than 32 addresses. With the peer table full a send to another
  address fails at once, for ever (`PeerBits.FullForEver`), and so does the token's.
* `Orderly`, for the transport: a message not seen before that is read while the receiver waits for
  something else is parked and acknowledged only when no reply is under way and no message is parked.
  The receiver can tell by comparing bits (`TransportEarly.OrderlyByBits`). A step keeps the transport's
  invariant exactly when it is orderly (`OrderlyIsExact`). The delivery guarantee is safe from a step, for
  any orderly continuation, exactly when the step is orderly or the one harmless exception `Spared`
  (`TransportExact.GuaranteeIsExact`). `EarlyAckIsLost` shows for all payloads how the extra read at
  `src/rudp.c:239` throws an acknowledged message away, and `OverrunLosesMessage` is such a run from the
  start with a single disorderly step.
* Every token send opens its epoch: the ring's one-step move of the token relies on it, and the program
  does not ensure it. A limited send that gives up does not flip the bit (`src/rudp.c:134-138`), so the
  next send to that peer shares its epoch and can be taken for a duplicate of the abandoned one. A joiner
  can give up its JOIN_ACK (`src/unicast_dispatch.c:158-163`), have its retries stopped by a JOIN_COMMIT
  (`src/broadcast.c:220-224`), and then send its first token to the same peer.
  `TransportShared.SharedEpochLosesToken` is the run in which that token is lost, in order throughout,
  with its sender told that it arrived.

Frames carry an `epoch`, the number of acknowledged sends before theirs. It is a history tag: it is not
on the wire and no step compares it.

Where the documentation disagrees with the code the model follows the code. `docs/final.md:207` says
that a newer version on the token removes as many pending requests as the versions differ; the code
(`src/unicast_dispatch.c:33-34`), and a later passage of the same document (`docs/final.md:252`),
clear the whole table. The proofs need the latter.

## Model

| member | source | states |
|---|---|---|
| JoinStateClass.JoinTableState.AddPending | src/join.c:6-33 | performs `Add` in place, succeeds exactly below 32 entries, keeps count equal to the used slots; the final return is unreachable |
| JoinStateClass.JoinTableState.RemovePending | src/join.c:35-44 | performs `Remove` in place and keeps the count right |
| JoinStateClass.JoinTableState.PopOldest | src/join.c:46-68 | returns and clears the oldest entry, succeeds exactly when the count is positive |
| JoinStateClass.JoinTableState.DropOldest | src/join.c:70-82 | performs `Drop`, returns min(n, count) |
| JoinStateClass.JoinTableState.IsCompletedJoin | src/join.c:84-91 | true exactly when the name is in the cache |
| JoinStateClass.JoinTableState.RecordCompletedJoin | src/join.c:93-114 | refines the bounded queue of distinct names, shifting in place when full |
| JoinStateClass.JoinTableState.PruneJoins | src/join.c:116-123 | clears exactly the entries older than the limit and keeps the count right |
| JoinStateClass.JoinTableState.MarkCompleted | src/join.c:125-135 | records the name and takes one pending entry of that name out |
| JoinTableLaws.AddAccounting | src/join.c:6-33 | adding fails exactly when the table is full on entry; the scan never runs off the end; only one slot changes |
| JoinTableLaws.RemoveAccounting | src/join.c:35-44 | removal succeeds exactly when some slot holds the name, and frees one slot |
| JoinTableLaws.PopAccounting | src/join.c:46-68 | a positive count means the pop succeeds and takes one entry away |
| JoinTableLaws.AddKeepsNamesUnique | src/join.c:11-30 | names stay unique if and only if no free slot precedes the entry that should be refreshed |
| JoinTableLaws.DuplicateNameExists | src/join.c:11-44 | from an empty table, two adds, a removal and a repeated request make a name pending twice |
| JoinTableLaws.AddKeepsAtMostTwo | src/join.c:11-30 | no name is pending three times if and only if no free slot precedes two entries of the added name |
| JoinTableLaws.RemoveTakesNameOut | src/join.c:35-44 | one removal takes a name out if and only if it was not there twice |
| JoinTableLaws.MarkAccounting | src/join.c:125-135 | marking puts the name in the cache and takes exactly one pending entry of it out, if there is one |
| JoinTableLaws.ThirdCopyStays | src/join_fsm.c:106-106 | after the pop that starts a join and the removal that ends it, its name is still pending if and only if it was there three times |
| JoinTableLaws.DropTakesOldest | src/join.c:46-82 | exactly the min(n, count) first entries by last-seen time, lowest slot first on ties, in that order; all others stay where they are |
| JoinTableLaws.DropConserves | src/join.c:70-82 | removed and kept entries together are the old multiset |
| JoinTableLaws.DropAllEmpties | src/unicast_dispatch.c:33-34 | dropping as many as are pending leaves the table empty |
| JoinTableLaws.IsCompletedMeansInCache | src/join.c:84-91 | the scan answers membership |
| JoinTableLaws.RecordKeepsCache | src/join.c:93-114 | a known name only changes its id; a new one goes last, pushing out the oldest when full; names stay distinct |
| JoinTableLaws.NewNameSurvives31 | src/join.c:93-114 | a newly recorded name is still reported after any 31 further recordings |
| JoinTableLaws.PushedOut | src/join.c:101-109 | 31 is the exact bound: enough other new names push an entry out |
| NodeLaws.LocalInvAlways | src/join_fsm.c:63-112 | under any sequence of events, true or false messages alike, an active join means joined, holding the token, expecting the present predecessor; flags are set only while active; joined never reverts |
| NodeLaws.FreshNodeStaysSound | src/ring.c:224-231 | a node just initialised satisfies this for ever |
| NodeLaws.RoutesStay | src/unicast_dispatch.c:250-285 | only an accept that applies or a completion moves a route |
| NodeLaws.RepeatedAck | src/unicast_dispatch.c:180-197 | an acknowledgement heard once is known, and a known one changes nothing |
| NodeEffects.AckAnswered | src/unicast_dispatch.c:169-227 | an acknowledgement is answered exactly three times, with its id and its sender's name, when it is the active joiner's or the predecessor's, and not otherwise; the completing one also announces the join |
| NodeEffects.AnswerStopsSender | src/unicast_dispatch.c:230-248 | such an answer goes to the sender and takes the acknowledgement out of its timer |
| NodeEffects.SendsNoMore | src/ring.c:434-475 | in any run, losses included, a node that has stopped sends no acknowledgement until it applies another accept |
| NodeEffects.AnswerHeard | src/unicast_dispatch.c:238-247 | an answer for another node or another request changes nothing |
| NodeEffects.RequestHeard | src/broadcast.c:140-157 | a request that is not the node's own, not the one in flight and not known completed is pending as heard, in the first slot free or of its name; any other, or a full table, changes nothing |
| NodeEffects.StartOffers | src/ring.c:341-349 | a start takes the oldest entry and offers the join at once to the joiner and to a predecessor other than the node itself |
| NodeEffects.OffersWhenDue | src/join_fsm.c:129-205 | a waiting join is offered to exactly the unconfirmed, just when a second has passed |
| NodeEffects.CompletionAnnounced | src/join_fsm.c:82-123 | both confirmations and nothing less complete the join: routes, version, cache, and exactly one commit that says so |
| NodeEffects.AcceptTaken | src/unicast_dispatch.c:125-164 | which accepts change a route, to what, and that exactly those are acknowledged to the coordinator |
| NodeEffects.AcksWhenDue | src/ring.c:434-475 | which acknowledgement goes out, when, and when the node stops |
| NodeEffects.AsksWhenDue | src/join_fsm.c:35-61 | which request goes out, when, and when the node gives up |
| NodeEffects.CommitHeardLaw | src/broadcast.c:186-226 | a commit marks its name, a later version empties the table, and its request is not acknowledged again |
| NodeEffects.CommitFinishes | src/broadcast.c:197-218 | on a commit of the very join in flight the joiner becomes the predecessor and the join is over without another commit |
| NodeEffects.PruneForgets | src/join.c:116-123 | exactly the entries older than 200 seconds are forgotten |
| NodeEffects.TokenTaken | src/unicast_dispatch.c:54-68 | a token is stored as it came and held by a member; a later version empties the table |
| NodeEffects.TokenMadeAndGone | src/ring.c:264-278 | the first token is empty and of the node's version |
| NodeEffects.InputWaits | src/ring.c:290-299 | input read while the token is empty waits as it was read; otherwise it is not taken |
| NodeEffects.ForwardSends | src/ring.c:136-177 | a forward sends waiting input as it was read with the node's version when the token is free, else an empty token or the token as it came |
| NodeEffects.InputLeaves | src/ring.c:154-172 | so what is read with an empty token is what leaves with it |
| RingNodeClass.RingNode.StartJoin | src/join_fsm.c:63-80 | the fields become what `StartInflight` says, with the predecessor confirmed at once when it is the node itself |
| RingNodeClass.RingNode.MaybeComplete | src/join_fsm.c:82-127 | completes exactly with both confirmations: new predecessor, successor too in a ring of one, version up by one (32-bit), table, commit |
| RingNodeClass.RingNode.OnInflightTimer | src/join_fsm.c:129-205 | follows `InflightTick`: who is sent the accept, when, and the retry counter |
| RingNodeClass.RingNode.OnAck | src/unicast_dispatch.c:169-227 | follows `HandleAck`, including completion and the three replies |
| RingNodeClass.RingNode.ApplyAcceptIfRelevant | src/unicast_dispatch.c:250-285 | the routing change of an accept and whether there was one |
| RingNodeClass.RingNode.OnAccept | src/unicast_dispatch.c:93-167 | follows `HandleAccept`, with the acknowledgement timer it arms |
| RingNodeClass.RingNode.OnAckAck | src/unicast_dispatch.c:229-248 | only its own, matching acknowledgement stops the retries |
| RingNodeClass.RingNode.OnAckTimer | src/ring.c:434-475 | follows `AckSenderTick` |
| RingNodeClass.RingNode.OnRequestTimer | src/join_fsm.c:35-61 | follows `RequestTick` |
| RingNodeClass.RingNode.OnRequest | src/broadcast.c:126-166 | ignores its own request, the one in flight and completed names; adds the rest |
| RingNodeClass.RingNode.OnCommit | src/broadcast.c:186-227 | follows `HandleCommit`, the branch that completes on a commit included |
| RingNodeClass.RingNode.LearnOfCommit | src/broadcast.c:186-195 | marks the name completed; a later version clears the table |
| RingNodeClass.RingNode.FinishViaCommit | src/broadcast.c:197-212 | follows `CompleteViaCommit` |
| RingNodeClass.RingNode.OnPruneTimer | src/ring.c:89-90 | follows `PruneTick` with the table's time to live |
| RingNodeClass.RingNode.UpdateTopology | src/unicast_dispatch.c:24-42 | a newer version on the token clears the table and is remembered |
| RingNodeClass.RingNode.OnToken | src/unicast_dispatch.c:54-68 | follows `ReceiveToken`; the second clearing finds an empty table |
| RingNodeClass.RingNode.SendInitialToken | src/ring.c:266-278 | follows `InitialToken` |
| RingNodeClass.RingNode.RingOnToken | src/ring.c:139-169 | follows `BeginForward`: consume, attach, hand to the transport |
| RingNodeClass.RingNode.SendFailed | src/ring.c:169-173 | follows `AbandonForward`: the send comes back with an error, and the received token stays |
| NodeLaws.FailedSendLosesInput | src/ring.c:154-173 | after a failed send the token is as received, to be tried again, and an attached input is gone |
| RingNodeClass.RingNode.SendReturned | src/ring.c:175-177 | follows `EndForward` |
| RingNodeClass.RingNode.HandleTokenIfReady | src/ring.c:331-362 | follows `HandleToken`: wait, start the oldest pending join, or forward |
| RingNodeClass.RingNode.OnCliInput | src/ring.c:290-299 | follows `ReadCli` |
| RingNodeClass.RingNode.SleepTime | src/ring.c:365-431 | the running minimum is `SelectTimeout` |
| EventLoop.Pass | src/ring.c:85-134 | a pass is exactly the sequence of steps in the loop's order, stopped early exactly when a request is due with no tries left, sending exactly the packets those steps send, with one time before the sleep and another after it |
| EventLoop.RunArrivals | src/ring.c:301-329 | each message is dispatched in turn and followed by a look whether the join is complete |
| EventLoop.RunToken | src/ring.c:331-362 | the token is used last, and a send it starts returns within the pass |
| EventLoop.PassKeepsLocalInv | src/ring.c:85-134 | whatever arrives, a pass keeps the local invariant and membership |
| PassLaws.OffersAreRepeated | src/ring.c:104-106 | in a pass a waiting join last offered a second ago is offered again to whoever has not confirmed |
| PassLaws.AcksAreRepeated | src/ring.c:86-88 | an unanswered acknowledgement with tries left is repeated when a second has passed |
| PassLaws.RequestsAreRepeated | src/ring.c:100-102 | a node that is no member asks again when ten seconds have passed |
| PassLaws.TableIsPruned | src/ring.c:89-90 | after a pass nothing is pending that was too old when it began |
| PassLaws.RequestIsDealt | src/ring.c:123-125 | a request heard is pending, started, known completed or the node's own at the end, unless there was no room |
| PassLaws.CommitIsKnown | src/ring.c:123-125 | a commit heard has been seen at the end, and its request is not acknowledged again |
| PassLaws.AcceptIsTaken | src/ring.c:117-119 | a node that gets the accept for its request is a member at the end |
| PassLaws.JoinerIsHeard | src/ring.c:117-121 | an acknowledgement of the joiner is known at the end, or the join is over and has been announced |
| PassLaws.AnswerIsHeard | src/ring.c:117-119 | an answer to the acknowledgement under way has ended it at the end |
| PassLaws.InputIsTaken | src/ring.c:127-129 | input read with the token at hand empty leaves in the same pass, or waits as it was read |
| PassLaws.TokenIsUsed | src/ring.c:131-133 | after a pass no member holds a token without a join under way |
| PassLaws.TokenIsNotLost | src/ring.c:117-133 | a member that has the token or gets it sends one on or keeps it for a join |
| Timers.SleepsNoLonger | src/ring.c:365-431 | the sleep passes no armed deadline, is never negative, and is 0 when work waits |
| Timers.SleepsForAReason | src/ring.c:385-430 | without work at hand the sleep ends at a deadline, after a second with joins pending, or after ten seconds only with neither |
| Timers.RequestTimerActs | src/join_fsm.c:35-61 | acts exactly when due, then moves its deadline on or stops the node |
| Timers.AcceptTimerActs | src/join_fsm.c:129-205 | acts exactly when due, then moves its deadline on |
| Timers.AckTimerActs | src/ring.c:434-475 | acts exactly when due, then moves its deadline on or disarms |
| RingTheorems.InitInv | src/ring.c:224-231 | the starting states satisfy the ring invariant |
| RingTheorems.StepKeepsInv | src/join_fsm.c:63-123 | every step of any node keeps the ring invariant, provided a join it starts is for a node not joined yet |
| RingTheorems.RingSafety | src/join_fsm.c:82-123 | in every state with no join in flight, `next` is one cycle through exactly the joined nodes, with its ports, and `prev` is its inverse |
| RingTheorems.RingReachesAll | src/ring.c:169-170 | in such a state every member reaches every member along `next`, and itself first after as many hops as there are members |
| RingTheorems.SpliceSafety | src/unicast_dispatch.c:250-285 | with a join in flight only the predecessor's `next` and the joiner deviate, and the confirmations the coordinator has are true |
| RingTheorems.TokenSafety | src/ring.c:331-362 | exactly one token, held by or travelling to a joined node; only its holder has a join in flight, so at most one exists |
| RingTheorems.VersionCounting | src/join_fsm.c:103-104 | the token's version is the number of completed joins, no node has seen a later one, and the holder has seen it |
| RingTheorems.VersionsAreUnique | src/join_fsm.c:114-117 | no two joins are announced with one version, and no join with two |
| RingTheorems.VersionsNeverGoBack | src/unicast_dispatch.c:25-36 | no step lowers a node's version, a token carrying user input included |
| PendingVersions.RunSound | src/broadcast.c:186-195 | with timely requests, every pending name whose join completed did so at a version later than the node has seen |
| PendingVersions.TimelyRunsStartFresh | src/ring.c:341-349 | so no token holder ever starts a join for a member |
| PendingVersions.TimelyRingSafety | src/ring.c:341-349 | ring safety from timely requests alone |
| PendingVersions.LateRequestStartsMember | src/broadcast.c:149-157 | a request taken by the holder starts a fresh join if and only if it is not late |
| LateRequest.JoinComplete | src/join_fsm.c:82-123 | a run from the start in which a join completes |
| LateRequest.LateRequestReached | src/ring.c:117-125 | a run from the start, all its joins fresh, to a holder about to start a join for a member |
| LateRequest.StaleJoinHasNoShape | src/ring.c:341-349 | whenever a join is started for a member, the shape of a proper splice is lost at once |
| LateRequest.MemberIgnoresAccept | src/unicast_dispatch.c:253-256 | the member ignores the accept, so the join has no answer from it |
| LateRequest.StaleAcceptBreaksRing | src/unicast_dispatch.c:273-281 | the predecessor takes the accept: nobody points at the holder any more, and the joined nodes form no ring |
| LateRequest.LateRequestBreaksRing | src/broadcast.c:149-157 | the whole of it as a run from the start |
| StaleJoin.StaleJoinNeverCompletes | src/join_fsm.c:129-205 | a join started for a member keeps the token parked in every continuation, whatever is lost, unless an acknowledgement of the member's first join can still reach this holder or its commit does |
| StaleJoin.OldAnswerEndsIt | src/unicast_dispatch.c:180-197 | such an acknowledgement from the holder's own predecessor ends the join with every route as it was |
| ThirdCopy.ThirdCopyStartsMember | src/join.c:11-30 | a run from the start, every request taken before any join has completed and while the token is on its way, in which its receiver joins a node and then starts a join for it again |
| JoinProgress.ReachedSane | src/unicast_dispatch.c:130-164 | in every run, whatever is lost, the ring and local invariants hold and all acknowledgements of the join under way go to its coordinator |
| JoinProgress.StepGood | src/unicast_dispatch.c:130-164 | in a run that loses nothing, whoever has done its part of the join under way has its acknowledgement on the way |
| JoinProgress.NoLossCompletes | src/join_fsm.c:129-205 | so then the join in flight can be completed from everywhere |
| DeadEnd.JoinCanComplete | src/ring.c:434-475 | in every run, whatever has been lost, a join in flight can be completed if and only if every neighbour that has done its part and is not confirmed has its acknowledgement on the way or tries left to resend it; the joiner is then in the ring between its neighbours |
| DeadEnd.SilencedForEver | src/unicast_dispatch.c:253-256 | without that the same join stays in flight and the token with its coordinator in every continuation, since a neighbour that has done its part ignores all further accepts |
| DeadEnd.DeadEndAhead | src/ring.c:447-451 | whenever a neighbour has done its part unconfirmed, losses and used up tries can lead to such a state |
| DeadEnd.DeadEndReached | src/ring.c:447-451 | a run from the start that ends there |
| Replay.RunLocal | src/join_fsm.c:63-112 | the local invariant holds of every node in every run |
| Replay.JoiningGoesOn | src/unicast_dispatch.c:54-68 | a join under way either completes or keeps its ring, coordinator and joiner |
| Replay.ReplaySafety | src/unicast_dispatch.c:253-281 | a packet delivered to a node a second time changes no route anywhere |
| Replay.OldPacketsMoveNothing | src/unicast_dispatch.c:180-197 | the accepts, acknowledgements and commits of a completed join change no route, even when first delivered |
| Replay.CommitNeverCompletes | src/broadcast.c:197-218 | the branch that completes a join on a commit is never taken |
| Replay.OldSuccessorNeverReturns | src/unicast_dispatch.c:273-281 | a successor replaced by a splice never becomes that node's `next` again |
| Delivery.HopCloser | src/ring.c:139-172 | a forward short of the receiver keeps the message and brings it one hop closer |
| Delivery.HopConsumes | src/ring.c:142-152 | the forward at the receiver consumes it |
| Delivery.ForwardTakesAlong | src/ring.c:139-164 | a forward takes waiting input along, as it was read, exactly when the token carries nothing or something for the forwarding node; otherwise it carries on what it had |
| Delivery.NoHopKeeps | src/join_fsm.c:93-101 | no other step, a completing join included, changes message or distance |
| Delivery.DeliveryMeasure | src/ring.c:139-178 | over any run: distance falls by one per forward, and the message is consumed at distance 0 and not before |
| Delivery.AwayIsFollow | src/ring.c:169-170 | at a forward the distance is the number of hops along `next` |
| Delivery.AttachDistance | src/ring.c:154-164 | the distance at the attaching forward in hops along `next`, the ring's size for a message to oneself |
| Delivery.AttachedIsDelivered | src/ring.c:139-178 | from attaching on the message is consumed after exactly that many forwards |
| ParkedFrames.TakeLaw | src/rudp.c:256-278 | a take removes exactly the matching frame it returns and fails only when none matches |
| ParkedFrames.TakeMessageLaw | src/rudp.c:245-294 | `HasPending` is true exactly when taking a message succeeds, which removes exactly that message |
| ParkedFrames.StoreLaw | src/rudp.c:296-330 | a store adds the frame or replaces its twin, displaces no message, and fails only when full |
| ParkedFrames.DropLaw | src/rudp.c:332-343 | a drop takes out exactly the frames of that peer and type |
| ParkedFrames.TableInvariant | src/rudp.c:296-343 | under any operations at most 256 frames, and no two frames other than messages share peer, type and bit |
| ParkedFrames.ParkedTable.HasPendingMessage | src/rudp.c:245-254 | performs `HasPending` |
| ParkedFrames.ParkedTable.TakePending | src/rudp.c:256-278 | performs `TakeFrame` in place |
| ParkedFrames.ParkedTable.TakePendingMessage | src/rudp.c:280-294 | performs `TakeMessage` in place |
| ParkedFrames.ParkedTable.StorePending | src/rudp.c:296-330 | performs `Store` in place |
| ParkedFrames.ParkedTable.DropPeerFrames | src/rudp.c:332-343 | performs `DropPeer` in place |
| PeerBits.GetLaw | src/rudp.c:60-79 | finds the address, or makes an entry with both bits 0, or fails exactly when the table is full; nothing else changes |
| PeerBits.TableIsMap | src/rudp.c:60-79 | under any traffic the slots are the map of capacity 32; addresses stay unique and no entry moves or vanishes |
| PeerBits.OthersUntouched | src/rudp.c:157-157 | no traffic with other peers changes a peer's entry |
| PeerBits.FullForEver | src/rudp.c:91-95 | once the table is full, whatever the traffic, exactly the addresses it lacks can never be sent to |
| PeerBits.PeerTable.GetPeer | src/rudp.c:60-79 | performs `Get` in place |
| PeerBits.PeerTable.ToggleSend | src/rudp.c:157-157 | flips that peer's send bit and nothing else |
| PeerBits.PeerTable.ToggleExpected | src/rudp.c:234-236 | flips that peer's expected bit and nothing else |
| RudpEndpoint.TransmitAndWait | src/rudp.c:113-144 | a transmission and its wait amount to the sender's steps up to the event that ends the wait |
| RudpEndpoint.ReplyAndWait | src/rudp.c:203-228 | an ACK and its wait amount to the receiver's steps up to the event that ends the wait |
| RudpEndpoint.ReplyEnds | src/rudp.c:201-237 | every reply ends, delivering and flipping exactly when the message was expected |
| RudpEndpoint.FetchIsPoll | src/rudp.c:354-384 | fetching a message is what the receiver's polls, one socket event each, come to |
| RudpEndpoint.ReceiveFlipsOnce | src/rudp.c:166-243 | a whole receive flips the expected bit of the peer whose message it returns and no other bit of a known peer |
| ReceiveRuns.ReceiveIsRun | src/rudp.c:166-243 | a whole receive, messages of any peers mixed, is a run of single receiver steps, discarded reads included, from idle to the first delivery, empty read or full peer table, with the same tables, socket events, datagrams, bits and payload |
| ReceiveTransport.ReceiveIsTransportRun | src/rudp.c:166-243 | with messages of one peer it is a run of the receiver the transport theorems speak of, ended by a read that finds nothing exactly when it returns nothing |
| ReceiveLaws.HandsOverMessage | src/rudp.c:187-193 | the payload returned is that of a message of that sender, parked or come in, with the bit expected when the call began |
| ReplyLaws.ReplyAcknowledges | src/rudp.c:201-232 | a message is acknowledged at once and after each wait but the last, three times at most; the reply ends with its ACK_ACK, parked or come in, or with the third wait |
| SendLaws.SendTransmits | src/rudp.c:109-155 | a send transmits once and again after each wait that runs out, exactly `limit` times when it gives up; it succeeds if and only if the ACK comes before, and answers it three times |
| SendLaws.SendPurges | src/rudp.c:106-107 | no answer of the peer that was parked before a send stays parked |
| WaitLaws.ListenLaw | src/rudp.c:386-449 | a wait ends with the first frame it is for or time-out; all frames before are parked and the messages acknowledged in order while there is room |
| WaitLaws.FetchLaw | src/rudp.c:354-384 | a read takes the first message that has come, and parks the frames before it while there is room |
| RudpEndpoint.Endpoint.WaitForFrame | src/rudp.c:386-449 | the loop performs `WaitFor`: parked frame first, early ACK for messages, all else parked |
| RudpEndpoint.Endpoint.SendUntilAcknowledged | src/rudp.c:109-155 | the retry loop ends where the sender's steps end, with the bit flipped exactly on delivery |
| RudpEndpoint.Endpoint.SendTo | src/rudp.c:81-160 | purge, retry loop, and the peer's bit flipped exactly when acknowledged; untouched when the peer table is full |
| RudpEndpoint.Endpoint.ReceiveMessageFrame | src/rudp.c:354-384 | performs `Fetch` |
| RudpEndpoint.Endpoint.ReplyTo | src/rudp.c:201-232 | the acknowledging loop ends where the receiver's steps end |
| RudpEndpoint.Endpoint.RecvFrom | src/rudp.c:166-243 | performs `Receive` and always returns |
| TransportSteps.AckIsSound | src/rudp.c:113-144 | an ACK that ends the wait is for the open epoch, which has been accepted |
| TransportSteps.StepKeepsInv | src/rudp.c:81-243 | every orderly step of sender, receiver and channels keeps the transport invariant |
| TransportTheorems.TransportSafety | src/rudp.c:102-241 | in every orderly run deliveries follow the epochs, one payload of each and at most one of the open one; a closed epoch is delivered or held, and at rest delivered |
| TransportTheorems.AcceptedIsHeld | src/rudp.c:433-437 | whatever has been acknowledged is delivered, in hand or parked |
| TransportTheorems.AckSoundness | src/rudp.c:106-144 | the sender's bit flips only on an ACK read from the socket, and only when the receiver has delivered or holds a payload of this epoch |
| TransportSends.UnlimitedSend | src/rudp.c:109-144 | an unlimited send whose epoch is settled on its payload never gives up, and that payload is what the epoch delivers, once |
| TransportSends.UnlimitedSendExact | src/rudp.c:134-138 | whatever happens the epoch delivers this payload or nothing if and only if it is settled on it when the send begins |
| TransportSends.FreshEpochSettles | src/rudp.c:148-157 | with no send abandoned since the last acknowledged one every payload is settled |
| TransportSends.TooLate | src/rudp.c:190-199 | once the open epoch has delivered, nothing else sent in it is delivered for it |
| TransportShared.SendAfterAcceptedOneCanBeLost | src/rudp.c:134-138 | whenever the open epoch has delivered a payload its sender gave up on, the next send can be acknowledged and lost |
| TransportShared.SharedEpochLosesToken | src/rudp.c:134-138 | the orderly run from the start in which a token is lost so |
| TransportTheorems.OrderlyIsExact | src/rudp.c:433-438 | a step keeps the transport invariant if and only if it is orderly |
| TransportEarly.FreshWhileReplying | src/rudp.c:433-438 | while replying, a message read is fresh exactly when its bit differs from the one in hand |
| TransportEarly.FreshWhileParked | src/rudp.c:433-438 | with a message parked, exactly when its bit differs from the parked one's |
| TransportEarly.OrderlyByBits | src/rudp.c:433-438 | the hypothesis is a check of the receiver's own mode, table and bits |
| TransportEarly.ExtraReadExact | src/rudp.c:239-241 | the extra read throws the last expected message away exactly when it takes a frame with the expected bit and no other copy is parked |
| TransportEarly.EarlyAckExact | src/rudp.c:203-241 | a fresh message acknowledged during a reply to a duplicate is, after the extra read, neither delivered nor parked under exactly that condition, however the run goes on |
| TransportEarly.EarlyAckIsLost | src/rudp.c:203-241 | with nothing parked before and nothing heard after, it is always lost, and the guarantee fails once its sender has read the acknowledgement |
| TransportExact.FalseClose | src/rudp.c:203-206 | a stale ACK behind the one that closes an epoch closes the next epoch too |
| TransportExact.TwoParkedFoolSender | src/rudp.c:433-438 | a second fresh message parked while idle, even with the slots in order, lets an epoch close with nothing of it accepted |
| TransportExact.GuaranteeIsExact | src/rudp.c:239-241 | after a step the delivery guarantee holds in every orderly continuation if and only if the step is orderly or spared |
| TransportOverrun.OverrunLosesMessage | src/rudp.c:239-241 | a run from the start, orderly but for one wait, in which the extra read throws away a message whose sender was told it arrived |

## Left out

- Sockets, `select`, DNS, interfaces, FIFO reads, the environment, logging, `sleep` and `malloc`: they are inputs or absent, and calls do not fail.
- Byte order, structure layout, length checks and payload size limits: messages are typed values; frames shorter than a header do not occur.
- Endpoint addresses as bytes: `Addr` stands for what `addr_equal` compares.
- RingNodeClass.RingNode.SendFailed: is not a step of the ring's runs, because with unlimited attempts the send of the token fails only when a system call does or the peer table is full (`src/rudp.c:91-95`), and both are assumed not to happen.
- RudpEndpoint.Endpoint.SendTo: reports `Blocked` when the script of socket events ends during the wait, because the program would wait on.
- TransportTheorems.TransportSafety: states two peers and one direction over channels that keep order; it does not model frames of other peers in the same parked table, and an alternating bit cannot bear reordering.
- Timers.SleepsNoLonger: states the whole seconds only; `src/ring.c:417-420` leaves the microseconds unset when no deadline is armed.
- DeadEnd.JoinCanComplete: says when a join can complete, not that it will: until the coordinator has heard both neighbours the dead end stays possible (`DeadEndAhead`).
- Delivery.AttachedIsDelivered: speaks of attached messages only, since a second input read while the first waits overwrites it (`src/ring.c:290-298`).
- That an ACK_ACK means the sender has this ACK: false, since parked ones of earlier messages match; nothing here relies on it.
- `join_fsm_handle_ack_broadcast` has no caller; broadcast targets, the command line, the writer and the process start-up would add only easy members.
