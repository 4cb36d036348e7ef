# A verified model of gcluster's session layer

Nodes of a cluster keep one session with each other over one TCP connection. This project models how the
`net` package establishes, publishes, uses and closes such sessions, and proves what its design promises.
Everything is in Dafny; `dafny verify dfyconfig.toml` checks it all.

| file | what it models |
|---|---|
| `establish.dfy` | one attempt in both directions: `establishing`, `establishment`, the arms of `establishEnd` |
| `two_nodes.dfy`, `two_nodes_runs.dfy` | two nodes that may dial each other at once, over FIFO connections: agreement, progress, which connection is kept |
| `node.dfy` | one node as a step machine: any number of remotes, goroutines, establishments, failures and closes |
| `node_inv.dfy`, `node_theorems.dfy` | what every step of it keeps, and what follows for sessions and ends |
| `node_rest.dfy`, `node_hung.dfy` | which goroutines finish, and that `Close` does; which hang, and when for ever |
| `node_outcome.dfy`, `node_failures.dfy` | what an establishment comes to: its connection or its error; that it never dials once dialed |
| `node_conns.dfy`, `node_owners.dfy`, `node_leak.dfy` | where every connection is; which ones leak |
| `node_connect.dfy`, `node_answers.dfy`, `node_incoming.dfy` | what `Connect` and incoming connections are answered, and why |
| `node_stale.dfy`, `node_closed.dfy`, `node_filed.dfy` | when `Connect` returns a closed session; when one stays in the session map |
| `service.dfy` | the service's own objects: state gate, session map, establishment map; each method follows a run of `node.dfy` |
| `wakeup.dfy`, `session_atomics.dfy` | the send queue's wake-up protocol, up to the bytes on the wire; the compare-and-swap loops |
| `session_config.dfy`, `keep_alive.dfy` | `SessionConfig.init`; the heartbeat arithmetic that rests on it |
| `packets.dfy`, `session_io.dfy` | frames, and their way through bounded batch buffers |
| `timer_order.dfy`, `timer_heap.dfy` | the timer order, `TimerHeap` on an indexed heap |
| `timer_catchup.dfy`, `timer_script.dfy` | what one `update` fires; the heap under calls of all kinds in any order |
| `wrappers.dfy`, `node_ids.dfy` | an option type and compare-and-delete; node ids and their order |

How concurrency is modelled: every critical section is one step and so is every I/O call, whose outcome is
free. A run is a list of labels; the theorems quantify over all runs. Objects the program changes in place
are classes; where goroutines interleave, the same transitions act on values so that runs can be quantified
over, and the classes are proved to follow those values (`Establishment` follows `Est`; `Service` and
`SessionMap` follow `Node`; `TimerHeap` follows a map of timers; `Heart` follows `Clock`).

What the proofs brought out about the code:

- The comment on establishing (net/service_establish.go:13-15) says that of two simultaneous attempts the one
  that succeeds first is kept. That is not what the code does: `FirstToSucceedMayLose` shows a run in which a
  connection succeeds at both its ends before the other does at either, and is dropped. Nor does the dial that
  started first always win: `LaterDialMayWin`. At the moment of the first success it can be told whether it will be
  kept (`FirstToSucceedIsKeptExactlyWhen`): if its dialer has ended, or the other node has dialed later, the smaller
  node id breaking ties; it is enough to look at the dialer (`SuccessIsKeptExactlyWhen`). In hindsight
  (`WhichIsKept`), a dial that went through beats one that was refused, and of two the earlier wins.
- Two of the early returns that would leave a connection open are unreachable: the passive "already
  established" exit (net/service_establish.go:341-347) and the refusal of `startActiveHandshake` (184-187).
  See `PassiveNeverExitsEarly` and `NoTransitionIsRefused`.
- The active "already established" exit (143-149) is reachable, and it is the only way in which an ended
  establishment stays in the map. It then stays for ever, no session is published for that remote again, and every
  later call of `Connect` for it answers with the session recorded then, live or not, or with ServiceClosed once
  the service has been closed (`StaleEntryAnswers`).
- "`Connect` never returns a session closed before the call" is false; `ClosedSessionReturnedExactlyWhen` says when:
  the service runs, and the remote's entry has ended and stayed with that session, or is being ended by a goroutine
  past its last look at it, or by a dialer exiting early with it.
- The same exit can leak a connection: one accepted meanwhile, whose handshake then goes through, stays open for
  ever with nobody to close it. `LeakedExactlyIfStranded` says that this is the only way, `ConnectionMayLeak` shows a run.
- A session that closes completely between the two locks of `establishEndCreateSession` is filed all the same and stays
  in the session map, where lookups pass over it, until another is published for its remote or the service closes
  (net/service_establish.go:565-580; `ClosedIsUnfiledUnless`, `DeadStaysFiled`, `DeadSessionMayBeFiled`).
- A configuration with a read-write timeout of two nanoseconds and no tick interval is accepted, with a tick
  interval of zero, which `StartTimer` refuses by panicking (net/timer_heap.go:119-121).
- `closeBaseLocked` called with the write lock held leaves it locked exactly when another closer has won
  (net/session.go:242-244). When that happens before `establishEnd` takes the lock (net/service_establish.go:565), it
  waits for ever with the establishment's mutex, and so do all who wait for the establishment or come to it later.
  `NobodyElseIsLeftBehind` and `EveryCallFinishes` say that a session's write lock is the only thing a call can hang
  on, `ForEverExactlyWhenLeftBehind` and `HangsForEver` when it is for ever, `LaterCallsHang` what becomes of later
  calls, and `CallsMayHang` shows such a run.
- A flush in the middle of a fragment forgets the batch start time, so the rest of that fragment counts as
  overdue and is flushed at once: whatever does not fit the buffer is never held back (`WriteFull`). No byte is lost.
- A payload whose length is a multiple of 2^32 would be framed as empty; the limit on packets
  (net/session.go:69-71, 329-331) keeps such payloads away.

## Model

| member | source | states |
|---|---|---|
| TwoNodes.Agreement | net/service_establish.go:472-548 | two nodes with distinct ids: under every interleaving and all start times, once both hold a session it is over the same connection, whose dialer is the active end and the other not, and which neither has closed |
| TwoNodes.Progress | net/service_establish.go:182-286 | wherever no goroutine can go on and some node has dialed, both nodes have ended with a session: no mutual refusal, no mutual waiting |
| TwoNodes.SettledWithinBound | net/service_establish.go:18-41 | no schedule takes more than 84 effective steps, and where it stops one call of `Connect` at either node has led both to keep the same connection |
| TwoNodes.StepDecreases | net/service_establish.go:336-470 | every step that changes anything lowers the measure over goroutine positions and undelivered messages |
| TwoNodes.StepInv | net/service_establish.go:288-470 | what every protocol step keeps for both nodes and both connections at once |
| TwoNodes.NoMutualRefusal | net/service_establish.go:697-712 | when a node's dial has been refused, the connection dialed to it has been accepted all the way |
| TwoNodes.MaybeEndInv | net/service_establish.go:472-548 | the decision taken by the last finisher closes only the other connection and settles the node as the invariant demands |
| TwoNodes.AgreementOfInv | net/service_establish.go:862-876 | mirrored start times and the id tie-break make two independent decisions pick one connection |
| TwoNodes.WhichIsKept | net/service_establish.go:472-548 | for every run in which both hold a session: connection 0 is kept if and only if node 0's dial went through and, should node 1's have too, started earlier, or at the same time with the smaller id |
| TwoNodes.SuccessIsKeptExactlyWhen | net/service_establish.go:484-523 | for every reachable state in which a dial has succeeded and every continuation: it is kept if and only if its node has not taken up the other's dial, or that one started later |
| TwoNodes.FirstToSucceedIsKeptExactlyWhen | net/service_establish.go:13-15 | for every reachable state in which one connection has succeeded at both ends and the other at neither, and every continuation: it is kept if and only if its dialer has ended, or the other node has dialed, and later |
| TwoNodesRuns.FirstToSucceedMayLose | net/service_establish.go:13-15 | a run in which the first connection to succeed, at both its ends, is dropped by both nodes |
| TwoNodesRuns.LaterDialMayWin | net/service_establish.go:92-99 | a run in which the later dial is kept, the earlier one having been refused |
| TwoNodes.OnceDialedNeverDials | net/service_establish.go:697-712 | a node that has been dialed before it dialed never dials, over every run, and the session both come to have is over the other's connection |
| TwoNodes.OtherIsClosed | net/service_establish.go:498-513 | where it stops, of two connections dialed both nodes have closed the one not kept |
| TwoNodes.SecondLookFindsNothing | net/service_establish.go:143-149 | between two such nodes, with no session closing, the second look for a session finds none |
| NodeIds.LessIsTotal | net/service_establish.go:499 | of two distinct node ids exactly one is smaller, so the tie-break favours exactly one end |
| NodeIds.LessIsLexicographic | net/service_establish.go:499 | one id is smaller than another if and only if it is a proper prefix of it or has the lesser character at the first place where they differ |
| Establish.DecideTotal | net/service_establish.go:484-538 | with no direction under way the decision misses the default arm, yields exactly one of connection and error, keeps a connection exactly when one succeeded and drops one exactly when both did |
| Establish.EarlierWins | net/service_establish.go:862-876 | of two directions that both succeeded, or both failed, the one started earlier decides, ties by node id; else the one that succeeded |
| Establish.ErrorIsAFailures | net/service_establish.go:515-538 | an error that ends an establishment is that of a direction that failed, the only one if one alone was started |
| Establish.StartsExactlyWhen | net/service_establish.go:697-712 | a direction starts if and only if the establishment has not ended, it has not been started, and, for a dial, the other end has not dialed either; with the time given; a refusal changes neither direction |
| Establish.NothingBeginsOnceEnded | net/service_establish.go:737-742 | after the end no direction starts and no dial reaches the handshake |
| Establish.Establishing.ChangeState | net/service_establish.go:603-610 | a state only grows; the result tells whether it did |
| Establish.Establishing.Success | net/service_establish.go:632-639 | succeeds at most once, before which nothing is recorded |
| Establish.Establishing.Fail | net/service_establish.go:641-648 | fails at most once, recording the error |
| Establish.Establishment.StartActive | net/service_establish.go:697-712 | the mutable object follows the value transition: refused at the end or once dialed, creates the attempt on demand |
| Establish.Establishment.StartPassive | net/service_establish.go:786-802 | likewise for an incoming connection |
| Establish.Establishment.StartActiveHandshake | net/service_establish.go:737-742 | follows the value transition |
| Establish.Establishment.ActiveAboutSuccess | net/service_establish.go:744-749 | follows the value transition |
| Establish.Establishment.Succeed | net/service_establish.go:751-756 | follows the value transition, for either direction |
| Establish.Establishment.Fail | net/service_establish.go:758-763 | follows the value transition, for either direction |
| Establish.Establishment.End | net/service_establish.go:682-690 | the first end is recorded and signalled, later ones change nothing |
| Establish.Establishment.ChooseEnd | net/service_establish.go:484-538 | the arms, over the mutable objects, compute the decision DecideTotal is about |
| NodeInvariant.StepInv | net/service_establish.go:18-584 | the inductive invariant of a node, kept by every step of every goroutine, of `Close` and of closing sessions |
| NodeInvariant.RunInv | net/service_establish.go:18-584 | hence it holds over all runs |
| NodeInvariant.FinishDecides | net/service_establish.go:288-333 | the last direction to finish enters `establishEnd` with a decision that is not the default arm's |
| NodeInvariant.FinishWaits | net/service_establish.go:302-304 | a direction that finishes first leaves the end to the other, which is still in flight |
| NodeInvariant.UnmapperInv | net/service_establish.go:551-582 | publishing under the service's write lock, or giving up, and taking the establishment off the map keeps the invariant |
| NodeInvariant.GetOrCreateInv | net/service_establish.go:119-135 | fetching or creating an establishment keeps the invariant and yields one for the remote asked for |
| NodeInvariant.ShutdownStepInv | net/net.go:67-73 | each step of ranging over the session map keeps it |
| NodeInvariant.CloseStepInv | net/session.go:237-271 | each stage of closing a session keeps it |
| NodeTheorems.OneLiveSession | net/service.go:290-304 | at most one published session per remote is live, and it is the one in the session map: closing an old one never evicts its replacement |
| NodeTheorems.ClosedBeforeNext | net/service_establish.go:557-584 | every session published for a remote is closed before the next one for it is published |
| NodeTheorems.PublishedBy | net/service_establish.go:571-579 | nothing but the publishing critical section of a running service publishes |
| NodeTheorems.ShutdownIsComplete | net/service.go:259-278 | once `Close` has returned every session ever published is closed |
| NodeTheorems.NothingPublishedOnceClosed | net/service_establish.go:571-576 | from the state switch on, nothing is published any more |
| NodeTheorems.BuiltIsPublishedOrClosed | net/service_establish.go:557-584 | a session built by an establishment that has ended is published or closed: never handed to waiters otherwise |
| NodeTheorems.LastFinisherEnds | net/service_establish.go:289-333 | an establishment started and not ended has a goroutine running or ending it that can take a step, if and only if it is not held up: its mutex with a goroutine waiting for a session's write lock |
| NodeRest.NobodyElseIsLeftBehind | net/service_establish.go:692-695 | in every reachable state in which no goroutine can move, a call of `Connect` has not returned, or an incoming connection has not been served, if and only if its establishment is held up so |
| NodeRest.OwnStepsAreFew | net/service_establish.go:18-116 | over any run, whatever the others do, a goroutine moves at most 31 times |
| NodeRest.EveryCallFinishes | net/service_establish.go:18-41 | from any reachable state the goroutines take at most 31 steps each, in any order, and can come to rest; when they do, all have finished but those kept waiting by a session's write lock |
| NodeHung.ForEverExactlyWhenLeftBehind | net/session.go:237-254 | an establishment that is held up is so on every continuation if and only if the lock has been left behind by a closer that lost |
| NodeHung.HangsForEver | net/service_establish.go:565 | then everybody at work on the establishment or waiting for it stays where it is, on every continuation |
| NodeHung.LaterCallsHang | net/service_establish.go:18-41 | and no later call of `Connect` for that remote ever gets a session: if it returns at all, then with ServiceClosed from a closed service |
| NodeHung.CallsMayHang | net/session_packet_handler.go:43-64 | a run in which a close request's handler loses to another closer and two calls of `Connect` hang |
| NodeHung.LeftBehindExactlyByLosers | net/session_packet_handler.go:43-64 | over every step of anybody: a session's lock is newly left behind if and only if a close request's handler that has it finds the session closed; a handler takes it of a live session only, and otherwise gives it back |
| NodeHung.PublishedUnderItsLock | net/service_establish.go:565-580 | no session is published while a close request's handler has its lock |
| NodeRest.CloseReturns | net/service.go:259-278 | `Close` takes at most three steps per session filed and one more, whatever others do meanwhile, and at every moment it is done or can take one |
| NodeRest.CloserDescends | net/net.go:67-73 | each of its steps leaves it less to do |
| NodeTheorems.ThreadStepEffect | net/service_establish.go:138-470 | a goroutine's steps lead strictly downwards, at most 31 of them, and never change a recorded end |
| NodeTheorems.EndIsWellFormed | net/service_establish.go:682-690 | the end channel is closed once, exactly when the state is End; exactly one of a session published for that remote and an error is recorded |
| NodeTheorems.EndIsFinal | net/service_establish.go:692-695 | session and error never change after the end, so every waiter sees the same |
| NodeTheorems.PassiveNeverExitsEarly | net/service_establish.go:341-347 | the passive "already established" exit is unreachable |
| NodeTheorems.NoTransitionIsRefused | net/service_establish.go:184-187 | no transition attempted after the start of a direction is ever refused |
| NodeOutcome.OnceDialedNeverDials | net/service_establish.go:697-712 | an establishment dialed before it dialed never has a dial, on any continuation, and no goroutine is ever at work on one |
| NodeOutcome.EndsWithItsOwnError | net/service_establish.go:515-554 | the error an establishment ends with: if no direction succeeded, that of one that failed, the only one, or of two the one started first, ties by node id; else one of building the session |
| NodeOutcome.BuiltOnTheRightConnection | net/service_establish.go:484-513 | a session is over the connection that went through, of two that did the one started first, ties by node id, and is the active end exactly if this node dialed it |
| NodeFailures.StageIsRecorded | net/service_establish.go:196-286 | which error a failing I/O call leaves with its direction, stage by stage, dialing and accepting, and that the connection is closed |
| NodeFailures.FailedDialIsRecorded | net/service_establish.go:164-176 | a failed dial leaves ErrConnectRemote |
| NodeFailures.FailedStartIsRecorded | net/service_establish.go:559-564 | a session that does not start ends the establishment with its error, off the map, the connection closed |
| NodeFailures.ClosedSessionIsRecorded | net/service_establish.go:565-568 | so does one closed before it could be locked, nothing published |
| NodeFailures.ClosedServiceIsRecorded | net/service_establish.go:571-576 | and a service closed before it could publish: the session is closed too |
| NodeConnections.ConnectionsAreAccountedFor | net/service_establish.go:310-315 | every open connection handed to an ended establishment belongs to a session it built, which if live is the published one; or, after an early exit only, is still with its acceptor or stranded |
| NodeConnections.StepConns | net/service_establish.go:447-452 | at every moment each such connection is closed, carried by its goroutine, waiting for the decision, chosen, owned by a session, or stranded by the early exit after its own success |
| NodeConnections.FinishSettles | net/service_establish.go:288-333 | the end of a direction loses neither its own connection nor the one that waited |
| NodeOwnership.WhatSurvives | net/service_establish.go:138-161 | of the connections handed to any ended establishment exactly those are open that a session not yet closed at its core owns, the acceptor still carries, or the early exit has stranded; the three exclude one another |
| NodeOwnership.LeakedExactlyIfStranded | net/service_establish.go:143-149 | a connection handed to an ended establishment is open with no session and no goroutine to it if and only if the dialer exited early and the acceptor succeeded with it |
| NodeLeak.ConnectionMayLeak | net/service_establish.go:426-437 | a run that leaves one, with every goroutine finished |
| NodeLeak.StrandedForEver | net/service_establish.go:431-433 | such a connection is never closed, whatever follows |
| NodeOwnership.ExactlyOneSurvives | net/service_establish.go:472-548 | of the connections handed to an establishment that ended without early exit, one is open if and only if a session it built that has not closed its core owns it |
| NodeOwnership.AtMostOneSession | net/service_establish.go:557-584 | an establishment builds at most one session |
| NodeOwnership.SessionKeepsItsConnection | net/service_establish.go:498-559 | a session that has not closed its core has a connection of its own: open, handed to its establishment, shared with no other session, and dialed by this node exactly if it is the active end |
| NodeOwnership.TalksOnAnOpenConnection | net/service_establish.go:182-286 | a handshake in progress runs on an open connection handed to its establishment and opened for its direction: nobody else closes it |
| NodeOwnership.StepOwners | net/service_establish.go:288-584 | every step keeps: what is in use is open and used once |
| NodeConnect.ConnectReturnsItsOwn | net/service_establish.go:18-41 | a call of `Connect`, whatever happens around it, returns a session published for the remote asked for and no error, or an error and no session |
| NodeAnswers.ConnectReturnsTheLiveOne | net/service_establish.go:18-22 | in every reachable state with the service running and a live session published for the remote, a call returns that session at its first step and changes nothing |
| NodeAnswers.ErrorOnlyWithoutLiveSession | net/service_establish.go:35-40 | over every run: when a call comes to return an error while the service runs, no live session is published for its remote |
| NodeAnswers.ConnectFailsForAReason | net/service_establish.go:31-40 | the error returned is the one an establishment with that remote ended with, or says that the service is not running |
| NodeAnswers.ConnectNeedsTheService | net/service_establish.go:24-26 | a call that finds the service not running is told whether it has not been started or has been closed, and leaves nothing behind |
| NodeIncoming.TakenUpExactlyWithoutLiveSession | net/service_establish.go:86-103 | an incoming connection is led to its remote's establishment if and only if the service runs, it is not from this node itself, and no live session is published for it; else it is closed |
| NodeIncoming.AcceptedExactlyIfFirst | net/service_establish.go:786-802 | there it is accepted, with the time its dialer sent, if and only if the establishment has neither ended nor accepted one; else it is closed |
| NodeIncoming.DialsExactlyIfFirst | net/service_establish.go:697-712 | a call dials, from the time its clock shows, if and only if the establishment has not ended and nobody has dialed either way; else it waits |
| NodeIncoming.ApplyIsTakenAtItsWord | net/service_establish.go:65-103 | the node id and the time in the request are those that count |
| NodeIncoming.RefusedIsClosed | net/service_establish.go:65-116 | an open connection not handed to an establishment is still with the goroutine it came to |
| NodeIncoming.NeverWithItself | net/service_establish.go:92-99 | whatever node ids are claimed, no establishment is with the node itself |
| NodeFiled.ClosedIsUnfiledUnless | net/service_establish.go:565-580 | a session published is off the map once through with closing, on every continuation, if and only if it was not so already when published |
| NodeFiled.DeadStaysFiled | net/net.go:59-73 | such a session stays on the map through every step but the publication of another for its remote and the service's closing |
| NodeFiled.DeadSessionMayBeFiled | net/service.go:303-305 | a run in which a session through with closing is filed |
| NodeStaleEntry.StaysExactlyAfterEarlyExit | net/service_establish.go:143-149 | an ended establishment stays in the map if and only if its dialer took the early exit |
| NodeStaleEntry.StaleForEver | net/service_establish.go:119-123 | such an entry never goes away and no session is published for its remote again |
| NodeStaleEntry.ConnectMayReturnClosedSession | net/service_establish.go:24-33 | a concrete run in which `Connect` returns a closed session and no error |
| NodeClosedSession.ClosedSessionReturnedExactlyWhen | net/service_establish.go:18-41 | for every reachable state and closed session: some continuation of a call returns it if and only if the service runs and the remote's entry hands it out: ended and left with it, or being ended with it by a goroutine past its last look, or by a dialer about to exit early with it |
| NodeClosedSession.StaleEntryAnswers | net/service_establish.go:119-123 | once an early exit has left its entry behind, every call for that remote, on every continuation, answers with the session recorded then or with ServiceClosed |
| NodeClosedSession.StepRecords | net/service_establish.go:141-149 | while an exit with a session is pending or has been recorded in an entry, no other session is found for that remote |
| ServiceObjects.SessionMap.CloseSession | net/session.go:237-271 | leaves the objects as the model's run of closing, core closing and unpublishing leaves its sessions |
| ServiceObjects.SessionMap.Close | net/net.go:67-73 | in whatever order it ranges, as after a run of the model's closer: everything filed is closed, nothing else touched, the map empty |
| ServiceObjects.Service.Start | net/service.go:237-256 | works from the initial state only, and only with a listener; then takes the model's step |
| ServiceObjects.Service.Close | net/service.go:259-278 | works once, from the running state, and follows a run of the model that closes the service and every session filed |
| ServiceObjects.Service.GetSession | net/service.go:281-295 | finds exactly the session the model's lookup finds, and refreshes it alone |
| ServiceObjects.Service.GetOrCreateEstablishment | net/service_establish.go:119-135 | returns and files exactly the establishment the model does, a fresh one if it is new |
| ServiceObjects.Service.Publish | net/service_establish.go:565-583 | session, maps and establishment come to what the model's goroutine brings them to in its run from there: published and ended with the session, or closed and ended with the error |
| ServiceObjects.RangeRun | net/net.go:67-73 | the model's closer has such a run from every state in which it has begun: everything filed is closed and nothing else changes |
| ServiceObjects.ConcludingRun | net/service_establish.go:557-584 | the model's goroutine has such a run: filed exactly if session and service both run, else closed; off the establishment map; ended with session or error |
| Wakeup.NoLostWakeup | net/session.go:393-416 | a parked consumer facing a non-empty queue has a token or a sender about to leave one; token or close gets it going |
| Wakeup.SenderWakes | net/session.go:352-357 | that sender puts the token within two steps of its own |
| Wakeup.RestMeansDelivered | net/session.go:342-360 | at rest everything accepted has been delivered |
| Wakeup.InOrder | net/session.go:393-407 | packets leave in enqueue order, none lost, none twice |
| Wakeup.MoreIsKept | net/session.go:398 | having answered `more`, the consumer finds a packet at once and does not park |
| Wakeup.MoreExactlyWhenQueued | net/session.go:393-407 | it answers `more` if and only if more has been accepted than delivered, what it answers with included |
| Wakeup.AcceptedExactlyWhenRoom | net/session.go:342-346 | a packet is accepted if and only if fewer than the capacity lie between those accepted and those taken; a closed queue may refuse |
| Wakeup.OnlyTheWaitingAreWoken | net/session.go:352-357 | a busy consumer is sent no token, and it stops for a close only |
| Wakeup.ConsumerDoesNotSpin | net/session.go:393-416 | left to itself it comes to wait or to return within twelve steps: every wake-up costs a token |
| Wakeup.CloseReleases | net/session.go:410-415 | a close stops a parked consumer unless a token comes first |
| Wakeup.AllCanBeWritten | net/session.go:393-416 | from every reachable state of an open session all accepted packets can still be delivered and written |
| Wakeup.NoStrandedBytes | net/session_io.go:163-167 | over every run, bytes held back with the consumer outside or at its first try mean a non-empty queue; about to park, parked or stopped, there are none |
| Wakeup.RestMeansWritten | net/session.go:393-416 | what is on the wire is always a beginning of the frames of everything accepted, and all of them at rest |
| Wakeup.ReaderGetsWhatWasAccepted | net/session_io.go:64-80 | from sender to reader: the other end reads a beginning of what was accepted, in order, whatever the interleaving, batching and failures; all of it at rest |
| SessionAtomics.ActiveTimeIsMonotone | net/session.go:377-385 | `lastActiveTime` never decreases and is at least every finished refresher's reading |
| SessionAtomics.ActiveTimeWasRead | net/session.go:377-385 | nor does it run ahead: it is never later than every clock reading taken |
| SessionAtomics.OneCloserWins | net/session.go:237-248 | of any number of concurrent closers exactly one runs the close body |
| SessionAtomics.LockIsLeftExactlyByLosers | net/session.go:242-254 | a closer that came with the write lock leaves it locked if and only if it lost |
| SessionAtomics.LockCanBeLeftBehind | net/session.go:242-244 | a concrete run in which the lock stays taken |
| SessionConfig.Config.Init | net/session.go:60-114 | accepts exactly the acceptable settings and completes them; a refused one may be completed in part |
| SessionConfig.AcceptedBounds | net/session.go:93-111 | heartbeat timeout plus tick interval is at most 5/6 of the read-write timeout; initialising twice changes nothing |
| SessionConfig.AcceptedExactlyWhen | net/session.go:60-114 | acceptance in terms of the completed settings: three ticks and two heartbeats fit the read-write timeout, ticks being the more frequent, and inactivity is longer than it |
| SessionConfig.Defaults | net/session.go:60-99 | what is given stays, and what the defaults are |
| SessionConfig.TickIntervalIsPositiveUnless | net/session.go:93-97 | an accepted tick interval is positive if and only if it is not defaulted from a timeout of two nanoseconds |
| SessionConfig.ZeroTickIntervalIsAccepted | net/session.go:93-107 | an accepted setting whose tick interval is zero |
| KeepAlive.Heart.RefreshActiveTime | net/session.go:377-385 | without a competitor, follows the clock's refresh |
| KeepAlive.Heart.TickActiveEnd | net/session.go:287-306 | sends exactly when due, and follows the clock's tick |
| KeepAlive.KeepAliveBound | net/session.go:287-306 | for any mix of refreshes and ticks, the time since the latest refresh or attempt stays below heartbeat timeout plus tick interval, below 5/6 of the read-write timeout |
| KeepAlive.AttemptsAreApart | net/session.go:294-298 | two attempts are never less than the heartbeat timeout apart |
| KeepAlive.OnRecordExactlyWhenSilent | net/session.go:287-306 | after a tick a heartbeat is remembered if and only if there has been no activity for the timeout |
| Packets.BigEndianRoundTrip | net/packet.go:20-26 | the length field reads back what was put |
| Packets.HeadRoundTrip | net/packet.go:12-26 | so does the head; the type byte does for types below 128 |
| Packets.FramesOnTheWire | net/proto_type.go:16-21 | the bytes of each kind of frame, as any other implementation has to produce them |
| Packets.SetProtoType | net/packet.go:16-18 | changes the type byte and no other |
| Packets.SetPayloadLen | net/packet.go:24-26 | changes the length field and nothing else |
| Packets.FrameRoundTrip | net/session_io.go:173-222 | a frame reads back as its packet, whatever follows, if and only if the packet fits the reader's limit |
| Packets.ReadIsAFrame | net/session_io.go:64-80 | whatever is read was the frame of what it was read as, but for the spare byte, and within the limit |
| Packets.ParseIsStable | net/session_io.go:64-80 | more bytes never change what has already been read |
| Packets.ReadAllOfPart | net/session_io.go:64-80 | reading undoes writing; part of the bytes gives the first packets in order and nothing else |
| SessionIo.PacketReadWriter.WriteFromBuffer | net/session_io.go:83-95 | sets one deadline and fails if and only if the connection does; else the buffer is empty; no byte is lost or added |
| SessionIo.PacketReadWriter.PutOrFlush | net/session_io.go:103-122 | one round: all of the rest stays in the buffer if it can wait, or the buffer is flushed |
| SessionIo.PacketReadWriter.WriteFull | net/session_io.go:98-125 | terminates for every positive buffer size and fails if and only if the connection does; adds exactly the fragment to wire plus buffer; nothing is sent if the fragment fits, the batch has room and its time is not up, and otherwise everything is |
| SessionIo.PacketReadWriter.SessionWritePacket | net/session_io.go:128-170 | fails if and only if the connection does, adding some of the packet's frame, and else all of it, to wire plus buffer; with no packet following nothing stays behind, and with one following nothing is sent that can wait: the step the writer takes in the wake-up runs |
| SessionIo.PacketReadWriter.ReadFull | net/session_io.go:44-61 | fills the array with the next bytes of the stream exactly when there are enough |
| SessionIo.PacketReadWriter.SessionReadPacket | net/session_io.go:64-80 | returns and leaves what the frame format makes of the stream, however it is cut up |
| SessionIo.SendAll | net/session_io.go:128-170 | what is on the wire is a prefix of the frames, all of them unless the connection failed, which is the only way to fail |
| SessionIo.ReceiveAll | net/session_io.go:64-80 | reads all packets the stream holds |
| SessionIo.Transfer | net/session_io.go:44-222 | end to end, whatever the buffer sizes, batch limits and chunking: the reader gets the first packets in order and nothing else, and all of them unless the connection failed |
| TimerOrder.HeapLessOrders | net/timer_heap.go:22-28 | subtraction orders by expiry and id if and only if the difference fits 64 bits, as it does for all non-negative expiries |
| TimerOrder.HeapLessIsStrictTotal | net/timer_heap.go:22-28 | on such timers with distinct ids it is a strict total order |
| TimerOrder.ExpiryFitsOrIsDue | net/timer_heap.go:135 | an expiry is right if and only if it fits 64 bits, and otherwise wraps to one already due |
| TimerOrder.HeapLessCanCycle | net/timer_heap.go:22-28 | the comparison by itself, on arbitrary 64-bit keys, need not be transitive |
| TimerOrder.TopIsLeast | net/timer_heap.go:203 | the top of an ordered heap comes before every other timer |
| Timers.Timer.HeapLess | net/timer_heap.go:22-28 | compares by expiry, then id |
| Timers.TimerHeap.ResetSysTimer | net/timer_heap.go:86-89 | armed for the expiry given, no old tick left |
| Timers.TimerHeap.StopSysTimer | net/timer_heap.go:92-99 | disarmed, no old tick left |
| Timers.TimerHeap.GenTimerId | net/timer_heap.go:65-71 | an id never drawn, started, stopped or fired before |
| Timers.TimerHeap.AddTimer | net/timer_heap.go:74-77 | heap and map gain the same timer |
| Timers.TimerHeap.RemTimer | net/timer_heap.go:80-83 | heap and map lose the same timer, located by its index |
| Timers.TimerHeap.StartDrawn | net/timer_heap.go:138-152 | the critical section, in any order with other calls that drew ids: one timer more, system timer armed for the first |
| Timers.TimerHeap.StartTimer | net/timer_heap.go:118-153 | one timer more under a new id, everything else as before, system timer armed for the first |
| Timers.TimerHeap.StopTimer | net/timer_heap.go:156-185 | exactly that timer is gone and its id retired; if it was the first the system timer is armed for the next, or disarmed if there is none; else it is left alone |
| Timers.TimerHeap.UpdateOnce | net/timer_heap.go:195-218 | fires the first timer exactly if it has expired, never a retired one; leaves only with nothing due and the system timer armed |
| Timers.TimerHeap.Update | net/timer_heap.go:188-223 | terminates; every timer has fired exactly as often as due by the last reading, in order, never early, and stands at its next expiry without drift |
| TimerScript.Play | net/timer_heap.go:65-240 | for every sequence of draws, starts, stops, ticks and rounds of `update`, from whatever goroutines: the heap stays valid and answers each call as the timers running then demand, firing the first exactly if one is due, and with timers running no tick of the system timer is missed |
| TimerScript.NeverOnceOver | net/timer_heap.go:156-223 | in all such sequences a timer that was stopped, or has fired its one time, never fires again |
| TimerScript.FiresWhileRunning | net/timer_heap.go:195-218 | whatever fires was started before and not stopped since, and is due; a one-shot at the expiry it was started for |
| TimerCatchUp.ReachedStep | net/timer_heap.go:209-217 | one round keeps the count and place of every timer and the order of firings |
| TimerCatchUp.DueIsUnique | net/timer_heap.go:212-214 | the number of firings due is the one after which the next is not due and the last was |
| TimerCatchUp.ReachedAtLast | net/timer_heap.go:204-208 | with nothing left due, each timer has fired floor((N-e)/d)+1 times, one-shots once, and the rest stand where they should |
| TimerCatchUp.BacklogFalls | net/timer_heap.go:203-217 | each round takes exactly one firing off the backlog |
| TimerCatchUp.CompleteIsUnique | net/timer_heap.go:188-223 | which firings take place, and their order, depend on the timers and the last reading alone |
| TimerCatchUp.FiresInOrder | net/timer_heap.go:22-28 | firings come in the order of their expiries, those for the same one in the order in which the ids were drawn |

## Left out

- Sockets, dialing, listeners, deadlines and logging: free outcomes of the I/O steps instead.
- Protobuf encoding of the handshake: an abstract message (apply with its time, accepted, rejected, completed, acknowledged); token and node-id mismatches are failures of the step that reads them, and in the two-node model do not occur.
- In the two-node model `establishEnd` is one step of its node: it holds the establishment's mutex throughout, and sessions neither close nor fail there.
- gnet, the multi-producer queue, `FixedBuffer` and the gutils heap are not part of this repository; they appear as small contracts (a bounded queue, a bounded byte FIFO, a connection that moves bytes in pieces) and as an indexed binary heap proved from scratch.
- The send path and the compare-and-swap loops are step machines on values, not classes: their interleavings are the point.
- ServiceObjects.Service.Publish: does not model other goroutines between its statements, nor a session lock that a close request holds as it begins; NodeModel, whose uninterrupted run it follows, does.
- ServiceObjects.SessionMap.Close: does not model sessions published or closed by others while it ranges; NodeModel does.
- ServiceObjects.SessionMap.CloseSession: does not model competing closers, the queue and the ticker; SessionAtomics models the competition.
- KeepAlive.KeepAliveBound: does not bound silence on the wire, because receiving and `keepActive` refresh the same clock and an attempt may fail to send.
- Timers.TimerHeap.Update: does not model calls of `StartTimer` and `StopTimer` from callbacks between its rounds (TimerScript.Play does), nor a clock without an upper bound, under which the loop need not end.
- Timers.TimerHeap.StartTimer: does not model expiries beyond 64 bits (the year 2262; `ExpiryFitsOrIsDue` says what becomes of them) nor ids after 2^64 starts, nor its panics on a non-positive delay or a missing callback.
- Timers.TimerHeap.StartDrawn: does not model expiries beyond 64 bits either.
- Timers.TimerHeap.UpdateOnce: does not model a periodic timer whose next expiry does not fit 64 bits.
- TimerScript.Play: does not model expiries beyond 64 bits either, nor clock readings nearer to that than the longest delay.
- `TimerHeap.Stop`: `update` does not look at `stopped`, so the two must not race.
- The local session of a node with itself, which is published outside all of this and never closes.
- `startSessionTicker`, `stopSessionTicker` and the tick loop: they hand ticks on and do nothing once the service is closed.
- The handlers of heartbeat and close packets beyond the locking and closing of sessions, and the ping and pass flags: single branches on one byte. Whether a session is inactive is a free choice of the close request's handler.
- `BytesManager`: `GetBytes` is taken to return a slice of the length asked for.
- cluster.go, option.go, the center packages, service options and logging set-up: wiring that would only add easy members.
