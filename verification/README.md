# Verification model of coap-server

A Dafny model of the asynchronous CoAP server's state machines, with proofs about every
interleaving of their steps: observe registrations and their lifecycles (RFC 7641), reliable
transmission (sections 4.2, 4.4 and 4.8.2 of RFC 7252), the path index with its dispatch, and the
24-bit sequence numbers of notifications. `dafny verify dfyconfig.toml` checks all of it.

## How it is built

Each mutable table is modelled twice. A module of functions says what one critical section does to
the table as a value (`Registry`, the first half of `RetransmissionManager`, `Attachments`); a class
updates its fields in place as the source does, and its methods are proved to do exactly that to the
value they stand for (`ObserveHandler`, `RetransmissionManager`, `ObserversHolder`, `PathMatcher`,
`Observers`). Each asynchronous loop is a step function, and a method with the source's loop that is
proved to follow it for every script of the environment's choices (`SendLoop`, `NotificationLoop`).

The transition systems are made of those same functions, so what is proved about all runs is about
the tables and loops themselves:

- `SendSystem`: all sends of one manager, and the replies that arrive. `SendTheorems`,
  `UnreadReplies` and `SendTiming` hold the results.
- `ObserveSystem`: all observations of one resource: registrations (where the first of a path spawns
  its lifecycle task, then subscribes, then borrows its number and stores its sender, all while it
  holds the table's lock, which does not protect the channel), deregistrations, `on_active` returning, clean-up,
  `notify_change` split into increment and publish, `stay_active`, and every step of every
  notification loop, with `changed()` and `borrow()` apart. `ObserveInvariant` proves the invariant,
  `ObserveTheorems` and `RegistryTheorems` the results about registrations and updates, `ObserveOrder`, `ObserveNumbers` and
  `ObserveRepeats` those about the order of notifications and their numbers, `ObserveExamples` the counterexamples.
- `Server`: both together. An observation awaits its own sends; sends of other resources through the
  same manager interleave freely. `ServerTheorems` proves that every run projects to runs of the two
  systems, so their theorems hold inside the server, and what only holds of the combination.

A run is a sequence of actions, each enabled when it happens; `Reach` is the state it leads to. The
theorems quantify over all of them.

The primitives of tokio are assumed as follows. A watch channel holds a value and a version and counts
its receivers; it publishes only if there is one; a new receiver has seen the current version;
`changed` resolves on an unseen version, or when the sender is gone, and marks the version; `borrow`
marks nothing; `closed` resolves when there is no receiver. A one-shot fires at most once. What a lock
protects is one step. `select!` picks any ready branch. A timeout may expire at any moment while it is
waited for, so every order of replies and timeouts is covered; times add up the timeouts that ran out.
`on_active` and the request handlers are arbitrary, and do not panic; `on_active` reports through its
`Observers` only until it returns, since it gives that back when it does.

## Where the code does less than its comments

- A reply that arrives after its send gave up still finds the entry in the table, and the `unwrap` on a
  channel without receiver panics. `SendTheorems.PanicsOnLateReply` says exactly when,
  `SendTheorems.LateReplyExample` is such a run for every number of attempts,
  `SendTheorems.LateReplyByDefault` one under the server's own parameters.
- A send can return NoReply although the peer's Ack was accepted, when the last timeout and the reply
  are both ready: `UnreadReplies.UnreadExactly` says when, `UnreadReplies.UnreadAck` is such a run.
- The comment on `notify_change_for_path` promises that observers further down the path are reached.
  Only prefixes are: `ObserversHolder.OnlyAboveIsReached`, `ObserversHolder.DocumentedExampleFails`.
- Awaiting `stay_active` does not ensure that no observer is active when the lifecycle ends. It only
  ensures that those cut off subscribed later: `ObserveTheorems.IdleMeansNoObserver`,
  `ObserveExamples.StayActiveRace`. `ObserveTheorems.CutOffExactly` says exactly which are cut off.
- A change reported between the start of the first response and the subscription can be lost for
  good, whether the channel had another receiver to take it, dropped it, or was that of an earlier
  lifetime of the path. `ObserveTheorems.StaleOnlyFromTheWindow` shows that an observer that waits is
  behind the latest report on its path in exactly this case; `ObserveExamples.LostInTheWindow`,
  `ObserveExamples.LostUnheard` and `ObserveExamples.LostAcrossLifetimes` are such runs.
- Marking a version and borrowing its value are two steps, so two representations can carry one
  number, and a recipient takes the later for no newer: `ObserveRepeats.RepeatsExactly` says exactly
  when, `ObserveExamples.RepairedUnderOneNumber` is such a run.
- Overlapping calls of `notify_change` can make an observer's sequence numbers run backwards
  (`ObserveExamples.OverlapRunsBackwards`). `ObserveOrder.InOrderExactly` says exactly which runs put
  observers at that risk, `ObserveOrder.CallOrderExactly` exactly which publish does, and
  `ObserveOrder.SerialInCallOrder` that calls that do not overlap never do.
- The log line about a failed notification says that the observer is unregistered. Its loop stops, but
  its entry stays: in `ObserveTheorems.NoOrphan`, stored entries are those of all unsignalled
  observations, running or not.
- The timeout is doubled once more after the last attempt; a value that is never waited for can
  overflow: `SendTiming.OverflowNeeds`, `SendTiming.OverflowHappens`.
- Attaching two `Observers` with one key makes a later `detach` panic: `Attachments.DetachCondition`
  says when, `Attachments.DoubleAttachPanics` is such a run.

## Model

| member | source | states |
|---|---|---|
| ObserveTheorems.NoOrphan | coap-server/src/app/observe_handler.rs:100-190 | in every reachable state a running loop has its termination sender stored under its own path and key or has been signalled; the stored senders are exactly the unused ones, but for a registration that has not come to store its own; no sender is used twice |
| ObserveTheorems.OneLoopPerKey | coap-server/src/app/observe_handler.rs:146-157 | at most one unsignalled observation per path, peer and token, besides one whose registration has not come to replace it yet |
| ObserveTheorems.LifecycleExclusion | coap-server/src/app/observe_handler.rs:104-126 | a path has a table entry exactly while a lifecycle task of that path is between spawn and the end of its clean-up, and the entry is that task's |
| ObserveTheorems.OneLifecyclePerPath | coap-server/src/app/observable_resource.rs:22-24 | two lifecycle tasks of one path are never alive together, and the record is there when clean-up looks for it |
| ObserveInvariant.FinishFindsItsEntry | coap-server/src/app/observe_handler.rs:174-187 | clean-up always finds the entry of its own lifetime; the arm for a removed record is unreachable |
| ObserveTheorems.FinishSignalsItsOwn | coap-server/src/app/observe_handler.rs:171-181 | clean-up forgets the path and signals exactly the unsignalled observations of its lifetime, once each |
| RegistryTheorems.RegistrationByActions | coap-server/src/app/observe_handler.rs:103-150 | in every reachable state with the lock free, the actions of a registration can be taken and lead to the table that the registration operation gives: on a known path the lifetime, the channels and all other registrations stay, on an unknown one there is a new channel, and no signal changes but the replaced one |
| RegistryTheorems.RegistrationReplaces | coap-server/src/app/observe_handler.rs:146-147 | over all runs: a registration that stores its sender is then the one under its path and key; whoever was there is signalled, and nobody else |
| RegistryTheorems.DeregistrationExactly | coap-server/src/app/observe_handler.rs:151-159 | over all runs: a deregistration is possible whenever the lock is free, leaves nothing under the key, gives the observation that was there its one signal, and changes no other entry, signal or channel |
| RegistryTheorems.DeregisteredCanStop | coap-server/src/app/observe_handler.rs:163-169 | after it, a loop of that peer and token that waits can take its termination branch |
| ObserveTheorems.IdleMeansNoObserver | coap-server/src/app/observers.rs:135-137 | `stay_active` completes only when no observation of the path runs; whatever runs later subscribed later |
| ObserveTheorems.CutOffExactly | coap-server/src/app/observers.rs:135-137 | the clean-up cuts off a running observation if and only if it subscribed after `stay_active` last resolved and still runs unsignalled |
| ObserveTheorems.NoLostUpdate | coap-server/src/app/resource_handler.rs:91-145 | a loop that waits with nothing unseen began its last re-run after the latest report of `notify_change` on its path, if any came after it subscribed |
| ObserveTheorems.StaleOnlyFromTheWindow | coap-server/src/app/resource_handler.rs:72-85 | a waiting loop stays on a representation older than the latest report, heard by the channel or dropped by it, of its own lifetime or another one of its path, if and only if that report fell between the start of the first response and the subscription and no re-run followed |
| ObserveTheorems.NeverWokenByClosure | coap-server/src/app/resource_handler.rs:97-103 | before the termination signal the channel has a sender, `changed` resolves only on a new version, and the initial-sequence arm is not taken |
| ObserveTheorems.NotifiedAtMostTwice | coap-server/src/app/resource_handler.rs:97-104 | before the signal, notified versions never decrease and none occurs three times |
| ObserveTheorems.AtomicNotifiesOnce | coap-server/src/app/resource_handler.rs:97-98 | when nothing is published between `changed` and `borrow`, none occurs twice |
| ObserveNumbers.DistinctNumbers | coap-server/src/app/observers.rs:155-160 | any 2^24 consecutive calls of `notify_change` get pairwise distinct numbers under every interleaving |
| ObserveOrder.InOrderExactly | coap-server/src/app/observers.rs:155-164 | over all runs: no observer goes back in call order, at whatever pace observers go on from any moment of the run, if and only if no call publishes behind a number that a running observer went through |
| ObserveOrder.CallOrderExactly | coap-server/src/app/observers.rs:156-163 | after publishes in call order, the next one that is heard leaves every observer in order, at whatever pace before and after it, if and only if its call is later than the one in the channel |
| ObserveOrder.BehindRunsBackwards | coap-server/src/app/observers.rs:156-163 | a publish behind what a running observer went through leads that observer, by its own steps, to the older number after the newer one, in the freshness order too when fewer than 2^23 calls lie in between |
| ObserveOrder.Delivered | coap-server/src/app/resource_handler.rs:91-145 | a running loop that has not borrowed the latest change gets to it by its own steps, from wherever it stands |
| ObserveOrder.SerialInCallOrder | coap-server/src/app/observers.rs:155-164 | calls that do not overlap publish in call order |
| ObserveNumbers.NumbersAreFresh | coap-server/src/app/observers.rs:155-164 | as long as nothing is published behind a running observer, overlap or not, an observer goes through numbers in call order, and a later number is newer in the order of section 3.4 of RFC 7641 if and only if 1 to 2^23 - 1 calls lie in between, registration and wrap-around included |
| ObserveNumbers.SerialNumbersAreFresh | coap-server/src/app/observers.rs:155-164 | so it is whenever calls do not overlap |
| ObserveRepeats.RepeatsExactly | coap-server/src/app/observe_handler.rs:128-129 | until the termination signal an observation goes through one number twice in a row if and only if a publish fell between the mark (subscription or `changed`) and the borrow of the first and none between the two borrows; the second is then not newer |
| ObserveNumbers.NumbersOnTheWire | coap-server/src/app/resource_handler.rs:114-118 | the registration and every notification without an Observe value of its own carry those numbers, and notifications are Confirmable |
| ObserveInvariant.StepKeepsInv | coap-server/src/app/observe_handler.rs:100-190 | every step keeps the joint invariant of table, lifecycles, channels, signals and loops |
| ObserveInvariant.ReachInv | coap-server/src/app/observe_handler.rs:100-190 | the invariant holds in every reachable state |
| ObserveExamples.StayActiveRace | coap-server/src/app/observable_resource.rs:14-17 | a run in which `on_active` awaited `stay_active` and a running observer is terminated all the same |
| ObserveExamples.LostInTheWindow | coap-server/src/app/resource_handler.rs:73-85 | a run in which a change that the channel took is lost between the first response and the subscription |
| ObserveExamples.LostUnheard | coap-server/src/app/observe_handler.rs:104-128 | a run in which `on_active` reports a change before the registration that spawned it subscribes, and the channel drops it |
| ObserveExamples.LostAcrossLifetimes | coap-server/src/app/observe_handler.rs:171-187 | a run in which the change was the last that an earlier lifetime reported before its clean-up |
| ObserveExamples.RepairedUnderOneNumber | coap-server/src/app/observe_handler.rs:128-129 | a run in which a registration and the notification that makes up for its old representation carry one number |
| ObserveExamples.OverlapRunsBackwards | coap-server/src/app/observers.rs:156-163 | a run in which two overlapping calls make an observer receive an older number after a newer one |
| ServerTheorems.Projections | coap-server/src/app/resource_handler.rs:91-145 | both halves of a run of the server are runs of the component systems |
| ServerTheorems.OneInFlight | coap-server/src/app/resource_handler.rs:120-137 | an observation awaits only its latest send, with its loop parked on it, and all earlier ones were acknowledged |
| ServerTheorems.SilentAfterFailure | coap-server/src/app/resource_handler.rs:137-142 | after a send that ended in anything but an Ack, an observation starts no further send in any continuation |
| ServerTheorems.AckedByItsPeer | coap-server/src/app/resource_handler.rs:131-137 | each notification goes to its own peer, unchanged but for the ID, and the next one starts only after that peer's Ack was on the wire |
| ServerTheorems.NotifiesItsPeer | coap-server/src/app/resource_handler.rs:105-130 | whatever the handler responds is numbered with the borrowed change and can be handed to the manager for the observation's own peer; the loop then waits for it |
| ServerTheorems.GoesOnExactly | coap-server/src/app/resource_handler.rs:131-142 | once its send has returned an observation can take the outcome up, and waits for the next change if and only if it was an Ack |
| ServerTheorems.NoMoreSendsThanLoops | coap-server/src/app/resource_handler.rs:127-130 | awaited sends never outnumber running loops |
| Server.ReachInv | coap-server/src/app/resource_handler.rs:91-147 | the invariant that ties loops to their sends holds in every reachable state |
| SendTheorems.AwaitedWhileStored | coap-server/src/app/retransmission_manager.rs:187-209 | while a send is awaited its channel is empty exactly as long as its own handle is in the table; the loop never wakes to an empty channel or to an unexpected reply and waits once per attempt |
| SendTheorems.RepliesAreFinal | coap-server/src/app/retransmission_manager.rs:68-74 | a reply channel is written at most once in a run |
| SendTheorems.DisplacesOnlyAfterWrap | coap-server/src/app/retransmission_manager.rs:92-105 | a send takes over an entry only from a send to the same peer that started a positive multiple of 65536 sends earlier |
| SendTheorems.NoEarlyReuse | coap-server/src/app/retransmission_manager.rs:99-105 | no send fails with the reuse error before 65536 later sends have started, whatever their peers |
| SendTheorems.TableRefinesHistory | coap-server/src/app/retransmission_manager.rs:63-78 | a key is stored if and only if the latest send with that key has had no matching Ack or Reset since, and for that send |
| SendTheorems.ReplyRouting | coap-server/src/app/retransmission_manager.rs:63-78 | a reply is accepted, given back or panics exactly as it addresses an awaited send, none, or one no longer awaited; an accepted one reaches exactly the channel of that send |
| SendTheorems.DuplicatesAreHandedBack | coap-server/src/app/retransmission_manager.rs:69-77 | in every run, a reply whose key has arrived before is given back and changes nothing, unless a send has started under that key in between |
| SendTheorems.PanicsOnLateReply | coap-server/src/app/retransmission_manager.rs:69-73 | the `unwrap` panics if and only if the reply addresses a send that gave up on its own |
| SendTheorems.LateReplyExample | coap-server/src/app/retransmission_manager.rs:211 | for every number of attempts, whenever no timeout overflows: a run in which all attempts time out and the Ack that follows ends in that panic |
| SendTheorems.LateReplyByDefault | coap-server/src/app/app_handler.rs:81-83 | such a run under the default parameters, for every first timeout in their range |
| SendTheorems.TruthfulOutcome | coap-server/src/app/retransmission_manager.rs:191-206 | Ok implies that the first thing to happen to the send was a matching Ack of its peer, Reset a matching Reset, the reuse error another send with its key |
| SendTheorems.ReturnsWhatItReads | coap-server/src/app/retransmission_manager.rs:187-211 | conversely a send returns what it reads: an Ack gives Ok, a Reset a Reset, a displacement the reuse error, and nothing else is there to be read; a transmission error comes exactly of a closed transport, NoReply only of a timeout, an overflow only of a transmission |
| UnreadReplies.UnreadExactly | coap-server/src/app/retransmission_manager.rs:187-211 | over the whole run of a send that gives up, the manager accepted a reply for it if and only if that reply was in its channel when it gave up; so that is exactly when an accepted reply goes unread |
| UnreadReplies.ReadOrGivenUp | coap-server/src/app/retransmission_manager.rs:190-206 | a send for which a reply was accepted is still awaited, returned with that very reply, or gave up because its last event was the closed transport, the timeout of its last attempt, or a transmission whose doubled timeout did not fit |
| UnreadReplies.HoldsWhatWasAccepted | coap-server/src/app/retransmission_manager.rs:68-74 | a channel holds a reply if and only if the manager accepted it for that send |
| UnreadReplies.UnreadAck | coap-server/src/app/retransmission_manager.rs:187-211 | for every number of attempts, whenever no timeout overflows: a run in which an accepted Ack goes unread and the send returns NoReply |
| SendTheorems.TruthfulTransmissions | coap-server/src/app/retransmission_manager.rs:173-212 | identical Confirmable copies under the allocated ID, the k-th at t0 * (2^k - 1); 1 to max_retransmit + 1 of them behind a reply, exactly that many behind NoReply; both within the bounds of section 4.8.2 of RFC 7252 |
| SendTheorems.SendsReturn | coap-server/src/app/retransmission_manager.rs:175-211 | every send returns after at most max_retransmit + 1 waits |
| SendSystem.StepKeepsInv | coap-server/src/app/retransmission_manager.rs:63-114 | every step keeps the joint invariant of table, channels, loops and history |
| SendSystem.ReachInv | coap-server/src/app/retransmission_manager.rs:63-114 | the invariant holds in every reachable state |
| SendTiming.RunShaped | coap-server/src/app/retransmission_manager.rs:175-211 | every play of the loop emits identical copies, at most max_retransmit + 1, and gives up after exactly that many |
| SendTiming.RunTimed | coap-server/src/app/retransmission_manager.rs:174-186 | every play of the loop keeps to the closed form of the back-off |
| SendTiming.OutcomeExactly | coap-server/src/app/retransmission_manager.rs:175-211 | the outcome of every play by its last event, each in both directions; NoReply if and only if that was a timeout after max_retransmit + 1 copies, an overflow if and only if it was a transmission after which the doubled timeout does not fit |
| SendTiming.EmitsEachTransmission | coap-server/src/app/retransmission_manager.rs:176-185 | one copy for every transmission that an open transport takes, at the time that has elapsed, and none otherwise |
| SendTiming.TransmitBounds | coap-server/src/app/retransmission_manager.rs:148-156 | with a first timeout in the configured range, copies leave within MAX_TRANSMIT_SPAN and the send gives up within MAX_TRANSMIT_WAIT |
| SendTiming.DefaultBounds | coap-server/src/app/retransmission_manager.rs:119-127 | the default parameters give at most 5 copies within 45 s, 93 s until giving up, and no overflow |
| SendTiming.DefaultSchedule | coap-server/src/app/retransmission_manager.rs:119-127 | the first timeout is exactly in 2 s to 3 s; in silence five copies leave at 0, 1, 3, 7 and 15 times it, and NoReply comes at 31 times it |
| SendTiming.OverflowNeeds | coap-server/src/app/retransmission_manager.rs:186 | the doubling overflows only if t0 * 2^(max_retransmit + 1) does not fit a Duration |
| SendTiming.OverflowHappens | coap-server/src/app/retransmission_manager.rs:186 | and whenever it does not fit, silence leads to the overflow |
| SendLoop.IntoFuture | coap-server/src/app/retransmission_manager.rs:173-212 | the loop does for every script of environment choices what the step function says |
| SendLoop.NewParameters | coap-server/src/app/retransmission_manager.rs:130-146 | accepts exactly factors of at least one and positive timeouts, for which the range is not empty, and keeps all three values |
| RetransmissionManager.RetransmissionManager.constructor | coap-server/src/app/retransmission_manager.rs:53-59 | an empty table and a given first ID |
| RetransmissionManager.RetransmissionManager.MaybeHandleReply | coap-server/src/app/retransmission_manager.rs:63-78 | an Ack or Reset under a stored key takes the entry away and reaches its channel, or panics if nobody listens; anything else is given back and changes nothing |
| RetransmissionManager.RetransmissionManager.SendReliably | coap-server/src/app/retransmission_manager.rs:86-114 | the packet goes out Confirmable with the next ID; the ID advances and wraps; its key leads to a new empty channel; a listener displaced from it learns of that; nothing else changes |
| ObserveHandler.ObserveHandler.constructor | coap-server/src/app/observe_handler.rs:56-62 | an empty table |
| ObserveHandler.ObserveHandler.MaybeProcessRegistration | coap-server/src/app/observe_handler.rs:64-161 | by the fields of the request: each error with the table unchanged; no flag, no change; a registration or deregistration under its own path, peer and token, with the event, the number put into the response and the lifecycle spawned |
| ObserveHandler.ObserveHandler.RegisterObserver | coap-server/src/app/observe_handler.rs:103-150 | the whole new table after a registration: the key leads to a new sender, which is the handle's; a known path keeps its lifetime, channel and other registrations; only the replaced sender is used |
| ObserveHandler.ObserveHandler.DeregisterObserver | coap-server/src/app/observe_handler.rs:151-159 | afterwards the key leads nowhere and the sender that was stored under it is used; nothing else changes; and the result says whether there was one |
| ObserveHandler.ObserveHandler.MaybeShutdownSingleObserver | coap-server/src/app/observe_handler.rs:163-169 | uses the sender if there is one |
| ObserveHandler.ObserveHandler.FinishLifecycle | coap-server/src/app/observe_handler.rs:171-190 | drains the path: forgets it and uses every stored sender once, in any order, and changes nothing else |
| ObserveHandler.LeftmostGoes | coap-server/src/app/observe_handler.rs:107 | the relative path of an observed path: the leftmost occurrence of the prefix goes and the search goes on behind it |
| ObserveHandler.NothingToReplace | coap-server/src/app/observe_handler.rs:107 | and a path without the prefix stays as it is |
| NotificationLoop.RunNotifications | coap-server/src/app/resource_handler.rs:89-148 | the loop does for every script of environment choices what the step function says |
| NotificationLoop.LastEventDecides | coap-server/src/app/resource_handler.rs:92-146 | where the loop stands after every script by its last event, each in both directions, with the error of the handler |
| NotificationLoop.NotifiesEachResponse | coap-server/src/app/resource_handler.rs:104-131 | one notification for every response of the handler, in order, numbered with the change borrowed just before, and none for anything else |
| NotificationLoop.MaybeHandleObserveRegistration | coap-server/src/app/resource_handler.rs:194-207 | by the fields of the request: errors leave the table alone; a registration and a deregistration under its path, peer and token leave exactly theirs; only the response to a registration is numbered, with its own number or else that of the channel |
| NotificationLoop.DoHandle | coap-server/src/app/resource_handler.rs:66-151 | by the fields of the request: the first response precedes the registration; errors leave the table alone and are reported; what the table, the answer and the result are after a registration, a deregistration or neither; then the loop, whose handler error is reported |
| NotificationLoop.Numbered | coap-server/src/app/resource_handler.rs:114-118 | a notification is Confirmable, carries the handler's Observe value or else the change number, and is otherwise the response |
| Observers.Observers.constructor | coap-server/src/app/observers.rs:121-129 | a channel with the initial sequence and no receiver |
| Observers.Observers.NotifyChange | coap-server/src/app/observers.rs:155-164 | the number advances in any case and is published if somebody listens |
| Attachments.DetachCondition | coap-server/src/app/observers.rs:108-111 | in every run a detach succeeds, as sole owner, if and only if something is stored under the key |
| Attachments.AttachExactly | coap-server/src/app/observers.rs:56-61 | over all runs: the new attachment is stored under its key with two references, and the one it displaces loses one |
| Attachments.DetachExactly | coap-server/src/app/observers.rs:108-111 | over all runs: the key is free, and the references of the handle and of what was stored under the key are gone, and no others |
| Attachments.DisciplinedMirrors | coap-server/src/app/observers.rs:56-61 | when no key is attached twice without a detach in between, the index is exactly the set of attachments not yet detached |
| Attachments.DisciplinedDetach | coap-server/src/app/observers.rs:108-111 | then every detach finds its own entry, becomes sole owner and disturbs no other |
| Attachments.DoubleAttachPanics | coap-server/src/app/observers.rs:109 | otherwise the `unwrap` can panic |
| ObserversHolder.ObserversHolder.Attach | coap-server/src/app/observers.rs:56-61 | the whole new index and reference counts |
| ObserversHolder.ObserversHolder.Detach | coap-server/src/app/observers.rs:108-111 | the outcome, the very `Observers` attached, and the whole new index and reference counts |
| ObserversHolder.ObserversHolder.NotifyChange | coap-server/src/app/observers.rs:64-68 | the number of every attached observer advances by one and is published if its channel has a receiver |
| ObserversHolder.ObserversHolder.NotifyChangeForPath | coap-server/src/app/observers.rs:82-91 | so it is for exactly the attached observers whose key is a prefix of the path's, and all others stay as they are |
| ObserversHolder.OwnPathReachesPrefixes | coap-server/src/app/observers.rs:131-133 | the relative path of an `Observers` as a lifecycle gets it parses back to its key, so that a call with it reaches exactly the prefixes of that key |
| ObserversHolder.OnlyAboveIsReached | coap-server/src/app/observers.rs:75-78 | of a path, the one above, one below and one beside it, exactly the first two are reached |
| ObserversHolder.DocumentedExampleFails | coap-server/src/app/observers.rs:75-78 | the example in the comment: `resources/abc/some_property` is not reached |
| PathMatcher.MatchAllExact | coap-server/src/app/path_matcher.rs:55-67 | the matches are exactly the stored prefixes of the path, each once, from the deepest to the shallowest, with their values |
| PathMatcher.LookupLongestPrefix | coap-server/src/app/path_matcher.rs:38-49 | lookup finds the longest stored prefix, and nothing if and only if there is none |
| PathMatcher.PathMatcher.MatchAll | coap-server/src/app/path_matcher.rs:55-67 | the loop returns those matches |
| PathMatcher.PathMatcher.Lookup | coap-server/src/app/path_matcher.rs:38-49 | the loop with its early return gives the first of those matches |
| PathMatcher.PathMatcher.FromPathStrings | coap-server/src/app/path_matcher.rs:31-34 | the keys are those of the paths, each with the value of a path that has it |
| PathMatcher.PathMatcher.Insert | coap-server/src/app/path_matcher.rs:69-71 | the new table and the value replaced |
| PathMatcher.PathMatcher.Remove | coap-server/src/app/path_matcher.rs:73-75 | the new table and the value removed |
| Paths.KeyOfJoinedPaths | coap-server/src/app/path_matcher.rs:86-91 | the key of two paths joined by a slash is the concatenation of their keys |
| Paths.KeyRoundTrip | coap-server/src/app/path_matcher.rs:86-91 | a key is recovered from its joined path |
| Paths.KeysAreNormal | coap-server/src/app/path_matcher.rs:86-91 | no segment of a key is empty or holds a slash |
| Paths.SplitThenJoin | coap-server/src/app/path_matcher.rs:87 | splitting finds slash-free segments that join to the string |
| Paths.JoinThenSplit | coap-server/src/app/path_matcher.rs:87 | and these are the only ones |
| AppHandler.DispatchCorrect | coap-server/src/app/app_handler.rs:175-201 | with distinct keys a request goes to the resource with the longest key that is a prefix of its path, key and unmatched path make up the path, and NotFound occurs if and only if no key is a prefix |
| AppHandler.AppHandler.FromBuilder | coap-server/src/app/app_handler.rs:80-116 | the index has the key of every resource and, when enabled, of /.well-known/core, and nothing else; of what is installed at one path string only the last, discovery being last of all, can be found |
| AppHandler.AppHandler.TryHandleGet | coap-server/src/app/app_handler.rs:170-202 | the lookup, the slice and the two errors |
| AppHandler.AppHandler.HandlePacket | coap-server/src/app/app_handler.rs:118-153 | only empty Acks and Resets reach the manager, and with what outcome; an empty Confirmable is answered by an empty Reset of its ID; requests go to their resource; everything else is ignored |
| U24.AdvanceNewer | coap-server/src/app/u24.rs:28-30 | after fewer than 2^24 increments a number is newer than the one before if and only if there were 1 to 2^23 - 1 of them |
| U24.AdvanceDistinct | coap-server/src/app/u24.rs:28-30 | fewer than 2^24 increments never repeat a number |
| U24.AdvanceClosedForm | coap-server/src/app/u24.rs:28-30 | k increments add k modulo 2^24 |
| U24.CheckedAdd | coap-server/src/app/u24.rs:16-20 | succeeds exactly within range, and checked subtraction undoes it |
| U24.CheckedSub | coap-server/src/app/u24.rs:22-26 | succeeds exactly when not negative, and addition undoes it |
| U24.FromLeBytes | coap-server/src/app/u24.rs:36-38 | the bytes are those of the number, least significant first |
| U24.LeBytesCoverEveryNumber | coap-server/src/app/observe_handler.rs:105-111 | three random bytes reach every number |
| U24.TryFromU32 | coap-server/src/app/u24.rs:79-89 | succeeds exactly within range |

## Left out

- The UDP transports, multicast and the server's relay loop: sockets and channels only.
- The packet codec, block-wise transfer and link format of coap_lite, which is not part of this model: packets are records, and the block layer's result is an input of `DoHandle`.
- The panics of `tx.send(..).unwrap()` towards the transport: the receiving end outlives the handlers as long as the server runs. A closed transport does end a reliable send, with TransmissionError.
- The end of the manager or of the runtime itself: while the manager lives, a reply channel loses its sender only after it was written.
- SendTiming.RunTimed: a timeout may expire at any moment while it is waited for, and the elapsed time counts expired timeouts only, so it is a lower bound of the wall clock, because delays of the scheduler are not part of this model.
- Rounding in `mul_f32`: the range of the first timeout is taken over the reals.
- `max_retransmit + 1` as a machine integer: counts of attempts are unbounded.
- Which relative paths `replace` yields for which prefixes: `RemoveAll` models it, and no two paths are claimed to get different keys.
- Several resources in one observe system: each has its own table and lock; the others appear in `Server` as foreign sends.
- The choice of the handler by request method, query filtering, discovery output, error responses and the builders: single branches or text.
- The panicking `+` of u24 and its conversions to smaller and larger integers: single comparisons.
- Progress that depends on a fair scheduler, such as a signalled loop getting to its termination branch.
