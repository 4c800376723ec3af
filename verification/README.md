# DSIP step machines, modelled and proved in Dafny

DSIP is a signed call, presence and messaging protocol. Its TypeScript implementation (`impl-ts/src`) keeps every
protocol decision in deterministic step machines without I/O. This project models four groups of them and proves
what their tests and documentation promise of every input, every run and every reachable state.

**How a component is modelled.** What a component does is stated once, as functions over a value (its state before,
the event, its state after and what it emits). Where the source updates an object in place, a class holds the same
fields and its methods do what the source's methods do, branch by branch and loop by loop; each method is proved to
turn the object, seen as a value, into what those functions say. The invariants, the properties of runs and the
compositions are proved of the functions, and hold of the objects through the methods named `Play`, `Step` or `Take`.

**Call signalling.** `TimerTable` (the clock's table and the class `Timers`), `Calls` (one session), `Endpoints` and
`EndpointClock` (an endpoint, its clock and its runs), `PresenceKeys` and `KeyRings` (grants, epochs, rotation),
`EndpointObject` (the `Endpoint` object), `Relays` and `RelayObject` (the forking relay). What these do is said again
without their functions: `CallWords` and `EndpointWords` (who is told what), `KeyTurns` and `KeyHistories` (each
rotation, and the grants of a run), `Deliveries` and `Retentions` (what is handed over, held and forgotten),
`Rejections` (the rejects of a forked call). Three compositions over FIFO links rest on them: `ForkedCall`, `StrayBye`,
`StrayRuns` and `RingingLegs` (one initiator, the relay, any number of legs), `Glare` (two endpoints whose invites
cross) and `Updates` (two ends of one session that both renegotiate).

**Presence.** `Authorities` and `AuthorityObject` (records, audiences, grace, admission, revocation, who is told
what), `Audiences` (what a subscription may see), `Rulings` and `Standings` (what every event does, and who stands
admitted over runs), `Subscribers` (the subscribing side, and the two sides together), `Revocations` (revoked shares).

**Event gateway.** `DeviceEvents`, `Escalations` and `AlarmObjects` (alarm list and hold-down), `Informs`,
`SignedSyslog`, `SignedArrivals` and `SyslogCollector` (RFC 5848 matching), `SignedOnce` (how often a number signs),
`Congruences` and `Dsa` (section 4.7 of FIPS 186-4 on big integers), `Ber`, `Snmp` and `BerLoops` (the SNMPv3 writer
and reader), `UsmReceivers` (the receiver and its engine cache), `TlsFrames`.

**Verifiable data structures.** `Canonical`, `Webvh`, `WebvhHistory` and `WebvhLoops` (the hash-chained DID log),
`DnsNames`, `DnsPackets` and `DnsReadings` (name compression, record data, carried records), `ZBase32`, `SearchTrees`, `PrefixTree`, `LogTree`.
`Prelude`, `Orders`, `Bytes` and `Powers` hold what these share.

## What was found

- **A stray bye ends the wrong call.** An initiator in a call applies a `bye` from any device, not only from its
  peer (`impl-ts/src/endpoint.ts:552-560`, `:619-624`). A leg whose answer lost the race and that hangs up before our
  `session.already-answered` reaches it ends the initiator's call with the winner, which stays ACTIVE.
  `StrayBye.PeerStranded` gives the run; `ForkedCall.StepAgrees` shows that this step, and no other, breaks agreement;
  `StrayRuns.EveryRunDrained` says what every run keeps all the same, and `StrandedUntilItHangsUp` that the winner stays in
  the call until it hangs up itself.
- **A leg given up goes on ringing.** The relay gives up a leg that stays silent past the invite's expiry and tells it
  nothing (`impl-ts/src/relay.ts:311-336`); when the attempt is over, that device may still be ringing.
  `RingingLegs.SomeoneIsLeftRinging` gives the run; `OnlyExpiredRing` and `LeftRingingExactly` show that no other device does.
- **A device bound elsewhere.** Binding a device to another identity without unbinding it leaves no record of when the old
  identity's binding ended (`impl-ts/src/relay.ts:148-163`, `:180-190`): that recipient is forgotten at once
  (`Retentions.ForgottenAtOnce`) or never (`NeverForgottenRun`). `RecordedExactly` is the exact condition, and
  `KnownForRetention` what holds where it does not arise.
- **A stream changes hands.** A publication belongs to whoever last published it under a name that begins it
  (`impl-ts/src/broadcast-state.ts:388-402`), so an identity whose name another's continues can take over its streams
  (`Standings.AnotherTakesOver`; `PublisherChangesExactly` is the exact condition).
- **Reusing the id of our own live attempt.** An inbound invite that reuses it overwrites the attempt unless it is met
  as glare under that very id (`impl-ts/src/endpoint.ts:667-683`, `:710`); `Endpoints.InviteKeepsExactly` is the exact
  condition.
- **A revocation given again with an earlier end.** The later one replaces the earlier (`impl-ts/src/broadcast-state.ts:375`),
  and the clock then drops it before the grant has ended (`:275`): the revoked grant admits again
  (`Revocations.RevokedAndAdmitted`, and `ShortenedGrantAdmits` from any state). `StepHolds` and `RevokedGrantShutOutExactly`
  are the exact conditions.
- **Epochs are doubles.** Past 2^53 a rotation may leave an epoch as it was. `EndpointClock.EveryLostKeyRotates` excepts
  exactly the epochs whose next number is no other double, and `UnraisedEpochStays` gives for each of those a run in which
  the lost key stays.
- **The list's own silence type.** A device that traps a clear under the type the alarm list raises for itself can make
  raw and deposited lists disagree (`DeviceEvents.OwnTypeDisagrees`): they do exactly when a gateway falls silent while
  such a clear is held (`BothKeepsExactly`, `HoldDownKeepsMeaningExactly`).
- **One number, two messages.** Two Signature Blocks may list different hashes for one number, and each may then sign a
  message (`SignedOnce.NumberSignsTwice`). It takes a block that signs a held message while another hash waits under its
  number; without one, a number signs once between ends of its session (`StepFreshExactly`, `NumberSignsOnce`). What signs
  again is then exactly a message whose earliest match is that hash (`StepSignsAgainExactly`).
- **One leaf against many.** A log of one leaf has that leaf as its value, so equal values do not mean equal leaves
  (`LogTree.OneLeafForMany`). `ValueCommits` is the exact condition, and over entries that are hashed before they become
  leaves the case does not arise (`RootsTellLogs`).

## Model

| member | source | states |
|---|---|---|
| `TimerTable.Timers.Start` | impl-ts/src/timers.ts:22-25 | (re)starting replaces the key's timer by one with a new deadline and the next start order; every other timer is as before |
| `TimerTable.Timers.Stop` | impl-ts/src/timers.ts:28-32 | removes exactly the key's timer and says whether there was one |
| `TimerTable.Timers.TakeDue` | impl-ts/src/timers.ts:53-58 | takes out the one due timer that fires first (earliest deadline, then start order), or nothing exactly when none is due |
| `Calls.ReceivedKeeps` | impl-ts/src/endpoint.ts:485-656 | any message but an invite keeps a session's shape: exactly the timer its phase calls for, media exactly while ACTIVE, an outstanding update only while ACTIVE; phases only move forward, ENDED is final, the answered peer stays; media starts and stops exactly on entering and leaving ACTIVE |
| `Calls.RequestedKeeps` | impl-ts/src/endpoint.ts:256-347 | the same for every local request about a session |
| `Calls.FiredKeeps` | impl-ts/src/endpoint.ts:235-252 | a fired timer keeps a session's shape: it ends the session, leaves it no timer and no media, and never reopens one; what it tells the other end is `CallWords.AttemptEnds` and `OfferEnds` |
| `CallWords.AttemptEnds` | impl-ts/src/endpoint.ts:233-252 | an attempt of ours that ends, by its timer, a request, the fourth queue or an invite that takes precedence, is withdrawn by exactly one cancel to the address invited under the session's id, except where the other side's reject or the no-response outcome ended it; then nothing is sent |
| `CallWords.OfferEnds` | impl-ts/src/endpoint.ts:242-252 | a call offered to us that ends draws exactly one reject to its initiator (`user.no-answer` when T-Ring-Local fires), or nothing when the initiator's cancel ended it; a missed call is shown exactly when it rang and was not answered elsewhere |
| `CallWords.CallEnds` | impl-ts/src/endpoint.ts:305-321 | a call that ends is ended by exactly one bye to its peer, or by the peer's bye or a cancel that crossed the answer, and then nothing is sent |
| `CallWords.RequestSaysOne` | impl-ts/src/endpoint.ts:256-347 | a request that cannot be asked changes nothing; any other tells the other end exactly one thing, at the address invited before the call is up and at the peer from then on, and ends the session exactly if it is a cancel, hangup, reject or decline, or an alert past expiry |
| `CallWords.OutOfPhase` | impl-ts/src/endpoint.ts:485-530 | a message a session does not take in its phase draws exactly an invalid-state error to its sender and changes nothing but that the initiator has spoken |
| `CallWords.InPhaseDraws` | impl-ts/src/endpoint.ts:485-656 | what else a message draws: a late answer one bye to its leg, a first answer from elsewhere one cancel to the address invited, the larger of two colliding updates a refusal, anything else nothing |
| `CallWords.MessageShows` | impl-ts/src/endpoint.ts:485-656 | what the user is shown of a message, and that only a progress starts a timer |
| `CallWords.InfoHandedOver` | impl-ts/src/endpoint.ts:625-629 | information about `transport:webrtc` or `media:dtmf`, and only that, is handed over, and none ends a call |
| `CallWords.ProgressStarts` | impl-ts/src/endpoint.ts:563-592 | a progress lets the attempt go on ringing for at least 30 and at most 300 seconds where it says how long, and queued for at most 1800; it restarts no ringing timer that runs where it does not say |
| `CallWords.FourthQueueEnds` | impl-ts/src/endpoint.ts:563-577 | the fourth queued progress in a row ends an attempt as withdrawn, and none before it does |
| `CallWords.InitiatorHasSpoken` | impl-ts/src/endpoint.ts:604-624 | after any word of the initiator in the call a cancel of its is out of phase; before it, it ends the call |
| `Endpoints.InviteKeepsExactly` | impl-ts/src/endpoint.ts:660-711 | an invite keeps every session and timer of the endpoint if and only if it does not reuse the id of a live attempt of ours, or is met as glare under that very id as the smallest rival |
| `Endpoints.PlaceCallKeeps` | impl-ts/src/endpoint.ts:264-277 | placing a call keeps every session and timer, and never overwrites a session held |
| `Endpoints.WithdrawEachKeeps` | impl-ts/src/endpoint.ts:696-702 | withdrawing rivals ends exactly them and leaves every other session as it was |
| `EndpointWords.EveryEndIsTold` | impl-ts/src/endpoint.ts:120-142 | in every reachable endpoint and for every event, clock included: a session the event ends is ended by exactly one word to the other end (cancel, reject or bye by its phase), or by none where the other end's own word ended it; an invite under the very id of the attempt it ends draws a reject besides |
| `EndpointWords.InviteRefused` | impl-ts/src/endpoint.ts:660-683 | an invite that is refused draws exactly one reject with the first reason that applies, and nothing is offered |
| `EndpointWords.InviteOffered` | impl-ts/src/endpoint.ts:684-711 | an invite nothing refuses is offered, and every attempt of ours to its caller is withdrawn by exactly one cancel, every other session left as it was |
| `PresenceKeys.AnswerKeeps` | impl-ts/src/endpoint.ts:355-403 | granting, following, revoking and adopting a sibling's epoch keep the rotation invariant: every scope an ended grant lost is rotated past what the grant and its chain carried, or due within tRotate; one scope's rotations are tRotate apart; a grant ends once; nothing is left due |
| `PresenceKeys.AtInstantKeeps` | impl-ts/src/endpoint.ts:128-134 | the same for what the clock does at an instant, after which nothing is due |
| `KeyTurns.EveryInstantDoes` | impl-ts/src/endpoint.ts:431-465 | the whole effect of an instant: every share that reached its end is ended and no other, exactly the scopes due are rotated, `main` first, to an epoch above the old where one is, and every live grant that carried a rotated scope, and no other, is followed by one with the current keys and the old one's audience, purposes and end |
| `KeyHistories.EveryRequestDoes` | impl-ts/src/endpoint.ts:355-403 | the whole effect of granting, following, revoking and adopting: which grants end, which is issued and with what keys, which scopes turn due |
| `KeyHistories.EveryGrantIsRight` | impl-ts/src/endpoint.ts:416-465 | in every run every grant ever sent is in the table, itself or in the chain of the grant that followed it, or was told as ended, itself or in the chain of one; and, while grant ids last, every live one was sent with exactly its key scopes at the epochs now in force |
| `EndpointClock.EveryLostKeyRotates` | impl-ts/src/endpoint.ts:416-465 | in every run, once tRotate has passed since a keyed grant ended, each scope it lost is at least at, and past every raisable one of, the epochs the grant or its chain ever carried (raisable: the next number is another double, as below 2^53); no grant ends twice; own rotations of one scope are at least tRotate apart |
| `EndpointClock.UnraisedEpochStays` | impl-ts/src/endpoint.ts:442-452 | for every epoch double arithmetic cannot raise there is a run in which a grant that carried it ended tRotate ago and the scope it lost is still at that epoch: the exception above is needed |
| `EndpointClock.EverySessionFits` | impl-ts/src/endpoint.ts:215-321 | in every run INVITING runs exactly T-Establish, PROCEEDING exactly one of T-Ring and T-Queue, ALERTING exactly T-Ring-Local, the other phases none; media holds exactly while ACTIVE; an outstanding update implies ACTIVE; phases only move forward and an ended session never changes |
| `EndpointClock.StepKeeps` | impl-ts/src/endpoint.ts:120-142 | every event keeps all sessions, timers and keys in order, and drops or reverses no session |
| `EndpointClock.InstantShrinks` | impl-ts/src/timers.ts:43-61 | the work of one instant strictly shrinks what is left to do by any later time, although rotation issues new grants and due times |
| `EndpointClock.RunTo` | impl-ts/src/timers.ts:43-61 | advancing ends with the clock at its target and no timer, grant or due scope left at or before it, unless grant ids run out |
| `EndpointClock.RunToSplit` | impl-ts/src/timers.ts:43-61 | advancing in two legs gives the same emissions and the same endpoint as advancing once |
| `KeyRings.KeyRing.IssueGrant` | impl-ts/src/endpoint.ts:416-428 | the method issues a grant as `PresenceKeys.Issue`: new scopes start at epoch 0, the grant carries its key scopes at their current epochs |
| `KeyRings.KeyRing.Rotate` | impl-ts/src/endpoint.ts:442-452 | the method rotates the scopes due, `main` first, then follows live grants, as `PresenceKeys.RotateDue` |
| `KeyRings.KeyRing.FollowLive` | impl-ts/src/endpoint.ts:455-465 | the method follows each live grant carrying a rotated scope by one with the current keys, in id order, as `PresenceKeys.Regrant` |
| `KeyRings.KeyRing.Tick` | impl-ts/src/endpoint.ts:128-134 | the method ends shares reaching their end in id order and then rotates, as `PresenceKeys.AtInstant` |
| `KeyRings.KeyRing.Follow` | impl-ts/src/endpoint.ts:368-386 | the method follows a live grant: revoke the old and its chain, issue the new, end the old but for scopes kept, rotate |
| `KeyRings.KeyRing.Withdraw` | impl-ts/src/endpoint.ts:395-403 | the method revokes a grant and its chain, ends it and rotates |
| `KeyRings.KeyRing.Adopt` | impl-ts/src/endpoint.ts:471-481 | the method adopts a sibling's higher epoch and follows the live grants carrying its scope |
| `EndpointObject.EndpointObject.RecvProgress` | impl-ts/src/endpoint.ts:563-592 | the method handles a `progress`: timers, requeue limit and surface as `Calls.OnProgress` |
| `EndpointObject.EndpointObject.RecvAsInitiator` | impl-ts/src/endpoint.ts:531-560 | the method handles a message at the initiator as `Calls.OnInitiator`: one answer is applied, a later one from elsewhere draws a bye |
| `EndpointObject.EndpointObject.RecvAsResponder` | impl-ts/src/endpoint.ts:594-616 | the method handles a message at the responder as `Calls.OnResponder`: crossed and late cancels told apart |
| `EndpointObject.EndpointObject.RecvActive` | impl-ts/src/endpoint.ts:619-656 | the method handles bye, info, update and update replies as `Calls.OnActive` |
| `EndpointObject.EndpointObject.RecvEnded` | impl-ts/src/endpoint.ts:498-507 | an ended session answers only a late answer, with a bye whose reason says how the attempt ended |
| `EndpointObject.EndpointObject.RecvError` | impl-ts/src/endpoint.ts:516-524 | only the relay's no-response outcome ends a live attempt; any other error is surfaced and changes nothing |
| `EndpointObject.EndpointObject.RecvInvite` | impl-ts/src/endpoint.ts:660-711 | the method handles an invite as `Endpoints.OnInvite`: refusals first, then glare by smallest id, then an offer |
| `EndpointObject.EndpointObject.LocalHeld` | impl-ts/src/endpoint.ts:278-347 | the method handles each request about a session held as `Calls.Requested` |
| `EndpointObject.EndpointObject.FireDue` | impl-ts/src/timers.ts:51-59 | the method fires every timer due, first to fire first, as `EndpointClock.FireAll` |
| `EndpointObject.EndpointObject.Advance` | impl-ts/src/endpoint.ts:122-134 | the method advances the object instant by instant as `EndpointClock.RunTo` |
| `EndpointObject.EndpointObject.Step` | impl-ts/src/endpoint.ts:120-142 | one event of the object emits and becomes what `EndpointClock.Step` says of its value |
| `EndpointObject.EndpointObject.Play` | impl-ts/src/endpoint.ts:120-142 | every run of the object is a run of the value, and at its end every session has the timers, media and phase laws and every lost key is rotated as promised |
| `Relays.StepSettles` | impl-ts/src/relay.ts:73-94 | every event keeps: outcome open exactly while a leg is delivered and none answered, answered exactly when one is; terminal legs and a written outcome never change; nothing is held for an identity with a bound device; held invites and attempts have distinct ids |
| `Relays.AtMostOneSignal` | impl-ts/src/relay.ts:321-336 | in every run with fresh attempt ids at most one reject or no-response outcome is signalled per session |
| `Rejections.RejectionsAreReceived` | impl-ts/src/relay.ts:289-297 | in every run an attempt's rejections are those it had and the rejects received since from its outstanding legs, in order |
| `Rejections.ForwardedIsBestReceived` | impl-ts/src/relay.ts:325-331 | in every run with fresh ids a reject forwarded for a session is the earliest of the most informative of all its attempt received from outstanding legs |
| `Relays.FromLegKeeps` | impl-ts/src/relay.ts:277-297 | a leg's progress, answer or reject keeps the attempt's law, and the outcome is signalled exactly when it becomes a reject or silence |
| `Relays.CancelKeeps` | impl-ts/src/relay.ts:339-350 | the initiator's cancel keeps the attempt's law and signals nothing |
| `Relays.ElapseKeeps` | impl-ts/src/relay.ts:76-79 | after any advance no attempt past its invite's expiry has a delivered leg that never spoke, and the relay's laws are kept |
| `Relays.BindKeeps` | impl-ts/src/relay.ts:188-211 | binding a device keeps every attempt's law and signals nothing; what it hands over is `Deliveries.BindingHands` |
| `Deliveries.BindingHands` | impl-ts/src/relay.ts:188-211 | binding a device hands over everything held for its identity or for the device itself, each envelope exactly once and in the order held, invites as invites under an attempt and the rest unchanged; nothing held for anyone else moves; every live attempt for the identity is then offered to the device |
| `Deliveries.EveryEnvelopeIsDealtWith` | impl-ts/src/relay.ts:211-290 | every envelope received is, by its kind and recipient alone, delivered to each bound device, held, refused, forwarded to the initiator, or answered; none is dropped in silence |
| `Deliveries.RankTells` | impl-ts/src/relay.ts:297-320 | one reject tells more than another by its class, as the forwarding order demands |
| `Retentions.EveryEventDoes` | impl-ts/src/relay.ts:80-103 | the whole effect of every event on bindings, queue, attempts and recipients, whatever the state; an advance drops exactly what has expired, expires exactly the silent legs and forgets exactly what is past retention |
| `Retentions.NothingHeldIsLost` | impl-ts/src/relay.ts:145-211 | over every run and for every recipient and envelope: times held at the start plus times queued are times handed over plus times reported as expired or cancelled plus times held at the end |
| `Retentions.KnownForRetention` | impl-ts/src/relay.ts:163-175 | in every run in which no device of a recipient is bound elsewhere without unbinding, the recipient is known while bound and until retention has passed since, and after an advance no longer unless something is held for it |
| `Retentions.RecordedExactly` | impl-ts/src/relay.ts:188-194 | the record of when a recipient's last binding ended stays right in an event if and only if the event does not bind its last device elsewhere, or the time recorded happens to be now |
| `Retentions.ForgottenAtOnce` | impl-ts/src/relay.ts:163-175 | a run for every retention in which a recipient is forgotten at the very time its binding ended |
| `Retentions.NeverForgottenRun` | impl-ts/src/relay.ts:163-175 | a run after which a recipient without a device stays known for ever |
| `RelayObject.RelayObject.EndLeg` | impl-ts/src/relay.ts:321-336 | the method ends a leg and, when it was the last outstanding one without an answer, signals the outcome once, as `Relays.LegEnded` |
| `RelayObject.RelayObject.OnLeg` | impl-ts/src/relay.ts:277-297 | the method handles a leg's own traffic as `Relays.FromLeg`: an answer is never withheld, stale words are dropped |
| `RelayObject.RelayObject.Withdraw` | impl-ts/src/relay.ts:339-350 | the method cancels every matching delivered leg in device order as `Relays.CancelAttempt` |
| `RelayObject.RelayObject.BindDevice` | impl-ts/src/relay.ts:188-211 | the method binds, flushes and joins as `Relays.Bind`, which is what `Deliveries.BindingHands` says |
| `RelayObject.RelayObject.RecvCall` | impl-ts/src/relay.ts:229-258 | the method routes a call message as `Relays.OnCall`: cancel of an attempt, cancel of a held invite, leg traffic, plain routing |
| `RelayObject.RelayObject.ExpireQueue` | impl-ts/src/relay.ts:145-153 | the method drops what has expired, reported by recipient and then in the order queued |
| `RelayObject.RelayObject.ForgetAll` | impl-ts/src/relay.ts:163-177 | the method forgets idle attempts and recipients unbound longer than retention, as `Relays.Forget` |
| `RelayObject.RelayObject.Play` | impl-ts/src/relay.ts:73-94 | every run of the object with fresh ids is a run of the value: outcomes are what the legs say, at most one is signalled per session, rejections are those received |
| `ForkedCall.StepAgrees` | impl-ts/src/endpoint.ts:498-560 | in the composition of initiator, relay and any number of legs over FIFO links, a step keeps agreement if and only if it is not the initiator taking a bye from a leg that lost while its peer is in the call; agreement places every answer in exactly one of: in flight, applied, met with a bye |
| `ForkedCall.DrainedAgree` | impl-ts/src/endpoint.ts:531-560 | in agreement with all links empty, a leg is in the call exactly when the initiator is in a call with it, and each answer sent was either the one applied or met with a bye, never both |
| `ForkedCall.EveryRunAgrees` | impl-ts/src/relay.ts:277-350 | the same at the end of every run from the fork in which no stray bye is taken |
| `ForkedCall.AnswerMet` | impl-ts/src/endpoint.ts:535-556 | an answer reaching the initiator is applied when it is the first, and otherwise draws exactly a bye to its leg and changes nothing else |
| `RingingLegs.OnlyExpiredRing` | impl-ts/src/relay.ts:311-336 | in every run from the fork, once the links are empty and the attempt is over for the initiator, a device is still OFFERED or ALERTING only if the relay gave its leg up as expired |
| `RingingLegs.LeftRingingExactly` | impl-ts/src/relay.ts:311-336 | and a device that has neither answered nor ended the call itself is, if and only if the relay did so |
| `RingingLegs.SomeoneIsLeftRinging` | impl-ts/src/relay.ts:311-336 | a concrete run in which it does: the device still offers a call that is over, with nothing in flight |
| `ForkedCall.RelayHearsLegAsRecv` | impl-ts/src/relay.ts:254-257 | the composition's relay hearing a leg is the relay object's handling of that leg's message |
| `ForkedCall.RelayHearsBossAsRecv` | impl-ts/src/relay.ts:232-241 | the composition's relay hearing the initiator is the relay object's handling of that message |
| `StrayBye.PeerStranded` | impl-ts/src/endpoint.ts:619-624 | a concrete run with two legs: a losing leg hangs up before our bye reaches it, its bye ends the initiator's call with the winner, and once everything has drained the winner is still ACTIVE |
| `StrayRuns.EveryRunDrained` | impl-ts/src/endpoint.ts:531-560 | in every run from the fork, stray byes or not, once all links are empty only the initiator's peer can be in the call, every answer was applied or met with a bye, and the peer is in the call without the initiator only after a stray bye |
| `StrayRuns.StrandedUntilItHangsUp` | impl-ts/src/endpoint.ts:619-624 | after the stray bye the initiator stays out of the call, and in every continuation its peer is still in the call if and only if it has not itself hung up since |
| `Glare.SmallerCallIsLeft` | impl-ts/src/endpoint.ts:684-711 | however two invites cross, and whatever either end rings, accepts, declines, cancels or hangs up meanwhile, once both links are empty both ends say the same of each call (calling and ringing, in the call, or over at both), at most one of the two is left, and the smaller id's is over only if one of its ends gave it up: otherwise the larger is over at both |
| `Updates.AppliedAgree` | impl-ts/src/endpoint.ts:322-344 | in every run of two ends of an ACTIVE session the updates applied are the same in the same order but for one not yet heard of, and exactly the same once both links are empty with both ends still in the session |
| `Updates.SecondUpdateNeverPending` | impl-ts/src/endpoint.ts:630-634 | in no run does an end still in the session meet an update while it is considering another |
| `Authorities.StepKeeps` | impl-ts/src/broadcast-state.ts:116-129 | after every event each presence subscription's last body equals the one computed afresh; a subscription a request makes is told once for each topic asked for, and of all others exactly those whose body changed are told of presence, once; after an advance nothing is held past its time |
| `Authorities.OrderIsUnique` | impl-ts/src/broadcast-state.ts:84-91 | records sorted by device and audience are one sequence, whatever order they were met in |
| `Audiences.BodyShows` | impl-ts/src/broadcast-state.ts:195-219 | a presence body holds each record of the subject that has no audience, or the subscription's own, and is unsealed or asked for sealed, and no other, in order; of an own subscription, records of every audience; it says available exactly when a bound device of the subject has none among them |
| `Audiences.OthersMakeNoDifference` | impl-ts/src/broadcast-state.ts:207-219 | two record sets and bindings that agree on the records meant for a subscription and on its subject's devices give it one body |
| `Audiences.EveryWordIsMeant` | impl-ts/src/broadcast-state.ts:227-250 | in every run every presence notify was told by some event to its subscription, and holds exactly what was meant for it then |
| `Audiences.LastToldIsMeant` | impl-ts/src/broadcast-state.ts:227-234 | at the end of every run each presence subscription was last told exactly what is meant for it now |
| `Rulings.EveryEventRules` | impl-ts/src/broadcast-state.ts:107-129 | the whole effect of every event of the authority on records, devices, subscriptions, publications and revocations, refusals in the order the source tries them, and who is told what |
| `Rulings.AdmitsAs` | impl-ts/src/broadcast-state.ts:436-490 | a request is admitted as the subject's own device, by a grant valid now and not revoked that covers it, by a capability, or by policy, the first that applies, and otherwise refused |
| `Standings.EverySubscriptionWasAdmitted` | impl-ts/src/broadcast-state.ts:436-490 | in every run each subscription held is as a request of the run that made it was admitted: own or not, audience, sealed, events and end |
| `Standings.PublisherChangesExactly` | impl-ts/src/broadcast-state.ts:388-402 | a publication once held stays held, and its publisher changes if and only if an identity whose name and a colon begin the stream publishes a newer record |
| `Standings.AnotherTakesOver` | impl-ts/src/broadcast-state.ts:388-402 | a run in which an identity takes over a stream published under a longer name that its own begins |
| `Revocations.RevokedStaysOutOfRuns` | impl-ts/src/broadcast-state.ts:370-377 | at the end of every run no subscription rests on a grant whose revocation is held, however often revocations were given again |
| `Revocations.StepHolds` | impl-ts/src/broadcast-state.ts:375-375 | an event lets a revocation go on being held until its grant would have ended if and only if it does not give the revocation again with an earlier end |
| `Revocations.RevokedGrantShutOutExactly` | impl-ts/src/broadcast-state.ts:436-453 | from its revocation on, throughout a run, a grant is refused and admits nobody while it would be valid, if and only if no wait passes the end its revocation is held under before the grant's own; none does unless the revocation was given again with an earlier end |
| `Revocations.ShortenedGrantAdmits` | impl-ts/src/broadcast-state.ts:275-275 | from any state: a grant revoked until its end, revoked again until an earlier time, and that time come, the grant admits a subscription again |
| `Revocations.RevokedAndAdmitted` | impl-ts/src/broadcast-state.ts:370-377 | the same in a concrete run from an authority that holds nothing: after ends 1000 and 10 and ten seconds, no revocation is held and a request presenting the grant is admitted |
| `Revocations.StepRevoked` | impl-ts/src/broadcast-state.ts:275-275 | after any event the revocations held are those before, but that the clock drops the ones whose grant has ended and a revocation of a live grant adds its own |
| `Authorities.RevokeKeyInjective` | impl-ts/src/broadcast-state.ts:375-375 | the key a revocation is kept under names one identity and one grant, since identities hold no line break |
| `Authorities.NotifyChangedEffect` | impl-ts/src/broadcast-state.ts:227-234 | telling what changed leaves every presence subscription current and tells exactly those that were not, once |
| `AuthorityObject.SortRecords` | impl-ts/src/broadcast-state.ts:84-91 | sorting the records of a set gives the one list in order |
| `AuthorityObject.AuthorityObject.PresenceBodyOf` | impl-ts/src/broadcast-state.ts:207-219 | the method computes a subscription's presence body as `Authorities.BodyFor`, which is what `Audiences.BodyShows` says |
| `AuthorityObject.AuthorityObject.NotifyAllChanged` | impl-ts/src/broadcast-state.ts:227-234 | the method tells every presence subscription whose body changed, by target and then id, as `Authorities.NotifyChanged` |
| `AuthorityObject.AuthorityObject.Elapse` | impl-ts/src/broadcast-state.ts:255-288 | the method expires, lapses, cleans and tells as `Authorities.OnAdvance` |
| `AuthorityObject.AuthorityObject.UnbindDevice` | impl-ts/src/broadcast-state.ts:296-316 | the method unbinds: grace from the first unbind, or records dropped at once when the grace is 0 |
| `AuthorityObject.AuthorityObject.RecvRecord` | impl-ts/src/broadcast-state.ts:326-361 | the method refuses a record for the first reason that applies, or takes it and tells whom it concerns |
| `AuthorityObject.AuthorityObject.RecvRevocation` | impl-ts/src/broadcast-state.ts:370-377 | the method keeps a revocation until the grant's end and ends every subscription the grant admitted |
| `AuthorityObject.AuthorityObject.Decide` | impl-ts/src/broadcast-state.ts:466-486 | the method admits by own device, presented grant, capability or policy, in that order, as `Authorities.Admit` |
| `AuthorityObject.AuthorityObject.RecvSubscribe` | impl-ts/src/broadcast-state.ts:488-520 | the method terminates, refuses, replaces or takes up a subscription as `Authorities.OnSubscribe` |
| `AuthorityObject.AuthorityObject.Play` | impl-ts/src/broadcast-state.ts:116-129 | a run of the object is a run of the value: the authority's laws hold after every event, and every event tells exactly whom it concerns |
| `Subscribers.ToldInOrder` | impl-ts/src/broadcast-state.ts:178-189 | in every run what a subscription is told is numbered from 1 without a gap, none of it terminal but perhaps the last |
| `Subscribers.EveryWordShown` | impl-ts/src/broadcast-state.ts:570-591 | a subscriber that hears what the authority tells it in order is shown every word of it and no other, however rejects, words of other subscriptions, its own clock and further requests come between, requests under the same id among them: nothing stale, nothing after the end |
| `Subscribers.Subscriber.Send` | impl-ts/src/broadcast-state.ts:553-556 | the method holds a request anew, pending and told nothing, under its id |
| `Subscribers.Subscriber.Recv` | impl-ts/src/broadcast-state.ts:570-591 | the method handles a reject or a notify: unknown, terminated and stale ones are dropped, the rest surfaced |
| `Subscribers.Subscriber.Elapse` | impl-ts/src/broadcast-state.ts:543-551 | the method advances the clock and surfaces, in the order first asked for, each active or pending subscription whose time has come, which lapses |
| `Subscribers.PassLapses` | impl-ts/src/broadcast-state.ts:543-551 | exactly those lapse and are surfaced, once each, and every other subscription stays as it was |
| `DeviceEvents.BothKeepsExactly` | impl-ts/src/events/device-events.ts:271-279 | while raw and deposited list agree on every alarm, an event keeps them so if and only if it is not a wait past which the raw list raises the silence of a gateway whose trapped clear is held back |
| `DeviceEvents.HoldDownKeepsMeaningExactly` | impl-ts/src/events/device-events.ts:495-535 | the two lists agree at every point of a run if and only if the run never raises a silence while its clear is held |
| `DeviceEvents.HoldDownKeepsMeaning` | impl-ts/src/events/device-events.ts:495-535 | in every such run the list of raw reports and the list of deposited ones hold the same alarms with the same severities; raw cleared equals deposited cleared or a clear is held; with nothing held they say the same |
| `DeviceEvents.DevicesNeverHide` | impl-ts/src/events/device-events.ts:503-518 | a run in which no device traps a clear under the list's own silence type never does, so the lists agree throughout it |
| `DeviceEvents.OwnTypeDisagrees` | impl-ts/src/events/device-events.ts:271-279 | a concrete run of two events, a trapped clear of a watched gateway's silence and a wait, after which the lists disagree on it |
| `DeviceEvents.OneEscalationPerRaise` | impl-ts/src/events/device-events.ts:281-290 | in every run an alarm escalates at most once for each time it was raised, and timers run exactly where one may |
| `Escalations.EveryEventAlarms` | impl-ts/src/events/device-events.ts:255-330 | the whole effect of every event on the alarm list: what is raised, re-raised, cleared, changed, counted and told, and each timer |
| `Escalations.EscalatesInTime` | impl-ts/src/events/device-events.ts:271-290 | in every run an eligible alarm's timer runs to the policy's time after it last became eligible, and after an advance none is overdue |
| `Escalations.EscalatesExactly` | impl-ts/src/events/device-events.ts:271-290 | an event escalates an alarm if and only if it is an advance that reaches the eligible alarm's timer, or raises its silence where the policy waits no time |
| `Escalations.HoldDoes` | impl-ts/src/events/device-events.ts:497-518 | the whole effect of a report on the hold-down: a clear waits unless one is held for its alarm already or nothing is to be held, and anything else is deposited at once and settles what was held for its alarm |
| `Escalations.ReleaseDoes` | impl-ts/src/events/device-events.ts:522-530 | an advance deposits exactly the held clears that are due and holds on to the others |
| `AlarmObjects.SortByDue` | impl-ts/src/events/device-events.ts:524-526 | sorting by due time and then key gives the one list in order |
| `AlarmObjects.AlarmList.Report` | impl-ts/src/events/device-events.ts:297-330 | the method raises, re-raises, clears, changes or counts as `DeviceEvents.OnReport` |
| `AlarmObjects.AlarmList.Elapse` | impl-ts/src/events/device-events.ts:271-290 | the method raises silent gateways in id order and escalates by due time and key, as `DeviceEvents.OnAdvance` |
| `AlarmObjects.HoldDown.Report` | impl-ts/src/events/device-events.ts:497-518 | the method holds a clear, or deposits and settles what was held, as `DeviceEvents.HoldReport` |
| `AlarmObjects.HoldDown.Elapse` | impl-ts/src/events/device-events.ts:522-530 | the method deposits the clears due by due time and key, as `DeviceEvents.HoldAdvance` |
| `AlarmObjects.Watch.Take` | impl-ts/src/events/device-events.ts:495-535 | a raw list and a hold-down feeding a second list, run side by side as objects, go on meaning the same if and only if no silence is raised while its clear is held |
| `Informs.EveryDepositAccounted` | impl-ts/src/events/device-events.ts:422-452 | in every run the deposits for an inform are as many as its pending entries refused and its answered ones lapsed, counted by the events that do so, and one more while it is held |
| `Informs.GoneExactly` | impl-ts/src/events/device-events.ts:440-449 | an event takes an inform out of the table if and only if it refuses it while pending or passes its time once answered, and deposits nothing for it |
| `Informs.AnswersInTime` | impl-ts/src/events/device-events.ts:433-438 | in every run an answered inform was accepted exactly 300 seconds before its time, and is held only while that has not come |
| `Informs.InformTable.Take` | impl-ts/src/events/device-events.ts:422-452 | the method handles inform, accepted, refused and advance as `Informs.Step` |
| `SignedSyslog.NothingLostOrRepeated` | impl-ts/src/events/syslog-sign.ts:603-672 | in every run no held message has a hash waited for under its algorithm, no number of a group is waited for twice, and the non-block messages received are, as a multiset, those held plus those deposited |
| `SignedSyslog.SignedMeansListed` | impl-ts/src/events/syslog-sign.ts:814-885 | in every run a message deposited as number n of a group has a hash that a verified Signature Block of the group lists for n |
| `SignedArrivals.EveryArrivalDoes` | impl-ts/src/events/syslog-sign.ts:577-885 | the whole effect of every arrival and advance on what is held, waited for, certified and deposited, refusals in the source's order |
| `SignedArrivals.ListedIsSettled` | impl-ts/src/events/syslog-sign.ts:850-884 | once a Signature Block has been taken up every number it lists is authenticated or its hash waits, and no held message has a hash that waits |
| `SignedOnce.StepFreshExactly` | impl-ts/src/events/syslog-sign.ts:850-871 | while no hash waits under an authenticated number, an event leaves one so if and only if it is a block one of whose hashes signs a held message while another hash waits under its number |
| `SignedOnce.RunFreshExactly` | impl-ts/src/events/syslog-sign.ts:850-871 | no hash ever waits under an authenticated number in a run if and only if none of its blocks does so |
| `SignedOnce.NumberSignsOnce` | impl-ts/src/events/syslog-sign.ts:814-885 | in every such run a number of a group signs at most one deposited message between ends of its session, and is then authenticated |
| `SignedOnce.StepSignsAgainExactly` | impl-ts/src/events/syslog-sign.ts:662-671 | an event signs a number already authenticated, and then once, if and only if it is a message of ours whose earliest match is a hash waiting under that number |
| `SignedOnce.NumberSignsTwice` | impl-ts/src/events/syslog-sign.ts:850-871 | for every digest, every signer and group, every certificate payload that passes the payload rules and any two messages of one number with different digests: five events after which both are deposited as that number, with two blocks listing them in turn |
| `SignedSyslog.RangesSay` | impl-ts/src/events/syslog-sign.ts:613-626 | the gaps reported hold exactly the numbers lost |
| `SignedSyslog.AssembledHolds` | impl-ts/src/events/syslog-sign.ts:761-766 | fragments that nowhere conflict are all found in what they assemble to |
| `SignedSyslog.AgreeingGrows` | impl-ts/src/events/syslog-sign.ts:752-758 | a fragment that passes the overlap check conflicts with none of those before it |
| `SyslogCollector.Assemble` | impl-ts/src/events/syslog-sign.ts:761-767 | copying fragments into a buffer and marking cover gives the payload `SignedSyslog.Assembled` and says exactly whether every position is covered |
| `SyslogCollector.Clash` | impl-ts/src/events/syslog-sign.ts:752-758 | scanning the overlap of two fragments finds a conflict exactly when there is one |
| `SyslogCollector.SyslogCollector.RecvOurs` | impl-ts/src/events/syslog-sign.ts:662-671 | the method deposits a message with the earliest waiting hash it matches, or holds it |
| `SyslogCollector.SyslogCollector.SignHash` | impl-ts/src/events/syslog-sign.ts:850-884 | the method skips an authenticated number, deposits the earliest held match, or lets the hash wait once |
| `SyslogCollector.SyslogCollector.RecvCertificate` | impl-ts/src/events/syslog-sign.ts:729-797 | the method ignores a repeat, ends an established session, checks and assembles fragments, and establishes, as `SignedSyslog.OnCertificate` |
| `SyslogCollector.SyslogCollector.RecvBlock` | impl-ts/src/events/syslog-sign.ts:686-711 | the method checks a block in the fixed order of refusals |
| `SyslogCollector.SyslogCollector.Elapse` | impl-ts/src/events/syslog-sign.ts:603-627 | the method deposits what is due unsigned and then tells the lost numbers as gaps, sorted when every session is properly named |
| `SyslogCollector.SyslogCollector.Play` | impl-ts/src/events/syslog-sign.ts:577-588 | every run of the object is a run of the value; from an empty collector nothing held matches what waits, every message is held or was deposited once, and what is signed was listed by a verified block |
| `Dsa.ModPow` | impl-ts/src/events/syslog-sign.ts:227-236 | square-and-multiply computes b^e mod m (1 when e is 0) |
| `Dsa.ModInv` | impl-ts/src/events/syslog-sign.ts:239-248 | the extended Euclidean loop returns w below m with w·a congruent to gcd(a, m), an inverse when that is 1 |
| `Dsa.LeadingBitsAre` | impl-ts/src/events/syslog-sign.ts:262-264 | the digest is cut to the number its leading bits spell: `z * 2^(outlen - N) <= digest < (z + 1) * 2^(outlen - N)` when the digest is longer than q, the digest itself otherwise |
| `Dsa.HonestAccepted` | impl-ts/src/events/syslog-sign.ts:259-272 | an honest signature satisfies the verification equation, whatever the digest and the secrets |
| `Dsa.DsaVerify` | impl-ts/src/events/syslog-sign.ts:259-272 | out-of-range signatures are refused; for the number z that the digest's leading bits spell, and an invertible s, the answer is whether the equation holds with its inverse; whatever is accepted meets the equation and every honest signature is accepted |
| `BerLoops.LenOctets` | impl-ts/src/events/snmp-answer.ts:21-26 | the loop writes the shortest definite length |
| `BerLoops.IntOctets` | impl-ts/src/events/snmp-answer.ts:33-43 | the loop writes the shortest two's complement form |
| `BerLoops.UintOctets` | impl-ts/src/events/snmp-answer.ts:46-51 | the loop writes the shortest unsigned form, a leading 0 where the top bit would be set |
| `BerLoops.OidOctets` | impl-ts/src/events/snmp-answer.ts:53-62 | the loops write the base-128 form of an object identifier |
| `BerLoops.BuildUsm` | impl-ts/src/events/snmp-answer.ts:88-98 | copying the digest over the zeros in place gives the message with the digest as authParams |
| `BerLoops.TlvAt` | impl-ts/src/events/usm.ts:78-97 | the cursor reads one element as `Ber.ReadTlv`, refusing what does not fit |
| `BerLoops.ChildrenOf` | impl-ts/src/events/usm.ts:103-112 | the loop reads the elements that exactly fill a span |
| `BerLoops.OidFrom` | impl-ts/src/events/usm.ts:148-167 | the loop reads base-128 subidentifiers of at most 64 bits, none unterminated |
| `BerLoops.Parse` | impl-ts/src/events/usm.ts:278-316 | parsing a message step by step gives `Snmp.ParseMessage` |
| `Ber.ReadsEnc` | impl-ts/src/events/snmp-answer.ts:28-30 | an element written at a place is read there, with its content where it was put |
| `Ber.IntReads` | impl-ts/src/events/snmp-answer.ts:33-43 | a written INTEGER reads back as the same number |
| `Ber.UintReads` | impl-ts/src/events/snmp-answer.ts:46-51 | a written unsigned value reads back as the same number |
| `Ber.OidReads` | impl-ts/src/events/snmp-answer.ts:53-62 | a written object identifier reads back as the same arcs |
| `Snmp.PlainMessageReads` | impl-ts/src/events/usm.ts:278-316 | a plaintext message the gateway builds parses to the same engine, boots, time, user, request-id and varbinds, with authParams exactly at the writer's computed offset |
| `Snmp.EncryptedMessageReads` | impl-ts/src/events/usm.ts:278-316 | an encrypted message parses to the same header and the same encrypted octets |
| `Snmp.DigestInPlace` | impl-ts/src/events/snmp-answer.ts:94-97 | writing the digest over the zeros at the computed offset gives the message built with the digest in it |
| `Snmp.DigestChecks` | impl-ts/src/events/usm.ts:421-426 | zeroing authParams where the reader finds them restores exactly the octets that were authenticated, so the recomputed digest is the one received (section 3.2 of RFC 3414) |
| `Snmp.CounterListReads` | impl-ts/src/events/snmp-answer.ts:46-62 | the counter a Report carries reads back as its object identifier and value |
| `UsmReceivers.OwnMessageAuthentic` | impl-ts/src/events/usm.ts:394-426 | a plaintext authenticated message built for a user passes the receiver's identification and digest checks |
| `UsmReceivers.CacheNeedsDigest` | impl-ts/src/events/usm.ts:427-437 | the engine cache changes only on a message whose user is known and whose digest checks, and only forward |
| `UsmReceivers.EveryMessageJudged` | impl-ts/src/events/usm.ts:385-470 | every message is refused for the first of the ten checks it fails and accepted when it fails none; an authentic one is refused as out of time exactly when its start or time is not within the window; the cache moves exactly on an authentic message of another engine that is newer |
| `UsmReceivers.AcceptedInOrder` | impl-ts/src/events/usm.ts:433-442 | in every run, of two messages accepted from one other engine the later is of a later start, or of the same start and at most 150 seconds behind; none is of start 2^31-1 |
| `UsmReceivers.UsmReceiver.Receive` | impl-ts/src/events/usm.ts:385-470 | the method takes the ten checks in order, and accepts or refuses as `UsmReceivers.OnReceive` |
| `TlsFrames.TlsFrames` | impl-ts/src/events/tsm.ts:143-175 | the framing loop cuts off the same messages, pending octets and close decision as `TlsFrames.Frames` |
| `TlsFrames.NothingLost` | impl-ts/src/events/tsm.ts:143-175 | the messages and the pending octets together are the stream; each message is one whole element; what is pending is undecided, or refused when closing |
| `TlsFrames.ArrivalsDoNotMatter` | impl-ts/src/events/tsm.ts:143-175 | if a does not close, framing a then b gives a's messages followed by the framing of a's pending with b, and the same close decision; if it closes, b only joins what is pending |
| `TlsFrames.ChoppingDoesNotMatter` | impl-ts/src/events/tsm.ts:143-175 | any chopping of a stream gives the messages and the close decision of the whole |
| `TlsFrames.RecordIsItsMessage` | impl-ts/src/events/tsm.ts:186-193 | a DTLS record is accepted exactly when it is one whole message, and then it is that message |
| `Canonical.JcsInjective` | impl-ts/src/did/webvh.ts:49-76 | two values with one canonical form are the same value (section 3.2 of RFC 8785) |
| `Canonical.StringReads` | impl-ts/src/did/webvh.ts:49-76 | a string written, escapes and all, is read back by a reader of section 7 of RFC 8259, which stops exactly at its closing quotation mark |
| `Canonical.NamesAscend` | impl-ts/src/did/webvh.ts:49-63 | members are written by name, ascending: a prefix first, otherwise by the first code unit that differs (section 3.2.3 of RFC 8785) |
| `WebvhLoops.Write` | impl-ts/src/did/webvh.ts:49-63 | writing a value, names sorted by code unit, gives its canonical form |
| `Webvh.CacheHoldsHistory` | impl-ts/src/did/webvh.ts:436-443 | when a log resolves against a version cached from an earlier accepted log, its entries up to that version are that log's apart from proofs, unless two of the contents hashed collide |
| `Webvh.SharedVersionSharedHistory` | impl-ts/src/did/webvh.ts:386-389 | two accepted logs that share version k share every entry up to k apart from proofs, and the log's identifier |
| `Webvh.AllLinked` | impl-ts/src/did/webvh.ts:386-389 | in an accepted log every version is its number and the hash of its content after the version before it |
| `Webvh.EveryEntryHandedOn` | impl-ts/src/did/webvh.ts:370-412 | in an accepted log nothing follows a deactivation, committed keys are the ones used, and every entry is validly signed by a key that may sign it |
| `WebvhHistory.AcceptedExactly` | impl-ts/src/did/webvh.ts:344-428 | a log is accepted if and only if each entry may stand where it does: its form, number, time, linked hash, parameters, handed-on settings, committed keys and proofs |
| `WebvhHistory.ParametersAre` | impl-ts/src/did/webvh.ts:271-305 | the parameters of an entry are well-formed if and only if each one present has its type and range |
| `WebvhHistory.SettingIsLast` | impl-ts/src/did/webvh.ts:340-375 | a setting is what the last entry to set it sets it to, or its default when none does |
| `WebvhHistory.ResolvedIsLast` | impl-ts/src/did/webvh.ts:445-456 | when a log resolves, version and document are those of its last entry, it says deactivated if and only if the last entry to set `deactivated` sets it true, and the ttl is the last one set, or 3600 |
| `WebvhHistory.ResolvesExactly` | impl-ts/src/did/webvh.ts:431-456 | a log resolves if and only if it has entries that may each stand where they do, is for the identifier asked for, is witnessed enough throughout, and holds the version remembered |
| `WebvhHistory.TooFewWitnessesNeverResolve` | impl-ts/src/did/webvh.ts:459-501 | a log with an entry that fewer of its witnesses approve than it asks for never resolves |
| `WebvhLoops.CheckProofs` | impl-ts/src/did/webvh.ts:401-412 | the loop over the proofs refuses one without a key or a failing authorised one, and asks for at least one authorised |
| `WebvhLoops.CheckWitnesses` | impl-ts/src/did/webvh.ts:465-501 | the loops over records and proofs accept exactly when every entry with a configuration has enough of its witnesses approving it or a later entry |
| `WebvhLoops.WalkLog` | impl-ts/src/did/webvh.ts:344-428 | walking the log line by line gives the verdict of `Webvh.CheckAll`, the first failing check first |
| `WebvhLoops.ResolveLog` | impl-ts/src/did/webvh.ts:328-457 | the method resolves as `Webvh.Resolve`; it refuses no log but one that is not `Resolvable`, and what it answers is of the last entry |
| `DnsNames.ReadName` | impl-ts/src/dht/pkarr.ts:110-135 | the cursor loop over labels and backward pointers terminates on every message and reads the name `DnsNames.NameAt` |
| `DnsNames.NameIsShaped` | impl-ts/src/dht/pkarr.ts:110-135 | a name that reads has labels of 1 to 63 octets and ends inside the message, past where it began (section 4.1.4 of RFC 1035) |
| `DnsNames.WireNameReads` | impl-ts/src/dht/pkarr.ts:373-378 | labels in wire form read back as the same labels wherever they stand |
| `DnsNames.ExpandRdata` | impl-ts/src/dht/pkarr.ts:409-429 | the loop over a type's layout gives the data with every name written out, or refuses data that does not fill it exactly |
| `DnsNames.FieldsReadAgain` | impl-ts/src/dht/pkarr.ts:409-429 | expanded data put anywhere in any message holds the same names and fixed octets |
| `DnsNames.ExpandedStays` | impl-ts/src/dht/pkarr.ts:409-429 | expanding what was expanded changes nothing (section 4 of RFC 3597) |
| `DnsPackets.ParseAnswers` | impl-ts/src/dht/pkarr.ts:143-174 | the loops over questions and records read the answers of a message whose every section parses and which ends where its last record does |
| `DnsPackets.Carry` | impl-ts/src/dht/pkarr.ts:441-460 | the loop keeps every foreign IN answer in message order with its names expanded, or refuses the whole message |
| `DnsPackets.CarriedStays` | impl-ts/src/dht/pkarr.ts:441-460 | a packet that holds just the records carried from another carries exactly them on again |
| `DnsReadings.NameSpelled` | impl-ts/src/dht/pkarr.ts:110-135 | after any run of labels a name ends at a zero octet, goes on where a pointer aims that is before the segment it is in, and is malformed at any other octet, pointer or end |
| `DnsReadings.ReadExactlyWhole` | impl-ts/src/dht/pkarr.ts:143-174 | a message is read if and only if its questions and records, each where the one before it ends, fill it exactly; its answers are then the first records, each as it stands |
| `DnsReadings.ExpandedIs` | impl-ts/src/dht/pkarr.ts:386-429 | for every type the data is handed on with its one or two names in full and its other octets kept, as section 4 of RFC 3597 lists the types, and is refused exactly when it is not so laid out |
| `DnsReadings.CarriedExactly` | impl-ts/src/dht/pkarr.ts:441-460 | what is carried is, in message order, each IN answer whose owner is not one of the publisher's under the zone in any letter case, with name, type, ttl and data in full; nothing is exactly when some such answer's data is malformed |
| `ZBase32.Encode` | impl-ts/src/dht/pkarr.ts:38-52 | the bit loop writes the alphabet's characters for the digits of five bits that spell the octets, the last one's spare bits zero |
| `ZBase32.Decode` | impl-ts/src/dht/pkarr.ts:61-74 | 52 alphabet characters read as the key their digits spell; anything else is malformed, nonzero padding is not canonical |
| `ZBase32.TextReads` | impl-ts/src/dht/pkarr.ts:61-74 | the text written for a key reads as the key |
| `ZBase32.OneTextPerKey` | impl-ts/src/dht/pkarr.ts:61-74 | a text reads as a key if and only if it is the text written for it, so no two texts read as one key |
| `SearchTrees.SearchTree` | impl-ts/src/kt/alias-transparency.ts:231-250 | for n of 1 or more the frontier terminates, is strictly increasing and ends at n-1; its i-th element plus one is n with all but its i+1 highest set bits cleared, so its length is the number of ones in n |
| `SearchTrees.Ladder` | impl-ts/src/kt/alias-transparency.ts:253-269 | the ladder holds v and v+1, repeats nothing, has length 2m where 2^(m-1)-1 <= v < 2^m-1, and any t that answers alike on every rung is v |
| `PrefixTree.PartInTime` | impl-ts/src/kt/alias-transparency.ts:100-108 | two leaves with distinct indexes part by bit 255, so the recursion never reads past it |
| `PrefixTree.RootIgnoresOrder` | impl-ts/src/kt/alias-transparency.ts:100-108 | the root does not depend on the order of the leaves |
| `PrefixTree.RootCommits` | impl-ts/src/kt/alias-transparency.ts:100-108 | with no collision and no all-zero hash among what is hashed, equal roots stand over the same leaves |
| `PrefixTree.RootsTellLeaves` | impl-ts/src/kt/alias-transparency.ts:367-376 | two answered roots are equal exactly when the leaves are the same |
| `LogTree.LogRoot` | impl-ts/src/kt/alias-transparency.ts:111-117 | the recursive loop computes the log tree's value over a range of leaves |
| `LogTree.ValueCommits` | impl-ts/src/kt/alias-transparency.ts:111-117 | with no collision, two lists of leaves have equal values if and only if they are the same, or one is the single leaf that is the other's value |
| `LogTree.OneLeafForMany` | impl-ts/src/kt/alias-transparency.ts:112-112 | the log whose one leaf is the value of a longer log has that value: a failing pair for every longer log |
| `LogTree.RootCommits` | impl-ts/src/kt/alias-transparency.ts:381-387 | with no collision, two logs of entries have equal roots if and only if they are the same entries in the same order, or the one entry of a log is spelled as the last input hashed for the other |
| `LogTree.RootsTellLogs` | impl-ts/src/kt/alias-transparency.ts:381-387 | over prefix roots of 32 octets, two logs of entries have equal roots if and only if they are the same, whatever their lengths |

## Left out

What the objects do not capture:

- Session, attempt, subscription, alarm and cached-engine records are values in maps that the methods reassign; that
  the source shares one mutable record between a map and a local variable (and a waiting hash with its group's set of
  authenticated numbers) is not modelled.
- The keys of an endpoint are a class of their own that the endpoint owns; in the source they are further fields.
- Library sorts are insertion or selection loops proved to give the one sorted list; a stable sort's order among equal
  keys is stated only where keys can be equal (forwarded rejects, expired queue entries).
- Emissions are values with the fields a property needs; the exact text of user interface emissions, JSON shapes and
  snapshots are not modelled. An `error` for an invalid state carries the offending message's id, which the
  compositions leave empty. Where the source's emission names the type of a message (queued, dequeued) or sends a grant in its
  own JSON, the model's carries the whole envelope and the grant's fields.
- A thrown "grant ids exhausted" is a flag after which an endpoint does nothing more.

Bounds of the compositions and hypotheses:

- ForkedCall: links are first in, first out and lose nothing, bindings stay but for devices that join, the relay does
  not forget the attempt, the composition starts when the relay has just forked the invite, and an update's own
  traffic is taken into account only in `Updates`.
- OnlyExpiredRing: as `LeftRingingExactly`, leaves out an answer that comes from the very address invited, which no leg of the
  relay has and which draws no cancel for the callee's other devices.
- SmallerCallIsLeft: two endpoints, one call each way and what rings, answers and ends it; no timers, and nothing said inside
  the call; neither end places its call while it is in the other's (a second call then, not a crossing one); both
  identities belong to the endpoints they name.
- Updates: update ids are fresh and the session is ACTIVE at both ends at the start.
- StepKeeps: of the authority, leaves out a request that is taken up under the id of another subscription still held, or for
  no topics at all; the source would hold two subscriptions of one id, or one it cannot notify at its end. `Play`, the runs of
  `Revocations` and those of `Subscribers` leave out the same.
- EveryWordShown: the subscriber hears the authority's words in order, and the authority takes up no second request under the id.
- OwnMessageAuthentic: for plaintext messages; an encrypted one differs in its last field, which
  `EncryptedMessageReads` covers.
- CacheHoldsHistory: asks that no two of the contents hashed along the two logs collide, not that a hash has no collisions.
- PrefixTree.RootCommits: likewise, among the inputs hashed for the two roots, and that none of them hashes to 32 zero octets;
  the log tree's lemmas ask the former alone, and that timestamps fit their eight octets, which the source's encoder demands.
- CarriedStays: asks that the records fit a packet (fewer than 65,536, each with data shorter than 65,536 octets); the
  names a publisher replaces are a parameter, whatever they are.
- Seconds, sequence numbers and lengths are unbounded integers but where a width matters (epochs, 32-bit SNMP values,
  64-bit subidentifiers, 16-bit DNS fields).
- Identities, record keys and revocation keys are strings compared by code unit; the source compares some of them by
  code point, which differs only for text outside the basic plane.

Taken as parameters: digests, HMACs, signatures and decryption; JSON, syslog, UTF-8, DID, key and time parsing; the
payload rules of a Certificate Block after assembly; the configured users and signers.

Not modelled:

- The introduction exchange but for the grants it leads to: requests, contact tokens, grants held and the keys they carry.
- The invite's optional reference to a held grant, which neither admits nor refuses.
- Two records whose device and audience run together to one key string are one key here as in the source.
- The TSM and `snmpAnswer` front ends, `parseMpis`, `certDsaKey`, `pgpDsaKey`, `locate` and `parseBlock`: the reading of
  keys and of blocks out of structured data.
- `nextTs`, `select`, `store`, `readHint`, `resolveDevices`, `characterStrings` and `endpointOf`: short case splits over
  what is modelled or over library calls.
- `acceptConfiguration`, `aliasQuery`, `aliasMonitor`, `aliasHead` and `aliasLookupResult`: tables and short case splits.
- `translateTrap`, `mapEvent`, `syslogSeverity`, `tsmName`, `mapSan`: tables and short case splits.
- The messaging machines (hub, mailbox, client, wake, recording), media checks, the envelope pipeline and the runners.
