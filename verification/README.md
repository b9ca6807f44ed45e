# Verification of the channel command engine and the authenticated-channel handshake

This project models three parts of the xx network client in Dafny 4.11 and proves what
they guarantee. It verifies with `dafny verify dfyconfig.toml`. Nothing was executed.

**The channel command engine** (`channels/`). Pins, mutes and deletions reach a channel as
admin commands with a lease. `ActionLeaseList` keeps the live leases in a list sorted by
trigger and in a map by channel and fingerprint, and one thread adds, removes, replays,
reschedules and expires them. `replayBlocker` decides which of two conflicting commands is
current, `CommandStore` holds their bodies, `ActionSaver` keeps actions that came before
their target, `mutedUserManager` the muted users, and the event dispatcher ties them
together. Each component is a class whose methods are proved against pure functions
(`LeaseList`, `Blocker`, `CommandStore`, `Saver`, `MutedUserManager`). The pure functions
make up a state machine (`ChannelEngine`). A message is handled as a job that advances from
one call into another component to the next (mute check, check of saved actions, listener,
event model, saved actions, muted list), in any interleaving with other jobs; each
goroutine and each iteration of the lease thread is a step too, and so is a restart over
the same storage. `Dispatcher` has one method per step, proved to perform exactly that
step, so the theorems over all runs of the engine hold of it. What the operations do is
stated apart from the functions that define them: `PassTheorems` tells a pass of the lease
thread by the times of the leases alone, `CommandTheorems` follows commands through the lease
system, `ModelTheorems` the messages of the event model, `SavedTheorems` the saved actions and
`DispatchTheorems` the handlers.

**The authenticated-channel handshake** (`auth/`). A party asks, the other confirms, and
requests may cross. `AuthFormat` and `AuthRequest` model the nested byte formats as slices
on shared buffers; `TieBreak` the choice of who answers; `Handshake` what each call into the
store does to what one party keeps about one partner; `AuthState` is the imperative party
with its store. `HandshakeSteps` takes the operations apart: `Request`, `Confirm` and the
processing of a message run in goroutines of their own and interleave call by call (partner
check, `AddSent`, `CheckIfNegotiationIsNew`, `DeleteReceivedRequest`, `HandleSentRequest`,
`AddReceived`, and inside `confirm` the lock, `AddPartner`, the sending and the release).
`HandshakeRuns` lets any number of parties make these steps over a network that loses,
repeats and reorders messages, with deletions by the user, and with processes that end or
crash at any point. `HandshakeTheorems` has what every such run gives, `CrossedRequests` what
holds between two parties that delete no request of each other.

**Notification matching** (`channels/notifications.go`, `channels/pingTags.go`): the early
return loop over a filter's tags, whose order comes from Go map iteration.

## What the code does otherwise than it says

The model follows the code. These departures are stated as lemmas.

- A lease whose fingerprint is already on the list is not updated: `addMessage` hands the
  new packet, whose list element is nil, to `updateLease`, and the thread stops. The same
  mute delivered twice does it (`RepeatedMuteCrashes`); `CrashedExactly` says when, over
  every run.
- When a lease expires its undo is emitted, but the undo carries the same times and is
  refused as expired, so no message is unpinned and no user unmuted by expiry
  (`ExpiryNeverUndoes`; `ExpiryLeavesMuted` is a run).
- `verifyReplay` accepts an older repeat of the stored verb, so the stored round can go
  back (`StoredRoundCanGoBack`); `StoredOverRun` says exactly when it does not.
- A mute and the unmute that follows it can be applied in the wrong order, because the lease
  system's verdict and the change of the muted list are two calls (`OvertakenMuteDisagrees`);
  `LastApplicationDecides` says exactly when blocker and muted list agree all the same. A
  process that ends between the two calls loses the mute (`RestartLosesMute`). Two payload
  versions break the agreement even in order, because the version is part of the fingerprint
  (`MuteAgreementExactly`, `TwoVersionsDisagree`).
- A message whose handling began before its sender was muted is still delivered
  (`MutedUserIsHeardOnce`), and nothing else of theirs is (`MutedUserIsHeardExactly`).
- A deletion is lost when the message is handed to its listener after the deletion looked
  for it; there are two windows for that (`DeleteConfluence`, `DeletionCanBeLost`).
- A user's deletion can be saved for a later arrival although only the admin's should:
  when the message is deleted between the permission check and the deletion
  (`SavedProvenanceExactly`, `UserDeletionIsSaved`).
- Saved actions are written to storage but no production code loads them
  (`SavedActionsAreNotLoaded`). One is also lost when its message arrives but reaches no
  listener, because its sender is muted or its type has none (`SavedActionIsApplied`).
- A second start without a write in between moves a trigger that the first start had put
  ahead, although it is not past (`ReloadExactly`, `TwoStartsMoveFutureTrigger`).
- Forgetting a command takes two calls; a command with its fingerprint accepted in between
  loses its body (`AcceptedWhileForgetting`), and a process that ends there leaves a body
  without an entry. `LedgerRuns.AgreeExactly` says when entries and bodies agree over runs of
  the single calls; in the engine's runs the two are one step.
- Removing a channel that has no lease leaves its blocker entries and command bodies
  (`ChannelRemoval`, `LeavingKeepsUndoneCommand`).
- A lease from the future can overflow the 64-bit remaining lease; it then fires at its end,
  more than a message life away (`TriggerWindow`, `RemainderCanOverflow`).
- The alarm is set before replayed leases are rescheduled, so it can be missing or too late
  (`AlarmIsRightExactly`, `AlarmCanBeMissed`).
- A wrong version byte of a request is reported and then ignored, and a public key outside
  the group is an error only if the version is wrong too; otherwise the receiver goes on
  with a nil key and no error, which the model calls a panic (`VersionIsIgnored`).
- Of crossed requests the smaller party is to answer the larger one's. It does not if the
  user asks while its `Process` is between `HandleSentRequest` and `AddReceived`: the request
  is dropped, the larger party bails, and neither ever becomes a partner (`CrossingCanDie`;
  `CrossedRequestsResolve` and `CrossingStaysDead` say exactly when, over every run). The same
  holds if the process ends before `AddReceived`.
- A request between the consumption of the sent request and `AddReceived` finds the old
  fingerprint still registered and stops the program (`RequestCanCrash`, `CrashesExactly`).
- Two partners can hold sessions that do not match. The partner check of `Request` and
  `AddSent` are two calls, so the larger party can ask after it has answered, and the smaller
  auto-confirms that request before the answer arrives (`LateRequestUnpairs`). A process that
  ends within `confirm` after `AddPartner` keeps the request, and answering it again sends
  keys that its own session does not hold (`TornConfirmUnpairs`; the source warns of a bricked
  state there). Deleting an answered request and asking again does it too
  (`DeletionBreaksPairing`). `PairedExactly` says when two sessions match in every run, and
  `PairedUnlessBothAnswered` when they do without deletions and such restarts.
- A repeated request is never answered with the stored confirmation, although that is what
  the code for repeats is for: it resends while there is no partner, but a confirmation is
  stored only after the partner was made (`StoreStaysExclusive`).
- `DeleteReceivedRequest` does not write the list of requests back, so a request it removed
  is there again after a restart (`AuthState.Reload`). It also looks its request up again
  after waiting for its lock and then uses the result unchecked: a new request that waits
  while the old one is confirmed stops the program (`NewRequestCanCrash`). Without deletions
  that cannot happen (`NothingElseCrashes`).
- `DeleteRequest` leaves the confirmation's fingerprint registered: asking again stops the
  program until a restart (`AskingAfterDeletion`).
- The reported ping type depends on the order of the tags when several matched tags have
  different unranked types (`Notifications.OrderFreeExactly`, `OrderCanMatter`).

## Assumptions

- Each call of one component into another is atomic, except that `HandleReceivedRequest`,
  whose handler makes calls itself, is taken apart at its lock and at those calls, and
  `DeleteReceivedRequest` where it waits for that lock. In the engine's runs an iteration
  of the lease thread is atomic too, in particular the forgetting of a command in blocker and
  command store, which `LedgerRuns` takes apart; storage calls do not fail; the clock does not run backwards inside the engine; Go channels have
  no capacity limit, and since a sender may be delayed before it sends, the thread may
  receive what waits for it in any order.
- Hashes do not collide. A command fingerprint is the triple of channel, action and payload
  (`HashInputInjective` is why the hashed string determines them); the 8-byte fingerprint of
  the unsanitized payload is taken as the payload. JSON and protobuf encodings are bijective.
- A random draw is any value of its range, chosen by a seed.
- The event model is a map of messages that keeps the first insertion of an identifier.
  Extension listeners have no effect on the engine. A replayed admin message is dispatched
  again as a message of its own.
- Lease messages are referred to by fingerprint instead of by pointer.
- Times are instants. The loading of leases compares `lm.LeaseTrigger == lm.LeaseEnd` as Go
  structs (channels/lease.go:846), which can differ for one instant when the time zone of the
  process has changed; the model compares the instants.
- Cryptographic keys are symbolic: a Diffie-Hellman secret is the pair of its private keys,
  and a ciphertext opens exactly under the secret it was sealed with. Contacts carry the
  partner's true historical key, and all parties are honest. Fresh keys are not assumed.

## Model

| member | source | states |
|---|---|---|
| LeaseTrigger.RandDurationInRange | channels/lease.go:735-754 | the draw lies in the requested range |
| LeaseTrigger.DroppedExactlyWhenElapsed | channels/lease.go:693-732 | a message is dropped exactly when its elapsed time reaches its lease, in saturating 64-bit and in exact arithmetic; the grace-period drop is never taken |
| LeaseTrigger.TriggerWindow | channels/lease.go:693-732 | a trigger lies in the future, never after a finite lease's end, is that end or lies in the second half of a message life, and stays within a message life exactly when the remaining lease does not overflow |
| LeaseTrigger.TriggerExactly | channels/lease.go:693-732 | a message whose lease is running is triggered in the second half of a message life when its lease is valid forever or has at least a message life left that a duration holds, and at the end of its lease otherwise |
| LeaseTrigger.TriggerDraws | channels/lease.go:712-754 | every instant of that window can be drawn |
| Fingerprint.HashInputInjective | channels/commandStore.go:209-224 | the hashed string determines channel, action and payload |
| LeaseOrder.InsertKeepsOrder | channels/lease.go:490-522 | insertion keeps the list sorted by trigger |
| LeaseOrder.InsertIsStable | channels/lease.go:490-522 | a new lease goes behind the leases of the same trigger, which keep their order |
| LeaseOrder.InsertAllIsStable | channels/lease.go:490-522 | building the list by insertion is a stable sort of the arrivals |
| LeaseOrder.RepositionIsRemoveThenInsert | channels/lease.go:502-522 | moving a lease by a scan over the list that still holds it out of place equals removing it and inserting it |
| LeaseOrder.KeptIsSuffix | channels/lease.go:257-328 | in a sorted list the due leases are exactly the head before the first future trigger |
| LeaseOrder.AlarmIsLeast | channels/lease.go:330-339 | the first lease that is not due has the least trigger of all that are not |
| LeaseOrder.AlarmIsRightExactly | channels/lease.go:330-356 | the alarm is the next time the list after the pass needs attention exactly when no lease is rescheduled ahead of it, and without an alarm exactly when none is rescheduled |
| LeaseOrder.AlarmCanBeMissed | channels/lease.go:330-356 | a pass that replays its only lease sets no alarm for it |
| LeaseOrder.PassKeepsOrder | channels/lease.go:257-356 | after a pass the list is sorted without duplicates, and exactly the ended leases are gone |
| LeaseOrder.PassFate | channels/lease.go:257-356 | each lease is untouched, renewed with its drawn trigger, or gone, as its fate says |
| LeaseOrder.PassOrigin | channels/lease.go:257-356 | every lease after a pass is an untouched one or the renewal of a replayed one |
| LeasePass.SequentialPassRefinesFilter | channels/lease.go:257-356 | scanning only the head, then removing and rescheduling one by one, gives the same list, undos and replays as a filter over all leases |
| LeasePass.ScanCollects | channels/lease.go:257-328 | what the scan appends to its lists is what the fates of the scanned leases say |
| LeasePass.SequentialPassForgets | channels/lease.go:341-356 | the commands forgotten are the marked ones and those that ran out while being rescheduled |
| LeasePass.ForgottenAreEnded | channels/lease.go:341-356 | the commands forgotten are exactly those of the leases that end |
| PassTheorems.UntouchedExactly | channels/lease.go:257-281 | a lease is in the list after a pass with its trigger exactly when that is later than a millisecond before the reading |
| PassTheorems.RenewedExactly | channels/lease.go:613-643 | every other lease is there exactly when its command is stored, its trigger was before its end and its lease is running, and then with the trigger its lease gives it after the pass |
| PassTheorems.ForgottenExactly | channels/lease.go:341-356 | the commands forgotten are those of the leases that leave the list |
| PassTheorems.AlarmExactly | channels/lease.go:330-339 | the alarm is the least trigger later than a millisecond before the reading, and none without one |
| PassTheorems.UndosExactly | channels/lease.go:295-315 | an undo is emitted once and in order for each lease with a stored command that fires at its end or later, with the lease's payload and times and the rest of the stored command |
| PassTheorems.SendsExactly | channels/lease.go:316-328 | the encrypted payload of the stored command is sent once and in order for each lease that fires before its end |
| LeaseIndex.IndexAnswers | channels/lease.go:426-451 | the map finds a lease exactly when the list holds it, at the position and with the contents of the list |
| LeaseIndex.AddGood | channels/lease.go:426-451 | adding keeps list, map and storage coherent and is a sorted insertion |
| LeaseIndex.DeleteGood | channels/lease.go:563-608 | removing keeps list, map and storage coherent, with no empty inner map, and drops that lease only |
| LeaseIndex.RetimeGood | channels/lease.go:502-522 | repositioning keeps list, map and storage coherent |
| LeaseIndex.DropLeasesGood | channels/lease.go:653-682 | removing a channel keeps list, map and storage coherent and leaves exactly the other channels' leases in order |
| LeaseIndex.ReloadedExactly | channels/lease.go:838-851 | a stored lease whose trigger is not past is loaded as it was; of another the trigger, and the end if it was the trigger, lies 5 to 30 minutes ahead |
| LeaseIndex.ReloadExactly | channels/lease.go:838-851 | a lease comes back from storage unchanged exactly when its stored trigger is not past, or when it was moved by the last load, not written since, and is moved to the same instant; otherwise its trigger lies 5 to 30 minutes ahead |
| LeaseIndex.TwoStartsMoveFutureTrigger | channels/lease.go:838-851 | of two starts ten minutes apart the second brings a trigger forward that is not past |
| LeaseDisk.IndexIsTable | channels/lease.go:426-451 | the map of a coherent state is determined by its list |
| LeaseDisk.StoreSound | channels/lease.go:860-870 | writing back the one channel that changed keeps disk and list in agreement, up to what the last load moved, and every stored lease in order |
| LeaseDisk.PassSound | channels/lease.go:341-356 | so do all the writes of a pass |
| LeaseDisk.LoadSound | channels/lease.go:819-855 | whatever storage holds loads into a sound list with the same keys, whose leases end no earlier than their commands say |
| LeaseDisk.SoundReload | channels/lease.go:819-855 | every live lease is stored, and comes back from a load unchanged exactly when its stored form does |
| ActionLeaseList.LeaseList.FindSortedPosition | channels/lease.go:515-522 | the scan finds the first lease that fires after the given time |
| ActionLeaseList.LeaseList.StoreLeases | channels/lease.go:860-870 | writes one channel's record, deletes an empty one, and rewrites the channel list when asked |
| ActionLeaseList.LeaseList.AddMessage | channels/lease.go:426-451 | inserts a new lease in order and keeps the structure valid; panics exactly when the fingerprint is live, changing nothing |
| ActionLeaseList.LeaseList.InsertLease | channels/lease.go:490-497 | list and map grow by one lease and stay in order |
| ActionLeaseList.LeaseList.RemoveMessage | channels/lease.go:563-608 | the lease leaves list, map and storage; its command is forgotten exactly when it expired |
| ActionLeaseList.LeaseList.Retime | channels/lease.go:502-509 | the list is repositioned and everything stays coherent |
| ActionLeaseList.LeaseList.UpdateLeaseTrigger | channels/lease.go:613-643 | a replayed lease gets a new trigger or, run out, is removed with its command |
| ActionLeaseList.LeaseList.RemoveChannel | channels/lease.go:653-682 | drops a channel's leases, entries and bodies; does nothing for a channel without a lease |
| ActionLeaseList.LeaseList.Scan | channels/lease.go:257-328 | the loop stops at the first lease whose trigger is later than a millisecond before the reading taken for it, and has collected the removals, replays, undos and sends of those before |
| ActionLeaseList.LeaseList.Pass | channels/lease.go:257-356 | an iteration turns the list into the filtered list, writes the touched channels back, forgets the ended commands, emits each undo and each replay once, and sets the alarm |
| ActionLeaseList.LeaseList.LoadAll | channels/lease.go:819-855 | succeeds exactly when every listed channel has a record, and then list and map are what loading makes of the stored leases, in order |
| ActionLeaseList.LeaseList.Reopen | channels/lease.go:819-855 | a new process over what a valid list stored is valid again |
| ChannelStorage.OperationsStaySynced | channels/replayBlocker.go:283-293 | storing only the touched channel, and the channel list only when a channel appears or disappears, keeps disk equal to memory |
| ChannelStorage.LoadRebuilds | channels/replayBlocker.go:262-278 | loading what is stored gives back memory |
| ChannelStorage.OperationsStayBacked | channels/actionSaver.go:383-393 | over storage of a former process, every operation still keeps disk in agreement with what memory holds |
| ChannelStorage.LoadRebuildsExactly | channels/actionSaver.go:350-393 | loading gives back memory exactly when memory is not empty or nothing is listed |
| ChannelStorage.LoadTable | channels/replayBlocker.go:262-278 | the loading loop returns the stored table, or an error exactly when a listed channel has no record |
| ChannelTypes.DoAndUndoShareKey | channels/eventModel.go:901-909 | two commands have one fingerprint exactly when they differ at most in doing or undoing |
| ReplayBlocker.AcceptAgrees | channels/replayBlocker.go:139-177 | accepting a command keeps an entry exactly where a body is stored, with equal payload and round |
| ReplayBlocker.AcceptStores | channels/replayBlocker.go:139-177 | under the fingerprint of an accepted command its body has the command's channel, message ID, type, encrypted payload, times, lease, rounds and origin with the content sanitized, its entry the round and the payload as it came, and nothing else changes |
| ReplayBlocker.ForgetAgrees | channels/replayBlocker.go:181-205 | expiry keeps that agreement |
| ReplayBlocker.AcceptedWhileForgetting | channels/lease.go:584-604 | a command accepted between the removal of an entry and of its body leaves them in agreement exactly when it has another fingerprint |
| LedgerRuns.AgreeExactly | channels/lease.go:584-604 | over every interleaving of accepted commands with the single calls that forget a command or a channel, and of processes that end between them, entries and bodies agree exactly when no fingerprint was accepted between its two removals and none was left behind there |
| ReplayBlocker.ForgetChannelAgrees | channels/replayBlocker.go:209-234 | removing a channel keeps the agreement and removes exactly that channel's entries and bodies |
| ReplayBlocker.ForgetEachAgrees | channels/lease.go:341-356 | forgetting a list of commands keeps agreement and storage, removes exactly their bodies, and changes no entry that stays |
| ReplayBlocker.FlipsOnlyForward | channels/replayBlocker.go:139-157 | the stored verb changes only for a command of a strictly greater originating round |
| ReplayBlocker.StoresNewestExactly | channels/replayBlocker.go:139-157 | the stored round is the greatest seen throughout a history exactly when no command repeats the stored verb from an older round |
| ReplayBlocker.VerifyFollowsStored | channels/replayBlocker.go:107-177 | verifying a target's commands in turn stores what the history function says |
| ReplayBlocker.CommandStore.SaveCommand | channels/commandStore.go:49-91 | the body is stored under the fingerprint of its own parts and no other body changes |
| ReplayBlocker.CommandStore.LoadCommand | channels/commandStore.go:94-108 | returns the stored body, or nothing exactly when there is none |
| ReplayBlocker.CommandStore.DeleteCommand | channels/commandStore.go:111-118 | removes that body only |
| ReplayBlocker.Blocker.VerifyReplay | channels/replayBlocker.go:107-177 | refuses exactly a contradicting command that is not newer, and then queues a replay of the stored one; otherwise stores entry and body, in memory and on disk |
| ReplayBlocker.Blocker.RemoveCommand | channels/replayBlocker.go:181-205 | removes the entry, and the channel when it was the last, in memory and on disk |
| ReplayBlocker.Blocker.RemoveChannelCommands | channels/replayBlocker.go:209-234 | removes a channel's entries and their bodies |
| ReplayBlocker.Blocker.LoadAll | channels/replayBlocker.go:262-278 | loads the stored entries or reports a missing record |
| ActionSaver.MergedIsFirstWinner | channels/actionSaver.go:174-214 | after any sequence of adds the saved action is a deletion if there was one, otherwise one of the latest, and the first such |
| ActionSaver.OrderFreeExactly | channels/actionSaver.go:174-214 | the saved action is the same for every permutation exactly when there are not two different possible winners |
| ActionSaver.DistinctTimesAreOrderFree | channels/actionSaver.go:174-214 | distinct timestamps and at most one deletion suffice |
| ActionSaver.AddSavedMerges | channels/actionSaver.go:174-214 | the table holds, per target, the merge of what was added |
| ActionSaver.PurgedExactly | channels/actionSaver.go:117-140 | the actions left are those received within the last 24 hours, as they were |
| ActionSaver.DropStale | channels/actionSaver.go:117-140 | the loop keeps exactly the actions no older than 24 hours |
| ActionSaver.Saver.AddAction | channels/actionSaver.go:174-214 | memory and disk hold the merged action, and nothing else changes |
| ActionSaver.Saver.CheckSavedActions | channels/actionSaver.go:227-261 | reports a saved deletion or returns the saved update, and hands its removal to a goroutine |
| ActionSaver.Saver.DeleteAction | channels/actionSaver.go:266-287 | removes whatever is saved for the target, in memory and on disk |
| ActionSaver.Saver.RemoveChannel | channels/actionSaver.go:293-308 | removes a channel's actions, in memory and on disk |
| ActionSaver.Saver.Purge | channels/actionSaver.go:117-140 | drops exactly the stale actions and the channels left empty, in memory and on disk |
| ActionSaver.Saver.LoadAll | channels/actionSaver.go:350-378 | loads what is stored without the stale actions |
| MutedUsers.MutedUserManager.MuteUser | channels/mutedUsers.go:71-90 | the user is muted in memory and on disk |
| MutedUsers.MutedUserManager.UnmuteUser | channels/mutedUsers.go:93-118 | the user is unmuted in memory and on disk; an empty channel disappears |
| MutedUsers.MutedUserManager.IsMutedIn | channels/mutedUsers.go:122-136 | answers exactly whether the user is muted there |
| MutedUsers.MutedUserManager.RemoveChannel | channels/mutedUsers.go:170-185 | forgets a channel's muted users in memory and on disk |
| MutedUsers.MutedUserManager.LoadAll | channels/mutedUsers.go:221-238 | loads the stored list or reports a missing record |
| EngineInvariants.DispatchIsSound | channels/eventModel.go:248-333 | whatever is registered, pin and mute handlers are reached only by their own type from the admin, and no default handler by a muted sender |
| EngineInvariants.StepKeepsInv | channels/eventModel.go:422-936 | every step of the engine keeps storage, ledger, lease, handler and provenance invariants |
| EngineInvariants.RunKeepsInv | channels/eventModel.go:337-377 | so does every run |
| EngineSteps.LedgerAfter | channels/replayBlocker.go:107-177 | outside the lease thread the ledger changes exactly by the command that a step gets accepted |
| EngineSteps.ExpiryNeverUndoes | channels/lease.go:304-315 | in every reachable state, running an emitted expiry undo changes nothing |
| EngineSteps.MutedAfter | channels/mutedUsers.go:71-136 | a user is muted after a step exactly when it applies a mute to them, or applies nothing and they were muted |
| EngineTheorems.LedgerAndImagesAgree | channels/replayBlocker.go:107-370 | in every run a body is stored exactly where the blocker has an entry, with equal payload and round; a reload rebuilds blocker and muted list, and the saved actions exactly when any are in memory or none are listed |
| EngineTheorems.SavedActionsAreNotLoaded | channels/actionSaver.go:68-79 | a restart leaves the saved actions on disk and out of memory |
| EngineTheorems.LeasesReload | channels/lease.go:819-855 | in every run, whatever a restart loads has the keys of the live leases, and leaves each unchanged exactly when its stored trigger is not past or is moved to the same instant again |
| EngineTheorems.ChannelRemoval | channels/lease.go:653-682 | removing a channel that has a lease removes exactly its leases, entries and bodies; otherwise nothing |
| EngineTheorems.AdminProvenance | channels/eventModel.go:312-404 | in every run each stored command, lease packet, undo and saved pin came from the admin |
| EngineTheorems.SavedProvenanceExactly | channels/eventModel.go:748-767 | throughout a run every action saved or about to be saved is the admin's exactly when no user's deletion finds the message gone that it was allowed for |
| EngineTheorems.VerbFlipsOnlyForward | channels/replayBlocker.go:107-177 | in every step of every run a stored verb flips only for a strictly later round |
| EngineTheorems.StoredOverRun | channels/replayBlocker.go:107-177 | over every run in which a key is not forgotten, its entry is what the reports about it left, and the stored round is the greatest reported throughout exactly when none repeats the stored verb from an older round |
| CommandTheorems.SubmissionExactly | channels/lease.go:364-485 | a command is accepted exactly when its lease is running and no other one with its fingerprint and a round not older is stored; then a lease with its times and its trigger, or for an undo a removal, is queued; an outdated one asks for a replay |
| CommandTheorems.ReplaysExactly | channels/replayBlocker.go:139-165 | every step adds to the waiting replays the fingerprint of the outdated command it submits, and no other |
| CommandTheorems.QuickReplayExactly | channels/lease.go:402-422 | a replay queues the stored command with its own times to fire 3 to 10 minutes ahead, if it is stored, and does nothing else |
| CommandTheorems.TakenExactly | channels/lease.go:232-247 | a lease taken in is on the list as it was queued, or the thread stops because the fingerprint is live; a removal takes exactly that lease off; neither touches what is stored of any command |
| CommandTheorems.IterationExactly | channels/lease.go:257-356 | an iteration emits an undo for each lease that fires at its end or later and forgets exactly the commands of the leases that leave the list |
| CommandTheorems.LeavingExactly | channels/joinedChannel.go:182-210 | leaving unmutes the users of that channel only and queues its removal |
| CommandTheorems.StoredIsLastAccepted | channels/replayBlocker.go:139-177 | in every run the body stored under a fingerprint is the last accepted command with it, but for the sanitized content |
| CommandTheorems.SentIsLastAccepted | channels/lease.go:316-328 | what an iteration sends after any run is, lease by lease, the encrypted payload of the last accepted command with the fingerprint of the lease |
| ModelTheorems.ArrivesExactly | channels/eventModel.go:422-434 | an arriving message waits to be checked with whether its sender is muted |
| ModelTheorems.ModelAfter | channels/eventModel.go:580-865 | what every step does to every message of the event model: brought in unpinned under its sender, deleted, pinned or unpinned, or left alone |
| ModelTheorems.UserDeletionExactly | channels/eventModel.go:748-760 | a user's deletion goes on exactly when its sender is the author of its target in the event model |
| ModelTheorems.DeletedWithPermission | channels/eventModel.go:748-762 | in every run a message leaves the event model only for a deletion of it that arrived from the admin, or from a user who was its author in the event model when it was received |
| ModelTheorems.AuthorIsSender | channels/eventModel.go:580-718 | in every run a message of the event model arrived from its author |
| ModelTheorems.PinnedIsLastApplied | channels/eventModel.go:816-862 | in every run a message is pinned exactly when the last pin or unpin applied to it since it came in was a pin |
| DispatchTheorems.ReachedExactly | channels/eventModel.go:248-404 | in every run a message reaches the default listener of its type, or the extension registered for it first since the process started, exactly when that takes messages from where it comes and, for a muted sender, from muted ones |
| SavedTheorems.KeptExactly | channels/actionSaver.go:144-222 | what a deletion or pin that missed its message leaves saved, and when it does not replace what is |
| SavedTheorems.PurgeExactly | channels/actionSaver.go:117-140 | a purge leaves exactly the actions received within the last 24 hours |
| SavedTheorems.CleanupExactly | channels/actionSaver.go:266-287 | the goroutine of an arrived message takes off what is saved for it and nothing else |
| SavedTheorems.CheckExactly | channels/actionSaver.go:227-260 | an arriving message with a saved deletion goes no further, one with another saved action takes it along, and what was saved is to be taken off |
| SavedTheorems.AlongExactly | channels/eventModel.go:442-472 | a message keeps its saved action along until the last call of its listener, which starts it |
| SavedTheorems.SavedActionIsApplied | channels/eventModel.go:435-472 | in every run the saved action of a checked message is on its way until it is applied, its message reaches no listener, or the process ends |
| SavedTheorems.StartedPinIsSubmitted | channels/eventModel.go:544-566 | a started pin is handed to the lease system and applied if that accepts it |
| CrashTheorems.ListedExactly | channels/lease.go:226-253 | over every run, restarts included, the list holds a key exactly when the thread took a lease for it and has not dropped it since |
| CrashTheorems.CrashedExactly | channels/lease.go:426-451 | along every run the lease thread is down exactly when it took a lease for a key it had taken before and not dropped, and was not restarted since |
| MuteTheorems.MutedIsLastApplied | channels/mutedUsers.go:71-136 | in every run a user is muted exactly when the last thing applied to them was a mute |
| MuteTheorems.LastApplicationDecides | channels/eventModel.go:901-931 | in every run, once the blocker's command for a user does not wait, blocker and muted list agree about the user exactly when the last application did not contradict what the blocker held at that time, and no process ended after it before a command was applied that would have changed the list |
| MuteTheorems.MuteAgreementExactly | channels/eventModel.go:868-936 | in all runs without late applications, left channels and lost commands the blocker's entry for a user is the mute exactly when the user is muted, if and only if all mutes carry one payload version |
| MuteTheorems.TwoVersionsDisagree | channels/eventModel.go:868-936 | for any two versions a run without late applications breaks that agreement |
| MuteTheorems.OvertakenMuteDisagrees | channels/eventModel.go:901-931 | with one version, an unmute handled between the verdict on a mute and its application leaves the user muted and the blocker holding the unmute |
| MuteTheorems.RestartLosesMute | channels/eventModel.go:922-930 | a process that ends between verdict and application leaves the blocker holding a mute of a user who is not muted |
| SilenceTheorems.MutedUserIsHeardExactly | channels/eventModel.go:422-470 | through any run that applies no unmute and does not leave the channel, a muted user's message reaches a default listener exactly when its handling began before, while they were not muted, and its type takes messages of users |
| SilenceTheorems.MutedUserIsNotHeard | channels/eventModel.go:422-470 | with none of their messages begun unmuted, no message of a muted user reaches a default listener, whatever unmutes are sent or refused and whatever extensions register |
| SilenceTheorems.MutedUserIsHeardOnce | channels/eventModel.go:430-450 | a text whose handling began before its sender was muted is inserted after |
| DeleteTheorems.DeleteConfluence | channels/eventModel.go:422-470 | for every interleaving of the calls of one arrival of a message, one admin deletion of it and any pins, unpins and other steps, the message is absent in the end, except exactly when an accepting listener got it after the deletion had looked for it; a message checked after the deletion was saved is always absent |
| DeleteTheorems.TryStep | channels/eventModel.go:762-764 | the deletion's look at the event model leaves the message absent and saves nothing |
| DeleteTheorems.SaveStep | channels/eventModel.go:765-772 | a deletion that is saved is there for the check of the message, whatever was saved before |
| DeleteTheorems.DeletionCanBeLost | channels/eventModel.go:422-470 | two runs end with message and saved deletion: one with the deletion between the message's check and delivery, one with the message between the deletion's two calls |
| ReplayBound.ReplaysAreBounded | channels/lease.go:613-643 | in every run a lease with time R left when scheduled is replayed fewer than 2R / MESSAGE_LIFE times until it leaves the list or the process restarts |
| Departures.RepeatedMuteCrashes | channels/lease.go:445-446 | a mute delivered twice brings the lease thread down |
| Departures.ExpiryLeavesMuted | channels/lease.go:304-315 | a mute of one hour expires, its undo runs, and the user stays muted with nothing left to unmute them |
| Departures.LeavingKeepsUndoneCommand | channels/lease.go:653-658 | a mute is undone and its channel left: entry and body stay |
| Departures.StoredRoundCanGoBack | channels/replayBlocker.go:139-157 | the same mute from an older round takes the stored round back |
| Departures.RemainderCanOverflow | channels/lease.go:693-732 | a lease whose 64-bit remainder wraps around fires at its end |
| Departures.UserDeletionIsSaved | channels/eventModel.go:748-772 | an author's second, concurrent deletion of a message is saved, although it is no admin's |
| Events.Dispatcher.constructor | channels/eventModel.go:337-377 | a new dispatcher is the engine's initial state with the default handlers |
| Events.Dispatcher.FindHandler | channels/eventModel.go:248-333 | the handler for a type if the sender's space matches |
| Events.Dispatcher.AddLeaseMessage | channels/lease.go:364-398 | performs the engine's add: trigger, replay check, queue |
| Events.Dispatcher.RemoveLeaseMessage | channels/lease.go:527-557 | performs the engine's removal: expiry check, replay check, queue |
| Events.Dispatcher.AddOrOverwrite | channels/lease.go:402-422 | performs the engine's quick replay |
| Events.Dispatcher.ReceiveMessage | channels/eventModel.go:580-718 | performs the engine's listener for text, reactions and invitations |
| Events.Dispatcher.ReceiveDeletion | channels/eventModel.go:724-762 | performs the engine's deletion listener up to its first call: permission check for users, the look at the event model for the admin |
| Events.Dispatcher.DeleteMessage | channels/eventModel.go:762-777 | removes the message, or leaves the deletion to be saved |
| Events.Dispatcher.ReceivePin | channels/eventModel.go:784-841 | performs the engine's pin listener up to the lease system's verdict |
| Events.Dispatcher.UpdatePinned | channels/eventModel.go:843-862 | pins or unpins the message, or leaves the pin to be saved |
| Events.Dispatcher.ReceiveMuting | channels/eventModel.go:868-929 | performs the engine's mute listener up to the lease system's verdict |
| Events.Dispatcher.ApplyMute | channels/eventModel.go:920-930 | mutes or unmutes the user |
| Events.Dispatcher.UserMessage | channels/eventModel.go:422-430 | performs the step that begins a user's message |
| Events.Dispatcher.AdminMessage | channels/eventModel.go:484-490 | performs the step that begins an admin's message |
| Events.Dispatcher.CheckMessage | channels/eventModel.go:433-437 | drops a message with a saved deletion, otherwise goes on with the saved action |
| Events.Dispatcher.AdvanceJob | channels/eventModel.go:422-936 | performs the step in which a message being handled makes its next call |
| Events.Dispatcher.RunUndoAt | channels/eventModel.go:544-566 | performs the step of an expired lease's goroutine |
| Events.Dispatcher.RunUpdateAt | channels/eventModel.go:544-566 | performs the step of a saved action's goroutine |
| Events.Dispatcher.RunCleanupAt | channels/actionSaver.go:266-287 | performs the step of the goroutine that deletes a saved action |
| Events.Dispatcher.RunReplayAt | channels/lease.go:402-422 | performs the step of the goroutine that replays a current command |
| Events.Dispatcher.RegisterReceiveHandler | channels/eventModel.go:388-404 | performs the registration step: a type that has a handler keeps it |
| Events.Dispatcher.PurgeActions | channels/actionSaver.go:117-140 | performs the purge step |
| Events.Dispatcher.LeaveChannel | channels/joinedChannel.go:182-210 | performs the leaving step: unmutes the channel and queues its removal |
| Events.Dispatcher.PickWork | channels/lease.go:226-253 | performs what the select of the lease thread picked |
| Events.Dispatcher.Iterate | channels/lease.go:214-359 | performs the loop step, the select and the pass with the clock readings it took, and sends and sets the alarm as the pass says |
| Events.Dispatcher.Reopen | channels/eventModel.go:337-377 | performs the restart step over the same storage, with leases that loading makes of what is stored |
| TieBreak.IShouldResend | auth/receivedRequest.go:328-335 | for distinct identifiers of one length the loop answers whether mine is the smaller unsigned big-endian integer |
| TieBreak.ExactlyOneResends | auth/receivedRequest.go:189-196 | of two distinct parties exactly one is selected |
| AuthFormat.WriteStaysInRegion | auth/fmt.go:94-116 | a write into a region changes no byte outside it |
| AuthFormat.NewBaseFormat | auth/fmt.go:30-48 | the three regions tile a fresh buffer whose version byte is set; too small a size panics |
| AuthFormat.UnmarshalBaseFormat | auth/fmt.go:68-80 | too short, out of bounds and parsed are told apart exactly by length; the version is reported |
| AuthFormat.BaseFormat.SetPubKey | auth/fmt.go:94-97 | writes the left padded key and keeps the other two regions |
| AuthFormat.BaseFormat.SetEcrPayload | auth/fmt.go:108-115 | writes a payload of exactly the region's length and keeps the other two regions |
| AuthFormat.NewEcrFormat | auth/fmt.go:127-154 | the three regions tile a fresh zero buffer; too small a size panics |
| AuthFormat.UnmarshalEcrFormat | auth/fmt.go:138-162 | too short, out of bounds and parsed are told apart exactly by length |
| AuthFormat.EcrFormat.SetOwnership | auth/fmt.go:172-178 | writes a proof of the right size and keeps the rest |
| AuthFormat.EcrFormat.SetSidhPubKey | auth/fmt.go:180-183 | writes variant and key bytes and keeps the rest |
| AuthFormat.NewRequestFormat | auth/fmt.go:215-228 | splits the payload into identifier and message exactly when it is long enough |
| AuthFormat.RequestFormat.SetID | auth/fmt.go:234-236 | writes the identifier and keeps the rest |
| AuthFormat.RequestFormat.SetMsgPayload | auth/fmt.go:238-244 | writes the message at the front of its region and keeps the rest |
| AuthRequest.CreateRequestAuth | auth/request.go:184-225 | succeeds exactly when the payload fits, and then the buffer holds padded key, sealed plaintext and version |
| AuthRequest.ProcessDecryptedMessage | auth/receivedRequest.go:290-326 | reads a plaintext of any length as the decoding function says, or fails as it says |
| AuthRequest.ReceiveContents | auth/receivedRequest.go:56-97 | reads received contents of any length as the decoding function says |
| AuthRequest.RequestRoundTrip | auth/request.go:184-225 | decoding an assembled request returns its key, sender, proof, SIDH key and zero padded payload |
| AuthRequest.PlainDecodesExactly | auth/receivedRequest.go:290-326 | a plaintext decodes to an encrypted part exactly when it is its bytes, and decodes at all exactly when it is long enough |
| AuthRequest.DecodesExactly | auth/receivedRequest.go:56-97 | contents are read as a request exactly when the key is inside the group and the rest opens to the bytes of the request's encrypted part |
| AuthRequest.VersionIsIgnored | auth/fmt.go:255-272 | changing the version byte changes the outcome exactly when the key is outside the group and knownness changes |
| Handshake.PairedShare | storage/utility/sidh.go:37-43 | paired sessions derive the same secrets from keys of opposite variants |
| Handshake.RequestExactly | auth/request.go:53-171 | when a request is stored and when one is sent, and with which keys |
| Handshake.ConfirmExactly | auth/confirm.go:41-148 | a confirm changes the record or sends a message exactly when the network is healthy, a request is there and its public key is the contact's; the answer and the partner by their keys |
| Handshake.ReceiveRequestExactly | auth/receivedRequest.go:73-281 | which requests are read, recorded, stored, answered or left, by keys and identifiers alone |
| Handshake.ReceiveConfirmExactly | auth/receivedConfirm.go:31-101 | any confirmation is accepted exactly when its registration is there, it opens with the keys of that request and it carries the proof of the partner's historical key |
| Handshake.DeletionAndRestart | auth/store/deletion.go:42-69 | a deletion takes the requests and leaves the registration; a new process has the registration of its sent request and the requests that were listed |
| Handshake.ConfirmationPairsExactly | auth/confirm.go:53-146 | the receiver of a confirmation gets a session that pairs with the answer, which the sender keeps exactly when it had no other |
| Handshake.AskingAfterDeletion | auth/store/deletion.go:42-69 | asking after a deletion crashes exactly when the old registration is still there |
| Handshake.DeletionBreaksPairing | auth/confirm.go:105-117 | deleting, restarting and asking again ends in two sessions that do not pair |
| HandshakeSteps.RequestUninterrupted | auth/request.go:53-171 | Request with nothing between its partner check and AddSent is what those two steps make of the record, for every record |
| HandshakeSteps.ConfirmUninterrupted | auth/confirm.go:41-148 | so is Confirm of its look, lock, AddPartner, sending and release, for any contact |
| HandshakeSteps.ProcessUninterrupted | auth/receivedRequest.go:73-281 | so is the processing of any request of its store calls and of those of the confirm call it ends in |
| HandshakeSteps.ConfirmationUninterrupted | auth/receivedConfirm.go:31-127 | so is the processing of a confirmation of taking the registration and AddPartner |
| HandshakeRuns.NextKeepsInv | auth/receivedRequest.go:108-281 | every call of every party, every deletion and every restart keeps the records, answers, sessions and messages between each two parties in order |
| HandshakeTheorems.PairedExactly | auth/receivedConfirm.go:54-101 | in every run the sessions of two partners are one channel exactly when they come from one confirmation, which one made and the other accepted |
| HandshakeTheorems.UnpairedOnlyIf | auth/confirm.go:105-117 | in every run they fail to match only if both answered, or one answered although it was a partner already |
| HandshakeTheorems.BothPartnersExactly | auth/receivedConfirm.go:54-101 | in every run both are partners exactly when one has accepted the other's confirmation or both have answered |
| HandshakeTheorems.OpenedForContact | auth/confirm.go:53-60 | in every run a session that a party opened answers a request whose public key is that of a contact it called confirm for |
| HandshakeTheorems.StoreStaysExclusive | auth/store/store.go:178-240 | in every run, through restarts, no party holds a sent and a received request of one partner, and a repeated request is never answered |
| HandshakeTheorems.AtMostOneOfEach | auth/receivedRequest.go:108-281 | in every run a party brings the requests of another to at most as many ends (bail, discard, wait, auto-confirm) as the other stored requests; only the smaller auto-confirms and only the larger bails |
| CrossedRequests.CrossedRequestsResolve | auth/receivedRequest.go:198-261 | without deletions, the smaller party takes a processed request of the larger on exactly when it stored no request between its look at the sent one and AddReceived and its process did not end before AddReceived; its own is then given up; the larger keeps its one request for good and, having asked, answers only if it asked late |
| CrossedRequests.CrossingStaysDead | auth/receivedRequest.go:198-261 | where the smaller does not take it on and the larger did not ask late, neither is a partner, then or later |
| CrossedRequests.PairedUnlessBothAnswered | auth/confirm.go:105-117 | without deletions and processes that end within a confirm call, two partners' sessions are one channel exactly when not both answered, and both answered only if the larger stored a request as a partner |
| CrossedRequests.CrashesExactly | auth/sentRequestHandler.go:22-51 | without deletions, a request crashes exactly when it falls between the consumption of the sent request and AddReceived of the smaller party, with the registration still there; it is, unless the larger asked late |
| CrossedRequests.NothingElseCrashes | auth/store/deletion.go:87-109 | without deletions no other call crashes, and AddSent only in that window or, past a partner check from before, after it |
| CrossedRequests.OneEnd | auth/receivedRequest.go:198-246 | without deletions the smaller party brings at most one request of the larger to an end, so it auto-confirms at most once |
| HandshakeDepartures.CrossingCanDie | auth/receivedRequest.go:198-261 | a run in which both crossed requests are processed and neither party answers |
| HandshakeDepartures.RequestCanCrash | auth/sentRequestHandler.go:22-51 | a run in which a request meets the registration of the consumed one and stops the process |
| HandshakeDepartures.LateRequestUnpairs | auth/request.go:53-61 | a run without deletions and restarts that ends in two sessions that do not match |
| HandshakeDepartures.TornConfirmUnpairs | auth/confirm.go:100-117 | a run in which a process ends within confirm and the second answer does not match the partner made by the first |
| HandshakeDepartures.NewRequestCanCrash | auth/store/deletion.go:87-109 | a run in which a new request waits for the lock of the one being confirmed and stops the process |
| AuthState.AuthState.CheckIfNegotiationIsNew | auth/store/previousNegotiations.go:40-104 | new exactly when not recorded, and then recorded; position 0 exactly for the latest |
| AuthState.AuthState.AddSent | auth/store/store.go:178-213 | returns an outstanding request, refuses while one is received, or stores and registers a new one |
| AuthState.AuthState.AddReceived | auth/store/store.go:215-240 | stores exactly when neither a received nor a sent request is there |
| AuthState.AuthState.DeleteReceivedRequest | auth/store/deletion.go:87-109 | the received request of that partner is gone from memory but stays listed in storage, and nothing else changes |
| AuthState.AuthState.ResolveSent | auth/receivedRequest.go:198-246 | bails or takes the sent request as the tie-break says |
| AuthState.AuthState.MakePartner | auth/confirm.go:105-117 | makes the partner unless there is one |
| AuthState.AuthState.ReleaseReceived | auth/store/store.go:270-280 | whatever received request of that partner is there goes, in memory and in the list |
| AuthState.AuthState.PopRegistration | cmix/message/fingerprints.go:41-59 | the registration of the fingerprint is found and used up, no other is |
| AuthState.AuthState.DeleteRequest | auth/store/deletion.go:42-69 | both requests of that partner go, the registration stays, and an error is returned exactly when there is none |
| AuthState.AuthState.TakeOn | auth/receivedRequest.go:248-281 | stores the request unless there is one, and confirms it when the sent one was taken |
| AuthState.AuthState.Request | auth/request.go:53-171 | uninterrupted, does to one partner's record what the handshake says, and to any other nothing but a write of the list |
| AuthState.AuthState.Confirm | auth/confirm.go:41-148 | likewise for answering a request |
| AuthState.AuthState.ProcessNewRequest | auth/receivedRequest.go:180-281 | likewise for a request with a new fingerprint |
| AuthState.AuthState.ProcessRequest | auth/receivedRequest.go:73-281 | likewise for any request message |
| AuthState.AuthState.ProcessConfirm | auth/receivedConfirm.go:31-127 | likewise for a confirmation, whose registration is used up first |
| AuthState.AuthState.Reload | auth/store/store.go:47-123 | the listed requests are back, also cleared ones, and every stored sent request, and no other, is registered again |
| PingTags.TagRoundTrip | channels/pingTags.go:74-86 | parsing a tag gives back the type it was made with, for every user and type |
| PingTags.TagsAreDistinct | channels/pingTags.go:74-76 | a tag determines its user and its type |
| PingTags.MakeUserPingTags | channels/pingTags.go:56-70 | the tags are exactly those of the given users and types |
| Notifications.Match | channels/notifications.go:405-440 | the early-return loop gives the verdict on the matched types |
| Notifications.LastRankingIsHighest | channels/pingTags.go:36-49 | the type left over is a matched one that none outranks, and the last one when none is ranked |
| Notifications.VerdictExactly | channels/notifications.go:405-440 | what is reported for any filter, by the allow lists, the matched types and the last of them |
| Notifications.OrderFreeExactly | channels/notifications.go:405-440 | the report is the same for every order of the tags exactly when tagged messages are refused, a ranked type matched, or all matched types are equal |
| Notifications.OrderCanMatter | channels/notifications.go:405-440 | two matched tags of different unranked types give an order-dependent report |
| Notifications.PingFiltersReportHighest | channels/notifications.go:405-440 | for tags made from replies and mentions the report is order-free, matches by the right allow list, and names the highest ranked matched ping |

## Left out

- ReplayBound.ReplaysAreBounded: counts up to the first restart, because a reload may move triggers back (LeaseIndex.TwoStartsMoveFutureTrigger); a quick replay of a live lease crashes the thread and so ends the count.
- DeleteTheorems.DeleteConfluence: excludes purges and restarts, because both may drop a saved deletion before its message arrives.
- Events.Dispatcher.ReceiveMessage: the checks of replies and reactions are folded into whether the content decodes.
- Events.Dispatcher.LeaveChannel: the deletion of the channel's lease record outside the lease loop is not modelled.
- Events.Dispatcher.Iterate: the clock readings are given, as a non-decreasing sequence that starts no earlier than the last one.
- ActionLeaseList.LeaseList.Scan: reads of the clock are given as a non-decreasing sequence.
- AuthRequest.ProcessDecryptedMessage: parsing the facts in the payload is not modelled.
- CrossedRequests.CrossedRequestsResolve: about two parties that delete no request of each other, because a deleted request is gone without being answered; with deletions the theorems of HandshakeTheorems hold.
- CrossedRequests.CrashesExactly: about such parties too, because a deletion leaves the registration (Handshake.AskingAfterDeletion).
- CrossedRequests.NothingElseCrashes: likewise, because of HandshakeDepartures.NewRequestCanCrash.
- CrossedRequests.PairedUnlessBothAnswered: leaves out deletions and processes that end within a confirm call, which HandshakeTheorems.PairedExactly covers.
- AuthState.AuthState.ProcessRequest: the reset branch, the identity creation time check, callbacks and the empty message sent when no confirmation can be loaded are not modelled; the ownership check of this path only logs.
- AuthState.AuthState.Reload: partners, negotiations and confirmations are kept as they are; their encoding on disk is not modelled.
- Heap identity of lease messages (aliasing between list elements and map entries).
- EngineTheorems.LedgerAndImagesAgree: an iteration of the lease thread is one step of the engine; runs in which a command is accepted between the two calls that forget it are those of LedgerRuns.AgreeExactly.
- The event model's own notification of mutes, and its record of who was muted.
- Timer liveness: no claim that every lease eventually fires.
- Sending, broadcasting and re-dispatching of replayed admin messages, and admin key handling.
- Session reset and backup triggers in the handshake. A wait of DeleteReceivedRequest that ends while yet another request of the partner is being confirmed is taken for a crash, as when none is.
- Dishonest parties: a request's sender field is taken as true.
- The notification manager, its shared allow lists and SIH evaluation.
- Bindings, command line, catalog, backup, nicknames, private keys, file transfer timers, sent status and generated code: no hard property of their own.
