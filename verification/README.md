# A verified model of the coordinator

The coordinator lets agent sessions exchange messages over a *peer bus*, and drives artifacts through review, task assignment and an implementation phase that merges agents' patches into a session branch. This project models the parts of it where many calls interleave or where a long argument is needed, and proves what they promise.

## What is modelled

**The peer bus as a step system** (`PeerBus`, `PeerBusInvariant`, `PeerBusSteps`, `PeerBusSends`, `PeerBusTheorems`). `register_session`, `send_message` and `read_messages` are cut at every `await`. A state holds the registry in memory, the message log, one queue of calls per lock, the calls under way, every snapshot a persist has taken and the one on disk. Every append and every persist may fail, a snapshot taken earlier may reach the disk at any later moment, and the process may restart at any point. `Reachable` states are those of every run from every file and every log. What the bus has sent, returned and evicted per name is kept in a `Ledger`, and `View` is a name's entry as it would be if the operation that is persisting on it failed.

**Whose mailbox a read drains** (`PeerBusReaders`, `PeerBusHandover`): what a read's token is worth by the time it has its lock, and a run in which it is somebody else's mailbox.

**Whom a name belongs to** (`PeerBusOwners`): what a committed registration gives, who is refused afterwards, and how being seen keeps an owner safe from eviction.

**What a crash costs** (`PeerBusCrashes`): which messages are unread again after the next start, when two persists finish in either order.

**The objects behind it**, updated in place: `SessionRegistry` (registration, tokens, mailboxes, wake state, `drainUnread`, load and reconcile), `MessageStore`, the start-up sequence `PeerBusBootstrap`, and `WakeDispatcher`. Each method is tied to the functions of `Registry`, `RegistryFile`, `Drain`, `MessageStore` and `WakeState`, which the step system uses too. `PeerBusTools` runs the three critical sections on these objects without interruption, with rollback, and shows that they do what their events in the step system do.

**The lock itself** (`Locks`, `LockProgress`): promises chained per name, refined to one first-in first-out queue per name, and the freedom from deadlock of the two-lock form. `PeerBus` uses the queues that `Locks` justifies.

**Wake dispatch** (`WakeDispatch`): dispatches that take their timestamp first and claim the debounce window later, interleaved.

**Envelopes and bytes** (`Envelope`, `Utf8`, `NotifierCmux`): escaping, an envelope parser, sizes, and UTF-8 truncation (section 3 of RFC 3629; sections 2.2, 2.4 and 4.6 of XML 1.0).

**The implementation phase over an abstract git** (`Git`, `Implementation`, `ImplementationPasses`, `ImplementationSafety`, `ImplementationPhase`): commits are trees with parents; others fast-forward the session branch between any two commands, the head check and the merge included, onto commits that are not on the branch under work.

**Review rounds, task assignment and the spawn budget** (`Consensus`, `Tasks`, `SpawnTracker`, `Spawning`): loops and concurrent calls over agents that may answer anything or fail.

## Where the code and its words differ

- A failed re-registration resets the wake state. The comment at `src/core/session-registry.ts:350-351` says that it is left intact, but `register` has already replaced it (line 274). `SessionRegistry.FailedReregistration` states exactly when nothing is lost.
- A read authenticates before it gets in line for the lock and is not checked again. If a registration of its name commits meanwhile, it drains the mailbox with a token that no longer works. `PeerBusReaders.ReadersToken` says exactly when, `CleanLine` what a caller can look at beforehand, and `StaleReader` that it happens. `PeerBusHandover.OldOwnerReads` has the old owner read a message that was sent after an eviction; since the read's own call renews the entry, that takes a line that stands still for the time to live.
- `README.md:577` says that unread lists survive a restart, and `README.md:576` that delivery is at most once. Persists of different names run side by side (`src/core/session-registry.ts:515-528`), and a snapshot taken earlier may reach the disk later. If the process dies then, a message that was acknowledged is in nobody's mailbox (`PeerBusCrashes.LostSend`), or one that a read returned is unread again (`ReturnedAgain`). `SurvivesCrash` says exactly when an id survives; within one process `PeerBusTheorems.MailboxConserved` does give at most once.
- Repeated drains return the sorted mailbox under every byte budget only if no known id is listed twice; a file edited by hand can list one twice. `Draining.RepeatedDrainsSort` and `RepeatedReadsSort` give the condition in both directions, and `PeerBusTheorems.ConservedExactly` does so for conservation.
- The head check, the checkout and the merge (`src/phases/implementation.ts:414-419`) are three awaited commands. If somebody moves the session branch after the check, what is merged is neither what the verifier passed nor what was approved. From an admissible base, `ImplementationSafety.WindowDecides` says that both are right if and only if nobody does; `MovedWindow` gives the run.
- The review covers what is merged, even then, only if the commit that work starts from is the session head or does not contain it. `src/index.ts:294` creates the session branch at that commit, so a phase started there meets the condition; `ImplementationSafety.ReviewCoversMerge` gives both directions, and `ImplementationPhase.Run` keeps track of it when somebody checks out another commit at the root.
- The scenario "Budget warning threshold reached" of the requirements for spawn controls has the warning come when the total reaches its level. It is logged only after that call's statistics have been persisted (`src/server/tools/agents.ts:134-142`), and no later call warns. `Spawning.WarningComes` says that the warning has come exactly if that persist has returned; `WarningMissed` gives a run whose every continuation is silent.
- An agent-sourced call whose statistics fail to persist right after it began is never ended, and its slot stays taken. `Spawning.CountReturns` says exactly when the count returns, `LostSlotsRefuse` what a lost slot costs, and `SlotLost` gives a run.
- A reviewer with an empty id counts as no reviewer, even if another one follows. `Tasks.AssignableMeans` says exactly when that matters, and `EmptyIdRefuses` gives an input.
- With a cap of no rounds, `ConsensusLoop.run` makes no revision rather than one fewer than none; the configuration asks for at least one round.

## Model

| member | source | states |
|---|---|---|
| PeerBusTheorems.MailboxConserved | src/server/tools/peer-bus.ts:382-411 | In every interleaved run with failures, crashes and restarts: whenever a name's lock is free, the ids sent to it are exactly the disjoint union of those returned by reads, those evicted and those still unread, none twice |
| PeerBusTheorems.ConservedExactly | src/core/peer-bus-bootstrap.ts:48-65 | Every run conserves every name if and only if no unread list that start-up leaves repeats an id |
| PeerBusTheorems.EventsAreAtomic | src/server/tools/peer-bus.ts:550-602 | Serialisability: on the committed entries every event is an atomic send, read or registration at its commit, or nothing; so a failed operation leaves the entry as it was, but for when it was last seen |
| PeerBusTheorems.ReadReturnsDrain | src/server/tools/peer-bus.ts:550-602 | A read that commits answers with the drain of the whole committed mailbox against the whole log, in that order, whatever was appended while it loaded, and leaves just what that drain keeps |
| PeerBusTheorems.UnreadIsLogged | src/server/tools/peer-bus.ts:386-408 | In every reachable state each unread id, in memory and in every snapshot that can be on disk, names a logged message to that session, and every wake target is the entry's surface |
| PeerBusTheorems.RestartDropsNothing | src/core/peer-bus-bootstrap.ts:48-65 | Whichever snapshot is on disk when the process dies, start-up restores every entry with its mailbox, owner and times, reconciliation drops nothing, and the entry is the old one with a blank token exactly when its fields pass the loader's checks |
| PeerBusTheorems.NoOrphans | src/core/session-registry.ts:474-489 | The orphan branch of a drain never fires in a reachable state, however little of a growing log the reader saw |
| PeerBusTheorems.OnlyTheCommittedToken | src/core/session-registry.ts:279-294 | A presentable token authenticates to a name if and only if the name's last committed registration of this process returned it; a rollback thus revives the old one |
| PeerBusTheorems.NobodyWhilePersisting | src/server/tools/peer-bus.ts:247-284 | While a registration is persisting, no token that anybody has been given authenticates to its name |
| PeerBusTheorems.TokenOfOneName | src/core/session-registry.ts:279-294 | No token authenticates to two names in any reachable state |
| PeerBusTheorems.RestartVoidsTokens | src/core/session-registry.ts:592-594 | After a restart no token authenticates to any name, whatever is on disk |
| PeerBusTheorems.OwnerChanges | src/core/session-registry.ts:172-267 | No event but the commit of a registration touches a committed entry's owner or registration time, no event removes the entry, and such a commit obeys `Succeeds` |
| PeerBusTheorems.OwnershipOverRuns | src/core/session-registry.ts:172-267 | Over every run of one process an entry stays, a credential never goes away, the registration time never goes back, and it has strictly grown if the owner changed |
| PeerBusTheorems.IdentityOverRuns | src/core/session-registry.ts:172-267 | Over every run, the token, owner, wake key, surface, workspace and registration time of an entry are unchanged unless a registration committed that the entry of that moment admitted |
| PeerBusTheorems.FailedRegisterRestores | src/server/tools/peer-bus.ts:257-268 | A registration whose persist fails leaves every field of the entry as it found it on getting the lock, under every interleaving in between |
| PeerBusTheorems.ReadsFit | src/server/tools/peer-bus.ts:345-359 | From a log of accepted messages, no read of any run exceeds 1 048 576 bytes of envelopes, and with two messages waiting it returns at least two |
| PeerBusOwners.CommitOwns | src/server/tools/peer-bus.ts:247-284 | In every reachable state a registration that commits owns its name, new or taken: the committed entry holds the presented credential and the returned token, and the mailbox is the old one only if the entry was unowned or the registrant's own |
| PeerBusOwners.ClaimHolds | src/core/session-registry.ts:172-215 | After a committed registration that presented a credential, over every run in which no further one is admitted: no credential is refused, the same one is admitted, and another one is admitted if and only if the entry is stale |
| PeerBusOwners.SightMoves | src/core/session-registry.ts:296-299 | An entry's last sight moves to the clock's reading at each event that sees its owner (a check of its token, a message to or from it, a drain), and but for registrations at no other |
| PeerBusOwners.ActiveIsSafe | src/core/session-registry.ts:190-208 | Over every run in which the clock does not go back: an owner that was seen is not evicted before the time to live has passed since |
| PeerBusTheorems.ReachableHolds | src/core/peer-bus-bootstrap.ts:48-65 | Every state of every run after every start-up satisfies the invariant of the bus |
| PeerBusSends.EventKeeps | src/server/tools/peer-bus.ts:382-411 | Every event keeps the invariant, and changes nothing outside the calls that act and the names whose locks they lead |
| PeerBusSends.BootKeeps | src/core/session-registry.ts:614-644 | Loading any file and reconciling it with any log establishes the invariant |
| PeerBusBootstrap.BootstrapPeerBus | src/core/peer-bus-bootstrap.ts:48-65 | The start-up sequence gives the registry that the step system starts from, writes it, and reports the counts and the first ids of what was dropped, nothing exactly when every stored unread id named a logged message to its session; of every list just the ids filed under the session stay, as often as before and in their order, and nothing else of an entry changes |
| PeerBusReaders.ReadersToken | src/server/tools/peer-bus.ts:538-564 | When a read drains, the token it was called with is that of the name's last committed registration, and still authenticates, if and only if no registration of the name committed while the read waited for its lock |
| PeerBusReaders.CleanLine | src/server/tools/peer-bus.ts:538-564 | If no registration is in line for the name when a read begins, the read drains with a token that authenticates, whatever happens while it waits and loads |
| PeerBusReaders.StaleReader | src/server/tools/peer-bus.ts:538-564 | From every state with the name's lock free: a read begun behind an admitted registration gets the lock after that registration committed and, whatever happens while it loads, drains with a token that does not authenticate |
| PeerBusReaders.FirstRegistration | src/server/tools/peer-bus.ts:247-284 | Such a state is reached by the first registration after an empty start |
| PeerBusHandover.OldOwnerReads | src/server/tools/peer-bus.ts:538-582 | A run: registration, send and the owner's read get in line; the registration evicts, and the read, whose token no longer works, drains just the message that was sent afterwards. The line has then stood still for the time to live |
| PeerBusCrashes.SurvivesCrash | src/core/session-registry.ts:515-528 | An id that is on disk and stays in its mailbox in memory over a run is unread after a crash at its end, if and only if the last snapshot installed on the way was not one taken before that lacks it |
| PeerBusCrashes.LostSend | src/server/tools/peer-bus.ts:386-411 | For any send that has its locks and any read that is loading: a run in which the send is on disk and acknowledged, the read's older snapshot is installed after it, and the next start leaves the logged message in nobody's mailbox |
| PeerBusCrashes.ReturnedAgain | src/server/tools/peer-bus.ts:550-602 | For any two reads of different names: a run in which one returns its messages and they are off the disk, the other's older snapshot is installed, and the next start has them unread again |
| PeerBusTools.SendMessage | src/server/tools/peer-bus.ts:382-411 | The section of a send on the registry and log objects has the effect of its events; the recipient's list grows by the id if it was sent, and is as before on a full mailbox (10000 ids), a failed append or a failed persist |
| PeerBusTools.ReadMessages | src/server/tools/peer-bus.ts:550-602 | The section of a read has the effect of its events; it answers with the drain of the mailbox, or fails and leaves the list as it was |
| PeerBusTools.RegisterTool | src/server/tools/peer-bus.ts:247-284 | The section of a registration has the effect of its events; it answers with an entry that the new token authenticates to and the presented credential owns, or leaves every entry as it was |
| Locks.ChainIsQueue | src/core/session-registry.ts:130-142 | The promise chain is one first-in first-out queue per name: a call joins at the end, an exit by return or throw takes the head off, nothing touches another name |
| Locks.HeadMayEnter | src/core/session-registry.ts:130-142 | A call's awaited promise has resolved if and only if the call is at the head of its queue |
| Locks.MutualExclusion | src/core/session-registry.ts:130-142 | No two calls are inside the lock of one name, and the one inside is the head of the queue |
| Locks.GrantsInCallOrder | src/core/session-registry.ts:130-142 | A call begins only when every earlier call of its name has begun and released |
| Locks.StoredPromise | src/core/session-registry.ts:130-142 | The stored promise of a name is that of its last call and has resolved exactly when nobody holds or awaits the lock |
| LockProgress.EverybodyFinishes | src/core/session-registry.ts:144-148 | Any finite set of one-lock and two-lock calls, equal and inverted pairs included, completes under every schedule: runs are bounded by the work there is, and a state without a move has everybody done and every lock free |
| LockProgress.SomebodyMoves | src/core/session-registry.ts:144-148 | No deadlock: while somebody is not done, somebody can move |
| Draining.RepeatedDrainsSort | src/core/session-registry.ts:426-492 | With a wrapper that never returns nothing, repeated drains return the stable timestamp sort of the mailbox under every byte budget if and only if no known id is listed twice |
| Draining.RepeatedReadsSort | src/core/session-registry.ts:426-492 | The same of the envelopes that reads return, with no other condition |
| Draining.DrainAllIsSort | src/core/session-registry.ts:426-492 | Without a repeated id, draining until nothing is left terminates and concatenates to the stable sort |
| Draining.SortCommutesWithFilter | src/core/session-registry.ts:442-446 | Sorting what a drain keeps is filtering the sorted whole |
| Draining.ReadFits | src/core/session-registry.ts:449-468 | With accepted messages only, the oversize branch is unreachable, a drain fits the response limit, and two waiting messages yield at least two |
| Drain.TakeIsGreedy | src/core/session-registry.ts:449-468 | The prefix taken is the longest whose envelopes fit the budget, or the first message alone when even that does not fit |
| Drain.DrainPartitions | src/core/session-registry.ts:470-489 | Every unread id is in exactly one of what a drain returns, keeps and drops as orphaned, nothing else is in any, and what is kept or dropped is so as often as it was listed; without repeated ids the three add up |
| Drain.HasMoreMeansUnread | src/core/session-registry.ts:490-491 | A drain that took every known message leaves nothing unread |
| Drain.SortCandidatesOrders | src/core/session-registry.ts:435-446 | Sorting by timestamp and place in the list is the stable sort by timestamp |
| Drain.SortIsUnique | src/core/session-registry.ts:442-446 | The comparator is a strict total order on the candidates, so every sorting algorithm gives this result |
| SessionRegistry.SessionRegistry.DrainUnread | src/core/session-registry.ts:426-492 | The loop returns the specified prefix, wrapped, keeps the specified rest in its order, and says that there is more exactly when ids remain |
| SessionRegistry.SessionRegistry.TakePrefix | src/core/session-registry.ts:449-468 | The byte-bounded loop takes exactly the specified number of candidates, in order |
| SessionRegistry.SessionRegistry.RegisterSession | src/core/session-registry.ts:150-277 | A registration replaces the entry by the specified one, owned by the presented credential, and starts the wake state anew; a rejection changes nothing |
| SessionRegistry.SessionRegistry.Authenticate | src/core/session-registry.ts:279-294 | An entry is found if and only if some entry's stored hash is that of the token, blank hashes never, and it is the last such entry in the order in which the map is walked |
| SessionRegistry.SessionRegistry.Restore | src/core/session-registry.ts:332-353 | Restoring puts the snapshot back with its wake target recomputed, or removes the entry and its wake state |
| SessionRegistry.SessionRegistry.TryConsumeWakeWindow | src/core/session-registry.ts:379-386 | The window is taken if and only if no dispatch took it before or the last one lies the debounce time back; then, and only then, the timestamp moves to the one presented |
| SessionRegistry.SessionRegistry.LoadFile | src/core/session-registry.ts:530-612 | Loading keeps the registry when there is nothing usable to read, and otherwise holds exactly the members that validate, cleaned |
| SessionRegistry.SessionRegistry.ReconcileWith | src/core/session-registry.ts:614-644 | Every unread list is cut to just the ids that the log files under its session, each as often as before and in their order; the counts are those of the dropped ids the log does not know and of the others, the first five are named in order, and both counts are zero exactly when nothing was cut |
| SessionRegistry.ReportIsWhatIsGone | src/core/session-registry.ts:614-644 | The ids of all lists before are those of all lists after together with the reported ones, with their multiplicities, and the ids named are the first five of the reported |
| SessionRegistry.FailedReregistration | src/server/tools/peer-bus.ts:247-268 | After a registration that persisted nothing every session is as before, but the wake state is what it was only if it was fresh |
| Registry.RegistrantOwns | src/core/session-registry.ts:212-262 | Whoever registers owns the entry: its credential is the one presented, or none, on a new, an unowned, an own or an evicted name |
| Registry.OwnerHolds | src/core/session-registry.ts:172-215 | So a later call without a credential is refused, one with another credential is refused until the entry is stale, and the owner goes on with mailbox and registration time |
| Registry.RegisterRefuses | src/core/session-registry.ts:158-210 | Each of the three rejections if and only if its own condition holds; so a new name is refused to nobody |
| Registry.RegistrationLeaves | src/core/session-registry.ts:212-267 | Who goes on keeps mailbox, registration time and every field the request does not mention; anybody else starts with nothing, registered now or at the least time after the evicted registration; absent, null and set fields keep, clear and set |
| Registry.RegisterAdmits | src/core/session-registry.ts:172-215 | Who may register a taken name: anyone while it is unowned, its owner, and any credential once its time to live has passed |
| Registry.RegisterSucceeds | src/core/session-registry.ts:172-267 | Ownership moves only from an unowned or stale entry, mailboxes survive with the owner, and an eviction moves the registration time forward although the clock stalls or goes back |
| Registry.RestoreUndoes | src/core/session-registry.ts:315-353 | Restoring a snapshot undoes any change of the entry exactly when its wake target was its surface |
| RegistryFile.EntryRoundTrip | src/core/session-registry.ts:572-610 | Writing an entry and loading it is the identity but for the blanked token exactly when every field validates |
| RegistryFile.RegistryRoundTrip | src/core/session-registry.ts:515-612 | The same of whole registries |
| RegistryFile.ReconcileKeeps | src/core/session-registry.ts:614-634 | Of every list exactly the ids that the log files under the session stay, each as often as it was there and in their order, and nothing else of the entry changes |
| RegistryFile.LoadReads | src/core/session-registry.ts:545-611 | Loading keeps exactly the usable members; of each it keeps exactly the strings among the unread ids in their order and exactly the optional fields that hold what they should, so a bad field costs nothing else |
| MessageStore.MessageStore.LoadAll | src/core/message-store.ts:53-87 | Loading the log gives for each id the last record that carries it |
| MessageStore.LookupIsLast | src/core/message-store.ts:53-87 | The record that loading gives an id is that of the last line that carries it |
| MessageStore.LookupGrows | src/core/message-store.ts:53-87 | A reader of a growing log finds every id that was there when it began, with the record of the whole log |
| Envelope.XmlEscapeIsCharacterMap | src/server/tools/peer-bus.ts:130-137 | The five replacements in sequence are one pass of a character map |
| Envelope.UnescapeInvertsEscape | src/server/tools/peer-bus.ts:130-137 | Unescaping the escaped text gives the text back |
| Envelope.EnvelopeParsesBack | src/server/tools/peer-bus.ts:143-151 | A parser of the element `peer-message` with attributes `from`, `kind` and `messageId` recovers sender, kind, id and body from every envelope, each without its stripped controls |
| Envelope.StripKeepsTheRest | src/server/tools/peer-bus.ts:139-151 | Stripping takes out the characters below the space other than tab, line feed and carriage return, and nothing else |
| Envelope.OnlyTheOuterTags | src/server/tools/peer-bus.ts:143-151 | The characters < and > occur in an envelope only as the delimiters of its two outer tags |
| Envelope.EnvelopeSize | src/server/tools/peer-bus.ts:143-151 | The envelope of an accepted message has at most 6 · 65536 + 171 bytes |
| Utf8.DecodeInvertsEncode | src/core/notifier-cmux.ts:24-32 | Decoding the UTF-8 of a well-formed string gives the string back |
| NotifierCmux.ScrubForCmux | src/core/notifier-cmux.ts:21-33 | The loop over the byte buffer returns the scrubbed and truncated text of the specification |
| NotifierCmux.StripKeepsTheRest | src/core/notifier-cmux.ts:21-23 | Stripping takes out C0 controls and DEL and nothing else |
| NotifierCmux.PrefixBoundary | src/core/notifier-cmux.ts:29-31 | Backing off over continuation bytes ends at a boundary between code points |
| NotifierCmux.PrefixIsLongest | src/core/notifier-cmux.ts:29-32 | What is kept is the longest prefix of whole code points that fits |
| NotifierCmux.ScrubbedFits | src/core/notifier-cmux.ts:21-33 | The result has at most 256 bytes and no control characters |
| NotifierCmux.ScrubbedIdempotent | src/core/notifier-cmux.ts:21-33 | Scrubbing again changes nothing |
| WakeDispatch.ClaimDecides | src/core/session-registry.ts:379-386 | At any point of any run a claim is held back if and only if some timestamp took the window since the last reset and the claim's own lies less than the debounce time after the last of them; otherwise it takes the window and goes on to send |
| WakeDispatch.WindowsAreSpaced | src/core/wake-dispatcher.ts:80-129 | Between two resets the timestamps that took a session's window are in order and pairwise a debounce time apart, although dispatches arrive with timestamps out of order |
| WakeDispatch.SendsInSpan | src/core/session-registry.ts:379-386 | So no span of W milliseconds between resets holds more than W / debounce + 1 sends |
| WakeDispatch.EachCountedOnce | src/core/wake-dispatcher.ts:73-163 | Every opted-in dispatch that is over was counted once, as dispatched, suppressed or failed; what is under way and what resets discarded make up the rest |
| WakeDispatch.CountersMean | src/core/wake-dispatcher.ts:73-163 | Over every run each of the three counters is the number of dispatches that ended in its way since the last reset |
| WakeDispatcher.WakeDispatcher.MaybeDispatch | src/core/wake-dispatcher.ts:73-163 | One dispatch: each outcome with the exact condition for it; only an allowlisted key's command is typed, and only on a safe pane in an open window, which is none used yet or the debounce time past; one audit entry and one counter unless opted out |
| WakeDispatcher.DispatchIsRun | src/core/wake-dispatcher.ts:73-163 | A dispatch that nobody interrupts is a run of the step system with the same outcome and wake state |
| ImplementationSafety.IntegratedTree | src/phases/implementation.ts:405-420 | When a task is integrated, the head before the merge and the verified commit are both in the session branch's history; if the branch did not move between head check and merge, its tree is the verified commit's |
| ImplementationSafety.WindowDecides | src/phases/implementation.ts:405-420 | From an admissible base, in every run that integrates: the merged tree is the verified one, and the last approval covers what was merged, each if and only if nobody moved the session branch between head check and merge |
| ImplementationSafety.MovedWindow | src/phases/implementation.ts:414-419 | For every such move onto a commit without the task's: an approved and verified task is merged into it, with whatever tree the merge gives and a range that nobody approved |
| ImplementationSafety.ReviewCoversMerge | src/phases/implementation.ts:161-269 | In every run in which nobody moves the branch between head check and merge, the last approval covers exactly the diff from the head before the merge to the verified commit, if and only if work starts from the session head or from a commit that does not contain it |
| ImplementationSafety.UnreviewedMerge | src/phases/implementation.ts:187-206 | From any base strictly ahead of the session head, a run in which nobody moves anything merges commits that no reviewed diff showed |
| ImplementationSafety.TaskAdvances | src/phases/implementation.ts:140-276 | Whatever happens to a task, what was on the session branch stays in its history |
| ImplementationPasses.ReviewMeans | src/phases/implementation.ts:342-403 | A review approves or asks for changes if and only if the first answer within the cap that is none of the others does; the human is asked if and only if that answer blocks or there is none, and decides then |
| ImplementationPasses.PassIntegrates | src/phases/implementation.ts:161-269 | A pass integrates if and only if the reviewer approved or an asked human did not abort, the verifier passed, git's merge base and the checked head are the head that was read, and the merge worked |
| ImplementationPasses.PassGoesRound | src/phases/implementation.ts:161-269 | A pass sends the task round again exactly in the cases of a usable revision, a replay after a move or a failed merge, and a moved head at the check; in all others it fails |
| ImplementationPasses.TaskIntegrates | src/phases/implementation.ts:140-276 | In every run a task is integrated if and only if its first patch could be committed and some pass, reached through passes that went round, was approved, verified, undisturbed and merged |
| ImplementationPhase.ImplementationPhase.RunTask | src/phases/implementation.ts:140-276 | The loop of one task ends as the specified run does, and integrates exactly when some pass was approved, verified, undisturbed and merged |
| ImplementationPhase.ImplementationPhase.ReviewTask | src/phases/implementation.ts:342-403 | The loop of at most three reviews approves, asks for changes or takes the human's approval if and only if the answers say so: the first that decides, or a human who is asked after a block or three indecisive answers and does not abort |
| ImplementationPhase.ImplementationPhase.Run | src/phases/implementation.ts:123-142 | Integrated tasks are a prefix of the assignments; every merge holds the verified commit, follows the merge before it and stays in the final history; it has the verified tree if nobody moved the branch between head check and merge, and, unless somebody had checked out a base strictly ahead at the root, covers what was approved exactly then |
| Git.MergeBaseOfAncestor | src/phases/implementation.ts:187-189 | When the session head is an ancestor of the branch it is their only merge base, so the comparison with the merge base tests ancestry |
| Consensus.RunMeans | src/core/consensus.ts:78-198 | For any agents and human a run ends within the cap and every round but the last asked for a revision and got it; agreement if and only if every reviewer answered the last round with approval; abort or human approval if and only if a reviewer blocked or failed in it or the cap was reached without agreement, and the human aborted or did not |
| Consensus.ConsensusLoop.Run | src/core/consensus.ts:78-198 | The loop has that outcome in those terms, captures one snapshot a round, and the stored counter of the artifact grows by the rounds but one, no other changing |
| Consensus.ConsensusLoop.ReviewAll | src/core/consensus.ts:84-127 | The loop captures the snapshot and calls each reviewer once, every call leaving the record of what it was asked about, and gathers their answers in order |
| Consensus.ReviewersSeeTheSnapshot | src/core/consensus.ts:84-107 | So in every round each reviewer was asked once, about the content of that round's snapshot |
| Consensus.RevisionsFollow | src/core/consensus.ts:156-168 | Each snapshot but the first holds what the reviser made of the one before and of that round's requests, under the next round's number |
| Consensus.FeedbackMeans | src/core/consensus.ts:21-34 | The reviser is told of exactly the messages that ask for changes, in their order, each with its sender and at most its first 2048 characters |
| Consensus.EvaluationMeans | src/core/consensus.ts:15-19 | One block blocks, and consensus takes everybody's approval |
| Tasks.ParseTaskAssignments | src/phases/tasks.ts:5-37 | Throws exactly when some task's round-robin implementer can be given no reviewer, naming the first; otherwise every task has its implementer and the first distinct reviewer in cyclic order |
| Tasks.HeadingsMean | src/phases/tasks.ts:10-12 | The tasks are those of exactly the matching lines, in their order |
| Tasks.AssignableMeans | src/phases/tasks.ts:14-26 | That a reviewer can be given means that some reviewer is not the implementer, if and only if the first such reviewer in cyclic order does not have the empty id |
| Tasks.EmptyIdRefuses | src/phases/tasks.ts:22-26 | An input where a distinct reviewer exists and the assignment is refused |
| Tasks.LoadsAreEven | src/phases/tasks.ts:13-33 | Loads of distinct implementers differ by at most one, earlier ones never having fewer |
| Tasks.ReviewLoadsAreEven | src/phases/tasks.ts:14-21 | Where no reviewer implements, the loads of distinct reviewers differ by at most one, earlier ones never having fewer |
| SpawnTracker.RefusalMeans | src/core/spawn-tracker.ts:27-58 | Each refusal if and only if its own condition holds and none of the earlier ones does |
| SpawnTracker.SpawnTracker.Check | src/core/spawn-tracker.ts:27-58 | The first failing guard decides the refusal and whether it escalates; an allowed call has budget and, from an agent, a free slot |
| SpawnTracker.SpawnTracker.BeginInvocation | src/core/spawn-tracker.ts:60-70 | The counts and the live call are recorded, and the warning comes exactly on the call that crosses four fifths of the budget |
| Spawning.InvokeAgent | src/server/tools/agents.ts:100-188 | One uninterrupted call on the tracker object ends in the state after its events in the step system and warns exactly when they do; it is refused for the reason of the first failing guard, and its slot is given back unless its persist threw |
| Spawning.BracketRuns | src/server/tools/agents.ts:100-188 | The events of an admitted call are a run of the step system: its beginning, then its persist and its end, or the persist that throws |
| Spawning.OnlyPermittedParents | src/core/spawn-tracker.ts:37-43 | At any point of any run a call that is not the coordinator's is refused permission if and only if it names no parent, or one that was not begun with leave to invoke others or has ended since |
| Spawning.TotalCounts | src/core/spawn-tracker.ts:60-70 | Over every run the session total grows by the admitted calls, whatever became of them |
| Spawning.BudgetHolds | src/server/tools/agents.ts:100-188 | Over every run of concurrent calls: the budget holds if it held at first, and the active count is the initial one plus live agent calls plus lost ones and never passes the larger of its start and the limit |
| Spawning.WarningComes | src/server/tools/agents.ts:128-142 | Over every run there is at most one warning, and it has come if and only if the call that brought the total to the level got its statistics persisted; the level is crossed exactly when that call has warned, has failed to persist, or is still persisting |
| Spawning.WarningMissed | src/server/tools/agents.ts:128-142 | A run that crosses the level and whose every continuation stays without a warning |
| Spawning.CountReturns | src/server/tools/agents.ts:128-188 | When every call has ended the active count has grown by the number of persists that threw right after a call of an agent began; so it is back if and only if there was none |
| Spawning.LostSlotsRefuse | src/core/spawn-tracker.ts:49-51 | At any point of any run, a sub-invocation that its parent and depth permit meets the concurrency limit if and only if the initial count, the agents' calls under way and the lost slots together reach it |
| Spawning.SlotLost | src/server/tools/agents.ts:128-134 | A run that loses the only slot: with no call of an agent under way, every sub-invocation of a later parent is refused for concurrency, which with the slot back and budget left would be admitted |

## Left out

- HTTP, SSE and streamable transports, TLS, Express wiring, command line, configuration schemas and audit logging: wiring over libraries.
- tmux and cmux subprocesses and the two wake backends: the probe and the keys are inputs that may fail. `scrubCurrentCommand` and `formatNotifyBody` are single expressions.
- Parameter validation of the tool handlers: names, kinds and keys that fail it never start a call. `revalidateAutoWakeKeys`, the badge and the notifier are not part of this model.
- JSON text, JSONL splitting and corrupt lines: the log is a sequence of records, an append is atomic and durable, and a failed one may or may not have left its record. `loadAll` sees some prefix of the log that holds at least what was there when it began.
- SHA-256 is an injective constructor, and tokens and message ids are fresh names. A time stamp is a number of milliseconds or text that does not parse; messages carry times that do, and the range limit of JavaScript dates is not modelled.
- A persist takes its snapshot at once and may install it at any later time or never, whether or not the caller saw it fail. Two calls writing the shared temporary file at the same time can tear it; torn files are not modelled.
- PeerBusTheorems.MailboxConserved: speaks of one process at a time, because a crash may restore an older snapshot; `PeerBusCrashes` says what that costs.
- PeerBusCrashes.LostSend: two persists share one temporary file, so an older snapshot overtakes a newer one only if its write starts after the newer one's rename; the model leaves the order open and does not say how likely that is.
- PeerBusHandover.OldOwnerReads: covers senders whose name sorts after the recipient's, so that the send waits for the recipient's lock first; in the other order it gets into the same line one step later.
- The order in which a map of sessions is walked is a parameter of the methods whose answer depends on it. In a reachable state a token matches at most one entry anyway (`PeerBusTheorems.TokenOfOneName`).
- SessionRegistry.SessionRegistry.DrainUnread: asks for a lookup that files every message under its own id, which is what `loadAll` gives.
- PeerBusTools.RegisterTool: asks that the entry's wake target be its surface, which `PeerBusTheorems.UnreadIsLogged` shows of every reachable state.
- Entries are values: that `authenticate` and `get` hand out references to live entries is not modelled.
- The wake state and the mailbox are separate step systems; both see a registration as one step of the registry.
- LockProgress.EverybodyFinishes: a body that never ends is outside the claim, as is a body that itself asks for a further lock, which no caller does.
- Real git, patch parsing, worktree files and the Steward: a patch is the tree it leads to, a rebase gives new commits on the session head or fails, and the verifier passes or not. A branch others force back, or onto commits of the task, is outside the claim.
- ImplementationPhase.ImplementationPhase.RunTask: termination is not claimed, since revisions and replays are uncapped; a script of decisions that ends first leaves the task under way. Prompts show the first 12 000 characters of a diff, so what a reviewer read may be less than the diff the approval is about. Failing writes of session state after a merge are not modelled.
- Consensus.ConsensusLoop.Run: snapshots, session updates and the human's prompt do not fail; the constructor's refusal of an empty list of reviewers is not part of this model.
- Tasks.ParseTaskAssignments: the pattern that recognises a task line is a parameter, and the registry's refusal of an empty list of implementers is its only demand.
- The spawn warning level is four fifths of the budget in integers; the source multiplies by 0.8 in floating point, which rounds down to the same number.
- `src/core/coordinator-lock.ts`, the phase wrappers, the session manager, snapshots' file format and the editor extension.
