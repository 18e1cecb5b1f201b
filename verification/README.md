# Node agent: proofs of its crash, ordering and accounting promises

This project models the parts of a node agent that have to stay right across crashes, lost replies, late
messages and live traffic, and proves what they promise. The agent keeps a proxy runtime, its files and its
books in step with a control plane; the modules below follow its components.

| component | modules |
|---|---|
| publication of configuration against a compare-and-swap runtime | RuntimeBox, Publication, PublicationManager |
| user update planner | Planner, RoutingPolicy, RuleReuse, UserPlan |
| write queue, receipts and versioned operations | TaskStates, WriteQueue, QueueReceipts, QueueLedger, Operations |
| hot switching of generations | HotloadRules, Hotload, HotloadSwitch, VlessJournal, VlessPublisher, RouteReuse, RouteBuild |
| WireGuard peer registry | AddressIndex, PeerRegistry, PeerStore |
| byte accounting | ByteCounts, CounterLedger, SharedQuota, UsageHistory |
| revision transactions | Revisions |

Code that changes state is a class whose methods carry the contracts; what a method promises over all its calls
is the class invariant `Valid()`, which holds after every method and after every early return that stands for a
crash (`if * { return ...; }`). Publication is also a step system, and the manager's methods record a run of it.
Interference by the runtime, by traffic or by other writers is a method of its own that is called between
steps (`Interfere`, `Traffic`, `Environment`, `OtherScopes`). Digests, fingerprints, parsers and callbacks are
function parameters; where a digest has to be free of collisions a contract says so. Where a method may be stopped by
the environment, `calm` (in the queue `smooth`) says that nothing fails, and the contract then says what it achieves. Two classes model
`_process`: `WriteQueue.Writer` against the sequential run of the tasks, with each publication's verdict given
in advance, and `QueueLedger.Ledger` against the durable rows, receipts and journal, with a crash anywhere.

Some promises hold only under a condition. Each has a failing case and its exact condition:

- A runtime restart in the middle of an undo (`Publication.RestartBreaksUndo`, `Publication.RestartDuringUndo`,
  `Publication.UndoRuns`).
- Finishing a batch whose tasks undo each other, which carries no receipt (`QueueReceipts.HiddenWorkExists`,
  `QueueReceipts.QuietCrashesAreTruthful`, `QueueLedger.Ledger.FinishQuiet`); the version stamp rules such batches out
  (`QueueReceipts.StampedBatchesAreHonest`), so that the queue's own batches stay exact over every crash
  (`QueueLedger.Ledger.ProcessAndReopen`).
- Routes of users an update does not name: the whole chain of detours stays, but a group may keep its row while its
  member changes, and the default outbound may change behind its tag (`UserPlan.GroupMemberMayChange`,
  `UserPlan.ChainsStayExactly`, `UserPlan.DefaultStays`).
- Reading REJECTED as "never ran" (`Operations.SupersededRun`, `Operations.SupersededMayHaveRun`;
  `Operations.Scope.Execute` says which calls run).
- Totals over a forced retirement or a baseline reload (`VlessPublisher.ForcedRetirementLoses`,
  `VlessPublisher.ReloadLoses`; `VlessPublisher.RetirementLossless`, `VlessPublisher.ReloadLossless`).
- Counting every byte once: a retired instance can come back without ids (`CounterLedger.RetiredIsCountedTwice`,
  `CounterLedger.Store.Apply`); for the current instance `CounterLedger.Store.CurrentInstanceRecounts` says when.
- A failed `ApplyPeer` that activates nobody (`PeerStore.Registry.ApplyPeer`): not when the final registry write raised
  after it landed and the write that takes it back failed.
- The table of retired epochs over a reset with replicated origins (`SharedQuota.ForgottenOrigin`,
  `SharedQuota.TableGoesBack`, `SharedQuota.TableRefuses`, `SharedQuota.Store.Reset`); the change of cycle refuses
  the held epochs all the same (`SharedQuota.ResetRefusesHeld`), and over runs that repeat no cycle no retired epoch
  comes back (`SharedQuota.Store.NeverStoredAgain`).
- Keeping a revision id's digest over a rollback (`Revisions.PublishedLocalNameIsRebound`,
  `Revisions.Directory.Rollback`, `Revisions.PublishingFits`).
- The message that a failed revision was undone (`Revisions.Directory.Commit`): an exception after the commit marker
  is reported so although the commit stands.

`dafny verify dfyconfig.toml` checks the project.

## Model

| member | source | states |
|---|---|---|
| RuntimeBox.Box.constructor | runtime/sing-box/user_reload.go:430-462 | a started runtime shows revision 0 and the hash of its options |
| RuntimeBox.Box.ReloadUsers | runtime/sing-box/user_reload.go:499-591 | the compare-and-swap reload is the abstract delivery of a PUT: another instance is a conflict, content already running is accepted at any revision and changes nothing, other content needs the current revision and moves options, revision and status together |
| RuntimeBox.Box.FenceUserRuntime | runtime/sing-box/user_reload.go:621-635 | the fence bumps the revision and keeps the content exactly when instance and revision still match |
| RuntimeBox.HarmlessForever | runtime/sing-box/user_reload.go:499-591 | a PUT from the past that cannot change the runtime never can again, whatever other PUTs or fences follow |
| Publication.Restore | node-manager/runtime_publication.py:67-74 | restoring a captured record gives back exactly that capture, file or no file, and touches no other path |
| Publication.InvNext | node-manager/runtime_publication.py:94-281 | each of the eighteen steps of manager, disk and runtime keeps the protocol invariant |
| Publication.InvFence | node-manager/runtime_publication.py:105-126 | a fence, won or lost, keeps the invariant, under which a won fence proves the previous content and leaves no PUT in flight that can change it |
| Publication.InvRestart | node-manager/runtime_publication.py:105-126 | a runtime restart keeps the invariant wherever its guard allows it |
| Publication.RunKeepsInv | node-manager/runtime_publication.py:94-281 | the invariant holds in every state of every run |
| Publication.RunsAreSafe | node-manager/runtime_publication.py:94-139 | in every run with crashes, power loss, lost replies, late PUTs and restarts: without a journal the configuration file, the receipt and the runtime agree and no PUT in flight can change the runtime; with one the content is the previous or the target one; the conflict error is never reached; without restarts resolving never needs its third try |
| Publication.HoldsIsOverlay | node-manager/runtime_publication.py:152-164 | files that hold one side of the journal are the origin disk overlaid with that side |
| Publication.SameCaptures | node-manager/runtime_publication.py:59-65 | disks with equal captures of every path are equal |
| Publication.OnlyRemovalCloses | node-manager/runtime_publication.py:141-150 | no step but the removal of the journal ends a publication |
| Publication.ClosingIsOneSide | node-manager/runtime_publication.py:200-257 | the step that removes the journal leaves disk and runtime both old or both new |
| Publication.OriginKept | node-manager/runtime_publication.py:200-281 | while a journal lives its records and the disk it started from never change; one that was just opened started from the disk before it |
| Publication.JournalSpan | node-manager/runtime_publication.py:200-281 | from the opening of a journal to its removal the outcome is one side of the disk it started from |
| Publication.PublicationIsAllOrNothing | node-manager/runtime_publication.py:200-281 | whenever the journal is gone again, the disk is exactly the old one with the old content running, or every prepared target has its new bytes with the mode and owner it had (0o600 for a new file), every other file is as it was and the target content runs; a journal that a power loss brought back leaves disk and content as they were |
| Publication.OpenedFor | node-manager/runtime_publication.py:200-225 | the journal is opened for the prepared targets, between the content on disk and theirs |
| Publication.AgainKept | node-manager/runtime_publication.py:259-281 | every step of recovering a journal that was closed before keeps the disk, the content and the side it was closed on |
| Publication.ReopenedStays | node-manager/runtime_publication.py:141-150 | from the power loss that brings a journal back to its next removal disk and content do not move |
| Publication.RestartDuringUndo | node-manager/runtime_publication.py:259-281 | the undo that follows a restart ends in agreement if and only if the configuration file already hashes to the previous content |
| Publication.UndoRuns | node-manager/runtime_publication.py:259-281 | the remaining steps of an undo, whatever the runtime runs, form a run, and it ends in the state that RestartDuringUndo judges |
| Publication.RestartBreaksUndo | node-manager/runtime_publication.py:259-281 | a run from a verified start to an undo with the new configuration file still on disk, and the run of the undo after a restart there, which removes the journal in disagreement |
| PublicationManager.Manager.constructor | node-manager/runtime_publication.py:294-301 | a verified start is a one-state run |
| PublicationManager.Manager.Take | node-manager/runtime_publication.py:94-281 | every durable change is one enabled step of the protocol and extends the recorded run |
| PublicationManager.Manager.WriteRecords | node-manager/runtime_publication.py:152-164 | installs or rewrites every record one atomic replacement at a time, with late PUTs and, where the guard allows it, runtime restarts between two of them, or dies in between; the run stays inside the protocol |
| PublicationManager.Manager.ResolveRound | node-manager/runtime_publication.py:105-126 | one round proves applied, proves unchanged behind a fence, loses the answer, or goes round again with one try less |
| PublicationManager.Manager.Resolve | node-manager/runtime_publication.py:105-126 | three rounds end in a proof of one side or in an open outcome; in calm weather the first round answers what the runtime runs |
| PublicationManager.Manager.Publish | node-manager/runtime_publication.py:128-139 | one PUT with reply and status readback, or else a resolution |
| PublicationManager.Manager.AwaitReply | node-manager/runtime_publication.py:128-139 | proves the target applied or goes on to a resolution with three tries; in calm weather exactly when the runtime takes the PUT |
| PublicationManager.Manager.Close | node-manager/runtime_publication.py:200-257 | receipt, then journal; the disk is the overlay or the origin |
| PublicationManager.Manager.RecoverLocked | node-manager/runtime_publication.py:259-281 | recovery reports a side only when the disk is exactly that side and the journal is gone; in calm weather it always closes the journal, on the side the runtime runs |
| PublicationManager.Manager.Open | node-manager/runtime_publication.py:94-103 | refuses drift and opens a journal whose new side is the disk with the targets replaced |
| PublicationManager.Manager.Settle | node-manager/runtime_publication.py:200-257 | the answer of publish is carried to the end: committed, rolled back, or recovery required |
| PublicationManager.Manager.CommitFiles | node-manager/runtime_publication.py:200-257 | Committed means that every target is on disk with its new bytes, old mode and owner, every other file is as before, the receipt names the new configuration and the runtime agrees; RolledBack and Refused that files and receipt are as before; RecoveryRequired that the journal is still there and blocks the next call; it is refused exactly without runtime support, and in calm weather it commits exactly when the runtime takes the content, and rolls back otherwise |
| Planner.NamedFromHolds | runtime/sing-box/user_reload.go:36-56 | indexed rows are found under their tag |
| Planner.NamedFromExactly | runtime/sing-box/user_reload.go:36-56 | rows are indexed if and only if each is an object with a tag of its own, and the index then has exactly their tags |
| Planner.NamedRowsExactly | runtime/sing-box/user_reload.go:36-56 | a missing or null list has no rows, and anything else that is not a list is an error |
| Planner.ValidateUsers | runtime/sing-box/user_reload.go:119-163 | accepts exactly the inbounds whose users are well formed with distinct names and distinct canonical ids, and returns their names |
| Planner.UserOkExactly | runtime/sing-box/user_reload.go:119-163 | what a VLESS, VMess or SOCKS user must bring, field by field |
| Planner.DynamicExactly | runtime/sing-box/user_reload.go:68-118 | a rule is managed if and only if it names users by strings, none empty or protected and one managed, and its other fields are of the allowed ones with a default type and a routing or rejecting action |
| Planner.ReferencesExactly | runtime/sing-box/user_reload.go:165-186 | a value mentions a set of tags if and only if it mentions one of them, and a routing field mentions its own |
| RoutingPolicy.CountIsMembership | runtime/sing-box/user_reload.go:68-85 | a rule counts for exactly the users it lists |
| RoutingPolicy.PolicySections | runtime/sing-box/user_reload.go:316-344 | entries of a policy never point before the section the rule list starts in |
| RoutingPolicy.PolicyDecides | runtime/sing-box/user_reload.go:87-117 | first-match evaluation of a rule list for a user is evaluation of the static rules interleaved with that user's policy, for every matching engine and connection |
| RoutingPolicy.SamePolicy | runtime/sing-box/user_reload.go:313-373 | with equal static rules two lists give a user the same policy if and only if the user sees the same list once all other names are erased from it |
| RoutingPolicy.ProtectedHasNoPolicy | runtime/sing-box/user_reload.go:87-117 | a name outside the managed scope has no dynamic policy |
| RoutingPolicy.AppendEntry | runtime/sing-box/user_reload.go:334-342 | appends the entry once per listed name and to nobody else |
| RoutingPolicy.Policies | runtime/sing-box/user_reload.go:316-344 | succeeds exactly when every rule is an object, managed rules name a known outbound and static rules reference no changed one; returns the static rules and every user's policy |
| RuleReuse.FileRules | runtime/sing-box/user_reload.go:373-377 | each bucket lists the old positions of its rules in order |
| RuleReuse.ReuseRules | runtime/sing-box/user_reload.go:378-397 | a reused index points at an equal rule, equal rules take old objects in order from the first, and without hash collisions a rule goes without only when none is left |
| RuleReuse.StaticRulesAreReused | runtime/sing-box/user_reload.go:378-397 | with equal static lists no static rule ever runs out of old objects |
| RuleReuse.ReuseIsInjective | runtime/sing-box/user_reload.go:378-397 | two new rules never share an old object |
| RuleReuse.StaticRulesKeepTheirRank | runtime/sing-box/user_reload.go:378-397 | the k-th static rule of the new list gets the k-th static rule of the old list |
| UserPlan.UntouchedUsersKeepTheirRoutes | runtime/sing-box/user_reload.go:188-372 | for every accepted update, user outside the changed names, engine and connection: the same normalized rules match in the same order before and after, and each names an identical outbound row |
| UserPlan.RoutesKept | runtime/sing-box/user_reload.go:316-372 | the same on the planner's view of the two configurations |
| UserPlan.ChangedExactly | runtime/sing-box/user_reload.go:313-373 | a plan names a managed user if and only if the user sees another list, other names erased, or a rule that lists the user mentions a changed outbound |
| UserPlan.TouchedExactly | runtime/sing-box/user_reload.go:360-373 | a policy mentions a changed outbound if and only if a managed rule that lists the user does |
| UserPlan.ScopeExactly | runtime/sing-box/user_reload.go:205-267 | a name is managed if and only if an inbound that may take new users has it, before or after, and no other inbound spells it |
| UserPlan.DetoursStay | runtime/sing-box/user_reload.go:307-314 | behind an outbound that an accepted update leaves alone the whole chain of detours stays |
| UserPlan.UntouchedChains | runtime/sing-box/user_reload.go:188-372 | every outbound that an untouched user's traffic passes through, detour by detour, is the same row before and after |
| UserPlan.ChainsStayExactly | runtime/sing-box/user_reload.go:307-314 | chains that also pass through groups stay if and only if no outbound that stays is a group with a changed member |
| UserPlan.GroupMemberMayChange | runtime/sing-box/user_reload.go:165-186 | an accepted update that leaves a group alone and changes its member |
| UserPlan.DefaultStays | runtime/sing-box/user_reload.go:268-273 | the default outbound keeps its tag, and its row if and only if the tag is not among the changed |
| UserPlan.AcceptedKeeps | runtime/sing-box/user_reload.go:198-204 | an accepted update changes no field outside inbounds, outbounds and rules, and no inbound tag |
| UserPlan.InboundKeeps | runtime/sing-box/user_reload.go:207-258 | an inbound of another kind stays; of the others only the users may change and SOCKS authentication may only be gained, and only where all users validate |
| UserPlan.UsersMayChange | runtime/sing-box/user_reload.go:207-258 | an inbound whose users alone change, and validate, is never a reason to refuse |
| UserPlan.ChangedOutboundsAreFree | runtime/sing-box/user_reload.go:297-314 | outbounds that change are direct or SOCKS without detour, before and after, and nothing that stays mentions them |
| UserPlan.PlannedOutbounds | runtime/sing-box/user_reload.go:282-296 | dropping the removed outbounds and creating the planned ones turns the running set into the new one; an outbound is planned if and only if its row differs |
| UserPlan.PlannedInbounds | runtime/sing-box/user_reload.go:405-425 | replacing the planned inbounds turns the running set into the new one; an inbound is planned if and only if it differs or authenticates a changed user |
| UserPlan.ProtectedInboundsAreUntouched | runtime/sing-box/user_reload.go:205-267 | an unchanged inbound that cannot be replaced holds no changed user |
| UserPlan.TouchedInboundsAreReplaceable | runtime/sing-box/user_reload.go:205-267 | an inbound that changes or holds a changed user is of a replaceable kind |
| UserPlan.InstalledNamesAreReal | runtime/sing-box/user_reload.go:119-163 | no managed user has an empty name |
| UserPlan.Select | runtime/sing-box/user_reload.go:398-424 | lists exactly the wanted positions, in order |
| UserPlan.ChooseRules | runtime/sing-box/user_reload.go:373-397 | gives every static rule an old object; without hash collisions it never refuses |
| UserPlan.CheckTargets | runtime/sing-box/user_reload.go:389-394 | accepts exactly when no rule of the new configuration targets an outbound that was removed |
| UserPlan.CompareRules | runtime/sing-box/user_reload.go:345-372 | accepts exactly when policies are well formed and static rules equal, and names exactly the managed users who see another rule list or one of whose rules mentions a changed outbound |
| UserPlan.PlanUserUpdate | runtime/sing-box/user_reload.go:188-425 | accepts only acceptable updates and, without hash collisions, all of them; the plan's fields mean what they say, and it names a user as changed exactly when that user is affected |
| UserPlan.SelectedInboundsValidate | runtime/sing-box/user_reload.go:205-267 | every inbound the plan replaces is a supported type whose users validate |
| UserPlan.SameTags | runtime/sing-box/user_reload.go:205-267 | an accepted update keeps the set of inbound tags |
| UserPlan.PlannedReuse | runtime/sing-box/user_reload.go:373-397 | in a plan reuse is injective and static rules keep their rank |
| WriteQueue.StagedIsSequential | node-manager/runtime_write_queue.py:251-280 | a batch that stages has the configuration and results of its tasks run alone, in order |
| WriteQueue.RejectedPrefix | node-manager/runtime_write_queue.py:251-280 | the tasks before a rejected one stage, and the rejected one raises right after them |
| WriteQueue.RunsAround | node-manager/runtime_write_queue.py:285-300 | running a rejected batch task by task is prefix, failure, suffix |
| WriteQueue.TruthfulAppend | node-manager/runtime_write_queue.py:285-311 | truthful outcomes of two parts are truthful for the whole |
| WriteQueue.BatchFull | node-manager/runtime_write_queue.py:322-328 | the break condition means that one more task would overfill the batch |
| WriteQueue.BatchGrows | node-manager/runtime_write_queue.py:322-328 | a task that passes the guard keeps the batch within its limits |
| WriteQueue.Writer.constructor | node-manager/runtime_write_queue.py:56-99 | an empty queue with its limits |
| WriteQueue.Writer.Submit | node-manager/runtime_write_queue.py:179-202 | accepts exactly when open, unpaused and within unit, byte and batch limits; it goes to the end of the queue under a fresh id, and what holds of the finished tasks still does |
| WriteQueue.Writer.FinishTask | node-manager/runtime_write_queue.py:134-145 | a finished task leaves the live set and the counters together, once |
| WriteQueue.Writer.TakeBatch | node-manager/runtime_write_queue.py:322-328 | takes the longest prefix of the queue that may share a publication |
| WriteQueue.Writer.Publish | node-manager/runtime_write_queue.py:236-283 | a publication that goes through equals the sequential run; one rolled back changes nothing and fails all; an open one marks all UNKNOWN and pauses |
| WriteQueue.Writer.Process | node-manager/runtime_write_queue.py:285-311 | terminates; each task is finished exactly once, in queue order, with a truthful state; if every publication goes through, configuration and outcomes equal running the tasks one at a time; the writer pauses exactly on an open outcome |
| WriteQueue.Writer.ProcessRejected | node-manager/runtime_write_queue.py:288-299 | the same for the prefix, rejection, suffix split |
| WriteQueue.Writer.ProcessPrefix | node-manager/runtime_write_queue.py:289-292 | the same for the tasks before a rejected one |
| WriteQueue.Writer.ProcessSuffix | node-manager/runtime_write_queue.py:293-299 | behind an open outcome the rest is cancelled and the configuration untouched |
| WriteQueue.Writer.Turn | node-manager/runtime_write_queue.py:313-329 | one turn of the worker: a legal first-in first-out batch, settled as above; over all turns so far the finished tasks are the oldest ones, their states are truthful, and if every publication went through, configuration and outcomes are those of running them one at a time |
| WriteQueue.Writer.Drain | node-manager/runtime_write_queue.py:313-344 | the worker until its queue is empty or it pauses: if every publication goes through, the whole queue ends as if its tasks had run one at a time, whatever batches were taken |
| WriteQueue.WorkedMore | node-manager/runtime_write_queue.py:313-329 | one more batch extends what the finished tasks say about all of them |
| WriteQueue.Writer.Shutdown | node-manager/runtime_write_queue.py:339-344 | everything still queued is cancelled, the counters return to zero, and over the life of the writer every accepted task has finished once, in order, with a truthful state |
| QueueReceipts.SubmittedInv | node-manager/runtime_write_queue.py:179-202 | a fresh task with an unused key keeps rows, receipts, archive and configuration consistent |
| QueueReceipts.StartedInv | node-manager/runtime_write_queue.py:236-249 | marking a batch RUNNING under a fresh batch id keeps them consistent |
| QueueReceipts.PreparedInv | node-manager/runtime_write_queue.py:270-283 | a journal with the batch's configuration and receipts on its new side keeps them consistent |
| QueueReceipts.LandedInv | node-manager/runtime_publication.py:200-281 | so does landing on the new side, which adds the promised effects with their receipts |
| QueueReceipts.UndoneInv | node-manager/runtime_publication.py:200-281 | so does going back to the old side, which adds none |
| QueueReceipts.FinishedInv | node-manager/runtime_write_queue.py:134-145 | a finish that is true keeps every row true |
| QueueReceipts.ReconciledInv | node-manager/runtime_write_queue.py:147-177 | judging rows by receipts makes every row the worker does not hold final and true |
| QueueReceipts.ArchivedInv | node-manager/runtime_write_queue.py:106-116 | moving final rows to the archive keeps them consistent |
| QueueReceipts.CleanedInv | node-manager/runtime_write_queue.py:118-124 | removing a receipt that no unfinished row points at keeps them consistent |
| QueueReceipts.QuietCrashesAreTruthful | node-manager/runtime_write_queue.py:270-280 | a batch that changes nothing in sum carries no receipt; every crash while it is being finished leaves true rows if and only if no task of it changed anything |
| QueueReceipts.QuietInv | node-manager/runtime_write_queue.py:270-280 | tasks finished without a receipt have true rows if and only if together they left the configuration as it was |
| QueueReceipts.RunIsOneByOne | node-manager/runtime_write_queue.py:270-283 | a batch that stages has the effect of its tasks run alone in their order, none of which raises |
| QueueReceipts.HiddenWorkExists | node-manager/runtime_write_queue.py:270-280 | callbacks in general, not the stamped ones: a batch can change nothing in sum although its first task alone changes something |
| QueueReceipts.StampedBatchesAreHonest | node-manager/singbox/manager.py:620-635 | tasks that stamp their users' versions, batched as the worker does it, hide no such work |
| QueueLedger.Ledger.constructor | node-manager/runtime_write_queue.py:56-99 | an empty directory |
| QueueLedger.Ledger.Owner | node-manager/runtime_write_queue.py:183-187 | finds the one row that owns a request key, in the table or in the archive |
| QueueLedger.Ledger.Submit | node-manager/runtime_write_queue.py:179-202 | a known key with the same fingerprint answers with the same task for good, with another one it conflicts; otherwise a fresh task |
| QueueLedger.Ledger.Start | node-manager/runtime_write_queue.py:236-249 | the batch's rows become RUNNING under a fresh batch id in one commit |
| QueueLedger.Ledger.Finish | node-manager/runtime_write_queue.py:134-145 | one row, one final or UNKNOWN state |
| QueueLedger.Ledger.FinishAll | node-manager/runtime_write_queue.py:301-304 | finishes in order; a crash leaves a prefix finished and all rows true |
| QueueLedger.Ledger.FinishQuiet | node-manager/runtime_write_queue.py:301-304 | finishing a batch that changed nothing: wherever a crash stops it, the rows are true if and only if the tasks finished by then changed nothing by themselves |
| QueueLedger.Ledger.ArchiveHistory | node-manager/runtime_write_queue.py:106-116 | at most the hot limit of final rows stays, whole rows move, nothing is forgotten |
| QueueLedger.Ledger.CleanupReceipt | node-manager/runtime_write_queue.py:118-124 | removes the receipt exactly when no journal is open and no unfinished row points at it, and nothing else |
| QueueLedger.Stage | node-manager/runtime_write_queue.py:270-280 | runs the callbacks on one copy; a rejection names the first that raises after those before it returned |
| QueueLedger.Ledger.Publish | node-manager/runtime_write_queue.py:281-283 | configuration and receipt change sides together or the journal stays |
| QueueLedger.Ledger.ResolveJournal | node-manager/runtime_publication.py:141-150 | recovery of the publication ends the journal on one of its two sides, with the effects and receipts of that side |
| QueueLedger.Ledger.RecoverReceipts | node-manager/runtime_write_queue.py:147-177 | pauses while a journal is there, otherwise every row the worker does not hold becomes final; no effect, key or receipt of an open row is lost |
| QueueLedger.Ledger.JudgeRows | node-manager/runtime_write_queue.py:147-177 | every row that is neither final nor held by the worker is judged by the receipts, all others stay |
| QueueLedger.Ledger.Restart | node-manager/runtime_write_queue.py:147-177 | after a restart with the journal resolved the books are exact: SUCCEEDED is the set of tasks whose effects make up the configuration, each once |
| QueueLedger.Ledger.Reopen | node-manager/runtime_write_queue.py:147-177 | after any crash, publication recovery and receipt recovery together make the books exact and end the pause; the effects are those before, or those with the journal's |
| QueueLedger.Ledger.Settle | node-manager/runtime_write_queue.py:285-311 | a staged batch ends in one of three ways, with a crash anywhere: as its tasks run alone, all FAILED with the files as before, or all UNKNOWN behind a paused writer; true rows when it returns, and at every crash unless the batch hid work |
| QueueLedger.Ledger.Process | node-manager/runtime_write_queue.py:285-311 | for every batch: when it returns the rows tell the truth about the files and each of its tasks is final, or UNKNOWN behind a paused writer; when all goes smoothly it returns, and files, applied effects and outcomes are those of the tasks run alone in their order; at a crash the rows are true unless the batch hid work; other tasks are untouched |
| QueueLedger.Ledger.ProcessRejected | node-manager/runtime_write_queue.py:288-299 | the same for prefix, raising task and suffix |
| QueueLedger.Ledger.ProcessSuffix | node-manager/runtime_write_queue.py:288-299 | behind an open outcome the rest is cancelled without effect, otherwise it is processed |
| QueueLedger.AloneJoin | node-manager/runtime_write_queue.py:285-299 | two parts that went as if run alone make a whole that did |
| QueueLedger.Ledger.ProcessAndReopen | node-manager/runtime_write_queue.py:147-311 | a batch of stamped tasks, a crash at any durable write or none, and the next start: each task of the batch is final, SUCCEEDED exactly when its effect is in the files, and no other task's effect came or went |
| QueueLedger.RecoveredIsExact | node-manager/runtime_write_queue.py:147-177 | final rows under the invariant are exact |
| Operations.Observe | node-manager/operations.py:303-317 | an observation is definite exactly when the evidence names this operation, hash and version with that status |
| Operations.LogApply | node-manager/operations.py:319-409 | an apply at the fence keeps the log ordered when it is the first of its version or follows a negative readback |
| Operations.OrderedForward | node-manager/operations.py:84-85 | in an ordered log generations never fall, nor desired versions inside one |
| Operations.HoldsFence | node-manager/operations.py:340-345 | a known operation that is neither stale nor contested holds the fence |
| Operations.RowsAdmit | node-manager/operations.py:346-366 | a first submission that passes moves the fence strictly forward |
| Operations.Scope.constructor | node-manager/operations.py:183-229 | an empty scope |
| Operations.Scope.Admit | node-manager/operations.py:330-370 | conflict, replay, refusal, fresh start or retry, each exactly on its condition; only a fresh start moves the fence |
| Operations.Scope.Finish | node-manager/operations.py:283-300 | the update happens exactly when the operation holds the fence |
| Operations.Scope.Read | node-manager/operations.py:252-281 | the persisted row with APPLYING shown as UNKNOWN |
| Operations.Scope.Perform | node-manager/operations.py:392-407 | apply runs under the fence and its ending decides the row |
| Operations.Scope.Resume | node-manager/operations.py:382-391 | a retry applies again exactly after a negative readback, and its status is the readback's or the ending's |
| Operations.Scope.Execute | node-manager/operations.py:319-409 | in every call and crash: applies run at nondecreasing versions, equal versions are one operation with a negative readback in between, apply holds the fence, REJECTED is final, APPLIED rests on a positive readback, the lost-fence error never occurs; a call that returns ran the apply callback exactly when it was a first submission that was not refused or a retry whose readback said not applied; in the numbers themselves: a first submission below the fence is REJECTED and runs nothing, one above it always runs and takes the fence, generations never fall; in calm weather it answers, with a conflict exactly for an id bound elsewhere or to other content |
| Operations.Scope.Reconcile | node-manager/operations.py:411-433 | reads back and updates the row, never applies, never loses the fence: a rejected or superseded operation answers as recorded, the fence holder becomes APPLIED on a positive readback and UNKNOWN otherwise, and nothing else changes |
| Operations.SupersededMayHaveRun | node-manager/operations.py:358-362 | a consistent state in which a known operation has run, is refused as stale and is recorded as REJECTED |
| Operations.SupersededRun | node-manager/operations.py:319-409 | three calls of `execute`: the first operation runs and its outcome stays open, a second goes past it, and the retry of the first is answered REJECTED although its callback ran |
| HotloadRules.CookiesDiffer | node-manager/wireguard_routes.py:277-278 | different ports have different marks |
| HotloadRules.CookieInHighByte | node-manager/wireguard_routes.py:277-278 | a mark is a nonzero high byte and nothing else |
| HotloadRules.TproxyRules | node-manager/wireguard_routes.py:289-292 | the TPROXY rules are exactly one per protocol and listed port, to that port and under its own mark |
| HotloadRules.TproxyDecides | node-manager/wireguard_routes.py:289-292 | a marked packet goes to the listed port its mark names and to no other |
| HotloadRules.ChainDecides | node-manager/wireguard_routes.py:267-293 | for every mark and packet: an unmarked established flow is pinned to the base, an unmarked new one to the active port, a marked one stays; the low 24 bits never change |
| Hotload.FlowsNeverMove | node-manager/wireguard_routes.py:267-293 | all packets of a tracked flow were handled by one process; the high byte of every tracked flow is zero or the mark of a listed generation |
| Hotload.SentInv | node-manager/wireguard_routes.py:267-293 | a packet keeps every flow pinned and its low mark bits unchanged |
| Hotload.SentNoFlows | node-manager/wireguard_hotload.py:596-639 | a packet gives no flow to a port that is neither base nor active |
| Hotload.StoppedInv | node-manager/wireguard_hotload.py:596-639 | stopping a port without flows keeps every flow pinned |
| Hotload.PreparedInv | node-manager/wireguard_hotload.py:765-772 | listing a running candidate captures no existing flow, also on a port used before |
| Hotload.PromotedInv | node-manager/wireguard_hotload.py:708-743 | promotion moves no existing flow |
| Hotload.DroppedInv | node-manager/wireguard_hotload.py:624-638 | dropping a stopped generation keeps every flow pinned |
| Hotload.MigratedInv | node-manager/wireguard_hotload.py:378-419 | assigning legacy flows to the base changes only their high byte and moves none |
| Hotload.WithoutDistinct | node-manager/wireguard_hotload.py:625 | removing a port keeps the others distinct |
| HotloadSwitch.Switch.constructor | node-manager/wireguard_hotload.py:642-663 | the base generation alone with the unmarked flows it already serves |
| HotloadSwitch.Switch.Traffic | node-manager/wireguard_routes.py:267-293 | any number of new flows, packets, expiries and foreign low-bit changes keeps flows pinned and cannot fill an inactive port |
| HotloadSwitch.Switch.ConntrackEmpty | node-manager/wireguard_hotload.py:520-530 | says empty only when no flow carries the mark; in calm weather exactly then |
| HotloadSwitch.Switch.Retire | node-manager/wireguard_hotload.py:604-638 | stops and drops only a port other than base and active; it proves twice that no flow uses it, with traffic in between and before the stop; no other process is touched; in calm weather every such port without flows |
| HotloadSwitch.Switch.RetireInactive | node-manager/wireguard_hotload.py:596-639 | only stops processes, and never the active one; in calm weather every inactive generation without flows goes |
| HotloadSwitch.Switch.AllocatePort | node-manager/wireguard_hotload.py:686-694 | the first port above the base that is neither listed nor active nor unclear, and None exactly when there is no such port |
| HotloadSwitch.Switch.StartNewCandidate | node-manager/wireguard_hotload.py:746-772 | a candidate is listed only when it runs the wanted configuration; other processes are untouched; in calm weather on the first free port, whenever there is one |
| HotloadSwitch.Switch.CandidateForHash | node-manager/wireguard_hotload.py:673-683 | a listed running generation with the wanted configuration; in calm weather whenever there is one |
| HotloadSwitch.Switch.PinLegacy | node-manager/wireguard_hotload.py:785-806 | on success every flow that was ever served carries a listed generation's mark; in calm weather it succeeds when all flows are unmarked or of the base |
| HotloadSwitch.Switch.SyncRoutes | node-manager/wireguard_hotload.py:775-835 | flows stay pinned throughout; a reported switch means new flows reach a process with the wanted configuration; otherwise the active port and its process are unchanged; in calm weather it keeps a reusable configuration and otherwise switches whenever a port is free |
| VlessJournal.MergedTotals | node-manager/rolling_runtime.py:98-143 | raises exactly on a counter out of range, below its start, negative or overflowing; otherwise returns the merged totals, upload and download apart |
| VlessJournal.SumRemove | node-manager/rolling_runtime.py:98-143 | taking a generation out takes exactly its contribution out |
| VlessJournal.CarryingInv | node-manager/rolling_runtime.py:98-143 | bytes carried by a process with sessions keep the books balanced |
| VlessJournal.RetireIntentInv | node-manager/vless_publication.py:199-215 | journalling a retirement keeps list, redirect and balance |
| VlessJournal.StoppedInv | node-manager/vless_publication.py:216 | stopping the retiring process keeps the balance |
| VlessJournal.FinishedInv | node-manager/vless_publication.py:217-221 | the steady journal after a retirement is consistent |
| VlessJournal.AbortedInv | node-manager/vless_publication.py:701-720 | taking a busy retiring generation back keeps list, slots and balance |
| VlessJournal.SwitchIntentInv | node-manager/vless_publication.py:885-891 | journalling a switch keeps ids, slots and ports distinct |
| VlessJournal.SettledInv | node-manager/vless_publication.py:721-762 | either end of a switch is consistent and keeps the pending generation in the list |
| VlessJournal.ReloadIntentInv | node-manager/vless_publication.py:805-820 | adding the snapshot to the carry is balanced by what it doubles |
| VlessJournal.RestartedInv | node-manager/vless_publication.py:821-828 | a core that starts over ends the doubling |
| VlessJournal.ReloadedInv | node-manager/vless_publication.py:763-780 | a reload ends steady only after the listener moved |
| VlessJournal.SteadyMeans | node-manager/vless_publication.py:694-910 | a steady journal: the redirect is the active generation's port or none for the baseline, ids, slots and ports are distinct and bounded by the slot list, and carried bytes are reported bytes plus dropped bytes |
| VlessJournal.Bounded | node-manager/rolling_runtime.py:341-348 | no more generations than slots |
| VlessJournal.RetireTotals | node-manager/vless_publication.py:205-214 | retirement keeps the reported totals if and only if nothing was carried since its snapshot |
| VlessJournal.AbortUndoes | node-manager/vless_publication.py:701-720 | a retirement and its abort cancel out |
| VlessJournal.ReloadTotals | node-manager/vless_publication.py:784-840 | a whole baseline reload keeps the totals if and only if nothing was carried since its snapshot |
| VlessPublisher.Publisher.constructor | node-manager/vless_publication.py:295-331 | the baseline alone |
| VlessPublisher.Publisher.Environment | node-manager/rolling_runtime.py:98-143 | sessions open only behind the redirect; an idle process carries nothing |
| VlessPublisher.Publisher.CollectOne | node-manager/vless_publication.py:185-222 | retires an idle superseded generation and drops no byte, or stops in a phase recovery understands; idle processes stay idle; a generation with sessions is left alone, and in calm weather one without is gone |
| VlessPublisher.Publisher.CollectEmpty | node-manager/vless_publication.py:185-222 | the same over the list; redirect and active generation unchanged; in calm weather only the active generation and those that had sessions stay |
| VlessPublisher.Publisher.ForceRetireOne | node-manager/vless_publication.py:225-277 | retires exactly the first superseded generation, without touching the active route; one without sessions loses nothing, and what is dropped otherwise is at most what was carried during the call; in calm weather it succeeds exactly when there is one |
| VlessPublisher.Publisher.RetireForced | node-manager/vless_publication.py:245-277 | snapshot, journal, stop and steady journal of one superseded generation; a crash anywhere leaves a phase recovery understands |
| VlessPublisher.Publisher.ChooseSlot | node-manager/rolling_runtime.py:341-348 | the first free slot, exactly when there is memory and a free slot |
| VlessPublisher.Publisher.Stage | node-manager/vless_publication.py:488-584 | a candidate on a free slot that nothing points at; the first free one, and in calm weather whenever there is memory and a slot |
| VlessPublisher.Publisher.SwitchTo | node-manager/vless_publication.py:885-899 | journal, redirect, steady state; a crash leaves the redirect on the old or the pending port; in calm weather it completes and the list gains at most the candidate |
| VlessPublisher.Publisher.ReloadBaseline | node-manager/vless_publication.py:784-840 | steady again only with the wanted configuration and, if it changed, a new core; a redirected baseline without sessions loses nothing, and what is dropped otherwise is at most what was carried during the call |
| VlessPublisher.Publisher.Recover | node-manager/vless_publication.py:694-781 | from every phase a crash leaves: steady or blocked unchanged; the unexpected-target error never occurs; a cut-off switch keeps the pending generation whichever way it goes; in calm weather it is blocked exactly on a third view and on a reload that has not taken effect |
| VlessPublisher.Publisher.RecoverRetiring | node-manager/vless_publication.py:701-720 | a retiring process with sessions is taken back, otherwise it is gone |
| VlessPublisher.Publisher.RecoverSwitching | node-manager/vless_publication.py:721-762 | forward for the pending view, back for the active one, blocked for a third, each with the redirect to match |
| VlessPublisher.Publisher.Publish | node-manager/vless_publication.py:843-910 | on success new connections go to a listed generation with the wanted view, the baseline has the wanted configuration, and the reported totals have not fallen; nothing is dropped when baseline and superseded generations have no sessions, nor without the forced-retirement policy when the baseline stays; in calm weather with memory it succeeds whenever there is or can be made room |
| VlessPublisher.Publisher.Activate | node-manager/vless_publication.py:862-899 | new connections go to a listed generation with the wanted view, and a generation joins the list only when no listed one has that view; without the policy nothing is dropped |
| VlessPublisher.Publisher.StageWithRoom | node-manager/vless_publication.py:869-884 | the loop ends with a candidate for the wanted view on a free slot, or without one; without the policy, or while memory and a slot are free, no generation, session or byte is touched; nothing is dropped when the superseded generations have no sessions; in calm weather with memory it finds a slot whenever one is free, or the policy may free one of several |
| VlessPublisher.TotalsGrow | node-manager/rolling_runtime.py:98-143 | between steady states the reported totals never fall |
| VlessPublisher.SupersededIdle | node-manager/vless_publication.py:185-199 | a superseded generation without sessions is idle: the redirect does not reach it |
| VlessPublisher.RetirementLossless | node-manager/vless_publication.py:225-277 | a forced retirement keeps the reported totals under all traffic between its snapshot and its journal if and only if its generation has no sessions when the snapshot is taken |
| VlessPublisher.ReloadLossless | node-manager/vless_publication.py:784-840 | a baseline reload keeps them under all such traffic if and only if the redirect is set and the baseline has no sessions |
| VlessPublisher.LaunchedInv | node-manager/vless_publication.py:843-910 | staging and switching to a generation on a free slot is a run of protocol steps that ends in a steady world with the generation active |
| VlessPublisher.ForcedRetirementLoses | node-manager/vless_publication.py:225-277 | from the first start: a session opens on a generation, another supersedes it, the session carries bytes after the snapshot of its forced retirement; the totals fall by exactly those bytes |
| VlessPublisher.ReloadLoses | node-manager/vless_publication.py:784-840 | from the first start: a session opens on the baseline, a generation goes live, the session carries bytes after the snapshot of the reload; the totals fall by exactly those bytes |
| RouteReuse.Lookup | node-manager/wireguard_routes.py:181-186 | a row with the tag, and None exactly when no row has it |
| RouteReuse.LookupFirst | node-manager/wireguard_routes.py:181-186 | among several rows with a tag it is the first |
| RouteReuse.SourceRuleExactly | node-manager/wireguard_routes.py:190-200 | a source rule, field by field |
| RouteReuse.Split | node-manager/wireguard_routes.py:174-205 | succeeds exactly on two boundary rules around distinct well-formed source rules with distinct outbound tags, and indexes them |
| RouteReuse.CanReuse | node-manager/wireguard_routes.py:166-221 | says yes exactly when bodies and boundary rules are equal, retained sources are owned, and every new rule and outbound is already loaded |
| RouteReuse.SameExit | node-manager/wireguard_routes.py:166-221 | a tag of the new configuration means the same outbound and the same group members in the loaded one |
| RouteReuse.ReuseKeepsVerdicts | node-manager/wireguard_routes.py:166-221 | behind the new firewall every packet of every source gets the same verdict under the loaded configuration as under the new one |
| RouteBuild.ReserveTag | node-manager/wireguard_routes.py:104-111 | ends, and returns the first candidate not in use |
| RouteBuild.AddExit | node-manager/wireguard_routes.py:81-94 | the tag stands for the peer's binding, a single outbound or a group with its members |
| RouteBuild.AddMembers | node-manager/wireguard_routes.py:85-90 | each group member is defined under a fresh tag |
| RouteBuild.AdmittedExactly | node-manager/wireguard_routes.py:61-80 | a peer gets a route if and only if it is live, in good standing, and its exit is the one it was admitted with |
| RouteBuild.BuildConfig | node-manager/wireguard_routes.py:45-101 | fails exactly on a considered peer without a valid address; otherwise one rule and exit per admitted peer between two deny rules, with distinct and complete tags |
| RouteBuild.OnlyThroughTheOwnExit | node-manager/wireguard_routes.py:59-97 | a public destination is blocked exactly when no admitted peer owns the source; otherwise it leaves through an exit that stands for the binding of such a peer, whose fingerprint still matches |
| RouteBuild.PrivateIsBlocked | node-manager/wireguard_routes.py:55-59 | a private destination is blocked for every source |
| RouteBuild.SourceRulesRoute | node-manager/wireguard_routes.py:95-97 | source rules send a packet to the exit of a peer that owns its source |
| RouteBuild.BuiltSplits | node-manager/wireguard_routes.py:166-205 | with one admitted peer per address a built configuration is readable by the reuse check |
| RouteBuild.BuiltEligible | node-manager/wireguard_routes.py:158-163 | the eligible sources of a built configuration are exactly those of its admitted peers, each with its own rule |
| RouteBuild.StandsIn | node-manager/wireguard_routes.py:207-216 | what stands for a binding in the new configuration stands for it in the retained one |
| RouteBuild.RetainedRoutes | node-manager/wireguard_routes.py:166-221 | behind the firewall of a newly built configuration every packet of every source gets the same verdict from the retained one; a source is let through exactly when an admitted peer owns it, and its public traffic leaves through that peer's exit |
| AddressIndex.TopIsPath | node-manager/wireguard.py:333-336 | equal prefixes are equal bit paths |
| AddressIndex.Index.Insert | node-manager/wireguard.py:326-338 | adds exactly one owner at the network's path |
| AddressIndex.Index.Conflicts | node-manager/wireguard.py:340-351 | finds another owner on the address's path exactly when there is one |
| AddressIndex.Build | node-manager/wireguard.py:326-338 | the index holds exactly the IPv4 networks of the snapshot |
| AddressIndex.IndexedConflict | node-manager/wireguard.py:323-351 | the trie reports a conflict exactly when another key owns an IPv4 network that contains the address |
| AddressIndex.ScanConflict | node-manager/wireguard.py:363-369 | so does the linear scan |
| PeerRegistry.Read | node-manager/wireguard.py:110-134 | accepts exactly registries with unique keys and addresses, matching ids, fingerprints, and one live peer per user |
| PeerRegistry.Put | node-manager/wireguard.py:457-499 | a record that clashes with none keeps the registry readable and identities fixed |
| PeerRegistry.Lowered | node-manager/wireguard.py:449-455 | leaving the live states keeps it readable |
| PeerStore.RefreshBindings | node-manager/wireguard.py:703-730 | every live peer afterwards is unexpired and has its exit, no user is live twice, each record changes only as its own state demands; a peer that was stuck on the kernel and is alone for its user is ACTIVE again |
| PeerStore.EntitledStay | node-manager/wireguard.py:703-730 | a live, unexpired, bound peer is left alone |
| PeerStore.RefreshedExactly | node-manager/wireguard.py:708-738 | what a refresh makes of a peer in each case: revoked, expired, lost its exit, stuck on the kernel, or entitled |
| PeerStore.LiveUsers | node-manager/wireguard.py:707-708 | the dictionary of live users names each user's live peer |
| PeerStore.Admit | node-manager/wireguard.py:354-369 | admits exactly on the stated identity, ownership, adoption and address conditions |
| PeerStore.Normalize | node-manager/wireguard.py:502-532 | accepts exactly bounded batches of unexpired peers without a repeated identity |
| PeerStore.Registry.ApplyPeer | node-manager/wireguard.py:457-499 | rejected exactly when not admissible, and then unchanged; applied means the record is ACTIVE, installed and still bound; a failure activates nobody, except that a final write that raised after it landed stays when the write that takes it back fails too; identities never change and REVOKED is final; in calm weather it is applied exactly when routes, kernel readback, exit and final write all hold |
| PeerStore.Registry.ApplyPeers | node-manager/wireguard.py:609-671 | the same for a batch, admitted as a whole: a failure activates nobody, or all of it in that one case |
| PeerStore.Registry.FailApply | node-manager/wireguard.py:574-606 | refreshed records go back, new intents fail and entitlement losses are applied, unless its own write fails before it lands: then the registry is as it was |
| PeerStore.Registry.RecordBatch | node-manager/wireguard.py:635-640 | one readable registry with exactly the batch's intents |
| PeerStore.Registry.RevokePeer | node-manager/wireguard.py:674-700 | the tombstone is written first; unknown ownership is refused; applied only with removal and routes verified |
| PeerStore.Registry.Screen | node-manager/wireguard.py:749-779 | no apply is left pending; a peer that is unexpired, bound and not covered by another kernel peer stays as it is |
| PeerStore.Registry.Install | node-manager/wireguard.py:792-832 | applied means every ACTIVE peer is installed with exactly its address, unexpired and bound; a reachable bound peer stays as it is; it stops exactly when a readback is missing, and applies exactly when nobody had to be lowered |
| PeerStore.Registry.Reconcile | node-manager/wireguard.py:749-832 | readable and identity-preserving at every write; on completion every ACTIVE peer is installed with exactly its address, unexpired and bound; an entitled reachable peer is left as it was; it stops exactly when a snapshot, the routes or a readback is missing |
| PeerStore.Interrupted | node-manager/wireguard.py:756-763 | expired peers expire, interrupted applies fail, revoked and all other peers stay as they are |
| PeerStore.BlockConflicts | node-manager/wireguard.py:774-778 | blocks exactly the ACTIVE peers whose address another kernel peer covers |
| PeerStore.BlockUninstalled | node-manager/wireguard.py:796-817 | blocks exactly the ACTIVE peers that cannot be set or do not show up; with a readback every ACTIVE peer left is installed |
| CounterLedger.Telescopes | node-manager/monitor/runtime_counters.py:15-84 | what is booked for a counter in all is its last observed value minus its first baseline, which it never falls below, also for counters that continue one without id |
| CounterLedger.Handover | node-manager/monitor/runtime_counters.py:45-47 | a counter that takes over the baseline of its predecessor without id starts where that one stopped, and both together booked the last value minus the first start |
| CounterLedger.RowLinks | node-manager/monitor/runtime_counters.py:41-75 | a booked row continues its counter exactly when it is not one that was observed before and lost its baseline |
| CounterLedger.RowChained | node-manager/monitor/runtime_counters.py:41-75 | the books stay chained over a row exactly when that row is not counted again |
| CounterLedger.BookRowKeeps | node-manager/monitor/runtime_counters.py:41-75 | one row keeps totals and baselines in agreement with the books |
| CounterLedger.BookAll | node-manager/monitor/runtime_counters.py:41-75 | the row loop is the fold of its rows; every row is booked once, in order; totals and baselines keep agreeing, and the books stay chained exactly when no row is counted again |
| CounterLedger.RowContinues | node-manager/monitor/runtime_counters.py:35-62 | a row continues from the baseline before the snapshot (its own, the one without id, its own value in a migration, or zero) and belongs to the named, recorded or spelled-out user, whatever rows came before it |
| CounterLedger.RowRaises | node-manager/monitor/runtime_counters.py:36-76 | a row raises if and only if its counter is repeated, out of range or behind its baseline, its owner changed, or the owner's total overflows |
| CounterLedger.BookedFacts | node-manager/monitor/runtime_counters.py:36-62 | no row of a booked snapshot is out of range or repeated |
| CounterLedger.MigrationAddsNothing | node-manager/monitor/runtime_counters.py:58-59 | the first native snapshot of a store that has collected traffic adds nothing to any total |
| CounterLedger.Store.constructor | node-manager/monitor/runtime_counters.py:15-23 | the opening totals are on the books |
| CounterLedger.Tally | node-manager/monitor/runtime_counters.py:15-84 | the same on values, with the archive of retired instances it leaves also when it raises |
| CounterLedger.Store.Apply | node-manager/monitor/runtime_counters.py:15-84 | accepts exactly when the instance may be counted, no row raises and no baseline is missing; an accepted snapshot becomes the baseline map exactly, every row is booked once to its looked-up owner from its baseline, a repeated snapshot adds nothing, a rejected one changes nothing; every byte stays booked once exactly when no row was observed before and lost its baseline; a retired instance is never accepted, and the first native snapshot of a store that has collected traffic adds nothing |
| CounterLedger.Store.CountersTelescope | node-manager/monitor/runtime_counters.py:15-84 | in every reachable store with chained books, what was booked for a counter is its baseline minus where it started |
| CounterLedger.Store.NewInstancesAreClean | node-manager/monitor/runtime_counters.py:28-35 | a snapshot of an instance that is neither current nor retired counts nothing again |
| CounterLedger.Store.CurrentInstanceRecounts | node-manager/monitor/runtime_counters.py:15-84 | a snapshot of the current instance, if that was new when it came, counts bytes again if and only if it shows a counter without a baseline that was settled or handed over at a value above zero, or one whose row without id still has a baseline |
| CounterLedger.Store.Finalize | node-manager/monitor/runtime_counters.py:87-108 | exactly the confirmed pending counters leave baselines and pending list; a crash leaves a part of them; no total changes |
| CounterLedger.Store.ResetUser | node-manager/monitor/traffic.py:602-635 | the total returns to zero and the baselines stay |
| CounterLedger.NextBatch | node-manager/monitor/runtime_counters.py:99-101 | a batch of at most 256 keys, short only when it is the last |
| CounterLedger.RepeatIsAccepted | node-manager/monitor/runtime_counters.py:15-84 | an accepted snapshot is accepted again by the store it leaves, and changes neither baselines nor totals |
| CounterLedger.RaisedForGood | node-manager/monitor/runtime_counters.py:41-75 | once a row raises, no later row is counted |
| CounterLedger.ResetForgets | node-manager/monitor/traffic.py:602-635 | bytes from before a reset never return |
| CounterLedger.RetiredIsCountedTwice | node-manager/monitor/runtime_counters.py:28-35 | a retired instance that was moved to the archive is accepted in a snapshot without ids, and the user's total doubles |
| SharedQuota.AdvancedIrreflexive | node-manager/monitor/shared_quota.py:42-59 | no epoch advances itself |
| SharedQuota.AdvancedTransitive | node-manager/monitor/shared_quota.py:42-59 | advancing is transitive on all epochs, well formed or not |
| SharedQuota.AdvancedAsymmetric | node-manager/monitor/shared_quota.py:42-59 | of two epochs at most one advances the other |
| SharedQuota.AdvancedMeans | node-manager/monitor/shared_quota.py:42-59 | a later cycle advances an earlier one; in one cycle a renewal to a later instant does, and in one renewal resets and versions that grow, never the reverse |
| SharedQuota.SameCycleExactly | node-manager/monitor/shared_quota.py:36-39 | two epochs are of one cycle if and only if their fields agree, missing, zero and empty being one |
| SharedQuota.ObservedExactly | node-manager/monitor/shared_quota.py:272-331 | an update is taken if and only if identity, limit and expected epoch match, a place is free, and it is not behind the record or the retired epoch of its source |
| SharedQuota.ObservedMeans | node-manager/monitor/shared_quota.py:311-331 | it then is the source's record, or retires it when the source has moved to another cycle; nothing else changes |
| SharedQuota.MergedExactly | node-manager/monitor/shared_quota.py:107-113 | merging keeps the later of two epochs |
| SharedQuota.OriginsGrow | node-manager/monitor/shared_quota.py:158-178 | an import moves no origin back, forgets none, and a second import of the same changes nothing |
| SharedQuota.AdoptedExactly | node-manager/monitor/shared_quota.py:144-160 | a cycle is taken over if and only if it is the user's own or the user has nothing of a cycle yet |
| SharedQuota.ImportableExactly | node-manager/monitor/shared_quota.py:165-177 | an origin passes if and only if it is this node's and not ahead, or of this cycle and past what was retired |
| SharedQuota.ObservedOk | node-manager/monitor/shared_quota.py:286-333 | an accepted observation extends its source's history in order |
| SharedQuota.ClearedOk | node-manager/monitor/shared_quota.py:62-75 | a reset keeps a source's history in order exactly when its replicated origin is not behind the epoch retired for that source |
| SharedQuota.NeverAgain | node-manager/monitor/shared_quota.py:286-333 | a retired epoch is never stored again |
| SharedQuota.ObservedCycleOk | node-manager/monitor/shared_quota.py:286-333 | whatever the origins: an accepted observation stores no epoch of the cycle that was retired in it |
| SharedQuota.CycleChanged | node-manager/monitor/shared_quota.py:62-75 | a change to a cycle the user was never in keeps every retired epoch refused |
| SharedQuota.TableRefuses | node-manager/monitor/shared_quota.py:62-75 | the table of retired epochs refuses the evidence's epoch, and an origin's exactly when it does not advance the evidence of the same source |
| SharedQuota.ResetRefusesCycle | node-manager/monitor/shared_quota.py:286-333 | after a reset that starts another cycle no epoch of the ended cycle is accepted |
| SharedQuota.ResetRefusesHeld | node-manager/monitor/shared_quota.py:286-333 | such a reset refuses every epoch the user held, evidence or origin |
| SharedQuota.ObservedInCycle | node-manager/monitor/shared_quota.py:316-331 | an accepted observation keeps everything a user holds in the user's own cycle |
| SharedQuota.ImportedInCycle | node-manager/monitor/shared_quota.py:136-183 | so does an import of origins |
| SharedQuota.TableGoesBack | node-manager/monitor/shared_quota.py:62-75 | an origin, newer evidence and a source that moves to its next cycle: the reset puts the retired epoch back to the origin's |
| SharedQuota.MergeOrigins | node-manager/monitor/shared_quota.py:165-178 | raises exactly when one origin is refused; otherwise each is merged under its source and the node's own is skipped |
| SharedQuota.ForgottenOrigin | node-manager/monitor/shared_quota.py:62-75 | evidence and an origin of one cycle that the code accepts, where the table forgets the origin |
| SharedQuota.Store.constructor | node-manager/monitor/shared_quota.py:255-260 | an empty store |
| SharedQuota.Store.NeverStoredAgain | node-manager/monitor/shared_quota.py:62-333 | in every run in which no user comes back to a cycle, whatever the origins, a retired epoch is never stored again |
| SharedQuota.Store.ApplyObservation | node-manager/monitor/shared_quota.py:255-338 | accepts exactly a fresh, bounded batch from another node with distinct targets whose every update passes its checks; all updates are stored or none; each source's evidence moves along strictly advancing epochs with nondecreasing counts inside one |
| SharedQuota.Store.ImportOrigins | node-manager/monitor/shared_quota.py:136-183 | accepts exactly when the cycle matches or can be adopted, every origin passes and at most eight remain; all are merged or none; histories stay in order; it repeats a cycle exactly when the adopted one is an earlier one |
| SharedQuota.Store.Reset | node-manager/monitor/shared_quota.py:62-75 | raises exactly on an invalid reset version; the histories stay in order exactly when every origin of the user fits; it repeats a cycle exactly when the new epoch is of a cycle the user was in |
| SharedQuota.ClearedMeans | node-manager/monitor/shared_quota.py:62-75 | a reset leaves no evidence and no origin, and retires each source at the epoch of its evidence, else of its origin, else as before |
| UsageHistory.SumSplit | node-manager/runtime_history.py:73-79 | the merged total is hot plus cold minus the rows counted twice |
| UsageHistory.ReportIsTrue | node-manager/monitor/traffic.py:561-570 | with a sound archive total the report counts every user once, hot before cold |
| UsageHistory.Stores.constructor | node-manager/runtime_history.py:12-25 | empty stores |
| UsageHistory.Stores.ArchiveUsage | node-manager/runtime_history.py:58-67 | the rows are merged and the stored total stays the sum of the rows |
| UsageHistory.Stores.ArchiveInactive | node-manager/monitor/traffic.py:289-296 | the report is the same before, between and after the two commits |
| UsageHistory.Stores.Lookup | node-manager/runtime_history.py:27-32 | the chunked lookup finds exactly the named rows |
| UsageHistory.Stores.TrafficTotals | node-manager/monitor/traffic.py:561-570 | the reported total is the true one |
| UsageHistory.Stores.Rehydrate | node-manager/monitor/traffic.py:274-286 | bringing users back leaves the report unchanged |
| UsageHistory.Stores.DeleteUser | node-manager/monitor/traffic.py:585-599 | deleting in runtime mode leaves the report unchanged, crash or not |
| Revisions.PreviousShape | node-manager/revision_transaction.py:221-231 | the snapshot a commit keeps has its own recorded digest or a local name made from its content |
| Revisions.GoalOk | node-manager/revision_transaction.py:198-240 | a commit of any id keeps the current revision bound to its digest |
| Revisions.CommitKeepsBindings | node-manager/revision_transaction.py:232-239 | a commit keeps every recorded binding exactly when its id is free or bound to its digest already |
| Revisions.PublishingFits | node-manager/revision_transaction.py:219-229 | after a publication the next rollback keeps every binding exactly when the snapshot it leaves fits now and does not carry the published id, or is the published bundle |
| Revisions.SoundFits | node-manager/revision_transaction.py:337-350 | while no published id is a local name, what a rollback commits contradicts no recorded digest |
| Revisions.GoalSound | node-manager/revision_transaction.py:198-240 | such a state stays so over commits |
| Revisions.Directory.constructor | node-manager/revision_transaction.py:20-24 | no journal and no bindings |
| Revisions.Directory.Mutate | node-manager/revision_transaction.py:93-98 | ordinary mutations are refused while a journal is there |
| Revisions.Directory.Recover | node-manager/revision_transaction.py:106-145 | however often it fails, at whichever file, the seven files it settles on stay the same, and when it completes they are all there; the committed-files-changed error never occurs; in calm weather it completes exactly when the reload does and there was a configuration |
| Revisions.Directory.PutAll | node-manager/revision_transaction.py:208-239 | writes the files in order; wherever it stops, each is as before or as the commit has it |
| Revisions.Directory.Commit | node-manager/revision_transaction.py:198-253 | whatever stops it, recovery settles on the seven files before the call or on all seven of the commit; done means the latter, recovery required the former; the message that the previous bundle was restored is true exactly when the exception did not come after the commit marker; without fault and crash it is done |
| Revisions.Directory.CommitAndRecover | node-manager/revision_transaction.py:106-253 | a commit with any fault or crash and any number of failed recoveries: once one completes, all seven files are as before or all are the commit's |
| Revisions.Directory.Apply | node-manager/revision_transaction.py:285-334 | for every id: a recorded id is never bound to another digest; a new id is refused exactly when it removes users without leave, a recorded one when it is stale or its content differs, and the current one with its own content is replayed; every outcome says what the seven files are |
| Revisions.Directory.Rollback | node-manager/revision_transaction.py:337-350 | done means all seven files are those of the last good bundle, undone and recovery required say what they are too; it keeps every binding exactly when that bundle's id is free or bound to its digest, and always when no publisher used a local name; without fault and crash it is done exactly when there is a last good bundle |
| Revisions.PublishedLocalNameIsRebound | node-manager/revision_transaction.py:337-350 | a first revision published under the local name of the files it replaces, with other content: the next rollback binds that name to another digest |

## Left out

- `apply_disk` in node-manager/runtime_publication.py: its previous configuration need not be what is on disk, so it is outside the agreement theorem.
- Publication.RunsAreSafe: a runtime restart while an undo has not yet restored the configuration file is excluded by a guard, and RestartDuringUndo shows that the guard is exact.
- RuntimeBox.Box.ReloadUsers: the 64-bit wrap-around of the revision and the internals of the reload (router, outbound manager) are not modelled; whether the runtime takes a new configuration is a parameter.
- UserPlan.PlanUserUpdate: a value of the wrong JSON type where the Go code would panic counts as a refusal, and string lengths are in characters, not bytes.
- The `require_auth` flag set on inbounds and the legacy file-and-reload path of node-manager/singbox/manager.py.
- Authentication aliases and the history binding of names in node-manager/runtime_publication.py and node-manager/runtime_history.py.
- WriteQueue.Writer.Process: callbacks are functions of the configuration; clocks and context variables inside them are not modelled.
- QueueLedger.Ledger.Process: a task submitted while a batch runs is not interleaved inside the method; its single durable write keeps the invariant (QueueReceipts.SubmittedInv).
- QueueLedger.Ledger.ArchiveHistory: which of the final rows move is free; the source takes the oldest by update time.
- Operations.Scope.Execute: one scope under its file lock; other scopes appear as operation ids they bind, and identifier syntax is not modelled.
- HotloadSwitch.Switch.SyncRoutes: firewall change and state write of a promotion are one step, process drain checks and readiness are free choices, and the path without a hotload state is not modelled.
- HotloadSwitch.Switch.PinLegacy: the per-network conntrack updates are one step over all flows of managed sources.
- VlessPublisher.Publisher.Publish: routing is enabled; `detach`, the closing of connections of changed users and a change of boot id are not modelled.
- PeerStore.Registry.RevokePeer: a registry write that raises after it landed is modelled for the apply calls only.
- PeerStore.Registry.Reconcile: a registry write that raises is not modelled, and the removal of terminal peers from the kernel and the quarantine of routes are not modelled.
- VlessPublisher.Publisher.Recover: checks of process identity and configuration files are free choices that block recovery.
- VlessPublisher.TotalsGrow: generations run until the publisher stops them; a process that dies, or that its unit restarts (`Restart=on-failure`), is not modelled, and its counters would start again.
- HotloadSwitch.Switch.StartNewCandidate: likewise a hotload process runs until it is stopped; the branch of node-manager/wireguard_hotload.py:484-497 for an active unit that is dead is not modelled.
- VlessJournal.MergedTotals: connection lists and the prefixing of their ids are not modelled.
- RouteBuild.BuildConfig: how a binding is resolved and whether an account is in good standing are parameters; a detour of a single SOCKS outbound is part of its unexamined fields.
- RouteReuse.CanReuse: values of the wrong type, which make the check answer no, cannot occur in the model.
- AddressIndex.Index.Insert: the nested dictionaries are one map from bit paths to owners, so sharing between nodes is not captured.
- PeerStore.Registry.ApplyPeer: the syntax of ids, keys, addresses and dates is not modelled, and kernel snapshots are parameters.
- CounterLedger.Store.Apply: in-place updates before an error are discarded, as the caller rereads the store; snapshots are as node-manager/singbox/runtime_client.py:95-115 passes them on, so that no row's key is another row's key without id (keys are digests).
- SharedQuota.Store.ApplyObservation: epoch tokens are the epochs themselves; the blocking decision and the bytes attributed to peers are not modelled.
- SharedQuota.Store.ImportOrigins: of an origin only the epoch is kept, not its bytes; the shape checks of `validate_origins` but for the number of origins are not modelled.
- UsageHistory.Stores.Rehydrate: only the byte fields of a user record are modelled.
- Revisions.Directory.Recover: the removal of the journal is taken as durable; a power loss that brings a removed journal back is modelled for publications only.
- Revisions.Directory.Commit: digests, and the digits of one that make up a local name, are taken as free of collisions.
- Revisions.Directory.Apply: signature, registry and port checks come before the model; the runtime-mode commit is the publication protocol above; state files without recorded digests from older versions are not modelled.
- HTTP routes, request models, authentication, subprocess output parsing, startup wiring.
- node-manager/user_replication.py, node-manager/user_cleanup.py, the replication modules and node-manager/monitor/cumulative_meter.py: long conjunctions of checks, or the same arguments in easier form.
