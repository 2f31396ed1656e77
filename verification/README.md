# Crash-safe transition controllers: a verified model

The `deploy/` controllers take a host from an unversioned legacy installation to a released candidate. They all
have one shape: an append-only durable journal, an intent written before each effect, a receipt after it, and a
look at the real state on replay that either proceeds or refuses. A process may be killed at any instruction.
This project models those controllers in Dafny and proves what holds over whole histories.

`dafny verify dfyconfig.toml` checks everything.

## How the model is built

- **Journal.** A sequence of events. A `View` records what the controllers look up in it (the latest event of each
  kind, or of each step). `Justified` says what the past must hold for an event to be written; `WellFormed` that
  every event was justified. Digests are represented by the values digested.
- **Looks.** Beside the journal stands what each process went through: the course of worlds from one event to the
  next, as its observations and effects left them. `Shown` says what the course must have shown for an event to be
  written, `Witnessed` that every event was written at the end of such a course. Where the original reads one thing
  after the other, so does the model, and each read is claimed of its own moment.
- **World.** What is observed: services, ingress, queue, candidate project, job containers, database. Between any
  two observations the environment may change it arbitrarily, within the named assumptions below.
- **Checks.** What the code evaluates on one read (`Check`, `SameCheck`, `RoleCheck` and the like) is kept apart from
  what that read shows in the fields of the world (`Shows` and the predicates of the `...Histories` modules); the
  theorems speak of the fields.
- **Effects.** A ghost trace of what was sent out, each with the journal at that moment. An effect may be lost,
  handled in part, take place late, or take place and still be reported as failed.
- **Kills.** Every method may end `Killed` between and inside any two appends or effects; its contract says what
  then holds. A refusal, an append the file system refuses included, unwinds like the original's exceptions.
- **Invariant.** `SiteInv` relates journal, world and trace. Every method keeps it at every crash point, and the
  `...Histories` modules draw the plain statements from it and close them over arbitrary sequences of processes.

| modules | source |
|---|---|
| FirstTransitionJournal, FirstTransitionTheorems, FirstTransitionSite, FirstTransitionInvariant, FirstTransitionPorts, FirstTransitionHostChecks, FirstTransitionHostContract, FirstTransitionOrchestrator, FirstTransitionRecovery, FirstTransitionHistories | first transition: orchestrator, host contract, transport, driver, candidate checks |
| InitialTransitionJournal, InitialTransitionTheorems, InitialTransitionWorld, InitialTransitionSite, InitialTransitionPorts, InitialTransition, InitialTransitionHistories, ReconciliationDelta | initial transition: controller, candidate, reconciliation, resume |
| LocalDatabaseTransition | local database transition |
| DevCoordination | coordination of the development environment |
| Json, JsonCut, JournalFile | the journal as bytes |
| WindowBindings | unknown writers |
| Outcomes, Roles | shared vocabulary |

## Named assumptions

Each is a flag of `Terms`, and each claim that needs it says so; everything else holds without any.

- `adjacent` (first transition): nothing happens between the final snapshot a guard judged and the effect. The code
  says itself that the two are not atomic (`deploy/first_transition_host_contract.py:16-18`).
- `soleWriter`: only the executor, or a running migration job, writes the ledger. The verdict `definite` does not
  compare the ledger with its earlier value, so what it promises needs this.
- `kept` (initial transition): nobody else creates, starts, changes or removes the job containers.
- `faithful`: nothing but the controllers acts, every call does what it says, and the site was healthy at the start;
  `steady`: the process is not killed. They state when a run completes, in both directions.
- A container is never given a start stamp that was used before; a drawn token was never issued; one writer at a
  time holds a lock, and a file is replaced atomically.

## What the code does, where it differs from what one might expect

- A kill between the irrevocable marker and its phase event loses `ddl-started` for good
  (`InitialTransitionTheorems.DdlStartedCanBeLost`, and exactly when: `DdlStartedOnlyRightAfter`).
- `record_recovery` does not compare sequences, and the command line compares the recorded package before it takes
  the mutex: an older package can be recorded again (`DevCoordination.RecoveryCanLowerTheSequence`, and exactly when:
  `SequenceFalls`).
- The refusals for a changed quiescence within one invocation, for a changed stored backup, and for a package
  changed during acceptance can never happen (`QuietObservation`, `StoredBackupHolds`, `PackageNeverChanges`).
- The refusal for a missing preview of the reconciliation can never happen either: no baseline is journaled without
  one (`InitialTransitionJournal.FactsHold`).
- A signal intended and not delivered before a crash keeps the containment refused for good
  (`ObservedHostContract.Contain`); the initial controller takes a human decision there.

## Model

| member | source | states |
|---|---|---|
| FirstTransitionHistories.SiteIsSafe | deploy/first_transition_orchestrator.py:223-242 | every site any history can reach: the marker rests on one window and on what was looked at in it; SIGTERM once per role on a blocked, policy-off snapshot with earlier exits receipted; resume effects only contained, unmarked and proved afresh, in start order, none ever in a history that reached the marker; each migration handed to the executor at most once, in order, over the exact ledger prefix; one backup asked for, one creation, one candidate start, each right after the looks it needs; at most one effective start per role when guard and effect are adjacent; ledger = baseline + receipted prefix + at most the open migration when only the executor writes it |
| FirstTransitionHistories.MarkerRestsOnOneBackup | deploy/first_transition_orchestrator.py:264-338 | a marker has exactly one request and one receipt in the whole journal, after the last quiescence and in that order; the receipt attests that request, was restored and rehearsed on a clone with every pending migration, the request attests that quiescence, the marker that backup id; the process that wrote the quiescence saw, twice, the host contained with its fingerprint and queue and after that the database quiet on the baseline, and the process that wrote the marker saw the same once more right before it |
| FirstTransitionHistories.LooksAreSafe | deploy/first_transition_orchestrator.py:341-452 | each migration was handed over after a look at the exact prefix and then at a contained host; the candidate created after a look at a contained host and then at an empty project; its backend started after looks at the created project, held consumers and a contained host |
| FirstTransitionHistories.EventsAreShown | deploy/first_transition_host_contract.py:266-317 | each event of every history was written over reads, in the fields of host, database and project, that show it: the baseline over a healthy legacy, exits over clean stops behind blocked ingress, resume receipts over fresh executions, the containment and the resume over a whole host, the migrated record over the whole ledger and its catalog, creation and start over pinned containers, the end over the crew seen held twice |
| FirstTransitionHistories.OutcomesAreSafe | deploy/first_transition_orchestrator.py:357-395 | every migration receipt follows a hand-over whose executor exited zero, and every recorded failure one whose exit and the database it left explain its code and whether it is definite |
| FirstTransitionHistories.AnyHistory | deploy/first_transition_orchestrator.py:223-248 | any number of processes over one site, each running, containing or resuming with any arguments, killed or refused anywhere, with the environment moving in between, ends in such a site; and every intent to resume the legacy was written by a call that carried the fingerprint journaled before it |
| FirstTransitionHistories.ResumesAreSafe | deploy/first_transition_host_contract.py:348-401 | each start, policy change and ingress opening satisfied its guard and ledger proof at its own journal, with every role where its journaled phase puts it: a start met a container with its contained stamps, past the queue gate until a start is observed; a policy change a fresh running execution; starts never go back in the start order; a journal with the marker has sent none |
| FirstTransitionHistories.SignalsAreSafe | deploy/first_transition_host_contract.py:266-341 | over all replays a role is signalled at most once, with ingress blocked, its restart off and all earlier exits receipted |
| FirstTransitionHistories.MigrationsAreSafe | deploy/first_transition_orchestrator.py:341-362 | no migration reaches the executor twice, and they reach it in plan order |
| FirstTransitionHistories.LedgerIsSafe | deploy/first_transition_orchestrator.py:341-372 | the database ledger is the baseline plus the receipted prefix plus at most the one open migration, when only the executor writes it |
| FirstTransitionHistories.StartsTakeEffectOnce | deploy/first_transition_host_contract.py:420-432 | two starts of one role that both took effect cannot be in one history, when nothing happens between guard and effect |
| FirstTransitionTheorems.MarkerIsBound | deploy/first_transition_orchestrator.py:264-338 | read off the journal alone: the marker's one quiescence, request and receipt, their order and bindings, and that the journaled host fingerprint and settled queue are those of the quiescence |
| FirstTransitionTheorems.WindowEventsOnce | deploy/first_transition_orchestrator.py:274-314 | request, receipt and marker are each written at most once, and no quiescence after a request |
| FirstTransitionTheorems.MarkerExcludesLegacyResume | deploy/first_transition_orchestrator.py:244-248 | no reachable journal holds both the marker and the intent to resume the legacy |
| FirstTransitionTheorems.MigrationsInOrder | deploy/first_transition_orchestrator.py:341-372 | migration receipts read off the journal are exactly 0, 1, 2, ... up to some length, and the intents are the same or one longer |
| FirstTransitionTheorems.RolesInOrder | deploy/first_transition_host_contract.py:266-317 | clean-exit receipts are a prefix of the containment order and resume receipts a prefix of the start order, each once |
| FirstTransitionTheorems.FactsHold | deploy/first_transition_orchestrator.py:198-248 | which journal entries can only be there together with which others: every receipt with its intent, a settled queue with all exits, a resume with a containment, the migrated record with all receipts |
| FirstTransitionInvariant.EffectKeeps | deploy/first_transition_host_transport.py:195-234 | an effect that passed its guard, in whatever part it takes place, keeps the invariant on journal, world and effects sent |
| FirstTransitionInvariant.AppendKeeps | deploy/first_transition_host_contract.py:241-247 | an event written over a past that justifies it and a world that shows it keeps the invariant |
| FirstTransitionInvariant.MovesKeepLedger | deploy/first_transition_orchestrator.py:356-366 | a commit that arrives late, after the executor timed out, keeps the ledger at or one past the receipted prefix |
| FirstTransitionPorts.Site.Append | deploy/initial_transition_files.py:142-156 | the durable journal grows by the record, or not at all when the append is refused or the process killed; a justified event over a course that showed what it needs keeps the site |
| FirstTransitionPorts.Site.Guarded | deploy/first_transition_host_transport.py:195-234 | a guarded effect may be lost, handled in part, or take place and still be reported as failed; the site is kept in each case |
| FirstTransitionPorts.Site.ProveLedger | deploy/first_transition_host_driver.py:456-461 | a resume effect is only sent with a fresh proof that database identity, ledger and catalog still are the baseline |
| FirstTransitionPorts.Site.RunMigration | deploy/first_transition_orchestrator.py:164-172 | an executor that timed out may still commit; one that exited commits no more |
| FirstTransitionHostContract.ObservedHostContract.Contain | deploy/first_transition_host_contract.py:266-317 | kept at every crash point; refused without a step once a resume was intended; in a faithful undisturbed site it completes if and only if no signal was intended and left undelivered, and then ends in the one state an uninterrupted containment reaches; otherwise nothing is re-sent |
| FirstTransitionHostContract.SameContainedState | deploy/first_transition_host_contract.py:266-317 | however often it was interrupted, a faithful containment ends in the host state computed from the origin alone |
| FirstTransitionHostContract.ObservedHostContract.AssertContained | deploy/first_transition_host_contract.py:249-264 | passes only over a host that is blocked, cleanly stopped in every role, with the settled queue and the baseline identity; refused without a look once a resume was intended or before anything was settled |
| FirstTransitionHostContract.ObservedHostContract.ContainRole | deploy/first_transition_host_contract.py:290-311 | one role: intents before, receipts after; complete in a faithful site unless its own signal was left undelivered |
| FirstTransitionHostContract.ObservedHostContract.Signal | deploy/first_transition_host_contract.py:304-307 | a signal is intended, then sent on a final observation; never for a role whose signal was intended before |
| FirstTransitionHostContract.ObservedHostContract.ResumeLegacy | deploy/first_transition_host_contract.py:444-507 | nothing is written or sent and the call is refused: for a marker, without a containment, for an expected token that differs, and, while no resume is intended, for a confirmation that is not the journaled fingerprint; when it passes every role runs on its receipted fresh start and both entries are open; in a faithful undisturbed site it passes if and only if none of those refusals applies, from any crash point |
| FirstTransitionHostContract.ObservedHostContract.BeginResume | deploy/first_transition_host_contract.py:458-470 | the resume is first intended only over four cleanly stopped roles and a queue that is the settled one, or whose drift was accepted for this call and journaled |
| FirstTransitionHostContract.ObservedHostContract.SendStart | deploy/first_transition_host_contract.py:383-432 | at most one start is sent, on an observation in which the container still carries its contained stamps and, until a start is observed, the queue is the settled one or its drift is accepted for this call and journaled |
| FirstTransitionHostContract.ObservedHostContract.EnableRole | deploy/first_transition_host_contract.py:482-485 | restart is enabled only on an observed fresh execution; when nothing is sent the role was observed fresh and already on always |
| FirstTransitionHostContract.ObservedHostContract.QueueGate | deploy/first_transition_host_contract.py:434-442 | passes only when the queue is the settled one, or drift is allowed in this call and its present value journaled as accepted; with drift allowed only the journal itself refuses it |
| FirstTransitionHostContract.ObservedHostContract.OpenEntriesOnce | deploy/first_transition_host_contract.py:490-502 | ingress is opened after four resume receipts, only what is still blocked, and receipted when both entries are open |
| FirstTransitionHostContract.ObservedHostContract.ConfirmLegacy | deploy/first_transition_host_contract.py:503-507 | every call, a finished one included, re-proves the fresh running roles and both entries |
| FirstTransitionHostChecks.FaithfulObservation | deploy/first_transition_host_contract.py:319-341 | a faithful host passes the containment observation at every crash point of a containment |
| FirstTransitionHostChecks.FaithfulResumeObservation | deploy/first_transition_host_contract.py:354-381 | a faithful host passes the resume observation at every crash point of a resume |
| FirstTransitionHostChecks.FirstStartIsGated | deploy/first_transition_host_contract.py:403-432 | before the backend's own start took effect no start is observed, so its queue gate cannot be skipped |
| FirstTransitionOrchestrator.FirstTransition.Run | deploy/first_transition_orchestrator.py:212-242 | a pass means marked, all migrations receipted, backend smoked, consumers held, legacy contained; a refusal after the marker is recorded, unless the journal itself refuses, and a recorded one is final; in a faithful undisturbed site it passes if and only if inputs match, no resume and no failure is journaled, and nothing but the layout is left open (or, before the marker, no backup was requested and no signal left undelivered) |
| FirstTransitionOrchestrator.FirstTransition.UpToMarker | deploy/first_transition_orchestrator.py:229-235 | a window whose backup was requested is never used again; no step of a transition is journaled before the marker |
| FirstTransitionOrchestrator.FirstTransition.QuietObservation | deploy/first_transition_orchestrator.py:257-262 | a pass saw the host contained and, after that, the database read-only, on the baseline and quiet; what it returns is determined by journal and configuration, so two of them never differ |
| FirstTransitionOrchestrator.FirstTransition.Quiesce | deploy/first_transition_orchestrator.py:264-272 | a quiescence is journaled at the end of a course with two quiet observations, one after the other |
| FirstTransitionOrchestrator.FirstTransition.AskForBackup | deploy/first_transition_orchestrator.py:281-310 | the request is durable before the provider is asked, it is asked once, and no earlier process asked |
| FirstTransitionOrchestrator.FirstTransition.Backup | deploy/first_transition_orchestrator.py:288-314 | a receipt is stored only when it is valid for plan, identity and baseline and attests this very request |
| FirstTransitionOrchestrator.StoredBackupHolds | deploy/first_transition_orchestrator.py:316-327 | on every reachable journal the stored-backup re-validation passes exactly when a backup was received |
| FirstTransitionOrchestrator.FirstTransition.MarkDdl | deploy/first_transition_orchestrator.py:329-338 | the marker is written last, after the re-validation, at the end of a course with one more quiet observation; a refusal leaves the journal as it was |
| FirstTransitionOrchestrator.FirstTransition.ReadyToApply | deploy/first_transition_orchestrator.py:350-356 | before an intent the ledger is exactly the prefix, nothing is being built or written, and after that look the legacy is contained |
| FirstTransitionOrchestrator.FirstTransition.ApplyOne | deploy/first_transition_orchestrator.py:341-372 | an intended migration without a receipt is never touched again; otherwise it is applied once; it passes only when the executor exited zero and the database it left shows the migration cleanly, and what is recorded of a failure is explained by exit, ledger and indexes |
| FirstTransitionOrchestrator.OutcomeFits | deploy/first_transition_orchestrator.py:362-395 | the receipt or the failure written for an outcome is true of exit and database: a receipt means exit zero and the next prefix, each failure code and the definite verdict exactly their case, a definite failure that the prefix before it stands when only the executor writes |
| FirstTransitionOrchestrator.FirstTransition.Migrate | deploy/first_transition_orchestrator.py:341-376 | passes only with every migration receipted, no open one found, and the configured database showing the whole ledger and the catalog journaled with it; never refuses in a faithful site with nothing open |
| FirstTransitionOrchestrator.FirstTransition.A9 | deploy/first_transition_orchestrator.py:423-461 | the four containers are created once and only the backend is started once; an open creation or start refuses; the last look shows consumers never started and the backend on its receipted start |
| FirstTransitionOrchestrator.FirstTransition.ResumeLegacy | deploy/first_transition_orchestrator.py:244-248 | refused untouched once marked, without a containment, or for a confirmation that is not the journaled fingerprint while no resume is intended; else exactly as the contract's resume |
| FirstTransitionOrchestrator.CandidateCheck | deploy/first_transition_orchestrator.py:411-421 | passes exactly when the crew is the created one, consumers never started, and the backend held or on its receipted start |
| FirstTransitionRecovery.RecoveryIsSound | deploy/first_transition_orchestrator.py:464-498 | legacy resume is reported as allowed exactly when the host is contained, nothing is marked and the legacy is not back, and then every guard of the resume accepts the host's token |
| FirstTransitionRecovery.NeverResumableOnceMarked | deploy/first_transition_orchestrator.py:464-498 | no journal with a marker, reachable or not, is reported as resumable |
| FirstTransitionRecovery.RecoveryAfterMarker | deploy/first_transition_orchestrator.py:469-482 | the ddl states are reported exactly when the next migration is open, the candidate one exactly when a creation or start is |
| FirstTransitionRecovery.StateIsClassified | deploy/first_transition_orchestrator.py:464-498 | for every well-formed journal each of the twelve states is reported if and only if the events of the journal say so: a9-complete exactly when completed and never failed, ddl-failed exactly when the open migration's last failure is definite, and so on for the others, the six before the marker included |
| FirstTransitionRecovery.WindowBackupIs | deploy/first_transition_orchestrator.py:495-496 | the window backup reported is exactly the one a marker in the journal names |
| FirstTransitionRecovery.OpenStepsExact | deploy/first_transition_orchestrator.py:204-207 | the open steps reported are exactly the intents without a receipt |
| FirstTransitionRecovery.DefiniteFailureLeftNothing | deploy/first_transition_orchestrator.py:362-370 | a failure reported as definite left the ledger at the receipted prefix and no executor that could commit, when only the executor writes it |
| DevCoordination.HistoryKeepsInv | deploy/dev_coordination.py:61-183 | in every history, with crashes between the two writes: each issued token is in exactly one of reservation, receipts and invalidated; a live reservation names the deployed healthy package with nothing physical begun since; a package not under suspicion is the one whose execution returned or whose recovery was proved; every receipt's package ran untouched from reserve to finish |
| DevCoordination.PackageNeverChanges | deploy/dev_coordination.py:174-179 | the refusal for a package changed during acceptance cannot happen in any history |
| DevCoordination.DevCoordinator.Transition | deploy/dev_coordination.py:94-143 | while the clock is before the expiry of a reservation a deploy is refused with file and environment untouched and a reset ends it; from the expiry on it is written as expired; an operation is admitted exactly when no recovery is due, no reservation is before its expiry for a deploy, and the package keeps or raises the sequence for a deploy, or changes nothing but its seed for a reset; an admitted one leaves the file naming the package if its execution returned, and demanding recovery if not |
| DevCoordination.DevCoordinator.RecordRecovery | deploy/dev_coordination.py:145-155 | the file changes only for a proven recovery; any refusal leaves it unchanged |
| DevCoordination.DevCoordinator.Reserve | deploy/dev_coordination.py:157-167 | passes exactly when a healthy package is deployed, no reservation is before its expiry, and the duration is in bounds; the new one expires at the later clock plus the duration; a refusal leaves the file unchanged, even an expiry it found |
| DevCoordination.DevCoordinator.Finish | deploy/dev_coordination.py:169-183 | before the expiry the owner's finish of the reserved token passes and is receipted for the package deployed unchanged since the reservation; from the expiry on it is refused and the token invalidated as expired; any other refusal writes nothing |
| DevCoordination.TokensEndInTime | deploy/dev_coordination.py:88-92 | in every history a token is invalidated as expired only by an operation whose clock had reached the time read at its reservation plus the duration asked for, by a reset only before that time, and receipted only before it, for the owner who finished it |
| DevCoordination.SequenceNeverFalls | deploy/dev_coordination.py:112-122 | while every recovery is of the recorded package no history lowers the sequence |
| DevCoordination.SequenceFalls | deploy/dev_coordination.py:145-155 | one operation lowers the sequence if and only if it is a proven recovery of an older package |
| DevCoordination.RecoveryCanLowerTheSequence | deploy/dev_pipeline.py:286-290 | the recorded package is compared before the mutex is taken: a history from the empty file, every recovery in it of the recorded package, after which the recovery of a package read as recorded earlier lowers the sequence |
| JournalFile.CutAppendLoads | deploy/initial_transition_files.py:112-121 | an append cut at any byte reloads as exactly the old history, exactly the new one, or is refused; refused exactly when some but not all bytes were written |
| JournalFile.WholeHistoryLoads | deploy/initial_transition_files.py:98-132 | a written history is read back exactly |
| JournalFile.AnyHistory | deploy/initial_transition_files.py:98-156 | after any number of processes opening and appending, killed, refused or going on after a refused append, an opening reads every record whose append returned and only records somebody appended, numbered from one, or is refused |
| JournalFile.Journal.Append | deploy/initial_transition_files.py:142-156 | with any pattern of short writes: on success memory equals what opening would read; on a kill or an empty write the file holds a prefix of the record and memory is unchanged; once a record was left half-written no later append makes the file readable again |
| JournalFile.SpoiledIsRefused | deploy/initial_transition_files.py:112-121 | a record cut short with others glued to it refuses every opening, whatever lines follow |
| JournalFile.StaysSpoiled | deploy/initial_transition_files.py:142-156 | any part of a further record appended to such a file leaves such a file |
| JsonCut.GluedIsNoRecord | deploy/initial_transition_files.py:115-121 | first parts of two or more records glued together, whole ones included, are never parsed as one record |
| JsonCut.ValueCut | deploy/initial_transition_files.py:115-121 | a value cut at any byte and followed by another record is not parsed, or is left over where nothing can go on; a cut object or list is never parsed |
| JournalFile.Journal.Open | deploy/initial_transition_files.py:98-132 | passes exactly when the whole file loads, into exactly those records, and refuses with the reason the file gives |
| JournalFile.ComposedIsNumbered | deploy/initial_transition_files.py:142-145 | the record written carries the next number, its kind and every field given |
| JournalFile.SplitLines | deploy/initial_transition_files.py:112-113 | the file splits into exactly the bodies of its records and the tail after the last line feed |
| JournalFile.LoadsExactly | deploy/initial_transition_files.py:112-121 | exactly the files are read that are empty or end in a line feed and hold on each line, whole, the record numbered by that line, with a textual kind |
| JournalFile.ComposedInOrder | deploy/initial_transition_files.py:144-145 | a record of fields in order is written with every key before the next, by the first unit where they differ |
| Json.RoundTrip | deploy/initial_transition_files.py:145-145 | a record of nested objects, lists, strings of any UTF-16 units, integers and numbers with a fraction is parsed back exactly, consuming nothing of what follows |
| Json.EncodePrintable | deploy/initial_transition_files.py:145-145 | what is written is printable ASCII, so a record holds no raw line feed (section 7 of RFC 8259) |
| WindowBindings.Descendants | deploy/first_transition_window_bindings.py:466-469 | the frontier loop ends for every parent map, cycles included, and computes exactly the processes reachable by one or more child edges |
| WindowBindings.HostSide | deploy/first_transition_window_bindings.py:481-501 | every observed connection is counted exactly once; the undeclared ones are, place by place, those of namespaces with an undeclared container and of host sockets no descendant holds |
| WindowBindings.Observe | deploy/first_transition_window_bindings.py:529-535 | no unknown writer is reported exactly when every connection is explained and no more sessions are active than the namespaces other than the host's have sockets |
| ReconciliationDelta.AcceptanceIsExact | deploy/initial_transition_reconcile.py:135-151 | against the journaled baseline a state is accepted if and only if it is the baseline with the target account unlinked and one prescribed audit row added, Redis unchanged and no duplicate link left |
| ReconciliationDelta.MatchIsExact | deploy/initial_transition_reconcile.py:143-149 | one read of the database matches the baseline if and only if it is that database with exactly the authorized effect |
| ReconciliationDelta.PreconditionIsExact | deploy/initial_transition_reconcile.py:79-81 | the apply is let go exactly for an account linked to the person named and no audit row of the operation before it |
| ReconciliationDelta.EffectIsNotRepeatable | deploy/initial_transition_reconcile.py:79-81 | the authorized effect destroys its own precondition |
| InitialTransitionHistories.ReconciliationIsExact | deploy/initial_transition_reconcile.py:45-151 | in every history a verified snapshot was read from the database, and is the settled data, read again when the baseline was journaled, in which the account is linked to the person named and the operation has no row, with exactly the authorized effect; after that read Redis was read unchanged and no duplicate link found; also when the controller died after the apply committed |
| InitialTransitionTheorems.PhasesInOrder | deploy/initial_transition.py:166-172 | first occurrences of the phases, ddl-started and legacy-resumed aside, are a prefix of their order |
| InitialTransitionTheorems.DdlStartedOnlyRightAfter | deploy/initial_transition.py:560-564 | ddl-started is recorded if and only if it was recorded right after the marker |
| InitialTransitionTheorems.DdlStartedCanBeLost | deploy/initial_transition.py:560-564 | a reachable journal that reached migrated without ever recording ddl-started |
| InitialTransitionTheorems.MarkerExcludesResume | deploy/initial_transition.py:662-669 | no reachable journal holds both the marker and the intent to resume the legacy |
| InitialTransitionTheorems.StartsNeedDecision | deploy/initial_transition_candidate.py:78-83 | after a containment no candidate start is intended or receipted without a retry decision journaled in the same epoch |
| InitialTransitionTheorems.PromotionRests | deploy/initial_transition_candidate.py:129-162 | promoted rests on readiness, four starts and four persisted policies of one and the same epoch |
| InitialTransitionTheorems.PromotionIsFinal | deploy/initial_transition.py:680-685 | once promoted no later event contains the candidate, so no epoch is opened |
| InitialTransitionTheorems.EpochIs | deploy/initial_transition.py:155-168 | what is looked up since the last containment is what the epoch's events say |
| InitialTransitionHistories.SiteIsSafe | deploy/initial_transition.py:662-687 | every site any history can reach: the marker only over four contained executions, an untouched database and unchanged data; every effect but a job's start right after its durable intent; no legacy start or restart policy once marked; signals bounded by intent and decisions; candidate starts decided; reconciliation exact; job containers created and started at most once; retries decided only over a clean database |
| InitialTransitionHistories.MarkersAreSafe | deploy/initial_transition.py:532-564 | every marker was written at the end of reads that showed each legacy container contained on the execution first identified, the ledger identified then, no invalid index, build or migration session, the data and Redis of the last snapshot, the expected queues, and nobody else |
| InitialTransitionHistories.ResumesAreProved | deploy/initial_transition_resume.py:52-59 | a role is intended to come back only right after a re-validation of everything journaled and reads of the baseline ledger without any trace of DDL |
| InitialTransitionHistories.JobsWereRead | deploy/initial_transition.py:307-349 | a job container is only created when none of its name was read, and only started when the recorded one was read as created |
| InitialTransitionHistories.AttemptsWereRead | deploy/initial_transition.py:597-603 | when nobody else touches the job containers, a migration job is only intended after its attempt was begun: migration read absent from the ledger, no migration session or job, nobody else |
| InitialTransitionHistories.EffectsWereIntended | deploy/initial_transition.py:425-461 | every effect but the start of a job was sent with its own intent, or the human decision, as the last durable event |
| InitialTransitionHistories.AnyHistory | deploy/initial_transition.py:662-694 | any number of runs and resumes with any decisions, killed or refused anywhere, ends in such a site; every human decision in its journal was carried by the very call that journaled it, so was the confirmation of a resume, and a decision was only demanded of a call without it |
| InitialTransitionHistories.JobsAreOnce | deploy/initial_transition.py:307-349 | when nobody else touches the job containers each is created and started at most once, and a migration is executed at most once more than its journaled retry decisions |
| InitialTransitionHistories.RetriesWereClean | deploy/initial_transition.py:588-596 | a retry was journaled only with the migration absent from the ledger, no invalid index, none of its indexes and no running migration job |
| InitialTransitionTheorems.RefusalsAreSticky | deploy/initial_transition.py:588-596 | after a refused attempt no step of its migration, neither attempt, job nor receipt, is journaled before a decision to retry it |
| InitialTransitionTheorems.RetriesAreOfRefusals | deploy/initial_transition.py:589-590 | a retry is decided only over a refused attempt of the same migration with one of the four codes that allow it |
| InitialTransitionHistories.RefusedStartsNothing | deploy/initial_transition.py:588-603 | nor is a job of a migration created or started after a refused attempt before such a decision |
| InitialTransitionHistories.LegacyStayedDown | deploy/initial_transition_resume.py:13-22 | a history that holds the marker never started a legacy container nor set one back to restart |
| InitialTransitionHistories.SignalsAreBounded | deploy/initial_transition.py:441-457 | a legacy role is signalled at most once for its intent and once for each journaled resignal decision |
| InitialTransitionHistories.CandidateStartsAreSafe | deploy/initial_transition_candidate.py:74-107 | every candidate start sent out came after the marker and, after a containment, after a decision of the same epoch |
| InitialTransition.Transition.Job | deploy/initial_transition.py:307-349 | passes with the container recorded; when nobody else touches the job containers, that container ended with the exit returned, and nothing is sent to one already started |
| InitialTransition.Transition.EnsureJob | deploy/initial_transition.py:312-332 | passes only with the recorded container there and identical in image, arguments, environment and network; one already recorded is never created again, and no record changes |
| InitialTransition.Transition.RunJob | deploy/initial_transition.py:333-349 | at most one start is sent, and only after the recorded container was read as created; when nobody else touches it, a running or ended one is never started |
| InitialTransition.Transition.ContainRole | deploy/initial_transition.py:425-461 | one role contained: when its exit is receipted, the container then shows the very execution observed before, stopped, clean and with restart off |
| InitialTransition.Transition.Settle | deploy/initial_transition.py:478-501 | settled only after the expected queues, then two equal reads of the data and two of Redis |
| InitialTransition.Transition.PreDdlState | deploy/initial_transition.py:532-550 | passes only after one read each of the baseline ledger, invalid indexes, builds, migration sessions, data, Redis, expected queues, every legacy container and the scope |
| InitialTransition.Transition.DecideRetry | deploy/initial_transition.py:587-596 | a refused attempt stays refused without the decision; with it, exactly one attempt more is opened |
| InitialTransition.Transition.NothingRemains | deploy/initial_transition.py:591-593 | six reads at six moments that nevertheless hold together: with no job left to write, the database stands still |
| InitialTransition.Transition.MigrationStep | deploy/initial_transition.py:573-623 | passes only with the migration receipted as the next one; never without a decision after a refused attempt |
| InitialTransition.Transition.Migrate | deploy/initial_transition.py:556-571 | passes only with every migration receipted in order and, when it records the phase, a ledger read equal to the baseline and the whole manifest |
| InitialTransition.Transition.JudgeAbsent | deploy/initial_transition.py:611-624 | an absent ledger row is always refused: a transactional migration as failed exactly for an exit other than zero and as ambiguous for exit zero, when nobody else touches the job containers for a container that ended so; a concurrent one with the code that what was read of the indexes calls for |
| InitialTransition.Transition.FinishReconcile | deploy/initial_transition_reconcile.py:88-104 | finishes exactly when the verified state is journaled; left unfinished the apply was read as never started; a resume sends nothing when nobody else touches the job containers |
| InitialTransition.Transition.RecoverReconciliation | deploy/initial_transition_reconcile.py:154-158 | before the legacy comes back a begun reconciliation is verified, or its apply was read as never started |
| InitialTransition.Transition.Run | deploy/initial_transition.py:662-687 | a refusal of the base checks sends nothing, and so does a resume intended before; a wait or a missing decision sends nothing to the candidate; after any other refusal with the marker, a created candidate and no promotion a containment was journaled by this invocation, unless the journal refused it, and either it completed, so that the code is the one journaled right before it, the epoch fresh and each role read with its restart off and then stopped, or the code is the containment's; else no containment; a complete pass is promoted |
| InitialTransition.Transition.StepsOrContain | deploy/initial_transition.py:676-687 | the same for the steps alone, whatever refuses them |
| InitialTransitionPorts.Host.Wait | deploy/initial_transition.py:178-181 | a wait is journaled with the code it is raised with, and only over a running job, a migration session or an index build just read |
| InitialTransitionPorts.Host.CheckEndpoint | deploy/initial_transition.py:213-216 | only a read of the owned endpoint lets a process send anything |
| InitialTransition.Transition.ContainCandidate | deploy/initial_transition_candidate.py:165-182 | a completed containment wrote its intent and its receipt and opens a fresh epoch with no start, policy or readiness, after every role was read with restart off and then read stopped; one refused is refused with one of its own codes; never once promoted |
| InitialTransition.Transition.Promote | deploy/initial_transition_candidate.py:129-162 | passes only when promoted in the current epoch; a replay re-proves the running executions and their policies |
| InitialTransition.Transition.ResumeLegacy | deploy/initial_transition_resume.py:13-81 | with the marker, unconfirmed or not contained nothing is sent and nothing but a refusal written; a pass is the terminal phase without a marker; a terminal replay re-proves ownership, everything journaled and the untouched database |
| InitialTransition.Transition.IntendResume | deploy/initial_transition_resume.py:58-66 | from a fresh proof: the intent, then the original policy, then a start exactly when the role was not read running |
| InitialTransition.RefusedIsInactive | deploy/initial_transition.py:588-596 | once an attempt is refused no migration job is active |
| InitialTransitionWorld.VerifyContainedExit | deploy/initial_transition.py:99-110 | accepts exactly a stopped container with restart off, clean exit and the very execution and restart count observed before |
| LocalDatabaseTransition.SiteIsSafe | deploy/first_transition_adapter.py:467-584 | ledger = baseline + a prefix of pending; receipts within the ledger; no migration committed twice or sent over a ledger holding it; verified only when every migration with indexes was receipted by the invocation that applied it |
| LocalDatabaseTransition.LooksAreSafe | deploy/first_transition_adapter.py:512-578 | the marker was only written over a contained host and the clean baseline; a migration only intended and receipted over a contained host and the exact prefix before and after it; the database only reported verified after preflight, rehearsed schema, contained host and the whole ledger with every receipt as shown |
| LocalDatabaseTransition.AnyHistory | deploy/first_transition_adapter.py:467-584 | any number of runs, killed or refused anywhere, with any arguments, ends in such a state |
| LocalDatabaseTransition.LocalTransition.Run | deploy/first_transition_adapter.py:467-584 | it passes only for the same plan, with valid evidence, and with the retry when one is needed; without plan or evidence nothing is applied and no marker written; in a faithful undisturbed database it completes if and only if the plan is the same, the evidence valid, the retry given when needed, and no committed migration with indexes was left without a receipt |
| LocalDatabaseTransition.LocalTransition.Adopt | deploy/first_transition_adapter.py:544-552 | a migration found in the ledger passes with its receipt or without indexes, and only then |
| LocalDatabaseTransition.LocalTransition.ApplyStep | deploy/first_transition_adapter.py:553-566 | a migration is applied once, over exactly the prefix before it, and receipted for the ledger and indexes then shown |
| LocalDatabaseTransition.LocalTransition.UpToMarker | deploy/first_transition_adapter.py:492-517 | a marked database was first observed, and right before the marker observed again, on the clean baseline with every gate and no index of a pending migration, its catalog unchanged |
| LocalDatabaseTransition.ReceiptWasRecorded | deploy/first_transition_adapter.py:544-566 | every receipt is a recovered one or stands right after its own intent, in the invocation that applied it |
| LocalDatabaseTransition.UnreceiptedIsInterrupted | deploy/first_transition_adapter.py:481-486 | a migration without a receipt is only ever left behind by an interrupted run, so the retry is needed exactly for an interrupted one |
| LocalDatabaseTransition.RetryIsAsked | deploy/first_transition_adapter.py:480-486 | a retry is asked for if and only if the marker is in the journal and the last run journaled as started has no completion after it |

## Left out

- Docker, SSH, psql, Redis, curl, nginx, nft and `/proc`: an abstract world with observable fields.
- SQL text, catalog queries and migration contents: the ledger is a set of names, with indexes and running builds.
- Shape checks of configurations, manifests, packages, snapshots and receipts: values of a datatype have the shape.
- Git reading, packaging, release layout files, the `current` link, symlinks, permissions and hashing; the layout's
  intent and receipt are kept in the first transition, and not journaled in the initial one.
- The `rehearse_*` scripts, schema check scripts, credentials, the window command line, `LocalHostContract` and
  `SimulatedHostTransport`: scripts, static checks, or simpler duplicates of the observed versions.
- Wall-clock accuracy: a deadline is any number of polls, an elapsed budget any choice.
- The smoke probe, the release layout and the clone rehearsal of the local transition: calls with any outcome.
- Json.RoundTrip: a number with a fraction is represented by the digits it is written with; exponents, whitespace and
  repeated keys, which are never written, are not parsed.
- JournalFile.AnyHistory: keys of a record's own fields begin with an ASCII letter or an underscore, as every keyword
  the controllers pass does; fsync is not modelled, so what returned from a write is what a later opening reads.
- FirstTransitionHistories.StartsTakeEffectOnce: without adjacency a start may meet a container somebody else has
  just started and stopped, so it is stated for adjacent guards.
- InitialTransition.Transition.ResumeLegacy: at most one effective start is not stated for this older resume, which
  reads the state again without a guard right before the start.
- FirstTransitionPorts.Site.Append: an append refused half-way leaves a torn file, and every later opening is refused
  (`JournalFile.AnyHistory`); here it counts as nothing written, which allows more: the process and later ones go on.
- InitialTransition.Transition.Ask: a flag of the world, such as `scoped` or `settledExpected`, stands for a group of
  reads made one after the other by one check of the original.
- InitialTransition.Transition.Mark: the pending list journaled with the marker is the configured one; the ledger is
  not read a second time to compute it.
- InitialTransition.Transition.MigrationStep: that a run completes in a faithful site is stated for the first and the
  local transition, not for the initial one.
- InitialTransition.Transition.Job: read-only probe jobs have fresh names on every invocation and are modelled as
  observations; only the migration and apply jobs are containers.
- InitialTransition.Transition.Run: the opening `init` event with its `spec-changed` refusal, and the synthetic
  pause points, are not part of the model.
- LocalDatabaseTransition.LocalTransition.Run: an interrupted apply has committed or not by the next observation; a
  commit arriving later is only modelled in the first transition.
- WindowBindings.HostSide: reading `/proc/net/tcp` and the list of session roles is not modelled; sockets and the
  number of active sessions are inputs.
- DevCoordination.DevCoordinator.Transition: the steps of a promotion are one execution that returns or does not.
