# Rhapsody, modelled in Dafny

Rhapsody is a daemon that runs coding agents. This project models the parts of it where a mistake is
expensive, and proves what they promise for every input and every run:

* **Stopping an agent.** `ProcTree.dfy` is the kill sweep: growing the agent's process tree from
  successive process-table snapshots, choosing the `kill(2)` arguments of a round, and the bounded round
  loop. `SweepTheorems.dfy` proves what a sweep does to the processes of the machine, for arbitrary
  snapshots, under the target rules of the POSIX.1-2017 System Interfaces page for `kill()`.
* **Holding a provider credential.** `Dispatch.dfy` is the move-only path of one broker session from
  preparation to a running adapter session; `Custody.dfy` runs any number of dispatches in any order and
  proves that custody is conserved.
* **Publishing the configuration.** `Sanitizer.dfy` is the pair of passes that edit the echoed JSON tree;
  `SanitizerTheorems.dfy` proves their laws, and `PublishedTree.dfy` says place by place what is published.
* **The owned-server handshake.** `EventServer.dfy` interleaves handler threads that share a subscription
  flag and an event queue.
* **Smaller pieces.** `HarnessVersion.dfy` (version gate), `StepBlocks.dfy` (the CI workflow scanner),
  `Capabilities.dfy` (the registry file across upgrades and edits), `Humanize.dfy` (the opencode timeline).

Integers have the source's width where it matters: pids are 32-bit words that wrap, version components
and durations are 64-bit with the source's overflow checks. The process table, the adapter's answer, the
broker's answer, file writes, child output and client requests are parameters, quantified over. The
result of a sweep depends on the snapshots alone, so a theorem over all sequences of snapshots covers an
operating system that reacts to the signals.

## What the code does that its comments do not say

Each of these is a lemma with a concrete or general witness, next to the exact condition.

* A leader that does not lead its own process group is not signalled, unless that group is named after
  another tree member, is not the caller's and holds another live tree member (`RoundReachesExactly`,
  `LeaderOutsideItsGroupIsMissed`), although `kill_tree` is documented as killing `pid` itself.
* One snapshot after a kill round that could not be read ends the sweep in silence, whatever is still
  running (`FirstEmptySnapshotEnds`, `OneUnreadableSnapshotEnds`), although the module says that a
  single stale snapshot never ends it.
* The caller's group is never signalled, but another member of that group that descends from the agent is
  signalled by pid (`CallersGroupMates`).
* A pid of 2^31 or more wraps to a negative leader, whose unconditional target is then a single process
  (`UnconditionalTarget`).
* The gate means to refuse only versions that are too old, yet refuses any version with a component of
  2^64 or more (`GateOnPrintedVersions`, `OverflowingVersionIsRefused`).
* A `providers` value that is not a mapping is published as it stands, and so is everything under
  `projects` when that is a mapping instead of a list (`BlockPublishedExactly`,
  `BindingPublishedExactly`, `NonMappingIsEchoed`, `ProjectsMappingIsEchoed`).
* A HOME under a step's `env:` is passed over once an inner line that reads `env:` has been left, so a
  job-private step can be reported (`EnclosedHomeCountsExactly`, `HiddenHome`).
* An event whose handler fails while writing it is lost, though it was taken off the queue
  (`LostExactlyWhenBroken`).
* A bundled capability that the user deletes comes back on the next load (`DeletedDefaultsReturn`).

## Model

| member | source | states |
|---|---|---|
| ProcTree.Pass | crates/agent/src/proctree.rs:152-156 | one pass adds only what every closed superset holds, and a pass that adds nothing means the set is closed |
| ProcTree.Running | crates/agent/src/proctree.rs:161-165 | the rows returned are exactly the running ones in the set, in table order |
| ProcTree.LiveTree | crates/agent/src/proctree.rs:149-166 | terminates, and leaves the least superset of its input closed under "child in this table"; zombies extend it but are not returned |
| ProcTree.ClosureIgnoresRowOrder | crates/agent/src/proctree.rs:146-148 | the closure is the same whatever order the table lists its rows in |
| ProcTree.TreeIsIteratedClosure | crates/agent/src/proctree.rs:92-101 | closing the cumulative set over each snapshot yields exactly the pids with a parent chain from the leader whose links were seen in snapshots of non-decreasing number: no descendant is lost when its parent dies or it is reparented, none joins without a chain |
| ProcTree.Round | crates/agent/src/proctree.rs:101-113 | one reading of the table yields the closed set, its running members and the round's targets |
| ProcTree.SweepRounds | crates/agent/src/proctree.rs:98-123 | the round loop signals exactly what each snapshot calls for, stops on the first empty round after a kill round, and otherwise after five |
| ProcTree.KillTree | crates/agent/src/proctree.rs:80-124 | for every pid word, the whole sweep is the one that temporal descent determines; an illegal leader reads no table |
| ProcTree.KillTreeOnDrop.constructor | crates/agent/src/proctree.rs:270-272 | arms the guard for the given pid |
| ProcTree.KillTreeOnDrop.Disarm | crates/agent/src/proctree.rs:275-277 | leaves a guard whose drop does nothing |
| ProcTree.KillTreeOnDrop.Drop | crates/agent/src/proctree.rs:280-284 | runs the sweep of the armed pid; a disarmed guard reads no table and sends nothing |
| SweepTheorems.SweepIsSafe | crates/agent/src/proctree.rs:180-214 | for every leader and every sequence of snapshots, no signal reaches the calling process, its group as a whole, init, or every process, and leaders 0 and 1 send none |
| SweepTheorems.UnconditionalTarget | crates/agent/src/proctree.rs:172-196 | every round of a legal sweep carries the leader's target; it is the leader's group exactly when the pid fits a signed word |
| SweepTheorems.SweepsExactly | crates/agent/src/proctree.rs:82-91 | which pid words root no sweep at all |
| SweepTheorems.RoundSignalsExactly | crates/agent/src/proctree.rs:168-215 | for every run, an id is signalled in a round if and only if it passes the caller checks and is the leader's group, the pid of a running member outside the leader's group and outside groups named after the tree, or a group named after the tree with a running member; nothing dead or departed |
| SweepTheorems.RoundReachesExactly | crates/agent/src/proctree.rs:185-214 | a live tree member is reached by a round if and only if its guard holds |
| SweepTheorems.EveryMemberIsReached | crates/agent/src/proctree.rs:174-178 | under the launch conditions no live tree member escapes a round |
| SweepTheorems.LeaderOutsideItsGroupIsMissed | crates/agent/src/proctree.rs:196-208 | a leader parked alone in a stranger's group is not reached |
| SweepTheorems.CallersGroupMates | crates/agent/src/proctree.rs:201-212 | when, exactly, a member of the caller's own group is reached |
| SweepTheorems.RoundReachesOnlyTheTree | crates/agent/src/proctree.rs:202-206 | every process a round reaches is in the tree or in a group named after a tree member |
| SweepTheorems.OutsidersNeverJoin | crates/agent/src/proctree.rs:92-98 | processes whose parents, in every snapshot, are among themselves never meet the tree |
| SweepTheorems.InitNeverJoins | crates/agent/src/proctree.rs:92-101 | pids 0 and 1 never join, so reparented orphans do not pull the machine in |
| SweepTheorems.BystandersAreSpared | crates/agent/src/proctree.rs:98-115 | a process outside the descent, in a group outside it, is reached by no round of any sweep |
| SweepTheorems.SweepReachesQuiescence | crates/agent/src/proctree.rs:100-115 | if the tree gains nobody across one round and that round's signals land, the sweep is over by the next snapshot, silently, with nothing of the tree running, whatever the rest of the machine does |
| SweepTheorems.EscapedShellIsContained | crates/agent/src/proctree.rs:411-440 | the measured case, an agent whose tool shell left its group, on a machine with init, the daemon, a new `ps` in each snapshot and a new login: one round at both groups, then silence; the quiescence conditions are met |
| SweepTheorems.SilenceIsTheLastSnapshot | crates/agent/src/proctree.rs:100-123 | at most six snapshots and five rounds; silent exactly when the last snapshot shows no live member, otherwise the report is exactly the survivors |
| SweepTheorems.FirstEmptySnapshotEnds | crates/agent/src/proctree.rs:102-107 | a sweep ends at the first snapshot after a kill round that shows no live member, and at none before |
| SweepTheorems.OneUnreadableSnapshotEnds | crates/agent/src/proctree.rs:26-30 | one unreadable snapshot after any kill round ends the sweep in silence, whatever is still running |
| SweepTheorems.UnreadableTableMeansGroupKill | crates/agent/src/proctree.rs:172-173 | with no readable table the sweep is one kill of the leader's group |
| Sanitizer.RetainKeys | crates/config/src/effective_json.rs:722-731 | keeps exactly the allowed keys |
| Sanitizer.DropNonScalars | crates/config/src/effective_json.rs:692-703 | drops exactly the named keys whose value is an object or an array |
| Sanitizer.SanitizeNestedBlock | crates/config/src/effective_json.rs:707-718 | filters a mapping, drops any other shape, leaves an absent key absent |
| Sanitizer.SanitizeOneProvider | crates/config/src/effective_json.rs:680-688 | the four edits in turn give the schema projection of the provider |
| Sanitizer.SanitizeProviderMap | crates/config/src/effective_json.rs:662-674 | non-mapping providers go, every other one is projected |
| Sanitizer.SanitizeProviderBlocks | crates/config/src/effective_json.rs:617-634 | the shared block and every project's block are projected |
| Sanitizer.SanitizeOnepasswordBindings | crates/config/src/effective_json.rs:640-657 | every project's non-canonical binding is dropped |
| SanitizerTheorems.CleanIsGreatestSchemaPruning | crates/config/src/effective_json.rs:579-611 | of all prunings of a `providers` mapping that fit the schema, the filter keeps the greatest |
| SanitizerTheorems.PublishedViewIsTheSchemaView | crates/config/src/effective_json.rs:676-688 | two mappings are published alike if and only if they agree at every place the schema names |
| SanitizerTheorems.TreesPublishedAlikeExactly | crates/config/src/effective_json.rs:613-634 | any two trees are published alike if and only if they differ at most where the schema cannot see, in the shared block or in a listed project's |
| SanitizerTheorems.BlockPublishedExactly | crates/config/src/effective_json.rs:617-634 | a `providers` block at any depth of any tree is published in schema shape if and only if it is the shared or a listed project's and a mapping, or stands elsewhere and was in shape already |
| SanitizerTheorems.NonMappingIsEchoed | crates/config/src/effective_json.rs:621-623 | a string in place of the mapping is published unchanged |
| SanitizerTheorems.ProjectsMappingIsEchoed | crates/config/src/effective_json.rs:624-633 | a `projects` mapping is published unchanged by both passes, whatever it holds |
| SanitizerTheorems.SchemaTreesAreFixed | crates/config/src/effective_json.rs:617-634 | a tree whose filtered blocks are already in schema shape is a fixpoint |
| SanitizerTheorems.CleanIsIdempotent | crates/config/src/effective_json.rs:617-634 | the provider pass is idempotent on every tree |
| SanitizerTheorems.DropIsIdempotent | crates/config/src/effective_json.rs:640-657 | the binding pass is idempotent on every tree |
| SanitizerTheorems.PassesCommute | crates/config/src/effective_json.rs:56-58 | the two passes give the same tree in either order |
| SanitizerTheorems.EverythingElseIsUntouched | crates/config/src/effective_json.rs:52-58 | at every path outside the entries a pass governs, at any depth, that pass leaves the value unchanged |
| SanitizerTheorems.BindingPublishedExactly | crates/config/src/effective_json.rs:636-657 | a binding at any depth of any tree is published as configured, except that a listed project's is published exactly when it is canonical |
| PublishedTree.BlocksPublishedPlaceByPlace | crates/config/src/effective_json.rs:579-688 | for any tree and any place below a visited mapping: no list is published, a mapping only as a provider, its `credential` or its `broker_limits`, a scalar only under one of the seventeen names of the schema, unchanged, and each of these whenever it was there |
| PublishedTree.BindingsPublished | crates/config/src/onepassword.rs:39-72 | a listed project publishes its binding exactly when it is at most 64 lowercase letters, digits, `_` and `-`, a letter first, not starting `ops_` |
| Dispatch.OnlyOpencodeIsBrokered | crates/agent/src/harness.rs:744-767 | of the registered harnesses only opencode speaks a provider protocol |
| Dispatch.FinishDispatchRunner | crates/agent/src/dispatch.rs:266-301 | accepts exactly a matching harness that, for a provider, is opencode with a model; moves custody and model over; which refusal comes when |
| Dispatch.BuildDispatchRunner | crates/agent/src/dispatch.rs:246-325 | builds exactly when the knobs are those of the named harness and a provider is carried by opencode with a model; the factory and the bridge cannot disagree |
| Dispatch.LegacySettersCarryTheLaunch | crates/agent/src/dispatch.rs:488-501 | the run id first, then the review head and last the model, each exactly when there is one |
| Dispatch.PreparedProvider.FromRegistration | crates/agent/src/dispatch.rs:110-121 | both halves of the registration are taken |
| Dispatch.PreparedProvider.TakeAccess | crates/agent/src/dispatch.rs:135-137 | hands the session over once and leaves none |
| Dispatch.PreparedProvider.TakeLedgers | crates/agent/src/dispatch.rs:140-142 | hands the receiver over once and leaves none |
| Dispatch.StartsExactly | crates/agent/src/dispatch.rs:450-508 | a start succeeds exactly when the adapter starts and both halves of the custody are there; each half goes to its own side |
| Dispatch.Start | crates/agent/src/dispatch.rs:450-508 | the branch taken, the session built, the receiver returned, and exactly which sessions go out of scope; what it held is in the result or dropped |
| Custody.PathsConserve | crates/agent/src/dispatch.rs:266-508 | on each code path, success, refusal, failed start or drop, what the dispatch owned is what it still owns and what went out of scope |
| Custody.StepKeepsInv | crates/agent/src/dispatch.rs:246-530 | every event keeps: owned sessions plus revocations are each registered session once, and each dispatch has what it was registered for |
| Custody.RunKeepsInv | crates/agent/src/dispatch.rs:6-25 | so does every history |
| Custody.LiveMeansExactlyOneOwner | crates/agent/src/dispatch.rs:94-99 | after any history a session is revoked at most once, and is live exactly while one dispatch, and only one, owns it |
| Custody.LiveWithItsOwnDispatch | crates/agent/src/dispatch.rs:10-15 | a session is live exactly while the very dispatch it was registered for owns it |
| Custody.SuccessKeepsCustody | crates/agent/src/dispatch.rs:286-301 | in any history a freeze, build, bridge or start that is neither refused nor failed leaves the same custody with the same dispatch and revokes nothing |
| Custody.StartsOnItsOwnBranch | crates/agent/src/dispatch.rs:440-449 | in any history a dispatch with a provider starts a brokered session owning its registered session, with the launch context, a receiver and no setter; one without starts a legacy session with its setters and no receiver |
| Custody.HeldOrRevoked | crates/agent/src/dispatch.rs:522-530 | after any event a registered session is revoked if and only if its dispatch does not own it |
| Custody.RefusalAndFailureRevoke | crates/agent/src/dispatch.rs:1074-1121 | a refusal or failed start ends the dispatch and revokes exactly the session it was registered for; no other call of these ends one |
| Custody.RefusedExactly | crates/agent/src/dispatch.rs:246-301 | in every history, a build ends its dispatch exactly when the knobs are another harness's, a bridge exactly when the harness is another one, and either when a dispatch with custody is not opencode's or has no model; any other yields the runner of the frozen spec |
| Custody.RefusedPreparationIsNothing | crates/agent/src/dispatch.rs:404-419 | a registration the broker refuses leaves no trace |
| Custody.PreparedDispatchBuilds | crates/agent/src/dispatch.rs:233-301 | a dispatch prepared, frozen and built has the provider, harness and model it was given, with both halves of its session |
| Custody.PreparedDispatchRuns | crates/agent/src/dispatch.rs:450-480 | the whole state after a dispatch is prepared, frozen, built and started, in any history: running with its session and receiver, or gone with exactly its session revoked |
| Custody.LegacyDispatchRuns | crates/agent/src/dispatch.rs:481-508 | the same for a legacy dispatch, which never has custody |
| Custody.HalvesPartWays | crates/agent/src/dispatch.rs:522-530 | dropping a running adapter session revokes it and leaves the receiver; dropping the receiver revokes nothing |
| Custody.DispatchesAreIsolated | crates/agent/src/dispatch.rs:8-12 | no event of one dispatch changes another's slot or touches its session, and no revocation is undone |
| Custody.BranchesStaySeparate | crates/agent/src/dispatch.rs:440-449 | in every history a runner with custody has a supported protocol, a model and its custody still to take; a running session has a receiver exactly when its dispatch was registered for a session, and then owns that session |
| Custody.ReceiverSeesCustody | crates/agent/src/dispatch.rs:961-990 | the retained receiver is refused exactly once the adapter session is gone |
| Custody.OwnedAreRegistered | crates/agent/src/dispatch.rs:400-419 | an owned session was registered and is not revoked |
| EventServer.OutputIsRelayed | harness/stubs/fake-opencode-server.py:137-166 | what a prompt enqueues, line by line: exactly the errors, the parts and garbage beyond 10 MiB are heard, in the lines' order, with their contents, a part without an id numbered by its rank among the parts |
| EventServer.RelayLines | harness/stubs/fake-opencode-server.py:136-161 | the loop's events are that relay, idle last; a line that makes the handler raise cuts it off there, with no idle event and no answer |
| EventServer.CorrectClientsAreNeverRefused | harness/stubs/fake-opencode-server.py:55-67 | in every interleaving a client that acts only after a byte of the event stream never trips the guard |
| EventServer.NoRefusalFromStart | harness/stubs/fake-opencode-server.py:94-105 | no session or prompt request of a disciplined run, from an idle server, is refused |
| EventServer.EagerClientsAreRefused | harness/stubs/fake-opencode-server.py:104-105 | a client that prompts first is refused |
| EventServer.GuardTripsExactly | harness/stubs/fake-opencode-server.py:92-105 | in every history a waiting request is admitted exactly when some stream handler has recorded its subscription |
| EventServer.FlagKept | harness/stubs/fake-opencode-server.py:62-62 | the flag is up exactly when some stream handler has recorded it |
| EventServer.StepKeepsQueue | harness/stubs/fake-opencode-server.py:68-72 | every step of every thread keeps the account of what each thread has put on and taken off the queue |
| EventServer.AnsweredPromptsHaveQueuedAll | harness/stubs/fake-opencode-server.py:135-161 | a prompt answered 200 has enqueued the relay of its whole output in order, idle last |
| EventServer.PromptAnswers | harness/stubs/fake-opencode-server.py:135-161 | an admitted prompt left to run answers, unless a line makes its handler raise |
| EventServer.ChokedPromptsNeverAnswer | harness/stubs/fake-opencode-server.py:138-161 | in any run a prompt whose child prints a line the handler raises on is never answered and never enqueues idle |
| EventServer.QueueIsFifo | harness/stubs/fake-opencode-server.py:68-72 | the queue loses, duplicates and reorders nothing with any number of subscribers, and what a handler took it has sent, but for one event it may hold |
| EventServer.LostExactlyWhenBroken | harness/stubs/fake-opencode-server.py:68-72 | a held event is lost exactly when its handler's write failed: then no continuation sends it, otherwise the next step does |
| EventServer.SoleSubscriberSeesPrefix | harness/stubs/fake-opencode-server.py:68-72 | a single subscriber is sent a prefix of the enqueue order |
| EventServer.IdleSeenMeansAllSeen | harness/stubs/fake-opencode-server.py:158-160 | a single subscriber that was sent a prompt's idle event was sent every event of that prompt before it |
| EventServer.StreamConnects | harness/stubs/fake-opencode-server.py:62-67 | a new stream handler raises the flag and greets its client in three steps |
| EventServer.SessionAnswers | harness/stubs/fake-opencode-server.py:94-96 | a session request is answered exactly when the subscription is recorded |
| EventServer.StreamDrains | harness/stubs/fake-opencode-server.py:68-72 | a working handler left to run sends what it holds and then the whole queue, in order |
| EventServer.EverythingArrives | harness/stubs/fake-opencode-server.py:68-72 | in every history a single connected subscriber, left to run, has been sent every event ever enqueued, in order |
| HarnessVersion.IsExactVersion | crates/agent/src/harness_version.rs:74-84 | true exactly for three non-empty all-digit parts |
| HarnessVersion.ParsesExactly | crates/agent/src/harness_version.rs:95-104 | parsing succeeds exactly when, besides, each part fits in 64 bits, and yields the numbers |
| HarnessVersion.RenderedVersionsParseBack | crates/agent/src/harness_version.rs:95-104 | any three 64-bit components written in decimal parse back to themselves |
| HarnessVersion.AtLeastIsNumericOrder | crates/agent/src/harness_version.rs:86-93 | on versions that parse, the order is that of one number in base 2^64, total; a version that does not parse is at least nothing |
| HarnessVersion.AtLeastIsTransitive | crates/agent/src/harness_version.rs:88-93 | the order is transitive |
| HarnessVersion.VersionTokenIsFirstWord | crates/agent/src/harness_version.rs:67-71 | reading line by line finds the first word of the whole output |
| HarnessVersion.GateRefusesExactly | crates/agent/src/harness_version.rs:133-153 | the gate refuses exactly a first word of three numerals that is below 1.0.109 or overflows; unreadable answers pass |
| HarnessVersion.GateOnPrintedVersions | crates/agent/src/harness_version.rs:131-153 | for any version printed between white space, when exactly it is refused, and that the refusal names it |
| HarnessVersion.GateOnTerminalOutput | crates/agent/src/harness_version.rs:34-71 | the same in plain figures for output with blanks, tabs and line ends around the version, such as `1.0.100 (Claude Code)` |
| HarnessVersion.GluedSuffixPasses | crates/agent/src/harness_version.rs:64-71 | a version with another printable character glued to it is not read as one and passes |
| HarnessVersion.AsciiWhiteSpace | crates/agent/src/harness_version.rs:67-71 | which ASCII characters separate words |
| HarnessVersion.OverflowingVersionIsRefused | crates/agent/src/harness_version.rs:100-103 | a version newer than the minimum that is refused |
| StepBlocks.PatternsAreExclusive | harness/ci/check-install-action-home.py:36-39 | a line is at most one of blank, list item, `env:` header and HOME entry; what it reads as is what its pattern captures |
| StepBlocks.Starts | harness/ci/check-install-action-home.py:49-49 | exactly the list-item lines, in order |
| StepBlocks.EndOf | harness/ci/check-install-action-home.py:50-56 | the next item at the same or a shallower indent, or the end |
| StepBlocks.CutSteps | harness/ci/check-install-action-home.py:43-56 | exactly one block for each list item |
| StepBlocks.BlocksAreLaminar | harness/ci/check-install-action-home.py:43-48 | any two blocks are disjoint or nested, whatever the file |
| StepBlocks.FindHome | harness/ci/check-install-action-home.py:72-93 | the first HOME entry under the nearest open `env:`, and nothing exactly when there is none |
| StepBlocks.HomeEntriesLieUnderEnv | harness/ci/check-install-action-home.py:73-77 | a found HOME lies under an `env:` header with everything between, and itself, indented deeper |
| StepBlocks.EnclosedHomeCountsExactly | harness/ci/check-install-action-home.py:82-88 | an enclosed HOME counts if and only if the nearest header above it encloses it too |
| StepBlocks.HiddenHome | harness/ci/check-install-action-home.py:82-88 | a whole step of the action whose `env:` encloses its HOME and which the check reports whatever that HOME is |
| StepBlocks.RunnerTempIsPrivate | harness/ci/check-install-action-home.py:33-34 | such a HOME can be the job-private one the check asks for |
| StepBlocks.Check | harness/ci/check-install-action-home.py:96-120 | counts the steps that use the action, and reports exactly those whose block does not set a job-private HOME, in file order |
| StepBlocks.ListItemReads | harness/ci/check-install-action-home.py:36-36 | any text after a dash and a blank, at any indent, is a list item |
| StepBlocks.ListItemShape | harness/ci/check-install-action-home.py:36-36 | and a list item has no other shape |
| StepBlocks.UsesDecides | harness/ci/check-install-action-home.py:103-104 | a step uses the action exactly when its `uses:` value starts with the action's name |
| StepBlocks.ActionShape | harness/ci/check-install-action-home.py:37-37 | no line of another shape uses the action |
| StepBlocks.EnvWithBlanks | harness/ci/check-install-action-home.py:38-38 | blanks after `env:` do not matter |
| StepBlocks.HomeWithBlanks | harness/ci/check-install-action-home.py:39-39 | nor do blanks around a HOME |
| StepBlocks.StepWithHome | harness/ci/check-install-action-home.py:96-119 | on texts: a step with an `env:` and a HOME under it is reported exactly when the HOME holds neither `runner.temp` nor `runner.workspace` |
| StepBlocks.BareStepIsReported | harness/ci/check-install-action-home.py:43-57 | on texts: a step followed at once by any list item at the same or a shallower indent, or by nothing, is reported |
| StepBlocks.HomeUnderWithIsReported | harness/ci/check-install-action-home.py:72-77 | on texts: a HOME under `with:` does not count |
| StepBlocks.ExitStatus | harness/ci/check-install-action-home.py:123-142 | 0 exactly when the workflow exists, uses the action, and every use is job-private; 1 exactly when one is not |
| Capabilities.RegistryFile.Write | crates/config/src/capabilities.rs:129-147 | all or nothing |
| Capabilities.RegistryFile.LoadOrSeed | crates/config/src/capabilities.rs:102-122 | when exactly it succeeds, fails to parse or fails on the file; a seed is the defaults; a load keeps the file's entries as a prefix, ends with every default name, and writes once exactly when it changes the file |
| Capabilities.LastEditIsKept | crates/config/src/capabilities.rs:95-122 | over any history of loads, failed writes and edits, what the user last left stays first and unchanged, the names are exactly theirs and those bundled with loads that could write; a missing file is seeded by the first of these; an unreadable or unparsable one stays |
| Capabilities.NamesStayDistinct | crates/config/src/capabilities.rs:111-119 | over any such history loads never add a second entry of one name |
| Capabilities.MergeAppendsTheMissing | crates/config/src/capabilities.rs:111-121 | what a load appends is the missing defaults, whole, in bundled order, and nothing else |
| Capabilities.SecondLoadIsNoOp | crates/config/src/capabilities.rs:113-121 | a second load changes nothing, and a load changes nothing exactly when every name is present |
| Capabilities.DeletedDefaultsReturn | crates/config/src/capabilities.rs:111-119 | a deleted bundled entry is appended again |
| Humanize.Truncate | crates/agent/src/humanize.rs:436-447 | at most the bound, unchanged when it fits, otherwise a prefix and an ellipsis |
| Humanize.TruncateTwice | crates/agent/src/humanize.rs:436-447 | cutting twice is cutting once to the smaller bound |
| Humanize.Duration | crates/agent/src/humanize.rs:236-241 | present exactly when both ends are known and the difference is neither negative nor overflowing, and then that difference |
| Humanize.CountsAreExact | crates/agent/src/humanize.rs:247-273 | over any transcript, results count the completed calls and "turn completed" the stopping finishes |
| Humanize.TimelineIsWellFormed | crates/agent/src/humanize.rs:206-284 | every result directly follows the tool use of its own line, every entry respects its kind's bound |
| Humanize.EveryLineShows | crates/agent/src/humanize.rs:206-284 | over any transcript, the consecutive entries each line becomes: prose its text, a call its tool, input and interval and once completed its output, a stopping finish the completion, an error its name and message, anything else nothing |

## Left out

- EventServer.OutputIsRelayed: an event for garbage beyond 10 MiB names the server's own session, which is not carried.
- ProcTree.KillTree: the targets of a round are a set; the ascending order in which they are signalled is not captured, nor are the pauses and the log line.
- Running `ps` and parsing its rows: snapshots are taken as rows.
- Reuse of a pid within one sweep: two rows with one pid in different snapshots are taken for one process, as the source does.
- Custody.StepKeepsInv: histories are states over values; a broker session revoked from the broker's side (an explicit revoke, or the broker going down) is not an event of the model.
- Dispatch.Start: the workspace, the issue and the transcript are not carried, since they decide nothing; the adapter's own start is one yes-or-no answer.
- Applying the model to the harness knobs and lowering limits and plans for the broker: field-by-field copies.
- Turn arming beyond the revocation check, grants, budgets and the broker's HTTP side.
- Sanitizer.SanitizeProviderBlocks: trees are values that each edit replaces; the order of object keys is not captured.
- The conversion from YAML, the removal of an unparsable `github` block, and the typed `global` and `projects` views.
- EventServer.StepKeepsQueue: handler threads are steps over one state value, each step atomic; a failing reply to a session or prompt request, which touches nothing shared, is not a step; the other endpoints, authorisation and the child's arguments do not touch the shared state and are not modelled.
- The `opencode` half of the version gate, and running the CLI.
- StepBlocks.Check: a report is the line of its step; the job name, the message text and the command line are not modelled.
- `render_section` of the capabilities registry: a filter and a join.
- Humanize.TimelineIsWellFormed: covers the opencode line types; the Claude line types, timestamps and the summarising of tool input and output are not modelled, and the summaries are inputs.
- Rate-limit parsing, the provider broker's policy, the tracker, the store, the orchestrator, the web and desktop code.
