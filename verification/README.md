# U-OPTI: the crash-recoverable transactions

U-OPTI changes several files of a server that must agree with each other: an engine manifest and the
receipt that pins its hash, a Compose file and a registry of engines shared by two engines, a stream
map and the vhost it sends requests to, a web page and its assets. No file system replaces two files
at once, so every such change is a protocol: a fixed order of durable steps under a journal, with
backups, so that a later run can put back the exact original bytes or else refuse and write nothing.

This project models those protocols and proves what they are for, on every run and at every point at
which the power can fail.

## How it is built

* `Durable.dfy` has a `Disk` that changes one durable step at a time and has a `fuse`, the number of
  steps its power supply survives. Every operation is specified as an `Attempt`: the steps it takes when
  the power stays on, and its answer. The imperative operation is a method over the disk, proved to
  have done exactly that, or exactly the part of it that the fuse allowed (`Ran`).
* A run is a sequence of calls, each with its own fuse. For every protocol the reachable disks are
  described by a small `Stage`; a `Walk` is a list of steps, each with the stage it leads to. The
  lemmas about runs are stated on the disk alone and quantify over every sequence of calls and fuses.
* `Host.dfy` has bytes, JSON values, and the world's functions: SHA-256 (section 6.2 of FIPS 180-4) and
  a JSON codec, both abstract. `World.Valid` says that writing and reading a value of the kind the
  transactions write is the identity, and that flat documents are small; `Worlds.dfy` has one that is
  so. No injectivity of the hash is assumed for the paired and the retained transaction. JSON member
  names and the words the protocols compare with are enumerated, as are the reasons for a refusal; where
  several checks of the source give the same kind of refusal one reason stands for them. In the modules
  on engines, publication, edge and user interface a digest is represented by the content it was made
  from.
* Probes, signed witnesses, observers and package verification are parameters: functions of the number of
  the look, or of the moment and both hosts as they are then, that answer anything at any time.
* For each operation a theorem says exactly when it succeeds and what is then on the disk, in terms of the files
  found before the call and of its arguments alone: the modules with `Outcomes` in their name, and the rows with
  "exactly". The theorems about runs, cuts and refusals stand beside it.

| modules | protocol |
|---|---|
| `PairPlanner`, `PairTransaction`, `PairGuarantees`, `PairRuns`, `PairOutcomes`, `TwoHosts` | manifest and receipt, journal of five parts, terminal seal, the coordinator that always compensates |
| `Retained`, `RetainedRuns`, `RetainedGuarantees`, `RetainedOutcomes`, `PairReview`, `RetainedTwoHosts` | one journal with both snapshots and a phase, witness before every write, its coordinator |
| `OwnedFiles`, `SidecarRecovery`, `SidecarTransaction`, `SidecarGuarantees`, `SidecarRuns`, `SidecarOutcomes` | a file journal inside an intent and a service state |
| `UnifiedLab`, `UnifiedGuarantees`, `UnifiedRuns`, `UnifiedOutcomes` | the one-level version, with owner and mode |
| `Engines`, `EngineRuns`, `EngineStories`, `EngineOutcomes`, `JournalFamilies` | two engines on one Compose file and one registry, with their modes and directories; legacy and paired journals under one lock and over one manifest |
| `RoutePaths`, `RouteTable`, `RouteServing`, `GuidedPublish`, `GuidedRuns`, `GuidedOutcomes` | prefix-free paths, printer and strict parser, who answers a request, publication of one route at a time |
| `EdgeExecutor`, `EdgeRuns`, `EdgeOutcomes`, `IncludeTransaction`, `IncludeRuns`, `IncludeOutcomes`, `PanelUi`, `PanelRuns` | ordered publication |
| `TextEdits`, `AuthOverlay` | counting and replacing in a text, the admin guard |
| `Wordings`, `Worlds` | the program's own wording, and a hash and codec, have the properties supposed of them |

## Where a promise does not hold, and exactly when it does

* An engine's rollback leaves the other engine alone, except that Backhaul's rollback writes its registry
  backup again when the registry is gone: an FRP entry in that backup is declared anew
  (`EngineRuns.DisturbsExactlyWhen`). A run of four calls leads there (`EngineStories.BackhaulCanResurrectFrp`).
  FRP's rollback refuses in the same situation.
* Backhaul records the modes of the Compose file and of the registry as it finds them, and its rollback refuses every
  mode but a few. An activation is undone if and only if the modes found before it are among them
  (`EngineRuns.CutActivationRollsBack`); on a Compose file of mode 0664, or a registry of mode 0400, it is accepted and
  then every later call of Backhaul is refused (`EngineStories.EveryModeIsActivated`, `EngineRuns.UnsafeModesAreStuck`).
  FRP checks the modes before its journal.
* FRP makes the directory of the binaries with default permissions; Backhaul wants it private, and looks only after its
  journal is written. Backhaul over such an FRP succeeds exactly if the default permissions are private
  (`EngineRuns.BackhaulOverFrpExactlyWhen`); otherwise it stops and can be rolled back. A rollback that has to write
  the registry again stops likewise while the registry's directory is gone, as it is in the story above if FRP's second
  enrolment is cut one step earlier (`EngineStories.BackhaulCanBeStranded`).
* FRP never looks at the pair's journal. Its rollback may remove or replace the manifest under it, and pair recovery then
  returns if and only if the manifest is one of the two in the journal (`JournalFamilies.PairReturnsExactlyWhen`,
  `JournalFamilies.FrpRollbackDecides`).
* In the one-level lab a journal is read back only if the edited vhost is the one the fixed layout names. A
  KH served from a site of its own is installed, and can then never be recovered
  (`UnifiedRuns.UndoneExactlyWhen`, `UnifiedRuns.OwnSiteIsStuck`).
* An edge activation cut between writing the committed record and moving it into place leaves map and vhost
  live, and every later call is refused (`EdgeRuns.SwapCutIsStuck`). So it is, with the originals in place, when the
  journal's directory is left without a journal: at a cut before the journal is written or after it is deleted. These
  are all the states in which no call is accepted (`EdgeRuns.StuckExactlyWhen`), and exactly these cuts lead to them
  (`EdgeRuns.CutActivationIsStuck`, `EdgeRuns.CutUndoingIsStuck`); otherwise some operation undoes everything
  (`EdgeRuns.UndoneExactlyWhen`).
* An update of the user interface checks the limit on a file set for what it finds and for what it brings, not for
  both together. If they exceed it together, the update writes everything, answers a failure, and afterwards both
  operations are refused for good (`PanelRuns.OversizedUpdateIsStuck`). So they are after an update that was cut behind
  its record, in every next container without the target (`PanelRuns.ReplacedContainerIsStuck`). Exactly when an update
  succeeds, and when both operations are refused, is stated for every panel (`PanelRuns.ApplySucceedsExactlyWhen`,
  `PanelRuns.BothRefusedExactlyWhen`).

## Model

| member | source | states |
|---|---|---|
| `PairPlanner.TransitionKeepsBinding` | modules/smite-managed-backhaul-transaction.py:485-512 | a planned pair is bound again: the receipt's `new` is the hash of the new manifest; only the Backhaul entry is added, only `new` is edited, both files change |
| `PairPlanner.TransitionIsReversible` | modules/smite-managed-backhaul-control.py:634-706 | dropping the Backhaul entry and restoring the hash gives back the old bound pair |
| `PairPlanner.SecondPlanRefused` | modules/smite-managed-backhaul-control.py:634-706 | a planned pair is never planned again, whatever binary or role is asked for |
| `PairPlanner.PlannedExactlyWhen` | modules/smite-managed-backhaul-control.py:634-706 | the planner accepts exactly the bound pairs without Backhaul whose new bytes fit the limits and change the hash |
| `PairPlanner.PlansExactlyWhen` | modules/smite-managed-backhaul-control.py:634-706 | the planner answers two texts exactly if they are these: the manifest found with the Backhaul entry of this binary and role added, the receipt found with the hash of that text as `new`; all members of both documents are spelled out |
| `PairTransaction.ApplyLocked` | modules/smite-managed-backhaul-transaction.py:523-577 | apply writes the five journal parts, then the manifest, then the receipt, or the part of that which the power allows; a refusal comes before the first step |
| `PairTransaction.WritePair` | modules/smite-managed-backhaul-transaction.py:546-577 | the durable half, loop over the journal parts |
| `PairTransaction.RecoverLocked` | modules/smite-managed-backhaul-transaction.py:668-765 | recovery examines everything, restores, seals and cleans up, or finishes a sealed cleanup |
| `PairTransaction.RestoreAndSeal` | modules/smite-managed-backhaul-transaction.py:734-765 | manifest and receipt back, then the seal |
| `PairTransaction.FinishCleanupLocked` | modules/smite-managed-backhaul-transaction.py:590-665 | a sealed cleanup, refused unless seal, pair and every remnant agree |
| `PairTransaction.Erase` | modules/smite-managed-backhaul-transaction.py:648-665 | the remaining parts in the fixed order, the directory, the seal last |
| `PairGuarantees.RefusalWritesNothing` | modules/smite-managed-backhaul-transaction.py:676-732 | on any disk at all, a recovery that holds has taken no durable step |
| `PairGuarantees.RecoveryIsExact` | modules/smite-managed-backhaul-transaction.py:668-765 | on any disk at all, a recovery that returns leaves the journalled originals (or the pair found under a seal) and neither journal nor seal |
| `PairGuarantees.SealedCleans` | modules/smite-managed-backhaul-transaction.py:596-647 | a seal with the original pair and any remnant of its journal passes every check of the cleanup |
| `PairOutcomes.ApplyAppliesExactlyWhen` | modules/smite-managed-backhaul-transaction.py:523-577 | on any disk at all, for either role: apply succeeds exactly if there is no journal of either kind and no seal, and both files are readable and accepted by the planner; then the next pair is on disk under a journal of exactly the old and new bytes, and nothing else has changed; otherwise nothing is written |
| `PairOutcomes.RecoverReturnsExactlyWhen` | modules/smite-managed-backhaul-transaction.py:668-765 | on any disk at all: recovery returns exactly if there is no legacy journal and either the journal explains what is on disk, or the seal vouches for it and for the remnant; the conditions are spelled out on the files |
| `PairOutcomes.RecoveryRestores` | modules/smite-managed-backhaul-transaction.py:734-765 | a journal that explains the disk: recovery leaves the two texts it holds as the old ones and nothing else |
| `PairRuns.EveryRunIsSafe` | modules/smite-managed-backhaul-transaction.py:523-765 | every run, cut anywhere: originals without a complete journal; before or next versions with one; originals and a suffix of the parts in deletion order under a seal |
| `PairRuns.RecoveryUndoesEveryRun` | modules/smite-managed-backhaul-transaction.py:668-765 | after every run, recovery returns exactly if the journal is complete or there is a seal, and then the disk is the one the run started from |
| `PairRuns.RecoveryIsBounded` | modules/smite-managed-backhaul-transaction.py:590-665 | all recover calls together take at most ten durable steps, over any number of crashes |
| `TwoHosts.Rehearse` | modules/smite-managed-backhaul-transaction.py:802-898 | the exact condition of each answer: success if and only if the rehearsal was begun, both changes were made in full and accepted at each look, and both were undone and accepted; "exact rollback proved" if and only if it was begun, some change was cut or not accepted, and both were undone and accepted; review if and only if it was begun and not undone and accepted. After the first two both hosts are what they were; under review a host that is not has its journal or seal; any other answer comes before the first step |
| `TwoHosts.Compensate` | modules/smite-managed-backhaul-transaction.py:860-884 | one host is undone, or keeps its evidence |
| `Retained.OperateLocked` | modules/smite-managed-backhaul-host-executor.py:332-552 | install, rollback, recover and cleanup take exactly the specified steps, as far as the power lasts |
| `Retained.ShiftLocked` | modules/smite-managed-backhaul-host-executor.py:541-552 | the loop over the two files with a look at the witness before each, and the final phase |
| `Retained.FinishLocked` | modules/smite-managed-backhaul-host-executor.py:282-329 | the sealed cleanup: journal, then a last look, then the seal |
| `RetainedRuns.EveryRunIsSafe` | modules/smite-managed-backhaul-host-executor.py:466-552 | any operations, witnesses and crashes: the pair on disk is one the recorded phase allows, never an old manifest with a new receipt |
| `RetainedRuns.EveryRunCanBeUndone` | modules/smite-managed-backhaul-host-executor.py:441-552 | from every journaled unsealed state a rollback and then a cleanup succeed and give back the start; from a sealed one the cleanup alone does |
| `RetainedGuarantees.OperationIsExact` | modules/smite-managed-backhaul-host-executor.py:441-552 | on any node at all, whatever the witness shows, an operation that returns: an installation leaves the one permitted change of its deal and a committed journal, a rollback the originals decoded from the journal, a recovery one of the two by the recorded phase, a cleanup the pair as it was and neither journal nor seal |
| `RetainedGuarantees.EveryCutIsBetween` | modules/smite-managed-backhaul-host-executor.py:466-552 | on any node at all, at every cut of every operation: the node is untouched, or only its evidence changed under a cleanup, or it was admitted for a deal and the pair on disk is the deal's old, new, or new manifest with old receipt |
| `RetainedOutcomes.InstallsExactlyWhen` | modules/smite-managed-backhaul-host-executor.py:430-510 | on any node without journal: an installation succeeds exactly if the request is sane, there is no seal, the witness stays, and a pair stands (the one handed over, if one was) whose change is accepted; then the changed pair and a committed journal of it are on disk, and nothing else has changed |
| `RetainedOutcomes.InstalledAlreadyExactlyWhen` | modules/smite-managed-backhaul-host-executor.py:430-460 | on any node with a journal: an installation writes nothing and succeeds exactly if the journal is a committed record of the pair that stands |
| `RetainedOutcomes.RollsBackExactlyWhen` | modules/smite-managed-backhaul-host-executor.py:441-552 | a rollback or a recovery succeeds exactly if a record explains the node and either its phase already is the wanted one or the witness stays at each of five looks; then the originals and a restored journal are on disk, and only the files that differed were written |
| `RetainedOutcomes.CleansExactlyWhen` | modules/smite-managed-backhaul-host-executor.py:282-466 | a cleanup succeeds exactly if the witness stays and the seal, or a restored record, speaks of the pair that stands; then journal and seal are gone and nothing else has changed |
| `RetainedRuns.HandoffDecides` | modules/smite-managed-backhaul-host-executor.py:430-510 | on any node, an operation with a handoff writes exactly if it is an installation and pair, witness (twice), journal, seal and competing recovery are as handed over and the change is accepted; its first write is the journal of that pair; it succeeds exactly if the witness stays at the three later looks |
| `RetainedRuns.OperateFollows` | modules/smite-managed-backhaul-host-executor.py:332-552 | whatever is asked and whatever the witness shows, an operation stays on agreed stages |
| `PairReview.ReviewAcceptsExactly` | modules/smite-managed-backhaul-control.py:329-388 | the review accepts a pair if and only if the journal is the committed record of some deal whose one permitted change gives this pair |
| `PairReview.RunsAreReviewed` | modules/smite-managed-backhaul-control.py:329-388 | in every run, it accepts exactly the committed state, for its own binary and role |
| `RetainedTwoHosts.Rehearse` | modules/smite-managed-backhaul-host-executor.py:607-732 | the exact condition of each answer: success if and only if both nodes were changed in full and accepted, restored and accepted, cleared and accepted; "exact rollback proved" if and only if some change was not made or not accepted and all the rest was; review if and only if something was begun and not restored or not cleared. After the first two both nodes are what they were, without journals; under review a node that is not has its journal and no seal until the clearing, and the original pair from then on |
| `RetainedTwoHosts.Retreat` | modules/smite-managed-backhaul-host-executor.py:677-721 | no journal is removed until both nodes are restored and accepted |
| `RetainedTwoHosts.Ask` | modules/smite-managed-backhaul-host-executor.py:655-675 | an installation or a rollback never takes a journal away, a cleanup never touches the pair, wherever they are cut |
| `OwnedFiles.UndoLast` | modules/smite-backhaul-sidecar-recovery-lab.py:264-274 | undoing the last change gives back the files before it |
| `SidecarRecovery.RecoverFilesLocked` | modules/smite-backhaul-sidecar-recovery-lab.py:244-292 | the files back in reverse, the state evaluated again, the backup, the journal last |
| `SidecarRecovery.UndoLocked` | modules/smite-backhaul-sidecar-recovery-lab.py:263-274 | the loop over the resources in reverse |
| `SidecarRecovery.WriteFiles` | modules/smite-backhaul-sidecar-recovery-lab.py:221-225 | the loop that writes the candidate files |
| `SidecarTransaction.DeployLocked` | modules/smite-backhaul-sidecar-transaction-lab.py:199-271 | intent, file journal, files, services; a failure at any point is rolled back in the same call |
| `SidecarTransaction.RevertLocked` | modules/smite-backhaul-sidecar-transaction-lab.py:154-187 | services, files, file journal, intent last; refused before any change |
| `SidecarRuns.EveryRunIsSafe` | modules/smite-backhaul-sidecar-transaction-lab.py:154-271 | every run, cut anywhere, also inside the inner recovery: services away from baseline imply every owned file applied and the file journal; a file journal implies the intent; a changed backend implies its backup |
| `SidecarRuns.RollbackUndoesEveryRun` | modules/smite-backhaul-sidecar-transaction-lab.py:154-187 | after every run a rollback returns exactly if there is an intent, and then nothing is left |
| `SidecarRuns.DeploymentIsAllOrNothing` | modules/smite-backhaul-sidecar-transaction-lab.py:222-271 | a deployment activates everything or leaves the disk as it was |
| `SidecarRuns.StageValidates` | modules/smite-backhaul-sidecar-recovery-lab.py:122-169 | after any prefix of the changes, the evidence says exactly which resources are applied |
| `SidecarRuns.RevertFollows` | modules/smite-backhaul-sidecar-transaction-lab.py:154-187 | on every stage that left something a rollback succeeds |
| `SidecarGuarantees.RefusalWritesNothing` | modules/smite-backhaul-sidecar-transaction-lab.py:154-173 | on any disk at all, a rollback that refuses has written nothing |
| `SidecarGuarantees.RevertIsExact` | modules/smite-backhaul-sidecar-recovery-lab.py:244-292 | on any disk at all, a rollback returns exactly if its read-only part does; then no intent, journal or backup is left, created files are absent, the edited one has the backup's bytes if it had been changed, no other file has changed |
| `SidecarOutcomes.DeploysExactlyWhen` | modules/smite-backhaul-sidecar-transaction-lab.py:199-271 | on any disk at all: a deployment succeeds exactly if a payload is offered that fits the disk and nothing fails on the way; then each created place holds its own payload, the edited one the inserted line, every other file what it held, the journal one row for each of these and the services are active; otherwise the disk is as it was |
| `SidecarOutcomes.RevertsExactlyWhen` | modules/smite-backhaul-sidecar-transaction-lab.py:154-187 | on any disk at all: a rollback succeeds exactly if intent and services agree and either nothing was started or the journal explains the files, place by place; then the files are as the journal says they were; otherwise nothing is written |
| `UnifiedLab.InstallLocked` | modules/smite-backhaul-sidecar-unified-lab.py:262-342 | journal, backup, files, services, with a recovery on failure |
| `UnifiedLab.RecoverLocked` | modules/smite-backhaul-sidecar-unified-lab.py:345-385 | validation first, services, files in reverse, validation again, backup, journal last |
| `UnifiedGuarantees.RefusalWritesNothing` | modules/smite-backhaul-sidecar-unified-lab.py:254-259 | on any disk at all, a recovery that refuses has written nothing |
| `UnifiedGuarantees.RecoveryIsExact` | modules/smite-backhaul-sidecar-unified-lab.py:345-385 | on any disk at all, recovery returns exactly if the evidence validates; then created files are absent, the edited one has the backup's bytes with the recorded owner and mode, no other file has changed |
| `UnifiedOutcomes.InstallsExactlyWhen` | modules/smite-backhaul-sidecar-unified-lab.py:262-342 | on any disk at all: an installation succeeds exactly if a candidate is offered that fits the disk and nothing fails on the way; then each place holds the bytes meant for it, private or, at the edited one, with the old owner and mode, no other file has changed, the journal has their rows and the services are active; an injected failure is undone in the same call exactly if the journal can be read back |
| `UnifiedOutcomes.RecoversExactlyWhen` | modules/smite-backhaul-sidecar-unified-lab.py:345-385 | on any disk at all: a recovery returns exactly if the journal explains the files, place by place; the conditions and the files it leaves are spelled out |
| `UnifiedRuns.EveryRunIsSafe` | modules/smite-backhaul-sidecar-unified-lab.py:262-385 | every run, cut anywhere: a changed file implies journal and backup, services away from the original imply every file applied |
| `UnifiedRuns.RecoveryUndoesEveryRun` | modules/smite-backhaul-sidecar-unified-lab.py:345-385 | after every run recovery returns exactly if the journal names the layout's vhost with a changed hash; then bytes, owners and modes are back |
| `UnifiedRuns.UndoneExactlyWhen` | modules/smite-backhaul-sidecar-unified-lab.py:176-211 | a journaled installation can be undone if and only if KH is on its default site and the vhost's hash changes; otherwise no later run changes anything |
| `UnifiedRuns.OwnSiteIsStuck` | modules/smite-backhaul-sidecar-reconcile.py:180-205 | a KH on a site of its own: the installation succeeds and recovery refuses |
| `Engines.ActivateLocked` | modules/smite-managed-backhaul-transaction.py:203-257 | journal with the record and both modes last, the directory, which may stop it, binaries, Compose, registry at the very end |
| `Engines.RollbackLocked` | modules/smite-managed-backhaul-transaction.py:265-321 | everything checked first, the recorded modes too; Compose, registry, binaries, emptied directories, journal; it stops before a registry whose directory is gone |
| `Engines.Enroll` | modules/smite-managed-frp-transaction.py:173-200 | the same order for FRP's two binaries |
| `Engines.Withdraw` | modules/smite-managed-frp-transaction.py:245-265 | the same rollback for FRP |
| `EngineRuns.ActivationLeavesOther` | modules/smite-managed-frp-transaction.py:119-143 | at every cut of an activation the other engine's mounts, entry, binaries and journal are as they were |
| `EngineRuns.ActivationSettles` | modules/smite-managed-backhaul.py:157-214 | an activation succeeds exactly if it is prepared and the directory of the binaries does not stop it; then its engine is declared and each tool is mounted by exactly one line, from the file that has the declared content; FRP under Backhaul stays settled |
| `EngineOutcomes.ActivatesExactlyWhen` | modules/smite-managed-frp-transaction.py:98-200 | on any node: the exact condition under which an activation of either engine succeeds, on the files alone; then the Compose file has the own lines added behind the anchor, each tool is mounted from its own file and from no other, binaries, registry, modes and the record in the journal are given |
| `EngineOutcomes.RollsBackExactlyWhen` | modules/smite-managed-backhaul-transaction.py:265-321 | on any node: a rollback succeeds exactly if the journal explains Compose file, registry and binaries, its modes are known and the registry can be written; then Compose file and registry are the recorded ones, the own binaries and journal are gone, and all else is as it was |
| `EngineRuns.CutActivationRollsBack` | modules/smite-managed-backhaul-transaction.py:217-321 | an activation stopped or cut anywhere behind its record: a rollback succeeds if and only if the modes found before it can be put back, and then every file, mode and journal, and every directory that held one, is as before; otherwise it writes nothing |
| `EngineRuns.UnsafeModesAreStuck` | modules/smite-managed-backhaul-transaction.py:281-285 | after an activation that found another mode, in every later run of both engines, every call of Backhaul is refused |
| `EngineStories.EveryModeIsActivated` | modules/smite-managed-backhaul-transaction.py:227-228 | a node for every mode of the Compose file and every owner's mode of the registry on which Backhaul is activated, with a rollback refused exactly for the modes that cannot be put back |
| `EngineRuns.BackhaulOverFrpExactlyWhen` | modules/smite-managed-backhaul-transaction.py:236-240 | Backhaul over an FRP that made the directory succeeds exactly if default permissions are private; otherwise it stops with only its journal written |
| `EngineRuns.CutRollbackStaysBetween` | modules/smite-managed-frp-transaction.py:245-261 | so it is after any number of rollbacks cut before their journal, also between the removed directories |
| `EngineRuns.RollbackLeavesOther` | modules/smite-managed-frp-transaction.py:228-254 | in every reachable state, at every cut of a rollback, the other engine is undisturbed, but for one case |
| `EngineRuns.DisturbsExactlyWhen` | modules/smite-managed-backhaul-transaction.py:288-310 | a rollback that succeeds changes the other engine's entry if and only if it is Backhaul's, finds no registry, and its backup has an FRP entry; the mounts never change |
| `EngineStories.BackhaulCanResurrectFrp` | modules/smite-managed-backhaul-transaction.py:304-308 | a concrete run of four calls that meets the condition |
| `EngineStories.BackhaulCanBeStranded` | modules/smite-managed-backhaul-transaction.py:307-308 | a concrete run after which Backhaul's rollback must write the registry, finds no directory for it, and keeps its journal |
| `JournalFamilies.FamiliesExclude` | modules/smite-managed-backhaul-transaction.py:336-348 | in every reachable state of both families the legacy journal and the pair journal or seal are never there together, so neither blocks the other |
| `JournalFamilies.NextExcludes` | modules/smite-managed-backhaul-transaction.py:207-219 | no call, cut anywhere, brings the two together |
| `JournalFamilies.PairReturnsExactlyWhen` | modules/smite-managed-backhaul-transaction.py:668-732 | in every run of both families over the real manifest bytes: under a complete pair journal, pair recovery returns exactly if the manifest is one of the two in it, whoever wrote it; under a seal if it is the original, and only if it has the original's hash; never otherwise |
| `JournalFamilies.FrpRollbackDecides` | modules/smite-managed-frp-transaction.py:245-254 | an FRP rollback under a complete pair journal: pair recovery returns afterwards exactly if the registry put back is one of the journal's two manifests, and never if FRP had made the registry |
| `JournalFamilies.EnrolmentLeavesPair` | modules/smite-managed-frp-transaction.py:173-265 | an FRP enrolment under a pair journal, cut anywhere behind its record and rolled back, gives back the manifest byte for byte, so pair recovery is unaffected |
| `RoutePaths.ValidatePathSet` | modules/smite-frp-xhttp-paths.py:146-157 | accepts exactly the sets of valid paths that are pairwise apart and clear of the sidecar's |
| `RoutePaths.StripsExactly` | modules/smite-frp-xhttp-paths.py:154-157 | a location of the sidecar is compared without its last slashes, and with all the rest of it |
| `RoutePaths.UniqueOwnerExactly` | modules/smite-frp-xhttp-paths.py:228-234 | these are exactly the sets in which every request has at most one owner |
| `RoutePaths.OverlapIsSharing` | modules/smite-frp-xhttp-paths.py:54-55 | two paths overlap if and only if some request falls under both |
| `RoutePaths.ValidExactly` | modules/smite-frp-xhttp-paths.py:43-52 | a path is valid for a port exactly if it has at most 128 characters and is a row of words of letters, digits, underscores and hyphens, each behind one slash, the first of them not reserved and, if it is a number, the port |
| `RouteTable.RenderTable` | modules/smite-frp-xhttp-paths.py:227-235 | writes the table of the routes in order |
| `RouteTable.ParseBlocks` | modules/smite-frp-rc2-guided-publish.py:153-189 | accepts exactly the texts the renderer writes for ascending routes, and answers those routes |
| `RouteTable.MatchBlock` | modules/smite-frp-rc2-guided-publish.py:144-184 | a block is matched exactly if it is the template's for one path and one port |
| `RouteTable.MatchLocation` | modules/smite-frp-rc2-guided-publish.py:162-184 | a location is matched exactly if its section is word for word the template's |
| `RouteTable.ParseOfRender` | modules/smite-frp-xhttp-paths.py:209-235 | for every set of routes the renderer can be given, parsing what was rendered gives back the routes |
| `RouteTable.RenderIsInjective` | modules/smite-frp-rc2-guided-publish.py:153-189 | different tables have different texts |
| `RouteServing.BlockServes` | modules/smite-frp-xhttp-paths.py:228-234 | a location line of a rendered block serves a request exactly if the request falls under the path of the block; the line after it passes the request to the block's port |
| `RouteServing.TableServes` | modules/smite-frp-xhttp-paths.py:217-235 | some line of an accepted table serves a request exactly if some path owns it, and every line that serves it passes it to that one path's port |
| `RouteServing.TableIsTold` | modules/smite-frp-xhttp-paths.py:217-235 | the renderer's own wording is one to which the two theorems above apply |
| `GuidedPublish.ApplyLocked` | modules/smite-frp-rc2-guided-publish.py:298-337 | journal, table, probes, commit; or an immediate restore |
| `GuidedPublish.RollbackLocked` | modules/smite-frp-rc2-guided-publish.py:347-355 | only from a committed record with its backup |
| `GuidedPublish.InspectLocked` | modules/smite-frp-rc2-guided-publish.py:207-236 | the comparison of the live routes with the applied ones |
| `GuidedOutcomes.InspectsExactly` | modules/smite-frp-rc2-guided-publish.py:207-236 | an inspection says "to be published" exactly if the host is ready, the port is saved, and the rendered table is the live one with exactly this block inserted; it says "published" exactly if the live table is the rendered one and has the block |
| `GuidedOutcomes.PublishesExactlyWhen` | modules/smite-frp-rc2-guided-publish.py:298-337 | a publication succeeds exactly if it is to be made, there is no journal for the port and the first probe passes: then the new text and a committed record are on disk; with only the second probe the old text and a rolled back record; with neither the old text and a prepared record, and manual recovery is asked for; refused otherwise, with nothing written |
| `GuidedOutcomes.RollsBackExactlyWhen` | modules/smite-frp-rc2-guided-publish.py:287-355 | a rollback writes exactly if the host is ready and a committed record explains the text; the recorded text is put back, and the record is marked exactly if the probe passes |
| `GuidedRuns.AcceptedInsertsOne` | modules/smite-frp-rc2-guided-publish.py:221-236 | an accepted publication inserts exactly one block, its own, in port order |
| `GuidedRuns.InsertedText` | modules/smite-frp-rc2-guided-publish.py:298-323 | the new text is the old one with exactly that block's text inserted |
| `GuidedRuns.SameTextOnceSameRoutes` | modules/smite-frp-rc2-guided-publish.py:235-235 | the last comparison of an inspection can never be the one that fails |
| `GuidedRuns.RollbackOnlyRemoves` | modules/smite-frp-rc2-guided-publish.py:287-296 | a rollback, wherever cut, removes exactly its own port's block or changes nothing |
| `GuidedRuns.OtherRoutesStay` | modules/smite-frp-rc2-guided-publish.py:298-355 | in every run, no call loses or adds a route of another port |
| `GuidedRuns.ApplyThenRollback` | modules/smite-frp-rc2-guided-publish.py:298-355 | a publication that succeeded is taken back to the old text |
| `EdgeExecutor.ApplyLocked` | modules/smite-rc2-frp-wss-edge-executor.py:265-320 | journal, vhost, map, then the committed record |
| `EdgeExecutor.WithdrawLocked` | modules/smite-rc2-frp-wss-edge-executor.py:238-262 | map, vhost, and only then the journal |
| `EdgeExecutor.UndoLocked` | modules/smite-rc2-frp-wss-edge-executor.py:338-361 | rollback for committed journals, recover for others |
| `EdgeOutcomes.ActivatesExactlyWhen` | modules/smite-rc2-frp-wss-edge-executor.py:265-320 | the exact condition of every answer of an activation, and the whole state of map, vhost and journal after each of them |
| `EdgeOutcomes.UndoesExactlyWhen` | modules/smite-rc2-frp-wss-edge-executor.py:187-361 | a rollback or a recovery writes exactly if there is a record of its kind that explains map and vhost; then the originals are back and the journal is gone exactly if the services come up |
| `EdgeRuns.NoDanglingMap` | modules/smite-rc2-frp-wss-edge-executor.py:238-320 | in every run, cut anywhere: a changed map refers to a vhost that is there, and without a journal both files are originals |
| `EdgeRuns.UndoneExactlyWhen` | modules/smite-rc2-frp-wss-edge-executor.py:187-205 | an operation brings everything back exactly if there is a journal of its kind and no half-made swap |
| `EdgeRuns.StuckExactlyWhen` | modules/smite-rc2-frp-wss-edge-executor.py:187-205 | after every run: every call whatever is refused, and every later run changes nothing, exactly if the directory is there without a journal or with a half-made swap |
| `EdgeRuns.CutActivationIsStuck` | modules/smite-rc2-frp-wss-edge-executor.py:265-320 | of the seven steps of an activation, exactly the cuts after the first, the second and the sixth lead there; after the first two both files are the originals |
| `EdgeRuns.CutUndoingIsStuck` | modules/smite-rc2-frp-wss-edge-executor.py:238-262 | an undoing cut: exactly between deleting the journal and removing the directory; both files are the originals |
| `EdgeRuns.SwapCutIsStuck` | modules/smite-rc2-frp-wss-edge-executor.py:221-227 | an activation cut in the middle of the swap leaves everything live, and every call refused |
| `IncludeTransaction.CandidateIsReversible` | modules/smite-frp-rc2-xhttp-include-transaction.py:111-116 | the change is not accepted twice, and taking the directive out gives back the vhost |
| `IncludeTransaction.ApplyLocked` | modules/smite-frp-rc2-xhttp-include-transaction.py:242-270 | record, table, vhost, commit; or an immediate rollback |
| `IncludeTransaction.RollbackLocked` | modules/smite-frp-rc2-xhttp-include-transaction.py:289-299 | only from an open record whose backup explains it |
| `IncludeOutcomes.CandidateExactly` | modules/smite-frp-rc2-xhttp-include-transaction.py:111-116 | a text is the candidate for another exactly if it is that text with the directive in front of its one root location, and neither directive nor another include of the table was in it |
| `IncludeOutcomes.AppliesExactlyWhen` | modules/smite-frp-rc2-xhttp-include-transaction.py:242-270 | the exact condition of every answer, and vhost, table, backup and record after each of them |
| `IncludeOutcomes.RollsBackExactlyWhen` | modules/smite-frp-rc2-xhttp-include-transaction.py:222-299 | a rollback writes exactly if the host is ready and an open record explains both files; what is then on disk, whether or not the probe passes |
| `IncludeRuns.NoDanglingInclude` | modules/smite-frp-rc2-xhttp-include-transaction.py:222-270 | in every run, cut anywhere: a vhost with the directive stands beside the table |
| `IncludeRuns.RolledBackExactlyWhen` | modules/smite-frp-rc2-xhttp-include-transaction.py:222-239 | a rollback succeeds exactly with an open record, and both files are originals then |
| `PanelUi.ApplyLocked` | modules/smite-panel-ui.py:164-178 | backup in the journal before any write, then the publication |
| `PanelUi.RollbackLocked` | modules/smite-panel-ui.py:154-163 | the backup published over what is there |
| `PanelUi.PublishLocked` | modules/smite-panel-ui.py:62-79 | assets as listed, the index last, nothing on a collision or a changed index |
| `PanelRuns.UpdateOutcome` | modules/smite-panel-ui.py:152-178 | for every panel, every answer of an update with files and journal after it: interrupted, collided, too large, already current, or published and marked |
| `PanelRuns.RollbackOutcome` | modules/smite-panel-ui.py:152-163 | for every panel, every answer of a rollback with files and journal after it |
| `PanelRuns.AssetsAreMonotone` | modules/smite-panel-ui.py:62-79 | in every run, at every cut, no asset changes or disappears, and the target's index stands only with all its assets |
| `PanelRuns.RollbackSucceedsExactlyWhen` | modules/smite-panel-ui.py:152-163 | a rollback succeeds exactly if the journal is of this container and the files fit the limit; it never fails on a collision or the recorded index |
| `PanelRuns.ApplySucceedsExactlyWhen` | modules/smite-panel-ui.py:164-178 | for every panel: an update succeeds exactly if what is there is within the limit and either the target stands, or nothing is interrupted, nothing collides and both together are within the limit; then the files are the joined ones |
| `PanelRuns.BothRefusedExactlyWhen` | modules/smite-panel-ui.py:152-178 | for every panel: after every run of calls nothing has changed and both operations are refused, exactly if the files exceed the limit, or an update is interrupted, its target is not there, and its backup is another container's, too large, or not what the files came from |
| `PanelRuns.OversizedUpdateIsStuck` | modules/smite-panel-ui.py:62-79 | an update whose joined files exceed the limit, with no collision: it writes all of them, fails, and from then on both operations are refused for good |
| `PanelRuns.ReplacedContainerIsStuck` | modules/smite-panel-ui.py:154-172 | for every cut of an update behind its record, and any next container without the target, every later run of calls is refused |
| `AuthOverlay.PatchIsIdempotentAndReversible` | modules/smite-panel-auth-overlay.py:34-59 | every text accepted and changed: a second time nothing changes, and the reverse replacements recover the text |
| `AuthOverlay.PatchesExactlyWhen` | modules/smite-panel-auth-overlay.py:34-59 | a text is changed exactly if it parses, each of the words occurs as often as the layout says, and the changed text parses; it is left exactly if it parses and all is there already; the changed text is the old one rewritten, has all that a patched text has, and can be rewritten back |
| `AuthOverlay.AllEdits` | modules/smite-panel-auth-overlay.py:54-57 | after k replacements exactly the first k new words stand, and they can be taken back |
| `TextEdits.CountOnce` | modules/smite-panel-auth-overlay.py:36-37 | counting from the left gives one exactly if the pattern occurs in one place |
| `TextEdits.ReplaceAndBack` | modules/smite-panel-auth-overlay.py:54-57 | a single occurrence is replaced where it stands, and replacing back recovers the text |
| `Wordings.TableIsValid` | modules/smite-frp-xhttp-paths.py:217-234 | the renderer's own wording is one that the strict parser's theorems apply to |
| `Wordings.IncludeIsValid` | modules/smite-frp-rc2-xhttp-include-transaction.py:37-39 | the directive and the line before which it is written cannot overlap themselves or each other |
| `Wordings.OverlayIsValid` | modules/smite-panel-auth-overlay.py:18-31 | none of the twelve texts of the guard can overlap itself or another, but for the guarded anchor, which contains anchor and marker once |
| `Worlds.SomeWorldIsValid` | modules/smite-managed-backhaul-transaction.py:546-562 | a codec in which no text is the beginning of another has every property supposed, with room for every journal and seal |

## Left out

- Ownership, links, inodes, open flags and modes of files, and races between a check and the write behind it: one cooperating writer under the lock is modelled. The one-level lab keeps owner and mode, the engines keep the modes of the Compose file and the registry.
- Docker, Nginx, systemctl, curl, `ss`, signed probes, Cosign and environment checks: parameters that may answer anything; of directories only the journals' and, for the two engines, those of the registry and of the binaries are modelled.
- Torn writes inside one new file: writing a file is one step. A crash while a journal is being written is modelled between its files.
- The admission of the disposable labs, the lock files, and the fault points: a fault point that stands for a power loss is a fuse; those that raise are parameters.
- JSON syntax, size limits and identity fields of the sidecar's documents: a state file is missing, unreadable, or a document; the journal of the nested lab is checked row by row.
- `Host.World.Roomy`: that journals and seals of the retained transaction stay below the limit at which they are read back is supposed of the codec, from the sizes of their fields; `Worlds.SomeWorldIsValid` has one that does.
- `RouteTable.Wording`, `IncludeTransaction.Words` and `AuthOverlay.Words`: the theorems hold for any wording with the properties in `Valid`; bytes that are not UTF-8 are not modelled.
- `SidecarRecovery.Lab`: that the inserted line changes the hash of the backend file is assumed; the one-level lab assumes nothing of the kind and states the condition.
- Deleting the legacy journal of an engine follows an arbitrary order and has no seal: a rollback cut there refuses afterwards. `EngineRuns.CutRollbackStaysBetween` stops before that point.
- A guided publication left prepared has no automatic recovery; its rollback accepts only committed records.
- `RetainedTwoHosts.Rehearse`: proofs of the two nodes are given, not computed; an exception inside a call is a fuse that ends the call, after which the coordinator goes on.
- Reading the saved profile plan and the registry of paths, tunnel states and `get`/`set` of the FRP paths; the parsing of sidecar locations.
- Archive unpacking, binary formats, Python syntax, general JSON, TOML and YAML, shell renderers, menus, prompts and printed reports.
- Read-only admission, readiness and audit reports, the security monitor, token pairing, the spec validator, the live and docker trials, the fixed-port publisher and the enrollment of RC.2: the same patterns or single long conjunctions.
