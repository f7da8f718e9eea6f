/** A disk that changes one durable step at a time, and whose power can fail
    between any two steps.  Every protocol of the repository is a method that
    drives such a disk, specified by the steps it intends to take. */
module Durable {

  datatype Option<+T> = None | Some(value: T)

  /** Why an operation refuses; the names are those of the source's own messages. */
  datatype Reason =
    | PairPrivateFileUntrusted | PairReceiptUntrusted | EngineSnapshotUntrusted
    | EngineRoleUntrusted | BackhaulBinaryDigestUntrusted | BackhaulEnrolledOrUnreviewed
    | FrpEnrollmentRequired | FrpReceiptUntrusted | FrpReceiptManifestMismatch
    | FrpReceiptBinaryMismatch | EngineCandidateOversized | EngineCandidateNotChanged
    | PairBaselineUntrusted | PairReceiptOversized
    | UnexpectedDirectory | OtherEngineRecoveryJournalPending | PairInterruptedTransactionRequiresRecovery
    | PairConcurrentBaselineChange | PairFinalBytesUnverified | PairRecoveryJournalUntrusted | PairRecoveryBackupDrift
    | PairRecoverySemanticDrift | PairRecoveryExternalDrift | PairCleanupSealUntrusted
    | PairCleanupBaselineDrift | PairCleanupSemanticDrift | PairRecoveryNotProven | PairCleanupJournalUntrusted
    | PairCleanupJournalDrift
    | RetainedJournalChecksumInvalid | RetainedJournalUntrusted | RetainedOperationInvalid
    | RetainedExpectedBaselineInvalid | RetainedExpectedWitnessRequired | CompetingRecoveryRequired
    | RetainedRuntimeProofRequired | RetainedPreflightWitnessChanged | RetainedPreflightJournalAppeared
    | RetainedJournalMissing | RetainedPreflightPairChanged | RetainedPairDrift
    | RetainedFinalProofFailed | RetainedRuntimeOrPairDrift | RetainedCleanupSealUntrusted
    | RetainedCleanupBaselineDrift | RetainedCleanupSemanticDrift | RetainedCleanupJournalDrift
    | RetainedCleanupPostcheckFailed | RetainedCleanupRequiresRestored | RetainedTerminalCleanupRequired
    | RetainedRecoveryRequired | RetainedCleanupRecoveryRequired
    | RetainedCommitUntrusted | RetainedCommittedPairDrift
    | TwoHostPriorSyntheticProofFailed | TwoHostPendingRecovery | TwoHostPreflightUnverified
    | TwoHostPreflightPairChanged | TwoHostPreflightWitnessChanged | TwoHostRollbackManualReviewRequired
    | TwoHostAbortedExactRollbackProved
    | SidecarResourceDrift | SidecarUnexpectedBackup | SidecarBackupMissing | SidecarBackupMismatch
    | SidecarJournalUntrusted | SidecarNotAllRestored | SidecarTransactionExists | SidecarTargetsUnready
    | SidecarIntentUnknown | SidecarServiceUnknown | SidecarFileJournalUnverifiable | SidecarFileJournalMissing
    | SidecarRecoveryIncomplete | SidecarPartialInstallation | SidecarInjectedFailure
    | UnifiedJournalUntrusted | UnifiedServiceUnknown | UnifiedResourceDrift | UnifiedBackupUntrusted
    | UnifiedRecoveryIncomplete | UnifiedCandidateRefused | UnifiedPartialInstallation | UnifiedTargetsUnready
    | UnifiedInjectedFailure
    | EngineRecoveryRequired | EngineCandidateUntrusted | EngineCoreUnready | EngineDeclarationDrift
    | EngineJournalUntrusted | EngineBackupTampered | EngineIdentityChanged | EngineComposeModified
    | EngineRegistryModified | EngineBinaryModified | EngineModesUnrecognized | EngineDirectoryUntrusted
    | RoutePathInvalid | RoutePathsOverlap | RouteOverlapsSidecar
    | RouteHeaderInvalid | NonCanonicalRoute | RouteUpstreamInvalid | RoutePortInvalid | RouteTemplateDrift
    | RouteSplitUpstream | DuplicateRoutePort | RouteOrderDrift
    | GatewayUnready | SelectedPortNotSaved | SelectedTunnelNotApplied | TunnelPathMismatch | PublishedRouteDrift
    | ExtraUnapprovedPorts | RenderedRouteDrift | RouteAlreadyPublished | PreviousPublishTransaction
    | CriticalSnippetExternalEdit | GatewayProbeFailed | PublishFailedRolledBack | CriticalManualRouteRecovery
    | InvalidPublishJournal | BackupIntegrity | RollbackState
    | EdgeJournalUnresolved | EdgeSourceDrift | EdgeAltExists | EdgeServiceFailed | EdgeMapDrift | EdgeAltDrift
    | EdgeAltMissing | EdgeRolledBack | EdgeManualRecovery | EdgeWrongOperation
    | IncludeLayoutUnknown | IncludeAlreadyPresent | IncludeTransactionExists | IncludeSnippetExists
    | CriticalBackendModified | IncludeRolledBack | IncludeRecordInvalid | IncludeBackupDrift
    | UiChanged | UiAssetCollision | UiFileSet | UiVerification | UiNotAdmitted | UiInterrupted | UiNoBackup | UiDiffers
    | OverlaySyntax | OverlayPartial | OverlayAmbiguous | OverlayUnknownRoutes | OverlayUnknownImport

  /** An operation stops early either because it refuses, or because the power is gone. */
  datatype Failure = Hold(why: Reason) | PowerLoss

  datatype Result<+T> = Ok(value: T) | Fail(failure: Failure) {
    predicate IsFailure() {
      Fail?
    }

    function PropagateFailure<U>(): Result<U>
      requires Fail?
    {
      Fail(failure)
    }

    function Extract(): T
      requires Ok?
    {
      value
    }
  }

  /** A step or a check that yields no value. */
  datatype Check = Pass | Stop(failure: Failure) {
    predicate IsFailure() {
      Stop?
    }

    function PropagateFailure<U>(): Result<U>
      requires Stop?
    {
      Fail(failure)
    }
  }

  /** What an operation does when the power stays on: its durable steps in order, then its answer. */
  datatype Attempt<+Op, +R> = Attempt(steps: seq<Op>, end: Result<R>)

  function Refuse<Op, R>(failure: Failure): Attempt<Op, R> {
    Attempt([], Fail(failure))
  }

  /** Some steps first, then another attempt. */
  function Then<Op, R>(steps: seq<Op>, rest: Attempt<Op, R>): Attempt<Op, R> {
    Attempt(steps + rest.steps, rest.end)
  }

  function Replay<S, Op>(act: (S, Op) -> S, from: S, steps: seq<Op>): S {
    if steps == [] then from
    else act(Replay(act, from, steps[..|steps| - 1]), steps[|steps| - 1])
  }

  /** The part of `steps` that reaches the disk when only `fuse` more steps can. */
  function UpTo<Op>(steps: seq<Op>, fuse: nat): seq<Op> {
    if fuse < |steps| then steps[..fuse] else steps
  }

  lemma ReplayNext<S, Op>(act: (S, Op) -> S, from: S, steps: seq<Op>, k: nat)
    requires k < |steps|
    ensures Replay(act, from, steps[..k + 1]) == act(Replay(act, from, steps[..k]), steps[k])
  {
    assert steps[..k + 1][..k] == steps[..k];
  }

  lemma {:induction false} ReplayJoin<S, Op>(act: (S, Op) -> S, from: S, a: seq<Op>, b: seq<Op>)
    ensures Replay(act, from, a + b) == Replay(act, Replay(act, from, a), b)
    decreases |b|
  {
    if b == [] {
      assert a + b == a;
    } else {
      var k := |b| - 1;
      ReplayJoin(act, from, a, b[..k]);
      assert (a + b)[..|a| + k] == a + b[..k];
    }
  }

  lemma ReplayFirst<S, Op>(act: (S, Op) -> S, from: S, steps: seq<Op>)
    requires steps != []
    ensures Replay(act, from, steps) == Replay(act, act(from, steps[0]), steps[1..])
  {
    ReplayJoin(act, from, [steps[0]], steps[1..]);
    assert [steps[0]] + steps[1..] == steps;
    assert [steps[0]][..0] == [];
  }

  lemma NoSteps<S, Op>(act: (S, Op) -> S, from: S, fuse: nat)
    ensures Replay(act, from, UpTo([], fuse)) == from && Replay(act, from, []) == from
  {
  }

  lemma ReplayOne<S, Op>(act: (S, Op) -> S, from: S, op: Op)
    ensures Replay(act, from, [op]) == act(from, op)
  {
    assert [op][..0] == [];
  }

  /** A crash during `Then` is a crash during its first steps, or during the rest. */
  lemma ThenRan<S, Op, R>(act: (S, Op) -> S, from: S, fuse: nat, steps: seq<Op>, rest: Attempt<Op, R>)
    ensures fuse < |steps| ==> UpTo(Then(steps, rest).steps, fuse) == UpTo(steps, fuse)
    ensures fuse >= |steps| ==>
              && UpTo(Then(steps, rest).steps, fuse) == steps + UpTo(rest.steps, fuse - |steps|)
              && Replay(act, from, UpTo(Then(steps, rest).steps, fuse)) ==
                 Replay(act, Replay(act, from, steps), UpTo(rest.steps, fuse - |steps|))
  {
    if fuse >= |steps| {
      ReplayJoin(act, from, steps, UpTo(rest.steps, fuse - |steps|));
    }
  }

  /** A walk names, for each step, the stage the step leads to. */
  type Walk<Op, T> = seq<(Op, T)>

  function Ops<Op, T>(walk: Walk<Op, T>): seq<Op> {
    seq(|walk|, i requires 0 <= i < |walk| => walk[i].0)
  }

  function Where<Op, T>(from: T, walk: Walk<Op, T>, k: nat): T
    requires k <= |walk|
  {
    if k == 0 then from else walk[k - 1].1
  }

  /** Each step of the walk takes the disk of one stage to the disk of the next. */
  ghost predicate Leads<S, Op, T>(act: (S, Op) -> S, image: T -> S, from: T, walk: Walk<Op, T>) {
    forall i :: 0 <= i < |walk| ==> act(image(Where(from, walk, i)), walk[i].0) == image(walk[i].1)
  }

  /** A crash during a walk leaves the disk of one of its stages. */
  lemma {:induction false} WalkReaches<S, Op, T>(act: (S, Op) -> S, image: T -> S, from: T, walk: Walk<Op, T>, k: nat)
    requires Leads(act, image, from, walk) && k <= |walk|
    ensures Replay(act, image(from), Ops(walk)[..k]) == image(Where(from, walk, k))
  {
    if k > 0 {
      WalkReaches(act, image, from, walk, k - 1);
      ReplayNext(act, image(from), Ops(walk), k - 1);
    }
  }

  lemma {:induction false} WalkJoin<S, Op, T>(act: (S, Op) -> S, image: T -> S, from: T, a: Walk<Op, T>, b: Walk<Op, T>)
    requires Leads(act, image, from, a) && Leads(act, image, Where(from, a, |a|), b)
    ensures Leads(act, image, from, a + b) && Ops(a + b) == Ops(a) + Ops(b)
    ensures Where(from, a + b, |a + b|) == Where(Where(from, a, |a|), b, |b|)
  {
    forall i | 0 <= i < |a + b|
      ensures act(image(Where(from, a + b, i)), (a + b)[i].0) == image((a + b)[i].1)
    {
      if i < |a| {
        assert Where(from, a + b, i) == Where(from, a, i);
      } else {
        assert Where(from, a + b, i) == Where(Where(from, a, |a|), b, i - |a|);
      }
    }
  }

  /** A protocol's steps, the disk of each of its stages, and which stages are possible. */
  datatype Course<!S, !Op, !T> = Course(act: (S, Op) -> S, image: T -> S, belongs: T -> bool)

  /** The steps lead from stage to stage, and every stage that is reached is possible. */
  ghost predicate Walks<S, Op, T>(c: Course<S, Op, T>, from: T, walk: Walk<Op, T>) {
    Leads(c.act, c.image, from, walk) && forall i :: 0 <= i < |walk| ==> c.belongs(walk[i].1)
  }

  lemma NoWalk<S, Op, T>(c: Course<S, Op, T>, from: T)
    ensures Walks(c, from, [])
  {
  }

  lemma WalksJoin<S, Op, T>(c: Course<S, Op, T>, from: T, a: Walk<Op, T>, b: Walk<Op, T>)
    requires Walks(c, from, a) && Walks(c, Where(from, a, |a|), b)
    ensures Walks(c, from, a + b) && Ops(a + b) == Ops(a) + Ops(b)
    ensures Where(from, a + b, |a + b|) == Where(Where(from, a, |a|), b, |b|)
  {
    hide Leads;
    WalkJoin(c.act, c.image, from, a, b);
  }

  /** Wherever a walk is cut, the disk is that of a possible stage. */
  lemma WalksEnd<S, Op, T>(c: Course<S, Op, T>, from: T, walk: Walk<Op, T>, k: nat)
    requires Walks(c, from, walk) && c.belongs(from) && k <= |walk|
    ensures Replay(c.act, c.image(from), Ops(walk)[..k]) == c.image(Where(from, walk, k))
    ensures c.belongs(Where(from, walk, k))
  {
    hide Leads;
    WalkReaches(c.act, c.image, from, walk, k);
  }

  class Disk<S, Op> {
    const act: (S, Op) -> S
    var now: S
    /** How many more durable steps the power supply survives. */
    var fuse: nat
    /** The operation under way: where it started, what it intends, how far it got. */
    ghost var from: S
    ghost var plan: seq<Op>
    ghost var at: nat
    ghost var budget: nat

    ghost predicate Valid()
      reads this
    {
      && at <= |plan|
      && at + fuse == budget
      && now == Replay(act, from, plan[..at])
    }

    constructor (act: (S, Op) -> S, now: S, fuse: nat)
      ensures this.act == act && this.now == now && this.fuse == fuse
      ensures Valid() && plan == []
    {
      this.act, this.now, this.fuse := act, now, fuse;
      from, plan, at, budget := now, [], 0, fuse;
    }

    ghost method Begin(steps: seq<Op>)
      modifies this`from, this`plan, this`at, this`budget
      ensures Valid() && from == now && plan == steps && at == 0 && budget == fuse
    {
      from, plan, at, budget := now, steps, 0, fuse;
      assert steps[..0] == [];
    }

    /** The planned operation ended, or the power did; the disk holds what was reached. */
    ghost predicate Landed()
      reads this
    {
      && now == Replay(act, from, UpTo(plan, budget))
      && fuse == budget - |UpTo(plan, budget)|
    }

    lemma Finished()
      requires Valid() && at == |plan|
      ensures Landed() && budget >= |plan|
    {
      assert plan[..at] == plan;
    }

    /** One durable step.  Only the next planned step can be taken. */
    method Do(op: Op) returns (r: Check)
      requires Valid() && at < |plan| && op == plan[at]
      modifies this`now, this`fuse, this`at
      ensures r.Pass? ==> Valid() && now == act(old(now), op) && at == old(at) + 1 && fuse == old(fuse) - 1
      ensures r.Stop? ==> r == Stop(PowerLoss) && Landed() && budget < |plan|
    {
      if fuse == 0 {
        return Stop(PowerLoss);
      }
      ReplayNext(act, from, plan, at);
      now, fuse, at := act(now, op), fuse - 1, at + 1;
      return Pass;
    }
  }

  /** An operation that found `before` on the disk, with `fuse` steps of power left, behaved
      as `a` says, or as far into it as the power lasted. */
  ghost predicate Ran<S, Op, R>(d: Disk<S, Op>, before: S, fuse: nat, a: Attempt<Op, R>, r: Result<R>)
    reads d
  {
    && d.now == Replay(d.act, before, UpTo(a.steps, fuse))
    && d.fuse == fuse - |UpTo(a.steps, fuse)|
    && r == if fuse < |a.steps| then Fail(PowerLoss) else a.end
  }
}
