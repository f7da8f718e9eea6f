/** Every run of the sidecar lab: any sequence of deployments and rollbacks, each cut after any
    number of durable steps, including inside the rollback that a failed deployment starts. */
module SidecarRuns {
  import opened Durable
  import opened OwnedFiles
  import opened SidecarRecovery
  import opened SidecarTransaction
  import H = Host

  /** How far the transaction is: nothing, the intent alone, or the file journal with the first
      `applied` files changed and the services in `phase`. */
  datatype Stage = Idle | Intended | Filed(backup: bool, applied: nat, phase: Phase, edits: Edits)

  /** A box as bootstrapped: no transaction, the services at their baseline. */
  predicate Fresh(origin: Box, role: Role) {
    && origin.intent.Missing? && origin.journal.Missing? && origin.original.None? && !origin.older
    && origin.runtime == Holds(Runtime(role, Baseline))
  }

  ghost predicate Planned(lab: Lab, origin: Box, role: Role, edits: Edits) {
    && |edits| == |Owned(role)|
    && (forall i :: 0 <= i < |edits| ==> edits[i].place == Owned(role)[i])
    && (forall i :: 0 <= i < |edits| ==> (edits[i].before.Some? <==> IsEdited(edits[i].place)))
    && (forall i :: 0 <= i < |edits| && edits[i].before.Some? ==>
        lab.sha(edits[i].after) != lab.sha(edits[i].before.value))
    && StartFrom(origin.files, edits)
  }

  ghost predicate Belongs(lab: Lab, origin: Box, role: Role, stage: Stage) {
    match stage
    case Idle => true
    case Intended => true
    case Filed(backup, applied, phase, edits) =>
      && Planned(lab, origin, role, edits) && applied <= |edits|
      && (role == Kh ==> !backup)
      && (role == Ir && applied > 0 ==> backup)
      && (phase != Baseline ==> applied == |edits|)
  }

  function Image(lab: Lab, origin: Box, role: Role, stage: Stage): Box {
    match stage
    case Idle => origin
    case Intended => origin.(intent := Holds(role))
    case Filed(backup, applied, phase, edits) =>
      Box(if applied <= |edits| then Patched(origin.files, edits, applied) else origin.files,
          Holds(role), Holds(Runtime(role, phase)), Holds(SheetOf(lab, role, edits)),
          if backup && edits != [] then edits[|edits| - 1].before else None, false)
  }

  lemma PreparedIsPlanned(lab: Lab, origin: Box, payload: map<Place, Bytes>, role: Role)
    requires lab.Valid()
    ensures var prepared := Prepare(lab, origin, payload, role);
            prepared.Ok? ==> Planned(lab, origin, role, prepared.value)
  {
    var prepared := Prepare(lab, origin, payload, role);
    if prepared.Ok? {
      forall i | 0 <= i < |prepared.value|
        ensures prepared.value[i] == PrepareOne(lab, origin, payload, Owned(role)[i]).value
      {
        assert PrepareOne(lab, origin, payload, Owned(role)[i]).Some?;
      }
      OwnedAreDistinct(role);
    }
  }

  lemma OwnedAreDistinct(role: Role)
    ensures forall i, j :: 0 <= i < j < |Owned(role)| ==> Owned(role)[i] != Owned(role)[j]
    ensures forall i :: 0 <= i < |Owned(role)| ==> (IsEdited(Owned(role)[i]) <==> role == Ir && i == |Owned(role)| - 1)
  {
  }

  // ---------------------------------------------------------------- what the evidence says on each stage

  function Marks(n: nat, applied: nat): seq<bool> {
    seq(n, i => i < applied)
  }

  function EvidenceOf(lab: Lab, role: Role, stage: Stage): Evidence
    requires stage.Filed? && stage.edits != []
  {
    Evidence(SheetOf(lab, role, stage.edits), Marks(|stage.edits|, stage.applied),
             if stage.backup then stage.edits[|stage.edits| - 1].before else None)
  }

  lemma SheetIsTrusted(lab: Lab, origin: Box, role: Role, edits: Edits)
    requires lab.Valid() && Planned(lab, origin, role, edits)
    ensures SheetTrusted(SheetOf(lab, role, edits))
  {
    hide StartFrom;
    var sheet := SheetOf(lab, role, edits);
    forall i | 0 <= i < |sheet.rows| ensures RowTrusted(sheet.rows[i], Owned(role)[i]) {
      assert H.IsSha(lab.sha(edits[i].after));
      assert edits[i].before.Some? ==> H.IsSha(lab.sha(edits[i].before.value));
      assert edits[i].place == Owned(role)[i] && sheet.rows[i] == RowOf(lab, edits[i]);
    }
  }

  lemma {:induction false} PrefixIsObserved(lab: Lab, origin: Box, role: Role, edits: Edits, applied: nat)
    requires lab.Valid() && Planned(lab, origin, role, edits) && applied <= |edits|
    ensures Observed(lab, Patched(origin.files, edits, applied), SheetOf(lab, role, edits).rows) ==
            Ok(Marks(|edits|, applied))
  {
    var files, rows := Patched(origin.files, edits, applied), SheetOf(lab, role, edits).rows;
    forall i | 0 <= i < |rows| ensures Seen(lab, files, rows[i]) == Some(i < applied) {
      PatchedAt(origin.files, edits, applied, i);
    }
    var found, marks := Observed(lab, files, rows).value, Marks(|edits|, applied);
    assert |found| == |marks|;
    assert forall i :: 0 <= i < |marks| ==> found[i] == Seen(lab, files, rows[i]).value == marks[i];
    assert found == marks;
  }

  lemma {:induction false} StageValidates(lab: Lab, origin: Box, role: Role, stage: Stage)
    requires lab.Valid() && stage.Filed? && Belongs(lab, origin, role, stage)
    ensures stage.edits != []
    ensures Validate(lab, Image(lab, origin, role, stage)) == Ok(EvidenceOf(lab, role, stage))
  {
    hide Observed, SheetTrusted, StartFrom;
    SheetIsTrusted(lab, origin, role, stage.edits);
    PrefixIsObserved(lab, origin, role, stage.edits, stage.applied);
    OwnedAreDistinct(role);
    var rows, last := SheetOf(lab, role, stage.edits).rows, |stage.edits| - 1;
    if stage.applied > 0 {
      assert Marks(|stage.edits|, stage.applied)[0];
    }
    if role == Ir && stage.backup {
      assert rows[last] in rows && rows[last].edit
          && rows[last].before == Some(lab.sha(stage.edits[last].before.value));
    }
  }

  // ---------------------------------------------------------------- the walks

  function UndoOf(change: Change<Place, Bytes>): Op {
    if change.before.Some? then WriteFile(change.place, change.before.value) else RemoveFile(change.place)
  }

  function FilesBack(backup: bool, edits: Edits, k: nat): Walk<Op, Stage>
    requires k <= |edits|
  {
    if k == 0 then []
    else [(UndoOf(edits[k - 1]), Filed(backup, k - 1, Baseline, edits))] + FilesBack(backup, edits, k - 1)
  }

  function ServicesBack(role: Role, stage: Stage): Walk<Op, Stage>
    requires stage.Filed?
  {
    if stage.phase == Baseline then []
    else [(SaveRuntime(Runtime(role, Baseline)), stage.(phase := Baseline))]
  }

  function Closing(role: Role, backup: bool, edits: Edits): Walk<Op, Stage> {
    (if backup then [(DropOriginal, Filed(false, 0, Baseline, edits))] else []) + [(DropJournal, Intended)]
  }

  function RevertWalk(role: Role, stage: Stage): Walk<Op, Stage>
    requires stage.Filed? ==> stage.applied <= |stage.edits|
  {
    match stage
    case Idle => []
    case Intended => [(DropIntent, Idle)]
    case Filed(backup, applied, _, edits) =>
      ServicesBack(role, stage) + (FilesBack(backup, edits, applied) + Closing(role, backup, edits)) +
          [(DropIntent, Idle)]
  }

  /** The walk leads from this stage over stages of the transaction. */
  ghost function Way(lab: Lab, origin: Box, role: Role): Course<Box, Op, Stage> {
    Course(Act, (s: Stage) => Image(lab, origin, role, s), (s: Stage) => Belongs(lab, origin, role, s))
  }

  lemma UndoneActs(lab: Lab, origin: Box, role: Role, stage: Stage)
    requires stage.Filed? && stage.phase == Baseline && stage.applied > 0 && Belongs(lab, origin, role, stage)
    ensures Act(Image(lab, origin, role, stage), UndoOf(stage.edits[stage.applied - 1])) ==
            Image(lab, origin, role, stage.(applied := stage.applied - 1))
    ensures Belongs(lab, origin, role, stage.(applied := stage.applied - 1))
  {
    hide SheetOf;
    UndoLast(origin.files, stage.edits, stage.applied);
  }

  lemma {:induction false} FilesBackWalks(lab: Lab, origin: Box, role: Role, stage: Stage)
    requires stage.Filed? && stage.phase == Baseline && Belongs(lab, origin, role, stage)
    ensures var walk := FilesBack(stage.backup, stage.edits, stage.applied);
            && Walks(Way(lab, origin, role), stage, walk)
            && Where(stage, walk, |walk|) == stage.(applied := 0)
    decreases stage.applied
  {
    hide Belongs, Act, Image;
    var k, edits := stage.applied, stage.edits;
    assert k <= |edits| by { BaselineBelongs(lab, origin, role, stage); }
    NoWalk(Way(lab, origin, role), stage);
    if k > 0 {
      var next := stage.(applied := k - 1);
      var first: Walk<Op, Stage> := [(UndoOf(edits[k - 1]), next)];
      UndoneActs(lab, origin, role, stage);
      FilesBackWalks(lab, origin, role, next);
      assert Walks(Way(lab, origin, role), stage, first);
      WalksJoin(Way(lab, origin, role), stage, first, FilesBack(stage.backup, edits, k - 1));
    }
  }

  lemma ClosingWalks(lab: Lab, origin: Box, role: Role, stage: Stage)
    requires stage.Filed? && stage.phase == Baseline && stage.applied == 0 && Belongs(lab, origin, role, stage)
             && Fresh(origin, role)
    ensures var walk := Closing(role, stage.backup, stage.edits);
            Walks(Way(lab, origin, role), stage, walk) && Where(stage, walk, |walk|) == Intended
  {
    hide Planned, SheetOf;
  }

  lemma ServicesBackWalks(lab: Lab, origin: Box, role: Role, stage: Stage)
    requires stage.Filed? && Belongs(lab, origin, role, stage)
    ensures var walk := ServicesBack(role, stage);
            Walks(Way(lab, origin, role), stage, walk) && Where(stage, walk, |walk|) == stage.(phase := Baseline)
  {
    hide Planned, SheetOf, Patched;
  }

  lemma DropIntentWalks(lab: Lab, origin: Box, role: Role)
    requires Fresh(origin, role)
    ensures Walks(Way(lab, origin, role), Intended, [(DropIntent, Idle)])
  {
  }

  lemma RevertWalks(lab: Lab, origin: Box, role: Role, stage: Stage)
    requires Belongs(lab, origin, role, stage) && Fresh(origin, role)
    ensures var walk := RevertWalk(role, stage);
            && Walks(Way(lab, origin, role), stage, walk)
            && Where(stage, walk, |walk|) == Idle
    ensures stage.Filed? ==>
              var files := FilesBack(stage.backup, stage.edits, stage.applied) +
                  Closing(role, stage.backup, stage.edits);
              && Ops(RevertWalk(role, stage)) == Ops(ServicesBack(role, stage)) + Ops(files) + [DropIntent]
              && Walks(Way(lab, origin, role), stage.(phase := Baseline), files)
              && Where(stage.(phase := Baseline), files, |files|) == Intended
  {
    hide Walks, Belongs, FilesBack, Closing, ServicesBack, Fresh;
    DropIntentWalks(lab, origin, role);
    match stage
    case Idle => assert Walks(Way(lab, origin, role), Idle, []) by { NoWalk(Way(lab, origin, role), Idle); }
    case Intended =>
    case Filed(backup, applied, phase, edits) =>
      var base := stage.(phase := Baseline);
      BaselineBelongs(lab, origin, role, stage);
      ServicesBackWalks(lab, origin, role, stage);
      FilesBackWalks(lab, origin, role, base);
      ClosingWalks(lab, origin, role, base.(applied := 0));
      var files := FilesBack(backup, edits, applied) + Closing(role, backup, edits);
      WalksJoin(Way(lab, origin, role), base, FilesBack(backup, edits, applied), Closing(role, backup, edits));
      WalksJoin(Way(lab, origin, role), stage, ServicesBack(role, stage), files);
      WalksJoin(Way(lab, origin, role), stage, ServicesBack(role, stage) + files, [(DropIntent, Idle)]);
  }

  lemma BaselineBelongs(lab: Lab, origin: Box, role: Role, stage: Stage)
    requires stage.Filed? && Belongs(lab, origin, role, stage)
    ensures stage.applied <= |stage.edits| && Belongs(lab, origin, role, stage.(phase := Baseline))
    ensures role == Ir || !stage.backup ==> Belongs(lab, origin, role, stage.(phase := Baseline, applied := 0))
    ensures role == Kh ==> !stage.backup
  {
  }

  // ---------------------------------------------------------------- a rollback follows its walk

  lemma UndoStepIs(lab: Lab, origin: Box, role: Role, stage: Stage, k: nat)
    requires lab.Valid() && stage.Filed? && Belongs(lab, origin, role, stage) && 0 < k <= |stage.edits|
    ensures var e := EvidenceOf(lab, role, stage);
            && |e.states| == |e.sheet.rows| == |stage.edits| && e.states[k - 1] == (k <= stage.applied)
            && (k <= stage.applied ==> UndoStep(e.sheet.rows[k - 1], e.original) == UndoOf(stage.edits[k - 1]))
  {
    hide StartFrom;
    OwnedAreDistinct(role);
  }

  lemma BackUnfolds(backup: bool, edits: Edits, k: nat)
    requires k <= |edits|
    ensures FilesBack(backup, edits, 0) == []
    ensures k > 0 ==> Ops(FilesBack(backup, edits, k)) == [UndoOf(edits[k - 1])] + Ops(FilesBack(backup, edits, k - 1))
  {
  }

  lemma EvidenceIsComplete(lab: Lab, origin: Box, role: Role, stage: Stage)
    requires lab.Valid() && stage.Filed? && Belongs(lab, origin, role, stage)
    ensures stage.edits != [] && stage.applied <= |stage.edits|
    ensures var e := EvidenceOf(lab, role, stage); Complete(e) && |e.states| == |stage.edits|
  {
    hide Validate;
    StageValidates(lab, origin, role, stage);
  }

  lemma {:induction false} UndoIsWalk(lab: Lab, origin: Box, role: Role, stage: Stage, k: nat)
    requires lab.Valid() && stage.Filed? && Belongs(lab, origin, role, stage) && k <= |stage.edits|
    requires stage.edits != [] && stage.applied <= |stage.edits|
    requires var e := EvidenceOf(lab, role, stage); Complete(e) && |e.states| == |stage.edits|
    ensures UndoSteps(EvidenceOf(lab, role, stage), k) ==
            Ops(FilesBack(stage.backup, stage.edits, if k < stage.applied then k else stage.applied))
  {
    hide UndoSteps, FilesBack, Belongs, UndoOf, EvidenceOf, Complete;
    var e := EvidenceOf(lab, role, stage);
    BackUnfolds(stage.backup, stage.edits, k);
    if k > 0 {
      UndoIsWalk(lab, origin, role, stage, k - 1);
      UndoUnfolds(e, k - 1);
      UndoStepIs(lab, origin, role, stage, k);
    } else {
      UndoUnfolds(e, 0);
    }
  }

  lemma FinalizeFollows(lab: Lab, origin: Box, role: Role, stage: Stage)
    requires lab.Valid() && stage.Filed? && Belongs(lab, origin, role, stage) && stage.applied == 0
    ensures Finalize(lab, Image(lab, origin, role, stage)) ==
            Attempt(Ops(Closing(role, stage.backup, stage.edits)), Ok(()))
  {
    hide Validate, StartFrom;
    StageValidates(lab, origin, role, stage);
    assert true !in Marks(|stage.edits|, 0) by {
      assert forall i :: 0 <= i < |stage.edits| ==> !Marks(|stage.edits|, 0)[i];
    }
    OwnedAreDistinct(role);
    assert Image(lab, origin, role, stage).original.Some? == stage.backup;
    assert Ops(Closing(role, stage.backup, stage.edits)) == (if stage.backup then [DropOriginal] else []) +
        [DropJournal];
  }

  lemma RecoverFilesFollows(lab: Lab, origin: Box, role: Role, stage: Stage)
    requires lab.Valid() && stage.Filed? && Belongs(lab, origin, role, stage) && stage.phase == Baseline
    ensures stage.applied <= |stage.edits|
    ensures var files := FilesBack(stage.backup, stage.edits, stage.applied) + Closing(role, stage.backup, stage.edits);
            RecoverFiles(lab, Image(lab, origin, role, stage)) == Attempt(Ops(files), Ok(()))
  {
    hide Validate, Finalize, UndoSteps, FilesBack, Closing, Image, Act, Belongs, EvidenceOf, Walks, Complete;
    BaselineBelongs(lab, origin, role, stage);
    StageValidates(lab, origin, role, stage);
    EvidenceIsComplete(lab, origin, role, stage);
    UndoIsWalk(lab, origin, role, stage, |stage.edits|);
    FilesBackWalks(lab, origin, role, stage);
    var back := FilesBack(stage.backup, stage.edits, stage.applied);
    WalksEnd(Way(lab, origin, role), stage, back, |back|);
    assert Ops(back)[..|back|] == Ops(back);
    FinalizeFollows(lab, origin, role, stage.(applied := 0));
    assert Ops(back + Closing(role, stage.backup, stage.edits)) == Ops(back) +
        Ops(Closing(role, stage.backup, stage.edits));
  }

  lemma PreflightPasses(lab: Lab, origin: Box, role: Role, stage: Stage)
    requires lab.Valid() && Belongs(lab, origin, role, stage) && Fresh(origin, role) && stage != Idle
    ensures Preflight(lab, Image(lab, origin, role, stage)) == Ok((role, stage.Filed? && stage.phase != Baseline))
  {
    hide Validate, SheetOf, Patched;
    if stage.Filed? {
      StageValidates(lab, origin, role, stage);
    }
  }

  lemma BasedImage(lab: Lab, origin: Box, role: Role, stage: Stage)
    requires stage.Filed? && Belongs(lab, origin, role, stage)
    ensures var base := stage.(phase := Baseline);
            && Replay(Act, Image(lab, origin, role, stage), Services(role, stage.phase != Baseline)) ==
                Image(lab, origin, role, base)
            && Ops(ServicesBack(role, stage)) == Services(role, stage.phase != Baseline)
            && Belongs(lab, origin, role, base)
  {
    hide Planned, SheetOf, Patched;
  }

  lemma ReadyToClose(lab: Lab, origin: Box, role: Role)
    requires Fresh(origin, role)
    ensures DropIntentLast(Image(lab, origin, role, Intended), role) == Attempt([DropIntent], Ok(()))
    ensures Image(lab, origin, role, Intended).journal.Missing?
  {
  }

  lemma RevertFilesFollows(lab: Lab, origin: Box, role: Role, stage: Stage)
    requires lab.Valid() && stage.Filed? && Belongs(lab, origin, role, stage) && Fresh(origin, role)
             && stage.phase == Baseline
    ensures stage.applied <= |stage.edits|
    ensures var files := FilesBack(stage.backup, stage.edits, stage.applied) + Closing(role, stage.backup, stage.edits);
            RevertFiles(lab, Image(lab, origin, role, stage), role) == Attempt(Ops(files) + [DropIntent], Ok(()))
  {
    hide RecoverFiles, FilesBack, Closing, Walks, Belongs, Image, Act, DropIntentLast;
    BaselineBelongs(lab, origin, role, stage);
    var files := FilesBack(stage.backup, stage.edits, stage.applied) + Closing(role, stage.backup, stage.edits);
    RecoverFilesFollows(lab, origin, role, stage);
    RevertWalks(lab, origin, role, stage);
    WalksEnd(Way(lab, origin, role), stage, files, |files|);
    assert Ops(files)[..|files|] == Ops(files);
    ReadyToClose(lab, origin, role);
    assert Image(lab, origin, role, stage).journal.Holds? by { JournalHeld(lab, origin, role, stage); }
  }

  lemma JournalHeld(lab: Lab, origin: Box, role: Role, stage: Stage)
    requires stage.Filed?
    ensures Image(lab, origin, role, stage).journal.Holds?
  {
  }

  /** On every stage that left something behind, a rollback succeeds and is exactly the stage's walk. */
  lemma {:induction false} RevertFollows(lab: Lab, origin: Box, role: Role, stage: Stage)
    requires lab.Valid() && Belongs(lab, origin, role, stage) && Fresh(origin, role) && stage != Idle
    ensures stage.Filed? ==> stage.applied <= |stage.edits|
    ensures Revert(lab, Image(lab, origin, role, stage)) == Attempt(Ops(RevertWalk(role, stage)), Ok(()))
  {
    hide Preflight, RevertFiles, Walks, Belongs, FilesBack, Closing, Image, Act, RevertWalk, Fresh;
    PreflightPasses(lab, origin, role, stage);
    if stage.Filed? {
      BaselineBelongs(lab, origin, role, stage);
      BasedImage(lab, origin, role, stage);
      RevertFilesFollows(lab, origin, role, stage.(phase := Baseline));
      RevertWalks(lab, origin, role, stage);
    } else {
      RevertIntended(lab, origin, role);
    }
  }

  lemma RevertIntended(lab: Lab, origin: Box, role: Role)
    requires Fresh(origin, role)
    ensures Then(Services(role, false),
            RevertFiles(lab, Replay(Act, Image(lab, origin, role, Intended), Services(role, false)), role)) ==
            Attempt(Ops(RevertWalk(role, Intended)), Ok(()))
  {
  }

  // ---------------------------------------------------------------- a deployment follows a walk

  predicate Active(stage: Stage) {
    stage.Filed? && stage.applied == |stage.edits| && stage.phase == Reloaded
  }

  /** The attempt takes the steps of the walk; if it succeeds everything is active, and if it fails everything is
      undone. */
  ghost predicate Tracks(lab: Lab, origin: Box, role: Role, stage: Stage, walk: Walk<Op, Stage>, a: Attempt<Op, ()>) {
    && Walks(Way(lab, origin, role), stage, walk) && a.steps == Ops(walk)
    && (if a.end.Ok? then Active(Where(stage, walk, |walk|)) else Where(stage, walk, |walk|) == Idle)
  }

  lemma ThenTracks(lab: Lab, origin: Box, role: Role, stage: Stage, first: Walk<Op, Stage>, walk: Walk<Op, Stage>,
                   rest: Attempt<Op, ()>)
    requires Belongs(lab, origin, role, stage) && Walks(Way(lab, origin, role), stage, first)
    requires Tracks(lab, origin, role, Where(stage, first, |first|), walk, rest)
    ensures Tracks(lab, origin, role, stage, first + walk, Then(Ops(first), rest))
  {
    hide Walks, Belongs;
    WalksJoin(Way(lab, origin, role), stage, first, walk);
  }

  /** After these steps the disk is that of the last stage. */
  lemma StepsTo(lab: Lab, origin: Box, role: Role, stage: Stage, walk: Walk<Op, Stage>)
    requires Belongs(lab, origin, role, stage) && Walks(Way(lab, origin, role), stage, walk)
    ensures Replay(Act, Image(lab, origin, role, stage), Ops(walk)) ==
            Image(lab, origin, role, Where(stage, walk, |walk|))
    ensures Belongs(lab, origin, role, Where(stage, walk, |walk|))
  {
    hide Walks, Belongs, Image, Act;
    WalksEnd(Way(lab, origin, role), stage, walk, |walk|);
    assert Ops(walk)[..|walk|] == Ops(walk);
  }

  lemma AbortFollows(lab: Lab, origin: Box, role: Role, stage: Stage, why: Reason) returns (walk: Walk<Op, Stage>)
    requires lab.Valid() && Fresh(origin, role) && Belongs(lab, origin, role, stage) && stage != Idle
    ensures Tracks(lab, origin, role, stage, walk, Abort(lab, Image(lab, origin, role, stage), why))
    ensures Abort(lab, Image(lab, origin, role, stage), why).end == Fail(Hold(why))
  {
    hide Revert, RevertWalk, Walks, Belongs, Image;
    RevertFollows(lab, origin, role, stage);
    RevertWalks(lab, origin, role, stage);
    walk := RevertWalk(role, stage);
  }

  lemma PhaseWalks(lab: Lab, origin: Box, role: Role, stage: Stage, phase: Phase)
    requires stage.Filed? && Belongs(lab, origin, role, stage) && stage.applied == |stage.edits|
    ensures Walks(Way(lab, origin, role), stage, [(SaveRuntime(Runtime(role, phase)), stage.(phase := phase))])
  {
    hide Planned, SheetOf, Patched;
  }

  lemma ReloadingFollows(lab: Lab, origin: Box, role: Role, stage: Stage,
                         failAt: Option<Point>) returns (walk: Walk<Op, Stage>)
    requires lab.Valid() && Fresh(origin, role) && Belongs(lab, origin, role, stage)
    requires stage.Filed? && stage.phase == Started
    ensures var a := Reloading(lab, Image(lab, origin, role, stage), role, failAt);
            Tracks(lab, origin, role, stage, walk, a) && (failAt.None? ==> a.end.Ok?)
  {
    hide Abort, Walks, Image, Act, Planned;
    if failAt == Some(AfterSidecar) {
      walk := AbortFollows(lab, origin, role, stage, SidecarInjectedFailure);
    } else {
      PhaseWalks(lab, origin, role, stage, Reloaded);
      var next := stage.(phase := Reloaded);
      var reload: Walk<Op, Stage> := [(SaveRuntime(Runtime(role, Reloaded)), next)];
      StepsTo(lab, origin, role, stage, reload);
      assert Ops(reload) == [SaveRuntime(Runtime(role, Reloaded))];
      if failAt == Some(AfterReload) || failAt == Some(Health) {
        var undo := AbortFollows(lab, origin, role, next, SidecarInjectedFailure);
        ThenTracks(lab, origin, role, stage, reload, undo,
            Abort(lab, Image(lab, origin, role, next), SidecarInjectedFailure));
        walk := reload + undo;
      } else {
        NoWalk(Way(lab, origin, role), next);
        ThenTracks(lab, origin, role, stage, reload, [], Attempt([], Ok(())));
        walk := reload + [];
      }
    }
  }

  lemma StartingFollows(lab: Lab, origin: Box, role: Role, stage: Stage,
                        failAt: Option<Point>) returns (walk: Walk<Op, Stage>)
    requires lab.Valid() && Fresh(origin, role) && Belongs(lab, origin, role, stage)
    requires stage.Filed? && stage.phase == Baseline && stage.applied == |stage.edits|
    ensures var a := Starting(lab, Image(lab, origin, role, stage), role, failAt);
            Tracks(lab, origin, role, stage, walk, a) && (failAt.None? ==> a.end.Ok?)
  {
    hide Abort, Walks, Image, Act, Planned, Validate, Reloading;
    StageValidates(lab, origin, role, stage);
    if failAt == Some(AfterFiles) || failAt == Some(Validation) {
      walk := AbortFollows(lab, origin, role, stage, SidecarInjectedFailure);
    } else {
      PhaseWalks(lab, origin, role, stage, Started);
      var next := stage.(phase := Started);
      var start: Walk<Op, Stage> := [(SaveRuntime(Runtime(role, Started)), next)];
      StepsTo(lab, origin, role, stage, start);
      assert Ops(start) == [SaveRuntime(Runtime(role, Started))];
      var rest := ReloadingFollows(lab, origin, role, next, failAt);
      ThenTracks(lab, origin, role, stage, start, rest, Reloading(lab, Image(lab, origin, role, next), role, failAt));
      walk := start + rest;
    }
  }

  function FilesForth(backup: bool, edits: Edits): Walk<Op, Stage> {
    seq(|edits|, i requires 0 <= i < |edits| =>
        (WriteFile(edits[i].place, edits[i].after), Filed(backup, i + 1, Baseline, edits)))
  }

  lemma WriteActs(lab: Lab, origin: Box, role: Role, stage: Stage, i: nat)
    requires stage.Filed? && Belongs(lab, origin, role, stage) && stage.phase == Baseline && stage.applied == 0
             && i < |stage.edits|
    requires stage.backup == (role == Ir)
    ensures Act(Image(lab, origin, role, stage.(applied := i)),
            WriteFile(stage.edits[i].place, stage.edits[i].after)) ==
            Image(lab, origin, role, stage.(applied := i + 1))
    ensures Belongs(lab, origin, role, stage.(applied := i + 1))
  {
    hide SheetOf, Planned;
  }

  lemma FilesForthWalks(lab: Lab, origin: Box, role: Role, stage: Stage)
    requires stage.Filed? && Belongs(lab, origin, role, stage) && stage.applied == 0 && stage.phase == Baseline
    requires stage.backup == (role == Ir)
    ensures var walk := FilesForth(stage.backup, stage.edits);
            && Walks(Way(lab, origin, role), stage, walk)
            && Ops(walk) == Writes(stage.edits)
            && Where(stage, walk, |walk|) == stage.(applied := |stage.edits|)
  {
    hide Act, Image, Belongs;
    var walk := FilesForth(stage.backup, stage.edits);
    forall i | 0 <= i < |walk|
      ensures Where(stage, walk, i) == stage.(applied := i)
      ensures Act(Image(lab, origin, role, stage.(applied := i)), walk[i].0) == Image(lab, origin, role, walk[i].1)
      ensures Belongs(lab, origin, role, walk[i].1)
    {
      WriteActs(lab, origin, role, stage, i);
    }
  }

  lemma FillingFollows(lab: Lab, origin: Box, role: Role, stage: Stage,
                       failAt: Option<Point>) returns (walk: Walk<Op, Stage>)
    requires lab.Valid() && Fresh(origin, role) && Belongs(lab, origin, role, stage)
    requires stage.Filed? && stage.phase == Baseline && stage.applied == 0 && stage.backup == (role == Ir)
    ensures var a := Filling(lab, Image(lab, origin, role, stage), role, stage.edits, failAt);
            Tracks(lab, origin, role, stage, walk, a) && (failAt.None? ==> a.end.Ok?)
  {
    hide Abort, Walks, Image, Act, Planned, Validate, Starting, Writes, FilesForth;
    StageValidates(lab, origin, role, stage);
    FilesForthWalks(lab, origin, role, stage);
    var next, forth := stage.(applied := |stage.edits|), FilesForth(stage.backup, stage.edits);
    StepsTo(lab, origin, role, stage, forth);
    var rest := StartingFollows(lab, origin, role, next, failAt);
    ThenTracks(lab, origin, role, stage, forth, rest, Starting(lab, Image(lab, origin, role, next), role, failAt));
    walk := forth + rest;
  }

  function OpeningWalk(lab: Lab, role: Role, edits: Edits): Walk<Op, Stage> {
    [(SaveJournal(SheetOf(lab, role, edits)), Filed(false, 0, Baseline, edits))] +
    (if role == Ir && edits != [] && edits[|edits| - 1].before.Some? then
       [(SaveOriginal(edits[|edits| - 1].before.value), Filed(true, 0, Baseline, edits))] else [])
  }

  lemma OpeningWalks(lab: Lab, origin: Box, role: Role, edits: Edits)
    requires Fresh(origin, role) && Planned(lab, origin, role, edits)
    ensures var walk := OpeningWalk(lab, role, edits);
            && Walks(Way(lab, origin, role), Intended, walk) && Ops(walk) == Opening(lab, role, edits)
            && Where(Intended, walk, |walk|) == Filed(role == Ir, 0, Baseline, edits)
  {
    hide SheetOf;
    OwnedAreDistinct(role);
  }

  lemma InstallingFollows(lab: Lab, origin: Box, role: Role, payload: map<Place, Bytes>, failAt: Option<Point>)
    returns (walk: Walk<Op, Stage>)
    requires lab.Valid() && Fresh(origin, role)
    ensures var a := Installing(lab, Image(lab, origin, role, Intended), payload, role, failAt);
            && Tracks(lab, origin, role, Intended, walk, a)
            && (a.end.Ok? <==> failAt.None? && Prepare(lab, origin, payload, role).Ok?)
  {
    hide Abort, Walks, Act, Planned, Validate, Filling, Opening, OpeningWalk, Prepare;
    var s := Image(lab, origin, role, Intended);
    assert Prepare(lab, s, payload, role) == Prepare(lab, origin, payload, role)
        by { PrepareIgnoresIntent(lab, origin, role, payload); }
    if failAt == Some(AfterIntent) {
      walk := AbortFollows(lab, origin, role, Intended, SidecarInjectedFailure);
    } else if Prepare(lab, s, payload, role).Fail? {
      walk := AbortFollows(lab, origin, role, Intended, SidecarTargetsUnready);
    } else {
      var edits := Prepare(lab, s, payload, role).value;
      PreparedIsPlanned(lab, origin, payload, role);
      OpeningWalks(lab, origin, role, edits);
      hide Image;
      var first, next := OpeningWalk(lab, role, edits), Filed(role == Ir, 0, Baseline, edits);
      StepsTo(lab, origin, role, Intended, first);
      var rest := FillingFollows(lab, origin, role, next, failAt);
      ThenTracks(lab, origin, role, Intended, first, rest,
          Filling(lab, Image(lab, origin, role, next), role, edits, failAt));
      walk := first + rest;
      if failAt.Some? {
        InjectedFails(lab, s, payload, role, failAt.value);
      }
    }
  }

  lemma PrepareIgnoresIntent(lab: Lab, origin: Box, role: Role, payload: map<Place, Bytes>)
    ensures Prepare(lab, Image(lab, origin, role, Intended), payload, role) == Prepare(lab, origin, payload, role)
  {
    var s := Image(lab, origin, role, Intended);
    assert forall place :: PrepareOne(lab, s, payload, place) == PrepareOne(lab, origin, payload, place);
    if Prepare(lab, origin, payload, role).Ok? {
      assert Prepare(lab, s, payload, role).value == Prepare(lab, origin, payload, role).value;
    }
  }

  lemma InjectedFails(lab: Lab, s: Box, payload: map<Place, Bytes>, role: Role, point: Point)
    ensures Installing(lab, s, payload, role, Some(point)).end.Fail?
  {
    hide Revert, Validate, Prepare, Act, Writes, Opening;
  }

  /** A deployment, wherever it is made to fail, tracks a walk over stages of the transaction. */
  lemma DeployFollows(lab: Lab, origin: Box, role: Role, stage: Stage, payload: Option<map<Place, Bytes>>,
                      failAt: Option<Point>)
    returns (walk: Walk<Op, Stage>)
    requires lab.Valid() && Fresh(origin, role) && Belongs(lab, origin, role, stage)
    ensures var a := Deploy(lab, Image(lab, origin, role, stage), payload, role, failAt);
            && Walks(Way(lab, origin, role), stage, walk) && a.steps == Ops(walk)
            && (stage != Idle ==> walk == [] && a.end.Fail?)
            && (stage == Idle ==> (Tracks(lab, origin, role, stage, walk, a)
                                   && (a.end.Ok? <==>
                                       failAt.None? && payload.Some? && Prepare(lab, origin, payload.value, role).Ok?)))
  {
    hide Walks, Installing, Act, Prepare;
    NoWalk(Way(lab, origin, role), stage);
    walk := [];
    if stage == Idle && payload.Some? {
      var first: Walk<Op, Stage> := [(SaveIntent(role), Intended)];
      IntentWalks(lab, origin, role);
      StepsTo(lab, origin, role, Idle, first);
      assert Ops(first) == [SaveIntent(role)];
      var rest := InstallingFollows(lab, origin, role, payload.value, failAt);
      ThenTracks(lab, origin, role, Idle, first, rest,
          Installing(lab, Image(lab, origin, role, Intended), payload.value, role, failAt));
      walk := first + rest;
    }
  }

  lemma IntentWalks(lab: Lab, origin: Box, role: Role)
    ensures Walks(Way(lab, origin, role), Idle, [(SaveIntent(role), Intended)])
  {
  }

  // ---------------------------------------------------------------- every run

  datatype Event =
    | DeployCall(payload: Option<map<Place, Bytes>>, role: Role, failAt: Option<Point>, fuse: nat)
    | RollbackCall(fuse: nat)

  function Steps(lab: Lab, s: Box, event: Event): seq<Op> {
    match event
    case DeployCall(payload, role, failAt, fuse) => UpTo(Deploy(lab, s, payload, role, failAt).steps, fuse)
    case RollbackCall(fuse) => UpTo(Revert(lab, s).steps, fuse)
  }

  function Run(lab: Lab, s: Box, events: seq<Event>): Box {
    if events == [] then s
    else
      var before := Run(lab, s, events[..|events| - 1]);
      Replay(Act, before, Steps(lab, before, events[|events| - 1]))
  }

  /** The walk of one call. */
  lemma CallWalks(lab: Lab, origin: Box, role: Role, stage: Stage, event: Event) returns (walk: Walk<Op, Stage>)
    requires lab.Valid() && Fresh(origin, role) && Belongs(lab, origin, role, stage)
    ensures Walks(Way(lab, origin, role), stage, walk)
            && Steps(lab, Image(lab, origin, role, stage), event) <= Ops(walk)
  {
    hide Walks, Deploy, Revert, Image, Belongs, RevertWalk, Fresh;
    walk := [];
    NoWalk(Way(lab, origin, role), stage);
    match event
    case DeployCall(payload, other, failAt, _) =>
      if other == role {
        walk := DeployFollows(lab, origin, role, stage, payload, failAt);
      } else {
        OtherRoleRefused(lab, origin, role, stage, payload, other, failAt);
      }
    case RollbackCall(_) =>
      if stage == Idle {
        NothingToRevert(lab, origin, role);
      } else {
        RevertFollows(lab, origin, role, stage);
        RevertWalks(lab, origin, role, stage);
        walk := RevertWalk(role, stage);
      }
  }

  lemma OtherRoleRefused(lab: Lab, origin: Box, role: Role, stage: Stage, payload: Option<map<Place, Bytes>>,
      other: Role,
                         failAt: Option<Point>)
    requires Fresh(origin, role) && other != role
    ensures Deploy(lab, Image(lab, origin, role, stage), payload, other, failAt).steps == []
  {
    hide SheetOf, Patched;
  }

  lemma NothingToRevert(lab: Lab, origin: Box, role: Role)
    requires Fresh(origin, role)
    ensures Revert(lab, Image(lab, origin, role, Idle)).steps == [] && Revert(lab, origin).end.Fail?
  {
  }

  lemma {:induction false} RunStays(lab: Lab, origin: Box, role: Role, events: seq<Event>) returns (stage: Stage)
    requires lab.Valid() && Fresh(origin, role)
    ensures Belongs(lab, origin, role, stage)
    ensures Run(lab, origin, events) == Image(lab, origin, role, stage)
  {
    hide Walks, Belongs, Act, Steps;
    if events == [] {
      stage := Idle;
      assert Belongs(lab, origin, role, Idle) by { IdleBelongs(lab, origin, role); }
    } else {
      hide Image;
      var before := RunStays(lab, origin, role, events[..|events| - 1]);
      var walk := CallWalks(lab, origin, role, before, events[|events| - 1]);
      var steps := Steps(lab, Image(lab, origin, role, before), events[|events| - 1]);
      WalksEnd(Way(lab, origin, role), before, walk, |steps|);
      assert steps == Ops(walk)[..|steps|];
      stage := Where(before, walk, |steps|);
    }
  }

  lemma IdleBelongs(lab: Lab, origin: Box, role: Role)
    ensures Belongs(lab, origin, role, Idle)
  {
  }

  predicate IsApplied(lab: Lab, s: Box, row: Row) {
    row.place in s.files && lab.sha(s.files[row.place]) == row.applied
  }

  /** The write-ahead order, stated on the disk alone. */
  ghost predicate Safe(lab: Lab, origin: Box, role: Role, s: Box) {
    && s.runtime.Holds? && s.runtime.value.role == role
    // services away from their baseline: every owned file is applied, and the file journal exists
    && (s.runtime.value.phase != Baseline ==>
          s.journal.Holds? && forall row :: row in s.journal.value.rows ==> IsApplied(lab, s, row))
    // a file journal is covered by an intent, and a changed file by the file journal
    && (!s.journal.Missing? ==> s.intent == Holds(role))
    && (s.journal.Missing? ==> s.files == origin.files)
    // any change of the role that edits a file is covered by the backup of the original
    && (role == Ir && s.files != origin.files ==>
          PanelBackend in origin.files && s.original == Some(origin.files[PanelBackend]))
    && (s.intent.Missing? ==> s == origin)
  }

  lemma StageIsSafe(lab: Lab, origin: Box, role: Role, stage: Stage)
    requires lab.Valid() && Fresh(origin, role) && Belongs(lab, origin, role, stage)
    ensures Safe(lab, origin, role, Image(lab, origin, role, stage))
  {
    if stage.Filed? {
      var s := Image(lab, origin, role, stage);
      OwnedAreDistinct(role);
      if stage.phase != Baseline {
        forall row | row in s.journal.value.rows ensures IsApplied(lab, s, row) {
          var i :| 0 <= i < |s.journal.value.rows| && s.journal.value.rows[i] == row;
          PatchedAt(origin.files, stage.edits, stage.applied, i);
        }
      }
    }
  }

  /** Every run of deployments and rollbacks, cut anywhere, keeps the write-ahead order. */
  lemma {:induction false} EveryRunIsSafe(lab: Lab, origin: Box, role: Role, events: seq<Event>)
    requires lab.Valid() && Fresh(origin, role)
    ensures Safe(lab, origin, role, Run(lab, origin, events))
  {
    hide Run, Safe, Belongs, Image;
    var stage := RunStays(lab, origin, role, events);
    StageIsSafe(lab, origin, role, stage);
  }

  /** After every run, a rollback that is not cut returns exactly when there is an intent, and then nothing is left:
      the disk is the one the run started from. */
  lemma {:induction false} RollbackUndoesEveryRun(lab: Lab, origin: Box, role: Role, events: seq<Event>)
    requires lab.Valid() && Fresh(origin, role)
    ensures var s := Run(lab, origin, events);
            && (Revert(lab, s).end.Ok? <==> !s.intent.Missing?)
            && (Revert(lab, s).end.Ok? ==> Replay(Act, s, Revert(lab, s).steps) == origin)
  {
    hide Run, Revert, Belongs, RevertWalk, Walks, Act, SheetOf, Patched;
    var stage := RunStays(lab, origin, role, events);
    if stage == Idle {
      NothingToRevert(lab, origin, role);
    } else {
      RevertFollows(lab, origin, role, stage);
      RevertWalks(lab, origin, role, stage);
      StepsTo(lab, origin, role, stage, RevertWalk(role, stage));
    }
  }

  /** A deployment that is not cut activates everything, or leaves nothing: a failure injected at any point, or
      targets that are not ready, are undone before it is reported. */
  lemma {:induction false} DeploymentIsAllOrNothing(lab: Lab, origin: Box, role: Role, payload: Option<map<Place,
      Bytes>>, failAt: Option<Point>)
    requires lab.Valid() && Fresh(origin, role)
    ensures var a := Deploy(lab, origin, payload, role, failAt);
            var s := Replay(Act, origin, a.steps);
            && (a.end.Ok? <==> failAt.None? && payload.Some? && Prepare(lab, origin, payload.value, role).Ok?)
            && (a.end.Ok? ==>
                  && s.runtime == Holds(Runtime(role, Reloaded)) && s.intent == Holds(role)
                  && s.journal.Holds? && s.journal.value.rows != [] && forall row :: row in s.journal.value.rows ==>
                      IsApplied(lab, s, row))
            && (a.end.Fail? ==> s == origin)
  {
    hide Deploy, Belongs, Walks, Act, SheetOf, Patched, IsApplied, Prepare;
    IdleBelongs(lab, origin, role);
    var walk := DeployFollows(lab, origin, role, Idle, payload, failAt);
    StepsTo(lab, origin, role, Idle, walk);
    var last := Where(Idle, walk, |walk|);
    StageIsSafe(lab, origin, role, last);
    if last.Filed? {
      StageValidates(lab, origin, role, last);
      assert SheetOf(lab, role, last.edits).rows != [] by { RowsToo(lab, role, last.edits); }
    }
  }

  lemma RowsToo(lab: Lab, role: Role, edits: Edits)
    ensures |SheetOf(lab, role, edits).rows| == |edits|
  {
  }
}
