/** Every run of the one-level lab: any sequence of installations and recoveries, each cut after any number
    of durable steps; and exactly which installations can be recovered at all. */
module UnifiedRuns {
  import opened Durable
  import opened OwnedFiles
  import opened UnifiedLab
  import H = Host

  /** How far the transaction is: the journal, then the backup, then the first `applied` files, then the services. */
  datatype Stage = Idle | Filed(backup: bool, applied: nat, phase: Phase, edits: Edits)

  /** A box as bootstrapped: no transaction, the services at their baseline. */
  predicate Fresh(origin: Box, role: Role) {
    origin.journal.Missing? && origin.backup.None? && origin.runtime == Holds(Runtime(role, Baseline))
  }

  ghost predicate Planned(lab: Lab, origin: Box, role: Role, edits: Edits) {
    && |edits| == |Layout(role)| && StartFrom(origin.files, edits)
    && (forall i :: 0 <= i < |edits| ==> IdentitySafe(lab, edits[i].after))
    && (forall i :: 0 <= i < |edits| - 1 ==>
          edits[i].place == Layout(role)[i] && edits[i].before.None? && edits[i].after.mode == PRIVATE)
    && var last := edits[|edits| - 1];
    && last.before.Some? && last.after == last.before.value.(data := last.after.data)
  }

  /** The journal of this change can be read back: the edited vhost is the one the layout names, and its hash
      changes. */
  predicate Recoverable(lab: Lab, role: Role, edits: Edits) {
    && |edits| == |Layout(role)|
    && var last := edits[|edits| - 1];
    && last.place == Layout(role)[|edits| - 1]
    && (last.before.Some? ==> lab.sha(last.after.data) != lab.sha(last.before.value.data))
  }

  ghost predicate Belongs(lab: Lab, origin: Box, role: Role, stage: Stage) {
    match stage
    case Idle => true
    case Filed(backup, applied, phase, edits) =>
      && Planned(lab, origin, role, edits) && applied <= |edits|
      && (applied > 0 ==> backup)
      && (phase != Baseline ==> applied == |edits|)
  }

  function OriginalData(edits: Edits): Option<Bytes> {
    if edits != [] && edits[|edits| - 1].before.Some? then Some(edits[|edits| - 1].before.value.data) else None
  }

  function Image(lab: Lab, origin: Box, role: Role, stage: Stage): Box {
    match stage
    case Idle => origin
    case Filed(backup, applied, phase, edits) =>
      Box(if applied <= |edits| then Patched(origin.files, edits, applied) else origin.files,
          Holds(Runtime(role, phase)), Holds(SheetOf(lab, role, edits)), if backup then OriginalData(edits) else None)
  }

  // ---------------------------------------------------------------- what the evidence says on each stage

  lemma PlanIsPlanned(lab: Lab, origin: Box, role: Role, candidate: Candidate)
    requires Plannable(lab, origin.files, role, candidate)
    ensures Planned(lab, origin, role, Plan(lab, origin.files, role, candidate))
    ensures var edits := Plan(lab, origin.files, role, candidate);
            && |edits| == |candidate.after| && OriginalData(edits) == Some(candidate.original)
            && edits[|edits| - 1].after.data == candidate.after[|edits| - 1]
            && edits[|edits| - 1].place == PlaceOf(role, candidate, |edits| - 1)
  {
    var edits := Plan(lab, origin.files, role, candidate);
    forall i | 0 <= i < |edits| ensures edits[i] == PlanOne(lab, origin.files, role, candidate, i).value {
    }
    PlacesAreDistinct(role, candidate);
  }

  lemma PlacesAreDistinct(role: Role, candidate: Candidate)
    ensures forall i, j :: 0 <= i < j < |Layout(role)| ==> PlaceOf(role, candidate, i) != PlaceOf(role, candidate, j)
  {
  }

  function Marks(n: nat, applied: nat): seq<bool> {
    seq(n, i => i < applied)
  }

  function EvidenceOf(lab: Lab, role: Role, stage: Stage): Evidence
    requires stage.Filed?
  {
    Evidence(SheetOf(lab, role, stage.edits), Marks(|stage.edits|, stage.applied),
             if stage.backup then OriginalData(stage.edits) else None, stage.phase)
  }

  lemma SheetTrustedExactly(lab: Lab, origin: Box, role: Role, edits: Edits)
    requires lab.Valid() && Planned(lab, origin, role, edits)
    ensures SheetTrusted(SheetOf(lab, role, edits)) <==> Recoverable(lab, role, edits)
  {
    hide StartFrom;
    var sheet, n := SheetOf(lab, role, edits), |edits| - 1;
    forall i | 0 <= i < n ensures RowTrusted(role, sheet.rows[i], i) {
      assert sheet.rows[i] == RowOf(lab, edits[i]) && H.IsSha(lab.sha(edits[i].after.data));
    }
    assert sheet.rows[n] == RowOf(lab, edits[n]);
    assert H.IsSha(lab.sha(edits[n].after.data)) && H.IsSha(lab.sha(edits[n].before.value.data));
    assert RowTrusted(role, sheet.rows[n], n) <==> Recoverable(lab, role, edits);
  }

  lemma PrefixIsSeen(lab: Lab, origin: Box, role: Role, edits: Edits, applied: nat, i: nat)
    requires Planned(lab, origin, role, edits) && Recoverable(lab, role, edits) && applied <= |edits| && i < |edits|
    ensures Seen(lab, Patched(origin.files, edits, applied), RowOf(lab, edits[i])) == Some(i < applied)
  {
    PatchedAt(origin.files, edits, applied, i);
  }

  /** The evidence of a stage validates exactly when its journal can be read back. */
  lemma StageValidates(lab: Lab, origin: Box, role: Role, stage: Stage)
    requires lab.Valid() && stage.Filed? && Belongs(lab, origin, role, stage)
    ensures var checked := Validate(lab, Image(lab, origin, role, stage));
            if Recoverable(lab, role, stage.edits) then checked == Ok(EvidenceOf(lab, role, stage)) else checked.Fail?
  {
    hide SheetTrusted, StartFrom, Seen, RowOf;
    var edits := stage.edits;
    SheetTrustedExactly(lab, origin, role, edits);
    if Recoverable(lab, role, edits) {
      var s, rows := Image(lab, origin, role, stage), SheetOf(lab, role, edits).rows;
      forall i | 0 <= i < |rows| ensures Seen(lab, s.files, rows[i]) == Some(i < stage.applied) {
        PrefixIsSeen(lab, origin, role, edits, stage.applied, i);
      }
      assert States(lab, s.files, rows) == Marks(|edits|, stage.applied);
      assert rows[|rows| - 1].before == Some(lab.sha(OriginalData(edits).value))
          by { LastRow(lab, origin, role, edits); }
      if stage.applied > 0 {
        assert Marks(|edits|, stage.applied)[0];
      }
    }
  }

  lemma LastRow(lab: Lab, origin: Box, role: Role, edits: Edits)
    requires Planned(lab, origin, role, edits)
    ensures OriginalData(edits).Some?
    ensures RowOf(lab, edits[|edits| - 1]).before == Some(lab.sha(OriginalData(edits).value))
  {
  }

  // ---------------------------------------------------------------- the walks

  function UndoOf(change: Change<Place, File>): Op {
    if change.before.Some? then WriteFile(change.place, change.before.value) else RemoveFile(change.place)
  }

  function FilesBack(edits: Edits, k: nat): Walk<Op, Stage>
    requires k <= |edits|
  {
    if k == 0 then [] else [(UndoOf(edits[k - 1]), Filed(true, k - 1, Baseline, edits))] + FilesBack(edits, k - 1)
  }

  function ServicesBack(role: Role, stage: Stage): Walk<Op, Stage>
    requires stage.Filed?
  {
    if stage.phase == Baseline then [] else [(SaveRuntime(Runtime(role, Baseline)), stage.(phase := Baseline))]
  }

  function Closing(backup: bool, edits: Edits): Walk<Op, Stage> {
    (if backup then [(DropBackup, Filed(false, 0, Baseline, edits))] else []) + [(DropJournal, Idle)]
  }

  /** The whole recovery of a stage. */
  function RecoverWalk(role: Role, stage: Stage): Walk<Op, Stage>
    requires stage.Filed? ==> stage.applied <= |stage.edits|
  {
    match stage
    case Idle => []
    case Filed(backup, applied, _, edits) =>
        ServicesBack(role, stage) + (FilesBack(edits, applied) + Closing(backup, edits))
  }

  ghost function Way(lab: Lab, origin: Box, role: Role): Course<Box, Op, Stage> {
    Course(Act, (s: Stage) => Image(lab, origin, role, s), (s: Stage) => Belongs(lab, origin, role, s))
  }

  /** After these steps the disk is that of the last stage. */
  lemma StepsTo(lab: Lab, origin: Box, role: Role, stage: Stage, walk: Walk<Op, Stage>)
    requires Belongs(lab, origin, role, stage) && Walks(Way(lab, origin, role), stage, walk)
    ensures Replay(Act, Image(lab, origin, role, stage), Ops(walk)) ==
            Image(lab, origin, role, Where(stage, walk, |walk|))
    ensures Belongs(lab, origin, role, Where(stage, walk, |walk|))
  {
    hide Walks, Belongs, Image, Act;
    WalksEnd(Way(lab, origin, role), stage, walk, |walk|);
    assert Ops(walk)[..|walk|] == Ops(walk);
  }

  lemma UndoneActs(lab: Lab, origin: Box, role: Role, stage: Stage)
    requires stage.Filed? && stage.phase == Baseline && stage.applied > 0 && Belongs(lab, origin, role, stage)
    ensures Act(Image(lab, origin, role, stage), UndoOf(stage.edits[stage.applied - 1])) ==
            Image(lab, origin, role, stage.(applied := stage.applied - 1))
    ensures Belongs(lab, origin, role, stage.(applied := stage.applied - 1)) && stage.backup
  {
    hide SheetOf;
    UndoLast(origin.files, stage.edits, stage.applied);
  }

  lemma Bounds(lab: Lab, origin: Box, role: Role, stage: Stage)
    requires stage.Filed? && Belongs(lab, origin, role, stage)
    ensures stage.applied <= |stage.edits| && stage.edits != [] && (stage.applied > 0 ==> stage.backup)
    ensures Belongs(lab, origin, role, stage.(phase := Baseline))
            && Belongs(lab, origin, role, stage.(phase := Baseline, applied := 0))
  {
  }

  lemma {:induction false} FilesBackWalks(lab: Lab, origin: Box, role: Role, stage: Stage)
    requires stage.Filed? && stage.phase == Baseline && Belongs(lab, origin, role, stage)
    ensures stage.applied <= |stage.edits|
    ensures var walk := FilesBack(stage.edits, stage.applied);
            Walks(Way(lab, origin, role), stage, walk) && Where(stage, walk, |walk|) == stage.(applied := 0)
    decreases stage.applied
  {
    hide Belongs, Act, Image;
    var k, edits := stage.applied, stage.edits;
    Bounds(lab, origin, role, stage);
    NoWalk(Way(lab, origin, role), stage);
    if k > 0 {
      var next := stage.(applied := k - 1);
      var first: Walk<Op, Stage> := [(UndoOf(edits[k - 1]), next)];
      UndoneActs(lab, origin, role, stage);
      FilesBackWalks(lab, origin, role, next);
      assert Walks(Way(lab, origin, role), stage, first);
      WalksJoin(Way(lab, origin, role), stage, first, FilesBack(edits, k - 1));
    }
  }

  lemma ClosingWalks(lab: Lab, origin: Box, role: Role, stage: Stage)
    requires stage.Filed? && stage.phase == Baseline && stage.applied == 0 && Belongs(lab, origin, role, stage)
             && Fresh(origin, role)
    ensures var walk := Closing(stage.backup, stage.edits);
            Walks(Way(lab, origin, role), stage, walk) && Where(stage, walk, |walk|) == Idle
  {
    hide Planned, SheetOf;
  }

  lemma ServicesBackWalks(lab: Lab, origin: Box, role: Role, stage: Stage)
    requires stage.Filed? && Belongs(lab, origin, role, stage)
    ensures var walk := ServicesBack(role, stage);
            Walks(Way(lab, origin, role), stage, walk) && Where(stage, walk, |walk|) == stage.(phase := Baseline)
  {
    hide Planned, SheetOf, Patched;
  }

  lemma RecoverWalks(lab: Lab, origin: Box, role: Role, stage: Stage)
    requires stage.Filed? && Belongs(lab, origin, role, stage) && Fresh(origin, role)
    ensures stage.applied <= |stage.edits|
    ensures var walk := RecoverWalk(role, stage);
            Walks(Way(lab, origin, role), stage, walk) && Where(stage, walk, |walk|) == Idle
    ensures Ops(RecoverWalk(role, stage)) ==
            Ops(ServicesBack(role, stage)) +
                (Ops(FilesBack(stage.edits, stage.applied)) + Ops(Closing(stage.backup, stage.edits)))
  {
    hide Walks, Belongs, FilesBack, Closing, ServicesBack, Fresh;
    var base := stage.(phase := Baseline);
    Bounds(lab, origin, role, stage);
    ServicesBackWalks(lab, origin, role, stage);
    FilesBackWalks(lab, origin, role, base);
    ClosingWalks(lab, origin, role, base.(applied := 0));
    WalksJoin(Way(lab, origin, role), base, FilesBack(stage.edits, stage.applied), Closing(stage.backup, stage.edits));
    WalksJoin(Way(lab, origin, role), stage, ServicesBack(role, stage),
              FilesBack(stage.edits, stage.applied) + Closing(stage.backup, stage.edits));
  }

  // ---------------------------------------------------------------- recovery follows its walk

  lemma UndoStepIs(lab: Lab, origin: Box, role: Role, stage: Stage, k: nat)
    requires stage.Filed? && Belongs(lab, origin, role, stage) && 0 < k <= |stage.edits|
    ensures var e := EvidenceOf(lab, role, stage);
            && |e.states| == |e.sheet.rows| == |stage.edits| && e.states[k - 1] == (k <= stage.applied)
            && (k <= stage.applied ==> UndoStep(e.sheet.rows[k - 1], e.backup) == UndoOf(stage.edits[k - 1]))
  {
    hide StartFrom;
  }

  lemma BackUnfolds(edits: Edits, k: nat)
    requires k <= |edits|
    ensures FilesBack(edits, 0) == []
    ensures k > 0 ==> Ops(FilesBack(edits, k)) == [UndoOf(edits[k - 1])] + Ops(FilesBack(edits, k - 1))
  {
  }

  lemma EvidenceIsComplete(lab: Lab, origin: Box, role: Role, stage: Stage)
    requires stage.Filed? && Belongs(lab, origin, role, stage)
    ensures var e := EvidenceOf(lab, role, stage); Complete(e) && |e.states| == |stage.edits|
  {
    hide StartFrom;
    assert stage.applied == 0 ==> true !in EvidenceOf(lab, role, stage).states;
  }

  lemma {:induction false} UndoIsWalk(lab: Lab, origin: Box, role: Role, stage: Stage, k: nat)
    requires stage.Filed? && Belongs(lab, origin, role, stage) && k <= |stage.edits| && stage.applied <= |stage.edits|
    requires var e := EvidenceOf(lab, role, stage); Complete(e) && |e.states| == |stage.edits|
    ensures UndoSteps(EvidenceOf(lab, role, stage), k) ==
            Ops(FilesBack(stage.edits, if k < stage.applied then k else stage.applied))
    decreases k
  {
    hide UndoSteps, FilesBack, Belongs, UndoOf, EvidenceOf, Complete;
    var e := EvidenceOf(lab, role, stage);
    BackUnfolds(stage.edits, k);
    if k > 0 {
      UndoIsWalk(lab, origin, role, stage, k - 1);
      UndoUnfolds(e, k - 1);
      UndoStepIs(lab, origin, role, stage, k);
    } else {
      UndoUnfolds(e, 0);
    }
  }

  lemma FinalizeFollows(lab: Lab, origin: Box, role: Role, stage: Stage)
    requires lab.Valid() && stage.Filed? && Belongs(lab, origin, role, stage) && stage.applied == 0
             && stage.phase == Baseline
    requires Recoverable(lab, role, stage.edits)
    ensures Finalize(lab, Image(lab, origin, role, stage)) == Attempt(Ops(Closing(stage.backup, stage.edits)), Ok(()))
  {
    hide Validate, StartFrom, Recoverable;
    StageValidates(lab, origin, role, stage);
    assert true !in Marks(|stage.edits|, 0);
    LastRow(lab, origin, role, stage.edits);
    assert Image(lab, origin, role, stage).backup.Some? == stage.backup;
    assert Ops(Closing(stage.backup, stage.edits)) == (if stage.backup then [DropBackup] else []) + [DropJournal];
  }

  lemma RestoreFollows(lab: Lab, origin: Box, role: Role, stage: Stage, phase: Phase)
    requires lab.Valid() && stage.Filed? && Belongs(lab, origin, role, stage) && stage.phase == Baseline
    requires Recoverable(lab, role, stage.edits)
    ensures stage.applied <= |stage.edits| && Complete(EvidenceOf(lab, role, stage.(phase := phase)))
    ensures RestoreFiles(lab, Image(lab, origin, role, stage), EvidenceOf(lab, role, stage.(phase := phase))) ==
            Attempt(Ops(FilesBack(stage.edits, stage.applied)) + Ops(Closing(stage.backup, stage.edits)), Ok(()))
  {
    hide Validate, Finalize, UndoSteps, FilesBack, Closing, Image, Act, Belongs, Walks, Complete, Recoverable;
    Bounds(lab, origin, role, stage);
    var back := FilesBack(stage.edits, stage.applied);
    EvidenceIsComplete(lab, origin, role, stage);
    PhaseIsAside(lab, role, stage, phase);
    UndoIsWalk(lab, origin, role, stage, |stage.edits|);
    FilesBackWalks(lab, origin, role, stage);
    StepsTo(lab, origin, role, stage, back);
    FinalizeFollows(lab, origin, role, stage.(applied := 0));
  }

  lemma {:induction false} PhaseIsAside(lab: Lab, role: Role, stage: Stage, phase: Phase)
    requires stage.Filed? && Complete(EvidenceOf(lab, role, stage))
    ensures var e, e' := EvidenceOf(lab, role, stage), EvidenceOf(lab, role, stage.(phase := phase));
            Complete(e') && e.states == e'.states && UndoSteps(e', |e.states|) == UndoSteps(e, |e.states|)
  {
    var e, e' := EvidenceOf(lab, role, stage), EvidenceOf(lab, role, stage.(phase := phase));
    SameUndo(e, e', |e.states|);
  }

  lemma {:induction false} SameUndo(e: Evidence, e': Evidence, k: nat)
    requires Complete(e) && Complete(e') && e' == e.(phase := e'.phase) && k <= |e.states|
    ensures UndoSteps(e', k) == UndoSteps(e, k)
    decreases k
  {
    if k > 0 {
      SameUndo(e, e', k - 1);
    }
  }

  lemma BasedImage(lab: Lab, origin: Box, role: Role, stage: Stage)
    requires stage.Filed? && Belongs(lab, origin, role, stage)
    ensures Ops(ServicesBack(role, stage)) == Services(EvidenceOf(lab, role, stage))
    ensures Replay(Act, Image(lab, origin, role, stage), Services(EvidenceOf(lab, role, stage))) ==
            Image(lab, origin, role, stage.(phase := Baseline))
  {
    hide Planned, Patched;
  }

  /** On every stage with a journal, recovery either is the stage's whole walk, or refuses and does nothing. */
  lemma RecoverFollows(lab: Lab, origin: Box, role: Role, stage: Stage)
    requires lab.Valid() && stage.Filed? && Belongs(lab, origin, role, stage)
    ensures stage.applied <= |stage.edits|
    ensures var a := Recover(lab, Image(lab, origin, role, stage));
            if Recoverable(lab, role, stage.edits) then
              var files := Ops(FilesBack(stage.edits, stage.applied)) + Ops(Closing(stage.backup, stage.edits));
              a == Attempt(Ops(ServicesBack(role, stage)) + files, Ok(()))
            else a.end.Fail? && a.steps == []
  {
    hide Validate, RestoreFiles, FilesBack, Closing, ServicesBack, Belongs, Image, Act, Recoverable, EvidenceOf,
         Services;
    Bounds(lab, origin, role, stage);
    StageValidates(lab, origin, role, stage);
    if Recoverable(lab, role, stage.edits) {
      BasedImage(lab, origin, role, stage);
      RestoreFollows(lab, origin, role, stage.(phase := Baseline), stage.phase);
      assert stage.(phase := Baseline).(phase := stage.phase) == stage;
    }
  }

  // ---------------------------------------------------------------- an installation follows a walk

  predicate Active(stage: Stage) {
    stage.Filed? && stage.applied == |stage.edits| && stage.phase == Reloaded
  }

  /** Along the walk the change stays the same, and only a journal that can be read back is removed. */
  ghost predicate About(lab: Lab, role: Role, edits: Edits, walk: Walk<Op, Stage>) {
    forall i :: 0 <= i < |walk| ==>
      (walk[i].1.Filed? ==> walk[i].1.edits == edits) && (walk[i].1.Idle? ==> Recoverable(lab, role, edits))
  }

  lemma {:induction false} FilesBackAbout(lab: Lab, role: Role, edits: Edits, k: nat)
    requires k <= |edits|
    ensures About(lab, role, edits, FilesBack(edits, k))
    decreases k
  {
    if k > 0 {
      FilesBackAbout(lab, role, edits, k - 1);
    }
  }

  lemma RecoverAbout(lab: Lab, role: Role, stage: Stage)
    requires stage.Filed? && stage.applied <= |stage.edits| && Recoverable(lab, role, stage.edits)
    ensures About(lab, role, stage.edits, RecoverWalk(role, stage))
  {
    hide Recoverable, FilesBack;
    FilesBackAbout(lab, role, stage.edits, stage.applied);
  }

  /** The attempt takes the steps of the walk; if it succeeds everything is active, and if it fails and can be recovered
      at all, everything is undone. */
  ghost predicate Tracks(lab: Lab, origin: Box, role: Role, stage: Stage, walk: Walk<Op, Stage>, a: Attempt<Op, ()>) {
    && Walks(Way(lab, origin, role), stage, walk) && a.steps == Ops(walk) && stage.Filed?
    && About(lab, role, stage.edits, walk)
    && var last := Where(stage, walk, |walk|);
    && (if a.end.Ok? then Active(last) else (last == Idle <==> Recoverable(lab, role, stage.edits)))
  }

  lemma ThenTracks(lab: Lab, origin: Box, role: Role, stage: Stage, first: Walk<Op, Stage>, walk: Walk<Op, Stage>,
                   rest: Attempt<Op, ()>)
    requires stage.Filed? && Belongs(lab, origin, role, stage)
             && Walks(Way(lab, origin, role), stage, first)
    requires Tracks(lab, origin, role, Where(stage, first, |first|), walk, rest)
             && Where(stage, first, |first|).edits == stage.edits
    requires About(lab, role, stage.edits, first)
    ensures Tracks(lab, origin, role, stage, first + walk, Then(Ops(first), rest))
  {
    hide Walks, Belongs, Recoverable;
    WalksJoin(Way(lab, origin, role), stage, first, walk);
  }

  lemma AbortFollows(lab: Lab, origin: Box, role: Role, stage: Stage) returns (walk: Walk<Op, Stage>)
    requires lab.Valid() && Fresh(origin, role) && stage.Filed? && Belongs(lab, origin, role, stage)
    ensures Tracks(lab, origin, role, stage, walk, Abort(lab, Image(lab, origin, role, stage)))
    ensures Abort(lab, Image(lab, origin, role, stage)).end.Fail?
  {
    hide Recover, RecoverWalk, Walks, Belongs, Image, Recoverable, FilesBack, ServicesBack, Closing;
    RecoverFollows(lab, origin, role, stage);
    RecoverWalks(lab, origin, role, stage);
    NoWalk(Way(lab, origin, role), stage);
    if Recoverable(lab, role, stage.edits) {
      RecoverAbout(lab, role, stage);
      walk := RecoverWalk(role, stage);
    } else {
      walk := [];
    }
  }

  /** Where an installation stands before its n-th group of steps. */
  function Standing(edits: Edits, n: nat): Stage {
    match n
    case 0 => Filed(false, 0, Baseline, edits)
    case 1 => Filed(true, 0, Baseline, edits)
    case 2 => Filed(true, |edits|, Baseline, edits)
    case 3 => Filed(true, |edits|, Started, edits)
    case _ => Filed(true, |edits|, Reloaded, edits)
  }

  function GroupWalk(role: Role, edits: Edits, n: nat): Walk<Op, Stage> {
    match n
    case 0 => if OriginalData(edits).Some?
        then [(SaveBackup(OriginalData(edits).value), Filed(true, 0, Baseline, edits))] else []
    case 1 =>
      seq(|edits|, i requires 0 <= i < |edits| =>
          (WriteFile(edits[i].place, edits[i].after), Filed(true, i + 1, Baseline, edits)))
    case 2 => [(SaveRuntime(Runtime(role, Started)), Filed(true, |edits|, Started, edits))]
    case 3 => [(SaveRuntime(Runtime(role, Reloaded)), Filed(true, |edits|, Reloaded, edits))]
    case _ => []
  }

  lemma WriteActs(lab: Lab, origin: Box, role: Role, edits: Edits, i: nat)
    requires Planned(lab, origin, role, edits) && i < |edits|
    ensures Act(Image(lab, origin, role, Filed(true, i, Baseline, edits)), WriteFile(edits[i].place, edits[i].after)) ==
            Image(lab, origin, role, Filed(true, i + 1, Baseline, edits))
    ensures Belongs(lab, origin, role, Filed(true, i + 1, Baseline, edits))
  {
    hide SheetOf, Planned;
  }

  lemma WritesWalk(lab: Lab, origin: Box, role: Role, edits: Edits)
    requires Planned(lab, origin, role, edits)
    ensures var walk := GroupWalk(role, edits, 1);
            && Walks(Way(lab, origin, role), Standing(edits, 1), walk) && Ops(walk) == Writes(edits)
            && Where(Standing(edits, 1), walk, |walk|) == Standing(edits, 2)
  {
    hide Act, Image, Belongs, Planned;
    var walk := GroupWalk(role, edits, 1);
    forall i | 0 <= i < |walk|
      ensures Where(Standing(edits, 1), walk, i) == Filed(true, i, Baseline, edits)
      ensures Act(Image(lab, origin, role, Filed(true, i, Baseline, edits)), walk[i].0) ==
              Image(lab, origin, role, walk[i].1)
      ensures Belongs(lab, origin, role, walk[i].1)
    {
      WriteActs(lab, origin, role, edits, i);
    }
  }

  /** The n-th group of steps is a walk to the next standing stage. */
  ghost predicate GroupIsWalk(lab: Lab, origin: Box, role: Role, edits: Edits, n: nat) {
    var walk := GroupWalk(role, edits, n);
    && Walks(Way(lab, origin, role), Standing(edits, n), walk) && Ops(walk) == Group(role, edits, n).0
    && Where(Standing(edits, n), walk, |walk|) == Standing(edits, n + 1)
    && Belongs(lab, origin, role, Standing(edits, n)) && Belongs(lab, origin, role, Standing(edits, n + 1))
    && About(lab, role, edits, walk)
  }

  lemma BackupWalks(lab: Lab, origin: Box, role: Role, edits: Edits)
    requires Planned(lab, origin, role, edits)
    ensures GroupIsWalk(lab, origin, role, edits, 0)
  {
    hide SheetOf, StartFrom, Patched;
    LastRow(lab, origin, role, edits);
  }

  lemma FilesWalk(lab: Lab, origin: Box, role: Role, edits: Edits)
    requires Planned(lab, origin, role, edits)
    ensures GroupIsWalk(lab, origin, role, edits, 1)
  {
    hide SheetOf, StartFrom, Patched, Writes, Walks;
    WritesWalk(lab, origin, role, edits);
  }

  lemma ServiceWalks(lab: Lab, origin: Box, role: Role, edits: Edits, n: nat)
    requires Planned(lab, origin, role, edits) && 2 <= n < 4
    ensures GroupIsWalk(lab, origin, role, edits, n)
  {
    hide SheetOf, StartFrom, Patched, OriginalData;
  }

  lemma GroupWalks(lab: Lab, origin: Box, role: Role, edits: Edits, n: nat)
    requires Planned(lab, origin, role, edits) && n < 4
    ensures GroupIsWalk(lab, origin, role, edits, n)
  {
    hide GroupIsWalk, Planned;
    if n == 0 {
      BackupWalks(lab, origin, role, edits);
    } else if n == 1 {
      FilesWalk(lab, origin, role, edits);
    } else {
      ServiceWalks(lab, origin, role, edits, n);
    }
  }

  lemma {:induction false} ContinueFollows(lab: Lab, origin: Box, role: Role, edits: Edits, n: nat,
      failAt: Option<Point>)
    returns (walk: Walk<Op, Stage>)
    requires lab.Valid() && Fresh(origin, role) && Planned(lab, origin, role, edits) && n <= 4
    ensures var a := Continue(lab, Image(lab, origin, role, Standing(edits, n)), role, edits, n, failAt);
            && Tracks(lab, origin, role, Standing(edits, n), walk, a)
            && (failAt.None? ==> a.end.Ok?)
            && (a.end.Ok? ==> failAt.None? || forall m :: n <= m < 4 ==> failAt.value !in Group(role, edits, m).1)
    decreases 4 - n
  {
    hide Walks, Belongs, Image, Act, Abort, Continue, Group, GroupWalk, Planned, Recoverable, Fresh;
    ContinueUnfolds(lab, Image(lab, origin, role, Standing(edits, n)), role, edits, n, failAt);
    if n == 4 {
      walk := [];
      NoWalk(Way(lab, origin, role), Standing(edits, 4));
    } else {
      var here, next, first := Standing(edits, n), Standing(edits, n + 1), GroupWalk(role, edits, n);
      GroupWalks(lab, origin, role, edits, n);
      StepsTo(lab, origin, role, here, first);
      if failAt.Some? && failAt.value in Group(role, edits, n).1 {
        var undo := AbortFollows(lab, origin, role, next);
        ThenTracks(lab, origin, role, here, first, undo, Abort(lab, Image(lab, origin, role, next)));
        walk := first + undo;
      } else {
        var rest := ContinueFollows(lab, origin, role, edits, n + 1, failAt);
        ThenTracks(lab, origin, role, here, first, rest,
                   Continue(lab, Image(lab, origin, role, next), role, edits, n + 1, failAt));
        walk := first + rest;
      }
    }
  }

  lemma EveryPointFails(role: Role, edits: Edits, point: Point)
    ensures point == AfterJournal || exists m :: 0 <= m < 4 && point in Group(role, edits, m).1
  {
    assert AfterBackup in Group(role, edits, 0).1 && AfterFiles in Group(role, edits, 1).1;
    assert AfterSidecar in Group(role, edits, 2).1;
    assert AfterReload in Group(role, edits, 3).1 && Health in Group(role, edits, 3).1;
  }

  lemma JournaledFollows(lab: Lab, origin: Box, role: Role, edits: Edits,
                         failAt: Option<Point>) returns (walk: Walk<Op, Stage>)
    requires lab.Valid() && Fresh(origin, role) && Planned(lab, origin, role, edits)
    ensures var a := Journaled(lab, Image(lab, origin, role, Standing(edits, 0)), role, edits, failAt);
            Tracks(lab, origin, role, Standing(edits, 0), walk, a) && (a.end.Ok? <==> failAt.None?)
  {
    hide Walks, Belongs, Image, Act, Abort, Continue, Group, Planned, Recoverable, Fresh;
    GroupWalks(lab, origin, role, edits, 0);
    if failAt == Some(AfterJournal) {
      walk := AbortFollows(lab, origin, role, Standing(edits, 0));
    } else {
      walk := ContinueFollows(lab, origin, role, edits, 0, failAt);
      if failAt.Some? { EveryPointFails(role, edits, failAt.value); }
    }
  }

  /** An installation from a fresh box: the journal first, then a walk over stages of the change. */
  lemma InstallFollows(lab: Lab, origin: Box, role: Role, candidate: Candidate, failAt: Option<Point>)
    returns (edits: Edits, walk: Walk<Op, Stage>)
    requires lab.Valid() && Fresh(origin, role) && Plannable(lab, origin.files, role, candidate)
    ensures edits == Plan(lab, origin.files, role, candidate) && Planned(lab, origin, role, edits)
    ensures var a := Install(lab, origin, role, Some(candidate), failAt);
            && Walks(Way(lab, origin, role), Idle, walk) && a.steps == Ops(walk) && walk != []
            && walk[0].1 == Standing(edits, 0)
            && (a.end.Ok? <==> failAt.None?) && About(lab, role, edits, walk)
            && var last := Where(Idle, walk, |walk|);
            && (if a.end.Ok? then Active(last) else (last == Idle <==> Recoverable(lab, role, edits)))
  {
    hide Walks, Belongs, Act, Journaled, Planned, Recoverable, Plannable, SheetOf, Plan;
    edits := Plan(lab, origin.files, role, candidate);
    PlanIsPlanned(lab, origin, role, candidate);
    var first: Walk<Op, Stage> := [(SaveJournal(SheetOf(lab, role, edits)), Standing(edits, 0))];
    JournalWalks(lab, origin, role, edits);
    StepsTo(lab, origin, role, Idle, first);
    assert Ops(first) == [SaveJournal(SheetOf(lab, role, edits))];
    var rest := JournaledFollows(lab, origin, role, edits, failAt);
    WalksJoin(Way(lab, origin, role), Idle, first, rest);
    walk := first + rest;
  }

  lemma JournalWalks(lab: Lab, origin: Box, role: Role, edits: Edits)
    requires Fresh(origin, role) && Planned(lab, origin, role, edits)
    ensures Belongs(lab, origin, role, Idle)
    ensures Walks(Way(lab, origin, role), Idle, [(SaveJournal(SheetOf(lab, role, edits)), Standing(edits, 0))])
  {
    hide SheetOf, StartFrom;
  }

  // ---------------------------------------------------------------- every run

  datatype Event =
    | InstallCall(role: Role, candidate: Option<Candidate>, failAt: Option<Point>, fuse: nat)
    | RecoverCall(fuse: nat)

  function Steps(lab: Lab, s: Box, event: Event): seq<Op> {
    match event
    case InstallCall(role, candidate, failAt, fuse) => UpTo(Install(lab, s, role, candidate, failAt).steps, fuse)
    case RecoverCall(fuse) => UpTo(Recover(lab, s).steps, fuse)
  }

  function Run(lab: Lab, s: Box, events: seq<Event>): Box {
    if events == [] then s
    else
      var before := Run(lab, s, events[..|events| - 1]);
      Replay(Act, before, Steps(lab, before, events[|events| - 1]))
  }

  lemma Busy(lab: Lab, origin: Box, role: Role, stage: Stage, other: Role, candidate: Option<Candidate>,
             failAt: Option<Point>)
    requires Fresh(origin, role) && (stage.Filed? || other != role)
    ensures Install(lab, Image(lab, origin, role, stage), other, candidate, failAt).steps == []
  {
    hide SheetOf, Patched, Plannable, Plan;
  }

  lemma NothingToRecover(lab: Lab, origin: Box, role: Role)
    requires Fresh(origin, role)
    ensures Recover(lab, origin).steps == [] && Recover(lab, origin).end.Fail?
  {
  }

  lemma CallWalks(lab: Lab, origin: Box, role: Role, stage: Stage, event: Event) returns (walk: Walk<Op, Stage>)
    requires lab.Valid() && Fresh(origin, role) && Belongs(lab, origin, role, stage)
    ensures Walks(Way(lab, origin, role), stage, walk)
            && Steps(lab, Image(lab, origin, role, stage), event) <= Ops(walk)
  {
    hide Walks, Install, Recover, Belongs, RecoverWalk, Recoverable, Plannable, SheetOf, Patched, FilesBack,
         ServicesBack, Closing;
    walk := [];
    NoWalk(Way(lab, origin, role), stage);
    match event
    case InstallCall(other, candidate, failAt, _) =>
      if stage.Filed? || other != role {
        Busy(lab, origin, role, stage, other, candidate, failAt);
      } else if candidate.Some? && Plannable(lab, origin.files, role, candidate.value) {
        var _, steps := InstallFollows(lab, origin, role, candidate.value, failAt);
        walk := steps;
      } else {
        assert Install(lab, origin, role, candidate, failAt).steps == []
            by { Unready(lab, origin, role, candidate, failAt); }
      }
    case RecoverCall(_) =>
      if stage == Idle {
        NothingToRecover(lab, origin, role);
      } else {
        RecoverFollows(lab, origin, role, stage);
        RecoverWalks(lab, origin, role, stage);
        walk := if Recoverable(lab, role, stage.edits) then RecoverWalk(role, stage) else [];
      }
  }

  lemma Unready(lab: Lab, s: Box, role: Role, candidate: Option<Candidate>, failAt: Option<Point>)
    requires candidate.Some? ==> !Plannable(lab, s.files, role, candidate.value)
    ensures Install(lab, s, role, candidate, failAt).steps == []
  {
    hide Plannable, Plan;
  }

  lemma {:induction false} RunStays(lab: Lab, origin: Box, role: Role, events: seq<Event>) returns (stage: Stage)
    requires lab.Valid() && Fresh(origin, role)
    ensures Belongs(lab, origin, role, stage)
    ensures Run(lab, origin, events) == Image(lab, origin, role, stage)
  {
    hide Walks, Act, Steps;
    if events == [] {
      stage := Idle;
    } else {
      hide Image, Belongs;
      var before := RunStays(lab, origin, role, events[..|events| - 1]);
      var walk := CallWalks(lab, origin, role, before, events[|events| - 1]);
      var steps := Steps(lab, Image(lab, origin, role, before), events[|events| - 1]);
      WalksEnd(Way(lab, origin, role), before, walk, |steps|);
      assert steps == Ops(walk)[..|steps|];
      stage := Where(before, walk, |steps|);
    }
  }

  predicate IsApplied(lab: Lab, s: Box, row: Row) {
    row.place in s.files && lab.sha(s.files[row.place].data) == row.applied
  }

  /** The write-ahead order, stated on the disk alone. */
  ghost predicate Safe(lab: Lab, origin: Box, role: Role, s: Box) {
    && s.runtime.Holds? && s.runtime.value.role == role
    // services away from their baseline: every owned file is applied
    && (s.runtime.value.phase != Baseline ==>
          s.journal.Holds? && forall row :: row in s.journal.value.rows ==> IsApplied(lab, s, row))
    // a changed file: there is a journal, and a backup with the edited file's original bytes
    && (s.files != origin.files ==>
          && s.journal.Holds? && s.backup.Some? && s.journal.value.rows != []
          && var vhost := s.journal.value.rows[|s.journal.value.rows| - 1].place;
             vhost in origin.files && s.backup == Some(origin.files[vhost].data))
    // no journal: nothing has changed
    && (s.journal.Missing? ==> s == origin)
  }

  lemma StageIsSafe(lab: Lab, origin: Box, role: Role, stage: Stage)
    requires Fresh(origin, role) && Belongs(lab, origin, role, stage)
    ensures Safe(lab, origin, role, Image(lab, origin, role, stage))
  {
    if stage.Filed? {
      var s := Image(lab, origin, role, stage);
      if stage.phase != Baseline {
        forall row | row in s.journal.value.rows ensures IsApplied(lab, s, row) {
          var i :| 0 <= i < |s.journal.value.rows| && s.journal.value.rows[i] == row;
          PatchedAt(origin.files, stage.edits, stage.applied, i);
        }
      }
    }
  }

  /** Every run of installations and recoveries, cut anywhere, keeps the write-ahead order. */
  lemma {:induction false} EveryRunIsSafe(lab: Lab, origin: Box, role: Role, events: seq<Event>)
    requires lab.Valid() && Fresh(origin, role)
    ensures Safe(lab, origin, role, Run(lab, origin, events))
  {
    hide Run, Safe, Belongs, Image;
    var stage := RunStays(lab, origin, role, events);
    StageIsSafe(lab, origin, role, stage);
  }

  /** The journal names the layout's own vhost, and its hash changes. */
  predicate Readable(s: Box) {
    && s.journal.Holds? && |s.journal.value.rows| == |Layout(s.journal.value.role)|
    && var last := s.journal.value.rows[|s.journal.value.rows| - 1];
    && last.place == Layout(s.journal.value.role)[|s.journal.value.rows| - 1]
    && last.before != Some(last.applied)
  }

  lemma ReadableIsRecoverable(lab: Lab, origin: Box, role: Role, stage: Stage)
    requires stage.Filed? && Belongs(lab, origin, role, stage)
    ensures Readable(Image(lab, origin, role, stage)) <==> Recoverable(lab, role, stage.edits)
  {
    hide StartFrom, Patched;
    LastRow(lab, origin, role, stage.edits);
    var rows := SheetOf(lab, role, stage.edits).rows;
    assert rows[|rows| - 1] == RowOf(lab, stage.edits[|stage.edits| - 1]);
  }

  /** After every run, a recovery that is not cut returns exactly when there is a journal that names the layout's own
      vhost with a change of its hash; and then every file is back with its bytes, owner and mode, and nothing is
      left. */
  lemma {:induction false} RecoveryUndoesEveryRun(lab: Lab, origin: Box, role: Role, events: seq<Event>)
    requires lab.Valid() && Fresh(origin, role)
    ensures var s := Run(lab, origin, events);
            && (Recover(lab, s).end.Ok? <==> Readable(s))
            && (Recover(lab, s).end.Ok? ==> Replay(Act, s, Recover(lab, s).steps) == origin)
  {
    hide Run, Recover, Belongs, RecoverWalk, Walks, Act, SheetOf, Patched, Recoverable, FilesBack, ServicesBack,
         Closing;
    var stage := RunStays(lab, origin, role, events);
    if stage == Idle {
      NothingToRecover(lab, origin, role);
    } else {
      hide Readable, Image;
      RecoverFollows(lab, origin, role, stage);
      RecoverWalks(lab, origin, role, stage);
      ReadableIsRecoverable(lab, origin, role, stage);
      StepsTo(lab, origin, role, stage, RecoverWalk(role, stage));
      assert Recoverable(lab, role, stage.edits) ==>
          Ops(RecoverWalk(role, stage)) == Recover(lab, Image(lab, origin, role, stage)).steps;
      assert Image(lab, origin, role, Idle) == origin by { IdleImage(lab, origin, role); }
    }
  }

  lemma IdleImage(lab: Lab, origin: Box, role: Role)
    ensures Image(lab, origin, role, Idle) == origin
  {
  }

  // ---------------------------------------------------------------- which installations can be recovered

  /** What a caller can check before an installation: KH is served from its default site, and the vhost's hash
      changes. */
  predicate CanBeUndone(lab: Lab, role: Role, candidate: Candidate)
    requires Reconciled(role, candidate)
  {
    && (role == Kh ==> candidate.site.None?)
    && lab.sha(candidate.after[|candidate.after| - 1]) != lab.sha(candidate.original)
  }

  lemma PlanIsRecoverable(lab: Lab, origin: Box, role: Role, candidate: Candidate)
    requires Plannable(lab, origin.files, role, candidate)
    ensures Recoverable(lab, role, Plan(lab, origin.files, role, candidate)) <==> CanBeUndone(lab, role, candidate)
  {
    hide Plan, Plannable, StartFrom;
    PlanIsPlanned(lab, origin, role, candidate);
  }

  /** Where an installation that journals its change leaves the disk. */
  lemma InstalledStage(lab: Lab, origin: Box, role: Role, candidate: Candidate, failAt: Option<Point>, fuse: nat)
    returns (stage: Stage)
    requires lab.Valid() && Fresh(origin, role) && Plannable(lab, origin.files, role, candidate) && fuse > 0
    ensures Belongs(lab, origin, role, stage)
    ensures Replay(Act, origin, UpTo(Install(lab, origin, role, Some(candidate), failAt).steps, fuse)) ==
            Image(lab, origin, role, stage)
    ensures stage.Filed? ==> (Recoverable(lab, role, stage.edits) <==> CanBeUndone(lab, role, candidate))
    ensures stage == Idle ==> CanBeUndone(lab, role, candidate)
  {
    hide Walks, Act, Install, Plannable, Recoverable, CanBeUndone, Planned, Plan;
    var edits, walk := InstallFollows(lab, origin, role, candidate, failAt);
    PlanIsRecoverable(lab, origin, role, candidate);
    var k := if fuse < |walk| then fuse else |walk|;
    WalksEnd(Way(lab, origin, role), Idle, walk, k);
    assert Ops(walk)[..k] == UpTo(Ops(walk), fuse);
    stage := Where(Idle, walk, k);
    IdleImage(lab, origin, role);
  }

  /** A stage whose journal cannot be read back is never left: every call refuses and does nothing. */
  lemma {:induction false} NeverLeft(lab: Lab, origin: Box, role: Role, stage: Stage, events: seq<Event>)
    requires lab.Valid() && Fresh(origin, role) && stage.Filed? && Belongs(lab, origin, role, stage)
    requires !Recoverable(lab, role, stage.edits)
    ensures Run(lab, Image(lab, origin, role, stage), events) == Image(lab, origin, role, stage)
  {
    hide Image, Belongs, Recoverable, Recover, Install, Fresh;
    if events != [] {
      NeverLeft(lab, origin, role, stage, events[..|events| - 1]);
      RecoverFollows(lab, origin, role, stage);
      var s, event := Image(lab, origin, role, stage), events[|events| - 1];
      if event.InstallCall? {
        Busy(lab, origin, role, stage, event.role, event.candidate, event.failAt);
      }
      assert Steps(lab, s, event) == [];
    }
  }

  /** Once an installation has written its journal, wherever it is cut: the box can be brought back to what it was (or
      already is) if and only if KH is served from its default site and the vhost's hash changes.  Otherwise every
      later run, whatever is called, leaves the box changed as it is. */
  lemma {:induction false} UndoneExactlyWhen(lab: Lab, origin: Box, role: Role, candidate: Candidate,
                                             failAt: Option<Point>, fuse: nat)
    requires lab.Valid() && Fresh(origin, role) && Plannable(lab, origin.files, role, candidate) && fuse > 0
    ensures var s := Replay(Act, origin, UpTo(Install(lab, origin, role, Some(candidate), failAt).steps, fuse));
            if CanBeUndone(lab, role, candidate) then
              s == origin || (Recover(lab, s).end.Ok? && Replay(Act, s, Recover(lab, s).steps) == origin)
            else
              s != origin && Recover(lab, s).end.Fail? && forall events :: Run(lab, s, events) == s
  {
    hide Act, Install, Plannable, Recoverable, CanBeUndone, Recover, RecoverWalk, Walks, Run, FilesBack, ServicesBack,
         Closing;
    var stage := InstalledStage(lab, origin, role, candidate, failAt, fuse);
    var s := Image(lab, origin, role, stage);
    if stage.Filed? {
      RecoverFollows(lab, origin, role, stage);
      if Recoverable(lab, role, stage.edits) {
        RecoverWalks(lab, origin, role, stage);
        assert Ops(RecoverWalk(role, stage)) == Recover(lab, s).steps;
        StepsTo(lab, origin, role, stage, RecoverWalk(role, stage));
      } else {
        forall events ensures Run(lab, s, events) == s {
          NeverLeft(lab, origin, role, stage, events);
        }
      }
    }
  }

  /** For instance: a KH served from a site of its own.  The installation succeeds, and no recovery does. */
  lemma {:induction false} OwnSiteIsStuck(lab: Lab, site: string)
    requires lab.Valid()
    ensures var vhost := File([1], lab.uid, lab.gid, PUBLIC);
            var origin := Box(map[Elsewhere(site) := vhost], Holds(Runtime(Kh, Baseline)), Missing, None);
            var candidate := Candidate([[2], [3], [4], [5]], [1], Some(site));
            var a := Install(lab, origin, Kh, Some(candidate), None);
            var s := Replay(Act, origin, a.steps);
            a.end.Ok? && s != origin && Recover(lab, s).end.Fail?
  {
    var vhost := File([1], lab.uid, lab.gid, PUBLIC);
    var origin := Box(map[Elsewhere(site) := vhost], Holds(Runtime(Kh, Baseline)), Missing, None);
    var candidate := Candidate([[2], [3], [4], [5]], [1], Some(site));
    assert Plannable(lab, origin.files, Kh, candidate) by {
      assert forall i :: 0 <= i < 4 ==> PlanOne(lab, origin.files, Kh, candidate, i).Some?;
    }
    hide Install, Recover, Run, Plannable, Act;
    var steps := Install(lab, origin, Kh, Some(candidate), None).steps;
    UndoneExactlyWhen(lab, origin, Kh, candidate, None, |steps|);
    var _, _ := InstallFollows(lab, origin, Kh, candidate, None);
  }
}
