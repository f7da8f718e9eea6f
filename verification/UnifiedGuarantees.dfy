/** What one recovery of the one-level lab does on any disk at all, reachable or not. */
module UnifiedGuarantees {
  import opened Durable
  import opened OwnedFiles
  import opened UnifiedLab

  /** What recovery has to make of one resource: what was created goes, and what was edited becomes the backup with the
      recorded owner and mode. */
  function FateOf(e: Evidence, i: nat): Fate<Place, File>
    requires Complete(e) && i < |e.states|
  {
    var row := e.sheet.rows[i];
    Fate(row.place, e.states[i],
         if row.edit && e.backup.Some? then Some(File(e.backup.value, row.uid, row.gid, row.mode)) else None)
  }

  function Fates(e: Evidence): seq<Fate<Place, File>>
    requires Complete(e)
  {
    seq(|e.states|, i requires 0 <= i < |e.states| => FateOf(e, i))
  }

  /** The files after undoing the first k resources, the last first. */
  function Restored(files: map<Place, File>, e: Evidence, k: nat): map<Place, File>
    requires Complete(e) && k <= |e.states|
  {
    MendedAll(files, Fates(e), k)
  }

  lemma {:induction false} UndoReaches(s: Box, e: Evidence, k: nat)
    requires Complete(e) && k <= |e.states|
    ensures Replay(Act, s, UndoSteps(e, k)) == s.(files := Restored(s.files, e, k))
    decreases k
  {
    hide Replay, UndoSteps, Complete;
    if k == 0 {
      UndoUnfolds(e, 0);
      NoSteps(Act, s, 0);
    } else {
      UndoUnfolds(e, k - 1);
      var next := s.(files := Mended(s.files, FateOf(e, k - 1)));
      UndoReaches(next, e, k - 1);
      if e.states[k - 1] {
        var steps := UndoSteps(e, k);
        ReplayFirst(Act, s, steps);
        assert steps[1..] == UndoSteps(e, k - 1);
        assert Act(s, steps[0]) == next by { UndoActs(s, e, k - 1); }
      } else {
        assert next == s && UndoSteps(e, k) == UndoSteps(e, k - 1);
      }
    }
  }

  lemma UndoActs(s: Box, e: Evidence, i: nat)
    requires Complete(e) && i < |e.states| && e.states[i]
    ensures Act(s, UndoStep(e.sheet.rows[i], e.backup)) == s.(files := Mended(s.files, FateOf(e, i)))
  {
  }

  /** What recovery makes of one resource. */
  function RestoredFile(files: map<Place, File>, e: Evidence, i: nat): Option<File>
    requires Complete(e) && i < |e.states|
  {
    FateAt(files, FateOf(e, i))
  }

  lemma RestoredAt(files: map<Place, File>, e: Evidence, place: Place)
    requires Complete(e) && Distinct(Fates(e))
    ensures forall i :: 0 <= i < |e.states| && e.sheet.rows[i].place == place ==>
              At(Restored(files, e, |e.states|), place) == RestoredFile(files, e, i)
    ensures (forall row :: row in e.sheet.rows ==> row.place != place) ==>
              At(Restored(files, e, |e.states|), place) == At(files, place)
  {
    MendedAt(files, Fates(e), |e.states|, place);
    forall i | 0 <= i < |e.states| ensures Fates(e)[i] == FateOf(e, i) && e.sheet.rows[i] in e.sheet.rows {
    }
  }

  lemma LayoutIsDistinct(sheet: Sheet)
    requires SheetTrusted(sheet)
    ensures forall i, j :: 0 <= i < j < |sheet.rows| ==> sheet.rows[i].place != sheet.rows[j].place
  {
    assert forall role, i, j :: 0 <= i < j < |Layout(role)| ==> Layout(role)[i] != Layout(role)[j];
    forall i | 0 <= i < |sheet.rows| ensures sheet.rows[i].place == Layout(sheet.role)[i] {
      assert RowTrusted(sheet.role, sheet.rows[i], i);
    }
  }

  lemma ValidFacts(lab: Lab, s: Box, e: Evidence)
    requires Validate(lab, s) == Ok(e)
    ensures Complete(e) && SheetTrusted(e.sheet) && Distinct(Fates(e)) && s.journal == Holds(e.sheet)
            && s.backup == e.backup
    ensures s.runtime == Holds(Runtime(e.sheet.role, e.phase)) && BackupVerified(lab, s, e.sheet, e.states)
    ensures forall i :: 0 <= i < |e.states| ==> Seen(lab, s.files, e.sheet.rows[i]) == Some(e.states[i])
  {
    hide SheetTrusted, Seen;
    LayoutIsDistinct(e.sheet);
  }

  /** A restored resource is seen as original. */
  lemma RestoredIsOriginal(lab: Lab, s: Box, e: Evidence, i: nat)
    requires Validate(lab, s) == Ok(e) && i < |e.states|
    ensures Complete(e) && |e.states| == |e.sheet.rows|
    ensures Seen(lab, Restored(s.files, e, |e.states|), e.sheet.rows[i]) == Some(false)
  {
    hide Validate, SheetTrusted, Restored;
    ValidFacts(lab, s, e);
    var row := e.sheet.rows[i];
    assert RowTrusted(e.sheet.role, row, i) by { RowIsTrusted(e.sheet, i); }
    RestoredAt(s.files, e, row.place);
    assert Seen(lab, s.files, row) == Some(e.states[i]);
    if e.states[i] && row.edit {
      assert e.backup.Some?;
      assert row.before == Some(lab.sha(e.backup.value)) by { LastIsEdited(lab, s, e, i); }
    }
  }

  lemma RowIsTrusted(sheet: Sheet, i: nat)
    requires SheetTrusted(sheet) && i < |sheet.rows|
    ensures i < |Layout(sheet.role)| && RowTrusted(sheet.role, sheet.rows[i], i)
  {
  }

  lemma LastIsEdited(lab: Lab, s: Box, e: Evidence, i: nat)
    requires SheetTrusted(e.sheet) && i < |e.sheet.rows| && e.sheet.rows[i].edit
    requires BackupVerified(lab, s, e.sheet, e.states) && s.backup.Some?
    ensures e.sheet.rows[i].before == Some(lab.sha(s.backup.value))
  {
  }

  /** The disk once services and files are back, the evidence still there. */
  function Back(s: Box, e: Evidence): Box
    requires Complete(e)
  {
    s.(files := Restored(s.files, e, |e.states|), runtime := Holds(Runtime(e.sheet.role, Baseline)))
  }

  lemma BackValidates(lab: Lab, s: Box, e: Evidence)
    requires Validate(lab, s) == Ok(e)
    ensures Complete(e)
    ensures Validate(lab, Back(s, e)).Ok?
    ensures var again := Validate(lab, Back(s, e)).value; true !in again.states && again.phase == Baseline
  {
    hide SheetTrusted, Seen, Restored;
    ValidFacts(lab, s, e);
    var files, rows := Restored(s.files, e, |e.states|), e.sheet.rows;
    forall i | 0 <= i < |rows| ensures Seen(lab, files, rows[i]) == Some(false) {
      RestoredIsOriginal(lab, s, e, i);
    }
    assert true !in States(lab, files, rows);
  }

  lemma FinalSteps(s: Box)
    ensures Replay(Act, s, (if s.backup.Some? then [DropBackup] else []) + [DropJournal]) ==
            s.(backup := None, journal := Missing)
  {
    hide Replay;
    var first := if s.backup.Some? then [DropBackup] else [];
    ReplayJoin(Act, s, first, [DropJournal]);
    ReplayOne(Act, Replay(Act, s, first), DropJournal);
    if s.backup.Some? {
      ReplayOne(Act, s, DropBackup);
    } else {
      NoSteps(Act, s, 0);
    }
  }

  lemma RecoverUnfolds(lab: Lab, s: Box, e: Evidence)
    requires Validate(lab, s) == Ok(e)
    ensures Complete(e)
    ensures Recover(lab, s).end == Ok(())
    ensures Replay(Act, s, Recover(lab, s).steps) == Back(s, e).(backup := None, journal := Missing)
  {
    hide Validate, UndoSteps, Replay, Restored;
    ValidFacts(lab, s, e);
    var served := Replay(Act, s, Services(e));
    assert served == s.(runtime := Holds(Runtime(e.sheet.role, Baseline))) by { ServicesReach(s, e); }
    UndoReaches(served, e, |e.states|);
    var back := Replay(Act, served, UndoSteps(e, |e.states|));
    assert back == Back(s, e);
    BackValidates(lab, s, e);
    var last := Finalize(lab, back).steps;
    FinalSteps(back);
    ReplayJoin(Act, served, UndoSteps(e, |e.states|), last);
    ReplayJoin(Act, s, Services(e), UndoSteps(e, |e.states|) + last);
  }

  lemma ServicesReach(s: Box, e: Evidence)
    requires s.runtime == Holds(Runtime(e.sheet.role, e.phase))
    ensures Replay(Act, s, Services(e)) == s.(runtime := Holds(Runtime(e.sheet.role, Baseline)))
  {
  }

  /** On any disk at all, a recovery that refuses has written nothing: no file, service, backup or journal is
      touched. */
  lemma {:induction false} RefusalWritesNothing(lab: Lab, s: Box)
    requires Recover(lab, s).end.Fail?
    ensures Recover(lab, s).steps == [] && Validate(lab, s).Fail?
  {
    hide Validate, RestoreFiles;
    if Validate(lab, s).Ok? {
      RecoverUnfolds(lab, s, Validate(lab, s).value);
    }
  }

  /** On any disk at all, a recovery that is not cut returns exactly when the evidence validates; and then the
      services are at their baseline, the evidence is gone, every created file is absent, the edited one has the bytes
      of the backup with the recorded owner and mode if it had been applied, and no other file has changed. */
  lemma {:induction false} RecoveryIsExact(lab: Lab, s: Box)
    ensures Recover(lab, s).end.Ok? <==> Validate(lab, s).Ok?
    ensures Recover(lab, s).end.Ok? ==>
              var e, after := Validate(lab, s).value, Replay(Act, s, Recover(lab, s).steps);
              && after.runtime == Holds(Runtime(e.sheet.role, Baseline)) && after.journal.Missing? && after.backup.None?
              && (forall i :: 0 <= i < |e.states| ==>
                  At(after.files, e.sheet.rows[i].place) == RestoredFile(s.files, e, i))
              && (forall place :: (forall row :: row in e.sheet.rows ==> row.place != place) ==>
                  At(after.files, place) == At(s.files, place))
  {
    hide Validate, RestoreFiles, Restored, RestoredFile, SheetTrusted, Seen;
    if Validate(lab, s).Ok? {
      var e := Validate(lab, s).value;
      RecoverUnfolds(lab, s, e);
      ValidFacts(lab, s, e);
      var after := Replay(Act, s, Recover(lab, s).steps);
      forall i | 0 <= i < |e.states| ensures At(after.files, e.sheet.rows[i].place) == RestoredFile(s.files, e, i) {
        RestoredAt(s.files, e, e.sheet.rows[i].place);
      }
      forall place | forall row :: row in e.sheet.rows ==> row.place != place
          ensures At(after.files, place) == At(s.files, place) {
        RestoredAt(s.files, e, place);
      }
    }
  }
}
