/** What one rollback of the sidecar lab does on any disk at all, reachable or not. */
module SidecarGuarantees {
  import opened Durable
  import opened OwnedFiles
  import opened SidecarRecovery
  import opened SidecarTransaction

  /** What a rollback has to make of one resource: what was created goes, and what was edited becomes the backup. */
  function FateOf(e: Evidence, i: nat): Fate<Place, Bytes>
    requires Complete(e) && i < |e.states|
  {
    Fate(e.sheet.rows[i].place, e.states[i], if e.sheet.rows[i].edit then e.original else None)
  }

  function Fates(e: Evidence): seq<Fate<Place, Bytes>>
    requires Complete(e)
  {
    seq(|e.states|, i requires 0 <= i < |e.states| => FateOf(e, i))
  }

  /** The files after undoing the first k resources, the last first. */
  function Restored(files: map<Place, Bytes>, e: Evidence, k: nat): map<Place, Bytes>
    requires Complete(e) && k <= |e.states|
  {
    MendedAll(files, Fates(e), k)
  }

  lemma UndoActs(s: Box, e: Evidence, i: nat)
    requires Complete(e) && i < |e.states| && e.states[i]
    ensures Act(s, UndoStep(e.sheet.rows[i], e.original)) == s.(files := Mended(s.files, FateOf(e, i)))
  {
  }

  lemma {:induction false} UndoReaches(s: Box, e: Evidence, k: nat)
    requires Complete(e) && k <= |e.states|
    ensures Replay(Act, s, UndoSteps(e, k)) == s.(files := Restored(s.files, e, k))
    decreases k
  {
    hide Replay, UndoSteps, Complete;
    if k == 0 {
      UndoUnfolds(e, 0);
      NoSteps(Act, s, 0);
    } else {
      UndoUnfolds(e, k - 1);
      var next := s.(files := Mended(s.files, FateOf(e, k - 1)));
      UndoReaches(next, e, k - 1);
      if e.states[k - 1] {
        var steps := UndoSteps(e, k);
        ReplayFirst(Act, s, steps);
        assert steps[1..] == UndoSteps(e, k - 1);
        assert Act(s, steps[0]) == next by { UndoActs(s, e, k - 1); }
      } else {
        assert next == s && UndoSteps(e, k) == UndoSteps(e, k - 1);
      }
    }
  }

  /** What a rollback makes of one resource. */
  function RestoredFile(files: map<Place, Bytes>, e: Evidence, i: nat): Option<Bytes>
    requires Complete(e) && i < |e.states|
  {
    FateAt(files, FateOf(e, i))
  }

  lemma RestoredAt(files: map<Place, Bytes>, e: Evidence, place: Place)
    requires Complete(e) && Distinct(Fates(e))
    ensures forall i :: 0 <= i < |e.states| && e.sheet.rows[i].place == place ==>
              At(Restored(files, e, |e.states|), place) == RestoredFile(files, e, i)
    ensures (forall row :: row in e.sheet.rows ==> row.place != place) ==>
              At(Restored(files, e, |e.states|), place) == At(files, place)
  {
    MendedAt(files, Fates(e), |e.states|, place);
    forall i | 0 <= i < |e.states| ensures Fates(e)[i] == FateOf(e, i) && e.sheet.rows[i] in e.sheet.rows {
    }
  }

  lemma OwnedIsDistinct(role: Role)
    ensures forall i, j :: 0 <= i < j < |Owned(role)| ==> Owned(role)[i] != Owned(role)[j]
  {
  }

  lemma RowsAreOwned(sheet: Sheet)
    requires SheetTrusted(sheet)
    ensures forall i, j :: 0 <= i < j < |sheet.rows| ==> sheet.rows[i].place != sheet.rows[j].place
    ensures forall i :: 0 <= i < |sheet.rows| ==>
              sheet.rows[i].edit == (sheet.rows[i].place == PanelBackend) && (sheet.rows[i].edit ==> sheet.role == Ir)
  {
    OwnedIsDistinct(sheet.role);
    hide Owned;
    assert PanelBackend in Owned(sheet.role) ==> sheet.role == Ir by { KhOwnsNoBackend(); }
  }

  lemma KhOwnsNoBackend()
    ensures PanelBackend !in Owned(Kh)
  {
  }

  lemma ValidFacts(lab: Lab, s: Box, e: Evidence)
    requires Validate(lab, s) == Ok(e)
    ensures Complete(e) && SheetTrusted(e.sheet) && Distinct(Fates(e)) && s.journal == Holds(e.sheet)
            && e.original == s.original
    ensures VerifyOriginal(lab, s.original, e.sheet, e.states) == Ok(s.original)
    ensures forall i :: 0 <= i < |e.states| ==> Seen(lab, s.files, e.sheet.rows[i]) == Some(e.states[i])
  {
    hide SheetTrusted, Seen, Observed;
    RowsAreOwned(e.sheet);
    assert Observed(lab, s.files, e.sheet.rows) == Ok(e.states);
    ObservedSeen(lab, s.files, e.sheet.rows);
  }

  lemma ObservedSeen(lab: Lab, files: map<Place, Bytes>, rows: seq<Row>)
    ensures var r := Observed(lab, files, rows);
            r.Ok? ==> forall i :: 0 <= i < |rows| ==> Seen(lab, files, rows[i]) == Some(r.value[i])
  {
  }

  /** A resource that has been put back is seen as original. */
  lemma RestoredIsOriginal(lab: Lab, s: Box, e: Evidence, i: nat)
    requires Validate(lab, s) == Ok(e) && i < |e.states|
    ensures Complete(e) && |e.states| == |e.sheet.rows|
    ensures Seen(lab, Restored(s.files, e, |e.states|), e.sheet.rows[i]) == Some(false)
  {
    hide Validate, SheetTrusted, Restored, Owned;
    ValidFacts(lab, s, e);
    RowsAreOwned(e.sheet);
    var row := e.sheet.rows[i];
    assert RowTrusted(row, row.place) by { RowIsTrusted(e.sheet, i); }
    RestoredAt(s.files, e, row.place);
    assert Seen(lab, s.files, row) == Some(e.states[i]);
    if e.states[i] && row.edit {
      assert true in e.states && e.original.Some?;
      assert row.before == Some(lab.sha(e.original.value));
    }
  }

  lemma RowIsTrusted(sheet: Sheet, i: nat)
    requires SheetTrusted(sheet) && i < |sheet.rows|
    ensures RowTrusted(sheet.rows[i], sheet.rows[i].place)
  {
  }

  /** The disk once the files are back, the evidence still there. */
  function Back(s: Box, e: Evidence): Box
    requires Complete(e)
  {
    s.(files := Restored(s.files, e, |e.states|))
  }

  lemma BackValidates(lab: Lab, s: Box, e: Evidence)
    requires Validate(lab, s) == Ok(e)
    ensures Complete(e)
    ensures var again := Validate(lab, Back(s, e));
            again.Ok? && true !in again.value.states && again.value.sheet == e.sheet
  {
    hide SheetTrusted, Seen, Restored;
    ValidFacts(lab, s, e);
    var files, rows := Restored(s.files, e, |e.states|), e.sheet.rows;
    forall i | 0 <= i < |rows| ensures Seen(lab, files, rows[i]) == Some(false) {
      RestoredIsOriginal(lab, s, e, i);
    }
    assert Observed(lab, files, rows).Ok? && true !in Observed(lab, files, rows).value;
  }

  lemma FinalSteps(s: Box, dropped: bool)
    requires dropped <==> s.original.Some?
    ensures Replay(Act, s, (if dropped then [DropOriginal] else []) + [DropJournal]) ==
            s.(original := None, journal := Missing)
  {
    hide Replay;
    var first := if dropped then [DropOriginal] else [];
    ReplayJoin(Act, s, first, [DropJournal]);
    ReplayOne(Act, Replay(Act, s, first), DropJournal);
    if dropped { ReplayOne(Act, s, DropOriginal); } else { NoSteps(Act, s, 0); }
  }

  /** The recovery of the files, uncut. */
  lemma FilesUnfold(lab: Lab, s: Box, e: Evidence)
    requires Validate(lab, s) == Ok(e)
    ensures Complete(e) && RecoverFiles(lab, s).end == Ok(())
    ensures Replay(Act, s, RecoverFiles(lab, s).steps) == Back(s, e).(original := None, journal := Missing)
  {
    hide Validate, UndoSteps, Replay, Restored, VerifyOriginal;
    ValidFacts(lab, s, e);
    var steps := UndoSteps(e, |e.states|);
    UndoReaches(s, e, |e.states|);
    var back := Replay(Act, s, steps);
    assert back == Back(s, e);
    BackValidates(lab, s, e);
    var last := Finalize(lab, back).steps;
    NoBackup(lab, s.original, e.sheet, e.states);
    FinalSteps(back, back.original.Some?);
    ReplayJoin(Act, s, steps, last);
  }

  lemma NoBackup(lab: Lab, original: Option<Bytes>, sheet: Sheet, states: seq<bool>)
    requires VerifyOriginal(lab, original, sheet, states).Ok?
    ensures sheet.role == Kh ==> original.None?
  {
  }

  lemma ServicesReach(s: Box, role: Role, changed: bool)
    ensures Replay(Act, s, Services(role, changed)) == if changed then s.(runtime := Holds(Runtime(role, Baseline)))
            else s
  {
  }

  /** The disk after a rollback that is not cut. */
  function Reverted(lab: Lab, s: Box): Box
    requires Preflight(lab, s).Ok?
  {
    var calm := s.(intent := Missing, runtime := Holds(Runtime(Preflight(lab, s).value.0, Baseline)));
    if s.journal.Missing? then calm
    else calm.(journal := Missing, original := None, files :=
        Restored(s.files, Validate(lab, s).value, |Validate(lab, s).value.states|))
  }

  lemma PreflightFacts(lab: Lab, s: Box)
    requires Preflight(lab, s).Ok?
    ensures var (role, changed) := Preflight(lab, s).value;
            && s.intent == Holds(role) && s.runtime.Holds? && s.runtime.value.role == role
            && (changed <==> s.runtime.value.phase != Baseline)
            && (s.journal.Missing? || Validate(lab, s).Ok?)
  {
    hide Validate;
  }

  lemma RevertUnfolds(lab: Lab, s: Box)
    requires Preflight(lab, s).Ok?
    ensures Revert(lab, s).end == Ok(()) && Replay(Act, s, Revert(lab, s).steps) == Reverted(lab, s)
  {
    hide Preflight, Validate, RecoverFiles, Replay, Restored;
    PreflightFacts(lab, s);
    var (role, changed) := Preflight(lab, s).value;
    var steps := Services(role, changed);
    ServicesReach(s, role, changed);
    var calm := Replay(Act, s, steps);
    assert calm == s.(runtime := Holds(Runtime(role, Baseline)));
    ReplayJoin(Act, s, steps, RevertFiles(lab, calm, role).steps);
    if s.journal.Missing? {
      ReplayOne(Act, calm, DropIntent);
    } else {
      var e := Validate(lab, s).value;
      assert Validate(lab, calm) == Ok(e) by { ServicesAside(lab, s, calm); }
      FilesUnfold(lab, calm, e);
      var first := RecoverFiles(lab, calm).steps;
      ReplayJoin(Act, calm, first, [DropIntent]);
      ReplayOne(Act, Replay(Act, calm, first), DropIntent);
    }
  }

  lemma ServicesAside(lab: Lab, s: Box, t: Box)
    requires t.files == s.files && t.journal == s.journal && t.original == s.original
    ensures Validate(lab, t) == Validate(lab, s)
  {
  }

  /** On any disk at all, a rollback that refuses has written nothing: no file, service, backup, journal or intent is
      touched. */
  lemma {:induction false} RefusalWritesNothing(lab: Lab, s: Box)
    requires Revert(lab, s).end.Fail?
    ensures Revert(lab, s).steps == [] && Preflight(lab, s).Fail?
  {
    hide Preflight, RevertFiles;
    if Preflight(lab, s).Ok? {
      RevertUnfolds(lab, s);
    }
  }

  /** On any disk at all, a rollback that is not cut returns exactly when its read-only part finds nothing; and then
      no intent and no journal is left and the services are at their baseline.  Under a journal, moreover, no backup
      is left, every created file is absent, the edited one has the bytes of the backup if it had been changed, and no
      other file has changed; without one, no file and no backup has. */
  lemma {:induction false} RevertIsExact(lab: Lab, s: Box)
    ensures Revert(lab, s).end.Ok? <==> Preflight(lab, s).Ok?
    ensures Revert(lab, s).end.Ok? ==>
              var after := Replay(Act, s, Revert(lab, s).steps);
              && after.intent.Missing? && after.journal.Missing? && s.intent.Holds?
              && after.runtime == Holds(Runtime(s.intent.value, Baseline))
              && (s.journal.Missing? ==> after.files == s.files && after.original == s.original)
    ensures Revert(lab, s).end.Ok? && !s.journal.Missing? ==>
              var e, after := Validate(lab, s).value, Replay(Act, s, Revert(lab, s).steps);
              && Validate(lab, s).Ok? && after.original.None? && |e.states| == |e.sheet.rows|
              && (forall i :: 0 <= i < |e.states| ==>
                  At(after.files, e.sheet.rows[i].place) == RestoredFile(s.files, e, i))
              && (forall i :: 0 <= i < |e.states| && !e.sheet.rows[i].edit ==> e.sheet.rows[i].place !in after.files)
              && (forall place :: (forall row :: row in e.sheet.rows ==> row.place != place) ==>
                  At(after.files, place) == At(s.files, place))
  {
    hide Preflight, Validate, RevertFiles, Restored, RestoredFile, SheetTrusted, Seen;
    if Preflight(lab, s).Ok? {
      RevertUnfolds(lab, s);
      PreflightFacts(lab, s);
      var after := Replay(Act, s, Revert(lab, s).steps);
      if !s.journal.Missing? {
        FilesAreExact(lab, s, Validate(lab, s).value);
      }
    }
  }

  lemma FilesAreExact(lab: Lab, s: Box, e: Evidence)
    requires Validate(lab, s) == Ok(e)
    ensures Complete(e) && |e.states| == |e.sheet.rows|
    ensures var files := Restored(s.files, e, |e.states|);
            && (forall i :: 0 <= i < |e.states| ==> At(files, e.sheet.rows[i].place) == RestoredFile(s.files, e, i))
            && (forall i :: 0 <= i < |e.states| && !e.sheet.rows[i].edit ==> e.sheet.rows[i].place !in files)
            && (forall place :: (forall row :: row in e.sheet.rows ==> row.place != place) ==>
                At(files, place) == At(s.files, place))
  {
    hide Validate, Restored, RestoredFile, SheetTrusted, VerifyOriginal;
    ValidFacts(lab, s, e);
    var files := Restored(s.files, e, |e.states|);
    forall i | 0 <= i < |e.states|
      ensures At(files, e.sheet.rows[i].place) == RestoredFile(s.files, e, i)
      ensures !e.sheet.rows[i].edit ==> e.sheet.rows[i].place !in files
    {
      RestoredAt(s.files, e, e.sheet.rows[i].place);
      RestoredIsOriginal(lab, s, e, i);
      CreatedIsGone(lab, files, e.sheet.rows[i]);
    }
    forall place | forall row :: row in e.sheet.rows ==> row.place != place
        ensures At(files, place) == At(s.files, place) {
      RestoredAt(s.files, e, place);
    }
  }

  /** A created resource that is seen as original is absent. */
  lemma CreatedIsGone(lab: Lab, files: map<Place, Bytes>, row: Row)
    requires Seen(lab, files, row) == Some(false)
    ensures !row.edit ==> row.place !in files
  {
  }
}
