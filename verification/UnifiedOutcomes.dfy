/** Exactly when the one-level lab installs, and what it leaves; stated on the box and the candidate alone. */
module UnifiedOutcomes {
  import opened Durable
  import opened OwnedFiles
  import opened UnifiedLab
  import opened UnifiedRuns
  import UnifiedGuarantees
  import H = Host

  /** Where the bytes of a candidate go; the last is the vhost, and KH's may be a site of its own. */
  function Targets(role: Role, candidate: Candidate): seq<Place> {
    match role
    case Ir => [IrToml, IrCompose, IrControl, IrXhttp, PanelBackend]
    case Kh => [KhToml, KhCompose, KhBridge, if candidate.site.Some? then Elsewhere(candidate.site.value) else KhVhost]
  }

  /** The box has no transaction, every file but the vhost is absent, and the vhost is the reviewed original. */
  predicate Fits(lab: Lab, s: Box, role: Role, candidate: Candidate) {
    var places := Targets(role, candidate);
    var last := |places| - 1;
    && s.runtime == Holds(Runtime(role, Baseline)) && s.journal.Missing? && s.backup.None?
    && |candidate.after| == |places|
    && (forall i :: 0 <= i < last ==> places[i] !in s.files)
    && places[last] in s.files && s.files[places[last]].data == candidate.original
    && s.files[places[last]].mode in {0x180, 0x1A0, 0x1A4}
    && s.files[places[last]].uid == lab.uid && s.files[places[last]].gid == lab.gid
  }

  lemma TargetsAre(role: Role, candidate: Candidate)
    ensures |Targets(role, candidate)| == |Layout(role)| >= 4
    ensures forall i :: 0 <= i < |Layout(role)| ==> PlaceOf(role, candidate, i) == Targets(role, candidate)[i]
    ensures forall i :: 0 <= i < |Layout(role)| ==> (IsLast(role, i) <==> i == |Layout(role)| - 1)
  {
  }

  lemma PreparedExactly(lab: Lab, s: Box, role: Role, candidate: Option<Candidate>)
    ensures Prepare(lab, s, role, candidate).Ok? <==> candidate.Some? && Fits(lab, s, role, candidate.value)
    ensures Prepare(lab, s, role, candidate).Ok? ==> Fresh(s, role) && Plannable(lab, s.files, role, candidate.value)
  {
    if candidate.Some? {
      TargetsAre(role, candidate.value);
      hide Targets, Layout, IsLast, PlaceOf;
      if Fits(lab, s, role, candidate.value) {
        assert Plannable(lab, s.files, role, candidate.value);
      }
      if Plannable(lab, s.files, role, candidate.value) {
        var last := |Layout(role)| - 1;
        assert PlanOne(lab, s.files, role, candidate.value, last).Some?;
        forall i | 0 <= i < last ensures Targets(role, candidate.value)[i] !in s.files {
          assert PlanOne(lab, s.files, role, candidate.value, i).Some?;
        }
      }
    }
  }

  /** The file at one of the places after an installation: created files belong to the lab and are private; the vhost
      keeps its owner and mode. */
  function InstalledAt(lab: Lab, s: Box, places: seq<Place>, candidate: Candidate, i: nat): File
    requires i < |places| == |candidate.after|
  {
    if i + 1 < |places| then File(candidate.after[i], lab.uid, lab.gid, 0x180)
    else if places[i] in s.files then s.files[places[i]].(data := candidate.after[i])
    else File(candidate.after[i], lab.uid, lab.gid, 0x180)
  }

  /** What the journal has to say of it. */
  function RowAt(lab: Lab, s: Box, places: seq<Place>, candidate: Candidate, i: nat): Row
    requires i < |places| == |candidate.after|
  {
    var file := InstalledAt(lab, s, places, candidate, i);
    Row(places[i], i + 1 == |places|, if i + 1 == |places| then Some(lab.sha(candidate.original)) else None,
        lab.sha(candidate.after[i]), file.uid, file.gid, file.mode)
  }

  lemma PlanAt(lab: Lab, s: Box, role: Role, candidate: Candidate, i: nat)
    requires Fits(lab, s, role, candidate) && Plannable(lab, s.files, role, candidate) && i < |Targets(role, candidate)|
    ensures var places, edits := Targets(role, candidate), Plan(lab, s.files, role, candidate);
            && |edits| == |places| && edits[i].place == places[i]
            && edits[i].after == InstalledAt(lab, s, places, candidate, i)
            && RowOf(lab, edits[i]) == RowAt(lab, s, places, candidate, i)
            && (edits[i].before.Some? <==> i + 1 == |places|)
            && (i + 1 == |places| ==> edits[i].before.value.data == candidate.original)
  {
    TargetsAre(role, candidate);
    hide Targets, Layout, IsLast, PlaceOf, IdentitySafe;
    assert PlanOne(lab, s.files, role, candidate, i).Some?;
  }

  lemma InstalledLands(lab: Lab, s: Box, role: Role, candidate: Candidate)
    requires lab.Valid() && Fresh(s, role) && Plannable(lab, s.files, role, candidate)
    ensures var a, edits := Install(lab, s, role, Some(candidate), None), Plan(lab, s.files, role, candidate);
            && a.end.Ok?
            && Replay(Act, s, a.steps) ==
               Box(Patched(s.files, edits, |edits|), Holds(Runtime(role, Reloaded)), Holds(SheetOf(lab, role, edits)),
                   OriginalData(edits))
            && Planned(lab, s, role, edits)
  {
    hide Walks, Act, Install, Plannable, Recoverable, Planned, Plan;
    var edits, walk := InstallFollows(lab, s, role, candidate, None);
    WalksEnd(Way(lab, s, role), Idle, walk, |walk|);
    assert Ops(walk)[..|walk|] == Ops(walk);
    IdleImage(lab, s, role);
    LastIsAbout(lab, role, edits, walk);
  }

  lemma LastIsAbout(lab: Lab, role: Role, edits: Edits, walk: Walk<Op, Stage>)
    requires walk != [] && About(lab, role, edits, walk) && Where(Idle, walk, |walk|).Filed?
    ensures Where(Idle, walk, |walk|).edits == edits
  {
  }

  /** An installation that is not cut succeeds exactly on a box that fits, with no failure injected.  Then every place
      holds the bytes that the candidate has for it, no other file has changed, the services are active, the journal
      lists every place with the hashes of its old and new bytes, and the backup is the old vhost. */
  lemma {:induction false} InstallsExactlyWhen(lab: Lab, s: Box, role: Role, candidate: Option<Candidate>,
      failAt: Option<Point>)
    requires lab.Valid()
    ensures var a := Install(lab, s, role, candidate, failAt);
            && (a.end.Ok? <==> candidate.Some? && Fits(lab, s, role, candidate.value) && failAt.None?)
            && (a.end.Ok? ==>
                  var t, places := Replay(Act, s, a.steps), Targets(role, candidate.value);
                  && |places| == |candidate.value.after|
                  && (forall i :: 0 <= i < |places| ==>
                        At(t.files, places[i]) == Some(InstalledAt(lab, s, places, candidate.value, i)))
                  && (forall place :: place !in places ==> At(t.files, place) == At(s.files, place))
                  && t.runtime == Holds(Runtime(role, Reloaded)) && t.backup == Some(candidate.value.original)
                  && t.journal.Holds? && t.journal.value.role == role && |t.journal.value.rows| == |places|
                  && (forall i :: 0 <= i < |places| ==>
                      t.journal.value.rows[i] == RowAt(lab, s, places, candidate.value, i)))
            && (a.steps != [] ==> candidate.Some? && Fits(lab, s, role, candidate.value))
            // an injected failure is undone in the same call exactly if the journal can be read back
            && (a.steps != [] && failAt.Some? ==>
                  (Replay(Act, s, a.steps) == s <==>
                     && (role == Kh ==> candidate.value.site.None?)
                     && |candidate.value.after| > 0
                     && var last := candidate.value.after[|candidate.value.after| - 1];
                     lab.sha(last) != lab.sha(candidate.value.original)))
  {
    hide Walks, Act, Replay, Plannable, Planned, Plan, Fits, InstalledAt, RowAt, Targets, Journaled, SheetOf, Patched,
         OriginalData, RowOf, Fresh;
    PreparedExactly(lab, s, role, candidate);
    if candidate.Some? && Fits(lab, s, role, candidate.value) {
      var _, _ := InstallFollows(lab, s, role, candidate.value, failAt);
      hide Install, Prepare;
      if failAt.None? {
        InstalledLands(lab, s, role, candidate.value);
        InstalledShows(lab, s, role, candidate.value);
      } else {
        FailureLands(lab, s, role, candidate.value, failAt);
        FitsSizes(lab, s, role, candidate.value);
      }
    }
  }

  lemma FitsSizes(lab: Lab, s: Box, role: Role, candidate: Candidate)
    requires Fits(lab, s, role, candidate)
    ensures |candidate.after| > 0
  {
  }

  lemma FailureLands(lab: Lab, s: Box, role: Role, candidate: Candidate, failAt: Option<Point>)
    requires lab.Valid() && Fresh(s, role) && Plannable(lab, s.files, role, candidate) && failAt.Some?
    ensures Replay(Act, s, Install(lab, s, role, Some(candidate), failAt).steps) == s <==>
            CanBeUndone(lab, role, candidate)
  {
    hide Walks, Act, Install, Plannable, Recoverable, Planned, Plan, CanBeUndone;
    var edits, walk := InstallFollows(lab, s, role, candidate, failAt);
    PlanIsRecoverable(lab, s, role, candidate);
    WalksEnd(Way(lab, s, role), Idle, walk, |walk|);
    assert Ops(walk)[..|walk|] == Ops(walk);
    IdleImage(lab, s, role);
  }

  lemma InstalledShows(lab: Lab, s: Box, role: Role, candidate: Candidate)
    requires Fits(lab, s, role, candidate) && Plannable(lab, s.files, role, candidate)
    requires Planned(lab, s, role, Plan(lab, s.files, role, candidate))
    ensures var places, edits := Targets(role, candidate), Plan(lab, s.files, role, candidate);
            var files, sheet := Patched(s.files, edits, |edits|), SheetOf(lab, role, edits);
            && |places| == |candidate.after| && OriginalData(edits) == Some(candidate.original)
            && (forall i :: 0 <= i < |places| ==>
                At(files, places[i]) == Some(InstalledAt(lab, s, places, candidate, i)))
            && (forall place :: place !in places ==> At(files, place) == At(s.files, place))
            && sheet.role == role && |sheet.rows| == |places|
            && (forall i :: 0 <= i < |places| ==> sheet.rows[i] == RowAt(lab, s, places, candidate, i))
  {
    var places, edits := Targets(role, candidate), Plan(lab, s.files, role, candidate);
    var files := Patched(s.files, edits, |edits|);
    assert StartFrom(s.files, edits);
    assert |places| == |candidate.after| >= 1;
    hide Patched, Plan, Plannable, Fits, InstalledAt, RowAt, RowOf, Targets, Planned, StartFrom;
    forall i | 0 <= i < |places|
      ensures |edits| == |places| && At(files, places[i]) == Some(InstalledAt(lab, s, places, candidate, i))
      ensures SheetOf(lab, role, edits).rows[i] == RowAt(lab, s, places, candidate, i)
    {
      PlanAt(lab, s, role, candidate, i);
      PatchedAt(s.files, edits, |edits|, i);
    }
    PlanAt(lab, s, role, candidate, |places| - 1);
    forall place | place !in places ensures At(files, place) == At(s.files, place) {
      forall i | 0 <= i < |edits| ensures edits[i].place != place {
        PlanAt(lab, s, role, candidate, i);
      }
      PatchedAside(s.files, edits, |edits|, place);
    }
  }

  // ---------------------------------------------------------------- recovery

  /** The places that a recovery knows. */
  function Fixed(role: Role): seq<Place> {
    match role
    case Ir => [IrToml, IrCompose, IrControl, IrXhttp, PanelBackend]
    case Kh => [KhToml, KhCompose, KhBridge, KhVhost]
  }

  /** The journal lists the role's places in order, the last one edited with two different hashes. */
  predicate Lists(sheet: Sheet) {
    && |sheet.rows| == |Fixed(sheet.role)|
    && forall i :: 0 <= i < |sheet.rows| ==>
         var row := sheet.rows[i];
         && row.place == Fixed(sheet.role)[i] && H.IsSha(row.applied) && (row.edit <==> i + 1 == |sheet.rows|)
         && row.mode in {0x180, 0x1A0, 0x1A4, 0x1B0}
         && (row.edit ==> row.before.Some? && H.IsSha(row.before.value) && row.before.value != row.applied)
         && (!row.edit ==> row.before.None? && row.mode == 0x180)
  }

  /** The file is the lab's, with the recorded owner and mode. */
  predicate IsOwn(lab: Lab, file: File, row: Row) {
    && file.mode in {0x180, 0x1A0, 0x1A4} && file.uid == lab.uid && file.gid == lab.gid
    && file.uid == row.uid && file.gid == row.gid && file.mode == row.mode
  }

  predicate IsNew(lab: Lab, s: Box, row: Row) {
    row.place in s.files && IsOwn(lab, s.files[row.place], row) && lab.sha(s.files[row.place].data) == row.applied
  }

  predicate IsOld(lab: Lab, s: Box, row: Row) {
    if row.edit then
      row.place in s.files && IsOwn(lab, s.files[row.place], row)
          && Some(lab.sha(s.files[row.place].data)) == row.before
    else row.place !in s.files
  }

  /** The journal explains every file, the services' state is of its role, and the backup is the edited file's old
      version; it may be missing while nothing is new. */
  predicate Explains(lab: Lab, s: Box, sheet: Sheet) {
    && Lists(sheet) && s.runtime.Holds? && s.runtime.value.role == sheet.role
    && (forall row :: row in sheet.rows ==> IsNew(lab, s, row) || IsOld(lab, s, row))
    && if s.backup.None? then forall row :: row in sheet.rows ==> !IsNew(lab, s, row)
       else sheet.rows[|sheet.rows| - 1].before == Some(lab.sha(s.backup.value))
  }

  lemma ListsExactly(sheet: Sheet)
    ensures SheetTrusted(sheet) <==> Lists(sheet)
    ensures Layout(sheet.role) == Fixed(sheet.role) && |Fixed(sheet.role)| >= 4
  {
    assert Layout(sheet.role) == Fixed(sheet.role);
    hide Layout, Fixed, H.IsSha;
    forall i | 0 <= i < |sheet.rows| == |Layout(sheet.role)|
      ensures RowTrusted(sheet.role, sheet.rows[i], i) <==>
              var row := sheet.rows[i];
              && row.place == Fixed(sheet.role)[i] && H.IsSha(row.applied) && (row.edit <==> i + 1 == |sheet.rows|)
              && row.mode in {0x180, 0x1A0, 0x1A4, 0x1B0}
              && (row.edit ==> row.before.Some? && H.IsSha(row.before.value) && row.before.value != row.applied)
              && (!row.edit ==> row.before.None? && row.mode == 0x180)
    {
    }
    hide RowTrusted;
  }

  lemma SeenExactly(lab: Lab, s: Box, row: Row)
    requires row.edit ==> row.before.Some? && row.before.value != row.applied
    ensures Seen(lab, s.files, row).Some? <==> IsNew(lab, s, row) || IsOld(lab, s, row)
    ensures Seen(lab, s.files, row).Some? ==> (Seen(lab, s.files, row).value <==> IsNew(lab, s, row))
  {
  }

  lemma NewOnes(lab: Lab, s: Box, rows: seq<Row>, states: seq<bool>)
    requires |states| == |rows| && forall i :: 0 <= i < |rows| ==> (states[i] <==> IsNew(lab, s, rows[i]))
    ensures true in states <==> exists row :: row in rows && IsNew(lab, s, row)
  {
    hide IsNew;
    if true in states {
      var i :| 0 <= i < |states| && states[i];
      assert rows[i] in rows;
    }
    if row :| row in rows && IsNew(lab, s, row) {
      var i :| 0 <= i < |rows| && rows[i] == row;
      assert states[i];
    }
  }

  lemma ValidatesExactly(lab: Lab, s: Box)
    ensures Validate(lab, s).Ok? <==> s.journal.Holds? && Explains(lab, s, s.journal.value)
    ensures Validate(lab, s).Ok? ==>
              var e := Validate(lab, s).value;
              && e.sheet == s.journal.value && e.backup == s.backup && |e.states| == |e.sheet.rows|
              && forall i :: 0 <= i < |e.states| ==> (e.states[i] <==> IsNew(lab, s, e.sheet.rows[i]))
  {
    if s.journal.Holds? {
      var sheet := s.journal.value;
      ListsExactly(sheet);
      hide Layout, Fixed;
      if Lists(sheet) && s.runtime.Holds? && s.runtime.value.role == sheet.role {
        hide SheetTrusted;
        forall i | 0 <= i < |sheet.rows|
          ensures Seen(lab, s.files, sheet.rows[i]).Some? <==>
                  IsNew(lab, s, sheet.rows[i]) || IsOld(lab, s, sheet.rows[i])
          ensures Seen(lab, s.files, sheet.rows[i]).Some? ==>
                  (Seen(lab, s.files, sheet.rows[i]).value <==> IsNew(lab, s, sheet.rows[i]))
        {
          SeenExactly(lab, s, sheet.rows[i]);
        }
        hide Seen, IsNew, IsOld;
        assert AllSeen(lab, s.files, sheet.rows) <==> forall row :: row in sheet.rows ==>
            IsNew(lab, s, row) || IsOld(lab, s, row);
        if AllSeen(lab, s.files, sheet.rows) {
          var states := States(lab, s.files, sheet.rows);
          NewOnes(lab, s, sheet.rows, states);
          assert |sheet.rows| > 0;
          hide Lists;
        }
      }
    }
  }

  /** A recovery that is not cut succeeds, on any box at all, exactly if a journal explains every file, the
      services' state and the backup.  Then nothing is left of the transaction: a file that was created is gone,
      the vhost is the backup with its owner and mode if it was new, and no other file has changed.  Otherwise
      nothing is written. */
  lemma {:induction false} RecoversExactlyWhen(lab: Lab, s: Box)
    ensures var a := Recover(lab, s);
            var t := Replay(Act, s, a.steps);
            && (a.end.Ok? <==> s.journal.Holds? && Explains(lab, s, s.journal.value))
            && (a.end.Fail? ==> a.steps == [])
            && (a.end.Ok? ==>
                  && t.journal.Missing? && t.backup.None? && t.runtime == Holds(Runtime(s.journal.value.role, Baseline))
                  && (forall row :: row in s.journal.value.rows ==>
                        At(t.files, row.place) ==
                        if !row.edit then None
                        else if IsNew(lab, s, row) && s.backup.Some?
                            then Some(File(s.backup.value, row.uid, row.gid, row.mode))
                        else At(s.files, row.place))
                  && (forall place :: (forall row :: row in s.journal.value.rows ==> row.place != place) ==>
                        At(t.files, place) == At(s.files, place)))
  {
    hide Validate, Explains, RestoreFiles, Replay;
    ValidatesExactly(lab, s);
    UnifiedGuarantees.RecoveryIsExact(lab, s);
    if Recover(lab, s).end.Fail? {
      UnifiedGuarantees.RefusalWritesNothing(lab, s);
    }
    hide Recover;
    if Recover(lab, s).end.Ok? {
      RowsShow(lab, s, Replay(Act, s, Recover(lab, s).steps).files);
    }
  }

  lemma RowsShow(lab: Lab, s: Box, files: map<Place, File>)
    requires Validate(lab, s).Ok? && s.journal.Holds?
    requires var e := Validate(lab, s).value;
             forall i :: 0 <= i < |e.states| ==>
                 At(files, e.sheet.rows[i].place) == UnifiedGuarantees.RestoredFile(s.files, e, i)
    ensures forall row :: row in s.journal.value.rows ==>
              At(files, row.place) ==
              if !row.edit then None
              else if IsNew(lab, s, row) && s.backup.Some? then Some(File(s.backup.value, row.uid, row.gid, row.mode))
              else At(s.files, row.place)
  {
    ValidatesExactly(lab, s);
    var e := Validate(lab, s).value;
    forall row | row in s.journal.value.rows
      ensures At(files, row.place) ==
              if !row.edit then None
              else if IsNew(lab, s, row) && s.backup.Some? then Some(File(s.backup.value, row.uid, row.gid, row.mode))
              else At(s.files, row.place)
    {
      var i :| 0 <= i < |e.sheet.rows| && e.sheet.rows[i] == row;
      RowShows(lab, s, e, i);
    }
  }

  lemma RowShows(lab: Lab, s: Box, e: Evidence, i: nat)
    requires Validate(lab, s) == Ok(e) && s.journal.Holds? && i < |e.states| == |e.sheet.rows|
    ensures UnifiedGuarantees.RestoredFile(s.files, e, i) ==
            var row := s.journal.value.rows[i];
            if !row.edit then None
            else if IsNew(lab, s, row) && s.backup.Some? then Some(File(s.backup.value, row.uid, row.gid, row.mode))
            else At(s.files, row.place)
  {
    ValidatesExactly(lab, s);
    hide Validate;
    var row := s.journal.value.rows[i];
    assert row in s.journal.value.rows;
    assert IsNew(lab, s, row) || IsOld(lab, s, row);
    hide Lists, IsOwn;
  }
}
