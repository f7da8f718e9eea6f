/** Exactly when the nested lab deploys, and what it leaves; stated on the box and the payload alone. */
module SidecarOutcomes {
  import opened Durable
  import opened OwnedFiles
  import opened SidecarRecovery
  import opened SidecarTransaction
  import SidecarGuarantees
  import SidecarRuns
  import H = Host

  /** The files that a deployment creates; IR's also edits the panel's backend. */
  function Created(role: Role): set<Place> {
    match role
    case Ir => {IrToml, IrCompose, IrControl, IrXhttp}
    case Kh => {KhToml, KhCompose, KhBridge}
  }

  /** The box has no transaction, the payload has every file to create and none of them is there, and IR's backend is
      there and can be edited. */
  predicate Fits(lab: Lab, s: Box, role: Role, payload: map<Place, Bytes>) {
    && s.intent.Missing? && s.runtime == Holds(Runtime(role, Baseline))
    && s.journal.Missing? && s.original.None? && !s.older
    && (forall place :: place in Created(role) ==> place in payload && place !in s.files)
    && (role == Ir ==> PanelBackend in s.files && lab.patch(s.files[PanelBackend]).Some?)
  }

  /** The file at one of the places after a deployment. */
  function DeployedAt(lab: Lab, s: Box, role: Role, payload: map<Place, Bytes>, place: Place): Option<Bytes> {
    if place in Created(role) && place in payload then Some(payload[place])
    else if role == Ir && place == PanelBackend && place in s.files then lab.patch(s.files[place])
    else At(s.files, place)
  }

  /** What the journal has to say of a place that is created, and of one that is edited. */
  function CreatedRow(lab: Lab, place: Place, data: Bytes): Row {
    Row(place, false, None, lab.sha(data))
  }

  function EditedRow(lab: Lab, place: Place, before: Bytes, after: Bytes): Row {
    Row(place, true, Some(lab.sha(before)), lab.sha(after))
  }

  lemma OwnedAre(role: Role)
    ensures Owned(Ir) == [IrToml, IrCompose, IrControl, IrXhttp, PanelBackend]
            && Owned(Kh) == [KhToml, KhCompose, KhBridge]
    ensures forall place :: place in Owned(role) <==> place in Created(role) || (role == Ir && place == PanelBackend)
    ensures forall place :: place in Created(role) ==> !IsEdited(place)
  {
  }

  lemma PreparedExactly(lab: Lab, s: Box, role: Role, payload: map<Place, Bytes>)
    ensures DeployChecks(s, role, true).Ok? <==>
            s.intent.Missing? && s.runtime == Holds(Runtime(role, Baseline)) && s.journal.Missing? && s.original.None?
                && !s.older
    ensures DeployChecks(s, role, true).Ok? && Prepare(lab, s, payload, role).Ok? <==> Fits(lab, s, role, payload)
  {
    hide Created;
    OwnedAre(role);
    var ready := forall i :: 0 <= i < |Owned(role)| ==> PrepareOne(lab, s, payload, Owned(role)[i]).Some?;
    assert ready <==> forall place :: place in Owned(role) ==> PrepareOne(lab, s, payload, place).Some?;
    forall place | place in Created(role)
      ensures PrepareOne(lab, s, payload, place).Some? <==> place in payload && place !in s.files
    {
    }
    assert PrepareOne(lab, s, payload, PanelBackend).Some? <==>
           PanelBackend in s.files && lab.patch(s.files[PanelBackend]).Some?;
    hide Owned, PrepareOne;
    if DeployChecks(s, role, true).Ok? {
      assert Prepare(lab, s, payload, role).Ok? <==> ready;
      hide Prepare;
    }
  }

  lemma PreparedAt(lab: Lab, s: Box, role: Role, payload: map<Place, Bytes>, i: nat)
    requires Prepare(lab, s, payload, role).Ok? && i < |Owned(role)|
    ensures var edits, place := Prepare(lab, s, payload, role).value, Owned(role)[i];
            && |edits| == |Owned(role)| && edits[i].place == place
            && Some(edits[i].after) == DeployedAt(lab, s, role, payload, place)
            && edits[i].before == (if role == Ir && place == PanelBackend then At(s.files, place) else None)
            && (place in Created(role) ==>
                place in payload && RowOf(lab, edits[i]) == CreatedRow(lab, place, payload[place]))
            && (place !in Created(role) ==>
                  role == Ir && place == PanelBackend && place in s.files && lab.patch(s.files[place]).Some?
                  && RowOf(lab, edits[i]) == EditedRow(lab, place, s.files[place], lab.patch(s.files[place]).value))
  {
    OwnedAre(role);
    assert PrepareOne(lab, s, payload, Owned(role)[i]).Some?;
  }

  lemma {:induction false} WritesReach(s: Box, edits: Edits, k: nat)
    requires k <= |edits|
    ensures Replay(Act, s, Writes(edits)[..k]) == s.(files := Patched(s.files, edits, k))
  {
    hide Replay;
    if k > 0 {
      WritesReach(s, edits, k - 1);
      ReplayNext(Act, s, Writes(edits), k - 1);
    } else {
      NoSteps(Act, s, 0);
      assert Writes(edits)[..0] == [];
    }
  }

  /** The steps of a deployment that succeeds. */
  lemma DeploySteps(lab: Lab, s: Box, payload: map<Place, Bytes>, role: Role)
    requires Deploy(lab, s, Some(payload), role, None).end.Ok?
    ensures Prepare(lab, s, payload, role).Ok?
    ensures var edits := Prepare(lab, s, payload, role).value;
            Deploy(lab, s, Some(payload), role, None).steps ==
            [SaveIntent(role)] + (Opening(lab, role, edits) +
              (Writes(edits) + ([SaveRuntime(Runtime(role, Started))] + [SaveRuntime(Runtime(role, Reloaded))])))
  {
    hide Validate, Revert, Writes, Opening, Replay;
    var s1 := Replay(Act, s, [SaveIntent(role)]);
    ReplayOne(Act, s, SaveIntent(role));
    assert Prepare(lab, s1, payload, role) == Prepare(lab, s, payload, role) by { IntentAside(lab, s, payload, role); }
    hide Prepare, Act;
  }

  lemma IntentAside(lab: Lab, s: Box, payload: map<Place, Bytes>, role: Role)
    ensures Prepare(lab, Act(s, SaveIntent(role)), payload, role) == Prepare(lab, s, payload, role)
  {
    var t := Act(s, SaveIntent(role));
    forall place ensures PrepareOne(lab, t, payload, place) == PrepareOne(lab, s, payload, place) {
    }
    hide PrepareOne;
    var a, b := Prepare(lab, t, payload, role), Prepare(lab, s, payload, role);
    if a.Ok? && b.Ok? {
      assert a.value == b.value;
    }
  }

  lemma OpeningReaches(lab: Lab, s: Box, role: Role, edits: Edits)
    requires s.original.None?
    ensures Replay(Act, s, Opening(lab, role, edits)) ==
            s.(journal := Holds(SheetOf(lab, role, edits)),
               original := if role == Ir && edits != [] then edits[|edits| - 1].before else None)
  {
    hide Replay, SheetOf;
    var journal := [SaveJournal(SheetOf(lab, role, edits))];
    var original := if role == Ir && edits != [] && edits[|edits| - 1].before.Some?
                    then [SaveOriginal(edits[|edits| - 1].before.value)] else [];
    ReplayJoin(Act, s, journal, original);
    ReplayOne(Act, s, SaveJournal(SheetOf(lab, role, edits)));
    if original == [] {
      NoSteps(Act, Replay(Act, s, journal), 0);
    } else {
      ReplayOne(Act, Replay(Act, s, journal), SaveOriginal(edits[|edits| - 1].before.value));
    }
  }

  lemma DeployReaches(lab: Lab, s: Box, payload: map<Place, Bytes>, role: Role)
    requires Deploy(lab, s, Some(payload), role, None).end.Ok? && s.original.None?
    ensures Prepare(lab, s, payload, role).Ok?
    ensures var edits := Prepare(lab, s, payload, role).value;
            Replay(Act, s, Deploy(lab, s, Some(payload), role, None).steps) ==
            Box(Patched(s.files, edits, |edits|), Holds(role), Holds(Runtime(role, Reloaded)),
                Holds(SheetOf(lab, role, edits)),
                if role == Ir && edits != [] then edits[|edits| - 1].before else None, s.older)
  {
    hide Deploy, Prepare, Opening, Writes, SheetOf, Replay, Patched;
    DeploySteps(lab, s, payload, role);
    var edits := Prepare(lab, s, payload, role).value;
    var intent, opening, writes := [SaveIntent(role)], Opening(lab, role, edits), Writes(edits);
    var start, reload := [SaveRuntime(Runtime(role, Started))], [SaveRuntime(Runtime(role, Reloaded))];
    ReplayJoin(Act, s, intent, opening + (writes + (start + reload)));
    ReplayOne(Act, s, SaveIntent(role));
    var s1 := Act(s, SaveIntent(role));
    ReplayJoin(Act, s1, opening, writes + (start + reload));
    OpeningReaches(lab, s1, role, edits);
    var s2 := Replay(Act, s1, opening);
    ReplayJoin(Act, s2, writes, start + reload);
    WritesReach(s2, edits, |edits|);
    assert writes[..|edits|] == writes by { WritesLength(edits); }
    var s3 := Replay(Act, s2, writes);
    ReplayJoin(Act, s3, start, reload);
    ReplayOne(Act, s3, start[0]);
    ReplayOne(Act, Act(s3, start[0]), reload[0]);
  }

  lemma WritesLength(edits: Edits)
    ensures |Writes(edits)| == |edits|
  {
  }

  lemma DeployedShows(lab: Lab, s: Box, payload: map<Place, Bytes>, role: Role)
    requires Prepare(lab, s, payload, role).Ok?
    ensures var edits := Prepare(lab, s, payload, role).value;
            var files, sheet := Patched(s.files, edits, |edits|), SheetOf(lab, role, edits);
            && (forall place :: At(files, place) == DeployedAt(lab, s, role, payload, place))
            && edits != [] && (role == Ir ==> edits[|edits| - 1].before == At(s.files, PanelBackend))
            && sheet.role == role && |sheet.rows| == |Owned(role)|
            && forall i :: 0 <= i < |sheet.rows| ==>
                 var place := Owned(role)[i];
                 if place in Created(role) then place in payload
                     && sheet.rows[i] == CreatedRow(lab, place, payload[place])
                 else && place in s.files && lab.patch(s.files[place]).Some?
                      && sheet.rows[i] == EditedRow(lab, place, s.files[place], lab.patch(s.files[place]).value)
  {
    var edits := Prepare(lab, s, payload, role).value;
    var files := Patched(s.files, edits, |edits|);
    hide Prepare, Patched, DeployedAt, RowOf, CreatedRow, EditedRow, Created;
    OwnedAre(role);
    SidecarRuns.OwnedAreDistinct(role);
    PreparedAt(lab, s, role, payload, |Owned(role)| - 1);
    assert StartFrom(s.files, edits) by { PreparedStarts(lab, s, payload, role); }
    forall place ensures At(files, place) == DeployedAt(lab, s, role, payload, place) {
      if place in Owned(role) {
        var i :| 0 <= i < |Owned(role)| && Owned(role)[i] == place;
        PreparedAt(lab, s, role, payload, i);
        PatchedAt(s.files, edits, |edits|, i);
      } else {
        forall i | 0 <= i < |edits| ensures edits[i].place != place {
          PreparedAt(lab, s, role, payload, i);
        }
        PatchedAside(s.files, edits, |edits|, place);
        Elsewhere(lab, s, role, payload, place);
      }
    }
    forall i | 0 <= i < |Owned(role)|
      ensures var place := Owned(role)[i];
              if place in Created(role) then
                place in payload && SheetOf(lab, role, edits).rows[i] == CreatedRow(lab, place, payload[place])
              else && place in s.files && lab.patch(s.files[place]).Some?
                   && SheetOf(lab, role, edits).rows[i] ==
                       EditedRow(lab, place, s.files[place], lab.patch(s.files[place]).value)
    {
      PreparedAt(lab, s, role, payload, i);
    }
  }

  lemma Elsewhere(lab: Lab, s: Box, role: Role, payload: map<Place, Bytes>, place: Place)
    requires place !in Owned(role)
    ensures DeployedAt(lab, s, role, payload, place) == At(s.files, place)
  {
    OwnedAre(role);
  }

  lemma PreparedStarts(lab: Lab, s: Box, payload: map<Place, Bytes>, role: Role)
    requires Prepare(lab, s, payload, role).Ok?
    ensures StartFrom(s.files, Prepare(lab, s, payload, role).value)
  {
    SidecarRuns.OwnedAreDistinct(role);
    var edits := Prepare(lab, s, payload, role).value;
    forall i | 0 <= i < |edits| ensures edits[i].place == Owned(role)[i]
        && edits[i].before == At(s.files, edits[i].place) {
      assert PrepareOne(lab, s, payload, Owned(role)[i]).Some?;
    }
  }

  /** A deployment that is not cut succeeds exactly on a box that fits, with a payload and no failure injected.  Then
      every created place holds the payload's bytes, IR's backend is the edited one, no other file has changed, the
      services are active, and intent, journal and backup are there; the journal lists the owned places in order with
      the hashes of their old and new bytes.  Otherwise the box is as it was. */
  lemma {:induction false} DeploysExactlyWhen(lab: Lab, s: Box, payload: Option<map<Place, Bytes>>, role: Role,
      failAt: Option<Point>)
    requires lab.Valid()
    ensures var a := Deploy(lab, s, payload, role, failAt);
            var t := Replay(Act, s, a.steps);
            && (a.end.Ok? <==> payload.Some? && Fits(lab, s, role, payload.value) && failAt.None?)
            && (a.end.Fail? ==> t == s)
            && (a.end.Ok? ==>
                  && (forall place :: At(t.files, place) == DeployedAt(lab, s, role, payload.value, place))
                  && t.intent == Holds(role) && t.runtime == Holds(Runtime(role, Reloaded)) && !t.older
                  && t.original == (if role == Ir then At(s.files, PanelBackend) else None)
                  && t.journal.Holds? && t.journal.value.role == role && |t.journal.value.rows| == |Owned(role)|
                  && forall i :: 0 <= i < |Owned(role)| ==>
                       var place := Owned(role)[i];
                       if place in Created(role) then
                         place in payload.value && t.journal.value.rows[i] ==
                             CreatedRow(lab, place, payload.value[place])
                       else && place in s.files && lab.patch(s.files[place]).Some?
                            && t.journal.value.rows[i] == EditedRow(lab, place, s.files[place],
                                lab.patch(s.files[place]).value))
  {
    hide Prepare, DeployedAt, CreatedRow, EditedRow, Created, Owned, Replay, Patched, SheetOf, Fits, Installing;
    var staged := if payload.Some? then payload.value else map[];
    PreparedExactly(lab, s, role, staged);
    ChecksStaged(s, role);
    if DeployChecks(s, role, true).Ok? {
      hide Deploy;
      SidecarRuns.DeploymentIsAllOrNothing(lab, s, role, payload, failAt);
      if Deploy(lab, s, payload, role, failAt).end.Ok? {
        DeployReaches(lab, s, payload.value, role);
        DeployedShows(lab, s, payload.value, role);
      }
    } else {
      assert Deploy(lab, s, payload, role, failAt).end.Fail? && Deploy(lab, s, payload, role, failAt).steps == [];
      NoSteps(Act, s, 0);
    }
  }

  lemma ChecksStaged(s: Box, role: Role)
    ensures DeployChecks(s, role, true).Fail? ==> DeployChecks(s, role, false).Fail?
  {
  }

  // ---------------------------------------------------------------- rollback

  /** The journal lists the role's files in order, the edited one with two different hashes. */
  predicate Lists(sheet: Sheet) {
    && |sheet.rows| == |Owned(sheet.role)|
    && forall i :: 0 <= i < |sheet.rows| ==>
         var row := sheet.rows[i];
         && row.place == Owned(sheet.role)[i] && H.IsSha(row.applied) && (row.edit <==> row.place == PanelBackend)
         && (row.edit ==> row.before.Some? && H.IsSha(row.before.value) && row.before.value != row.applied)
         && (!row.edit ==> row.before.None?)
  }

  predicate IsNew(lab: Lab, s: Box, row: Row) {
    row.place in s.files && lab.sha(s.files[row.place]) == row.applied
  }

  /** The file is its new version, or its old one: absent if it is created. */
  predicate IsKnown(lab: Lab, s: Box, row: Row) {
    IsNew(lab, s, row) || if row.edit then row.place in s.files && Some(lab.sha(s.files[row.place])) == row.before
        else row.place !in s.files
  }

  /** The journal explains every file, and the backup is the edited file's old version; it may be missing once nothing
      is new. */
  predicate Explains(lab: Lab, s: Box, sheet: Sheet) {
    && Lists(sheet) && (forall row :: row in sheet.rows ==> IsKnown(lab, s, row))
    && if s.original.None? then sheet.role == Ir ==> forall row :: row in sheet.rows ==> !IsNew(lab, s, row)
       else sheet.role == Ir && exists row ::
           row in sheet.rows && row.edit && row.before == Some(lab.sha(s.original.value))
  }

  lemma ListsExactly(sheet: Sheet)
    ensures SheetTrusted(sheet) <==> Lists(sheet)
  {
    hide Owned, H.IsSha;
    forall i | 0 <= i < |sheet.rows| == |Owned(sheet.role)|
      ensures RowTrusted(sheet.rows[i], Owned(sheet.role)[i]) <==>
              var row := sheet.rows[i];
              && row.place == Owned(sheet.role)[i] && H.IsSha(row.applied) && (row.edit <==> row.place == PanelBackend)
              && (row.edit ==> row.before.Some? && H.IsSha(row.before.value) && row.before.value != row.applied)
              && (!row.edit ==> row.before.None?)
    {
    }
    hide RowTrusted;
  }

  lemma SeenExactly(lab: Lab, s: Box, row: Row)
    requires row.edit ==> row.before.Some? && row.before.value != row.applied
    ensures Seen(lab, s.files, row).Some? <==> IsKnown(lab, s, row)
    ensures Seen(lab, s.files, row).Some? ==> (Seen(lab, s.files, row).value <==> IsNew(lab, s, row))
  {
  }

  lemma ValidatesExactly(lab: Lab, s: Box)
    ensures Validate(lab, s).Ok? <==> s.journal.Holds? && Explains(lab, s, s.journal.value)
    ensures Validate(lab, s).Ok? ==>
              var e := Validate(lab, s).value;
              && e.sheet == s.journal.value && e.original == s.original && |e.states| == |e.sheet.rows|
              && forall i :: 0 <= i < |e.states| ==> (e.states[i] <==> IsNew(lab, s, e.sheet.rows[i]))
  {
    if s.journal.Holds? {
      var sheet := s.journal.value;
      ListsExactly(sheet);
      if Lists(sheet) {
        hide SheetTrusted, Owned;
        forall i | 0 <= i < |sheet.rows|
          ensures Seen(lab, s.files, sheet.rows[i]).Some? <==> IsKnown(lab, s, sheet.rows[i])
          ensures Seen(lab, s.files, sheet.rows[i]).Some? ==>
                  (Seen(lab, s.files, sheet.rows[i]).value <==> IsNew(lab, s, sheet.rows[i]))
        {
          SeenExactly(lab, s, sheet.rows[i]);
        }
        hide Lists, Seen, IsKnown;
        var observed := Observed(lab, s.files, sheet.rows);
        assert observed.Ok? <==> forall row :: row in sheet.rows ==> IsKnown(lab, s, row);
        if observed.Ok? {
          assert forall i :: 0 <= i < |sheet.rows| ==> (observed.value[i] <==> IsNew(lab, s, sheet.rows[i]));
          assert true in observed.value <==> exists row :: row in sheet.rows && IsNew(lab, s, row) by {
            NewOnes(lab, s, sheet.rows, observed.value);
          }
          hide Observed, IsNew;
        }
      }
    }
  }

  lemma NewOnes(lab: Lab, s: Box, rows: seq<Row>, states: seq<bool>)
    requires |states| == |rows| && forall i :: 0 <= i < |rows| ==> (states[i] <==> IsNew(lab, s, rows[i]))
    ensures true in states <==> exists row :: row in rows && IsNew(lab, s, row)
  {
    if true in states {
      var i :| 0 <= i < |states| && states[i];
      assert rows[i] in rows;
    }
    if row :| row in rows && IsNew(lab, s, row) {
      var i :| 0 <= i < |rows| && rows[i] == row;
      assert states[i];
    }
  }

  /** A rollback that is not cut succeeds, on any box at all, exactly if there is an intent, the services' state is of
      its role, and either no journal with the services at their baseline, or a journal that explains every file and
      the backup.  Then nothing is left of the transaction: a file that was created is gone, the one that was edited
      is the backup if it was new, and no other file has changed.  Otherwise nothing is written; so a file that is
      neither old nor new is never overwritten. */
  lemma {:induction false} RevertsExactlyWhen(lab: Lab, s: Box)
    ensures var a := Revert(lab, s);
            var t := Replay(Act, s, a.steps);
            && (a.end.Ok? <==>
                  && s.intent.Holds? && s.runtime.Holds? && s.runtime.value.role == s.intent.value
                  && if s.journal.Missing? then s.runtime.value.phase == Baseline
                     else s.journal.Holds? && Explains(lab, s, s.journal.value))
            && (a.end.Fail? ==> a.steps == [])
            && (a.end.Ok? ==>
                  && t.intent.Missing? && t.journal.Missing? && t.runtime == Holds(Runtime(s.intent.value, Baseline))
                  && (s.journal.Missing? ==> t.files == s.files)
                  && (s.journal.Holds? ==>
                        && t.original.None?
                        && (forall row :: row in s.journal.value.rows ==>
                              At(t.files, row.place) ==
                              if !row.edit then None else if IsNew(lab, s, row) then s.original
                                  else At(s.files, row.place))
                        && (forall place :: (forall row :: row in s.journal.value.rows ==> row.place != place) ==>
                              At(t.files, place) == At(s.files, place))))
  {
    hide Validate, Explains, RevertFiles, Replay;
    ValidatesExactly(lab, s);
    SidecarGuarantees.RevertIsExact(lab, s);
    if Revert(lab, s).end.Fail? {
      SidecarGuarantees.RefusalWritesNothing(lab, s);
    }
    hide Revert, Preflight;
    if Revert(lab, s).end.Ok? && s.journal.Holds? {
      RowsShow(lab, s, Replay(Act, s, Revert(lab, s).steps).files);
    }
  }

  lemma RowsShow(lab: Lab, s: Box, files: map<Place, Bytes>)
    requires Validate(lab, s).Ok? && s.journal.Holds?
    requires var e := Validate(lab, s).value;
             && |e.states| == |e.sheet.rows|
             && (forall i :: 0 <= i < |e.states| ==>
                 At(files, e.sheet.rows[i].place) == SidecarGuarantees.RestoredFile(s.files, e, i))
             && (forall i :: 0 <= i < |e.states| && !e.sheet.rows[i].edit ==> e.sheet.rows[i].place !in files)
    ensures forall row :: row in s.journal.value.rows ==>
              At(files, row.place) ==
              if !row.edit then None else if IsNew(lab, s, row) then s.original else At(s.files, row.place)
  {
    ValidatesExactly(lab, s);
    hide Validate, Explains, IsNew;
    var e := Validate(lab, s).value;
    forall row | row in s.journal.value.rows
      ensures At(files, row.place) == if !row.edit then None else if IsNew(lab, s, row) then s.original
              else At(s.files, row.place)
    {
      var i :| 0 <= i < |e.sheet.rows| && e.sheet.rows[i] == row;
    }
  }
}
