/** The inner journal of the sidecar lab: which files a transaction owns, what each must hash to
    before and after, and how they are put back. */
module SidecarRecovery {
  import opened Durable
  import opened OwnedFiles
  import H = Host

  /** The files a role owns, in order; only the panel backend exists before and is edited. */
  function Owned(role: Role): seq<Place> {
    match role
    case Ir => [IrToml, IrCompose, IrControl, IrXhttp, PanelBackend]
    case Kh => [KhToml, KhCompose, KhBridge]
  }

  predicate IsEdited(place: Place) {
    place == PanelBackend
  }

  datatype Row = Row(place: Place, edit: bool, before: Option<string>, applied: string)

  datatype Sheet = Sheet(role: Role, rows: seq<Row>)

  datatype Box = Box(
    files: map<Place, Bytes>, intent: Saved<Role>, runtime: Saved<Runtime>,
    journal: Saved<Sheet>, original: Option<Bytes>,
    older: bool)  // the older prototype left its manifest or backup

  datatype Op =
    | SaveIntent(role: Role) | DropIntent
    | SaveRuntime(runtime: Runtime)
    | SaveJournal(sheet: Sheet) | DropJournal
    | SaveOriginal(data: Bytes) | DropOriginal
    | WriteFile(place: Place, data: Bytes) | RemoveFile(place: Place)

  function Act(s: Box, op: Op): Box {
    match op
    case SaveIntent(role) => s.(intent := Holds(role))
    case DropIntent => s.(intent := Missing)
    case SaveRuntime(runtime) => s.(runtime := Holds(runtime))
    case SaveJournal(sheet) => s.(journal := Holds(sheet))
    case DropJournal => s.(journal := Missing)
    case SaveOriginal(data) => s.(original := Some(data))
    case DropOriginal => s.(original := None)
    case WriteFile(place, data) => s.(files := s.files[place := data])
    case RemoveFile(place) => s.(files := s.files - {place})
  }

  /** SHA-256, and the edit of the backend file, which inserts one line before a marker that must occur exactly once. */
  datatype Lab = Lab(sha: Bytes -> string, patch: Bytes -> Option<Bytes>) {
    ghost predicate Valid() {
      && (forall b :: H.IsSha(sha(b)))
      && (forall b :: patch(b).Some? ==> sha(patch(b).value) != sha(b))
    }
  }

  type Edits = seq<Change<Place, Bytes>>

  // ---------------------------------------------------------------- reading the evidence

  predicate RowTrusted(row: Row, place: Place) {
    && row.place == place && row.edit == IsEdited(place) && H.IsSha(row.applied)
    && (if row.edit then row.before.Some? && H.IsSha(row.before.value)
        && row.before != Some(row.applied) else row.before.None?)
  }

  predicate SheetTrusted(sheet: Sheet) {
    && |sheet.rows| == |Owned(sheet.role)|
    && forall i :: 0 <= i < |sheet.rows| ==> RowTrusted(sheet.rows[i], Owned(sheet.role)[i])
  }

  /** Whether the resource is applied (true) or original (false); anything else is drift. */
  function Seen(lab: Lab, files: map<Place, Bytes>, row: Row): Option<bool> {
    if row.place in files then
      var found := lab.sha(files[row.place]);
      if found == row.applied then Some(true)
      else if row.edit && Some(found) == row.before then Some(false)
      else None
    else if !row.edit then Some(false)
    else None
  }

  function Observed(lab: Lab, files: map<Place, Bytes>, rows: seq<Row>): (r: Result<seq<bool>>)
    ensures r.Ok? ==> |r.value| == |rows|
  {
    if forall i | 0 <= i < |rows| :: Seen(lab, files, rows[i]).Some? then
      Ok(seq(|rows|, i requires 0 <= i < |rows| && Seen(lab, files, rows[i]).Some? => Seen(lab, files, rows[i]).value))
    else Fail(Hold(SidecarResourceDrift))
  }

  function VerifyOriginal(lab: Lab, original: Option<Bytes>, sheet: Sheet, states: seq<bool>): Result<Option<Bytes>> {
    match sheet.role
    case Kh => if original.Some? then Fail(Hold(SidecarUnexpectedBackup)) else Ok(None)
    case Ir =>
      if original.None? then
        if true in states then Fail(Hold(SidecarBackupMissing)) else Ok(None)
      else if exists row :: row in sheet.rows && row.edit && row.before == Some(lab.sha(original.value))
          then Ok(original)
      else Fail(Hold(SidecarBackupMismatch))
  }

  datatype Evidence = Evidence(sheet: Sheet, states: seq<bool>, original: Option<Bytes>)

  predicate Complete(e: Evidence) {
    |e.states| == |e.sheet.rows| && (true in e.states && e.sheet.role == Ir ==> e.original.Some?)
  }

  function Validate(lab: Lab, s: Box): (r: Result<Evidence>)
    ensures r.Ok? ==> Complete(r.value)
  {
    if !s.journal.Holds? || !SheetTrusted(s.journal.value) then Fail(Hold(SidecarJournalUntrusted))
    else
      match Observed(lab, s.files, s.journal.value.rows)
      case Fail(failure) => Fail(failure)
      case Ok(states) =>
        match VerifyOriginal(lab, s.original, s.journal.value, states)
        case Fail(failure) => Fail(failure)
        case Ok(original) => Ok(Evidence(s.journal.value, states, original))
  }

  // ---------------------------------------------------------------- putting files back

  function UndoStep(row: Row, original: Option<Bytes>): Op {
    if row.edit && original.Some? then WriteFile(row.place, original.value) else RemoveFile(row.place)
  }

  /** Undoes the applied ones among the first k resources, the last first. */
  function UndoSteps(e: Evidence, k: nat): seq<Op>
    requires Complete(e) && k <= |e.states|
  {
    if k == 0 then []
    else (if e.states[k - 1] then [UndoStep(e.sheet.rows[k - 1], e.original)] else []) + UndoSteps(e, k - 1)
  }

  function Finalize(lab: Lab, s: Box): Attempt<Op, ()> {
    match Validate(lab, s)
    case Fail(failure) => Refuse(failure)
    case Ok(e) =>
      if true in e.states then Refuse(Hold(SidecarNotAllRestored))
      else Attempt((if e.sheet.role == Ir && s.original.Some? then [DropOriginal] else []) + [DropJournal], Ok(()))
  }

  function RecoverFiles(lab: Lab, s: Box): Attempt<Op, ()> {
    match Validate(lab, s)
    case Fail(failure) => Refuse(failure)
    case Ok(e) =>
      var steps := UndoSteps(e, |e.states|);
      Then(steps, Finalize(lab, Replay(Act, s, steps)))
  }

  lemma UndoUnfolds(e: Evidence, k: nat)
    requires Complete(e) && k <= |e.states|
    ensures UndoSteps(e, 0) == []
    ensures k < |e.states| ==>
              UndoSteps(e, k + 1) ==
              (if e.states[k] then [UndoStep(e.sheet.rows[k], e.original)] else []) + UndoSteps(e, k)
  {
  }

  method UndoLocked(d: Disk<Box, Op>, e: Evidence) returns (r: Result<()>)
    requires d.act == Act && Complete(e)
    modifies d
    ensures Ran(d, old(d.now), old(d.fuse), Attempt(UndoSteps(e, |e.states|), Ok(())), r)
  {
    hide UndoSteps, Act, Replay;
    d.Begin(UndoSteps(e, |e.states|));
    for k := |e.states| downto 0
      modifies d`now, d`fuse, d`at
      invariant d.Valid() && d.plan[d.at..] == UndoSteps(e, k)
    {
      UndoUnfolds(e, k);
      if e.states[k] {
        assert d.plan[d.at..] == [UndoStep(e.sheet.rows[k], e.original)] + UndoSteps(e, k);
        :- d.Do(UndoStep(e.sheet.rows[k], e.original));
      }
    }
    UndoUnfolds(e, 0);
    d.Finished();
    return Ok(());
  }

  method FinalizeLocked(lab: Lab, d: Disk<Box, Op>) returns (r: Result<()>)
    requires d.act == Act
    modifies d
    ensures Ran(d, old(d.now), old(d.fuse), Finalize(lab, old(d.now)), r)
  {
    hide Validate, Replay, Act;
    NoSteps(Act, d.now, d.fuse);
    d.Begin(Finalize(lab, d.now).steps);
    var e :- Validate(lab, d.now);
    if true in e.states {
      return Fail(Hold(SidecarNotAllRestored));
    }
    if e.sheet.role == Ir && d.now.original.Some? {
      :- d.Do(DropOriginal);
    }
    :- d.Do(DropJournal);
    d.Finished();
    return Ok(());
  }

  method RecoverFilesLocked(lab: Lab, d: Disk<Box, Op>) returns (r: Result<()>)
    requires d.act == Act
    modifies d
    ensures Ran(d, old(d.now), old(d.fuse), RecoverFiles(lab, old(d.now)), r)
  {
    hide Validate, Finalize, UndoSteps;
    var e :- Validate(lab, d.now);
    ghost var steps := UndoSteps(e, |e.states|);
    ThenRan(Act, d.now, d.fuse, steps, Finalize(lab, Replay(Act, d.now, steps)));
    var _ :- UndoLocked(d, e);
    r := FinalizeLocked(lab, d);
  }

  // ---------------------------------------------------------------- preparing the change

  /** The change of one owned file, if the disk is ready for it. */
  function PrepareOne(lab: Lab, s: Box, payload: map<Place, Bytes>, place: Place): Option<Change<Place, Bytes>> {
    if !IsEdited(place) then
      if place in payload && place !in s.files then Some(Change(place, None, payload[place])) else None
    else if place in s.files && lab.patch(s.files[place]).Some? then
      Some(Change(place, Some(s.files[place]), lab.patch(s.files[place]).value))
    else None
  }

  predicate Leftover(s: Box) {
    !s.journal.Missing? || s.original.Some? || s.older
  }

  function Prepare(lab: Lab, s: Box, payload: map<Place, Bytes>, role: Role): Result<Edits> {
    if Leftover(s) then Fail(Hold(SidecarTransactionExists))
    else if forall i | 0 <= i < |Owned(role)| :: PrepareOne(lab, s, payload, Owned(role)[i]).Some? then
      Ok(seq(|Owned(role)|, i requires 0 <= i < |Owned(role)| && PrepareOne(lab, s, payload, Owned(role)[i]).Some? =>
               PrepareOne(lab, s, payload, Owned(role)[i]).value))
    else Fail(Hold(SidecarTargetsUnready))
  }

  function RowOf(lab: Lab, change: Change<Place, Bytes>): Row {
    Row(change.place, IsEdited(change.place),
        if change.before.Some? then Some(lab.sha(change.before.value)) else None, lab.sha(change.after))
  }

  function SheetOf(lab: Lab, role: Role, edits: Edits): Sheet {
    Sheet(role, seq(|edits|, i requires 0 <= i < |edits| => RowOf(lab, edits[i])))
  }

  /** The journal first, then the original of the edited file. */
  function Opening(lab: Lab, role: Role, edits: Edits): seq<Op> {
    [SaveJournal(SheetOf(lab, role, edits))] +
    (if role == Ir && edits != [] && edits[|edits| - 1].before.Some?
        then [SaveOriginal(edits[|edits| - 1].before.value)] else [])
  }

  function Writes(edits: Edits): seq<Op> {
    seq(|edits|, i requires 0 <= i < |edits| => WriteFile(edits[i].place, edits[i].after))
  }

  method WriteFiles(d: Disk<Box, Op>, edits: Edits) returns (r: Result<()>)
    requires d.act == Act
    modifies d
    ensures Ran(d, old(d.now), old(d.fuse), Attempt(Writes(edits), Ok(())), r)
  {
    d.Begin(Writes(edits));
    for i := 0 to |edits|
      modifies d`now, d`fuse, d`at
      invariant d.Valid() && d.at == i
    {
      :- d.Do(WriteFile(edits[i].place, edits[i].after));
    }
    d.Finished();
    return Ok(());
  }
}
