/** The one-level sidecar lab: a journal with hashes, owners and modes, a backup of the edited vhost, the files,
    and the services, in that order; and a recovery that puts all of it back. */
module UnifiedLab {
  import opened Durable
  import opened OwnedFiles
  import H = Host

  datatype File = File(data: Bytes, uid: nat, gid: nat, mode: nat)

  datatype Row = Row(place: Place, edit: bool, before: Option<string>, applied: string, uid: nat, gid: nat, mode: nat)

  datatype Sheet = Sheet(role: Role, rows: seq<Row>)

  datatype Box = Box(files: map<Place, File>, runtime: Saved<Runtime>, journal: Saved<Sheet>, backup: Option<Bytes>)

  datatype Op =
    | SaveRuntime(runtime: Runtime)
    | SaveJournal(sheet: Sheet) | DropJournal
    | SaveBackup(data: Bytes) | DropBackup
    | WriteFile(place: Place, file: File) | RemoveFile(place: Place)

  function Act(s: Box, op: Op): Box {
    match op
    case SaveRuntime(runtime) => s.(runtime := Holds(runtime))
    case SaveJournal(sheet) => s.(journal := Holds(sheet))
    case DropJournal => s.(journal := Missing)
    case SaveBackup(data) => s.(backup := Some(data))
    case DropBackup => s.(backup := None)
    case WriteFile(place, file) => s.(files := s.files[place := file])
    case RemoveFile(place) => s.(files := s.files - {place})
  }

  /** SHA-256, and the identity the lab runs under. */
  datatype Lab = Lab(sha: Bytes -> string, uid: nat, gid: nat) {
    ghost predicate Valid() {
      forall b :: H.IsSha(sha(b))
    }
  }

  const PRIVATE: nat := 0x180  // 0600
  const GROUP: nat := 0x1A0    // 0640
  const PUBLIC: nat := 0x1A4   // 0644
  const SHARED: nat := 0x1B0   // 0660

  /** The files of a role, in order; the last is the vhost, which exists before and is edited. */
  function Layout(role: Role): seq<Place> {
    match role
    case Ir => [IrToml, IrCompose, IrControl, IrXhttp, PanelBackend]
    case Kh => [KhToml, KhCompose, KhBridge, KhVhost]
  }

  predicate IsLast(role: Role, i: nat) {
    i + 1 == |Layout(role)|
  }

  // ---------------------------------------------------------------- what recovery reads

  predicate RowTrusted(role: Role, row: Row, i: nat)
    requires i < |Layout(role)|
  {
    && row.place == Layout(role)[i] && row.edit == IsLast(role, i) && H.IsSha(row.applied)
    && row.mode in {PRIVATE, GROUP, PUBLIC, SHARED}
    && (if row.edit then row.before.Some? && H.IsSha(row.before.value) && row.before != Some(row.applied)
        else row.before.None? && row.mode == PRIVATE)
  }

  predicate SheetTrusted(sheet: Sheet) {
    && |sheet.rows| == |Layout(sheet.role)|
    && forall i :: 0 <= i < |sheet.rows| ==> RowTrusted(sheet.role, sheet.rows[i], i)
  }

  predicate IdentitySafe(lab: Lab, file: File) {
    file.mode in {PRIVATE, GROUP, PUBLIC} && file.uid == lab.uid && file.gid == lab.gid
  }

  /** Whether the resource is applied (true) or original (false); anything else is drift. */
  function Seen(lab: Lab, files: map<Place, File>, row: Row): Option<bool> {
    if row.place in files then
      var file := files[row.place];
      if !IdentitySafe(lab, file) || (file.uid, file.gid, file.mode) != (row.uid, row.gid, row.mode) then None
      else if lab.sha(file.data) == row.applied then Some(true)
      else if row.edit && Some(lab.sha(file.data)) == row.before then Some(false)
      else None
    else if !row.edit then Some(false)
    else None
  }

  predicate AllSeen(lab: Lab, files: map<Place, File>, rows: seq<Row>) {
    forall i :: 0 <= i < |rows| ==> Seen(lab, files, rows[i]).Some?
  }

  function States(lab: Lab, files: map<Place, File>, rows: seq<Row>): (states: seq<bool>)
    requires AllSeen(lab, files, rows)
    ensures |states| == |rows|
  {
    seq(|rows|, i requires 0 <= i < |rows| => Seen(lab, files, rows[i]).value)
  }

  datatype Evidence = Evidence(sheet: Sheet, states: seq<bool>, backup: Option<Bytes>, phase: Phase)

  predicate BackupVerified(lab: Lab, s: Box, sheet: Sheet, states: seq<bool>) {
    match s.backup
    case None => true !in states
    case Some(data) => sheet.rows != [] && sheet.rows[|sheet.rows| - 1].before == Some(lab.sha(data))
  }

  predicate Complete(e: Evidence) {
    |e.states| == |e.sheet.rows| && (true in e.states ==> e.backup.Some?)
  }

  function Validate(lab: Lab, s: Box): (r: Result<Evidence>)
    ensures r.Ok? ==> Complete(r.value)
  {
    if !s.journal.Holds? || !SheetTrusted(s.journal.value) then Fail(Hold(UnifiedJournalUntrusted))
    else if !s.runtime.Holds? || s.runtime.value.role != s.journal.value.role then Fail(Hold(UnifiedServiceUnknown))
    else if !AllSeen(lab, s.files, s.journal.value.rows) then Fail(Hold(UnifiedResourceDrift))
    else
      var states := States(lab, s.files, s.journal.value.rows);
      if !BackupVerified(lab, s, s.journal.value, states) then Fail(Hold(UnifiedBackupUntrusted))
      else Ok(Evidence(s.journal.value, states, s.backup, s.runtime.value.phase))
  }

  // ---------------------------------------------------------------- recovery

  function UndoStep(row: Row, backup: Option<Bytes>): Op {
    if row.edit && backup.Some? then WriteFile(row.place, File(backup.value, row.uid, row.gid, row.mode))
    else RemoveFile(row.place)
  }

  /** Undoes the applied ones among the first k resources, the last first. */
  function UndoSteps(e: Evidence, k: nat): seq<Op>
    requires Complete(e) && k <= |e.states|
  {
    if k == 0 then []
    else (if e.states[k - 1] then [UndoStep(e.sheet.rows[k - 1], e.backup)] else []) + UndoSteps(e, k - 1)
  }

  function Finalize(lab: Lab, s: Box): Attempt<Op, ()> {
    match Validate(lab, s)
    case Fail(failure) => Refuse(failure)
    case Ok(e) =>
      if true in e.states || e.phase != Baseline then Refuse(Hold(UnifiedRecoveryIncomplete))
      else Attempt((if s.backup.Some? then [DropBackup] else []) + [DropJournal], Ok(()))
  }

  function Services(e: Evidence): seq<Op> {
    if e.phase != Baseline then [SaveRuntime(Runtime(e.sheet.role, Baseline))] else []
  }

  /** Puts the applied files back, and then removes the evidence. */
  function RestoreFiles(lab: Lab, s: Box, e: Evidence): Attempt<Op, ()>
    requires Complete(e)
  {
    var steps := UndoSteps(e, |e.states|);
    Then(steps, Finalize(lab, Replay(Act, s, steps)))
  }

  function Recover(lab: Lab, s: Box): Attempt<Op, ()> {
    match Validate(lab, s)
    case Fail(failure) => Refuse(failure)
    case Ok(e) => Then(Services(e), RestoreFiles(lab, Replay(Act, s, Services(e)), e))
  }

  // ---------------------------------------------------------------- installation

  /** A reconciled candidate: the new bytes in layout order, the vhost's reviewed original, and, when KH is not served
      from the default site, the path of its own. */
  datatype Candidate = Candidate(after: seq<Bytes>, original: Bytes, site: Option<string>)

  function PlaceOf(role: Role, candidate: Candidate, i: nat): Place
    requires i < |Layout(role)|
  {
    if IsLast(role, i) && role == Kh && candidate.site.Some? then Elsewhere(candidate.site.value) else Layout(role)[i]
  }

  predicate Reconciled(role: Role, candidate: Candidate) {
    |candidate.after| == |Layout(role)|
  }

  type Edits = seq<Change<Place, File>>

  function PlanOne(lab: Lab, files: map<Place, File>, role: Role, candidate: Candidate, i: nat): Option<Change<Place,
      File>>
    requires Reconciled(role, candidate) && i < |Layout(role)|
  {
    var place := PlaceOf(role, candidate, i);
    if !IsLast(role, i) then
      if place in files then None else Some(Change(place, None, File(candidate.after[i], lab.uid, lab.gid, PRIVATE)))
    else if place !in files || files[place].data != candidate.original || !IdentitySafe(lab, files[place]) then None
    else Some(Change(place, Some(files[place]), files[place].(data := candidate.after[i])))
  }

  predicate Plannable(lab: Lab, files: map<Place, File>, role: Role, candidate: Candidate) {
    && Reconciled(role, candidate)
    && forall i :: 0 <= i < |Layout(role)| ==> PlanOne(lab, files, role, candidate, i).Some?
  }

  function Plan(lab: Lab, files: map<Place, File>, role: Role, candidate: Candidate): (edits: Edits)
    requires Plannable(lab, files, role, candidate)
    ensures |edits| == |Layout(role)|
  {
    seq(|Layout(role)|, i requires 0 <= i < |Layout(role)| => PlanOne(lab, files, role, candidate, i).value)
  }

  function Prepare(lab: Lab, s: Box, role: Role, candidate: Option<Candidate>): Result<Edits> {
    if candidate.None? then Fail(Hold(UnifiedCandidateRefused))
    else if !s.runtime.Holds? || s.runtime.value != Runtime(role, Baseline) || !s.journal.Missing?
        || s.backup.Some? then
      Fail(Hold(UnifiedPartialInstallation))
    else if !Plannable(lab, s.files, role, candidate.value) then Fail(Hold(UnifiedTargetsUnready))
    else Ok(Plan(lab, s.files, role, candidate.value))
  }

  function RowOf(lab: Lab, change: Change<Place, File>): Row {
    Row(change.place, change.before.Some?,
        if change.before.Some? then Some(lab.sha(change.before.value.data)) else None,
        lab.sha(change.after.data), change.after.uid, change.after.gid, change.after.mode)
  }

  function SheetOf(lab: Lab, role: Role, edits: Edits): Sheet {
    Sheet(role, seq(|edits|, i requires 0 <= i < |edits| => RowOf(lab, edits[i])))
  }

  /** Where a failure can be injected. */
  datatype Point = AfterJournal | AfterBackup | AfterFiles | AfterSidecar | AfterReload | Health

  function Backups(edits: Edits): seq<Op> {
    if edits != [] && edits[|edits| - 1].before.Some? then [SaveBackup(edits[|edits| - 1].before.value.data)] else []
  }

  function Writes(edits: Edits): seq<Op> {
    seq(|edits|, i requires 0 <= i < |edits| => WriteFile(edits[i].place, edits[i].after))
  }

  /** The durable steps of an installation in order, each group followed by the failure points behind it. */
  function Group(role: Role, edits: Edits, n: nat): (seq<Op>, set<Point>) {
    match n
    case 0 => (Backups(edits), {AfterBackup})
    case 1 => (Writes(edits), {AfterFiles})
    case 2 => ([SaveRuntime(Runtime(role, Started))], {AfterSidecar})
    case 3 => ([SaveRuntime(Runtime(role, Reloaded))], {AfterReload, Health})
    case _ => ([], {})
  }

  /** A failure is answered by an immediate recovery, and then reported. */
  function Abort(lab: Lab, s: Box): Attempt<Op, ()> {
    var undo := Recover(lab, s);
    Attempt(undo.steps, if undo.end.Ok? then Fail(Hold(UnifiedInjectedFailure)) else undo.end)
  }

  function Continue(lab: Lab, s: Box, role: Role, edits: Edits, n: nat, failAt: Option<Point>): Attempt<Op, ()>
    decreases 4 - n
  {
    if n >= 4 then Attempt([], Ok(()))
    else
      var (steps, points) := Group(role, edits, n);
      var after := Replay(Act, s, steps);
      Then(steps, if failAt.Some? && failAt.value in points then Abort(lab, after)
                  else Continue(lab, after, role, edits, n + 1, failAt))
  }

  function Journaled(lab: Lab, s: Box, role: Role, edits: Edits, failAt: Option<Point>): Attempt<Op, ()> {
    if failAt == Some(AfterJournal) then Abort(lab, s) else Continue(lab, s, role, edits, 0, failAt)
  }

  function Install(lab: Lab, s: Box, role: Role, candidate: Option<Candidate>, failAt: Option<Point>): Attempt<Op, ()> {
    match Prepare(lab, s, role, candidate)
    case Fail(failure) => Refuse(failure)
    case Ok(edits) =>
      var first := [SaveJournal(SheetOf(lab, role, edits))];
      Then(first, Journaled(lab, Replay(Act, s, first), role, edits, failAt))
  }

  // ---------------------------------------------------------------- the operations, step by step

  lemma UndoUnfolds(e: Evidence, k: nat)
    requires Complete(e) && k <= |e.states|
    ensures UndoSteps(e, 0) == []
    ensures k < |e.states| ==>
              UndoSteps(e, k + 1) == (if e.states[k] then [UndoStep(e.sheet.rows[k], e.backup)] else []) +
                  UndoSteps(e, k)
  {
  }

  method UndoLocked(d: Disk<Box, Op>, e: Evidence) returns (r: Result<()>)
    requires d.act == Act && Complete(e)
    modifies d
    ensures Ran(d, old(d.now), old(d.fuse), Attempt(UndoSteps(e, |e.states|), Ok(())), r)
  {
    hide UndoSteps, Act, Replay;
    d.Begin(UndoSteps(e, |e.states|));
    for k := |e.states| downto 0
      modifies d`now, d`fuse, d`at
      invariant d.Valid() && d.plan[d.at..] == UndoSteps(e, k)
    {
      UndoUnfolds(e, k);
      if e.states[k] {
        assert d.plan[d.at..] == [UndoStep(e.sheet.rows[k], e.backup)] + UndoSteps(e, k);
        :- d.Do(UndoStep(e.sheet.rows[k], e.backup));
      }
    }
    UndoUnfolds(e, 0);
    d.Finished();
    return Ok(());
  }

  method FinalizeLocked(lab: Lab, d: Disk<Box, Op>) returns (r: Result<()>)
    requires d.act == Act
    modifies d
    ensures Ran(d, old(d.now), old(d.fuse), Finalize(lab, old(d.now)), r)
  {
    hide Validate, Replay, Act;
    NoSteps(Act, d.now, d.fuse);
    d.Begin(Finalize(lab, d.now).steps);
    var e :- Validate(lab, d.now);
    if true in e.states || e.phase != Baseline {
      return Fail(Hold(UnifiedRecoveryIncomplete));
    }
    if d.now.backup.Some? {
      :- d.Do(DropBackup);
    }
    :- d.Do(DropJournal);
    d.Finished();
    return Ok(());
  }

  method RestoreFilesLocked(lab: Lab, d: Disk<Box, Op>, e: Evidence) returns (r: Result<()>)
    requires d.act == Act && Complete(e)
    modifies d
    ensures Ran(d, old(d.now), old(d.fuse), RestoreFiles(lab, old(d.now), e), r)
  {
    hide Finalize, UndoSteps, Replay, Act;
    ghost var steps := UndoSteps(e, |e.states|);
    ThenRan(Act, d.now, d.fuse, steps, Finalize(lab, Replay(Act, d.now, steps)));
    var _ :- UndoLocked(d, e);
    r := FinalizeLocked(lab, d);
  }

  /** The services first, then the files. */
  method RecoverLocked(lab: Lab, d: Disk<Box, Op>) returns (r: Result<()>)
    requires d.act == Act
    modifies d
    ensures Ran(d, old(d.now), old(d.fuse), Recover(lab, old(d.now)), r)
  {
    hide Validate, RestoreFiles, Replay, Act;
    NoSteps(Act, d.now, d.fuse);
    var e :- Validate(lab, d.now);
    ThenRan(Act, d.now, d.fuse, Services(e), RestoreFiles(lab, Replay(Act, d.now, Services(e)), e));
    var _ :- TakeAll(d, Services(e));
    r := RestoreFilesLocked(lab, d, e);
  }

  method AbortLocked(lab: Lab, d: Disk<Box, Op>) returns (r: Result<()>)
    requires d.act == Act
    modifies d
    ensures Ran(d, old(d.now), old(d.fuse), Abort(lab, old(d.now)), r)
  {
    hide Recover, Replay, Act;
    r := RecoverLocked(lab, d);
    if r.Ok? {
      return Fail(Hold(UnifiedInjectedFailure));
    }
  }

  method TakeAll(d: Disk<Box, Op>, steps: seq<Op>) returns (r: Result<()>)
    requires d.act == Act
    modifies d
    ensures Ran(d, old(d.now), old(d.fuse), Attempt(steps, Ok(())), r)
  {
    hide Act, Replay;
    d.Begin(steps);
    for i := 0 to |steps|
      modifies d`now, d`fuse, d`at
      invariant d.Valid() && d.at == i
    {
      :- d.Do(steps[i]);
    }
    d.Finished();
    return Ok(());
  }

  method ContinueLocked(lab: Lab, d: Disk<Box, Op>, role: Role, edits: Edits, n: nat,
                        failAt: Option<Point>) returns (r: Result<()>)
    requires d.act == Act
    modifies d
    ensures Ran(d, old(d.now), old(d.fuse), Continue(lab, old(d.now), role, edits, n, failAt), r)
    decreases 4 - n
  {
    hide Group, Abort, Act, Replay, Continue;
    ContinueUnfolds(lab, d.now, role, edits, n, failAt);
    NoSteps(Act, d.now, d.fuse);
    if n >= 4 {
      return Ok(());
    }
    var (steps, points) := Group(role, edits, n);
    var failing := failAt.Some? && failAt.value in points;
    ghost var after := Replay(Act, d.now, steps);
    ThenRan(Act, d.now, d.fuse, steps,
        if failing then Abort(lab, after) else Continue(lab, after, role, edits, n + 1, failAt));
    var _ :- TakeAll(d, steps);
    if failing {
      r := AbortLocked(lab, d);
    } else {
      r := ContinueLocked(lab, d, role, edits, n + 1, failAt);
    }
  }

  lemma ContinueUnfolds(lab: Lab, s: Box, role: Role, edits: Edits, n: nat, failAt: Option<Point>)
    ensures n >= 4 ==> Continue(lab, s, role, edits, n, failAt) == Attempt([], Ok(()))
    ensures n < 4 ==>
              var (steps, points) := Group(role, edits, n);
              var after := Replay(Act, s, steps);
              Continue(lab, s, role, edits, n, failAt) ==
              Then(steps, if failAt.Some? && failAt.value in points then Abort(lab, after)
                          else Continue(lab, after, role, edits, n + 1, failAt))
  {
    hide Group, Abort, Act, Replay;
  }

  method InstallLocked(lab: Lab, d: Disk<Box, Op>, role: Role, candidate: Option<Candidate>, failAt: Option<Point>)
    returns (r: Result<()>)
    requires d.act == Act
    modifies d
    ensures Ran(d, old(d.now), old(d.fuse), Install(lab, old(d.now), role, candidate, failAt), r)
  {
    hide Prepare, Continue, Abort, Act, Replay, SheetOf;
    NoSteps(Act, d.now, d.fuse);
    var edits :- Prepare(lab, d.now, role, candidate);
    var first := [SaveJournal(SheetOf(lab, role, edits))];
    ThenRan(Act, d.now, d.fuse, first, Journaled(lab, Replay(Act, d.now, first), role, edits, failAt));
    var _ :- TakeAll(d, first);
    if failAt == Some(AfterJournal) {
      r := AbortLocked(lab, d);
    } else {
      r := ContinueLocked(lab, d, role, edits, 0, failAt);
    }
  }
}
