/** The outer journal of the sidecar lab: an intent around the file journal and the service state. */
module SidecarTransaction {
  import opened Durable
  import opened OwnedFiles
  import opened SidecarRecovery

  /** Where a failure can be injected into a deployment. */
  datatype Point = AfterIntent | AfterFiles | Validation | AfterSidecar | AfterReload | Health

  function ReadIntent(s: Box): Result<Role> {
    if s.intent.Holds? then Ok(s.intent.value) else Fail(Hold(SidecarIntentUnknown))
  }

  function ReadRuntime(s: Box, role: Role): Result<Phase> {
    if s.runtime.Holds? && s.runtime.value.role == role then Ok(s.runtime.value.phase)
    else Fail(Hold(SidecarServiceUnknown))
  }

  // ---------------------------------------------------------------- rollback

  /** The read-only part of a rollback: the recorded role, and whether the services must be put back. */
  function Preflight(lab: Lab, s: Box): Result<(Role, bool)> {
    match ReadIntent(s)
    case Fail(failure) => Fail(failure)
    case Ok(role) =>
      match ReadRuntime(s, role)
      case Fail(failure) => Fail(failure)
      case Ok(phase) =>
        if !s.journal.Missing? && Validate(lab, s).Fail? then Fail(Hold(SidecarFileJournalUnverifiable))
        else if s.journal.Missing? && phase != Baseline then Fail(Hold(SidecarFileJournalMissing))
        else Ok((role, phase != Baseline))
  }

  function DropIntentLast(s: Box, role: Role): Attempt<Op, ()> {
    if ReadRuntime(s, role) != Ok(Baseline) || !s.journal.Missing? then Refuse(Hold(SidecarRecoveryIncomplete))
    else Attempt([DropIntent], Ok(()))
  }

  /** One attempt, then another if the first succeeds. */
  function AndThen(s: Box, first: Attempt<Op, ()>, next: Box -> Attempt<Op, ()>): Attempt<Op, ()> {
    if first.end.Fail? then first else Then(first.steps, next(Replay(Act, s, first.steps)))
  }

  function RevertFiles(lab: Lab, s: Box, role: Role): Attempt<Op, ()> {
    if s.journal.Missing? then DropIntentLast(s, role)
    else AndThen(s, RecoverFiles(lab, s), (t: Box) => DropIntentLast(t, role))
  }

  function Services(role: Role, changed: bool): seq<Op> {
    if changed then [SaveRuntime(Runtime(role, Baseline))] else []
  }

  function Revert(lab: Lab, s: Box): Attempt<Op, ()> {
    match Preflight(lab, s)
    case Fail(failure) => Refuse(failure)
    case Ok((role, changed)) =>
      Then(Services(role, changed), RevertFiles(lab, Replay(Act, s, Services(role, changed)), role))
  }

  // ---------------------------------------------------------------- deployment

  function DeployChecks(s: Box, role: Role, staged: bool): Result<()> {
    if !s.intent.Missing? then Fail(Hold(SidecarTransactionExists))
    else match ReadRuntime(s, role)
      case Fail(failure) => Fail(failure)
      case Ok(phase) =>
        if phase != Baseline || Leftover(s) then Fail(Hold(SidecarPartialInstallation))
        else if !staged then Fail(Hold(SidecarTargetsUnready))
        else Ok(())
  }

  /** A failure is answered by an immediate rollback, and then reported. */
  function Abort(lab: Lab, s: Box, why: Reason): Attempt<Op, ()> {
    var undo := Revert(lab, s);
    Attempt(undo.steps, if undo.end.Ok? then Fail(Hold(why)) else undo.end)
  }

  function Reloading(lab: Lab, s: Box, role: Role, failAt: Option<Point>): Attempt<Op, ()> {
    if failAt == Some(AfterSidecar) then Abort(lab, s, SidecarInjectedFailure)
    else
      var reload := [SaveRuntime(Runtime(role, Reloaded))];
      Then(reload,
           if failAt == Some(AfterReload) || failAt == Some(Health)
               then Abort(lab, Replay(Act, s, reload), SidecarInjectedFailure)
           else Attempt([], Ok(())))
  }

  function Starting(lab: Lab, s: Box, role: Role, failAt: Option<Point>): Attempt<Op, ()> {
    if Validate(lab, s).Fail? then Abort(lab, s, SidecarJournalUntrusted)
    else if failAt == Some(AfterFiles) || failAt == Some(Validation) then Abort(lab, s, SidecarInjectedFailure)
    else
      var start := [SaveRuntime(Runtime(role, Started))];
      Then(start, Reloading(lab, Replay(Act, s, start), role, failAt))
  }

  function Filling(lab: Lab, s: Box, role: Role, edits: Edits, failAt: Option<Point>): Attempt<Op, ()> {
    if Validate(lab, s).Fail? then Abort(lab, s, SidecarJournalUntrusted)
    else Then(Writes(edits), Starting(lab, Replay(Act, s, Writes(edits)), role, failAt))
  }

  function Installing(lab: Lab, s: Box, payload: map<Place, Bytes>, role: Role, failAt: Option<Point>): Attempt<Op,
      ()> {
    if failAt == Some(AfterIntent) then Abort(lab, s, SidecarInjectedFailure)
    else match Prepare(lab, s, payload, role)
      case Fail(_) => Abort(lab, s, SidecarTargetsUnready)
      case Ok(edits) =>
        var opening := Opening(lab, role, edits);
        Then(opening, Filling(lab, Replay(Act, s, opening), role, edits, failAt))
  }

  function Deploy(lab: Lab, s: Box, payload: Option<map<Place, Bytes>>, role: Role,
      failAt: Option<Point>): Attempt<Op, ()> {
    match DeployChecks(s, role, payload.Some?)
    case Fail(failure) => Refuse(failure)
    case Ok(_) =>
      Then([SaveIntent(role)], Installing(lab, Replay(Act, s, [SaveIntent(role)]), payload.value, role, failAt))
  }

  // ---------------------------------------------------------------- the operations, step by step

  /** Takes steps one after another. */
  method Take(d: Disk<Box, Op>, steps: seq<Op>) returns (r: Result<()>)
    requires d.act == Act
    modifies d
    ensures Ran(d, old(d.now), old(d.fuse), Attempt(steps, Ok(())), r)
  {
    hide Act;
    d.Begin(steps);
    for i := 0 to |steps|
      modifies d`now, d`fuse, d`at
      invariant d.Valid() && d.at == i
    {
      :- d.Do(steps[i]);
    }
    d.Finished();
    return Ok(());
  }

  method RevertLocked(lab: Lab, d: Disk<Box, Op>) returns (r: Result<()>)
    requires d.act == Act
    modifies d
    ensures Ran(d, old(d.now), old(d.fuse), Revert(lab, old(d.now)), r)
  {
    hide Preflight, RevertFiles, Act, Replay;
    NoSteps(Act, d.now, d.fuse);
    var plan :- Preflight(lab, d.now);
    var (role, changed) := plan;
    ghost var steps := Services(role, changed);
    ThenRan(Act, d.now, d.fuse, steps, RevertFiles(lab, Replay(Act, d.now, steps), role));
    d.Begin(steps);
    if changed {
      :- d.Do(SaveRuntime(Runtime(role, Baseline)));
    }
    d.Finished();
    r := RevertFilesLocked(lab, d, role);
  }

  method RevertFilesLocked(lab: Lab, d: Disk<Box, Op>, role: Role) returns (r: Result<()>)
    requires d.act == Act
    modifies d
    ensures Ran(d, old(d.now), old(d.fuse), RevertFiles(lab, old(d.now), role), r)
  {
    hide RecoverFiles, DropIntentLast, Act, Replay;
    if !d.now.journal.Missing? {
      ghost var first := RecoverFiles(lab, d.now);
      ThenRan(Act, d.now, d.fuse, first.steps, DropIntentLast(Replay(Act, d.now, first.steps), role));
      var _ :- RecoverFilesLocked(lab, d);
    }
    r := DropIntentLocked(d, role);
  }

  method DropIntentLocked(d: Disk<Box, Op>, role: Role) returns (r: Result<()>)
    requires d.act == Act
    modifies d
    ensures Ran(d, old(d.now), old(d.fuse), DropIntentLast(old(d.now), role), r)
  {
    if ReadRuntime(d.now, role) != Ok(Baseline) || !d.now.journal.Missing? {
      return Fail(Hold(SidecarRecoveryIncomplete));
    }
    d.Begin([DropIntent]);
    :- d.Do(DropIntent);
    d.Finished();
    return Ok(());
  }

  method AbortLocked(lab: Lab, d: Disk<Box, Op>, why: Reason) returns (r: Result<()>)
    requires d.act == Act
    modifies d
    ensures Ran(d, old(d.now), old(d.fuse), Abort(lab, old(d.now), why), r)
  {
    hide Revert;
    r := RevertLocked(lab, d);
    if r.Ok? {
      return Fail(Hold(why));
    }
  }

  method ReloadingLocked(lab: Lab, d: Disk<Box, Op>, role: Role, failAt: Option<Point>) returns (r: Result<()>)
    requires d.act == Act
    modifies d
    ensures Ran(d, old(d.now), old(d.fuse), Reloading(lab, old(d.now), role, failAt), r)
  {
    hide Abort, Act, Replay;
    if failAt == Some(AfterSidecar) {
      r := AbortLocked(lab, d, SidecarInjectedFailure);
      return;
    }
    var reload := [SaveRuntime(Runtime(role, Reloaded))];
    var failing := failAt == Some(AfterReload) || failAt == Some(Health);
    ThenRan(Act, d.now, d.fuse, reload,
            if failing then Abort(lab, Replay(Act, d.now, reload), SidecarInjectedFailure) else Attempt([], Ok(())));
    var _ :- Take(d, reload);
    if failing {
      r := AbortLocked(lab, d, SidecarInjectedFailure);
      return;
    }
    NoSteps(Act, d.now, d.fuse);
    return Ok(());
  }

  method StartingLocked(lab: Lab, d: Disk<Box, Op>, role: Role, failAt: Option<Point>) returns (r: Result<()>)
    requires d.act == Act
    modifies d
    ensures Ran(d, old(d.now), old(d.fuse), Starting(lab, old(d.now), role, failAt), r)
  {
    hide Abort, Validate, Reloading, Act, Replay;
    if Validate(lab, d.now).Fail? {
      r := AbortLocked(lab, d, SidecarJournalUntrusted);
      return;
    }
    if failAt == Some(AfterFiles) || failAt == Some(Validation) {
      r := AbortLocked(lab, d, SidecarInjectedFailure);
      return;
    }
    var start := [SaveRuntime(Runtime(role, Started))];
    ThenRan(Act, d.now, d.fuse, start, Reloading(lab, Replay(Act, d.now, start), role, failAt));
    var _ :- Take(d, start);
    r := ReloadingLocked(lab, d, role, failAt);
  }

  method FillingLocked(lab: Lab, d: Disk<Box, Op>, role: Role, edits: Edits, failAt: Option<Point>)
      returns (r: Result<()>)
    requires d.act == Act
    modifies d
    ensures Ran(d, old(d.now), old(d.fuse), Filling(lab, old(d.now), role, edits, failAt), r)
  {
    hide Abort, Validate, Starting, Writes, Act, Replay;
    if Validate(lab, d.now).Fail? {
      r := AbortLocked(lab, d, SidecarJournalUntrusted);
      return;
    }
    ThenRan(Act, d.now, d.fuse, Writes(edits), Starting(lab, Replay(Act, d.now, Writes(edits)), role, failAt));
    var _ :- WriteFiles(d, edits);
    r := StartingLocked(lab, d, role, failAt);
  }

  method InstallingLocked(lab: Lab, d: Disk<Box, Op>, payload: map<Place, Bytes>, role: Role, failAt: Option<Point>)
    returns (r: Result<()>)
    requires d.act == Act
    modifies d
    ensures Ran(d, old(d.now), old(d.fuse), Installing(lab, old(d.now), payload, role, failAt), r)
  {
    hide Abort, Prepare, Filling, Opening, Act, Replay;
    if failAt == Some(AfterIntent) {
      r := AbortLocked(lab, d, SidecarInjectedFailure);
      return;
    }
    var edits := Prepare(lab, d.now, payload, role);
    if edits.Fail? {
      r := AbortLocked(lab, d, SidecarTargetsUnready);
      return;
    }
    var opening := Opening(lab, role, edits.value);
    ThenRan(Act, d.now, d.fuse, opening, Filling(lab, Replay(Act, d.now, opening), role, edits.value, failAt));
    var _ :- Take(d, opening);
    r := FillingLocked(lab, d, role, edits.value, failAt);
  }

  method DeployLocked(lab: Lab, d: Disk<Box, Op>, payload: Option<map<Place, Bytes>>, role: Role, failAt: Option<Point>)
    returns (r: Result<()>)
    requires d.act == Act
    modifies d
    ensures Ran(d, old(d.now), old(d.fuse), Deploy(lab, old(d.now), payload, role, failAt), r)
  {
    hide Installing, Act, Replay;
    NoSteps(Act, d.now, d.fuse);
    var _ :- DeployChecks(d.now, role, payload.Some?);
    ThenRan(Act, d.now, d.fuse, [SaveIntent(role)],
            Installing(lab, Replay(Act, d.now, [SaveIntent(role)]), payload.value, role, failAt));
    var _ :- Take(d, [SaveIntent(role)]);
    r := InstallingLocked(lab, d, payload.value, role, failAt);
  }
}
