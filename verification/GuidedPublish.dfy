/** Publishing one route at a time: the live table is replaced by one with exactly one more block, under a journal of
    its own. */
module GuidedPublish {
  import opened Durable
  import opened RoutePaths
  import opened RouteTable

  datatype State = Prepared | Committed | RolledBack

  /** The record of a publication; the texts stand for their SHA-256 digests. */
  datatype Record = Record(state: State, path: string, before: string, after: string)

  datatype Journal = Journal(backup: Option<string>, record: Option<Record>)

  /** The live table, and a journal directory for each port. */
  datatype Gateway = Gateway(snippet: string, journals: map<nat, Journal>)

  datatype Op =
    | MakeJournal(port: nat) | AddBackup(port: nat, text: string) | PutRecord(port: nat, record: Record)
        | PutSnippet(text: string)

  function JournalOf(s: Gateway, port: nat): Journal {
    if port in s.journals then s.journals[port] else Journal(None, None)
  }

  function Act(s: Gateway, op: Op): Gateway {
    match op
    case MakeJournal(port) => s.(journals := s.journals[port := Journal(None, None)])
    case AddBackup(port, text) => s.(journals := s.journals[port := JournalOf(s, port).(backup := Some(text))])
    case PutRecord(port, record) => s.(journals := s.journals[port := JournalOf(s, port).(record := Some(record))])
    case PutSnippet(text) => s.(snippet := text)
  }

  /** What an operation is told by the host: whether its own checks pass, the saved path of the port, the table
      rendered from the applied tunnels, and whether Nginx and the panel pass the n-th time they are probed. */
  datatype View = View(ready: bool, saved: Option<string>, rendered: string, passes: nat -> bool)

  // ---------------------------------------------------------------- inspection

  predicate Includes(rendered: seq<Route>, current: seq<Route>) {
    forall i :: 0 <= i < |current| ==> current[i] in rendered
  }

  predicate OnlyAdds(rendered: seq<Route>, current: seq<Route>, port: nat) {
    forall i :: 0 <= i < |rendered| ==> HasPort(current, rendered[i].port) || rendered[i].port == port
  }

  /** The comparison of the live routes with those that the applied tunnels call for; `true` when the port is not
      published yet. */
  function Compare(current: seq<Route>, rendered: seq<Route>, port: nat, saved: string, same: bool): Result<bool> {
    if !HasPort(rendered, port) then Fail(Hold(SelectedTunnelNotApplied))
    else if Route(port, saved) !in rendered then Fail(Hold(TunnelPathMismatch))
    else if !Includes(rendered, current) then Fail(Hold(PublishedRouteDrift))
    else if !OnlyAdds(rendered, current, port) then Fail(Hold(ExtraUnapprovedPorts))
    else if HasPort(current, port) && !same then Fail(Hold(RenderedRouteDrift))
    else Ok(!HasPort(current, port))
  }

  ghost function Inspect(w: Wording, s: Gateway, port: nat, view: View): Result<bool> {
    if !view.ready then Fail(Hold(GatewayUnready))
    else if view.saved.None? then Fail(Hold(SelectedPortNotSaved))
    else if Parsed(w, s.snippet).None? || Parsed(w, view.rendered).None? then Fail(Hold(NonCanonicalRoute))
    else Compare(Parsed(w, s.snippet).value, Parsed(w, view.rendered).value, port, view.saved.value,
        view.rendered == s.snippet)
  }

  /** What the parser answers is the parsed table. */
  lemma ParsedAs(w: Wording, text: string, routes: seq<Route>)
    requires w.Valid() && Canonical(routes) && text == Render(w, routes)
    ensures Parsed(w, text) == Some(routes)
  {
    hide Render;
    RenderIsInjective(w, routes, Parsed(w, text).value);
  }

  method InspectLocked(w: Wording, s: Gateway, port: nat, view: View) returns (r: Result<bool>)
    requires w.Valid()
    ensures r == Inspect(w, s, port, view)
  {
    hide Compare, Render;
    if !view.ready {
      return Fail(Hold(GatewayUnready));
    }
    if view.saved.None? {
      return Fail(Hold(SelectedPortNotSaved));
    }
    var current := ParseBlocks(w, s.snippet);
    var rendered := ParseBlocks(w, view.rendered);
    if current.Fail? || rendered.Fail? {
      return Fail(Hold(NonCanonicalRoute));
    }
    ParsedAs(w, s.snippet, current.value);
    ParsedAs(w, view.rendered, rendered.value);
    return Compare(current.value, rendered.value, port, view.saved.value, view.rendered == s.snippet);
  }

  // ---------------------------------------------------------------- apply, restore, rollback

  /** Puts the backup back if the publication's own table is live, probes again, and only then marks the record. */
  function Restore(s: Gateway, port: nat, record: Record, backup: string, passes: bool,
                   answer: Result<()>): Attempt<Op, ()> {
    if s.snippet != record.before && s.snippet != record.after then Refuse(Hold(CriticalSnippetExternalEdit))
    else
      Attempt((if s.snippet == record.after then [PutSnippet(backup)] else []) +
              (if passes then [PutRecord(port, record.(state := RolledBack))] else []),
              if passes then answer else Fail(Hold(GatewayProbeFailed)))
  }

  function Opening(port: nat, record: Record): seq<Op> {
    [MakeJournal(port), AddBackup(port, record.before), PutRecord(port, record), PutSnippet(record.after)]
  }

  /** Behind the replacement: commit, or restore at once. */
  function Settle(s: Gateway, port: nat, record: Record, view: View): Attempt<Op, ()> {
    if view.passes(0) then Attempt([PutRecord(port, record.(state := Committed))], Ok(()))
    else
      var back := Restore(s, port, record, record.before, view.passes(1), Fail(Hold(PublishFailedRolledBack)));
      if back.end == Fail(Hold(PublishFailedRolledBack)) then back
          else Attempt(back.steps, Fail(Hold(CriticalManualRouteRecovery)))
  }

  ghost function Prepare(w: Wording, s: Gateway, port: nat, view: View): Result<Record> {
    match Inspect(w, s, port, view)
    case Fail(failure) => Fail(failure)
    case Ok(needed) =>
      if !needed then Fail(Hold(RouteAlreadyPublished))
      else if port in s.journals then Fail(Hold(PreviousPublishTransaction))
      else Ok(Record(Prepared, view.saved.value, s.snippet, view.rendered))
  }

  ghost function Apply(w: Wording, s: Gateway, port: nat, view: View): Attempt<Op, ()> {
    match Prepare(w, s, port, view)
    case Fail(failure) => Refuse(failure)
    case Ok(record) => Then(Opening(port, record), Settle(Replay(Act, s, Opening(port, record)), port, record, view))
  }

  function Load(s: Gateway, port: nat): Result<Record> {
    if port !in s.journals || s.journals[port].record.None? then Fail(Hold(InvalidPublishJournal))
    else
      var record := s.journals[port].record.value;
      if s.journals[port].backup != Some(record.before) then Fail(Hold(BackupIntegrity))
      else if record.state != Committed then Fail(Hold(RollbackState))
      else Ok(record)
  }

  function Rollback(s: Gateway, port: nat, view: View): Attempt<Op, ()> {
    if !view.ready then Refuse(Hold(GatewayUnready))
    else match Load(s, port)
      case Fail(failure) => Refuse(failure)
      case Ok(record) => Restore(s, port, record, record.before, view.passes(0), Ok(()))
  }

  method RestoreLocked(d: Disk<Gateway, Op>, port: nat, record: Record, backup: string, passes: bool,
      answer: Result<()>)
    returns (r: Result<()>)
    requires d.act == Act
    modifies d
    ensures Ran(d, old(d.now), old(d.fuse), Restore(old(d.now), port, record, backup, passes, answer), r)
  {
    hide Replay, Act;
    NoSteps(Act, d.now, d.fuse);
    d.Begin(Restore(d.now, port, record, backup, passes, answer).steps);
    if d.now.snippet != record.before && d.now.snippet != record.after {
      return Fail(Hold(CriticalSnippetExternalEdit));
    }
    if d.now.snippet == record.after {
      :- d.Do(PutSnippet(backup));
    }
    if !passes {
      d.Finished();
      return Fail(Hold(GatewayProbeFailed));
    }
    :- d.Do(PutRecord(port, record.(state := RolledBack)));
    d.Finished();
    return answer;
  }

  method SettleLocked(d: Disk<Gateway, Op>, port: nat, record: Record, view: View) returns (r: Result<()>)
    requires d.act == Act
    modifies d
    ensures Ran(d, old(d.now), old(d.fuse), Settle(old(d.now), port, record, view), r)
  {
    hide Replay, Act;
    if view.passes(0) {
      d.Begin([PutRecord(port, record.(state := Committed))]);
      :- d.Do(PutRecord(port, record.(state := Committed)));
      d.Finished();
      return Ok(());
    }
    r := RestoreLocked(d, port, record, record.before, view.passes(1), Fail(Hold(PublishFailedRolledBack)));
    if r != Fail(Hold(PublishFailedRolledBack)) && r != Fail(PowerLoss) {
      return Fail(Hold(CriticalManualRouteRecovery));
    }
  }

  method OpenLocked(d: Disk<Gateway, Op>, port: nat, record: Record) returns (r: Result<()>)
    modifies d
    ensures Ran(d, old(d.now), old(d.fuse), Attempt(Opening(port, record), Ok(())), r)
  {
    hide Replay;
    d.Begin(Opening(port, record));
    :- d.Do(MakeJournal(port));
    :- d.Do(AddBackup(port, record.before));
    :- d.Do(PutRecord(port, record));
    :- d.Do(PutSnippet(record.after));
    d.Finished();
    return Ok(());
  }

  method ApplyLocked(w: Wording, d: Disk<Gateway, Op>, port: nat, view: View) returns (r: Result<()>)
    requires w.Valid() && d.act == Act
    modifies d
    ensures Ran(d, old(d.now), old(d.fuse), Apply(w, old(d.now), port, view), r)
  {
    hide Replay, Act, Settle, Inspect, Opening;
    NoSteps(Act, d.now, d.fuse);
    var needed :- InspectLocked(w, d.now, port, view);
    if !needed {
      return Fail(Hold(RouteAlreadyPublished));
    }
    if port in d.now.journals {
      return Fail(Hold(PreviousPublishTransaction));
    }
    InspectSaved(w, d.now, port, view);
    var record := Record(Prepared, view.saved.value, d.now.snippet, view.rendered);
    ThenRan(Act, d.now, d.fuse, Opening(port, record),
        Settle(Replay(Act, d.now, Opening(port, record)), port, record, view));
    var _ :- OpenLocked(d, port, record);
    r := SettleLocked(d, port, record, view);
  }

  lemma InspectSaved(w: Wording, s: Gateway, port: nat, view: View)
    ensures Inspect(w, s, port, view).Ok? ==> view.saved.Some?
  {
  }

  method RollbackLocked(d: Disk<Gateway, Op>, port: nat, view: View) returns (r: Result<()>)
    requires d.act == Act
    modifies d
    ensures Ran(d, old(d.now), old(d.fuse), Rollback(old(d.now), port, view), r)
  {
    hide Replay, Act, Restore, Load;
    NoSteps(Act, d.now, d.fuse);
    if !view.ready {
      return Fail(Hold(GatewayUnready));
    }
    var record :- Load(d.now, port);
    r := RestoreLocked(d, port, record, record.before, view.passes(0), Ok(()));
  }
}
