/** Publishing a new user interface into the running panel: assets first, the index last, a backup before either. */
module PanelUi {
  import opened Durable
  import H = Host

  type Bytes = H.Bytes

  type Assets = map<string, Bytes>

  /** A set of static files: content-addressed assets, and the index that refers to them. */
  datatype Files = Files(assets: Assets, index: Bytes)

  datatype Status = Applying | Applied | RolledBack

  /** The journal; the index stands for its SHA-256 digest. */
  datatype Record = Record(status: Status, container: string, before: Files, afterIndex: Bytes)

  datatype Panel = Panel(files: Files, journal: Option<Record>)

  datatype Op = PutAsset(name: string, data: Bytes) | PutIndex(data: Bytes) | Archive(record: Record)
      | PutJournal(record: Record)

  function Act(s: Panel, op: Op): Panel {
    match op
    case PutAsset(name, data) => s.(files := s.files.(assets := s.files.assets[name := data]))
    case PutIndex(data) => s.(files := s.files.(index := data))
    case Archive(_) => s
    case PutJournal(record) => s.(journal := Some(record))
  }

  /** The pinned bundle, the running container, the order in which files are listed, and the limit on a file set (a
      hundred files, sixteen megabytes, reviewed names), which is checked wherever a set is read. */
  datatype Site = Site(target: Files, container: string, list: Assets -> seq<string>, fits: Files -> bool) {
    ghost predicate Valid() {
      && fits(target)
      && (forall assets :: forall name :: name in list(assets) <==> name in assets)
    }
  }

  predicate Within(part: Files, whole: Files) {
    part.index == whole.index && forall name :: name in part.assets ==>
        name in whole.assets && whole.assets[name] == part.assets[name]
  }

  predicate Collides(files: Files, current: Assets) {
    exists name :: name in files.assets && name in current && current[name] != files.assets[name]
  }

  /** The writes of a publication: every asset as listed, then the index. */
  function Puts(files: Files, names: seq<string>): seq<Op> {
    seq(|names|, i requires 0 <= i < |names| =>
      PutAsset(names[i], if names[i] in files.assets then files.assets[names[i]] else [])) + [PutIndex(files.index)]
  }

  /** Publishes a file set over what is there, provided that the index is the expected one and no asset changes. */
  function Publish(p: Site, s: Panel, files: Files, expected: Bytes): Attempt<Op, ()> {
    if s.files.index != expected then Refuse(Hold(UiChanged))
    else if Collides(files, s.files.assets) then Refuse(Hold(UiAssetCollision))
    else
      var steps := Puts(files, p.list(files.assets));
      var after := Replay(Act, s, steps).files;
      Attempt(steps, if !p.fits(after) then Fail(Hold(UiFileSet))
                     else if !Within(files, after) then Fail(Hold(UiVerification))
                     else Ok(()))
  }

  /** A publication, and a mark in the journal when it succeeds. */
  function Publishing(p: Site, s: Panel, files: Files, record: Record): Attempt<Op, ()> {
    var a := Publish(p, s, files, s.files.index);
    if a.end.Fail? then a else Attempt(a.steps + [PutJournal(record)], Ok(()))
  }

  function Archives(s: Panel): seq<Op> {
    if s.journal.Some? then [Archive(s.journal.value)] else []
  }

  function NewRecord(p: Site, s: Panel): Record {
    Record(Applying, p.container, s.files, p.target.index)
  }

  function Apply(p: Site, s: Panel, admitted: bool): Attempt<Op, ()> {
    if !admitted then Refuse(Hold(UiNotAdmitted))
    else if !p.fits(s.files) then Refuse(Hold(UiFileSet))
    else if Within(p.target, s.files) then
      Attempt(if s.journal.Some? && s.journal.value.container == p.container && s.journal.value.status == Applying then
                [PutJournal(s.journal.value.(status := Applied))] else [], Ok(()))
    else if s.journal.Some? && s.journal.value.status == Applying then Refuse(Hold(UiInterrupted))
    else
      var opening := Archives(s) + [PutJournal(NewRecord(p, s))];
      Then(opening, Publishing(p, Replay(Act, s, opening), p.target, NewRecord(p, s).(status := Applied)))
  }

  function Rollback(p: Site, s: Panel, admitted: bool): Attempt<Op, ()> {
    if !admitted then Refuse(Hold(UiNotAdmitted))
    else if !p.fits(s.files) then Refuse(Hold(UiFileSet))
    else if s.journal.None? || s.journal.value.container != p.container then Refuse(Hold(UiNoBackup))
    else
      var record := s.journal.value;
      if !p.fits(record.before) then Refuse(Hold(UiFileSet))
      else if s.files.index != record.before.index && s.files.index != record.afterIndex then Refuse(Hold(UiDiffers))
      else Publishing(p, s, record.before, record.(status := RolledBack))
  }

  // ---------------------------------------------------------------- the operations, step by step

  method PutAll(d: Disk<Panel, Op>, files: Files, names: seq<string>) returns (r: Result<()>)
    requires d.act == Act
    modifies d
    ensures Ran(d, old(d.now), old(d.fuse), Attempt(Puts(files, names), Ok(())), r)
  {
    hide Replay, Act;
    d.Begin(Puts(files, names));
    for i := 0 to |names|
      modifies d`now, d`fuse, d`at
      invariant d.Valid() && d.at == i
    {
      :- d.Do(PutAsset(names[i], if names[i] in files.assets then files.assets[names[i]] else []));
    }
    :- d.Do(PutIndex(files.index));
    d.Finished();
    return Ok(());
  }

  method PublishLocked(p: Site, d: Disk<Panel, Op>, files: Files, expected: Bytes) returns (r: Result<()>)
    requires d.act == Act
    modifies d
    ensures Ran(d, old(d.now), old(d.fuse), Publish(p, old(d.now), files, expected), r)
  {
    hide Replay, Act, Puts;
    NoSteps(Act, d.now, d.fuse);
    if d.now.files.index != expected {
      return Fail(Hold(UiChanged));
    }
    if Collides(files, d.now.files.assets) {
      return Fail(Hold(UiAssetCollision));
    }
    var _ :- PutAll(d, files, p.list(files.assets));
    if !p.fits(d.now.files) {
      return Fail(Hold(UiFileSet));
    }
    if !Within(files, d.now.files) {
      return Fail(Hold(UiVerification));
    }
    return Ok(());
  }

  method PublishingLocked(p: Site, d: Disk<Panel, Op>, files: Files, record: Record) returns (r: Result<()>)
    requires d.act == Act
    modifies d
    ensures Ran(d, old(d.now), old(d.fuse), Publishing(p, old(d.now), files, record), r)
  {
    hide Replay, Act, Publish;
    ghost var a := Publish(p, d.now, files, d.now.files.index);
    ThenRan(Act, d.now, d.fuse, a.steps, Attempt([PutJournal(record)], Ok(())));
    var _ :- PublishLocked(p, d, files, d.now.files.index);
    d.Begin([PutJournal(record)]);
    :- d.Do(PutJournal(record));
    d.Finished();
    return Ok(());
  }

  method ApplyLocked(p: Site, d: Disk<Panel, Op>, admitted: bool) returns (r: Result<()>)
    requires d.act == Act
    modifies d
    ensures Ran(d, old(d.now), old(d.fuse), Apply(p, old(d.now), admitted), r)
  {
    hide Replay, Act, Publishing, Within, NewRecord;
    NoSteps(Act, d.now, d.fuse);
    if !admitted {
      return Fail(Hold(UiNotAdmitted));
    }
    if !p.fits(d.now.files) {
      return Fail(Hold(UiFileSet));
    }
    if Within(p.target, d.now.files) {
      d.Begin(Apply(p, d.now, admitted).steps);
      if d.now.journal.Some? && d.now.journal.value.container == p.container && d.now.journal.value.status == Applying {
        :- d.Do(PutJournal(d.now.journal.value.(status := Applied)));
      }
      d.Finished();
      return Ok(());
    }
    if d.now.journal.Some? && d.now.journal.value.status == Applying {
      return Fail(Hold(UiInterrupted));
    }
    var record := NewRecord(p, d.now);
    ghost var opening := Archives(d.now) + [PutJournal(record)];
    ThenRan(Act, d.now, d.fuse, opening,
        Publishing(p, Replay(Act, d.now, opening), p.target, record.(status := Applied)));
    var _ :- OpenJournal(d, record);
    r := PublishingLocked(p, d, p.target, record.(status := Applied));
  }

  method OpenJournal(d: Disk<Panel, Op>, record: Record) returns (r: Result<()>)
    requires d.act == Act
    modifies d
    ensures Ran(d, old(d.now), old(d.fuse), Attempt(Archives(old(d.now)) + [PutJournal(record)], Ok(())), r)
  {
    hide Replay, Act;
    d.Begin(Archives(d.now) + [PutJournal(record)]);
    if d.now.journal.Some? {
      :- d.Do(Archive(d.now.journal.value));
    }
    :- d.Do(PutJournal(record));
    d.Finished();
    return Ok(());
  }

  method RollbackLocked(p: Site, d: Disk<Panel, Op>, admitted: bool) returns (r: Result<()>)
    requires d.act == Act
    modifies d
    ensures Ran(d, old(d.now), old(d.fuse), Rollback(p, old(d.now), admitted), r)
  {
    hide Replay, Act, Publishing;
    NoSteps(Act, d.now, d.fuse);
    if !admitted {
      return Fail(Hold(UiNotAdmitted));
    }
    if !p.fits(d.now.files) {
      return Fail(Hold(UiFileSet));
    }
    if d.now.journal.None? || d.now.journal.value.container != p.container {
      return Fail(Hold(UiNoBackup));
    }
    var record := d.now.journal.value;
    if !p.fits(record.before) {
      return Fail(Hold(UiFileSet));
    }
    if d.now.files.index != record.before.index && d.now.files.index != record.afterIndex {
      return Fail(Hold(UiDiffers));
    }
    r := PublishingLocked(p, d, record.before, record.(status := RolledBack));
  }
}
