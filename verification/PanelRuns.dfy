/** Every run of updates and rollbacks of the user interface in one container. */
module PanelRuns {
  import opened Durable
  import opened PanelUi

  /** Every file that was there is there unchanged. */
  predicate Keeps(before: Assets, after: Assets) {
    forall name :: name in before ==> name in after && after[name] == before[name]
  }

  /** The journal is about this container. */
  predicate Ours(p: Site, s: Panel) {
    s.journal.Some? && s.journal.value.container == p.container
  }

  ghost predicate Sound(p: Site, s: Panel) {
    // the target's index never stands without the target's assets
    && (s.files.index == p.target.index ==> Keeps(p.target.assets, s.files.assets))
    // what the journal has backed up is still there, and the index is the old one or the target's
    && (Ours(p, s) ==>
          var record := s.journal.value;
          && Keeps(record.before.assets, s.files.assets) && record.afterIndex == p.target.index
          && s.files.index in {record.before.index, p.target.index}
          && record.before.index != p.target.index && p.fits(record.before))
  }

  /** A container as one finds it: the journal, if any, is of another one. */
  predicate Untouched(p: Site, s: Panel) {
    !Ours(p, s) && (s.files.index == p.target.index ==> Keeps(p.target.assets, s.files.assets))
  }

  // ---------------------------------------------------------------- the writes of a publication

  ghost predicate Listed(files: Files, names: seq<string>) {
    forall name :: name in names <==> name in files.assets
  }

  lemma PutAt(files: Files, names: seq<string>, i: nat)
    requires Listed(files, names) && i < |names|
    ensures names[i] in files.assets && |Puts(files, names)| == |names| + 1
    ensures Puts(files, names)[i] == PutAsset(names[i], files.assets[names[i]])
    ensures Puts(files, names)[|names|] == PutIndex(files.index)
  {
  }

  /** The first k writes, none of which is the index. */
  lemma {:induction false} PutsSome(s: Panel, files: Files, names: seq<string>, k: nat)
    requires Listed(files, names) && !Collides(files, s.files.assets) && k <= |names|
    ensures |Puts(files, names)| == |names| + 1
    ensures var t := Replay(Act, s, Puts(files, names)[..k]);
            && t.journal == s.journal && t.files.index == s.files.index
            && Keeps(s.files.assets, t.files.assets) && !Collides(files, t.files.assets)
            && (forall name :: name in t.files.assets ==> name in s.files.assets || name in files.assets)
            && forall i :: 0 <= i < k ==> names[i] in t.files.assets
    decreases k
  {
    hide Replay, Puts;
    assert |Puts(files, names)| == |names| + 1 by { PutsSize(files, names); }
    if k > 0 {
      PutsSome(s, files, names, k - 1);
      PutAt(files, names, k - 1);
      ReplayNext(Act, s, Puts(files, names), k - 1);
    } else {
      NoSteps(Act, s, 0);
      assert Puts(files, names)[..0] == [];
    }
  }

  lemma PutsSize(files: Files, names: seq<string>)
    ensures |Puts(files, names)| == |names| + 1 && Puts(files, names)[|names|] == PutIndex(files.index)
  {
  }

  /** All the writes: everything is there, the index last. */
  lemma PutsAll(s: Panel, files: Files, names: seq<string>)
    requires Listed(files, names) && !Collides(files, s.files.assets)
    ensures var t := Replay(Act, s, Puts(files, names));
            && t.journal == s.journal && t.files.index == files.index && Keeps(s.files.assets, t.files.assets)
            && (forall name :: name in t.files.assets ==> name in s.files.assets || name in files.assets)
            && Within(files, t.files)
  {
    hide Replay, Puts;
    PutsSize(files, names);
    PutsSome(s, files, names, |names|);
    ReplayNext(Act, s, Puts(files, names), |names|);
    assert Puts(files, names)[..|names| + 1] == Puts(files, names);
    var t := Replay(Act, s, Puts(files, names)[..|names|]);
    forall name | name in files.assets ensures name in t.files.assets && t.files.assets[name] == files.assets[name] {
      assert name in names;
    }
  }

  /** At every cut of a publication that is sound to begin, everything stays sound and no asset is lost. */
  lemma PublishStays(p: Site, s: Panel, files: Files, expected: Bytes, k: nat)
    requires p.Valid() && Sound(p, s) && k <= |Publish(p, s, files, expected).steps|
    requires files == p.target || (Ours(p, s) && files == s.journal.value.before)
    requires files == p.target ==> Ours(p, s)
    ensures var t := Replay(Act, s, Publish(p, s, files, expected).steps[..k]);
            Sound(p, t) && Keeps(s.files.assets, t.files.assets) && t.journal == s.journal
  {
    hide Replay, Puts, Act, Collides;
    var steps, names := Publish(p, s, files, expected).steps, p.list(files.assets);
    if steps == [] {
      NoSteps(Act, s, 0);
      assert steps[..k] == [];
    } else {
      PutsSize(files, names);
      if k <= |names| {
        PutsSome(s, files, names, k);
      } else {
        PutsAll(s, files, names);
        assert steps[..k] == steps;
      }
    }
  }

  // ---------------------------------------------------------------- every run

  datatype Event = ApplyCall(admitted: bool, fuse: nat) | RollbackCall(admitted: bool, fuse: nat)

  function Steps(p: Site, s: Panel, event: Event): seq<Op> {
    match event
    case ApplyCall(admitted, fuse) => UpTo(Apply(p, s, admitted).steps, fuse)
    case RollbackCall(admitted, fuse) => UpTo(Rollback(p, s, admitted).steps, fuse)
  }

  function Run(p: Site, s: Panel, events: seq<Event>): Panel {
    if events == [] then s
    else
      var before := Run(p, s, events[..|events| - 1]);
      Replay(Act, before, Steps(p, before, events[|events| - 1]))
  }

  /** Marking the journal changes no file. */
  lemma MarkStays(p: Site, s: Panel, record: Record, status: Status)
    requires Sound(p, s) && s.journal.Some? && record == s.journal.value.(status := status)
    ensures Sound(p, Act(s, PutJournal(record)))
  {
  }

  lemma PublishingStays(p: Site, s: Panel, files: Files, status: Status, fuse: nat)
    requires p.Valid() && Sound(p, s) && Ours(p, s) && (files == p.target || files == s.journal.value.before)
    ensures var t := Replay(Act, s, UpTo(Publishing(p, s, files, s.journal.value.(status := status)).steps, fuse));
            Sound(p, t) && Keeps(s.files.assets, t.files.assets)
  {
    hide Replay, Act, Publish, Sound;
    var a, record := Publish(p, s, files, s.files.index), s.journal.value.(status := status);
    var steps := Publishing(p, s, files, record).steps;
    var k := |UpTo(steps, fuse)|;
    PublishStays(p, s, files, s.files.index, if k <= |a.steps| then k else |a.steps|);
    if k <= |a.steps| {
      assert UpTo(steps, fuse) == a.steps[..k];
    } else {
      assert UpTo(steps, fuse) == a.steps + [PutJournal(record)] && a.steps[..|a.steps|] == a.steps;
      ReplayJoin(Act, s, a.steps, [PutJournal(record)]);
      var t := Replay(Act, s, a.steps);
      ReplayOne(Act, t, PutJournal(record));
      MarkStays(p, t, record, status);
      assert Act(t, PutJournal(record)).files == t.files by { JournalAside(t, record); }
    }
  }

  lemma JournalAside(s: Panel, record: Record)
    ensures Act(s, PutJournal(record)).files == s.files
  {
  }

  /** Opening a new record backs up exactly what is there. */
  lemma OpenStays(p: Site, s: Panel, fuse: nat)
    requires Sound(p, s) && p.fits(s.files) && !Within(p.target, s.files)
    ensures var opening := Archives(s) + [PutJournal(NewRecord(p, s))];
            && var t := Replay(Act, s, UpTo(opening, fuse));
            && Sound(p, t) && t.files == s.files
            && (fuse >= |opening| ==> Ours(p, t) && t.journal == Some(NewRecord(p, s)) && Replay(Act, s, opening) == t)
  {
    hide Replay;
    var opening := Archives(s) + [PutJournal(NewRecord(p, s))];
    ReplayJoin(Act, s, Archives(s), [PutJournal(NewRecord(p, s))]);
    NoSteps(Act, s, 0);
    ReplayOne(Act, s, PutJournal(NewRecord(p, s)));
    if s.journal.Some? {
      ReplayOne(Act, s, Archive(s.journal.value));
      assert opening[..1] == [Archive(s.journal.value)];
    }
    assert opening[..0] == [];
    assert Archives(s) + [] == Archives(s);
  }

  lemma ApplyStays(p: Site, s: Panel, admitted: bool, fuse: nat)
    requires p.Valid() && Sound(p, s)
    ensures var t := Replay(Act, s, UpTo(Apply(p, s, admitted).steps, fuse));
            Sound(p, t) && Keeps(s.files.assets, t.files.assets)
  {
    hide Replay, Act, Publishing, Within, Sound, Archives;
    NoSteps(Act, s, fuse);
    if admitted && p.fits(s.files) {
      if Within(p.target, s.files) {
        if Ours(p, s) && s.journal.value.status == Applying {
          var record := s.journal.value.(status := Applied);
          ReplayOne(Act, s, PutJournal(record));
          MarkStays(p, s, record, Applied);
          JournalAside(s, record);
          if fuse == 0 { assert UpTo([PutJournal(record)], fuse) == []; }
        }
      } else if s.journal.None? || s.journal.value.status != Applying {
        var opening, record := Archives(s) + [PutJournal(NewRecord(p, s))], NewRecord(p, s).(status := Applied);
        var full := Replay(Act, s, opening);
        OpenStays(p, s, fuse);
        ThenRan(Act, s, fuse, opening, Publishing(p, full, p.target, record));
        if fuse >= |opening| {
          PublishingStays(p, full, p.target, Applied, fuse - |opening|);
        }
      }
    }
  }

  lemma RollbackStays(p: Site, s: Panel, admitted: bool, fuse: nat)
    requires p.Valid() && Sound(p, s)
    ensures var t := Replay(Act, s, UpTo(Rollback(p, s, admitted).steps, fuse));
            Sound(p, t) && Keeps(s.files.assets, t.files.assets)
  {
    hide Replay, Act, Publishing, Sound;
    NoSteps(Act, s, fuse);
    if Ours(p, s) {
      PublishingStays(p, s, s.journal.value.before, RolledBack, fuse);
    }
  }

  lemma {:induction false} RunsAreSound(p: Site, s: Panel, events: seq<Event>)
    requires p.Valid() && Untouched(p, s)
    ensures Sound(p, Run(p, s, events))
  {
    hide Apply, Rollback, Act, Replay, Sound;
    if events == [] {
      assert Sound(p, s) by { UntouchedIsSound(p, s); }
    } else {
      RunsAreSound(p, s, events[..|events| - 1]);
      var before := Run(p, s, events[..|events| - 1]);
      match events[|events| - 1]
      case ApplyCall(admitted, fuse) => ApplyStays(p, before, admitted, fuse);
      case RollbackCall(admitted, fuse) => RollbackStays(p, before, admitted, fuse);
    }
  }

  lemma UntouchedIsSound(p: Site, s: Panel)
    requires Untouched(p, s)
    ensures Sound(p, s)
  {
  }

  /** In every run, at every cut of the next call: no asset that was there changes or disappears, and the target's
      index never stands without all of the target's assets. */
  lemma {:induction false} AssetsAreMonotone(p: Site, s: Panel, events: seq<Event>, event: Event)
    requires p.Valid() && Untouched(p, s)
    ensures var before := Run(p, s, events);
            var after := Replay(Act, before, Steps(p, before, event));
            && Keeps(before.files.assets, after.files.assets)
            && (after.files.index == p.target.index ==> Within(p.target, after.files))
  {
    hide Apply, Rollback, Act, Replay, Run;
    RunsAreSound(p, s, events);
    var before := Run(p, s, events);
    match event
    case ApplyCall(admitted, fuse) => ApplyStays(p, before, admitted, fuse);
    case RollbackCall(admitted, fuse) => RollbackStays(p, before, admitted, fuse);
  }

  /** After every run, a rollback in the admitted container that is not cut succeeds exactly when the journal is of
      this container and the files, with the index that stands and with the one put back, are within the limit.  Then
      the old index is back and every asset is kept.  It is never refused for a collision, a changed index, or a
      failed comparison. */
  lemma {:induction false} RollbackSucceedsExactlyWhen(p: Site, s: Panel, events: seq<Event>)
    requires p.Valid() && Untouched(p, s)
    ensures var t := Run(p, s, events);
            var a := Rollback(p, t, true);
            && (a.end.Ok? <==> Ours(p, t) && p.fits(t.files) && p.fits(t.files.(index := t.journal.value.before.index)))
            && (a.end.Ok? ==> Replay(Act, t, a.steps).files == t.files.(index := t.journal.value.before.index))
            && (a.end.Fail? ==> a.end in {Fail(Hold(UiFileSet)), Fail(Hold(UiNoBackup))})
  {
    hide Act, Replay, Run, Puts;
    RunsAreSound(p, s, events);
    var t := Run(p, s, events);
    if Ours(p, t) {
      var files := t.journal.value.before;
      var names := p.list(files.assets);
      assert !Collides(files, t.files.assets);
      PutsAll(t, files, names);
      var after := Replay(Act, t, Puts(files, names));
      assert after.files.assets == t.files.assets;
      var steps, record := Puts(files, names), t.journal.value.(status := RolledBack);
      ReplayJoin(Act, t, steps, [PutJournal(record)]);
      ReplayOne(Act, after, PutJournal(record));
      JournalAside(after, record);
    }
  }

  // --------------------------------------------------------- when an update succeeds, and what blocks both operations

  /** What an update makes of the files: every asset that was there, the target's, and the target's index. */
  function Joined(p: Site, files: Files): Files {
    Files(files.assets + p.target.assets, p.target.index)
  }

  predicate Interrupted(s: Panel) {
    s.journal.Some? && s.journal.value.status == Applying
  }

  /** The writes of an update that collides with nothing lead to the joined files. */
  lemma UpdateWrites(p: Site, s: Panel)
    requires p.Valid() && !Collides(p.target, s.files.assets)
    ensures var t := Replay(Act, s, Puts(p.target, p.list(p.target.assets)));
            t.files == Joined(p, s.files) && t.journal == s.journal && Within(p.target, t.files)
  {
    hide Replay, Puts;
    PutsAll(s, p.target, p.list(p.target.assets));
    var t := Replay(Act, s, Puts(p.target, p.list(p.target.assets)));
    assert t.files.assets == Joined(p, s.files).assets;
  }

  /** What an update leaves behind its record when it is not cut. */
  lemma UpdateReaches(p: Site, s: Panel)
    requires p.Valid() && p.fits(s.files) && !Within(p.target, s.files) && !Interrupted(s)
    ensures var a := Apply(p, s, true);
            var opening := Archives(s) + [PutJournal(NewRecord(p, s))];
            var begun := s.(journal := Some(NewRecord(p, s)));
            && Replay(Act, s, opening) == begun && opening <= a.steps
            && (Collides(p.target, s.files.assets) ==>
                  a == Attempt(opening, Fail(Hold(UiAssetCollision))))
            && (!Collides(p.target, s.files.assets) ==>
                  var joined := begun.(files := Joined(p, s.files));
                  && |a.steps| > |opening|
                  && if p.fits(Joined(p, s.files)) then
                       && a.end == Ok(())
                       && Replay(Act, s, a.steps) == joined.(journal := Some(NewRecord(p, s).(status := Applied)))
                     else
                       a.end == Fail(Hold(UiFileSet)) && Replay(Act, s, a.steps) == joined)
  {
    hide Replay, Puts, Within, NewRecord, Collides;
    var record := NewRecord(p, s);
    var opening := Archives(s) + [PutJournal(record)];
    OpeningReaches(s, record);
    var begun := Replay(Act, s, opening);
    if !Collides(p.target, s.files.assets) {
      UpdateWrites(p, begun);
      var writes, done := Puts(p.target, p.list(p.target.assets)), PutJournal(record.(status := Applied));
      PutsSize(p.target, p.list(p.target.assets));
      ReplayJoin(Act, s, opening, writes);
      ReplayJoin(Act, s, opening + writes, [done]);
      ReplayOne(Act, Replay(Act, s, opening + writes), done);
      assert opening + (writes + [done]) == opening + writes + [done];
    }
  }

  lemma OpeningReaches(s: Panel, record: Record)
    ensures Replay(Act, s, Archives(s) + [PutJournal(record)]) == s.(journal := Some(record))
  {
    hide Replay;
    ReplayJoin(Act, s, Archives(s), [PutJournal(record)]);
    NoSteps(Act, s, 0);
    if s.journal.Some? {
      ReplayOne(Act, s, Archive(s.journal.value));
    }
    ReplayOne(Act, s, PutJournal(record));
  }

  /** For every panel: an admitted update that is not cut succeeds exactly if the files are within the limit, and
      either the target is there, or no other update is interrupted, nothing collides, and the joined files are within
      the limit too. */
  lemma {:induction false} ApplySucceedsExactlyWhen(p: Site, s: Panel)
    requires p.Valid()
    ensures Apply(p, s, true).end.Ok? <==>
            && p.fits(s.files)
            && (Within(p.target, s.files)
                || (!Interrupted(s) && !Collides(p.target, s.files.assets) && p.fits(Joined(p, s.files))))
    ensures Apply(p, s, true).end.Ok? ==>
              Replay(Act, s, Apply(p, s, true).steps).files == if Within(p.target, s.files) then s.files
                  else Joined(p, s.files)
  {
    hide Replay, Act, Publishing, Within, Collides, NewRecord;
    if p.fits(s.files) && !Within(p.target, s.files) && !Interrupted(s) {
      UpdateReaches(p, s);
    } else if p.fits(s.files) && Within(p.target, s.files) {
      NoSteps(Act, s, 0);
      if s.journal.Some? {
        ReplayOne(Act, s, PutJournal(s.journal.value.(status := Applied)));
        JournalAside(s, s.journal.value.(status := Applied));
      }
    }
  }

  predicate Refused(a: Attempt<Op, ()>) {
    a.end.Fail? && a.steps == []
  }

  /** The files exceed the limit; or an update is interrupted, the target is not there, and the backup is another
      container's, too large, or not what the files came from. */
  predicate Blocked(p: Site, s: Panel) {
    || !p.fits(s.files)
    || (&& Interrupted(s) && !Within(p.target, s.files)
        && var record := s.journal.value;
           || !Ours(p, s) || !p.fits(record.before) || s.files.index !in {record.before.index, record.afterIndex}
           || Collides(record.before, s.files.assets))
  }

  predicate BothRefused(p: Site, s: Panel) {
    Refused(Apply(p, s, true)) && Refused(Rollback(p, s, true))
  }

  lemma BlockedIsRefused(p: Site, s: Panel)
    ensures BothRefused(p, s) <==> Blocked(p, s)
  {
    hide Replay, Act, Puts, Within, Collides;
    if Ours(p, s) {
      PutsSize(s.journal.value.before, p.list(s.journal.value.before.assets));
    }
  }

  /** Once both refuse, no later run of calls changes anything. */
  lemma {:induction false} RefusedForGood(p: Site, s: Panel, events: seq<Event>)
    requires BothRefused(p, s)
    ensures Run(p, s, events) == s
  {
    hide Replay, Act, Apply, Rollback;
    if events != [] {
      RefusedForGood(p, s, events[..|events| - 1]);
      NotAdmitted(p, s);
      NoSteps(Act, s, events[|events| - 1].fuse);
    }
  }

  /** For every panel: after every run of calls both operations are refused and nothing has changed, exactly if the
      panel is blocked. */
  lemma {:induction false} BothRefusedExactlyWhen(p: Site, s: Panel)
    ensures Blocked(p, s) <==> forall events :: Run(p, s, events) == s && BothRefused(p, Run(p, s, events))
  {
    hide BothRefused, Blocked, Replay, Steps;
    BlockedIsRefused(p, s);
    if Blocked(p, s) {
      forall events ensures Run(p, s, events) == s {
        RefusedForGood(p, s, events);
      }
    } else {
      assert Run(p, s, []) == s;
    }
  }

  lemma NotAdmitted(p: Site, s: Panel)
    ensures Apply(p, s, false).steps == [] && Rollback(p, s, false).steps == []
  {
  }

  /** The limit can be exceeded by an update, and the caller can tell before it: if nothing collides, nothing is
      interrupted, and the joined files are not within the limit, then every asset and the new index are written, the
      answer is a failure, and from then on every run of calls is refused; the panel stays as it is. */
  lemma {:induction false} OversizedUpdateIsStuck(p: Site, s: Panel, events: seq<Event>)
    requires p.Valid() && p.fits(s.files) && !Within(p.target, s.files) && !Interrupted(s)
    requires !Collides(p.target, s.files.assets) && !p.fits(Joined(p, s.files))
    ensures var a := Apply(p, s, true);
            var after := Replay(Act, s, a.steps);
            && a.end == Fail(Hold(UiFileSet))
            && after.files == Joined(p, s.files) && Within(p.target, after.files)
            && BothRefused(p, after)
            && Run(p, after, events) == after
  {
    hide Replay, Act, Run, Publishing, Puts, Collides;
    UpdateReaches(p, s);
    UpdateWrites(p, s);
    var after := Replay(Act, s, Apply(p, s, true).steps);
    BlockedIsRefused(p, after);
    RefusedForGood(p, after, events);
  }

  /** An update cut anywhere behind its record and before it is marked as done keeps both operations from working in
      every next container that does not have the target already: every later run of calls is refused and leaves it as
      it is. */
  lemma {:induction false} ReplacedContainerIsStuck(p: Site, s: Panel, fuse: nat, container: string, files: Files,
      events: seq<Event>)
    requires p.Valid() && p.fits(s.files) && !Within(p.target, s.files) && !Interrupted(s)
    requires |Archives(s)| < fuse && (Apply(p, s, true).end.Ok? ==> fuse < |Apply(p, s, true).steps|)
    requires container != p.container && !Within(p.target, files)
    ensures var cut := Replay(Act, s, UpTo(Apply(p, s, true).steps, fuse));
            var next, q := Panel(files, cut.journal), p.(container := container);
            && cut.journal == Some(NewRecord(p, s))
            && BothRefused(q, next)
            && Run(q, next, events) == next
  {
    hide Replay, Act, Run, Publishing, Within;
    var cut := Replay(Act, s, UpTo(Apply(p, s, true).steps, fuse));
    CutJournal(p, s, fuse);
    var next, q := Panel(files, cut.journal), p.(container := container);
    BlockedIsRefused(q, next);
    RefusedForGood(q, next, events);
  }

  /** Behind the record, and before the mark, the journal is the new record. */
  lemma CutJournal(p: Site, s: Panel, fuse: nat)
    requires p.Valid() && p.fits(s.files) && !Within(p.target, s.files) && !Interrupted(s)
    requires |Archives(s)| < fuse && (Apply(p, s, true).end.Ok? ==> fuse < |Apply(p, s, true).steps|)
    ensures Replay(Act, s, UpTo(Apply(p, s, true).steps, fuse)).journal == Some(NewRecord(p, s))
  {
    hide Replay, Act, Within, NewRecord, Puts, Collides;
    var record := NewRecord(p, s);
    var opening := Archives(s) + [PutJournal(record)];
    UpdateReaches(p, s);
    var begun := Replay(Act, s, opening);
    var rest := Publishing(p, begun, p.target, record.(status := Applied));
    ThenRan(Act, s, fuse, opening, rest);
    var writes := Publish(p, begun, p.target, begun.files.index).steps;
    var k := |UpTo(rest.steps, fuse - |opening|)|;
    assert k <= |writes| && UpTo(rest.steps, fuse - |opening|) == writes[..k];
    PublishKeepsJournal(p, begun, k);
  }

  lemma PublishKeepsJournal(p: Site, s: Panel, k: nat)
    requires p.Valid() && k <= |Publish(p, s, p.target, s.files.index).steps|
    ensures Replay(Act, s, Publish(p, s, p.target, s.files.index).steps[..k]).journal == s.journal
  {
    hide Replay, Act, Puts, Collides;
    var steps, names := Publish(p, s, p.target, s.files.index).steps, p.list(p.target.assets);
    if steps == [] {
      NoSteps(Act, s, 0);
      assert steps[..k] == [];
    } else {
      PutsSize(p.target, names);
      if k <= |names| {
        PutsSome(s, p.target, names, k);
      } else {
        PutsAll(s, p.target, names);
        assert steps[..k] == steps;
      }
    }
  }

  // ---------------------------------------------------------------- every outcome on every panel

  /** One file set published over another. */
  function Over(files: Files, part: Files): Files {
    Files(files.assets + part.assets, part.index)
  }

  lemma PublishOutcome(p: Site, s: Panel, part: Files, record: Record)
    requires p.Valid()
    ensures var a := Publishing(p, s, part, record);
            var t := Replay(Act, s, a.steps);
            if Collides(part, s.files.assets) then a == Attempt([], Fail(Hold(UiAssetCollision)))
            else if !p.fits(Over(s.files, part)) then
              a.end == Fail(Hold(UiFileSet)) && t == Panel(Over(s.files, part), s.journal)
            else a.end == Ok(()) && t == Panel(Over(s.files, part), Some(record))
  {
    hide Replay, Puts, Collides, Within;
    if !Collides(part, s.files.assets) {
      var names := p.list(part.assets);
      PutsAll(s, part, names);
      var t := Replay(Act, s, Puts(part, names));
      assert t.files.assets == Over(s.files, part).assets by { Unfolded(s, part, t.files); }
      ReplayJoin(Act, s, Puts(part, names), [PutJournal(record)]);
      ReplayOne(Act, t, PutJournal(record));
    }
  }

  lemma Unfolded(s: Panel, part: Files, after: Files)
    requires Keeps(s.files.assets, after.assets) && Within(part, after) && !Collides(part, s.files.assets)
    requires forall name :: name in after.assets ==> name in s.files.assets || name in part.assets
    ensures after.assets == s.files.assets + part.assets
  {
  }

  /** The part stands in the files, index and assets. */
  predicate Complete(files: Files, part: Files) {
    && files.index == part.index
    && forall name :: name in part.assets ==> name in files.assets && files.assets[name] == part.assets[name]
  }

  /** Some asset of the part is there with another content. */
  predicate Clash(files: Files, part: Files) {
    exists name :: name in part.assets && name in files.assets && files.assets[name] != part.assets[name]
  }

  lemma SameTests(files: Files, part: Files)
    ensures Within(part, files) <==> Complete(files, part)
    ensures Collides(part, files.assets) <==> Clash(files, part)
  {
  }

  /** What an admitted update that is not cut answers and leaves, on every panel. */
  lemma {:induction false} UpdateOutcome(p: Site, s: Panel)
    requires p.Valid()
    ensures var a := Apply(p, s, true);
            var t := Replay(Act, s, a.steps);
            var open := Record(Applying, p.container, s.files, p.target.index);
            if !p.fits(s.files) then a == Attempt([], Fail(Hold(UiFileSet)))
            else if Complete(s.files, p.target) then
              && a.end == Ok(())
              && t == s.(journal := if s.journal.Some? && s.journal.value.container == p.container
                                       && s.journal.value.status == Applying
                                    then Some(s.journal.value.(status := Applied)) else s.journal)
            else if s.journal.Some? && s.journal.value.status == Applying
                then a == Attempt([], Fail(Hold(UiInterrupted)))
            else if Clash(s.files, p.target) then
              a.end == Fail(Hold(UiAssetCollision)) && t == Panel(s.files, Some(open))
            else if !p.fits(Over(s.files, p.target)) then
              a.end == Fail(Hold(UiFileSet)) && t == Panel(Over(s.files, p.target), Some(open))
            else a.end == Ok(()) && t == Panel(Over(s.files, p.target), Some(open.(status := Applied)))
  {
    SameTests(s.files, p.target);
    hide Replay, Publishing, Within, Collides, Complete, Clash;
    NoSteps(Act, s, 0);
    if p.fits(s.files) {
      if Within(p.target, s.files) {
        if s.journal.Some? {
          ReplayOne(Act, s, PutJournal(s.journal.value.(status := Applied)));
        }
      } else if !(s.journal.Some? && s.journal.value.status == Applying) {
        var open := NewRecord(p, s);
        var opening := Archives(s) + [PutJournal(open)];
        OpeningReaches(s, open);
        var begun := Replay(Act, s, opening);
        PublishOutcome(p, begun, p.target, open.(status := Applied));
        ReplayJoin(Act, s, opening, Publishing(p, begun, p.target, open.(status := Applied)).steps);
        NoSteps(Act, begun, 0);
      }
    }
  }

  /** What an admitted rollback that is not cut answers and leaves, on every panel. */
  lemma {:induction false} RollbackOutcome(p: Site, s: Panel)
    requires p.Valid()
    ensures var a := Rollback(p, s, true);
            var t := Replay(Act, s, a.steps);
            if !p.fits(s.files) then a == Attempt([], Fail(Hold(UiFileSet)))
            else if s.journal.None? || s.journal.value.container != p.container
                then a == Attempt([], Fail(Hold(UiNoBackup)))
            else
              var record := s.journal.value;
              if !p.fits(record.before) then a == Attempt([], Fail(Hold(UiFileSet)))
              else if s.files.index != record.before.index && s.files.index != record.afterIndex then
                a == Attempt([], Fail(Hold(UiDiffers)))
              else if Clash(s.files, record.before) then a == Attempt([], Fail(Hold(UiAssetCollision)))
              else if !p.fits(Over(s.files, record.before)) then
                a.end == Fail(Hold(UiFileSet)) && t == s.(files := Over(s.files, record.before))
              else
                && a.end == Ok(())
                && t == Panel(Over(s.files, record.before), Some(record.(status := RolledBack)))
  {
    if s.journal.Some? {
      SameTests(s.files, s.journal.value.before);
    }
    hide Replay, Publishing, Within, Collides, Complete, Clash;
    if s.journal.Some? {
      PublishOutcome(p, s, s.journal.value.before, s.journal.value.(status := RolledBack));
    }
  }
}
