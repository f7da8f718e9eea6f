/** Every run of the WSS edge: no dangling map at any point, and no journal lost while something is left to undo. */
module EdgeRuns {
  import opened Durable
  import opened EdgeExecutor

  /** How far the publication is.  `Opened` has no journal yet, `Swapping` has a committed record beside the journal,
      `Closed` has no journal any more. */
  datatype Stage =
    | Idle
    | Opened(copied: bool)
    | Journaled(committed: bool, alt: bool, mapped: bool, record: Record)
    | Swapping(record: Record)
    | Closed(copied: bool)

  predicate Untouched(origin: Edge) {
    !origin.directory && origin.alt.None? && origin.oldMap.None? && origin.journal.None? && origin.next.None?
  }

  predicate RecordOf(origin: Edge, record: Record) {
    !record.committed && record.backend == origin.backend && record.stream == origin.stream
        && record.mapOld == origin.streamMap
  }

  predicate Belongs(origin: Edge, stage: Stage) {
    match stage
    case Journaled(_, alt, mapped, record) => RecordOf(origin, record) && (mapped ==> alt)
    case Swapping(record) => RecordOf(origin, record)
    case _ => true
  }

  function Image(origin: Edge, stage: Stage): Edge {
    match stage
    case Idle => origin
    case Opened(copied) => origin.(directory := true, oldMap := if copied then Some(origin.streamMap) else None)
    case Journaled(committed, alt, mapped, record) =>
      origin.(directory := true, oldMap := Some(origin.streamMap), journal := Some(record.(committed := committed)),
              alt := if alt then Some(record.altNew) else None,
              streamMap := if mapped then record.mapNew else origin.streamMap)
    case Swapping(record) =>
      origin.(directory := true, oldMap := Some(origin.streamMap), journal := Some(record),
              next := Some(record.(committed := true)), alt := Some(record.altNew), streamMap := record.mapNew)
    case Closed(copied) => origin.(directory := true, oldMap := if copied then Some(origin.streamMap) else None)
  }

  ghost function Way(origin: Edge): Course<Edge, Op, Stage> {
    Course(Act, (s: Stage) => Image(origin, s), (s: Stage) => Belongs(origin, s))
  }

  // ---------------------------------------------------------------- withdrawal

  /** The map back, the vhost away. */
  function RetractWalk(stage: Stage): Walk<Op, Stage>
    requires stage.Journaled?
  {
    (if stage.mapped && stage.record.mapNew != stage.record.mapOld then
       [(PutMap(stage.record.mapOld), stage.(mapped := false))] else []) +
    (if stage.alt then [(DropAlt, stage.(mapped := false, alt := false))] else [])
  }

  function ClosingWalk(): Walk<Op, Stage> {
    [(DropJournal, Closed(true)), (DropOldMap, Closed(false)), (RemoveDirectory, Idle)]
  }

  lemma RetractWalks(origin: Edge, stage: Stage)
    requires stage.Journaled? && Belongs(origin, stage)
    ensures var walk := RetractWalk(stage);
            && Walks(Way(origin), stage, walk)
            && Image(origin, Where(stage, walk, |walk|)) == Image(origin, stage.(mapped := false, alt := false))
  {
  }

  lemma ClosingWalks(origin: Edge, stage: Stage)
    requires Untouched(origin) && stage.Journaled? && Belongs(origin, stage)
    requires Image(origin, stage) == Image(origin, stage.(mapped := false, alt := false))
    ensures Walks(Way(origin), stage, ClosingWalk())
  {
  }

  /** With a journal, a withdrawal is never refused; it goes back to the start, or stops before the journal if Nginx
      does not accept. */
  lemma WithdrawFollows(origin: Edge, stage: Stage, passes: bool) returns (walk: Walk<Op, Stage>)
    requires Untouched(origin) && stage.Journaled? && Belongs(origin, stage)
    ensures var a := Withdraw(Image(origin, stage), stage.record.(committed := stage.committed), passes);
            && Walks(Way(origin), stage, walk) && a.steps == Ops(walk)
            && (a.end.Ok? <==> passes) && (passes ==> walk != [] && Where(stage, walk, |walk|) == Idle)
  {
    RetractWalks(origin, stage);
    walk := RetractWalk(stage);
    var last := Where(stage, walk, |walk|);
    hide Act, Walks;
    assert Ops(walk) == Retract(Image(origin, stage), stage.record);
    if passes {
      assert Belongs(origin, last) && last.Journaled?;
      ClosingWalks(origin, last);
      WalksJoin(Way(origin), stage, walk, ClosingWalk());
      assert Ops(ClosingWalk()) == [DropJournal, DropOldMap, RemoveDirectory];
      walk := walk + ClosingWalk();
    }
  }

  // ---------------------------------------------------------------- publication

  function OpeningWalk(record: Record): Walk<Op, Stage> {
    [(MakeDirectory, Opened(false)), (AddOldMap(record.mapOld), Opened(true)),
     (AddJournal(record), Journaled(false, false, false, record)),
     (PutAlt(record.altNew), Journaled(false, true, false, record)),
     (PutMap(record.mapNew), Journaled(false, true, true, record))]
  }

  function CommitWalk(record: Record): Walk<Op, Stage> {
    [(AddNext(record.(committed := true)), Swapping(record)), (SwapJournal, Journaled(true, true, true, record))]
  }

  lemma OpeningWalks(origin: Edge, record: Record)
    requires Untouched(origin) && RecordOf(origin, record)
    ensures Walks(Way(origin), Idle, OpeningWalk(record)) && Ops(OpeningWalk(record)) == Opening(record)
  {
  }

  lemma CommitWalks(origin: Edge, record: Record)
    requires RecordOf(origin, record) && Untouched(origin)
    ensures Walks(Way(origin), Journaled(false, true, true, record), CommitWalk(record))
    ensures Ops(CommitWalk(record)) == [AddNext(record.(committed := true)), SwapJournal]
  {
  }

  lemma ApplyFollows(origin: Edge, view: View) returns (walk: Walk<Op, Stage>)
    requires Untouched(origin)
    ensures var a := Apply(origin, view);
            && Walks(Way(origin), Idle, walk) && a.steps == Ops(walk)
            && var last := Where(Idle, walk, |walk|);
            && (a.end.Ok? ==> last.Journaled? && last.committed && last.alt && last.mapped)
            && (a.end == Fail(Hold(EdgeRolledBack)) ==> last == Idle)
  {
    hide Act, Walks, Withdraw, Image;
    assert Image(origin, Idle) == origin by { IdleImage(origin); }
    if Prepare(origin, view).Fail? {
      walk := [];
      assert Walks(Way(origin), Idle, []) by { NoWalk(Way(origin), Idle); }
    } else {
      var record := Prepare(origin, view).value;
      var full := Journaled(false, true, true, record);
      OpeningWalks(origin, record);
      var first := OpeningWalk(record);
      WalksEnd(Way(origin), Idle, first, |first|);
      assert Ops(first)[..|first|] == Ops(first);
      FullIsLive(origin, record);
      if view.passes(1) {
        CommitWalks(origin, record);
        WalksJoin(Way(origin), Idle, first, CommitWalk(record));
        walk := first + CommitWalk(record);
      } else {
        var back := WithdrawFollows(origin, full, view.passes(2));
        assert full.record.(committed := full.committed) == record;
        WalksJoin(Way(origin), Idle, first, back);
        walk := first + back;
      }
    }
  }

  lemma IdleImage(origin: Edge)
    ensures Image(origin, Idle) == origin
  {
  }

  lemma FullIsLive(origin: Edge, record: Record)
    requires RecordOf(origin, record)
    ensures var s := Image(origin, Journaled(false, true, true, record));
            Protected(s, record) && s.streamMap == record.mapNew && s.alt == Some(record.altNew)
  {
  }

  // ---------------------------------------------------------------- every run

  datatype Event = ApplyCall(view: View, fuse: nat) | UndoCall(committed: bool, passes: bool, fuse: nat)

  function Steps(s: Edge, event: Event): seq<Op> {
    match event
    case ApplyCall(view, fuse) => UpTo(Apply(s, view).steps, fuse)
    case UndoCall(committed, passes, fuse) => UpTo(Undo(s, committed, passes).steps, fuse)
  }

  function Run(s: Edge, events: seq<Event>): Edge {
    if events == [] then s
    else
      var before := Run(s, events[..|events| - 1]);
      Replay(Act, before, Steps(before, events[|events| - 1]))
  }

  lemma CallWalks(origin: Edge, stage: Stage, event: Event) returns (walk: Walk<Op, Stage>)
    requires Untouched(origin) && Belongs(origin, stage)
    ensures Walks(Way(origin), stage, walk) && Steps(Image(origin, stage), event) <= Ops(walk)
  {
    hide Walks, Act, Withdraw, Settle;
    walk := [];
    NoWalk(Way(origin), stage);
    match event
    case ApplyCall(view, _) =>
      if stage == Idle {
        walk := ApplyFollows(origin, view);
      }
    case UndoCall(committed, passes, _) =>
      if stage.Journaled? && stage.committed == committed {
        walk := WithdrawFollows(origin, stage, passes);
      }
  }

  lemma {:induction false} RunStays(origin: Edge, events: seq<Event>) returns (stage: Stage)
    requires Untouched(origin)
    ensures Belongs(origin, stage) && Run(origin, events) == Image(origin, stage)
  {
    hide Walks, Act, Steps;
    if events == [] {
      stage := Idle;
    } else {
      hide Image, Belongs;
      var before := RunStays(origin, events[..|events| - 1]);
      var walk := CallWalks(origin, before, events[|events| - 1]);
      var steps := Steps(Image(origin, before), events[|events| - 1]);
      WalksEnd(Way(origin), before, walk, |steps|);
      assert steps == Ops(walk)[..|steps|];
      stage := Where(before, walk, |steps|);
    }
  }

  /** In every run, cut anywhere: a stream map that is not the original refers to a vhost that is there; and once
      there is no journal, both files are the originals. */
  lemma {:induction false} NoDanglingMap(origin: Edge, events: seq<Event>)
    requires Untouched(origin)
    ensures var s := Run(origin, events);
            && (s.streamMap != origin.streamMap ==>
                  s.journal.Some? && s.streamMap == s.journal.value.mapNew && s.alt == Some(s.journal.value.altNew))
            && (s.journal.None? ==> s.streamMap == origin.streamMap && s.alt == origin.alt)
            && s.backend == origin.backend && s.stream == origin.stream
  {
    hide Run;
    var _ := RunStays(origin, events);
  }

  /** After every run: some operation that is not cut brings everything back exactly when there is a journal and no
      half-made swap of it; it is `rollback` for a committed journal and `recover` for another. */
  lemma {:induction false} UndoneExactlyWhen(origin: Edge, events: seq<Event>, committed: bool)
    requires Untouched(origin)
    ensures var s := Run(origin, events);
            && (Undo(s, committed, true).end.Ok? <==>
                s.next.None? && s.journal.Some? && s.journal.value.committed == committed)
            && (Undo(s, committed, true).end.Ok? ==> Replay(Act, s, Undo(s, committed, true).steps) == origin)
  {
    hide Run, Act, Replay, Withdraw, Walks;
    var stage := RunStays(origin, events);
    if stage.Journaled? && stage.committed == committed {
      var walk := WithdrawFollows(origin, stage, true);
      WalksEnd(Way(origin), stage, walk, |walk|);
      assert Ops(walk)[..|walk|] == Ops(walk);
    }
  }

  /** The half-made swap can happen: an activation cut between writing the committed record and moving it into place.
      Then the map and the vhost are live, and every call whatever is refused. */
  lemma {:induction false} SwapCutIsStuck(origin: Edge, view: View, event: Event)
    requires Untouched(origin) && Apply(origin, view).end.Ok?
    ensures var a := Apply(origin, view);
            && |a.steps| > 0
            && var s := Replay(Act, origin, a.steps[..|a.steps| - 1]);
            && s.next.Some? && s.journal.Some? && s.alt == Some(s.journal.value.altNew)
            && s.streamMap == s.journal.value.mapNew
            && Steps(s, event) == []
  {
    hide Act, Replay, Walks, Withdraw;
    var walk := SuccessWalks(origin, view);
    WalksEnd(Way(origin), Idle, walk, |walk| - 1);
  }

  // ---------------------------------------------------------------- when no call is accepted any more

  /** The journal's directory is there, without a journal or with a half-made swap. */
  predicate HalfMade(s: Edge) {
    s.directory && (s.next.Some? || s.journal.None?)
  }

  predicate Refuses(s: Edge, event: Event) {
    match event
    case ApplyCall(view, _) => Apply(s, view).end.Fail? && Apply(s, view).steps == []
    case UndoCall(committed, passes, _) =>
      Undo(s, committed, passes).end.Fail? && Undo(s, committed, passes).steps == []
  }

  lemma HalfMadeRefuses(s: Edge, event: Event)
    requires HalfMade(s)
    ensures Refuses(s, event) && Steps(s, event) == []
  {
    hide Withdraw, Settle;
  }

  lemma {:induction false} HalfMadeStays(s: Edge, events: seq<Event>)
    requires HalfMade(s)
    ensures Run(s, events) == s
  {
    hide Steps, HalfMade, Replay, Act;
    if events != [] {
      HalfMadeStays(s, events[..|events| - 1]);
      HalfMadeRefuses(s, events[|events| - 1]);
      NoSteps(Act, s, 0);
    }
  }

  /** After every run: every call whatever is refused, and every later run changes nothing, exactly if the directory
      is there without a journal or with a half-made swap. */
  lemma {:induction false} StuckExactlyWhen(origin: Edge, events: seq<Event>)
    requires Untouched(origin)
    ensures var s := Run(origin, events);
            && (HalfMade(s) <==> forall event :: Refuses(s, event))
            && (HalfMade(s) <==> forall later :: Run(s, later) == s)
  {
    hide Run, Act, Replay, Withdraw, Settle;
    var s := Run(origin, events);
    var stage := RunStays(origin, events);
    if HalfMade(s) {
      forall event ensures Refuses(s, event) {
        HalfMadeRefuses(s, event);
      }
      forall later ensures Run(s, later) == s {
        HalfMadeStays(s, later);
      }
    } else {
      var event := SomeCallWorks(origin, stage);
      assert !Refuses(s, event);
      RunOne(s, event);
      var later := [event];
      assert Run(s, later) != s;
    }
  }

  lemma MakesDirectory(s: Edge)
    ensures Act(s, MakeDirectory).directory
  {
  }

  lemma RunOne(s: Edge, event: Event)
    ensures Run(s, [event]) == Replay(Act, s, Steps(s, event))
  {
    assert [event][..0] == [];
    assert Run(s, []) == s;
  }

  /** Where nothing is half-made some call does something: an activation, or an undoing by which the directory goes. */
  lemma SomeCallWorks(origin: Edge, stage: Stage) returns (event: Event)
    requires Untouched(origin) && Belongs(origin, stage) && !HalfMade(Image(origin, stage))
    ensures !Refuses(Image(origin, stage), event)
    ensures Replay(Act, Image(origin, stage), Steps(Image(origin, stage), event)) != Image(origin, stage)
  {
    hide Act, Replay, Withdraw, Walks, Settle;
    var s := Image(origin, stage);
    match stage
    case Idle =>
      event := ApplyCall(View(Some(([], [])), n => true), 1);
      var record := Prepare(s, event.view).value;
      assert UpTo(Apply(s, event.view).steps, 1) == [MakeDirectory];
      ReplayOne(Act, s, MakeDirectory);
      MakesDirectory(s);
    case Journaled(committed, _, _, record) =>
      var walk := WithdrawFollows(origin, stage, true);
      event := UndoCall(committed, true, |walk|);
      WalksEnd(Way(origin), stage, walk, |walk|);
      assert Ops(walk)[..|walk|] == Ops(walk) == UpTo(Undo(s, committed, true).steps, |walk|);
  }

  /** An activation that would succeed, cut after so many of its seven steps: no call is accepted any more exactly if
      the directory was made and the journal was not, or the committed record was written and not moved into place. */
  lemma {:induction false} CutActivationIsStuck(origin: Edge, view: View, fuse: nat)
    requires Untouched(origin) && Apply(origin, view).end.Ok?
    ensures var s := Replay(Act, origin, UpTo(Apply(origin, view).steps, fuse));
            && |Apply(origin, view).steps| == 7
            && (HalfMade(s) <==> fuse in {1, 2, 6})
            && (fuse in {1, 2} ==> s.streamMap == origin.streamMap && s.alt == origin.alt)
            && (fuse == 6 ==> s.next.Some? && s.journal.Some?)
  {
    hide Act, Replay, Walks, Withdraw;
    var walk := SuccessWalks(origin, view);
    var k := if fuse < 7 then fuse else 7;
    WalksEnd(Way(origin), Idle, walk, k);
    assert Ops(walk)[..k] == UpTo(Apply(origin, view).steps, fuse);
  }

  lemma SuccessWalks(origin: Edge, view: View) returns (walk: Walk<Op, Stage>)
    requires Untouched(origin) && Apply(origin, view).end.Ok?
    ensures Walks(Way(origin), Idle, walk) && Apply(origin, view).steps == Ops(walk)
    ensures exists record :: RecordOf(origin, record) && walk == OpeningWalk(record) + CommitWalk(record)
  {
    hide Act, Replay, Walks, Withdraw;
    var record := Prepare(origin, view).value;
    OpeningWalks(origin, record);
    CommitWalks(origin, record);
    var first := OpeningWalk(record);
    WalksEnd(Way(origin), Idle, first, |first|);
    assert Ops(first)[..|first|] == Ops(first);
    FullIsLive(origin, record);
    walk := first + CommitWalk(record);
    WalksJoin(Way(origin), Idle, first, CommitWalk(record));
  }

  /** An undoing that would succeed, after any run: cut, it leaves a state in which no call is accepted exactly if the
      journal was deleted and the directory was not. */
  lemma {:induction false} CutUndoingIsStuck(origin: Edge, events: seq<Event>, committed: bool, fuse: nat)
    requires Untouched(origin) && Undo(Run(origin, events), committed, true).end.Ok?
    ensures var s, steps := Run(origin, events), Undo(Run(origin, events), committed, true).steps;
            var cut := Replay(Act, s, UpTo(steps, fuse));
            && |steps| >= 3
            && (HalfMade(cut) <==> |steps| - 2 <= fuse < |steps|)
            && (HalfMade(cut) ==> cut.journal.None? && cut.streamMap == origin.streamMap && cut.alt == origin.alt)
  {
    hide Run, Act, Replay, Withdraw, Walks;
    var stage := RunStays(origin, events);
    UndoneExactlyWhen(origin, events, committed);
    var walk := UndoWalks(origin, stage);
    var k := if fuse < |walk| then fuse else |walk|;
    WalksEnd(Way(origin), stage, walk, k);
    assert Ops(walk)[..k] == UpTo(Undo(Run(origin, events), committed, true).steps, fuse);
  }

  /** The way back, whose last three steps delete the journal. */
  lemma UndoWalks(origin: Edge, stage: Stage) returns (walk: Walk<Op, Stage>)
    requires Untouched(origin) && stage.Journaled? && Belongs(origin, stage)
    ensures Walks(Way(origin), stage, walk)
    ensures Undo(Image(origin, stage), stage.committed, true).steps == Ops(walk)
    ensures walk == RetractWalk(stage) + ClosingWalk()
  {
    hide Act, Walks;
    RetractWalks(origin, stage);
    var first := RetractWalk(stage);
    var last := Where(stage, first, |first|);
    assert Ops(first) == Retract(Image(origin, stage), stage.record);
    assert last.Journaled? && Belongs(origin, last);
    ClosingWalks(origin, last);
    WalksJoin(Way(origin), stage, first, ClosingWalk());
    assert Ops(ClosingWalk()) == [DropJournal, DropOldMap, RemoveDirectory];
    walk := first + ClosingWalk();
  }
}
