/** Every run of the include transaction: a vhost that refers to the table never stands without it. */
module IncludeRuns {
  import opened Durable
  import opened IncludeTransaction

  datatype Stage =
    | Idle
    | Opened(copied: bool)
    | Journaled(state: State, snippet: bool, included: bool, after: string)

  predicate Untouched(origin: Gate) {
    !origin.directory && origin.backup.None? && origin.record.None? && origin.snippet.None?
  }

  predicate Belongs(w: Words, origin: Gate, stage: Stage)
    requires w.Valid()
  {
    stage.Journaled? ==>
      && Candidate(w, origin.backend) == Ok(stage.after) && (stage.included ==> stage.snippet)
      && (stage.state == RolledBack ==> !stage.snippet)
  }

  function Image(w: Words, origin: Gate, stage: Stage): Gate {
    match stage
    case Idle => origin
    case Opened(copied) => origin.(directory := true, backup := if copied then Some(origin.backend) else None)
    case Journaled(state, snippet, included, after) =>
      Gate(if included then after else origin.backend, if snippet then Some(w.header) else None, true,
          Some(origin.backend),
           Some(Record(state, origin.backend, after)))
  }

  ghost function Way(w: Words, origin: Gate): Course<Gate, Op, Stage>
    requires w.Valid()
  {
    Course(Act, (s: Stage) => Image(w, origin, s), (s: Stage) => Belongs(w, origin, s))
  }

  // ---------------------------------------------------------------- the walks

  /** The vhost back, the table away, the record closed. */
  function RetractWalk(origin: Gate, stage: Stage, passes: bool): Walk<Op, Stage>
    requires stage.Journaled?
  {
    (if stage.included then [(PutBackend(origin.backend), stage.(included := false))] else []) +
    (if stage.snippet then [(DropSnippet, stage.(included := false, snippet := false))] else []) +
    (if passes then [(PutRecord(Record(RolledBack, origin.backend, stage.after)),
        Journaled(RolledBack, false, false, stage.after))] else [])
  }

  lemma RetractFollows(w: Words, origin: Gate, stage: Stage, passes: bool)
    requires w.Valid() && stage.Journaled? && Belongs(w, origin, stage) && stage.after != origin.backend
    ensures var walk := RetractWalk(origin, stage, passes);
            var a := Retract(w, Image(w, origin, stage), Record(stage.state, origin.backend, stage.after), passes);
            && Walks(Way(w, origin), stage, walk) && a.steps == Ops(walk) && (a.end.Ok? <==> passes)
            && (passes ==> Where(stage, walk, |walk|) == Journaled(RolledBack, false, false, stage.after))
  {
    hide Candidate;
  }

  function OpeningWalk(w: Words, record: Record): Walk<Op, Stage> {
    [(MakeDirectory, Opened(false)), (AddBackup(record.before), Opened(true)),
     (PutRecord(record), Journaled(Prepared, false, false, record.after)),
     (PutSnippet(w.header), Journaled(Prepared, true, false, record.after)),
     (PutBackend(record.after), Journaled(Prepared, true, true, record.after))]
  }

  lemma OpeningWalks(w: Words, origin: Gate, record: Record)
    requires w.Valid() && Untouched(origin) && record.state == Prepared && record.before == origin.backend
    requires Candidate(w, origin.backend) == Ok(record.after)
    ensures Walks(Way(w, origin), Idle, OpeningWalk(w, record)) && Ops(OpeningWalk(w, record)) == Opening(w, record)
  {
    hide Candidate;
  }

  lemma CommitWalks(w: Words, origin: Gate, after: string)
    requires w.Valid() && Candidate(w, origin.backend) == Ok(after)
    ensures Walks(Way(w, origin), Journaled(Prepared, true, true, after),
                  [(PutRecord(Record(Committed, origin.backend, after)), Journaled(Committed, true, true, after))])
  {
    hide Candidate;
  }

  lemma ApplyFollows(w: Words, origin: Gate, view: View) returns (walk: Walk<Op, Stage>)
    requires w.Valid() && Untouched(origin)
    ensures var a := Apply(w, origin, view);
            && Walks(Way(w, origin), Idle, walk) && a.steps == Ops(walk)
            && (a.end.Ok? ==> var last := Where(Idle, walk, |walk|);
                              last.Journaled? && last.state == Committed && last.snippet && last.included)
  {
    hide Act, Walks, Retract, Candidate;
    walk := [];
    NoWalk(Way(w, origin), Idle);
    if Prepare(w, origin, view).Ok? {
      var record := Prepare(w, origin, view).value;
      var full, first := Journaled(Prepared, true, true, record.after), OpeningWalk(w, record);
      CandidateIsReversible(w, origin.backend);
      OpeningWalks(w, origin, record);
      assert Image(w, origin, Idle) == origin;
      WalksEnd(Way(w, origin), Idle, first, |first|);
      assert Ops(first)[..|first|] == Ops(first);
      var last: Walk<Op, Stage>;
      if view.passes(0) {
        CommitWalks(w, origin, record.after);
        last := [(PutRecord(Record(Committed, origin.backend, record.after)),
            Journaled(Committed, true, true, record.after))];
        assert Ops(last) == [PutRecord(record.(state := Committed))];
      } else {
        RetractFollows(w, origin, full, view.passes(1));
        last := RetractWalk(origin, full, view.passes(1));
      }
      WalksJoin(Way(w, origin), Idle, first, last);
      walk := first + last;
    }
  }

  // ---------------------------------------------------------------- every run

  datatype Event = ApplyCall(view: View, fuse: nat) | RollbackCall(view: View, fuse: nat)

  function Steps(w: Words, s: Gate, event: Event): seq<Op>
    requires w.Valid()
  {
    match event
    case ApplyCall(view, fuse) => UpTo(Apply(w, s, view).steps, fuse)
    case RollbackCall(view, fuse) => UpTo(Rollback(w, s, view).steps, fuse)
  }

  function Run(w: Words, s: Gate, events: seq<Event>): Gate
    requires w.Valid()
  {
    if events == [] then s
    else
      var before := Run(w, s, events[..|events| - 1]);
      Replay(Act, before, Steps(w, before, events[|events| - 1]))
  }

  lemma CallWalks(w: Words, origin: Gate, stage: Stage, event: Event) returns (walk: Walk<Op, Stage>)
    requires w.Valid() && Untouched(origin) && Belongs(w, origin, stage)
    ensures Walks(Way(w, origin), stage, walk) && Steps(w, Image(w, origin, stage), event) <= Ops(walk)
  {
    hide Walks, Act, Retract, Settle, Candidate;
    walk := [];
    NoWalk(Way(w, origin), stage);
    match event
    case ApplyCall(view, _) =>
      if stage == Idle {
        walk := ApplyFollows(w, origin, view);
      }
    case RollbackCall(view, _) =>
      if view.ready && stage.Journaled? && stage.state != RolledBack {
        CandidateIsReversible(w, origin.backend);
        RetractFollows(w, origin, stage, view.passes(0));
        walk := RetractWalk(origin, stage, view.passes(0));
      }
  }

  lemma {:induction false} RunStays(w: Words, origin: Gate, events: seq<Event>) returns (stage: Stage)
    requires w.Valid() && Untouched(origin)
    ensures Belongs(w, origin, stage) && Run(w, origin, events) == Image(w, origin, stage)
  {
    hide Walks, Act, Steps;
    if events == [] {
      stage := Idle;
    } else {
      hide Image, Belongs;
      var before := RunStays(w, origin, events[..|events| - 1]);
      var walk := CallWalks(w, origin, before, events[|events| - 1]);
      var steps := Steps(w, Image(w, origin, before), events[|events| - 1]);
      WalksEnd(Way(w, origin), before, walk, |steps|);
      assert steps == Ops(walk)[..|steps|];
      stage := Where(before, walk, |steps|);
    }
  }

  /** In every run, cut anywhere: a vhost that is not the original refers to a table that is there; and without an
      open record both files are the originals. */
  lemma {:induction false} NoDanglingInclude(w: Words, origin: Gate, events: seq<Event>)
    requires w.Valid() && Untouched(origin)
    ensures var s := Run(w, origin, events);
            && (s.backend != origin.backend ==>
                  Candidate(w, origin.backend) == Ok(s.backend) && s.snippet == Some(w.header)
                      && s.backup == Some(origin.backend))
            && (s.record.None? || s.record.value.state == RolledBack ==> s.backend == origin.backend && s.snippet.None?)
  {
    hide Run, Candidate;
    var _ := RunStays(w, origin, events);
  }

  /** After every run, with probes that pass: a rollback that is not cut succeeds exactly when there is an open
      record, and then both files are the originals. */
  lemma {:induction false} RolledBackExactlyWhen(w: Words, origin: Gate, events: seq<Event>, view: View)
    requires w.Valid() && Untouched(origin) && view.ready && view.passes(0)
    ensures var s := Run(w, origin, events);
            var a := Rollback(w, s, view);
            && (a.end.Ok? <==> s.record.Some? && s.record.value.state != RolledBack)
            && (a.end.Ok? ==>
                  var after := Replay(Act, s, a.steps);
                  after.backend == origin.backend && after.snippet.None?
                      && after.record == Some(s.record.value.(state := RolledBack)))
  {
    hide Run, Act, Replay, Retract, Walks, Candidate;
    var stage := RunStays(w, origin, events);
    if stage.Journaled? && stage.state != RolledBack {
      CandidateIsReversible(w, origin.backend);
      RetractFollows(w, origin, stage, true);
      var walk := RetractWalk(origin, stage, true);
      WalksEnd(Way(w, origin), stage, walk, |walk|);
      assert Ops(walk)[..|walk|] == Ops(walk);
    }
  }
}
