/** The include of the route table in the panel's vhost: the table is there before the vhost refers to it, and goes
    after it. */
module IncludeTransaction {
  import opened Durable
  import opened TextEdits

  /** The include directive, the line in front of which it is written, the file name that may not occur yet, and the
      first content of the table.  `Valid` says that the line can overlap neither itself nor the directive. */
  datatype Words = Words(directive: string, root: string, name: string, header: string) {
    function Included(): string {
      directive + ['\n'] + root
    }

    ghost predicate Valid() {
      && directive != [] && root != [] && name != []
      && OnlyAt(root, root, 0) && OnlyAt(Included(), Included(), 0) && OnlyAt(root, Included(), |directive| + 1)
    }
  }

  function Candidate(w: Words, before: string): Result<string>
    requires w.Valid()
  {
    if Count(before, w.root) != 1 then Fail(Hold(IncludeLayoutUnknown))
    else if Count(before, w.directive) > 0 || Count(before, w.name) > 0 then Fail(Hold(IncludeAlreadyPresent))
    else Ok(ReplaceFirst(before, w.root, w.Included()))
  }

  /** The change adds the directive once; it is not accepted again, and taking the directive out gives back the
      vhost. */
  lemma {:induction false} CandidateIsReversible(w: Words, before: string)
    requires w.Valid() && Candidate(w, before).Ok?
    ensures var after := Candidate(w, before).value;
            && Candidate(w, after) == Fail(Hold(IncludeAlreadyPresent))
            && w.Included() != [] && ReplaceFirst(after, w.Included(), w.root) == before
            && after != before
  {
    hide Count, OnlyAt, ReplaceFirst, Spliced, Occurs, Single, Contains, OnlyHere;
    CountOnce(before, w.root);
    CountNone(before, w.directive);
    var p := Place(before, w.root);
    NoInclude(w, before);
    ReplaceAndBack(before, p, w.root, w.Included());
    var after := Spliced(before, p, w.root, w.Included());
    RootIsOwn(before, w.root, p);
    Gained(before, p, w.root, w.Included(), w.root, |w.directive| + 1);
    assert Single(after, w.root) by { Alone(after, w.root, p + |w.directive| + 1); }
    CountOnce(after, w.root);
    IncludeStands(w, after, p);
    CountNone(after, w.directive);
  }

  lemma Alone(text: string, pattern: string, i: int)
    requires OnlyHere(text, pattern, i)
    ensures Single(text, pattern)
  {
  }

  lemma NoInclude(w: Words, text: string)
    requires !Contains(text, w.directive)
    ensures forall i :: !Occurs(text, w.Included(), i)
  {
    forall i | Occurs(text, w.Included(), i) ensures Occurs(text, w.directive, i + 0) {
      assert text[i..i + |w.Included()|][..|w.directive|] == text[i..i + |w.directive|];
    }
  }

  lemma RootIsOwn(text: string, root: string, p: int)
    requires OnlyHere(text, root, p) && root != []
    ensures forall i :: Occurs(text, root, i) ==> i + |root| > p && i < p + |root|
  {
  }

  lemma IncludeStands(w: Words, text: string, p: int)
    requires OnlyHere(text, w.Included(), p)
    ensures Contains(text, w.directive)
  {
    assert text[p..p + |w.Included()|][..|w.directive|] == text[p..p + |w.directive|];
    assert Occurs(text, w.directive, p);
  }

  // ---------------------------------------------------------------- the transaction

  datatype State = Prepared | Committed | RolledBack

  /** The texts stand for their SHA-256 digests. */
  datatype Record = Record(state: State, before: string, after: string)

  datatype Gate = Gate(backend: string, snippet: Option<string>, directory: bool, backup: Option<string>,
      record: Option<Record>)

  datatype Op =
    | MakeDirectory | AddBackup(text: string) | PutRecord(record: Record)
    | PutSnippet(text: string) | DropSnippet | PutBackend(text: string)

  function Act(s: Gate, op: Op): Gate {
    match op
    case MakeDirectory => s.(directory := true)
    case AddBackup(text) => s.(backup := Some(text))
    case PutRecord(record) => s.(record := Some(record))
    case PutSnippet(text) => s.(snippet := Some(text))
    case DropSnippet => s.(snippet := None)
    case PutBackend(text) => s.(backend := text)
  }

  /** Whether the host's own checks pass, and whether Nginx and the panel pass the n-th time they are probed. */
  datatype View = View(ready: bool, passes: nat -> bool)

  function Prepare(w: Words, s: Gate, view: View): Result<Record>
    requires w.Valid()
  {
    if !view.ready then Fail(Hold(GatewayUnready))
    else if s.directory || s.record.Some? then Fail(Hold(IncludeTransactionExists))
    else if s.snippet.Some? then Fail(Hold(IncludeSnippetExists))
    else
      match Candidate(w, s.backend)
      case Fail(failure) => Fail(failure)
      case Ok(after) => Ok(Record(Prepared, s.backend, after))
  }

  function Opening(w: Words, record: Record): seq<Op> {
    [MakeDirectory, AddBackup(record.before), PutRecord(record), PutSnippet(w.header), PutBackend(record.after)]
  }

  function Back(s: Gate, record: Record): seq<Op> {
    (if s.backend != record.before then [PutBackend(record.before)] else []) +
    (if s.snippet.Some? then [DropSnippet] else [])
  }

  /** The vhost back first, then the table away; and only when the probes pass, the record is closed. */
  function Retract(w: Words, s: Gate, record: Record, passes: bool): Attempt<Op, ()> {
    if s.backup != Some(record.before) || (s.backend != record.before && s.backend != record.after) then
      Refuse(Hold(CriticalBackendModified))
    else if s.snippet.Some? && s.snippet != Some(w.header) then Refuse(Hold(CriticalSnippetExternalEdit))
    else
      Attempt(Back(s, record) + (if passes then [PutRecord(record.(state := RolledBack))] else []),
              if passes then Ok(()) else Fail(Hold(GatewayProbeFailed)))
  }

  function Settle(w: Words, s: Gate, record: Record, view: View): Attempt<Op, ()> {
    if view.passes(0) then Attempt([PutRecord(record.(state := Committed))], Ok(()))
    else
      var back := Retract(w, s, record, view.passes(1));
      Attempt(back.steps, if back.end.Ok? then Fail(Hold(IncludeRolledBack)) else back.end)
  }

  function Apply(w: Words, s: Gate, view: View): Attempt<Op, ()>
    requires w.Valid()
  {
    match Prepare(w, s, view)
    case Fail(failure) => Refuse(failure)
    case Ok(record) => Then(Opening(w, record), Settle(w, Replay(Act, s, Opening(w, record)), record, view))
  }

  function Load(w: Words, s: Gate): Result<Record>
    requires w.Valid()
  {
    if !s.directory || s.record.None? then Fail(Hold(IncludeRecordInvalid))
    else if s.backup != Some(s.record.value.before)
        || Candidate(w, s.record.value.before) != Ok(s.record.value.after) then
      Fail(Hold(IncludeBackupDrift))
    else if s.record.value.state == RolledBack then Fail(Hold(RollbackState))
    else Ok(s.record.value)
  }

  function Rollback(w: Words, s: Gate, view: View): Attempt<Op, ()>
    requires w.Valid()
  {
    if !view.ready then Refuse(Hold(GatewayUnready))
    else match Load(w, s)
      case Fail(failure) => Refuse(failure)
      case Ok(record) => Retract(w, s, record, view.passes(0))
  }

  method BackLocked(d: Disk<Gate, Op>, record: Record, ghost rest: seq<Op>) returns (r: Result<()>)
    requires d.act == Act && d.Valid() && d.plan[d.at..] == Back(d.now, record) + rest
    modifies d`now, d`fuse, d`at
    ensures r.Ok? ==> d.Valid() && d.plan[d.at..] == rest
    ensures r.Fail? ==> r == Fail(PowerLoss) && d.Landed() && d.budget < |d.plan|
  {
    hide Replay;
    ghost var last := (if d.now.snippet.Some? then [DropSnippet] else []) + rest;
    if d.now.backend != record.before {
      assert d.plan[d.at..] == [PutBackend(record.before)] + last;
      :- d.Do(PutBackend(record.before));
    }
    assert d.plan[d.at..] == last;
    if d.now.snippet.Some? {
      :- d.Do(DropSnippet);
    }
    assert d.plan[d.at..] == rest;
    return Ok(());
  }

  method RetractLocked(w: Words, d: Disk<Gate, Op>, record: Record, passes: bool) returns (r: Result<()>)
    requires d.act == Act
    modifies d
    ensures Ran(d, old(d.now), old(d.fuse), Retract(w, old(d.now), record, passes), r)
  {
    hide Replay, Act, Back;
    NoSteps(Act, d.now, d.fuse);
    ghost var rest := if passes then [PutRecord(record.(state := RolledBack))] else [];
    d.Begin(Retract(w, d.now, record, passes).steps);
    if d.now.backup != Some(record.before) || (d.now.backend != record.before && d.now.backend != record.after) {
      return Fail(Hold(CriticalBackendModified));
    }
    if d.now.snippet.Some? && d.now.snippet != Some(w.header) {
      return Fail(Hold(CriticalSnippetExternalEdit));
    }
    var _ :- BackLocked(d, record, rest);
    if !passes {
      d.Finished();
      return Fail(Hold(GatewayProbeFailed));
    }
    :- d.Do(PutRecord(record.(state := RolledBack)));
    d.Finished();
    return Ok(());
  }

  method SettleLocked(w: Words, d: Disk<Gate, Op>, record: Record, view: View) returns (r: Result<()>)
    requires d.act == Act
    modifies d
    ensures Ran(d, old(d.now), old(d.fuse), Settle(w, old(d.now), record, view), r)
  {
    hide Replay, Act, Retract;
    if view.passes(0) {
      d.Begin([PutRecord(record.(state := Committed))]);
      :- d.Do(PutRecord(record.(state := Committed)));
      d.Finished();
      return Ok(());
    }
    r := RetractLocked(w, d, record, view.passes(1));
    if r.Ok? {
      return Fail(Hold(IncludeRolledBack));
    }
  }

  method OpenLocked(w: Words, d: Disk<Gate, Op>, record: Record) returns (r: Result<()>)
    modifies d
    ensures Ran(d, old(d.now), old(d.fuse), Attempt(Opening(w, record), Ok(())), r)
  {
    hide Replay;
    d.Begin(Opening(w, record));
    :- d.Do(MakeDirectory);
    :- d.Do(AddBackup(record.before));
    :- d.Do(PutRecord(record));
    :- d.Do(PutSnippet(w.header));
    :- d.Do(PutBackend(record.after));
    d.Finished();
    return Ok(());
  }

  method ApplyLocked(w: Words, d: Disk<Gate, Op>, view: View) returns (r: Result<()>)
    requires w.Valid() && d.act == Act
    modifies d
    ensures Ran(d, old(d.now), old(d.fuse), Apply(w, old(d.now), view), r)
  {
    hide Replay, Act, Settle, Candidate, Opening;
    NoSteps(Act, d.now, d.fuse);
    var record :- Prepare(w, d.now, view);
    ThenRan(Act, d.now, d.fuse, Opening(w, record), Settle(w, Replay(Act, d.now, Opening(w, record)), record, view));
    var _ :- OpenLocked(w, d, record);
    r := SettleLocked(w, d, record, view);
  }

  method RollbackLocked(w: Words, d: Disk<Gate, Op>, view: View) returns (r: Result<()>)
    requires w.Valid() && d.act == Act
    modifies d
    ensures Ran(d, old(d.now), old(d.fuse), Rollback(w, old(d.now), view), r)
  {
    hide Replay, Act, Retract, Candidate;
    NoSteps(Act, d.now, d.fuse);
    if !view.ready {
      return Fail(Hold(GatewayUnready));
    }
    var record :- Load(w, d.now);
    r := RetractLocked(w, d, record, view.passes(0));
  }
}
