/** The WSS edge of the gateway: the alternate vhost is published before the stream map that sends requests to it, and
    withdrawn after it.  Contents are compared where the source compares their SHA-256 digests. */
module EdgeExecutor {
  import opened Durable
  import H = Host

  type Bytes = H.Bytes

  datatype Record = Record(committed: bool, backend: Bytes, stream: Bytes, mapOld: Bytes, mapNew: Bytes, altNew: Bytes)

  datatype Edge = Edge(
    backend: Bytes, stream: Bytes, streamMap: Bytes, alt: Option<Bytes>,
    directory: bool, oldMap: Option<Bytes>, journal: Option<Record>, next: Option<Record>)

  datatype Op =
    | MakeDirectory | AddOldMap(data: Bytes) | AddJournal(record: Record)
    | PutAlt(data: Bytes) | DropAlt | PutMap(data: Bytes)
    | AddNext(record: Record) | SwapJournal
    | DropJournal | DropOldMap | RemoveDirectory

  function Act(s: Edge, op: Op): Edge {
    match op
    case MakeDirectory => s.(directory := true)
    case AddOldMap(data) => s.(oldMap := Some(data))
    case AddJournal(record) => s.(journal := Some(record))
    case PutAlt(data) => s.(alt := Some(data))
    case DropAlt => s.(alt := None)
    case PutMap(data) => s.(streamMap := data)
    case AddNext(record) => s.(next := Some(record))
    case SwapJournal => s.(journal := s.next, next := None)
    case DropJournal => s.(journal := None)
    case DropOldMap => s.(oldMap := None)
    case RemoveDirectory => s.(directory := false)
  }

  /** What the host answers: the alternate vhost and the new map rendered from the current files, if they have the
      reviewed form; and whether Nginx accepts the n-th time it is asked to test and reload. */
  datatype View = View(rendered: Option<(Bytes, Bytes)>, passes: nat -> bool)

  function Prepare(s: Edge, view: View): Result<Record> {
    if s.directory then Fail(Hold(EdgeJournalUnresolved))
    else if view.rendered.None? then Fail(Hold(EdgeSourceDrift))
    else if s.alt.Some? then Fail(Hold(EdgeAltExists))
    else if !view.passes(0) then Fail(Hold(EdgeServiceFailed))
    else Ok(Record(false, s.backend, s.stream, s.streamMap, view.rendered.value.1, view.rendered.value.0))
  }

  predicate Protected(s: Edge, record: Record) {
    s.backend == record.backend && s.stream == record.stream && s.oldMap == Some(record.mapOld)
  }

  function Read(s: Edge): Result<Record> {
    if !s.directory || s.next.Some? || s.journal.None? then Fail(Hold(EdgeJournalUnresolved)) else Ok(s.journal.value)
  }

  function CheckWithdraw(s: Edge, record: Record): Result<()> {
    if !Protected(s, record) then Fail(Hold(EdgeSourceDrift))
    else if s.streamMap != record.mapNew && s.streamMap != record.mapOld then Fail(Hold(EdgeMapDrift))
    else if s.alt.Some? && s.alt != Some(record.altNew) then Fail(Hold(EdgeAltDrift))
    else if s.alt.None? && record.committed && s.streamMap != record.mapOld then Fail(Hold(EdgeAltMissing))
    else Ok(())
  }

  function Retract(s: Edge, record: Record): seq<Op> {
    (if s.streamMap != record.mapOld then [PutMap(record.mapOld)] else []) + (if s.alt.Some? then [DropAlt] else [])
  }

  /** The map back first, then the vhost away; and only when Nginx accepts that, the journal. */
  function Withdraw(s: Edge, record: Record, passes: bool): Attempt<Op, ()> {
    match CheckWithdraw(s, record)
    case Fail(failure) => Refuse(failure)
    case Ok(_) =>
      Attempt(Retract(s, record) + (if passes then [DropJournal, DropOldMap, RemoveDirectory] else []),
              if passes then Ok(()) else Fail(Hold(EdgeServiceFailed)))
  }

  function Settle(s: Edge, record: Record, view: View): Attempt<Op, ()> {
    if view.passes(1) && Protected(s, record) && s.streamMap == record.mapNew && s.alt == Some(record.altNew) then
      Attempt([AddNext(record.(committed := true)), SwapJournal], Ok(()))
    else
      var back := Withdraw(s, record, view.passes(2));
      Attempt(back.steps, Fail(Hold(if back.end.Ok? then EdgeRolledBack else EdgeManualRecovery)))
  }

  /** The journal first, then the vhost, then the map that refers to it. */
  function Opening(record: Record): seq<Op> {
    [MakeDirectory, AddOldMap(record.mapOld), AddJournal(record), PutAlt(record.altNew), PutMap(record.mapNew)]
  }

  function Apply(s: Edge, view: View): Attempt<Op, ()> {
    match Prepare(s, view)
    case Fail(failure) => Refuse(failure)
    case Ok(record) => Then(Opening(record), Settle(Replay(Act, s, Opening(record)), record, view))
  }

  /** `rollback` wants a committed journal, `recover` one that is not. */
  function Undo(s: Edge, committed: bool, passes: bool): Attempt<Op, ()> {
    match Read(s)
    case Fail(failure) => Refuse(failure)
    case Ok(record) =>
      if record.committed != committed then Refuse(Hold(EdgeWrongOperation)) else Withdraw(s, record, passes)
  }

  /** The first part of a withdrawal, continuing an operation that is under way. */
  method RetractLocked(d: Disk<Edge, Op>, record: Record, ghost rest: seq<Op>) returns (r: Result<()>)
    requires d.act == Act && d.Valid() && d.plan[d.at..] == Retract(d.now, record) + rest
    modifies d`now, d`fuse, d`at
    ensures r.Ok? ==> d.Valid() && d.plan[d.at..] == rest && d.now.streamMap == record.mapOld && d.now.alt.None?
    ensures r.Fail? ==> r == Fail(PowerLoss) && d.Landed() && d.budget < |d.plan|
  {
    hide Replay;
    ghost var last := (if d.now.alt.Some? then [DropAlt] else []) + rest;
    if d.now.streamMap != record.mapOld {
      assert d.plan[d.at..] == [PutMap(record.mapOld)] + last;
      :- d.Do(PutMap(record.mapOld));
    }
    assert d.plan[d.at..] == last;
    if d.now.alt.Some? {
      :- d.Do(DropAlt);
    }
    assert d.plan[d.at..] == rest;
    return Ok(());
  }

  method WithdrawLocked(d: Disk<Edge, Op>, record: Record, passes: bool) returns (r: Result<()>)
    requires d.act == Act
    modifies d
    ensures Ran(d, old(d.now), old(d.fuse), Withdraw(old(d.now), record, passes), r)
  {
    hide Replay, Act, CheckWithdraw, Retract;
    NoSteps(Act, d.now, d.fuse);
    ghost var rest := if passes then [DropJournal, DropOldMap, RemoveDirectory] else [];
    d.Begin(Withdraw(d.now, record, passes).steps);
    var _ :- CheckWithdraw(d.now, record);
    var _ :- RetractLocked(d, record, rest);
    if !passes {
      d.Finished();
      return Fail(Hold(EdgeServiceFailed));
    }
    if d.now.streamMap != record.mapOld || d.now.alt.Some? {
      return Fail(Hold(EdgeMapDrift));
    }
    r := CloseLocked(d);
  }

  /** The last part of a withdrawal. */
  method CloseLocked(d: Disk<Edge, Op>) returns (r: Result<()>)
    requires d.Valid() && d.plan[d.at..] == [DropJournal, DropOldMap, RemoveDirectory]
    modifies d`now, d`fuse, d`at
    ensures d.Landed() && r == if d.budget < |d.plan| then Fail(PowerLoss) else Ok(())
  {
    hide Replay;
    :- d.Do(DropJournal);
    :- d.Do(DropOldMap);
    :- d.Do(RemoveDirectory);
    d.Finished();
    return Ok(());
  }

  method SettleLocked(d: Disk<Edge, Op>, record: Record, view: View) returns (r: Result<()>)
    requires d.act == Act
    modifies d
    ensures Ran(d, old(d.now), old(d.fuse), Settle(old(d.now), record, view), r)
  {
    hide Replay, Act, Withdraw;
    if view.passes(1) && Protected(d.now, record) && d.now.streamMap == record.mapNew
        && d.now.alt == Some(record.altNew) {
      d.Begin([AddNext(record.(committed := true)), SwapJournal]);
      :- d.Do(AddNext(record.(committed := true)));
      :- d.Do(SwapJournal);
      d.Finished();
      return Ok(());
    }
    WithdrawAnswers(d.now, record, view.passes(2));
    r := WithdrawLocked(d, record, view.passes(2));
    if r != Fail(PowerLoss) {
      return Fail(Hold(if r.Ok? then EdgeRolledBack else EdgeManualRecovery));
    }
  }

  lemma WithdrawAnswers(s: Edge, record: Record, passes: bool)
    ensures Withdraw(s, record, passes).end != Fail(PowerLoss)
  {
  }

  method OpenLocked(d: Disk<Edge, Op>, record: Record) returns (r: Result<()>)
    modifies d
    ensures Ran(d, old(d.now), old(d.fuse), Attempt(Opening(record), Ok(())), r)
  {
    hide Replay;
    d.Begin(Opening(record));
    :- d.Do(MakeDirectory);
    :- d.Do(AddOldMap(record.mapOld));
    :- d.Do(AddJournal(record));
    :- d.Do(PutAlt(record.altNew));
    :- d.Do(PutMap(record.mapNew));
    d.Finished();
    return Ok(());
  }

  method ApplyLocked(d: Disk<Edge, Op>, view: View) returns (r: Result<()>)
    requires d.act == Act
    modifies d
    ensures Ran(d, old(d.now), old(d.fuse), Apply(old(d.now), view), r)
  {
    hide Replay, Act, Settle, Opening;
    NoSteps(Act, d.now, d.fuse);
    var record :- Prepare(d.now, view);
    ThenRan(Act, d.now, d.fuse, Opening(record), Settle(Replay(Act, d.now, Opening(record)), record, view));
    var _ :- OpenLocked(d, record);
    r := SettleLocked(d, record, view);
  }

  method UndoLocked(d: Disk<Edge, Op>, committed: bool, passes: bool) returns (r: Result<()>)
    requires d.act == Act
    modifies d
    ensures Ran(d, old(d.now), old(d.fuse), Undo(old(d.now), committed, passes), r)
  {
    hide Replay, Act, Withdraw;
    NoSteps(Act, d.now, d.fuse);
    var record :- Read(d.now);
    if record.committed != committed {
      return Fail(Hold(EdgeWrongOperation));
    }
    r := WithdrawLocked(d, record, passes);
  }
}
