/** The two engines of one node: FRP and Backhaul are enrolled by separate transactions that share one Compose file
    and one registry of engines.  Contents are compared where the source compares their SHA-256 digests. */
module Engines {
  import opened Durable
  import H = Host

  type Bytes = H.Bytes

  datatype Engine = Backhaul | Frp

  datatype Tool = BackhaulTool | Frpc | Frps

  /** A line of the Compose file: the bind of the node's configuration, a mounted binary, or any other. */
  datatype Line = Anchor | Mount(tool: Tool, source: string) | Text(text: string)

  type Compose = seq<Line>

  datatype Name = Known(engine: Engine) | Another(name: string)

  /** The registry of engines pins the binaries of each; `layout` stands for the formatting of its bytes. */
  datatype Registry = Registry(engines: map<Name, seq<Bytes>>, layout: string)

  /** Permission bits. */
  type Mode = nat

  const PRIVATE: Mode := 0x180                           // 0600
  const COMPOSE_MODES: set<Mode> := {0x180, 0x1A0, 0x1A4}  // 0600, 0640, 0644
  const OWNER_MODES: set<Mode> := {0x180, 0x100, 0x080, 0} // no bit but the owner's read and write

  datatype Record = Record(
    composeOld: Compose, composeNew: Compose, registryOld: Option<Registry>, registryNew: Registry,
        binaries: seq<Bytes>,
    composeMode: Mode, registryMode: Option<Mode>)

  /** A journal directory, written and deleted part by part. */
  datatype Journal = Journal(compose: Option<Compose>, registry: Option<Registry>, record: Option<Record>)

  datatype Part = ComposeBefore | RegistryBefore | RecordFile

  /** The files of a node, and the directories that an engine makes for them: the one of the registry and the one of the
      binaries, each with whether it is private, and in the latter the one of FRP's two binaries. */
  datatype Lab = Lab(
    compose: Compose, composeMode: Mode, registry: Option<Registry>, registryMode: Option<Mode>,
    binaries: map<Tool, Bytes>, journals: map<Engine, Journal>,
    registryHome: Option<bool>, home: Option<bool>, frpHome: bool,
    pairPending: bool)  // a journal or a seal of the paired transaction exists

  datatype Op =
    | MakeJournal(engine: Engine)
    | AddCompose(engine: Engine, compose: Compose) | AddRegistry(engine: Engine, registry: Registry)
    | AddRecord(engine: Engine, record: Record)
    | PutBinary(tool: Tool, data: Bytes) | DropBinary(tool: Tool)
    | PutCompose(compose: Compose, mode: Mode)
    | PutRegistry(registry: Registry, mode: Mode) | DropRegistry
    | MakeHome(private: bool) | RemoveHome | MakeFrpHome | RemoveFrpHome | MakeRegistryHome | RemoveRegistryHome
    | DropPart(engine: Engine, part: Part) | RemoveJournal(engine: Engine)

  function JournalOf(s: Lab, engine: Engine): Journal {
    if engine in s.journals then s.journals[engine] else Journal(None, None, None)
  }

  function WithJournal(s: Lab, engine: Engine, journal: Journal): Lab {
    s.(journals := s.journals[engine := journal])
  }

  function Without(journal: Journal, part: Part): Journal {
    match part
    case ComposeBefore => journal.(compose := None)
    case RegistryBefore => journal.(registry := None)
    case RecordFile => journal.(record := None)
  }

  function Act(s: Lab, op: Op): Lab {
    match op
    case MakeJournal(engine) => WithJournal(s, engine, Journal(None, None, None))
    case AddCompose(engine, compose) => WithJournal(s, engine, JournalOf(s, engine).(compose := Some(compose)))
    case AddRegistry(engine, registry) => WithJournal(s, engine, JournalOf(s, engine).(registry := Some(registry)))
    case AddRecord(engine, record) => WithJournal(s, engine, JournalOf(s, engine).(record := Some(record)))
    case PutBinary(tool, data) => s.(binaries := s.binaries[tool := data])
    case DropBinary(tool) => s.(binaries := s.binaries - {tool})
    case PutCompose(compose, mode) => s.(compose := compose, composeMode := mode)
    case PutRegistry(registry, mode) => s.(registry := Some(registry), registryMode := Some(mode))
    case DropRegistry => s.(registry := None, registryMode := None)
    case MakeHome(private) => s.(home := Some(private))
    case RemoveHome => s.(home := None)
    case MakeFrpHome => s.(frpHome := true)
    case RemoveFrpHome => s.(frpHome := false)
    case MakeRegistryHome => s.(registryHome := Some(true))
    case RemoveRegistryHome => s.(registryHome := None)
    case DropPart(engine, part) => WithJournal(s, engine, Without(JournalOf(s, engine), part))
    case RemoveJournal(engine) => s.(journals := s.journals - {engine})
  }

  function Tools(engine: Engine): seq<Tool> {
    match engine
    case Backhaul => [BackhaulTool]
    case Frp => [Frpc, Frps]
  }

  // ---------------------------------------------------------------- what an activation reads

  /** The rest of the node, as the preflights see it: whether the remaining lines of the Compose file have the reviewed
      shape, whether an FRP without mounts is the one bundled in the node's image, where the lab keeps its binaries,
      whether a directory made with default permissions is private, and what other files contain. */
  datatype Site = Site(shaped: Compose -> bool, bundled: bool, home: Tool -> string, strict: bool,
                       elsewhere: string -> Option<Bytes>)

  /** A verified package: what the registry and the binaries become, and the Compose file it was prepared for. */
  datatype Stage = Stage(registry: Registry, binaries: seq<Bytes>, compose: Compose)

  function Enrolled(s: Lab): map<Name, seq<Bytes>> {
    if s.registry.Some? then s.registry.value.engines else map[]
  }

  /** The lines that mount one of these tools. */
  function MountsFor(compose: Compose, tools: seq<Tool>): Compose {
    if compose == [] then []
    else (if compose[0].Mount? && compose[0].tool in tools then [compose[0]] else []) + MountsFor(compose[1..], tools)
  }

  predicate Mounts(compose: Compose, tool: Tool) {
    MountsFor(compose, [tool]) != []
  }

  /** What the path of a mount line contains. */
  function FileAt(site: Site, s: Lab, tool: Tool, source: string): Option<Bytes> {
    if source != site.home(tool) then site.elsewhere(source)
    else if tool in s.binaries then Some(s.binaries[tool])
    else None
  }

  /** Exactly one line mounts the tool, from a file with the pinned content. */
  predicate MountedOnce(site: Site, s: Lab, tool: Tool, pinned: Bytes) {
    var lines := MountsFor(s.compose, [tool]);
    |lines| == 1 && lines[0].Mount? && FileAt(site, s, tool, lines[0].source) == Some(pinned)
  }

  /** An FRP under Backhaul is either absent, or bundled, or mounted in full. */
  predicate FrpSettled(site: Site, s: Lab) {
    if Known(Frp) !in Enrolled(s) then !Mounts(s.compose, Frpc) && !Mounts(s.compose, Frps)
    else
      var pinned := Enrolled(s)[Known(Frp)];
      && |pinned| == 2
      && (if !Mounts(s.compose, Frpc) && !Mounts(s.compose, Frps) then site.bundled
          else MountedOnce(site, s, Frpc, pinned[0]) && MountedOnce(site, s, Frps, pinned[1]))
  }

  predicate Anchored(compose: Compose) {
    Anchor in compose
  }

  predicate AnchoredOnce(compose: Compose) {
    Anchored(compose) && forall i, j :: 0 <= i < j < |compose| ==> compose[i] != Anchor || compose[j] != Anchor
  }

  /** The modes that a rollback can put back. */
  predicate ModesSafe(composeMode: Mode, registryMode: Option<Mode>) {
    composeMode in COMPOSE_MODES && (registryMode.Some? ==> registryMode.value == PRIVATE)
  }

  predicate CoreReady(site: Site, s: Lab, engine: Engine) {
    && site.shaped(s.compose)
    && s.registryHome != Some(false) && (s.registryMode.Some? ==> s.registryMode.value in OWNER_MODES)
    && Known(engine) !in Enrolled(s)
    && (forall tool :: tool in Tools(engine) ==> !Mounts(s.compose, tool) && tool !in s.binaries)
    && match engine
       case Backhaul => FrpSettled(site, s) && Anchored(s.compose)
       case Frp => (Mounts(s.compose, BackhaulTool) ==> Known(Backhaul) in Enrolled(s)) && AnchoredOnce(s.compose)
  }

  function OwnMounts(site: Site, engine: Engine): Compose {
    match engine
    case Backhaul => [Mount(BackhaulTool, site.home(BackhaulTool))]
    case Frp => [Mount(Frpc, site.home(Frpc)), Mount(Frps, site.home(Frps))]
  }

  /** The lines with others inserted behind the first anchor. */
  function Inserted(compose: Compose, lines: Compose): Compose {
    if compose == [] then []
    else if compose[0] == Anchor then [Anchor] + lines + compose[1..]
    else [compose[0]] + Inserted(compose[1..], lines)
  }

  function Prepare(site: Site, s: Lab, engine: Engine, stage: Option<Stage>): Result<Record> {
    if engine == Backhaul && s.pairPending then Fail(Hold(OtherEngineRecoveryJournalPending))
    else if engine in s.journals then Fail(Hold(EngineRecoveryRequired))
    else if stage.None? || |stage.value.binaries| != |Tools(engine)| || stage.value.compose != s.compose then
      Fail(Hold(EngineCandidateUntrusted))
    else if !CoreReady(site, s, engine) then Fail(Hold(EngineCoreUnready))
    else if stage.value.registry.engines != Enrolled(s)[Known(engine) := stage.value.binaries] then
      Fail(Hold(EngineDeclarationDrift))
    // only FRP looks at the modes before it begins
    else if engine == Frp && !ModesSafe(s.composeMode, s.registryMode) then Fail(Hold(EngineModesUnrecognized))
    else
      Ok(Record(s.compose, Inserted(s.compose, OwnMounts(site, engine)), s.registry, stage.value.registry,
          stage.value.binaries,
                s.composeMode, s.registryMode))
  }

  // ---------------------------------------------------------------- activation

  function JournalSteps(engine: Engine, record: Record): seq<Op> {
    [MakeJournal(engine), AddCompose(engine, record.composeOld)] +
    (if record.registryOld.Some? then [AddRegistry(engine, record.registryOld.value)] else []) +
    [AddRecord(engine, record)]
  }

  function BinarySteps(engine: Engine, binaries: seq<Bytes>): seq<Op>
    requires |binaries| == |Tools(engine)|
  {
    seq(|binaries|, i requires 0 <= i < |binaries| => PutBinary(Tools(engine)[i], binaries[i]))
  }

  /** The directory of the binaries.  Backhaul makes it private, or wants it to be; FRP makes one of its own in it,
      and what is missing above with default permissions. */
  function HomeSteps(site: Site, s: Lab, engine: Engine): Result<seq<Op>> {
    match engine
    case Backhaul =>
      if s.home == Some(false) then Fail(Hold(EngineDirectoryUntrusted))
      else Ok(if s.home.None? then [MakeHome(true)] else [])
    case Frp =>
      if s.frpHome then Fail(Hold(EngineDirectoryUntrusted))
      else Ok((if s.home.None? then [MakeHome(site.strict)] else []) + [MakeFrpHome])
  }

  function NewMode(engine: Engine, record: Record): Mode {
    if engine == Backhaul then PRIVATE else record.composeMode
  }

  /** The shared files: Compose, and the registry at the very end. */
  function SharedSteps(s: Lab, engine: Engine, record: Record): seq<Op> {
    [PutCompose(record.composeNew, NewMode(engine, record))] +
    (if s.registryHome.None? then [MakeRegistryHome] else []) + [PutRegistry(record.registryNew, PRIVATE)]
  }

  /** Behind the journal: the directory, which may still stop the activation, the binaries, the shared files. */
  function Fill(site: Site, s: Lab, engine: Engine, record: Record): Attempt<Op, ()>
    requires |record.binaries| == |Tools(engine)|
  {
    match HomeSteps(site, s, engine)
    case Fail(failure) => Refuse(failure)
    case Ok(homes) => Attempt(homes + BinarySteps(engine, record.binaries) + SharedSteps(s, engine, record), Ok(()))
  }

  function Activate(site: Site, s: Lab, engine: Engine, stage: Option<Stage>): Attempt<Op, ()> {
    match Prepare(site, s, engine, stage)
    case Fail(failure) => Refuse(failure)
    case Ok(record) => Then(JournalSteps(engine, record), Fill(site, s, engine, record))
  }

  // ---------------------------------------------------------------- rollback

  predicate RegistryKnown(engine: Engine, current: Option<Registry>, record: Record) {
    match current
    case Some(registry) => registry == record.registryNew || current == record.registryOld
    // FRP takes a registry that is gone for an intervention; Backhaul writes its backup again
    case None => engine == Backhaul || record.registryOld.None?
  }

  function Examine(s: Lab, engine: Engine, identical: bool): Result<Record> {
    if engine == Backhaul && s.pairPending then Fail(Hold(OtherEngineRecoveryJournalPending))
    else if engine !in s.journals || s.journals[engine].record.None? then Fail(Hold(EngineJournalUntrusted))
    else
      var journal := s.journals[engine];
      var record := journal.record.value;
      if |record.binaries| != |Tools(engine)| then Fail(Hold(EngineJournalUntrusted))
      else if journal.compose != Some(record.composeOld)
          || (record.registryOld.Some? && journal.registry != record.registryOld) then
        Fail(Hold(EngineBackupTampered))
      else if !ModesSafe(record.composeMode, record.registryMode) then Fail(Hold(EngineModesUnrecognized))
      else if engine == Frp && !identical then Fail(Hold(EngineIdentityChanged))
      else if s.compose != record.composeOld && s.compose != record.composeNew then Fail(Hold(EngineComposeModified))
      else if !RegistryKnown(engine, s.registry, record) then Fail(Hold(EngineRegistryModified))
      else if exists i :: 0 <= i < |record.binaries| && Tools(engine)[i] in s.binaries
                          && s.binaries[Tools(engine)[i]] != record.binaries[i] then
        Fail(Hold(EngineBinaryModified))
      else Ok(record)
  }

  function ComposeSteps(s: Lab, record: Record): seq<Op> {
    if s.compose != record.composeOld then [PutCompose(record.composeOld, record.composeMode)] else []
  }

  function RegistrySteps(s: Lab, record: Record): seq<Op> {
    if s.registry == record.registryOld then []
    else if record.registryOld.None? then [DropRegistry]
    else [PutRegistry(record.registryOld.value, PRIVATE)]
  }

  function RestoreSteps(s: Lab, record: Record): seq<Op> {
    ComposeSteps(s, record) + RegistrySteps(s, record)
  }

  /** The registry must be written again, and its directory is gone. */
  predicate Stranded(s: Lab, record: Record) {
    s.registry != record.registryOld && record.registryOld.Some? && s.registryHome.None?
  }

  function DropBinaries(s: Lab, tools: seq<Tool>): seq<Op> {
    if tools == [] then []
    else (if tools[0] in s.binaries then [DropBinary(tools[0])] else []) + DropBinaries(s, tools[1..])
  }

  predicate Has(journal: Journal, part: Part) {
    match part
    case ComposeBefore => journal.compose.Some?
    case RegistryBefore => journal.registry.Some?
    case RecordFile => journal.record.Some?
  }

  /** The parts are deleted in the order in which the directory happens to list them. */
  function DropParts(engine: Engine, journal: Journal, order: seq<Part>): seq<Op> {
    if order == [] then []
    else (if Has(journal, order[0]) then [DropPart(engine, order[0])] else []) + DropParts(engine, journal, order[1..])
  }

  /** Nothing is left in the directory of the binaries.  FRP only looks there once it has removed its own. */
  predicate EmptiesHome(s: Lab, engine: Engine) {
    s.home.Some? && if engine == Backhaul then !s.frpHome else s.frpHome && BackhaulTool !in s.binaries
  }

  /** Directories are removed when nothing is left in them. */
  function DropHomes(s: Lab, engine: Engine, record: Record): seq<Op> {
    (if engine == Frp && s.frpHome then [RemoveFrpHome] else []) +
    (if EmptiesHome(s, engine) then [RemoveHome] else []) +
    (if s.registryHome.Some? && record.registryOld.None? then [RemoveRegistryHome] else [])
  }

  function DropJournal(s: Lab, engine: Engine, order: seq<Part>): seq<Op> {
    DropParts(engine, JournalOf(s, engine), order) + [RemoveJournal(engine)]
  }

  function RollbackSteps(s: Lab, engine: Engine, record: Record, order: seq<Part>): seq<Op> {
    RestoreSteps(s, record) + DropBinaries(s, Tools(engine)) + DropHomes(s, engine, record) +
        DropJournal(s, engine, order)
  }

  function Rollback(s: Lab, engine: Engine, identical: bool, order: seq<Part>): Attempt<Op, ()> {
    match Examine(s, engine, identical)
    case Fail(failure) => Refuse(failure)
    case Ok(record) =>
      if Stranded(s, record) then Attempt(ComposeSteps(s, record), Fail(Hold(EngineDirectoryUntrusted)))
      else Attempt(RollbackSteps(s, engine, record, order), Ok(()))
  }

  // ---------------------------------------------------------------- the operations, step by step

  method ActivateLocked(site: Site, d: Disk<Lab, Op>, engine: Engine, stage: Option<Stage>) returns (r: Result<()>)
    requires d.act == Act
    modifies d
    ensures Ran(d, old(d.now), old(d.fuse), Activate(site, old(d.now), engine, stage), r)
  {
    hide Prepare, Replay, Act, Fill, JournalSteps;
    NoSteps(Act, d.now, d.fuse);
    PreparedBinaries(site, d.now, engine, stage);
    ghost var s := d.now;
    var record :- Prepare(site, d.now, engine, stage);
    d.Begin(Activate(site, d.now, engine, stage).steps);
    ghost var fill := Fill(site, s, engine, record);
    var seen := d.now;
    var _ :- WriteJournal(d, engine, record, fill.steps);
    r := Enroll(site, d, engine, record, seen);
  }

  lemma PreparedBinaries(site: Site, s: Lab, engine: Engine, stage: Option<Stage>)
    ensures Prepare(site, s, engine, stage).Ok? ==> |Prepare(site, s, engine, stage).value.binaries| == |Tools(engine)|
  {
    hide CoreReady;
  }

  /** Behind the journal: the directory, the binaries, the Compose file, and the registry at the very end.  `seen` is
      the node as it was before the journal. */
  method Enroll(site: Site, d: Disk<Lab, Op>, engine: Engine, record: Record, seen: Lab) returns (r: Result<()>)
    requires d.act == Act && |record.binaries| == |Tools(engine)|
    requires d.Valid() && d.plan[d.at..] == Fill(site, seen, engine, record).steps
    modifies d`now, d`fuse, d`at
    ensures d.Landed()
    ensures r == if d.budget < |d.plan| then Fail(PowerLoss) else Fill(site, seen, engine, record).end
  {
    hide Replay, Act, HomeSteps, BinarySteps, SharedSteps;
    var homes := HomeSteps(site, seen, engine);
    if homes.Fail? {
      d.Finished();
      return Fail(homes.failure);
    }
    ghost var shared := SharedSteps(seen, engine, record);
    ghost var binaries := BinarySteps(engine, record.binaries);
    assert d.plan[d.at..] == homes.value + (binaries + shared);
    var _ :- TakeSteps(d, homes.value, binaries + shared);
    var _ :- PutBinaries(d, engine, record.binaries, shared);
    r := WriteShared(d, engine, record, seen);
  }

  /** Takes these steps one after another, continuing an operation that is under way. */
  method TakeSteps(d: Disk<Lab, Op>, steps: seq<Op>, ghost rest: seq<Op>) returns (r: Result<()>)
    requires d.Valid() && d.plan[d.at..] == steps + rest
    modifies d`now, d`fuse, d`at
    ensures r.Ok? ==> d.Valid() && d.plan[d.at..] == rest
    ensures r.Fail? ==> r == Fail(PowerLoss) && d.Landed() && d.budget < |d.plan|
  {
    hide Replay;
    ghost var base := d.at;
    for i := 0 to |steps|
      modifies d`now, d`fuse, d`at
      invariant d.Valid() && d.at == base + i && d.plan[base..] == steps + rest
    {
      assert d.plan[d.at] == (steps + rest)[i];
      :- d.Do(steps[i]);
    }
    assert d.plan[d.at..] == (steps + rest)[|steps|..] == rest;
    return Ok(());
  }

  method PutBinaries(d: Disk<Lab, Op>, engine: Engine, binaries: seq<Bytes>, ghost rest: seq<Op>)
      returns (r: Result<()>)
    requires |binaries| == |Tools(engine)|
    requires d.Valid() && d.plan[d.at..] == BinarySteps(engine, binaries) + rest
    modifies d`now, d`fuse, d`at
    ensures r.Ok? ==> d.Valid() && d.plan[d.at..] == rest
    ensures r.Fail? ==> r == Fail(PowerLoss) && d.Landed() && d.budget < |d.plan|
  {
    hide Replay, BinarySteps;
    ghost var base := d.at;
    BinaryStep(engine, binaries, 0);
    for i := 0 to |binaries|
      modifies d`now, d`fuse, d`at
      invariant d.Valid() && d.at == base + i && d.plan[base..] == BinarySteps(engine, binaries) + rest
    {
      BinaryStep(engine, binaries, i);
      assert d.plan[d.at] == BinarySteps(engine, binaries)[i];
      :- d.Do(PutBinary(Tools(engine)[i], binaries[i]));
    }
    assert d.plan[d.at..] == (BinarySteps(engine, binaries) + rest)[|binaries|..] == rest;
    return Ok(());
  }

  method WriteShared(d: Disk<Lab, Op>, engine: Engine, record: Record, seen: Lab) returns (r: Result<()>)
    requires d.Valid() && d.plan[d.at..] == SharedSteps(seen, engine, record)
    modifies d`now, d`fuse, d`at
    ensures d.Landed() && r == if d.budget < |d.plan| then Fail(PowerLoss) else Ok(())
  {
    hide Replay;
    :- d.Do(PutCompose(record.composeNew, NewMode(engine, record)));
    if seen.registryHome.None? {
      :- d.Do(MakeRegistryHome);
    }
    :- d.Do(PutRegistry(record.registryNew, PRIVATE));
    d.Finished();
    return Ok(());
  }

  lemma BinaryStep(engine: Engine, binaries: seq<Bytes>, i: nat)
    requires |binaries| == |Tools(engine)| && i < |binaries|
    ensures |BinarySteps(engine, binaries)| == |binaries|
    ensures BinarySteps(engine, binaries)[i] == PutBinary(Tools(engine)[i], binaries[i])
  {
  }

  method WriteJournal(d: Disk<Lab, Op>, engine: Engine, record: Record, ghost rest: seq<Op>) returns (r: Result<()>)
    requires d.Valid() && d.plan[d.at..] == JournalSteps(engine, record) + rest
    modifies d`now, d`fuse, d`at
    ensures r.Ok? ==> d.Valid() && d.plan[d.at..] == rest
    ensures r.Fail? ==> r == Fail(PowerLoss) && d.Landed() && d.budget < |d.plan|
  {
    hide Replay;
    :- d.Do(MakeJournal(engine));
    :- d.Do(AddCompose(engine, record.composeOld));
    if record.registryOld.Some? {
      :- d.Do(AddRegistry(engine, record.registryOld.value));
    }
    :- d.Do(AddRecord(engine, record));
    return Ok(());
  }

  method RollbackLocked(d: Disk<Lab, Op>, engine: Engine, identical: bool, order: seq<Part>) returns (r: Result<()>)
    requires d.act == Act
    modifies d
    ensures Ran(d, old(d.now), old(d.fuse), Rollback(old(d.now), engine, identical, order), r)
  {
    hide Examine, Replay, Act, RollbackSteps;
    NoSteps(Act, d.now, d.fuse);
    d.Begin(Rollback(d.now, engine, identical, order).steps);
    var record :- Examine(d.now, engine, identical);
    if Stranded(d.now, record) {
      if d.now.compose != record.composeOld {
        :- d.Do(PutCompose(record.composeOld, record.composeMode));
      }
      d.Finished();
      return Fail(Hold(EngineDirectoryUntrusted));
    }
    r := Withdraw(d, engine, record, order);
  }

  /** Compose, then the registry, the binaries, the directories that are empty, and the journal at the very end. */
  method Withdraw(d: Disk<Lab, Op>, engine: Engine, record: Record, order: seq<Part>) returns (r: Result<()>)
    requires d.act == Act
    requires d.Valid() && d.at == 0 && d.plan == RollbackSteps(d.now, engine, record, order)
    modifies d`now, d`fuse, d`at
    ensures d.Landed() && r == if d.budget < |d.plan| then Fail(PowerLoss) else Ok(())
  {
    hide Replay, Act, DropBinaries, DropHomes, DropParts, ComposeSteps, RegistrySteps;
    var s := d.now;
    ghost var last := DropParts(engine, JournalOf(s, engine), order) + [RemoveJournal(engine)];
    ghost var homes := DropHomes(s, engine, record) + last;
    assert d.plan[d.at..] == ComposeSteps(s, record) +
        (RegistrySteps(s, record) + (DropBinaries(s, Tools(engine)) + homes));
    var _ :- TakeSteps(d, ComposeSteps(s, record), RegistrySteps(s, record) + (DropBinaries(s, Tools(engine)) + homes));
    var _ :- TakeSteps(d, RegistrySteps(s, record), DropBinaries(s, Tools(engine)) + homes);
    var _ :- Unlink(d, engine, s, s.binaries, homes);
    var _ :- TakeSteps(d, DropHomes(s, engine, record), last);
    r := Discard(d, engine, JournalOf(s, engine), order);
  }

  lemma DropBinariesUnfold(s: Lab, tools: seq<Tool>, i: nat)
    requires i <= |tools|
    ensures i == |tools| ==> DropBinaries(s, tools[i..]) == []
    ensures i < |tools| ==>
              DropBinaries(s, tools[i..]) == (if tools[i] in s.binaries then [DropBinary(tools[i])] else []) +
                  DropBinaries(s, tools[i + 1..])
  {
  }

  lemma DropPartsUnfold(engine: Engine, journal: Journal, order: seq<Part>, i: nat)
    requires i <= |order|
    ensures i == |order| ==> DropParts(engine, journal, order[i..]) == []
    ensures i < |order| ==>
              DropParts(engine, journal, order[i..]) ==
              (if Has(journal, order[i]) then [DropPart(engine, order[i])] else []) +
              DropParts(engine, journal, order[i + 1..])
  {
  }

  method Unlink(d: Disk<Lab, Op>, engine: Engine, ghost s: Lab, binaries: map<Tool, Bytes>,
                ghost last: seq<Op>) returns (r: Result<()>)
    requires d.Valid() && binaries == s.binaries && d.plan[d.at..] == DropBinaries(s, Tools(engine)) + last
    modifies d`now, d`fuse, d`at
    ensures r.Ok? ==> d.Valid() && d.plan[d.at..] == last
    ensures r.Fail? ==> r == Fail(PowerLoss) && d.Landed() && d.budget < |d.plan|
  {
    hide Replay, DropBinaries;
    var tools := Tools(engine);
    assert tools[0..] == tools;
    DropBinariesUnfold(s, tools, |tools|);
    for i := 0 to |tools|
      modifies d`now, d`fuse, d`at
      invariant d.Valid() && d.plan[d.at..] == DropBinaries(s, tools[i..]) + last
    {
      DropBinariesUnfold(s, tools, i);
      ghost var rest := DropBinaries(s, tools[i + 1..]) + last;
      if tools[i] in binaries {
        assert d.plan[d.at..] == [DropBinary(tools[i])] + rest;
        :- d.Do(DropBinary(tools[i]));
      } else {
        assert d.plan[d.at..] == rest;
      }
    }
    return Ok(());
  }

  method Discard(d: Disk<Lab, Op>, engine: Engine, journal: Journal, order: seq<Part>) returns (r: Result<()>)
    requires d.Valid() && d.plan[d.at..] == DropParts(engine, journal, order) + [RemoveJournal(engine)]
    modifies d`now, d`fuse, d`at
    ensures d.Landed() && r == if d.budget < |d.plan| then Fail(PowerLoss) else Ok(())
  {
    hide Replay, DropParts;
    assert order[0..] == order;
    DropPartsUnfold(engine, journal, order, |order|);
    for i := 0 to |order|
      modifies d`now, d`fuse, d`at
      invariant d.Valid() && d.plan[d.at..] == DropParts(engine, journal, order[i..]) + [RemoveJournal(engine)]
    {
      DropPartsUnfold(engine, journal, order, i);
      ghost var rest := DropParts(engine, journal, order[i + 1..]) + [RemoveJournal(engine)];
      if Has(journal, order[i]) {
        assert d.plan[d.at..] == [DropPart(engine, order[i])] + rest;
        :- d.Do(DropPart(engine, order[i]));
      } else {
        assert d.plan[d.at..] == rest;
      }
    }
    :- d.Do(RemoveJournal(engine));
    d.Finished();
    return Ok(());
  }
}
