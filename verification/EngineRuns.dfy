/** Every run of the two engines: what one engine's transaction leaves of the other, and when it is undone exactly. */
module EngineRuns {
  import opened Durable
  import opened Engines

  function Other(engine: Engine): Engine {
    match engine
    case Backhaul => Frp
    case Frp => Backhaul
  }

  function MountsOf(compose: Compose, engine: Engine): Compose {
    MountsFor(compose, Tools(engine))
  }

  /** What the registry pins for an engine. */
  function Pinned(registry: Option<Registry>, engine: Engine): Option<seq<Bytes>> {
    if registry.Some? && Known(engine) in registry.value.engines then Some(registry.value.engines[Known(engine)])
        else None
  }

  lemma MountsFirst(line: Line, rest: Compose, tools: seq<Tool>)
    ensures MountsFor([line] + rest, tools) == (if line.Mount? && line.tool in tools then [line] else []) +
            MountsFor(rest, tools)
  {
    assert ([line] + rest)[1..] == rest;
  }

  lemma NoMounts(tools: seq<Tool>)
    ensures MountsFor([], tools) == []
  {
  }

  lemma {:induction false} MountsJoin(a: Compose, b: Compose, tools: seq<Tool>)
    ensures MountsFor(a + b, tools) == MountsFor(a, tools) + MountsFor(b, tools)
    decreases a
  {
    hide MountsFor;
    NoMounts(tools);
    if a == [] {
      assert a + b == b;
    } else {
      MountsJoin(a[1..], b, tools);
      MountsFirst(a[0], a[1..], tools);
      MountsFirst(a[0], a[1..] + b, tools);
      assert a + b == [a[0]] + (a[1..] + b) && a == [a[0]] + a[1..];
    }
  }

  /** Where the inserted lines come to stand. */
  lemma {:induction false} InsertedSplits(compose: Compose, lines: Compose) returns (a: Compose, b: Compose)
    ensures if Anchor in compose then compose == a + b && Inserted(compose, lines) == a + lines + b
            else Inserted(compose, lines) == compose
    decreases compose
  {
    a, b := [], [];
    if compose != [] {
      if compose[0] == Anchor {
        a, b := [Anchor], compose[1..];
      } else {
        a, b := InsertedSplits(compose[1..], lines);
        a := [compose[0]] + a;
        assert compose == [compose[0]] + compose[1..];
      }
    }
  }

  /** Inserted lines mount what they mount, and everything that was mounted still is, in the same order. */
  lemma InsertedMounts(compose: Compose, lines: Compose, tools: seq<Tool>)
    ensures MountsFor(lines, tools) == [] ==> MountsFor(Inserted(compose, lines), tools) == MountsFor(compose, tools)
    ensures Anchored(compose) ==>
              |MountsFor(Inserted(compose, lines), tools)| == |MountsFor(compose, tools)| + |MountsFor(lines, tools)|
    ensures Anchored(compose) && MountsFor(compose, tools) == [] ==>
              MountsFor(Inserted(compose, lines), tools) == MountsFor(lines, tools)
  {
    hide MountsFor, Inserted;
    var a, b := InsertedSplits(compose, lines);
    if Anchor in compose {
      MountsJoin(a, b, tools);
      MountsJoin(a + lines, b, tools);
      MountsJoin(a, lines, tools);
    }
  }

  // ---------------------------------------------------------------- records say the truth about the other engine

  predicate Kept(engine: Engine, record: Record) {
    && |record.binaries| == |Tools(engine)|
    && MountsOf(record.composeNew, Other(engine)) == MountsOf(record.composeOld, Other(engine))
    && Pinned(Some(record.registryNew), Other(engine)) == Pinned(record.registryOld, Other(engine))
  }

  predicate WellKept(s: Lab) {
    forall engine :: engine in s.journals && s.journals[engine].record.Some? ==>
        Kept(engine, s.journals[engine].record.value)
  }

  lemma PreparedIsKept(site: Site, s: Lab, engine: Engine, stage: Option<Stage>)
    ensures var prepared := Prepare(site, s, engine, stage);
            prepared.Ok? ==>
              && Kept(engine, prepared.value)
              && prepared.value.composeOld == s.compose && prepared.value.registryOld == s.registry
              && prepared.value.composeMode == s.composeMode && prepared.value.registryMode == s.registryMode
              && prepared.value.composeNew != s.compose && Some(prepared.value.registryNew) != s.registry
              && (engine == Frp ==> ModesSafe(s.composeMode, s.registryMode))
              && engine !in s.journals && (forall tool :: tool in Tools(engine) ==> tool !in s.binaries)
              && (engine == Backhaul ==> !s.pairPending)
  {
    hide Inserted, FrpSettled, MountsFor, Mounts;
    var prepared := Prepare(site, s, engine, stage);
    if prepared.Ok? {
      InsertedGrows(s.compose, OwnMounts(site, engine));
      OwnMountsAreOwn(site, engine);
      InsertedMounts(s.compose, OwnMounts(site, engine), Tools(Other(engine)));
    }
  }

  lemma InsertedGrows(compose: Compose, lines: Compose)
    requires Anchored(compose) && lines != []
    ensures Inserted(compose, lines) != compose
  {
    hide Inserted;
    var a, b := InsertedSplits(compose, lines);
    assert |a + lines + b| > |a + b|;
  }

  lemma OwnMountsAreOwn(site: Site, engine: Engine)
    ensures MountsOf(OwnMounts(site, engine), Other(engine)) == []
  {
    hide MountsFor;
    var other := Tools(Other(engine));
    NoMounts(other);
    match engine
    case Backhaul =>
      var own := OwnMounts(site, Backhaul);
      MountsFirst(own[0], [], other);
      assert own == [own[0]] + [];
    case Frp =>
      var own := OwnMounts(site, Frp);
      MountsFirst(own[0], [own[1]] + [], other);
      MountsFirst(own[1], [], other);
      assert own == [own[0]] + ([own[1]] + []);
  }

  // ---------------------------------------------------------------- what a step may do to the other engine

  /** The step concerns its own engine only: whatever it writes into the shared files says the same about the other. */
  predicate Tame(engine: Engine, mounts: Compose, pinned: Option<seq<Bytes>>, op: Op) {
    match op
    case MakeJournal(e) => e == engine
    case AddCompose(e, _) => e == engine
    case AddRegistry(e, _) => e == engine
    case AddRecord(e, record) => e == engine && Kept(engine, record)
    case PutBinary(tool, _) => tool in Tools(engine)
    case DropBinary(tool) => tool in Tools(engine)
    case PutCompose(compose, _) => MountsOf(compose, Other(engine)) == mounts
    case PutRegistry(registry, _) => Pinned(Some(registry), Other(engine)) == pinned
    case DropRegistry => pinned == None
    case DropPart(e, _) => e == engine
    case RemoveJournal(e) => e == engine
    case _ => true
  }

  /** The other engine is as it was: its mounts, its entry, its binaries and its journal. */
  predicate Undisturbed(engine: Engine, before: Lab, after: Lab) {
    && MountsOf(after.compose, Other(engine)) == MountsOf(before.compose, Other(engine))
    && Pinned(after.registry, Other(engine)) == Pinned(before.registry, Other(engine))
    && (forall tool :: tool in Tools(Other(engine)) ==>
          && (tool in after.binaries <==> tool in before.binaries)
          && (tool in before.binaries ==> after.binaries[tool] == before.binaries[tool]))
    && (Other(engine) in after.journals <==> Other(engine) in before.journals)
    && JournalOf(after, Other(engine)) == JournalOf(before, Other(engine))
  }

  predicate AllTame(engine: Engine, s: Lab, steps: seq<Op>) {
    forall i :: 0 <= i < |steps| ==>
        Tame(engine, MountsOf(s.compose, Other(engine)), Pinned(s.registry, Other(engine)), steps[i])
  }

  lemma TameStep(engine: Engine, before: Lab, s: Lab, op: Op)
    requires Undisturbed(engine, before, s)
    requires Tame(engine, MountsOf(before.compose, Other(engine)), Pinned(before.registry, Other(engine)), op)
    ensures Undisturbed(engine, before, Act(s, op))
  {
    hide MountsOf;
    ToolsAreApart(engine);
  }

  lemma ToolsAreApart(engine: Engine)
    ensures forall tool :: tool in Tools(engine) ==> tool !in Tools(Other(engine))
    ensures Other(engine) != engine && Other(Other(engine)) == engine
  {
  }

  lemma {:induction false} TamePrefix(engine: Engine, s: Lab, steps: seq<Op>, k: nat)
    requires AllTame(engine, s, steps) && k <= |steps|
    ensures Undisturbed(engine, s, Replay(Act, s, steps[..k]))
    decreases k
  {
    hide Act, Tame, Replay;
    if k > 0 {
      TamePrefix(engine, s, steps, k - 1);
      ReplayNext(Act, s, steps, k - 1);
      hide Undisturbed;
      TameStep(engine, s, Replay(Act, s, steps[..k - 1]), steps[k - 1]);
    } else {
      NoSteps(Act, s, 0);
      assert steps[..0] == [];
    }
  }

  /** Records that are written are kept ones. */
  predicate Honest(engine: Engine, op: Op) {
    && (op.MakeJournal? ==> op.engine == engine)
    && (op.AddCompose? ==> op.engine == engine) && (op.AddRegistry? ==> op.engine == engine)
    && (op.AddRecord? ==> op.engine == engine && Kept(engine, op.record))
    && (op.DropPart? ==> op.engine == engine) && (op.RemoveJournal? ==> op.engine == engine)
  }

  lemma HonestStep(engine: Engine, s: Lab, op: Op)
    requires WellKept(s) && Honest(engine, op)
    ensures WellKept(Act(s, op))
  {
    hide Kept;
  }

  lemma {:induction false} HonestPrefix(engine: Engine, s: Lab, steps: seq<Op>, k: nat)
    requires WellKept(s) && k <= |steps| && forall i :: 0 <= i < |steps| ==> Honest(engine, steps[i])
    ensures WellKept(Replay(Act, s, steps[..k]))
    decreases k
  {
    hide Act, Honest, Replay, WellKept;
    if k > 0 {
      HonestPrefix(engine, s, steps, k - 1);
      ReplayNext(Act, s, steps, k - 1);
      HonestStep(engine, Replay(Act, s, steps[..k - 1]), steps[k - 1]);
    } else {
      NoSteps(Act, s, 0);
      assert steps[..0] == [];
    }
  }

  // ---------------------------------------------------------------- activation

  /** A step behind the journal of an activation. */
  predicate Forth(engine: Engine, record: Record, origin: Lab, op: Op)
    requires |record.binaries| == |Tools(engine)|
  {
    || (exists i :: 0 <= i < |record.binaries| && op == PutBinary(Tools(engine)[i], record.binaries[i]))
    || op == PutCompose(record.composeNew, NewMode(engine, record)) || op == PutRegistry(record.registryNew, PRIVATE)
    || (op.MakeHome? && origin.home.None?) || (op == MakeFrpHome && engine == Frp)
    || (op == MakeRegistryHome && origin.registryHome.None?)
  }

  lemma FillIsForth(site: Site, s: Lab, engine: Engine, record: Record)
    requires |record.binaries| == |Tools(engine)|
    ensures forall op :: op in Fill(site, s, engine, record).steps ==> Forth(engine, record, s, op)
  {
    hide BinarySteps;
    forall op | op in Fill(site, s, engine, record).steps ensures Forth(engine, record, s, op) {
      var homes := HomeSteps(site, s, engine).value;
      assert op in homes || op in BinarySteps(engine, record.binaries) || op in SharedSteps(s, engine, record);
      if op in BinarySteps(engine, record.binaries) {
        BinaryStep(engine, record.binaries, 0);
        var i :| 0 <= i < |BinarySteps(engine, record.binaries)| && BinarySteps(engine, record.binaries)[i] == op;
        BinaryStep(engine, record.binaries, i);
      }
    }
  }

  lemma ActivationIsTame(site: Site, s: Lab, engine: Engine, stage: Option<Stage>)
    ensures AllTame(engine, s, Activate(site, s, engine, stage).steps)
    ensures var steps := Activate(site, s, engine, stage).steps;
            forall i :: 0 <= i < |steps| ==> Honest(engine, steps[i])
  {
    hide Prepare, MountsOf, Pinned, Kept, Tame, Honest, JournalSteps, Fill, Forth;
    PreparedIsKept(site, s, engine, stage);
    var prepared := Prepare(site, s, engine, stage);
    if prepared.Ok? {
      PreparedBinaries(site, s, engine, stage);
      var record, steps := prepared.value, Activate(site, s, engine, stage).steps;
      FillIsForth(site, s, engine, record);
      forall i | 0 <= i < |steps|
        ensures Tame(engine, MountsOf(s.compose, Other(engine)), Pinned(s.registry, Other(engine)), steps[i])
        ensures Honest(engine, steps[i])
      {
        assert steps[i] in JournalSteps(engine, record) || steps[i] in Fill(site, s, engine, record).steps;
        ActivationStepIsTame(s, engine, record, steps[i]);
      }
    }
  }

  lemma ActivationStepIsTame(s: Lab, engine: Engine, record: Record, op: Op)
    requires Kept(engine, record) && record.composeOld == s.compose && record.registryOld == s.registry
    requires |record.binaries| == |Tools(engine)|
             && (op in JournalSteps(engine, record) || Forth(engine, record, s, op))
    ensures Tame(engine, MountsOf(s.compose, Other(engine)), Pinned(s.registry, Other(engine)), op)
            && Honest(engine, op)
  {
    hide MountsOf, Pinned;
  }

  /** At every cut of an activation the other engine is as it was. */
  lemma {:induction false} ActivationLeavesOther(site: Site, s: Lab, engine: Engine, stage: Option<Stage>, fuse: nat)
    ensures Undisturbed(engine, s, Replay(Act, s, UpTo(Activate(site, s, engine, stage).steps, fuse)))
  {
    hide Activate, Replay, Act, AllTame, Honest, Undisturbed;
    var steps := Activate(site, s, engine, stage).steps;
    ActivationIsTame(site, s, engine, stage);
    TamePrefix(engine, s, steps, |UpTo(steps, fuse)|);
    assert steps[..|UpTo(steps, fuse)|] == UpTo(steps, fuse);
  }

  // ---------------------------------------------------------------- rollback

  /** The registry is gone, and the backup that a Backhaul rollback writes again has an FRP entry. */
  predicate Resurrects(s: Lab, engine: Engine, record: Record) {
    engine == Backhaul && s.registry.None? && Pinned(record.registryOld, Frp).Some?
  }

  lemma {:induction false} BinariesAreOwn(engine: Engine, s: Lab, tools: seq<Tool>)
    requires forall tool :: tool in tools ==> tool in Tools(engine)
    ensures forall op :: op in DropBinaries(s, tools) ==> op.DropBinary? && op.tool in Tools(engine)
  {
    if tools != [] {
      BinariesAreOwn(engine, s, tools[1..]);
    }
  }

  lemma {:induction false} PartsAreOwn(engine: Engine, journal: Journal, order: seq<Part>)
    ensures forall op :: op in DropParts(engine, journal, order) ==> op.DropPart? && op.engine == engine
  {
    if order != [] {
      PartsAreOwn(engine, journal, order[1..]);
    }
  }

  lemma ExaminedFacts(s: Lab, engine: Engine, identical: bool)
    requires WellKept(s)
    ensures var examined := Examine(s, engine, identical);
            examined.Ok? ==>
              && Kept(engine, examined.value) && s.compose in {examined.value.composeOld, examined.value.composeNew}
              && RegistryKnown(engine, s.registry, examined.value)
              && engine in s.journals && s.journals[engine].record == Some(examined.value)
  {
    hide Kept, RegistryKnown;
  }

  lemma RestoreIsTame(s: Lab, engine: Engine, record: Record, op: Op)
    requires Kept(engine, record) && s.compose in {record.composeOld, record.composeNew}
             && RegistryKnown(engine, s.registry, record)
    requires op in RestoreSteps(s, record)
    ensures Honest(engine, op)
    ensures op.PutCompose? || !Resurrects(s, engine, record) ==>
              Tame(engine, MountsOf(s.compose, Other(engine)), Pinned(s.registry, Other(engine)), op)
  {
    hide MountsOf;
  }

  lemma RollbackIsTame(s: Lab, engine: Engine, identical: bool, order: seq<Part>)
    requires WellKept(s)
    ensures var examined, steps := Examine(s, engine, identical), Rollback(s, engine, identical, order).steps;
            && (forall i :: 0 <= i < |steps| ==> Honest(engine, steps[i]))
            && (examined.Fail? || !Resurrects(s, engine, examined.value) ==> AllTame(engine, s, steps))
  {
    hide Examine, DropBinaries, DropParts, Kept, RegistryKnown, MountsOf, Pinned, ComposeSteps, RegistrySteps,
         Resurrects, DropHomes;
    ExaminedFacts(s, engine, identical);
    var examined := Examine(s, engine, identical);
    if examined.Ok? {
      var record := examined.value;
      BinariesAreOwn(engine, s, Tools(engine));
      PartsAreOwn(engine, JournalOf(s, engine), order);
      HomesAreHomes(s, engine, record);
      forall op | op in RestoreSteps(s, record)
        ensures Honest(engine, op)
        ensures !Resurrects(s, engine, record) ==>
                  Tame(engine, MountsOf(s.compose, Other(engine)), Pinned(s.registry, Other(engine)), op)
      {
        RestoreIsTame(s, engine, record, op);
      }
      var steps := Rollback(s, engine, identical, order).steps;
      forall i | 0 <= i < |steps|
        ensures Honest(engine, steps[i])
        ensures !Resurrects(s, engine, record) ==>
                  Tame(engine, MountsOf(s.compose, Other(engine)), Pinned(s.registry, Other(engine)), steps[i])
      {
        assert steps[i] in RestoreSteps(s, record) || steps[i] in DropBinaries(s, Tools(engine))
               || steps[i] in DropHomes(s, engine, record)
               || steps[i] in DropParts(engine, JournalOf(s, engine), order) || steps[i] == RemoveJournal(engine);
      }
    }
  }

  lemma HomesAreHomes(s: Lab, engine: Engine, record: Record)
    ensures forall op :: op in DropHomes(s, engine, record) ==> op in {RemoveHome, RemoveFrpHome, RemoveRegistryHome}
  {
  }

  // ---------------------------------------------------------------- what a whole rollback does

  /** A file has its directory, and a mode. */
  predicate Housed(s: Lab) {
    && (s.registry.Some? <==> s.registryMode.Some?) && (s.registry.Some? ==> s.registryHome.Some?)
    && (Frpc in s.binaries || Frps in s.binaries ==> s.frpHome)
    && (BackhaulTool in s.binaries || s.frpHome ==> s.home.Some?)
  }

  /** Every file, mode and journal is as it was; directories may differ. */
  predicate SameFiles(before: Lab, after: Lab) {
    after == before.(home := after.home, frpHome := after.frpHome, registryHome := after.registryHome)
  }

  /** A directory that held a file is as it was. */
  predicate KeepsHomes(before: Lab, after: Lab) {
    && (before.binaries != map[] ==> after.home == before.home)
    && (Frpc in before.binaries || Frps in before.binaries ==> after.frpHome == before.frpHome)
    && (before.registry.Some? ==> after.registryHome == before.registryHome)
  }

  /** The transaction is between its old and its new state, and its journal is complete. */
  predicate Between(engine: Engine, record: Record, origin: Lab, s: Lab) {
    && RecordOf(engine, record, origin) && Housed(origin)
    && s.journals == origin.journals[engine := Journal(Some(record.composeOld), record.registryOld, Some(record))]
    && s.pairPending == origin.pairPending
    && SharedBetween(record, s) && BinariesBetween(engine, record, origin, s) && HomesBetween(engine, origin, s)
  }

  /** The record is about this node. */
  predicate RecordOf(engine: Engine, record: Record, origin: Lab) {
    && record.composeOld == origin.compose && record.registryOld == origin.registry
    && |record.binaries| == |Tools(engine)|
    && record.composeMode == origin.composeMode && record.registryMode == origin.registryMode
    && record.composeNew != record.composeOld && Some(record.registryNew) != record.registryOld
    && engine !in origin.journals && (forall tool :: tool in Tools(engine) ==> tool !in origin.binaries)
    && (engine == Backhaul ==> !origin.pairPending)
  }

  predicate SharedBetween(record: Record, s: Lab) {
    && s.compose in {record.composeOld, record.composeNew}
    && (s.compose == record.composeOld ==> s.composeMode == record.composeMode)
    && s.registry in {record.registryOld, Some(record.registryNew)}
    && (s.registry == record.registryOld ==> s.registryMode == record.registryMode)
  }

  predicate BinariesBetween(engine: Engine, record: Record, origin: Lab, s: Lab)
    requires |record.binaries| == |Tools(engine)|
  {
    && (forall tool :: tool !in Tools(engine) ==> At(s.binaries, tool) == At(origin.binaries, tool))
    && (forall i :: 0 <= i < |record.binaries| ==> At(s.binaries, Tools(engine)[i]) in {None, Some(record.binaries[i])})
  }

  predicate HomesBetween(engine: Engine, origin: Lab, s: Lab) {
    && (origin.binaries != map[] ==> s.home == origin.home)
    && (engine == Backhaul ==> s.frpHome == origin.frpHome)
    && (origin.registry.Some? ==> s.registryHome == origin.registryHome)
  }

  function At(binaries: map<Tool, Bytes>, tool: Tool): Option<Bytes> {
    if tool in binaries then Some(binaries[tool]) else None
  }

  /** From between, a rollback is accepted exactly if the modes found at the start can be put back; and it is never
      stranded. */
  lemma BetweenIsExamined(engine: Engine, record: Record, origin: Lab, s: Lab)
    requires Between(engine, record, origin, s)
    ensures var examined := Examine(s, engine, true);
            if ModesSafe(origin.composeMode, origin.registryMode) then examined == Ok(record) else examined.Fail?
    ensures !Stranded(s, record)
  {
  }

  lemma RestoreReaches(s: Lab, record: Record)
    ensures Replay(Act, s, RestoreSteps(s, record)) ==
            s.(compose := record.composeOld,
               composeMode := if s.compose == record.composeOld then s.composeMode else record.composeMode,
               registry := record.registryOld,
               registryMode := if s.registry == record.registryOld then s.registryMode
                               else if record.registryOld.None? then None else Some(PRIVATE))
  {
    hide Replay;
    ReplayJoin(Act, s, ComposeSteps(s, record), RegistrySteps(s, record));
    OneStep(s, ComposeSteps(s, record));
    OneStep(Replay(Act, s, ComposeSteps(s, record)), RegistrySteps(s, record));
  }

  lemma OneStep(s: Lab, steps: seq<Op>)
    requires |steps| <= 1
    ensures Replay(Act, s, steps) == if steps == [] then s else Act(s, steps[0])
  {
    hide Act, Replay;
    if steps == [] {
      NoSteps(Act, s, 0);
    } else {
      ReplayOne(Act, s, steps[0]);
      assert steps == [steps[0]];
    }
  }

  function Minus(binaries: map<Tool, Bytes>, tools: seq<Tool>): map<Tool, Bytes> {
    map tool | tool in binaries && tool !in tools :: binaries[tool]
  }

  /** `present` is what was seen before the first of these steps. */
  lemma {:induction false} BinariesGone(present: Lab, s: Lab, tools: seq<Tool>)
    requires forall tool :: tool in tools ==> (tool in s.binaries <==> tool in present.binaries)
    requires forall i, j :: 0 <= i < j < |tools| ==> tools[i] != tools[j]
    ensures Replay(Act, s, DropBinaries(present, tools)) == s.(binaries := Minus(s.binaries, tools))
    decreases tools
  {
    hide Replay, DropBinaries;
    if tools == [] {
      DropBinariesUnfold(present, tools, 0);
      NoSteps(Act, s, 0);
      assert Minus(s.binaries, tools) == s.binaries;
    } else {
      var rest, first := tools[1..], if tools[0] in present.binaries then [DropBinary(tools[0])] else [];
      assert tools[0..] == tools;
      DropBinariesUnfold(present, tools, 0);
      ReplayJoin(Act, s, first, DropBinaries(present, rest));
      OneStep(s, first);
      var next := s.(binaries := s.binaries - {tools[0]});
      assert Replay(Act, s, first) == next by { FirstGone(s, tools[0]); }
      hide Act, Minus;
      forall tool | tool in rest ensures tool in next.binaries <==> tool in present.binaries {
        assert tool in tools && tool != tools[0];
      }
      BinariesGone(present, next, rest);
      MinusFirst(s.binaries, tools);
    }
  }

  lemma FirstGone(s: Lab, tool: Tool)
    ensures Act(s, DropBinary(tool)) == s.(binaries := s.binaries - {tool})
    ensures tool !in s.binaries ==> s == s.(binaries := s.binaries - {tool})
  {
    assert tool !in s.binaries ==> s.binaries - {tool} == s.binaries;
  }

  lemma MinusFirst(binaries: map<Tool, Bytes>, tools: seq<Tool>)
    requires tools != []
    ensures Minus(binaries - {tools[0]}, tools[1..]) == Minus(binaries, tools)
  {
    assert forall tool :: tool in tools <==> tool == tools[0] || tool in tools[1..];
  }

  lemma {:induction false} JournalGone(engine: Engine, s: Lab, journal: Journal, order: seq<Part>)
    requires engine in s.journals
    ensures Replay(Act, s, DropParts(engine, journal, order) + [RemoveJournal(engine)]) ==
            s.(journals := s.journals - {engine})
    decreases order
  {
    hide Replay, DropParts;
    assert order[0..] == order;
    DropPartsUnfold(engine, journal, order, 0);
    if order == [] {
      OneStep(s, DropParts(engine, journal, order) + [RemoveJournal(engine)]);
    } else {
      var first := if Has(journal, order[0]) then [DropPart(engine, order[0])] else [];
      var rest := DropParts(engine, journal, order[1..]) + [RemoveJournal(engine)];
      assert DropParts(engine, journal, order) + [RemoveJournal(engine)] == first + rest;
      ReplayJoin(Act, s, first, rest);
      OneStep(s, first);
      JournalGone(engine, Replay(Act, s, first), journal, order[1..]);
      assert Replay(Act, s, first).journals - {engine} == s.journals - {engine};
    }
  }

  lemma ToolsAreDistinct(engine: Engine)
    ensures forall i, j :: 0 <= i < j < |Tools(engine)| ==> Tools(engine)[i] != Tools(engine)[j]
  {
  }

  /** The node without the directories that are empty then; `seen` is what the rollback saw. */
  function Swept(s: Lab, seen: Lab, engine: Engine, record: Record): Lab {
    s.(home := if EmptiesHome(seen, engine) then None else seen.home,
       frpHome := engine == Backhaul && seen.frpHome,
       registryHome := if record.registryOld.None? then None else seen.registryHome)
  }

  /** A step that is taken or not. */
  lemma Maybe(s: Lab, op: Op, taken: bool)
    ensures Replay(Act, s, if taken then [op] else []) == if taken then Act(s, op) else s
  {
    hide Act, Replay;
    OneStep(s, if taken then [op] else []);
  }

  lemma HomesReach(s: Lab, seen: Lab, engine: Engine, record: Record)
    requires s.home == seen.home && s.frpHome == seen.frpHome && s.registryHome == seen.registryHome
    ensures Replay(Act, s, DropHomes(seen, engine, record)) == Swept(s, seen, engine, record)
  {
    hide Replay, Act;
    var frp, home := engine == Frp && seen.frpHome, EmptiesHome(seen, engine);
    var registry := seen.registryHome.Some? && record.registryOld.None?;
    var first, second := if frp then [RemoveFrpHome] else [], if home then [RemoveHome] else [];
    var last := if registry then [RemoveRegistryHome] else [];
    assert DropHomes(seen, engine, record) == first + second + last;
    assert Swept(s, seen, engine, record) ==
           s.(frpHome := s.frpHome && !frp, home := if home then None else s.home,
              registryHome := if registry then None else s.registryHome);
    hide EmptiesHome, Swept, DropHomes;
    ReplayJoin(Act, s, first + second, last);
    ReplayJoin(Act, s, first, second);
    Maybe(s, RemoveFrpHome, frp);
    HomeActs(s);
    var s1 := s.(frpHome := s.frpHome && !frp);
    Maybe(s1, RemoveHome, home);
    HomeActs(s1);
    var s2 := s1.(home := if home then None else s.home);
    Maybe(s2, RemoveRegistryHome, registry);
    HomeActs(s2);
  }

  lemma HomeActs(s: Lab)
    ensures Act(s, RemoveFrpHome) == s.(frpHome := false) && Act(s, RemoveHome) == s.(home := None)
    ensures Act(s, RemoveRegistryHome) == s.(registryHome := None)
  {
  }

  /** What an accepted rollback leaves when it is not cut. */
  lemma RollbackReaches(s: Lab, engine: Engine, identical: bool, order: seq<Part>)
    ensures Rollback(s, engine, identical, order).end.Ok? ==>
              var record := Examine(s, engine, identical).value;
              && Examine(s, engine, identical).Ok? && !Stranded(s, record)
              && Replay(Act, s, Rollback(s, engine, identical, order).steps) ==
                 Swept(Replay(Act, s, RestoreSteps(s, record)), s, engine, record)
                 .(binaries := Minus(s.binaries, Tools(engine)), journals := s.journals - {engine})
  {
    hide Replay, DropBinaries, DropParts, Minus, Swept, DropHomes;
    var examined := Examine(s, engine, identical);
    if Rollback(s, engine, identical, order).end.Ok? {
      assert engine in s.journals;
      hide Examine;
      var record := examined.value;
      var back, binaries, homes := RestoreSteps(s, record), DropBinaries(s, Tools(engine)),
          DropHomes(s, engine, record);
      var last := DropParts(engine, JournalOf(s, engine), order) + [RemoveJournal(engine)];
      RestoreReaches(s, record);
      var restored := Replay(Act, s, back);
      var bare := restored.(binaries := Minus(s.binaries, Tools(engine)));
      hide RestoreSteps, RegistrySteps, ComposeSteps;
      ToolsAreDistinct(engine);
      BinariesGone(s, restored, Tools(engine));
      HomesReach(bare, s, engine, record);
      var swept := Swept(bare, s, engine, record);
      assert swept.journals == s.journals by { SweptAside(bare, s, engine, record); }
      JournalGone(engine, swept, JournalOf(s, engine), order);
      ReplayJoin(Act, s, back, binaries);
      ReplayJoin(Act, s, back + binaries, homes);
      ReplayJoin(Act, s, back + binaries + homes, last);
      SweptAside(restored, s, engine, record);
    }
  }

  /** Sweeping concerns the directories only. */
  lemma SweptAside(s: Lab, seen: Lab, engine: Engine, record: Record)
    ensures Swept(s, seen, engine, record).journals == s.journals
    ensures forall binaries, journals ::
              Swept(s.(binaries := binaries), seen, engine, record).(journals := journals) ==
              Swept(s, seen, engine, record).(binaries := binaries, journals := journals)
  {
  }

  /** From between, with modes that can be put back, a rollback that is not cut gives back every file, mode and
      journal of the node the activation started from, and every directory that held one. */
  lemma BetweenRollsBack(engine: Engine, record: Record, origin: Lab, s: Lab, order: seq<Part>)
    requires Between(engine, record, origin, s) && ModesSafe(origin.composeMode, origin.registryMode)
    ensures Rollback(s, engine, true, order).end == Ok(())
    ensures var after := Replay(Act, s, Rollback(s, engine, true, order).steps);
            SameFiles(origin, after) && KeepsHomes(origin, after)
  {
    hide Replay, Examine, RollbackSteps, RestoreSteps, Stranded;
    BetweenIsExamined(engine, record, origin, s);
    RollbackReaches(s, engine, true, order);
    RestoreReaches(s, record);
    assert Minus(s.binaries, Tools(engine)) == origin.binaries by { BinariesBack(engine, record, origin, s); }
    assert s.journals - {engine} == origin.journals;
    if origin.binaries != map[] {
      assert (if engine == Backhaul then origin.frpHome else BackhaulTool in s.binaries)
          by { OthersHome(engine, record, origin, s); }
    }
  }

  /** Where a binary of the other engine keeps the directory. */
  lemma OthersHome(engine: Engine, record: Record, origin: Lab, s: Lab)
    requires Between(engine, record, origin, s) && origin.binaries != map[]
    ensures if engine == Backhaul then origin.frpHome else BackhaulTool in s.binaries
  {
    var tool :| tool in origin.binaries;
    assert At(s.binaries, BackhaulTool) == At(origin.binaries, BackhaulTool) || engine == Backhaul;
    assert tool == BackhaulTool || tool == Frpc || tool == Frps;
    assert Tools(Frp)[0] == Frpc && Tools(Frp)[1] == Frps && Tools(Backhaul)[0] == BackhaulTool;
  }

  lemma BinariesBack(engine: Engine, record: Record, origin: Lab, s: Lab)
    requires Between(engine, record, origin, s)
    ensures Minus(s.binaries, Tools(engine)) == origin.binaries
  {
    hide Housed, HomesBetween;
    var gone := Minus(s.binaries, Tools(engine));
    forall tool: Tool ensures At(gone, tool) == At(origin.binaries, tool) {
    }
    assert forall tool :: tool in gone <==> At(gone, tool).Some?;
    assert forall tool :: tool in origin.binaries <==> At(origin.binaries, tool).Some?;
    assert forall tool :: tool in gone ==> gone[tool] == At(gone, tool).value;
  }

  // ---------------------------------------------------------------- an interrupted activation is undone exactly

  /** A step of a rollback before it starts to delete its journal. */
  predicate BackStep(engine: Engine, record: Record, origin: Lab, op: Op) {
    || (op.DropBinary? && op.tool in Tools(engine)) || op == PutCompose(record.composeOld, record.composeMode)
    || (op.PutRegistry? && Some(op.registry) == record.registryOld && Some(op.mode) == record.registryMode)
    || (op == DropRegistry && record.registryOld.None?)
    || (op == RemoveHome && origin.binaries == map[]) || (op == RemoveFrpHome && engine == Frp)
    || (op == RemoveRegistryHome && record.registryOld.None?)
  }

  lemma BareHome(s: Lab)
    requires Housed(s)
    ensures s.home.None? ==> s.binaries == map[]
  {
    if s.binaries != map[] {
      var tool :| tool in s.binaries;
      assert tool == BackhaulTool || tool == Frpc || tool == Frps;
    }
  }

  /** Such a step concerns the shared files, the binaries, or the directories. */
  lemma BetweenKept(engine: Engine, record: Record, origin: Lab, s: Lab, op: Op)
    requires Between(engine, record, origin, s)
             && (Forth(engine, record, origin, op) || BackStep(engine, record, origin, op))
    ensures Between(engine, record, origin, Act(s, op))
  {
    hide NewMode, Housed, RecordOf, SharedBetween, BinariesBetween, HomesBetween;
    assert |record.binaries| == |Tools(engine)| by { RecordSizes(engine, record, origin); }
    SharedKept(engine, record, origin, s, op);
    BinariesKept(engine, record, origin, s, op);
    HomesKept(engine, record, origin, s, op);
  }

  lemma RecordSizes(engine: Engine, record: Record, origin: Lab)
    requires RecordOf(engine, record, origin)
    ensures |record.binaries| == |Tools(engine)|
  {
  }

  lemma SharedKept(engine: Engine, record: Record, origin: Lab, s: Lab, op: Op)
    requires RecordOf(engine, record, origin) && Housed(origin) && SharedBetween(record, s)
    requires Forth(engine, record, origin, op) || BackStep(engine, record, origin, op)
    ensures SharedBetween(record, Act(s, op))
  {
    hide NewMode;
  }

  lemma BinariesKept(engine: Engine, record: Record, origin: Lab, s: Lab, op: Op)
    requires RecordOf(engine, record, origin) && BinariesBetween(engine, record, origin, s)
    requires Forth(engine, record, origin, op) || BackStep(engine, record, origin, op)
    ensures BinariesBetween(engine, record, origin, Act(s, op))
  {
    hide NewMode;
    ToolsAreDistinct(engine);
  }

  lemma HomesKept(engine: Engine, record: Record, origin: Lab, s: Lab, op: Op)
    requires RecordOf(engine, record, origin) && Housed(origin) && HomesBetween(engine, origin, s)
    requires Forth(engine, record, origin, op) || BackStep(engine, record, origin, op)
    ensures HomesBetween(engine, origin, Act(s, op))
  {
    hide NewMode;
    BareHome(origin);
  }

  lemma {:induction false} BetweenStays(engine: Engine, record: Record, origin: Lab, s: Lab, steps: seq<Op>, k: nat)
    requires Between(engine, record, origin, s) && |record.binaries| == |Tools(engine)| && k <= |steps|
    requires forall i :: 0 <= i < |steps| ==>
               Forth(engine, record, origin, steps[i]) || BackStep(engine, record, origin, steps[i])
    ensures Between(engine, record, origin, Replay(Act, s, steps[..k]))
    decreases k
  {
    hide Act, Replay, Between, Forth, BackStep;
    if k > 0 {
      BetweenStays(engine, record, origin, s, steps, k - 1);
      ReplayNext(Act, s, steps, k - 1);
      BetweenKept(engine, record, origin, Replay(Act, s, steps[..k - 1]), steps[k - 1]);
    } else {
      NoSteps(Act, s, 0);
      assert steps[..0] == [];
    }
  }

  lemma JoinFour(s: Lab, a: seq<Op>, b: seq<Op>, c: seq<Op>, d: seq<Op>)
    ensures Replay(Act, s, a + (b + (c + d))) == Replay(Act, Replay(Act, Replay(Act, Replay(Act, s, a), b), c), d)
  {
    hide Replay, Act;
    ReplayJoin(Act, s, a, b + (c + d));
    ReplayJoin(Act, Replay(Act, s, a), b, c + d);
    ReplayJoin(Act, Replay(Act, Replay(Act, s, a), b), c, d);
  }

  /** The journal of an engine, part by part. */
  lemma JournalGrows(s: Lab, engine: Engine, record: Record)
    ensures var c, r := Some(record.composeOld), record.registryOld;
            && Act(s, MakeJournal(engine)) == WithJournal(s, engine, Journal(None, None, None))
            && Act(WithJournal(s, engine, Journal(None, None, None)), AddCompose(engine, record.composeOld)) ==
               WithJournal(s, engine, Journal(c, None, None))
            && (r.Some? ==> Act(WithJournal(s, engine, Journal(c, None, None)), AddRegistry(engine, r.value)) ==
                            WithJournal(s, engine, Journal(c, r, None)))
            && Act(WithJournal(s, engine, Journal(c, r, None)), AddRecord(engine, record)) ==
               WithJournal(s, engine, Journal(c, r, Some(record)))
            && WithJournal(s, engine, Journal(c, r, Some(record))) ==
               s.(journals := s.journals[engine := Journal(c, r, Some(record))])
  {
    forall x, y ensures WithJournal(WithJournal(s, engine, x), engine, y) == WithJournal(s, engine, y) {
      assert s.journals[engine := x][engine := y] == s.journals[engine := y];
    }
  }

  lemma JournalWritten(engine: Engine, record: Record, origin: Lab)
    requires RecordOf(engine, record, origin)
    ensures Replay(Act, origin, JournalSteps(engine, record)) ==
            origin.(journals := origin.journals[engine :=
                Journal(Some(record.composeOld), record.registryOld, Some(record))])
    ensures Housed(origin) ==> Between(engine, record, origin, Replay(Act, origin, JournalSteps(engine, record)))
  {
    hide Replay, Housed, Between, Act, RecordOf, WithJournal;
    var a, b := [MakeJournal(engine)], [AddCompose(engine, record.composeOld)];
    var c := if record.registryOld.Some? then [AddRegistry(engine, record.registryOld.value)] else [];
    var d := [AddRecord(engine, record)];
    assert JournalSteps(engine, record) == a + (b + (c + d));
    JoinFour(origin, a, b, c, d);
    var s1 := WithJournal(origin, engine, Journal(None, None, None));
    var s2 := WithJournal(origin, engine, Journal(Some(record.composeOld), None, None));
    var s3 := WithJournal(origin, engine, Journal(Some(record.composeOld), record.registryOld, None));
    JournalGrows(origin, engine, record);
    OneStep(origin, a);
    OneStep(s1, b);
    OneStep(s2, c);
    OneStep(s3, d);
    if Housed(origin) {
      BetweenBegins(engine, record, origin);
    }
  }

  lemma BetweenBegins(engine: Engine, record: Record, origin: Lab)
    requires RecordOf(engine, record, origin) && Housed(origin)
    ensures var journal := Journal(Some(record.composeOld), record.registryOld, Some(record));
            Between(engine, record, origin, origin.(journals := origin.journals[engine := journal]))
  {
    hide Housed;
  }

  lemma PreparedRecord(site: Site, s: Lab, engine: Engine, stage: Option<Stage>)
    ensures var prepared := Prepare(site, s, engine, stage); prepared.Ok? ==> RecordOf(engine, prepared.value, s)
  {
    hide Prepare, Kept;
    PreparedIsKept(site, s, engine, stage);
    PreparedBinaries(site, s, engine, stage);
  }

  /** An activation cut anywhere behind its record, stopped there by a directory, or not cut at all: a rollback that
      is not cut succeeds if and only if the modes found before the activation are ones that it can put back.  Then
      every file, mode and journal is as it was before, and every directory that held one; otherwise nothing is
      written. */
  lemma {:induction false} CutActivationRollsBack(site: Site, s: Lab, engine: Engine, stage: Option<Stage>,
                                                  fuse: nat, order: seq<Part>)
    requires Housed(s) && Prepare(site, s, engine, stage).Ok?
    requires fuse >= |JournalSteps(engine, Prepare(site, s, engine, stage).value)|
    ensures var cut := Replay(Act, s, UpTo(Activate(site, s, engine, stage).steps, fuse));
            var a := Rollback(cut, engine, true, order);
            && Between(engine, Prepare(site, s, engine, stage).value, s, cut)
            && (a.end.Ok? <==> ModesSafe(s.composeMode, s.registryMode))
            && (a.end.Ok? ==> SameFiles(s, Replay(Act, cut, a.steps)) && KeepsHomes(s, Replay(Act, cut, a.steps)))
            && (a.end.Fail? ==> a.steps == [])
  {
    hide Prepare, Act, Replay, Between, JournalSteps, Examine, RecordOf, Fill, RollbackSteps, Stranded, ModesSafe,
         SameFiles, KeepsHomes;
    PreparedRecord(site, s, engine, stage);
    var record := Prepare(site, s, engine, stage).value;
    assert |record.binaries| == |Tools(engine)| by { PreparedBinaries(site, s, engine, stage); }
    var journal, rest := JournalSteps(engine, record), Fill(site, s, engine, record);
    ThenRan(Act, s, fuse, journal, rest);
    JournalWritten(engine, record, s);
    var full := Replay(Act, s, journal);
    FillIsForth(site, s, engine, record);
    var k := |UpTo(rest.steps, fuse - |journal|)|;
    BetweenStays(engine, record, s, full, rest.steps, k);
    assert rest.steps[..k] == UpTo(rest.steps, fuse - |journal|);
    var cut := Replay(Act, full, rest.steps[..k]);
    BetweenIsExamined(engine, record, s, cut);
    if ModesSafe(s.composeMode, s.registryMode) {
      BetweenRollsBack(engine, record, s, cut, order);
    }
  }

  /** The same after any number of rollbacks cut before they begin to delete the journal. */
  lemma {:induction false} CutRollbackStaysBetween(engine: Engine, record: Record, origin: Lab, s: Lab,
                                                   order: seq<Part>, fuse: nat)
    requires Between(engine, record, origin, s)
    requires fuse <= |RestoreSteps(s, record) + DropBinaries(s, Tools(engine)) + DropHomes(s, engine, record)|
    ensures Between(engine, record, origin, Replay(Act, s, UpTo(Rollback(s, engine, true, order).steps, fuse)))
  {
    hide Act, Replay, Examine, DropParts, DropBinaries, DropHomes, Stranded;
    BetweenIsExamined(engine, record, origin, s);
    if ModesSafe(origin.composeMode, origin.registryMode) {
      assert |record.binaries| == |Tools(engine)|;
      var back := RestoreSteps(s, record) + DropBinaries(s, Tools(engine)) + DropHomes(s, engine, record);
      forall i | 0 <= i < |back| ensures BackStep(engine, record, origin, back[i]) {
        RollbackStepsAreBack(engine, record, origin, s, back[i]);
      }
      hide Between, BackStep, Forth;
      BetweenStays(engine, record, origin, s, back, fuse);
      assert UpTo(Rollback(s, engine, true, order).steps, fuse) == back[..fuse];
    } else {
      NoSteps(Act, s, fuse);
    }
  }

  lemma RollbackStepsAreBack(engine: Engine, record: Record, origin: Lab, s: Lab, op: Op)
    requires Between(engine, record, origin, s) && ModesSafe(origin.composeMode, origin.registryMode)
    requires op in RestoreSteps(s, record) + DropBinaries(s, Tools(engine)) + DropHomes(s, engine, record)
    ensures BackStep(engine, record, origin, op)
  {
    hide DropBinaries;
    BinariesAreOwn(engine, s, Tools(engine));
    if op in DropHomes(s, engine, record) && origin.binaries != map[] {
      OthersHome(engine, record, origin, s);
    } else if op in RestoreSteps(s, record) {
      assert op in ComposeSteps(s, record) || op in RegistrySteps(s, record);
    }
  }

  // ---------------------------------------------------------------- every run

  datatype Event =
    | ActivateCall(engine: Engine, stage: Option<Stage>, fuse: nat)
    | RollbackCall(engine: Engine, identical: bool, order: seq<Part>, fuse: nat)

  function Steps(site: Site, s: Lab, event: Event): seq<Op> {
    match event
    case ActivateCall(engine, stage, fuse) => UpTo(Activate(site, s, engine, stage).steps, fuse)
    case RollbackCall(engine, identical, order, fuse) => UpTo(Rollback(s, engine, identical, order).steps, fuse)
  }

  function Run(site: Site, s: Lab, events: seq<Event>): Lab {
    if events == [] then s
    else
      var before := Run(site, s, events[..|events| - 1]);
      Replay(Act, before, Steps(site, before, events[|events| - 1]))
  }

  /** Whatever happened, every record tells the truth about the other engine. */
  lemma {:induction false} RunsAreWellKept(site: Site, s: Lab, events: seq<Event>)
    requires s.journals == map[]
    ensures WellKept(Run(site, s, events))
  {
    hide Activate, Rollback, Replay, Act, WellKept, Honest, AllTame;
    if events == [] {
      assert WellKept(s) by { NoJournals(s); }
    } else {
      var before, event := Run(site, s, events[..|events| - 1]), events[|events| - 1];
      RunsAreWellKept(site, s, events[..|events| - 1]);
      var steps := if event.ActivateCall? then Activate(site, before, event.engine, event.stage).steps
                   else Rollback(before, event.engine, event.identical, event.order).steps;
      if event.ActivateCall? {
        ActivationIsTame(site, before, event.engine, event.stage);
      } else {
        RollbackIsTame(before, event.engine, event.identical, event.order);
      }
      HonestPrefix(event.engine, before, steps, |Steps(site, before, event)|);
      assert steps[..|Steps(site, before, event)|] == Steps(site, before, event);
    }
  }

  lemma NoJournals(s: Lab)
    requires s.journals == map[]
    ensures WellKept(s)
  {
  }

  /** In every reachable state, at every cut of a rollback: the other engine is as it was when the rollback started,
      unless it is the one case below. */
  lemma {:induction false} RollbackLeavesOther(site: Site, s0: Lab, events: seq<Event>, engine: Engine,
                                               identical: bool, order: seq<Part>, fuse: nat)
    requires s0.journals == map[]
    ensures var s := Run(site, s0, events);
            var examined := Examine(s, engine, identical);
            examined.Fail? || !Resurrects(s, engine, examined.value) ==>
              Undisturbed(engine, s, Replay(Act, s, UpTo(Rollback(s, engine, identical, order).steps, fuse)))
  {
    hide Run, Examine, Rollback, Replay, Act, AllTame, Undisturbed, Resurrects, WellKept, Honest;
    var s := Run(site, s0, events);
    RunsAreWellKept(site, s0, events);
    RollbackIsTame(s, engine, identical, order);
    if Examine(s, engine, identical).Fail? || !Resurrects(s, engine, Examine(s, engine, identical).value) {
      var steps := Rollback(s, engine, identical, order).steps;
      TamePrefix(engine, s, steps, |UpTo(steps, fuse)|);
      assert steps[..|UpTo(steps, fuse)|] == UpTo(steps, fuse);
    }
  }

  /** In every reachable state, a rollback that succeeds leaves the other engine's entry and mounts as they were
      exactly when it is not a Backhaul rollback that finds no registry and a backup with an FRP entry.  The mounts
      are kept in any case. */
  lemma {:induction false} DisturbsExactlyWhen(site: Site, s0: Lab, events: seq<Event>, engine: Engine,
                                               identical: bool, order: seq<Part>)
    requires s0.journals == map[]
    ensures var s := Run(site, s0, events);
            var a := Rollback(s, engine, identical, order);
            var after := Replay(Act, s, a.steps);
            a.end.Ok? ==>
              && MountsOf(after.compose, Other(engine)) == MountsOf(s.compose, Other(engine))
              && (Pinned(after.registry, Other(engine)) != Pinned(s.registry, Other(engine)) <==>
                  Resurrects(s, engine, Examine(s, engine, identical).value))
  {
    hide Run, Replay, Act, MountsOf, WellKept, RollbackSteps;
    var s := Run(site, s0, events);
    RunsAreWellKept(site, s0, events);
    ExaminedFacts(s, engine, identical);
    RollbackReaches(s, engine, identical, order);
    if Rollback(s, engine, identical, order).end.Ok? {
      RestoreReaches(s, Examine(s, engine, identical).value);
    }
  }

  // ---------------------------------------------------------------- modes that cannot be put back

  /** A step that leaves Backhaul's journal alone. */
  predicate FrpOnly(op: Op) {
    op.MakeJournal? || op.AddCompose? || op.AddRegistry? || op.AddRecord? || op.DropPart? || op.RemoveJournal? ==>
        op.engine == Frp
  }

  lemma FrpOnlyStep(s: Lab, op: Op)
    requires FrpOnly(op)
    ensures (Backhaul in Act(s, op).journals <==> Backhaul in s.journals)
            && JournalOf(Act(s, op), Backhaul) == JournalOf(s, Backhaul)
  {
  }

  lemma {:induction false} FrpOnlyPrefix(s: Lab, steps: seq<Op>, k: nat)
    requires k <= |steps| && forall i :: 0 <= i < |steps| ==> FrpOnly(steps[i])
    ensures var t := Replay(Act, s, steps[..k]);
            (Backhaul in t.journals <==> Backhaul in s.journals) && JournalOf(t, Backhaul) == JournalOf(s, Backhaul)
    decreases k
  {
    hide Replay, Act, FrpOnly;
    if k > 0 {
      FrpOnlyPrefix(s, steps, k - 1);
      ReplayNext(Act, s, steps, k - 1);
      FrpOnlyStep(Replay(Act, s, steps[..k - 1]), steps[k - 1]);
    } else {
      NoSteps(Act, s, 0);
      assert steps[..0] == [];
    }
  }

  lemma FrpStaysAside(site: Site, s: Lab, call: Event)
    requires call.engine == Frp
    ensures forall op :: op in Steps(site, s, call) ==> FrpOnly(op)
  {
    hide Prepare, Examine, DropBinaries, DropParts, Fill, DropHomes, ComposeSteps, RegistrySteps, Forth;
    match call
    case ActivateCall(engine, stage, _) =>
      PreparedBinaries(site, s, engine, stage);
      var steps := Activate(site, s, engine, stage).steps;
      if Prepare(site, s, engine, stage).Ok? {
        var record := Prepare(site, s, engine, stage).value;
        FillIsForth(site, s, engine, record);
        forall op | op in steps ensures FrpOnly(op) {
          assert op in JournalSteps(engine, record) || op in Fill(site, s, engine, record).steps;
          if op in Fill(site, s, engine, record).steps { ForthIsAside(engine, record, s, op); }
        }
      }
    case RollbackCall(engine, identical, order, _) =>
      var steps := Rollback(s, engine, identical, order).steps;
      if Examine(s, engine, identical).Ok? {
        var record := Examine(s, engine, identical).value;
        BinariesAreOwn(engine, s, Tools(engine));
        PartsAreOwn(engine, JournalOf(s, engine), order);
        HomesAreHomes(s, engine, record);
        RestoreIsAside(s, record);
        forall op | op in steps ensures FrpOnly(op) {
          assert op in RestoreSteps(s, record) || op in ComposeSteps(s, record) || op in DropBinaries(s, Tools(engine))
                 || op in DropHomes(s, engine, record)
                 || op in DropParts(engine, JournalOf(s, engine), order) || op == RemoveJournal(engine);
        }
      }
  }

  lemma ForthIsAside(engine: Engine, record: Record, s: Lab, op: Op)
    requires |record.binaries| == |Tools(engine)| && Forth(engine, record, s, op)
    ensures FrpOnly(op)
  {
  }

  lemma RestoreIsAside(s: Lab, record: Record)
    ensures forall op :: op in RestoreSteps(s, record) || op in ComposeSteps(s, record) ==> FrpOnly(op)
  {
    assert forall op :: op in RestoreSteps(s, record) ==>
        op in ComposeSteps(s, record) || op in RegistrySteps(s, record);
  }

  /** The journal of Backhaul has a record with modes that cannot be put back. */
  predicate Stuck(s: Lab) {
    && Backhaul in s.journals && s.journals[Backhaul].record.Some?
    && !ModesSafe(s.journals[Backhaul].record.value.composeMode, s.journals[Backhaul].record.value.registryMode)
  }

  /** While it is there, every call of Backhaul is refused and writes nothing. */
  lemma StuckRefuses(site: Site, s: Lab, stage: Option<Stage>, identical: bool, order: seq<Part>)
    requires Stuck(s)
    ensures var a, b := Activate(site, s, Backhaul, stage), Rollback(s, Backhaul, identical, order);
            a.end.Fail? && a.steps == [] && b.end.Fail? && b.steps == []
  {
    hide CoreReady, ModesSafe, RegistryKnown;
  }

  /** Nothing that either engine does removes such a journal. */
  lemma {:induction false} StuckForGood(site: Site, s: Lab, events: seq<Event>)
    requires Stuck(s)
    ensures Stuck(Run(site, s, events))
  {
    hide Activate, Rollback, Replay, Act, FrpOnly, ModesSafe;
    if events != [] {
      var before, event := Run(site, s, events[..|events| - 1]), events[|events| - 1];
      StuckForGood(site, s, events[..|events| - 1]);
      var steps := Steps(site, before, event);
      if event.engine == Backhaul {
        StuckRefuses(site, before, if event.ActivateCall? then event.stage else None,
                     if event.RollbackCall? then event.identical else true,
                     if event.RollbackCall? then event.order else []);
        NoSteps(Act, before, 0);
      } else {
        FrpStaysAside(site, before, event);
        FrpOnlyPrefix(before, steps, |steps|);
        assert steps[..|steps|] == steps;
      }
    }
  }

  /** A Backhaul activation that found a mode that cannot be put back, cut anywhere behind its record or not at all:
      in every later run of both engines, every call of Backhaul is refused. */
  lemma {:induction false} UnsafeModesAreStuck(site: Site, s: Lab, stage: Option<Stage>, fuse: nat, events: seq<Event>,
                                               again: Option<Stage>, identical: bool, order: seq<Part>)
    requires Housed(s) && Prepare(site, s, Backhaul, stage).Ok? && !ModesSafe(s.composeMode, s.registryMode)
    requires fuse >= |JournalSteps(Backhaul, Prepare(site, s, Backhaul, stage).value)|
    ensures var cut := Replay(Act, s, UpTo(Activate(site, s, Backhaul, stage).steps, fuse));
            var t := Run(site, cut, events);
            && Stuck(t)
            && Activate(site, t, Backhaul, again).end.Fail? && Activate(site, t, Backhaul, again).steps == []
            && Rollback(t, Backhaul, identical, order).end.Fail? && Rollback(t, Backhaul, identical, order).steps == []
  {
    hide Prepare, Activate, Rollback, Replay, Act, Run, Between, ModesSafe;
    var cut := Replay(Act, s, UpTo(Activate(site, s, Backhaul, stage).steps, fuse));
    CutActivationRollsBack(site, s, Backhaul, stage, fuse, order);
    BetweenIsStuck(Prepare(site, s, Backhaul, stage).value, s, cut);
    StuckForGood(site, cut, events);
    StuckRefuses(site, Run(site, cut, events), again, identical, order);
  }

  lemma BetweenIsStuck(record: Record, origin: Lab, s: Lab)
    requires Between(Backhaul, record, origin, s) && !ModesSafe(origin.composeMode, origin.registryMode)
    ensures Stuck(s)
  {
  }

  // ---------------------------------------------------------------- what a whole activation does

  function Installed(binaries: map<Tool, Bytes>, engine: Engine, data: seq<Bytes>): map<Tool, Bytes>
    requires |data| == |Tools(engine)|
  {
    match engine
    case Backhaul => binaries[BackhaulTool := data[0]]
    case Frp => binaries[Frpc := data[0]][Frps := data[1]]
  }

  lemma BinariesReach(s: Lab, engine: Engine, data: seq<Bytes>)
    requires |data| == |Tools(engine)|
    ensures Replay(Act, s, BinarySteps(engine, data)) == s.(binaries := Installed(s.binaries, engine, data))
  {
    hide Replay;
    var steps := BinarySteps(engine, data);
    match engine
    case Backhaul => OneStep(s, steps);
    case Frp =>
      assert steps == [PutBinary(Frpc, data[0])] + [PutBinary(Frps, data[1])];
      ReplayJoin(Act, s, [PutBinary(Frpc, data[0])], [PutBinary(Frps, data[1])]);
      OneStep(s, [PutBinary(Frpc, data[0])]);
      OneStep(Act(s, PutBinary(Frpc, data[0])), [PutBinary(Frps, data[1])]);
  }

  function HomeMade(site: Site, s: Lab, engine: Engine): Option<bool> {
    if s.home.Some? then s.home else if engine == Backhaul then Some(true) else Some(site.strict)
  }

  lemma HomeReaches(site: Site, s: Lab, seen: Lab, engine: Engine)
    requires HomeSteps(site, seen, engine).Ok? && s.home == seen.home && s.frpHome == seen.frpHome
    ensures Replay(Act, s, HomeSteps(site, seen, engine).value) ==
            s.(home := HomeMade(site, seen, engine), frpHome := engine == Frp || seen.frpHome)
  {
    hide Replay;
    var home := if seen.home.None? then [MakeHome(if engine == Backhaul then true else site.strict)] else [];
    var frp := if engine == Frp then [MakeFrpHome] else [];
    assert HomeSteps(site, seen, engine).value == home + frp;
    ReplayJoin(Act, s, home, frp);
    OneStep(s, home);
    OneStep(Replay(Act, s, home), frp);
  }

  /** The node with everything but the registry written. */
  function Mounted(site: Site, s: Lab, engine: Engine, record: Record): Lab
    requires |record.binaries| == |Tools(engine)|
  {
    s.(compose := record.composeNew, composeMode := NewMode(engine, record),
       binaries := Installed(s.binaries, engine, record.binaries),
       journals := s.journals[engine := Journal(Some(record.composeOld), record.registryOld, Some(record))],
       home := HomeMade(site, s, engine), frpHome := engine == Frp || s.frpHome,
       registryHome := if s.registryHome.None? then Some(true) else s.registryHome)
  }

  lemma SharedReaches(s: Lab, seen: Lab, engine: Engine, record: Record)
    requires s.registryHome == seen.registryHome
    ensures var steps := SharedSteps(seen, engine, record);
            var t := s.(compose := record.composeNew, composeMode := NewMode(engine, record),
                        registryHome := if seen.registryHome.None? then Some(true) else seen.registryHome);
            && |steps| >= 1 && steps[|steps| - 1] == PutRegistry(record.registryNew, PRIVATE)
            && Replay(Act, s, steps[..|steps| - 1]) == t
            && (seen.registryHome.None? ==>
                  |steps| == 3 && Replay(Act, s, steps[..|steps| - 2]) == t.(registryHome := None))
  {
    hide Replay;
    var steps := SharedSteps(seen, engine, record);
    assert seen.registryHome.None? ==> steps[..1] == [PutCompose(record.composeNew, NewMode(engine, record))];
    var compose := [PutCompose(record.composeNew, NewMode(engine, record))];
    var home := if seen.registryHome.None? then [MakeRegistryHome] else [];
    assert steps[..|steps| - 1] == compose + home;
    ReplayJoin(Act, s, compose, home);
    OneStep(s, compose);
    OneStep(Replay(Act, s, compose), home);
  }

  /** What an activation leaves that is cut just before it writes the registry, or before it makes its directory, and
      what one leaves that is not cut. */
  lemma ActivationReaches(site: Site, s: Lab, engine: Engine, stage: Option<Stage>)
    requires Activate(site, s, engine, stage).end.Ok?
    ensures var record, steps := Prepare(site, s, engine, stage).value, Activate(site, s, engine, stage).steps;
            && Prepare(site, s, engine, stage).Ok? && |record.binaries| == |Tools(engine)| && |steps| >= 1
            && Replay(Act, s, steps[..|steps| - 1]) == Mounted(site, s, engine, record)
            && (s.registryHome.None? ==>
                  && |steps| >= 2
                  && Replay(Act, s, steps[..|steps| - 2]) == Mounted(site, s, engine, record).(registryHome := None))
            && Replay(Act, s, steps) ==
               Mounted(site, s, engine, record).(registry := Some(record.registryNew), registryMode := Some(PRIVATE))
  {
    hide Prepare, Replay, Act, JournalSteps, BinarySteps, SharedSteps, HomeSteps, HomeMade, Installed, NewMode;
    PreparedBinaries(site, s, engine, stage);
    var record, steps := Prepare(site, s, engine, stage).value, Activate(site, s, engine, stage).steps;
    var base, seen, shared := BaseSteps(site, s, engine, record), Based(site, s, engine, record),
        SharedSteps(s, engine, record);
    BaseReaches(site, s, engine, stage);
    assert steps == base + shared;
    SharedReaches(seen, s, engine, record);
    assert steps[..|steps| - 1] == base + shared[..|shared| - 1];
    ReplayJoin(Act, s, base, shared[..|shared| - 1]);
    if s.registryHome.None? {
      assert steps[..|steps| - 2] == base + shared[..|shared| - 2];
      ReplayJoin(Act, s, base, shared[..|shared| - 2]);
    }
    ReplayNext(Act, s, steps, |steps| - 1);
    assert steps[..|steps|] == steps;
    PutsRegistry(Mounted(site, s, engine, record), record.registryNew);
  }

  lemma PutsRegistry(s: Lab, registry: Registry)
    ensures Act(s, PutRegistry(registry, PRIVATE)) == s.(registry := Some(registry), registryMode := Some(PRIVATE))
  {
  }

  /** The journal, the directories and the binaries. */
  function BaseSteps(site: Site, s: Lab, engine: Engine, record: Record): seq<Op>
    requires |record.binaries| == |Tools(engine)| && HomeSteps(site, s, engine).Ok?
  {
    JournalSteps(engine, record) + HomeSteps(site, s, engine).value + BinarySteps(engine, record.binaries)
  }

  function Based(site: Site, s: Lab, engine: Engine, record: Record): Lab
    requires |record.binaries| == |Tools(engine)|
  {
    s.(binaries := Installed(s.binaries, engine, record.binaries),
       journals := s.journals[engine := Journal(Some(record.composeOld), record.registryOld, Some(record))],
       home := HomeMade(site, s, engine), frpHome := engine == Frp || s.frpHome)
  }

  lemma BaseReaches(site: Site, s: Lab, engine: Engine, stage: Option<Stage>)
    requires Activate(site, s, engine, stage).end.Ok?
    ensures var record := Prepare(site, s, engine, stage).value;
            && Prepare(site, s, engine, stage).Ok? && HomeSteps(site, s, engine).Ok?
            && |record.binaries| == |Tools(engine)|
            && Activate(site, s, engine, stage).steps == BaseSteps(site, s, engine, record) +
                SharedSteps(s, engine, record)
            && Replay(Act, s, BaseSteps(site, s, engine, record)) == Based(site, s, engine, record)
  {
    hide Prepare, Replay, Act, JournalSteps, BinarySteps, SharedSteps, HomeSteps, HomeMade, Installed, RecordOf,
         Between, Housed;
    PreparedRecord(site, s, engine, stage);
    PreparedBinaries(site, s, engine, stage);
    var record := Prepare(site, s, engine, stage).value;
    var journal, homes := JournalSteps(engine, record), HomeSteps(site, s, engine).value;
    var binaries := BinarySteps(engine, record.binaries);
    JournalWritten(engine, record, s);
    var s1 := Replay(Act, s, journal);
    HomeReaches(site, s1, s, engine);
    var s2 := Replay(Act, s1, homes);
    BinariesReach(s2, engine, record.binaries);
    ReplayJoin(Act, s, journal + homes, binaries);
    ReplayJoin(Act, s, journal, homes);
  }

  /** Declared, and each of its tools mounted by exactly one line, from a file with the declared content. */
  predicate Settled(site: Site, s: Lab, engine: Engine) {
    && Known(engine) in Enrolled(s) && |Enrolled(s)[Known(engine)]| == |Tools(engine)|
    && forall i :: 0 <= i < |Tools(engine)| ==> MountedOnce(site, s, Tools(engine)[i], Enrolled(s)[Known(engine)][i])
  }

  /** An activation succeeds exactly if it is prepared and the directory of the binaries does not stop it: Backhaul
      needs it to be private if it is there, FRP needs its own not to be there.  Then, if it is not cut, it leaves its
      engine settled; and an FRP that was absent, bundled or settled under Backhaul is so still. */
  lemma {:induction false} ActivationSettles(site: Site, s: Lab, engine: Engine, stage: Option<Stage>)
    ensures Activate(site, s, engine, stage).end.Ok? <==>
            && Prepare(site, s, engine, stage).Ok? && (engine == Backhaul ==> s.home != Some(false))
            && (engine == Frp ==> !s.frpHome)
    ensures Activate(site, s, engine, stage).end.Ok? ==>
              var t := Replay(Act, s, Activate(site, s, engine, stage).steps);
              Settled(site, t, engine) && (engine == Backhaul ==> FrpSettled(site, t))
  {
    hide Replay, JournalSteps, BinarySteps, SharedSteps, Settled, FrpSettled;
    if Activate(site, s, engine, stage).end.Ok? {
      ActivationReaches(site, s, engine, stage);
      MountedIsSettled(site, s, engine, stage);
    }
  }

  lemma MountedIsSettled(site: Site, s: Lab, engine: Engine, stage: Option<Stage>)
    requires Prepare(site, s, engine, stage).Ok?
    ensures var record := Prepare(site, s, engine, stage).value;
            && |record.binaries| == |Tools(engine)|
            && var t := Mounted(site, s, engine, record).(registry := Some(record.registryNew), registryMode :=
                Some(PRIVATE));
               Settled(site, t, engine) && (engine == Backhaul ==> FrpSettled(site, t))
  {
    hide Inserted, MountsFor, HomeMade;
    var own := OwnMounts(site, engine);
    forall tool | tool in Tools(engine)
      ensures MountsFor(Inserted(s.compose, own), [tool]) == [Mount(tool, site.home(tool))]
    {
      InsertedMounts(s.compose, own, [tool]);
      OwnMountsOnce(site, engine, tool);
    }
    forall tool | tool !in Tools(engine)
        ensures MountsFor(Inserted(s.compose, own), [tool]) == MountsFor(s.compose, [tool]) {
      InsertedMounts(s.compose, own, [tool]);
      OwnMountsOnce(site, engine, tool);
    }
  }

  lemma OwnMountsOnce(site: Site, engine: Engine, tool: Tool)
    ensures MountsFor(OwnMounts(site, engine), [tool]) == if tool in Tools(engine) then [Mount(tool, site.home(tool))]
            else []
  {
    var own := OwnMounts(site, engine);
    match engine
    case Backhaul => assert own[1..] == [];
    case Frp =>
      assert own == [own[0]] + [own[1]];
      MountsJoin([own[0]], [own[1]], [tool]);
      assert [own[0]][1..] == [] && [own[1]][1..] == [];
  }

  /** Backhaul over an FRP that has made the directory of the binaries itself: the activation, once prepared, succeeds
      exactly if directories made with default permissions are private.  Otherwise it stops with nothing but its
      journal written. */
  lemma {:induction false} BackhaulOverFrpExactlyWhen(site: Site, s: Lab, frp: Option<Stage>, backhaul: Option<Stage>)
    requires s.home.None? && Activate(site, s, Frp, frp).end.Ok?
    ensures var t := Replay(Act, s, Activate(site, s, Frp, frp).steps);
            var prepared, a := Prepare(site, t, Backhaul, backhaul), Activate(site, t, Backhaul, backhaul);
            prepared.Ok? ==>
              && (a.end.Ok? <==> site.strict)
              && (a.end.Fail? ==> a.steps == JournalSteps(Backhaul, prepared.value))
  {
    hide Replay, Prepare, JournalSteps, BinarySteps, SharedSteps;
    ActivationReaches(site, s, Frp, frp);
    var t := Replay(Act, s, Activate(site, s, Frp, frp).steps);
    PreparedBinaries(site, t, Backhaul, backhaul);
  }
}
