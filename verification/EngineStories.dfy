/** Concrete runs of the two engines that meet the conditions of the theorems. */
module EngineStories {
  import opened Durable
  import opened Engines
  import opened EngineRuns

  function PathOf(tool: Tool): string {
    match tool
    case BackhaulTool => ['b']
    case Frpc => ['c']
    case Frps => ['s']
  }

  /** Default permissions are not private here, as is usual. */
  const PLAIN: Site := Site(_ => true, true, PathOf, false, _ => None)
  const BARE: Compose := [Anchor]
  const MOUNTED: Compose := [Anchor, Mount(Frpc, ['c']), Mount(Frps, ['s'])]
  const FRP_ONLY: Registry := Registry(map[Known(Frp) := [[1], [2]]], [])
  const BOTH: Registry := Registry(map[Known(Frp) := [[1], [2]], Known(Backhaul) := [[3]]], [])
  const NODE: Lab := Lab(BARE, PRIVATE, None, None, map[], map[], None, None, false, false)
  const FRP_STAGE: Option<Stage> := Some(Stage(FRP_ONLY, [[1], [2]], BARE))
  const BACKHAUL_STAGE: Option<Stage> := Some(Stage(BOTH, [[3]], MOUNTED))
  const FRP_RECORD: Record := Record(BARE, MOUNTED, None, FRP_ONLY, [[1], [2]], PRIVATE, None)
  const FRP_JOURNAL: Journal := Journal(Some(BARE), None, Some(FRP_RECORD))

  /** A node with FRP, whose registry may still have to be written. */
  function FrpNode(journals: map<Engine, Journal>, registry: Option<Registry>): Lab {
    Lab(MOUNTED, PRIVATE, registry, if registry.Some? then Some(PRIVATE) else None, map[Frpc := [1], Frps := [2]],
        journals,
        Some(true), Some(false), true, false)
  }

  lemma FrpPrepares(journals: map<Engine, Journal>)
    requires Frp !in journals
    ensures Prepare(PLAIN, NODE.(journals := journals), Frp, FRP_STAGE) == Ok(FRP_RECORD)
  {
    assert Inserted(BARE, OwnMounts(PLAIN, Frp)) == MOUNTED;
  }

  lemma MountedLines()
    ensures MountsFor(MOUNTED, [Frpc]) == [Mount(Frpc, ['c'])] && MountsFor(MOUNTED, [Frps]) == [Mount(Frps, ['s'])]
    ensures MountsFor(MOUNTED, [BackhaulTool]) == []
  {
    forall tool: Tool ensures MountsFor(MOUNTED, [tool]) ==
                              (if Frpc == tool then [Mount(Frpc, ['c'])] else []) +
                              (if Frps == tool then [Mount(Frps, ['s'])] else []) {
      hide MountsFor;
      assert MOUNTED == [Anchor] + ([Mount(Frpc, ['c'])] + ([Mount(Frps, ['s'])] + []));
      MountsFirst(Anchor, [Mount(Frpc, ['c'])] + ([Mount(Frps, ['s'])] + []), [tool]);
      MountsFirst(Mount(Frpc, ['c']), [Mount(Frps, ['s'])] + [], [tool]);
      MountsFirst(Mount(Frps, ['s']), [], [tool]);
      NoMounts([tool]);
    }
  }

  lemma BackhaulPrepares(journals: map<Engine, Journal>)
    requires Backhaul !in journals
    ensures var prepared := Prepare(PLAIN, FrpNode(journals, Some(FRP_ONLY)), Backhaul, BACKHAUL_STAGE);
            prepared.Ok? && prepared.value.composeOld == MOUNTED && prepared.value.registryOld == Some(FRP_ONLY)
            && prepared.value.composeMode == PRIVATE && prepared.value.registryMode == Some(PRIVATE)
            && |prepared.value.binaries| == 1
  {
    var s := FrpNode(journals, Some(FRP_ONLY));
    MountedLines();
    hide MountsFor;
    assert MountedOnce(PLAIN, s, Frpc, [1]) && MountedOnce(PLAIN, s, Frps, [2]);
    assert BOTH.engines == Enrolled(s)[Known(Backhaul) := [[3]]];
  }

  lemma RunNext(site: Site, s: Lab, events: seq<Event>, event: Event)
    ensures Run(site, s, events + [event]) ==
            Replay(Act, Run(site, s, events), Steps(site, Run(site, s, events), event))
  {
    assert (events + [event])[..|events|] == events;
  }

  /** FRP is enrolled from nothing, the journal of Backhaul being there or not. */
  lemma FrpEnrolls(journals: map<Engine, Journal>)
    requires Frp !in journals
    ensures var s := NODE.(journals := journals);
            var steps := Activate(PLAIN, s, Frp, FRP_STAGE).steps;
            && |steps| >= 2
            && Replay(Act, s, steps[..|steps| - 2]) ==
                FrpNode(journals[Frp := FRP_JOURNAL], None).(registryHome := None)
            && Replay(Act, s, steps[..|steps| - 1]) == FrpNode(journals[Frp := FRP_JOURNAL], None)
            && Replay(Act, s, steps) == FrpNode(journals[Frp := FRP_JOURNAL], Some(FRP_ONLY))
  {
    hide Prepare, Replay, JournalSteps, BinarySteps, SharedSteps;
    FrpPrepares(journals);
    ActivationReaches(PLAIN, NODE.(journals := journals), Frp, FRP_STAGE);
  }

  /** FRP is rolled back, the journal of Backhaul being there or not. */
  lemma FrpWithdraws(journals: map<Engine, Journal>)
    requires Frp in journals && journals[Frp] == FRP_JOURNAL
    ensures var s := FrpNode(journals, Some(FRP_ONLY));
            Replay(Act, s, Rollback(s, Frp, true, []).steps) == NODE.(journals := journals - {Frp})
  {
    hide Replay, RollbackSteps, RestoreSteps;
    var s := FrpNode(journals, Some(FRP_ONLY));
    assert s.compose == FRP_RECORD.composeNew;
    assert Examine(s, Frp, true) == Ok(FRP_RECORD);
    RollbackReaches(s, Frp, true, []);
    RestoreReaches(s, FRP_RECORD);
    assert Minus(s.binaries, Tools(Frp)) == map[];
  }

  /** Backhaul, on a node with FRP enrolled, writes its journal and is cut. */
  lemma BackhaulIsCut() returns (event: Event, record: Record)
    ensures var s := FrpNode(map[Frp := FRP_JOURNAL], Some(FRP_ONLY));
            Replay(Act, s, Steps(PLAIN, s, event)) ==
            s.(journals := s.journals[Backhaul := Journal(Some(MOUNTED), Some(FRP_ONLY), Some(record))])
    ensures record.composeOld == MOUNTED && record.registryOld == Some(FRP_ONLY) && |record.binaries| == 1
    ensures record.composeMode == PRIVATE && record.registryMode == Some(PRIVATE)
  {
    hide Replay, Prepare, Act, JournalSteps, Fill;
    var s := FrpNode(map[Frp := FRP_JOURNAL], Some(FRP_ONLY));
    BackhaulPrepares(s.journals);
    record := Prepare(PLAIN, s, Backhaul, BACKHAUL_STAGE).value;
    event := ActivateCall(Backhaul, BACKHAUL_STAGE, |JournalSteps(Backhaul, record)|);
    CutAfterJournal(s, record);
  }

  /** FRP is enrolled; a Backhaul activation is cut after its journal; FRP is rolled back. */
  lemma Prologue() returns (events: seq<Event>, record: Record)
    ensures Run(PLAIN, NODE, events) ==
            NODE.(journals := map[Backhaul := Journal(Some(MOUNTED), Some(FRP_ONLY), Some(record))])
    ensures record.composeOld == MOUNTED && record.registryOld == Some(FRP_ONLY) && |record.binaries| == 1
    ensures record.composeMode == PRIVATE && record.registryMode == Some(PRIVATE)
  {
    hide Replay, Activate, Rollback, Act, Run;
    assert Run(PLAIN, NODE, []) == NODE by { NoEvents(); }
    FrpEnrolls(map[]);
    assert NODE.(journals := map[]) == NODE;
    var e1 := ActivateCall(Frp, FRP_STAGE, |Activate(PLAIN, NODE, Frp, FRP_STAGE).steps|);
    RunNext(PLAIN, NODE, [], e1);
    var e2;
    e2, record := BackhaulIsCut();
    RunNext(PLAIN, NODE, [] + [e1], e2);
    var journals := map[Frp := FRP_JOURNAL][Backhaul := Journal(Some(MOUNTED), Some(FRP_ONLY), Some(record))];
    FrpWithdraws(journals);
    var e3 := RollbackCall(Frp, true, [], |Rollback(FrpNode(journals, Some(FRP_ONLY)), Frp, true, []).steps|);
    RunNext(PLAIN, NODE, [] + [e1] + [e2], e3);
    events := [] + [e1] + [e2] + [e3];
    assert journals - {Frp} == map[Backhaul := Journal(Some(MOUNTED), Some(FRP_ONLY), Some(record))];
  }

  /** FRP is enrolled again after that, cut just before it writes the registry, or already before it makes the directory
      for it. */
  lemma Story(made: bool) returns (events: seq<Event>, record: Record)
    ensures Run(PLAIN, NODE, events) ==
            FrpNode(map[Backhaul := Journal(Some(MOUNTED), Some(FRP_ONLY), Some(record)), Frp := FRP_JOURNAL], None)
            .(registryHome := if made then Some(true) else None)
    ensures record.composeOld == MOUNTED && record.registryOld == Some(FRP_ONLY) && |record.binaries| == 1
    ensures record.composeMode == PRIVATE && record.registryMode == Some(PRIVATE)
  {
    hide Replay, Activate, Rollback, Act, Run;
    var before;
    before, record := Prologue();
    var journals := map[Backhaul := Journal(Some(MOUNTED), Some(FRP_ONLY), Some(record))];
    FrpEnrolls(journals);
    var steps := Activate(PLAIN, NODE.(journals := journals), Frp, FRP_STAGE).steps;
    var event := ActivateCall(Frp, FRP_STAGE, |steps| - if made then 1 else 2);
    RunNext(PLAIN, NODE, before, event);
    events := before + [event];
    assert journals[Frp := FRP_JOURNAL] == map[Backhaul := journals[Backhaul], Frp := FRP_JOURNAL];
  }

  lemma NoEvents()
    ensures Run(PLAIN, NODE, []) == NODE
  {
  }

  /** The condition can be met: after the story, Backhaul's rollback succeeds and declares an FRP that was not
      declared. */
  lemma {:induction false} BackhaulCanResurrectFrp() returns (events: seq<Event>)
    ensures var s := Run(PLAIN, NODE, events);
            var a := Rollback(s, Backhaul, true, []);
            && a.end.Ok? && Pinned(s.registry, Frp).None?
            && Pinned(Replay(Act, s, a.steps).registry, Frp).Some?
  {
    hide Replay, RollbackSteps, RestoreSteps, Act, Run;
    var record;
    events, record := Story(true);
    var s := Run(PLAIN, NODE, events);
    assert s.compose == record.composeOld;
    assert Examine(s, Backhaul, true) == Ok(record);
    RollbackReaches(s, Backhaul, true, []);
    RestoreReaches(s, record);
  }

  /** After the same story, but for the directory, Backhaul's rollback cannot write the registry and keeps its
      journal. */
  lemma {:induction false} BackhaulCanBeStranded() returns (events: seq<Event>)
    ensures var s := Run(PLAIN, NODE, events);
            var a := Rollback(s, Backhaul, true, []);
            && Backhaul in s.journals && s.journals[Backhaul].record.Some?
            && Stranded(s, s.journals[Backhaul].record.value)
            && a == Attempt([], Fail(Hold(EngineDirectoryUntrusted)))
  {
    hide Replay, RollbackSteps, RestoreSteps, Act, Run;
    var record;
    events, record := Story(false);
    var s := Run(PLAIN, NODE, events);
    assert s.compose == record.composeOld;
    assert Examine(s, Backhaul, true) == Ok(record);
  }

  lemma CutAfterJournal(s: Lab, record: Record)
    requires Prepare(PLAIN, s, Backhaul, BACKHAUL_STAGE) == Ok(record) && |record.binaries| == 1
    ensures Replay(Act, s, UpTo(Activate(PLAIN, s, Backhaul, BACKHAUL_STAGE).steps,
            |JournalSteps(Backhaul, record)|)) ==
            s.(journals := s.journals[Backhaul := Journal(Some(record.composeOld), record.registryOld, Some(record))])
  {
    hide Prepare, Replay, Between, JournalSteps, Fill;
    PreparedRecord(PLAIN, s, Backhaul, BACKHAUL_STAGE);
    JournalWritten(Backhaul, record, s);
    assert UpTo(Activate(PLAIN, s, Backhaul, BACKHAUL_STAGE).steps, |JournalSteps(Backhaul, record)|) ==
           JournalSteps(Backhaul, record);
  }

  // ---------------------------------------------------------------- modes that cannot be put back

  const EMPTY: Registry := Registry(map[], [])
  const ONLY_BACKHAUL: Registry := Registry(map[Known(Backhaul) := [[3]]], [])

  /** A node without engines, whose Compose file and registry have these modes. */
  function ModedNode(composeMode: Mode, registryMode: Option<Mode>): Lab {
    Lab(BARE, composeMode, if registryMode.Some? then Some(EMPTY) else None, registryMode, map[], map[],
        if registryMode.Some? then Some(true) else None, None, false, false)
  }

  /** For every mode of the Compose file and every owner's mode of the registry: Backhaul is activated on such a node,
      and its rollback is refused exactly if one of the two cannot be put back.  So it is, for instance, for a Compose
      file of mode 0664, and for a registry of mode 0400. */
  lemma {:induction false} EveryModeIsActivated(composeMode: Mode, registryMode: Option<Mode>)
    requires registryMode.Some? ==> registryMode.value in OWNER_MODES
    ensures var s := ModedNode(composeMode, registryMode);
            var a := Activate(PLAIN, s, Backhaul, Some(Stage(ONLY_BACKHAUL, [[3]], BARE)));
            var t := Replay(Act, s, a.steps);
            && a.end.Ok? && Settled(PLAIN, t, Backhaul)
            && (Rollback(t, Backhaul, true, []).end.Ok? <==> ModesSafe(composeMode, registryMode))
    ensures !ModesSafe(0x1B4, None) && !ModesSafe(PRIVATE, Some(0x100)) && 0x100 in OWNER_MODES
  {
    var s, stage := ModedNode(composeMode, registryMode), Some(Stage(ONLY_BACKHAUL, [[3]], BARE));
    ModedPrepares(composeMode, registryMode);
    assert s.home.None?;
    hide ModedNode;
    var steps := Activate(PLAIN, s, Backhaul, stage).steps;
    JournalIsFirst(PLAIN, s, stage);
    hide Prepare, Replay, Between, Rollback, JournalSteps, Settled, Activate, ModesSafe, FrpSettled, SameFiles,
         KeepsHomes;
    ActivationSettles(PLAIN, s, Backhaul, stage);
    CutActivationRollsBack(PLAIN, s, Backhaul, stage, |steps|, []);
    assert UpTo(steps, |steps|) == steps;
    UnsafeModes();
  }

  lemma UnsafeModes()
    ensures !ModesSafe(0x1B4, None) && !ModesSafe(PRIVATE, Some(0x100)) && 0x100 in OWNER_MODES
  {
  }

  lemma JournalIsFirst(site: Site, s: Lab, stage: Option<Stage>)
    requires Prepare(site, s, Backhaul, stage).Ok?
    ensures |Activate(site, s, Backhaul, stage).steps| >= |JournalSteps(Backhaul,
            Prepare(site, s, Backhaul, stage).value)|
  {
    hide Prepare, JournalSteps, Fill;
    PreparedBinaries(site, s, Backhaul, stage);
  }

  lemma ModedPrepares(composeMode: Mode, registryMode: Option<Mode>)
    requires registryMode.Some? ==> registryMode.value in OWNER_MODES
    ensures Prepare(PLAIN, ModedNode(composeMode, registryMode), Backhaul, Some(Stage(ONLY_BACKHAUL, [[3]], BARE))).Ok?
    ensures Housed(ModedNode(composeMode, registryMode))
  {
    var s := ModedNode(composeMode, registryMode);
    assert Enrolled(s) == map[];
    forall tools ensures MountsFor(BARE, tools) == [] {
      assert BARE[1..] == [];
    }
  }
}
