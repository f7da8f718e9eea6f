/** Exactly when an engine is activated and rolled back, on any node at all, and what is left; stated on the node and
    the candidate alone. */
module EngineOutcomes {
  import opened Durable
  import opened Engines
  import opened EngineRuns

  predicate Declares(registry: Option<Registry>, engine: Engine) {
    registry.Some? && Known(engine) in registry.value.engines
  }

  /** The lines that an activation inserts. */
  function OwnLines(site: Site, engine: Engine): Compose {
    match engine
    case Backhaul => [Mount(BackhaulTool, site.home(BackhaulTool))]
    case Frp => [Mount(Frpc, site.home(Frpc)), Mount(Frps, site.home(Frps))]
  }

  predicate AbsentTool(s: Lab, tool: Tool) {
    tool !in s.binaries && forall i :: 0 <= i < |s.compose| ==> !(s.compose[i].Mount? && s.compose[i].tool == tool)
  }

  /** The path has this content; the tool's own path has it if the tool's binary is there and is this. */
  predicate Shows(site: Site, s: Lab, tool: Tool, source: string, data: Bytes) {
    if source == site.home(tool) then tool in s.binaries && s.binaries[tool] == data
    else site.elsewhere(source) == Some(data)
  }

  /** FRP is either not declared and not mounted, or declared and bundled, or declared and mounted in full. */
  predicate FrpIsWhole(site: Site, s: Lab) {
    var client, server := MountsFor(s.compose, [Frpc]), MountsFor(s.compose, [Frps]);
    if !Declares(s.registry, Frp) then client == [] && server == []
    else
      var pinned := s.registry.value.engines[Known(Frp)];
      && |pinned| == 2
      && if client == [] && server == [] then site.bundled
         else
           && |client| == 1 && client[0].Mount? && Shows(site, s, Frpc, client[0].source, pinned[0])
           && |server| == 1 && server[0].Mount? && Shows(site, s, Frps, server[0].source, pinned[1])
  }

  /** The node is ready for Backhaul with this candidate. */
  predicate BackhaulFits(site: Site, s: Lab, stage: Stage) {
    && !s.pairPending && Backhaul !in s.journals
    && |stage.binaries| == 1 && stage.compose == s.compose && site.shaped(s.compose) && Anchor in s.compose
    && s.registryHome != Some(false) && (s.registryMode.Some? ==> s.registryMode.value in {0x180, 0x100, 0x080, 0})
    && !Declares(s.registry, Backhaul) && AbsentTool(s, BackhaulTool) && FrpIsWhole(site, s)
    && stage.registry.engines ==
       (if s.registry.Some? then s.registry.value.engines else map[])[Known(Backhaul) := stage.binaries]
    && s.home != Some(false)
  }

  /** The node is ready for FRP with this candidate. */
  predicate FrpFits(site: Site, s: Lab, stage: Stage) {
    && Frp !in s.journals
    && |stage.binaries| == 2 && stage.compose == s.compose && site.shaped(s.compose)
    && Anchor in s.compose && (forall i, j :: 0 <= i < j < |s.compose| ==>
        s.compose[i] != Anchor || s.compose[j] != Anchor)
    && s.registryHome != Some(false) && (s.registryMode.Some? ==> s.registryMode.value == 0x180)
    && s.composeMode in {0x180, 0x1A0, 0x1A4}
    && !Declares(s.registry, Frp) && AbsentTool(s, Frpc) && AbsentTool(s, Frps)
    && (MountsFor(s.compose, [BackhaulTool]) != [] ==> Declares(s.registry, Backhaul))
    && stage.registry.engines ==
       (if s.registry.Some? then s.registry.value.engines else map[])[Known(Frp) := stage.binaries]
    && !s.frpHome
  }

  lemma {:induction false} MountsIndexed(compose: Compose, tool: Tool)
    ensures MountsFor(compose, [tool]) == [] <==>
            forall i :: 0 <= i < |compose| ==> !(compose[i].Mount? && compose[i].tool == tool)
    decreases compose
  {
    if compose != [] {
      MountsIndexed(compose[1..], tool);
      if MountsFor(compose, [tool]) == [] {
        forall i | 0 <= i < |compose| ensures !(compose[i].Mount? && compose[i].tool == tool) {
          assert i > 0 ==> compose[i] == compose[1..][i - 1];
        }
      }
    }
  }

  lemma AbsentExactly(s: Lab, tool: Tool)
    ensures AbsentTool(s, tool) <==> !Mounts(s.compose, tool) && tool !in s.binaries
  {
    hide MountsFor;
    MountsIndexed(s.compose, tool);
  }

  lemma WholeExactly(site: Site, s: Lab)
    ensures FrpIsWhole(site, s) <==> FrpSettled(site, s)
  {
    hide MountsFor;
  }

  lemma BackhaulReady(site: Site, s: Lab, stage: Option<Stage>)
    ensures Activate(site, s, Backhaul, stage).end.Ok? <==> stage.Some? && BackhaulFits(site, s, stage.value)
  {
    hide JournalSteps, BinarySteps, SharedSteps, MountsFor, Inserted, OwnMounts, FileAt, FrpIsWhole, FrpSettled,
         AbsentTool, Mounts, ModesSafe;
    AbsentExactly(s, BackhaulTool);
    WholeExactly(site, s);
    assert Tools(Backhaul) == [BackhaulTool];
    assert CoreReady(site, s, Backhaul) <==>
             && site.shaped(s.compose) && s.registryHome != Some(false)
             && (s.registryMode.Some? ==> s.registryMode.value in OWNER_MODES)
             && !Declares(s.registry, Backhaul) && AbsentTool(s, BackhaulTool) && FrpIsWhole(site, s)
             && Anchor in s.compose;
    hide CoreReady;
  }

  lemma FrpReady(site: Site, s: Lab, stage: Option<Stage>)
    ensures Activate(site, s, Frp, stage).end.Ok? <==> stage.Some? && FrpFits(site, s, stage.value)
  {
    hide JournalSteps, BinarySteps, SharedSteps, MountsFor, Inserted, OwnMounts, FileAt, AbsentTool, Mounts;
    AbsentExactly(s, Frpc);
    AbsentExactly(s, Frps);
    BackhaulMounted(s);
    assert Tools(Frp) == [Frpc, Frps];
    assert CoreReady(site, s, Frp) <==>
             && site.shaped(s.compose) && s.registryHome != Some(false)
             && (s.registryMode.Some? ==> s.registryMode.value in OWNER_MODES)
             && !Declares(s.registry, Frp) && AbsentTool(s, Frpc) && AbsentTool(s, Frps)
             && (MountsFor(s.compose, [BackhaulTool]) != [] ==> Declares(s.registry, Backhaul))
             && AnchoredOnce(s.compose);
    hide CoreReady;
  }

  lemma BackhaulMounted(s: Lab)
    ensures Mounts(s.compose, BackhaulTool) <==> MountsFor(s.compose, [BackhaulTool]) != []
  {
  }

  /** The Compose file with these lines behind its first anchor, and nothing else changed. */
  ghost predicate AddsBehindAnchor(before: Compose, after: Compose, lines: Compose) {
    exists a, b :: AddsAt(before, after, lines, a, b)
  }

  predicate AddsAt(before: Compose, after: Compose, lines: Compose, a: Compose, b: Compose) {
    Anchor !in a && before == a + [Anchor] + b && after == a + [Anchor] + lines + b
  }

  lemma {:induction false} InsertedAdds(compose: Compose, lines: Compose) returns (a: Compose, b: Compose)
    requires Anchor in compose
    ensures AddsAt(compose, Inserted(compose, lines), lines, a, b)
    decreases compose
  {
    if compose[0] == Anchor {
      a, b := [], compose[1..];
      assert compose == a + [Anchor] + b;
      assert Inserted(compose, lines) == a + [Anchor] + lines + b;
    } else {
      assert compose == [compose[0]] + compose[1..];
      var c;
      c, b := InsertedAdds(compose[1..], lines);
      a := [compose[0]] + c;
      AddsLater(compose[0], compose[1..], Inserted(compose[1..], lines), lines, c, b);
    }
  }

  lemma AddsLater(line: Line, before: Compose, after: Compose, lines: Compose, a: Compose, b: Compose)
    requires line != Anchor && AddsAt(before, after, lines, a, b)
    ensures AddsAt([line] + before, [line] + after, lines, [line] + a, b)
  {
    assert [line] + (a + [Anchor] + b) == ([line] + a) + [Anchor] + b;
    assert [line] + (a + [Anchor] + lines + b) == ([line] + a) + [Anchor] + lines + b;
  }

  /** The binaries with those of a candidate. */
  function WithBinaries(binaries: map<Tool, Bytes>, engine: Engine, stage: Stage): map<Tool, Bytes>
    requires |stage.binaries| == if engine == Backhaul then 1 else 2
  {
    if engine == Backhaul then binaries[BackhaulTool := stage.binaries[0]]
    else binaries[Frpc := stage.binaries[0]][Frps := stage.binaries[1]]
  }

  /** An activation that is not cut succeeds exactly on a node that fits.  Then its own lines stand behind the first
      anchor of the Compose file, each from the place where its binary was written, in its mode or a private one; its
      binaries and the candidate's registry are there; and its journal has the files as they were.  Nothing else has
      changed but directories. */
  lemma {:induction false} ActivatesExactlyWhen(site: Site, s: Lab, engine: Engine, stage: Option<Stage>)
    ensures var a := Activate(site, s, engine, stage);
            && (a.end.Ok? <==>
                  stage.Some? && if engine == Backhaul then BackhaulFits(site, s, stage.value)
                      else FrpFits(site, s, stage.value))
            && (a.end.Ok? ==>
                  var t := Replay(Act, s, a.steps);
                  && |stage.value.binaries| == (if engine == Backhaul then 1 else 2)
                  && AddsBehindAnchor(s.compose, t.compose, OwnLines(site, engine))
                  && (forall tool :: tool in (if engine == Backhaul then {BackhaulTool} else {Frpc, Frps}) ==>
                        MountsFor(t.compose, [tool]) == [Mount(tool, site.home(tool))])
                  && t.binaries == WithBinaries(s.binaries, engine, stage.value)
                  && t.registry == Some(stage.value.registry) && t.registryMode == Some(0x180)
                  && t.composeMode == (if engine == Backhaul then 0x180 else s.composeMode)
                  && t.journals == s.journals[engine := Journal(Some(s.compose), s.registry,
                       Some(Record(s.compose, t.compose, s.registry, stage.value.registry, stage.value.binaries,
                                   s.composeMode, s.registryMode)))]
                  && t.pairPending == s.pairPending)
  {
    hide JournalSteps, BinarySteps, SharedSteps, MountsFor, Inserted, FileAt, BackhaulFits, FrpFits, Replay, HomeMade,
         CoreReady;
    BackhaulReady(site, s, stage);
    FrpReady(site, s, stage);
    if Activate(site, s, engine, stage).end.Ok? {
      ActivationReaches(site, s, engine, stage);
      FitsHasAnchor(site, s, engine, stage.value);
      var before, after := InsertedAdds(s.compose, OwnMounts(site, engine));
      forall tool | tool in Tools(engine)
        ensures MountsFor(Inserted(s.compose, OwnMounts(site, engine)), [tool]) == [Mount(tool, site.home(tool))]
      {
        InsertedMounts(s.compose, OwnMounts(site, engine), [tool]);
        OwnMountsOnce(site, engine, tool);
      }
    }
  }

  lemma FitsHasAnchor(site: Site, s: Lab, engine: Engine, stage: Stage)
    requires if engine == Backhaul then BackhaulFits(site, s, stage) else FrpFits(site, s, stage)
    ensures Anchor in s.compose && |stage.binaries| == |Tools(engine)|
    ensures forall tool :: tool in Tools(engine) ==> MountsFor(s.compose, [tool]) == []
  {
    hide MountsFor, FrpIsWhole;
    forall tool | tool in Tools(engine) ensures MountsFor(s.compose, [tool]) == [] {
      MountsIndexed(s.compose, tool);
    }
  }

  // ---------------------------------------------------------------- rollback

  /** The journal is complete and explains the node: each shared file is its old or its new version, each binary that
      is there is the recorded one.  Only Backhaul takes a missing registry for one that is to be written again. */
  predicate Explains(s: Lab, engine: Engine, record: Record) {
    && engine in s.journals
    && s.journals[engine].record == Some(record) && s.journals[engine].compose == Some(record.composeOld)
    && (record.registryOld.Some? ==> s.journals[engine].registry == record.registryOld)
    && |record.binaries| == (if engine == Backhaul then 1 else 2)
    && (s.compose == record.composeOld || s.compose == record.composeNew)
    && (s.registry == Some(record.registryNew) || s.registry == record.registryOld
        || (s.registry.None? && engine == Backhaul))
    && (engine == Backhaul ==> BackhaulTool !in s.binaries || s.binaries[BackhaulTool] == record.binaries[0])
    && (engine == Frp ==>
          && (Frpc !in s.binaries || s.binaries[Frpc] == record.binaries[0])
          && (Frps !in s.binaries || s.binaries[Frps] == record.binaries[1]))
  }

  predicate ModesKnown(record: Record) {
    record.composeMode in {0x180, 0x1A0, 0x1A4} && (record.registryMode.None? || record.registryMode == Some(0x180))
  }

  /** The registry has to be written again, and there is a directory for it. */
  predicate CanWriteRegistry(s: Lab, record: Record) {
    s.registry == record.registryOld || record.registryOld.None? || s.registryHome.Some?
  }

  lemma ExaminedExactly(s: Lab, engine: Engine, identical: bool, record: Record)
    ensures Examine(s, engine, identical) == Ok(record) <==>
            Explains(s, engine, record) && ModesKnown(record)
                && (if engine == Backhaul then !s.pairPending else identical)
  {
    assert Tools(Backhaul) == [BackhaulTool] && Tools(Frp) == [Frpc, Frps];
    var recorded := engine in s.journals && s.journals[engine].record == Some(record)
        && |record.binaries| == |Tools(engine)|;
    if recorded {
      assert (exists i :: 0 <= i < |record.binaries| && Tools(engine)[i] in s.binaries
                          && s.binaries[Tools(engine)[i]] != record.binaries[i]) <==>
             (Tools(engine)[0] in s.binaries && s.binaries[Tools(engine)[0]] != record.binaries[0])
             || (engine == Frp && Frps in s.binaries && s.binaries[Frps] != record.binaries[1]);
    }
  }

  /** A rollback that is not cut succeeds exactly if the journal explains the node, with modes that can be put back,
      no pair transaction beside Backhaul's, the node's identity unchanged for FRP, and a place for the registry.
      Then Compose file, registry and modes are as recorded, the engine's binaries and journal are gone, and nothing
      else has changed but directories.  So neither rollback overwrites or removes a file that is neither the old nor
      the new version. */
  lemma {:induction false} RollsBackExactlyWhen(s: Lab, engine: Engine, identical: bool, order: seq<Part>)
    ensures var a := Rollback(s, engine, identical, order);
            && (a.end.Ok? <==>
                  && (if engine == Backhaul then !s.pairPending else identical)
                  && engine in s.journals && s.journals[engine].record.Some?
                  && var record := s.journals[engine].record.value;
                     Explains(s, engine, record) && ModesKnown(record) && CanWriteRegistry(s, record))
            && (a.end.Ok? ==>
                  var record, t := s.journals[engine].record.value, Replay(Act, s, a.steps);
                  && t.compose == record.composeOld && t.registry == record.registryOld
                  && t.composeMode == (if s.compose == record.composeOld then s.composeMode else record.composeMode)
                  && t.registryMode == (if s.registry == record.registryOld then s.registryMode
                                        else if record.registryOld.None? then None else Some(0x180))
                  && t.journals == s.journals - {engine}
                  && t.binaries == (if engine == Backhaul then s.binaries - {BackhaulTool}
                      else s.binaries - {Frpc, Frps})
                  && t.pairPending == s.pairPending)
            && (a.end.Fail? ==>
                  a.steps == [] || (Explains(s, engine, s.journals[engine].record.value)
                                    && !CanWriteRegistry(s, s.journals[engine].record.value)))
  {
    hide Explains, ModesKnown, RollbackSteps, Replay, Act, RestoreSteps, ComposeSteps, RegistrySteps, Minus;
    if engine in s.journals && s.journals[engine].record.Some? {
      var record := s.journals[engine].record.value;
      ExaminedExactly(s, engine, identical, record);
      if Rollback(s, engine, identical, order).end.Ok? {
        ExaminedOwn(s, engine, identical);
        RollbackReaches(s, engine, identical, order);
        RestoreReaches(s, record);
        MinusOwn(s.binaries, engine);
      } else if Examine(s, engine, identical).Ok? {
        ExaminedOwn(s, engine, identical);
      }
    } else {
      assert Examine(s, engine, identical).Fail?;
    }
  }

  lemma ExaminedOwn(s: Lab, engine: Engine, identical: bool)
    requires Examine(s, engine, identical).Ok?
    ensures engine in s.journals && s.journals[engine].record == Some(Examine(s, engine, identical).value)
  {
  }

  lemma MinusOwn(binaries: map<Tool, Bytes>, engine: Engine)
    ensures Minus(binaries, Tools(engine)) ==
            if engine == Backhaul then binaries - {BackhaulTool} else binaries - {Frpc, Frps}
  {
    assert Tools(Backhaul) == [BackhaulTool] && Tools(Frp) == [Frpc, Frps];
  }
}
