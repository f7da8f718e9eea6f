/** The two engines and the paired transaction on one node, under one lock.  The legacy journal of Backhaul and the
    journal and seal of the paired transaction are never there together; FRP looks at neither, and may change the
    manifest under a pair journal. */
module JournalFamilies {
  import opened Durable
  import H = Host
  import E = Engines
  import ER = EngineRuns
  import PP = PairPlanner
  import P = PairTransaction
  import PG = PairGuarantees
  import PR = PairRuns

  /** The two readings of the manifest: its bytes, and the registry that they declare with their formatting. */
  datatype Reading = Reading(read: H.Bytes -> E.Registry, write: E.Registry -> H.Bytes) {
    ghost predicate Valid() {
      (forall bytes :: write(read(bytes)) == bytes) && (forall registry :: read(write(registry)) == registry)
    }
  }

  /** One node.  The manifest is the pair's; what the engines read of it is in `EngineView`. */
  datatype Joint = Joint(engines: E.Lab, pair: P.Lab)

  predicate LegacyPending(j: Joint) {
    E.Backhaul in j.engines.journals
  }

  predicate PairPending(j: Joint) {
    j.pair.journal.Some? || j.pair.seal.Some?
  }

  function EngineView(reading: Reading, j: Joint): E.Lab {
    var manifest := j.pair.manifest;
    j.engines.(pairPending := PairPending(j), registry :=
        if manifest.Some? then Some(reading.read(manifest.value)) else None)
  }

  function PairView(j: Joint): P.Lab {
    j.pair.(otherJournal := LegacyPending(j))
  }

  function Written(reading: Reading, registry: Option<E.Registry>): Option<H.Bytes> {
    if registry.Some? then Some(reading.write(registry.value)) else None
  }

  /** One call of either family, cut anywhere. */
  datatype Event = EngineCall(call: ER.Event) | PairCall(event: PR.Event)

  function Next(w: H.World, site: E.Site, reading: Reading, j: Joint, event: Event): Joint {
    match event
    case EngineCall(call) =>
      var after := Replay(E.Act, EngineView(reading, j), ER.Steps(site, EngineView(reading, j), call));
      Joint(after, j.pair.(manifest := Written(reading, after.registry)))
    case PairCall(call) => Joint(j.engines, Replay(P.Act, PairView(j), PR.Steps(w, PairView(j), call)))
  }

  function Run(w: H.World, site: E.Site, reading: Reading, j: Joint, events: seq<Event>): Joint {
    if events == [] then j
    else Next(w, site, reading, Run(w, site, reading, j, events[..|events| - 1]), events[|events| - 1])
  }

  // ---------------------------------------------------------------- the families exclude each other

  /** While the other family is unfinished, a call of this one is refused, or does not concern it. */
  lemma Held(w: H.World, site: E.Site, reading: Reading, j: Joint, event: Event)
    ensures event.EngineCall? && PairPending(j) && event.call.engine == E.Backhaul ==>
              ER.Steps(site, EngineView(reading, j), event.call) == []
    ensures event.PairCall? && LegacyPending(j) ==> PR.Steps(w, PairView(j), event.event) == []
  {
    hide E.CoreReady, E.Inserted;
  }

  lemma NextExcludes(w: H.World, site: E.Site, reading: Reading, j: Joint, event: Event)
    requires !(LegacyPending(j) && PairPending(j))
    ensures var after := Next(w, site, reading, j, event); !(LegacyPending(after) && PairPending(after))
  {
    hide ER.Steps, PR.Steps, E.Act, P.Act, Replay, ER.FrpOnly;
    Held(w, site, reading, j, event);
    match event
    case EngineCall(call) =>
      NoSteps(E.Act, EngineView(reading, j), 0);
      if PairPending(j) && call.engine == E.Frp {
        var steps := ER.Steps(site, EngineView(reading, j), call);
        ER.FrpStaysAside(site, EngineView(reading, j), call);
        ER.FrpOnlyPrefix(EngineView(reading, j), steps, |steps|);
        assert steps[..|steps|] == steps;
      }
    case PairCall(_) => NoSteps(P.Act, PairView(j), 0);
  }

  /** In every reachable state of activations, rollbacks, pair applications and pair recoveries, each cut anywhere,
      the two families are never there together; so the one that is unfinished is never refused because of the
      other. */
  lemma {:induction false} FamiliesExclude(w: H.World, site: E.Site, reading: Reading, j: Joint, events: seq<Event>)
    requires !(LegacyPending(j) && PairPending(j))
    ensures var s := Run(w, site, reading, j, events);
            && !(LegacyPending(s) && PairPending(s))
            && (PairPending(s) ==> !PairView(s).otherJournal)
            && (LegacyPending(s) ==> !EngineView(reading, s).pairPending)
  {
    hide Next;
    if events != [] {
      FamiliesExclude(w, site, reading, j, events[..|events| - 1]);
      NextExcludes(w, site, reading, Run(w, site, reading, j, events[..|events| - 1]), events[|events| - 1]);
    }
  }

  // ---------------------------------------------------------------- the pair under a manifest that others may change

  /** Everything but the manifest is as at this stage of a change that started from the manifest m0. */
  ghost predicate AtStage(w: H.World, r0: H.Bytes, s: P.Lab, m0: H.Bytes, stage: PR.Stage) {
    PR.Belongs(w, m0, r0, stage)
    && s.(otherJournal := false) == PR.Image(w, m0, r0, stage).(manifest := s.manifest)
  }

  /** A step that leaves the manifest alone. */
  predicate NotManifest(step: P.Step) {
    !step.PutManifest?
  }

  lemma {:induction false} ManifestAside(s: P.Lab, manifest: Option<H.Bytes>, steps: seq<P.Step>, k: nat)
    requires k <= |steps| && forall i :: 0 <= i < |steps| ==> NotManifest(steps[i])
    ensures Replay(P.Act, s.(manifest := manifest), steps[..k]) == Replay(P.Act, s, steps[..k]).(manifest := manifest)
    decreases k
  {
    hide Replay;
    if k > 0 {
      ManifestAside(s, manifest, steps, k - 1);
      ReplayNext(P.Act, s, steps, k - 1);
      ReplayNext(P.Act, s.(manifest := manifest), steps, k - 1);
    } else {
      NoSteps(P.Act, s, 0);
      NoSteps(P.Act, s.(manifest := manifest), 0);
      assert steps[..0] == [];
    }
  }

  lemma {:induction false} SealedLeavesManifest(w: H.World, stage: PR.Stage)
    requires stage.Sealed?
    ensures forall step :: step in PR.Descent(w, stage) ==> NotManifest(step)
    decreases PR.Rank(stage)
  {
    if PR.Recoverable(stage) && PR.Down(stage).Sealed? {
      SealedLeavesManifest(w, PR.Down(stage));
    }
  }

  /** What recovery does under a complete journal: all of it if the manifest is one of the two that the journal names,
      nothing otherwise. */
  lemma FullRecovers(w: H.World, r0: H.Bytes, s: P.Lab, m0: H.Bytes, stage: PR.Stage) returns (now: PR.Stage)
    requires w.Valid() && !s.otherJournal && stage.Full? && AtStage(w, r0, s, m0, stage)
    ensures var known := s.manifest in {Some(m0), Some(stage.tx.m1)};
            && (known ==> PR.Belongs(w, m0, r0, now) && s == PR.Image(w, m0, r0, now) && now.Full?)
            && (P.Recover(w, s).end.Ok? <==> known)
            && (!known ==> P.Recover(w, s).steps == [])
  {
    hide P.Cleanup, P.ReadRecord, P.ReadPieces, P.SealBytes, P.Planned, P.RecordDoc, P.RecordBytes, PR.Descent, PR.Kept;
    now := PR.Full(s.manifest == Some(stage.tx.m1), stage.receiptNew, stage.tx);
    PR.FullRecordReads(w, stage.tx);
    PR.FullPiecesRead(w, stage.tx);
    if s.manifest in {Some(m0), Some(stage.tx.m1)} {
      PR.FullDescends(w, m0, r0, now);
    }
  }

  /** What recovery does under a seal: the rest of the cleanup, or nothing.  With the original manifest it returns;
      and it returns only on a manifest with the original's hash. */
  lemma SealedRecovers(w: H.World, r0: H.Bytes, s: P.Lab, m0: H.Bytes, stage: PR.Stage)
    requires w.Valid() && !s.otherJournal && stage.Sealed? && AtStage(w, r0, s, m0, stage)
    ensures P.Recover(w, s).steps in {[], PR.Descent(w, stage)}
    ensures s.manifest == Some(m0) ==> P.Recover(w, s).end.Ok?
    ensures P.Recover(w, s).end.Ok? ==> s.manifest.Some? && w.sha(s.manifest.value) == w.sha(m0)
  {
    hide P.CheckCleanup, PR.Descent, P.Drops, PR.Kept, P.Planned, P.RecordBytes, P.SealBytes;
    PR.SealedDescends(w, m0, r0, stage);
    PR.SealedImage(w, m0, r0, stage);
    var image := PR.Image(w, m0, r0, stage);
    assert P.Erasure(s) == P.Erasure(image);
    if s.manifest == Some(m0) {
      assert s == image;
    }
    if P.CheckCleanup(w, s).Ok? {
      SealedHash(w, r0, s, m0, stage);
    }
  }

  lemma SealedHash(w: H.World, r0: H.Bytes, s: P.Lab, m0: H.Bytes, stage: PR.Stage)
    requires w.Valid() && stage.Sealed? && AtStage(w, r0, s, m0, stage) && P.CheckCleanup(w, s).Ok?
    ensures s.manifest.Some? && w.sha(s.manifest.value) == w.sha(m0)
  {
    hide AtStage, P.RemnantTrusted, PP.Transition;
    SealShows(w, r0, s, m0, stage);
  }

  /** The seal names the hash of the original manifest. */
  lemma SealShows(w: H.World, r0: H.Bytes, s: P.Lab, m0: H.Bytes, stage: PR.Stage)
    requires w.Valid() && AtStage(w, r0, s, m0, stage) && stage.Sealed?
    ensures s.seal.Some? && H.LoadJson(w, s.seal.value).Ok? && H.ManifestBefore in H.LoadJson(w, s.seal.value).value
            && H.LoadJson(w, s.seal.value).value[H.ManifestBefore] == H.Digest(w.sha(m0))
  {
    hide PR.Kept, P.Planned, P.RecordBytes, P.SealDoc, P.RecordDoc, H.World.Valid, H.LoadJson;
    assert P.Planned(w, stage.tx) && stage.tx.m0 == m0;
    SealLoads(w, stage.tx);
  }

  lemma SealLoads(w: H.World, tx: P.Tx)
    requires w.Valid() && P.Planned(w, tx)
    ensures var doc := P.SealDoc(w, P.RecordDoc(w, tx), P.RecordBytes(w, tx), tx.sha);
            && H.LoadJson(w, w.Line(H.Obj(doc))) == Ok(doc)
            && H.ManifestBefore in doc && doc[H.ManifestBefore] == H.Digest(w.sha(tx.m0))
  {
    PR.RecordIsSmall(w, tx);
    PG.PlannedFacts(w, tx);
    w.HashIsSha(P.RecordBytes(w, tx));
    hide H.World.Valid, H.LoadJson, H.IsSha, P.SealDoc, P.RecordDoc, P.RecordBytes, P.SealTrusted, P.RecordTrusted,
         P.Planned;
    PG.SealFromRecord(w, P.RecordDoc(w, tx), P.RecordBytes(w, tx), tx.sha);
    PG.SmallDocs(w, P.SealDoc(w, P.RecordDoc(w, tx), P.RecordBytes(w, tx), tx.sha));
    PG.SealNames(w, tx, P.RecordBytes(w, tx));
  }

  /** A call of the pair moves it from one stage to another, whatever has become of the manifest. */
  lemma PairCallStays(w: H.World, r0: H.Bytes, s: P.Lab, m0: H.Bytes, stage: PR.Stage, event: PR.Event)
    returns (m: H.Bytes, after: PR.Stage)
    requires w.Valid() && AtStage(w, r0, s, m0, stage)
    ensures AtStage(w, r0, Replay(P.Act, s, PR.Steps(w, s, event)), m, after)
  {
    hide PR.Image, PR.Belongs, P.Apply, P.Recover, Replay, P.Act;
    m, after := m0, stage;
    NoSteps(P.Act, s, event.fuse);
    match event
    case ApplyCall(sha, role, fuse) =>
      if P.Apply(w, s, sha, role).steps != [] {
        m := ApplyBegins(w, r0, s, m0, stage, sha, role);
        after := PR.ApplyStays(w, m, r0, PR.Idle, sha, role, fuse);
        ImageAtStage(w, r0, m, after);
      }
    case RecoverCall(fuse) =>
      if P.Recover(w, s).steps != [] {
        after := RecoveryStays(w, r0, s, m0, stage, fuse);
      }
  }

  lemma ImageAtStage(w: H.World, r0: H.Bytes, m0: H.Bytes, stage: PR.Stage)
    requires PR.Belongs(w, m0, r0, stage)
    ensures AtStage(w, r0, PR.Image(w, m0, r0, stage), m0, stage) && !PR.Image(w, m0, r0, stage).otherJournal
  {
    hide PR.Belongs, PR.Kept, P.SealBytes, P.RecordBytes, P.RecordDoc;
  }

  /** An application that writes anything starts from the manifest it finds. */
  lemma ApplyBegins(w: H.World, r0: H.Bytes, s: P.Lab, m0: H.Bytes, stage: PR.Stage, sha: string, role: H.Word)
      returns (m: H.Bytes)
    requires AtStage(w, r0, s, m0, stage) && P.Apply(w, s, sha, role).steps != []
    ensures s == PR.Image(w, m, r0, PR.Idle) && PR.Belongs(w, m, r0, PR.Idle)
  {
    hide PP.Transition, PR.Kept, P.SealBytes, P.RecordBytes, P.RecordDoc, P.ApplySteps;
    m := P.Prepare(w, s, sha, role).value.m0;
  }

  lemma RecoveryStays(w: H.World, r0: H.Bytes, s: P.Lab, m0: H.Bytes, stage: PR.Stage, fuse: nat)
      returns (after: PR.Stage)
    requires w.Valid() && AtStage(w, r0, s, m0, stage) && P.Recover(w, s).steps != []
    ensures AtStage(w, r0, Replay(P.Act, s, UpTo(P.Recover(w, s).steps, fuse)), m0, after)
  {
    hide PR.Image, PR.Belongs, P.Recover, Replay, P.Act, PR.Descent;
    after := stage;
    RecoveryNeedsRecord(w, r0, s, m0, stage);
    if stage.Full? {
      var now := FullRecovers(w, r0, s, m0, stage);
      after := PR.RecoverStays(w, m0, r0, now, fuse);
      ImageAtStage(w, r0, m0, after);
    } else {
      SealedRecovers(w, r0, s, m0, stage);
      after := SealedStays(w, r0, s, m0, stage, fuse);
    }
  }

  /** Without a complete journal or a seal, or beside the other family's journal, recovery does nothing. */
  lemma RecoveryNeedsRecord(w: H.World, r0: H.Bytes, s: P.Lab, m0: H.Bytes, stage: PR.Stage)
    requires AtStage(w, r0, s, m0, stage)
    ensures P.Recover(w, s).steps != [] ==> (stage.Full? || stage.Sealed?) && !s.otherJournal
  {
    hide PP.Transition, P.ReadPieces, P.Cleanup, PR.Kept;
    if stage.Writing? { PR.NoRecordYet(w, stage.tx, stage.n); }
  }

  lemma SealedStays(w: H.World, r0: H.Bytes, s: P.Lab, m0: H.Bytes, stage: PR.Stage, fuse: nat)
      returns (after: PR.Stage)
    requires AtStage(w, r0, s, m0, stage) && stage.Sealed? && !s.otherJournal
    ensures AtStage(w, r0, Replay(P.Act, s, UpTo(PR.Descent(w, stage), fuse)), m0, after)
  {
    hide PR.Image, Replay, P.Act, PR.Descent, PR.Kept, PR.ChangeOf;
    var k := if fuse < PR.Rank(stage) then fuse else PR.Rank(stage);
    PR.DescentReaches(w, m0, r0, stage, k);
    assert PR.Descent(w, stage)[..k] == UpTo(PR.Descent(w, stage), fuse);
    SealedLeavesManifest(w, stage);
    var image := PR.Image(w, m0, r0, stage);
    ImageAtStage(w, r0, m0, stage);
    ManifestAside(image, s.manifest, PR.Descent(w, stage), k);
    assert s == image.(manifest := s.manifest);
    after := PR.DownBy(stage, k);
    ImageAtStage(w, r0, m0, after);
  }

  /** Every run of the two families leaves the pair at a stage of a change, but for the manifest. */
  lemma {:induction false} RunAtStage(w: H.World, site: E.Site, reading: Reading, j: Joint, events: seq<Event>)
    returns (m0: H.Bytes, stage: PR.Stage)
    requires w.Valid() && j.pair.journal.None? && j.pair.seal.None? && j.pair.receipt.Some?
    ensures AtStage(w, j.pair.receipt.value, PairView(Run(w, site, reading, j, events)), m0, stage)
  {
    hide Replay, PR.Steps, ER.Steps, P.Act, E.Act;
    if events == [] {
      m0, stage := [], PR.Idle;
    } else {
      var before := Run(w, site, reading, j, events[..|events| - 1]);
      m0, stage := RunAtStage(w, site, reading, j, events[..|events| - 1]);
      match events[|events| - 1]
      case EngineCall(_) =>
      case PairCall(event) => m0, stage := PairCallStays(w, j.pair.receipt.value, PairView(before), m0, stage, event);
    }
  }

  /** A complete journal of a transaction that has not been sealed. */
  predicate Complete(s: P.Lab) {
    s.seal.None? && s.journal.Some? && P.RecordFile in s.journal.value
  }

  /** What the stage says of the files. */
  lemma StageShows(w: H.World, r0: H.Bytes, s: P.Lab, m0: H.Bytes, stage: PR.Stage)
    requires AtStage(w, r0, s, m0, stage)
    ensures Complete(s) <==> stage.Full?
    ensures stage.Full? ==>
              && P.BeforeManifest in s.journal.value && s.journal.value[P.BeforeManifest] == m0
              && P.NextManifest in s.journal.value && s.journal.value[P.NextManifest] == stage.tx.m1
    ensures s.seal.Some? <==> stage.Sealed?
  {
    hide P.Planned, P.RecordBytes, PR.Kept, P.SealBytes, P.RecordDoc, PG.FullJournal;
    match stage
    case Idle =>
    case Writing(n, tx) => PR.NoRecordYet(w, tx, n);
    case Full(_, _, tx) => FullParts(w, tx);
    case Sealed(_, tx) =>
  }

  lemma FullParts(w: H.World, tx: P.Tx)
    ensures var kept := PR.Kept(w, tx, 0, 5);
            && P.RecordFile in kept && P.BeforeManifest in kept && P.NextManifest in kept
            && kept[P.BeforeManifest] == tx.m0 && kept[P.NextManifest] == tx.m1
  {
    hide P.RecordBytes;
  }

  /** In every run of both families that starts without a pair transaction: under a complete journal, pair recovery
      returns exactly if the manifest is one of the two that the journal holds, whoever wrote it.  Under a seal it
      returns if the manifest is the original, and only if it has the original's hash.  Otherwise it refuses. */
  lemma {:induction false} PairReturnsExactlyWhen(w: H.World, site: E.Site, reading: Reading, j: Joint,
      events: seq<Event>)
    returns (m0: H.Bytes)
    requires w.Valid() && j.pair.journal.None? && j.pair.seal.None? && j.pair.receipt.Some?
    ensures var s := PairView(Run(w, site, reading, j, events));
            var returning := P.Recover(w, s).end.Ok?;
            && (Complete(s) ==>
                  && P.BeforeManifest in s.journal.value && P.NextManifest in s.journal.value
                  && (returning <==>
                        s.manifest in {Some(s.journal.value[P.BeforeManifest]), Some(s.journal.value[P.NextManifest])}))
            && (s.seal.Some? ==>
                  && H.LoadJson(w, s.seal.value).Ok? && H.ManifestBefore in H.LoadJson(w, s.seal.value).value
                  && H.LoadJson(w, s.seal.value).value[H.ManifestBefore] == H.Digest(w.sha(m0))
                  && (s.manifest == Some(m0) ==> returning)
                  && (returning ==> s.manifest.Some? && w.sha(s.manifest.value) == w.sha(m0)))
            && (!Complete(s) && s.seal.None? ==> !returning)
  {
    hide Run, P.Recover, AtStage, P.RecordBytes;
    var r0, s := j.pair.receipt.value, PairView(Run(w, site, reading, j, events));
    var stage;
    m0, stage := RunAtStage(w, site, reading, j, events);
    StageShows(w, r0, s, m0, stage);
    FamiliesExclude(w, site, reading, j, events);
    match stage
    case Full(_, _, _) => var _ := FullRecovers(w, r0, s, m0, stage);
    case Sealed(_, _) =>
      SealShows(w, r0, s, m0, stage);
      SealedRecovers(w, r0, s, m0, stage);
    case Idle => NoRecordRefuses(w, s);
    case Writing(_, _) => NoRecordRefuses(w, s);
  }

  lemma NoRecordRefuses(w: H.World, s: P.Lab)
    requires !Complete(s) && s.seal.None?
    ensures P.Recover(w, s).end.Fail?
  {
    hide P.ReadPieces, P.Cleanup;
  }

  /** An FRP rollback that succeeds under a complete pair journal decides about pair recovery: it returns afterwards
      exactly if the registry that FRP has put back is one of the journal's two manifests.  So it never does if FRP's
      enrolment had made the registry: the manifest is gone then. */
  lemma {:induction false} FrpRollbackDecides(w: H.World, site: E.Site, reading: Reading, j: Joint, events: seq<Event>,
                                              order: seq<E.Part>, fuse: nat)
    requires w.Valid() && j.pair.journal.None? && j.pair.seal.None? && j.pair.receipt.Some?
    requires var s := Run(w, site, reading, j, events);
             && Complete(s.pair) && E.Rollback(EngineView(reading, s), E.Frp, true, order).end.Ok?
             && fuse >= |E.Rollback(EngineView(reading, s), E.Frp, true, order).steps|
    ensures var s := Run(w, site, reading, j, events);
            var former := E.Examine(EngineView(reading, s), E.Frp, true).value.registryOld;
            var t := PairView(Next(w, site, reading, s, EngineCall(ER.RollbackCall(E.Frp, true, order, fuse))));
            && t.journal == s.pair.journal && Complete(t) && t.manifest == Written(reading, former)
            && P.BeforeManifest in t.journal.value && P.NextManifest in t.journal.value
            && (P.Recover(w, t).end.Ok? <==>
                  Written(reading, former) in {Some(t.journal.value[P.BeforeManifest]),
                      Some(t.journal.value[P.NextManifest])})
            && (former.None? ==> P.Recover(w, t).end.Fail?)
  {
    hide Run, P.Recover, Replay, E.Act, E.RollbackSteps, E.RestoreSteps, E.ComposeSteps;
    var s, event := Run(w, site, reading, j, events), EngineCall(ER.RollbackCall(E.Frp, true, order, fuse));
    var view := EngineView(reading, s);
    var record := E.Examine(view, E.Frp, true).value;
    ER.RollbackReaches(view, E.Frp, true, order);
    ER.RestoreReaches(view, record);
    RunNext(w, site, reading, j, events, event);
    var _ := PairReturnsExactlyWhen(w, site, reading, j, events + [event]);
  }

  lemma RunNext(w: H.World, site: E.Site, reading: Reading, j: Joint, events: seq<Event>, event: Event)
    ensures Run(w, site, reading, j, events + [event]) ==
            Next(w, site, reading, Run(w, site, reading, j, events), event)
  {
    assert (events + [event])[..|events|] == events;
  }

  lemma {:induction false} PendingStays(s: E.Lab, steps: seq<E.Op>)
    ensures Replay(E.Act, s, steps).pairPending == s.pairPending
    decreases |steps|
  {
    hide E.Act;
    if steps != [] {
      PendingStays(s, steps[..|steps| - 1]);
      StepIsAside(Replay(E.Act, s, steps[..|steps| - 1]), steps[|steps| - 1]);
    }
  }

  lemma StepIsAside(s: E.Lab, op: E.Op)
    ensures E.Act(s, op).pairPending == s.pairPending
  {
  }

  /** What the engines read after one of their calls is what the call has left. */
  lemma ViewAfter(w: H.World, site: E.Site, reading: Reading, j: Joint, call: ER.Event)
    requires reading.Valid()
    ensures EngineView(reading, Next(w, site, reading, j, EngineCall(call))) ==
            Replay(E.Act, EngineView(reading, j), ER.Steps(site, EngineView(reading, j), call))
  {
    hide Replay, E.Act, ER.Steps;
    PendingStays(EngineView(reading, j), ER.Steps(site, EngineView(reading, j), call));
  }

  /** An enrolment of FRP that is begun under a pair journal, cut anywhere behind its record or not at all, and
      rolled back, leaves the pair's files as they were, byte for byte; so pair recovery does what it would have
      done before. */
  lemma {:induction false} EnrolmentLeavesPair(w: H.World, site: E.Site, reading: Reading, j: Joint,
      stage: Option<E.Stage>,
                                               fuse: nat, order: seq<E.Part>)
    requires reading.Valid() && ER.Housed(EngineView(reading, j))
    requires E.Prepare(site, EngineView(reading, j), E.Frp, stage).Ok?
    requires fuse >= |E.JournalSteps(E.Frp, E.Prepare(site, EngineView(reading, j), E.Frp, stage).value)|
    ensures var cut := Next(w, site, reading, j, EngineCall(ER.ActivateCall(E.Frp, stage, fuse)));
            var undo := E.Rollback(EngineView(reading, cut), E.Frp, true, order);
            var t := Next(w, site, reading, cut, EngineCall(ER.RollbackCall(E.Frp, true, order, |undo.steps|)));
            undo.end.Ok? && t.pair == j.pair && P.Recover(w, PairView(t)) == P.Recover(w, PairView(j))
  {
    hide Replay, E.Act, E.Prepare, E.JournalSteps, E.Activate, E.Rollback, P.Recover, ER.Between, ER.KeepsHomes;
    var s := EngineView(reading, j);
    ViewAfter(w, site, reading, j, ER.ActivateCall(E.Frp, stage, fuse));
    ER.CutActivationRollsBack(site, s, E.Frp, stage, fuse, order);
    PreparedModes(site, s, stage);
    var cut := Next(w, site, reading, j, EngineCall(ER.ActivateCall(E.Frp, stage, fuse)));
    var undo := E.Rollback(EngineView(reading, cut), E.Frp, true, order);
    assert UpTo(undo.steps, |undo.steps|) == undo.steps;
  }

  lemma PreparedModes(site: E.Site, s: E.Lab, stage: Option<E.Stage>)
    requires E.Prepare(site, s, E.Frp, stage).Ok?
    ensures E.ModesSafe(s.composeMode, s.registryMode)
  {
    hide E.CoreReady, E.ModesSafe;
  }
}
