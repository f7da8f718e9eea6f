/** The coordinator that rehearses the retained transaction on two nodes.  It always compensates, and
    it removes no recovery journal before both nodes are back at their originals. */
module RetainedTwoHosts {
  import opened Durable
  import opened Host
  import opened PairPlanner
  import opened Retained
  import opened RetainedRuns
  import opened RetainedOutcomes

  /** The moments at which the observer and both witnesses are consulted. */
  datatype Moment =
    | Before | RecheckForeign | RecheckIr | AfterIr | AfterBoth | BeforeRollback
    | CheckIr | CheckForeign | AfterRollback | CleanedIr | CleanedForeign

  /** What one call on a node sees of the witness, and after how many durable steps it raises. */
  datatype Call = Call(look: Looks, fuse: nat)

  datatype Calls = Calls(installIr: Call, installForeign: Call, rollbackForeign: Call, rollbackIr: Call,
                         cleanIr: Call, cleanForeign: Call)

  /** The observer looks at both nodes as they are at that moment. */
  type Observer = (Moment, Node, Node) -> bool

  predicate Evidence(s: Node) {
    s.journal.Some? || s.seal.Some?
  }

  predicate AtOriginals(s: Node, origin: Pair) {
    s.manifest == Some(origin.0) && s.receipt == Some(origin.1)
  }

  // ---------------------------------------------------------------- what the answer has to be

  /** The node has no transaction, and a readable pair that can be changed. */
  predicate CanBegin(w: World, s: Node, role: Word, binary: string) {
    && s.journal.None? && s.seal.None? && !s.conflict
    && s.manifest.Some? && 0 < |s.manifest.value| <= 8192 && s.receipt.Some? && 0 < |s.receipt.value| <= 8192
    && Transition(w, s.manifest.value, s.receipt.value, binary, role).Ok?
  }

  function PairOf(s: Node): Pair {
    (if s.manifest.Some? then s.manifest.value else [], if s.receipt.Some? then s.receipt.value else [])
  }

  predicate Begun(w: World, a: Node, b: Node, binary: string, accepts: Observer) {
    && CanBegin(w, a, Ir, binary) && CanBegin(w, b, Foreign, binary)
    && accepts(Before, a, b) && accepts(RecheckForeign, a, b) && accepts(RecheckIr, a, b)
  }

  /** How many of its four writes an installation completes that was handed this witness: none unless the first two
      looks show it, then one more for each look that does, as far as the power lasts. */
  function Writes(proof: string, call: Call): nat {
    var allowed :=
      if !IsSha(proof) || call.look(0) != proof || call.look(1) != proof then 0
      else if call.look(2) != proof then 1
      else if call.look(3) != proof then 2
      else if call.look(4) != proof then 3
      else 4;
    if call.fuse < allowed then call.fuse else allowed
  }

  /** The node after its installation, as far as it came. */
  function Cut(w: World, s: Node, role: Word, binary: string, proof: string, call: Call): Node {
    var q := Request(Install, role, binary, Some(Handoff(PairOf(s), proof)));
    Replay(Act, s, UpTo(Operate(w, s, q, call.look).steps, call.fuse))
  }

  /** The node after its rollback. */
  function Back(w: World, s: Node, role: Word, binary: string, proof: string, written: nat): Node {
    if written == 0 then s else s.(journal := Some(JournalText(w, Deal(PairOf(s), role, binary, proof), Restored)))
  }

  /** A rollback undoes so many writes: there are none, or the witness stays at five looks and the power lasts for two
      journals and each file that was written. */
  predicate Undoes(proof: string, call: Call, written: nat) {
    || written == 0
    || (LooksAre(call.look, proof, 0, 5)
        && call.fuse >= 2 + (if written >= 2 then 1 else 0) + (if written >= 3 then 1 else 0))
  }

  /** A cleanup removes the journal: there is none, or the witness stays at four looks and the power lasts for three
      steps. */
  predicate Clears(proof: string, call: Call, written: nat) {
    written == 0 || (LooksAre(call.look, proof, 0, 4) && call.fuse >= 3)
  }

  /** What is asked of both nodes. */
  datatype Plan = Plan(binary: string, proofIr: string, proofForeign: string, accepts: Observer, calls: Calls)

  predicate IrChanged(w: World, a: Node, b: Node, p: Plan) {
    Writes(p.proofIr, p.calls.installIr) == 4
        && p.accepts(AfterIr, Cut(w, a, Ir, p.binary, p.proofIr, p.calls.installIr), b)
  }

  function ForeignWrites(w: World, a: Node, b: Node, p: Plan): nat {
    if IrChanged(w, a, b, p) then Writes(p.proofForeign, p.calls.installForeign) else 0
  }

  function ForeignCut(w: World, a: Node, b: Node, p: Plan): Node {
    if IrChanged(w, a, b, p) then Cut(w, b, Foreign, p.binary, p.proofForeign, p.calls.installForeign) else b
  }

  /** Both nodes were changed in full, and accepted each time. */
  predicate BothChanged(w: World, a: Node, b: Node, p: Plan) {
    && IrChanged(w, a, b, p) && Writes(p.proofForeign, p.calls.installForeign) == 4
    && p.accepts(AfterBoth, Cut(w, a, Ir, p.binary, p.proofIr, p.calls.installIr), ForeignCut(w, a, b, p))
  }

  /** Both nodes are rolled back, Foreign first, and accepted before and after, with their journals still there. */
  predicate RestoredBoth(w: World, a: Node, b: Node, p: Plan) {
    var writtenIr, writtenForeign := Writes(p.proofIr, p.calls.installIr), ForeignWrites(w, a, b, p);
    var backIr := Back(w, a, Ir, p.binary, p.proofIr, writtenIr);
    var backForeign := Back(w, b, Foreign, p.binary, p.proofForeign, writtenForeign);
    && p.accepts(BeforeRollback, Cut(w, a, Ir, p.binary, p.proofIr, p.calls.installIr), ForeignCut(w, a, b, p))
    && Undoes(p.proofForeign, p.calls.rollbackForeign, writtenForeign)
    && Undoes(p.proofIr, p.calls.rollbackIr, writtenIr)
    && p.accepts(CheckIr, backIr, backForeign) && p.accepts(CheckForeign, backIr, backForeign)
    && p.accepts(AfterRollback, backIr, backForeign)
  }

  /** Then both journals are removed, IR's first, and each node is accepted. */
  predicate ClearedBoth(w: World, a: Node, b: Node, p: Plan) {
    var writtenIr, writtenForeign := Writes(p.proofIr, p.calls.installIr), ForeignWrites(w, a, b, p);
    && Clears(p.proofIr, p.calls.cleanIr, writtenIr)
    && p.accepts(CleanedIr, a, Back(w, b, Foreign, p.binary, p.proofForeign, writtenForeign))
    && Clears(p.proofForeign, p.calls.cleanForeign, writtenForeign)
    && p.accepts(CleanedForeign, a, b)
  }

  // ---------------------------------------------------------------- one call on one node

  /** A node under preparation: what was read before anything was written. */
  datatype Peer = Peer(role: Word, binary: string, origin: Pair, proof: string)

  /** What a node is asked; an installation hands over what was read before. */
  function Asked(peer: Peer, action: Action): Request {
    Request(action, peer.role, peer.binary, if action == Install then Some(Handoff(peer.origin, peer.proof)) else None)
  }

  function DealOf(peer: Peer): Deal {
    Deal(peer.origin, peer.role, peer.binary, peer.proof)
  }

  /** The pair of the node can be changed. */
  ghost predicate Ready(w: World, peer: Peer) {
    IsRole(peer.role) && Readable(peer.origin)
    && Transition(w, peer.origin.0, peer.origin.1, peer.binary, peer.role).Ok?
  }

  function TradeOf(w: World, peer: Peer): Trade
    requires Transition(w, peer.origin.0, peer.origin.1, peer.binary, peer.role).Ok?
  {
    Trade(DealOf(peer), Transition(w, peer.origin.0, peer.origin.1, peer.binary, peer.role).value)
  }

  /** Where an installation stands after so many writes. */
  ghost function InstalledStage(w: World, peer: Peer, written: nat): Stage
    requires Ready(w, peer)
  {
    var t := TradeOf(w, peer);
    match written
    case 0 => Idle
    case 1 => Journaled(Prepared, false, false, t)
    case 2 => Journaled(Prepared, true, false, t)
    case 3 => Journaled(Prepared, true, true, t)
    case _ => Journaled(Committed, true, true, t)
  }

  /** Where a rollback leaves it. */
  ghost function BackStage(w: World, peer: Peer, written: nat): Stage
    requires Ready(w, peer)
  {
    if written == 0 then Idle else Journaled(Restored, false, false, TradeOf(w, peer))
  }

  ghost predicate Ours(w: World, peer: Peer, stage: Stage) {
    Ready(w, peer) && Belongs(w, peer.origin, stage) && (!stage.Idle? ==> stage.trade == TradeOf(w, peer))
  }

  lemma ReadyIsAgreed(w: World, peer: Peer)
    requires w.Valid() && Ready(w, peer) && IsSha(peer.proof)
    ensures Agreed(w, peer.origin, TradeOf(w, peer))
  {
    hide Transition, Agreed;
    AgreedFacts(w, peer.origin, DealOf(peer), TradeOf(w, peer).after);
  }

  /** The steps of an installation on a node that is as it was handed over. */
  lemma InstallWrites(w: World, peer: Peer, look: Looks, fuse: nat)
    requires w.Valid() && Ready(w, peer)
    ensures var a := Operate(w, Clean(peer.origin), Asked(peer, Install), look);
            var m := Writes(peer.proof, Call(look, fuse));
            && m <= 4 && UpTo(a.steps, fuse) == Ops(InstallWalk(w, TradeOf(w, peer)))[..m]
            && (a.end.Ok? ==> a.end == Ok(Committed))
            && (a.end.Ok? && fuse >= |a.steps| <==> m == 4)
  {
    hide Transition, Shift, JournalText, Agreed;
    var s, q := Clean(peer.origin), Asked(peer, Install);
    var proof, t := peer.proof, TradeOf(w, peer);
    PrecheckExactly(s, q, look);
    CurrentStands(s);
    assert Stands(s, peer.origin);
    var walk := Ops(InstallWalk(w, t));
    if IsSha(proof) && look(0) == proof && look(1) == proof {
      assert Precheck(s, q, look).Ok?;
      assert Admit(w, s, q, look(0)) == Ok(Ticket(t.deal, t.after, Fresh, peer.origin));
      ReadyIsAgreed(w, peer);
      ShiftWrites(w, peer, look);
      assert walk == [walk[0]] + walk[1..];
    } else {
      assert Operate(w, s, q, look).steps == [] && Operate(w, s, q, look).end.Fail?;
    }
  }

  lemma ShiftWrites(w: World, peer: Peer, look: Looks)
    requires Ready(w, peer) && Agreed(w, peer.origin, TradeOf(w, peer))
    ensures var t, proof := TradeOf(w, peer), peer.proof;
            var a := Shift(w, t.deal, t.deal.before, t.after, [ManifestHalf, ReceiptHalf], Committed, look, 2);
            var k := if look(2) != proof then 0 else if look(3) != proof then 1 else if look(4) != proof then 2 else 3;
            && a.steps == Ops(InstallWalk(w, t))[1..][..k] && (a.end.Ok? <==> k == 3)
            && (a.end.Ok? ==> a.end == Ok(Committed))
  {
    hide Shift, JournalText, Transition;
    var t := TradeOf(w, peer);
    var mixed := With(t.deal.before, ManifestHalf, t.after.0);
    ShiftUnfolds(w, t.deal, t.deal.before, t.after, [ManifestHalf, ReceiptHalf], Committed, look, 2);
    ShiftUnfolds(w, t.deal, mixed, t.after, [ReceiptHalf], Committed, look, 3);
    ShiftUnfolds(w, t.deal, t.after, t.after, [], Committed, look, 4);
    assert With(mixed, ReceiptHalf, t.after.1) == t.after;
    assert [ManifestHalf, ReceiptHalf][1..] == [ReceiptHalf] && [ReceiptHalf][1..] == [];
  }

  /** On a node with the journal of its own transaction, only requests with that witness find a record, and it is this
      one. */
  lemma OwnRecord(w: World, peer: Peer, stage: Stage, action: Action, proof: string)
    requires w.Valid() && w.Roomy() && Ours(w, peer, stage) && stage.Journaled?
    ensures var s, q := Image(w, peer.origin, stage), Asked(peer, action);
            && (proof == peer.proof ==> Recorded(w, s, q, proof, peer.origin, stage.trade.after, stage.phase))
            && forall before, after, phase :: Recorded(w, s, q, proof, before, after, phase) ==>
                 proof == peer.proof && before == peer.origin && after == stage.trade.after && phase == stage.phase
  {
    hide Transition, JournalText, ReadJournal, JournalSays, World.Valid, World.Roomy;
    var s, q, deal := Image(w, peer.origin, stage), Asked(peer, action), DealOf(peer);
    var raw := JournalText(w, deal, stage.phase);
    JournalReads(w, deal, stage.phase, peer.role, peer.binary, proof);
    if proof == peer.proof {
      ReadIsSaid(w, raw, peer.role, peer.binary, proof);
      StageIsPhased(w, peer.origin, stage);
    }
    forall before, after, phase | Recorded(w, s, q, proof, before, after, phase)
      ensures proof == peer.proof && before == peer.origin && after == stage.trade.after && phase == stage.phase
    {
      SaysIsRead(w, raw, peer.role, peer.binary, proof, before, phase);
    }
  }

  lemma StageIsPhased(w: World, origin: Pair, stage: Stage)
    requires stage.Journaled? && Belongs(w, origin, stage)
    ensures Phased(Image(w, origin, stage), stage.phase, origin, stage.trade.after)
  {
    hide JournalText, Transition;
  }

  lemma OwnIsSane(w: World, peer: Peer, stage: Stage, action: Action, look: Looks)
    requires w.Valid() && Ours(w, peer, stage) && stage.Journaled? && action != Install
    ensures Sane(Image(w, peer.origin, stage), Asked(peer, action), look) <==> IsSha(look(0))
    ensures IsSha(peer.proof)
  {
    hide JournalText, Transition;
  }

  /** A rollback of an installation that wrote its journal. */
  lemma RollbackDecides(w: World, peer: Peer, stage: Stage, look: Looks)
    requires w.Valid() && w.Roomy() && Ours(w, peer, stage) && stage.Journaled? && stage.phase != Restored
    ensures var s := Image(w, peer.origin, stage);
            var a := Operate(w, s, Asked(peer, Rollback), look);
            && (a.end.Ok? <==> LooksAre(look, peer.proof, 0, 5))
            && (a.end.Ok? ==>
                  && a.end == Ok(Word.Restored)
                  && |a.steps| == 2 + (if stage.manifestNew then 1 else 0) + (if stage.receiptNew then 1 else 0)
                  && Replay(Act, s, a.steps) == Image(w, peer.origin,
                      Journaled(Word.Restored, false, false, stage.trade)))
  {
    hide Transition, JournalText, Recorded, Operate, Replay, Act, World.Valid, World.Roomy, IsSha;
    var s, q := Image(w, peer.origin, stage), Asked(peer, Rollback);
    OwnRecord(w, peer, stage, Rollback, look(0));
    OwnIsSane(w, peer, stage, Rollback, look);
    RollsBackExactlyWhen(w, s, q, look);
    FirstLook(look, peer.proof, 5);
  }

  lemma FirstLook(look: Looks, proof: string, m: nat)
    requires m >= 1
    ensures LooksAre(look, proof, 0, m) <==> look(0) == proof && LooksAre(look, look(0), 1, m)
  {
  }

  lemma CleanupDecides(w: World, peer: Peer, stage: Stage, look: Looks)
    requires w.Valid() && w.Roomy() && Ours(w, peer, stage) && stage.Journaled? && stage.phase == Restored
    ensures var s := Image(w, peer.origin, stage);
            var a := Operate(w, s, Asked(peer, Cleanup), look);
            && (a.end.Ok? <==> LooksAre(look, peer.proof, 0, 4))
            && (a.end.Ok? ==>
                  a.end == Ok(Word.Restored) && |a.steps| == 3 && Replay(Act, s, a.steps) == Clean(peer.origin))
  {
    hide Transition, JournalText, Recorded, Operate, Replay, Act, World.Valid, World.Roomy, IsSha;
    var s, q := Image(w, peer.origin, stage), Asked(peer, Cleanup);
    OwnRecord(w, peer, stage, Cleanup, look(0));
    OwnIsSane(w, peer, stage, Cleanup, look);
    CleansExactlyWhen(w, s, q, look);
    FirstLook(look, peer.proof, 4);
  }

  // ---------------------------------------------------------------- where a cut call leaves a node

  predicate Fits(stage: Stage, action: Action) {
    match action
    case Install => stage.Idle?
    case Rollback => stage.Journaled? && stage.phase != Restored
    case Cleanup => stage.Journaled? && stage.phase == Restored
    case Recover => false
  }

  /** The walk that one call on a node follows. */
  lemma CallFollows(w: World, peer: Peer, stage: Stage, action: Action, look: Looks) returns (walk: Walk<Move, Stage>)
    requires w.Valid() && w.Roomy() && Ours(w, peer, stage) && Fits(stage, action) && action != Install
    ensures Leads(Act, (s: Stage) => Image(w, peer.origin, s), stage, walk)
    ensures forall i :: 0 <= i < |walk| ==> Ours(w, peer, walk[i].1)
    ensures action == Rollback ==> forall i :: 0 <= i < |walk| ==> walk[i].1.Journaled?
    ensures action == Cleanup ==> forall i :: 0 <= i < |walk| ==> walk[i].1.Idle? || walk[i].1.Sealed?
    ensures Operate(w, Image(w, peer.origin, stage), Asked(peer, action), look).steps <= Ops(walk)
  {
    hide Operate, Act, Image, Leads, Agreed, Transition, JournalText, Wrapped, SealOf;
    JournaledFollows(w, peer.origin, stage, Asked(peer, action), look);
    IntendedLeads(w, peer.origin, stage, action, stage.trade);
    walk := Intended(w, stage, action, stage.trade);
  }

  /** One call on a node.  An installation never takes a journal away, nor does a rollback; a cleanup never touches
      the pair. */
  method Ask(w: World, d: Disk<Node, Move>, peer: Peer, action: Action, call: Call, ghost stage: Stage)
    returns (r: Result<Word>, ghost after: Stage)
    requires w.Valid() && w.Roomy() && d.act == Act
    requires Ours(w, peer, stage) && d.now == Image(w, peer.origin, stage) && Fits(stage, action)
    modifies d
    ensures Ours(w, peer, after) && d.now == Image(w, peer.origin, after)
    ensures action != Cleanup ==> after == stage || after.Journaled?
    ensures action == Cleanup ==> after == stage || after.Idle? || after.Sealed?
    ensures d.now == Replay(Act, old(d.now),
            UpTo(Operate(w, old(d.now), Asked(peer, action), call.look).steps, call.fuse))
    ensures action == Install ==>
              after == InstalledStage(w, peer, Writes(peer.proof, call))
                  && (r == Ok(Committed) <==> Writes(peer.proof, call) == 4)
    ensures action == Rollback ==>
              (r == Ok(Word.Restored) <==>
                && LooksAre(call.look, peer.proof, 0, 5)
                && call.fuse >= 2 + (if stage.manifestNew then 1 else 0) + (if stage.receiptNew then 1 else 0))
    ensures action == Cleanup ==> (r == Ok(Word.Restored) <==> LooksAre(call.look, peer.proof, 0, 4) && call.fuse >= 3)
    ensures r == Ok(Word.Restored) && action == Rollback ==>
            after == Journaled(Word.Restored, false, false, stage.trade)
    ensures r == Ok(Word.Restored) && action == Cleanup ==> after == Idle
  {
    hide Operate, Image, Belongs, Act, Leads, Ready, Writes, LooksAre, Transition, InstalledStage;
    var q := Asked(peer, action);
    ghost var s := d.now;
    ghost var a := Operate(w, s, q, call.look);
    d.fuse := call.fuse;
    if action == Install {
      after := InstallLands(w, peer, call);
    } else {
      after := CallLands(w, peer, stage, action, call);
    }
    r := OperateLocked(w, d, q, call.look);
  }

  /** Where an installation leaves the node. */
  lemma InstallLands(w: World, peer: Peer, call: Call) returns (after: Stage)
    requires w.Valid() && Ready(w, peer)
    ensures Ours(w, peer, after) && after == InstalledStage(w, peer, Writes(peer.proof, call))
    ensures after == Idle || after.Journaled?
    ensures Image(w, peer.origin, Idle) == Clean(peer.origin)
    ensures var a := Operate(w, Image(w, peer.origin, Idle), Asked(peer, Install), call.look);
            && Image(w, peer.origin, after) == Replay(Act, Image(w, peer.origin, Idle), UpTo(a.steps, call.fuse))
            && (a.end.Ok? ==> a.end == Ok(Committed))
            && (a.end.Ok? && call.fuse >= |a.steps| <==> Writes(peer.proof, call) == 4)
  {
    hide Operate, Act, Leads, Transition, JournalText, Agreed, Replay;
    var m := Writes(peer.proof, call);
    InstallWrites(w, peer, call.look, call.fuse);
    after := InstalledStage(w, peer, m);
    if m > 0 {
      ReadyIsAgreed(w, peer);
      var t := TradeOf(w, peer);
      InstallLeads(w, peer);
      var image := (s: Stage) => Image(w, peer.origin, s);
      WalkReaches(Act, image, Idle, InstallWalk(w, t), m);
      assert Where(Idle, InstallWalk(w, t), m) == after;
      assert image(after) == Image(w, peer.origin, after) && image(Idle) == Image(w, peer.origin, Idle);
    } else {
      NoSteps(Act, Clean(peer.origin), 0);
    }
  }

  lemma InstallLeads(w: World, peer: Peer)
    requires w.Valid() && Ready(w, peer) && Agreed(w, peer.origin, TradeOf(w, peer))
    ensures Leads(Act, (s: Stage) => Image(w, peer.origin, s), Idle, InstallWalk(w, TradeOf(w, peer)))
  {
    hide Transition, JournalText, Agreed, Leads;
    var t := TradeOf(w, peer);
    IntendedLeads(w, peer.origin, Idle, Install, t);
    assert Intended(w, Idle, Install, t) == InstallWalk(w, t) by { InstallIntends(w, t); }
  }

  /** Where a rollback or a cleanup leaves it. */
  lemma CallLands(w: World, peer: Peer, stage: Stage, action: Action, call: Call) returns (after: Stage)
    requires w.Valid() && w.Roomy() && Ours(w, peer, stage) && Fits(stage, action) && action != Install
    ensures Ours(w, peer, after)
    ensures action == Rollback ==> after == stage || after.Journaled?
    ensures action == Cleanup ==> after == stage || after.Idle? || after.Sealed?
    ensures var a := Operate(w, Image(w, peer.origin, stage), Asked(peer, action), call.look);
            && Image(w, peer.origin, after) == Replay(Act, Image(w, peer.origin, stage), UpTo(a.steps, call.fuse))
            && (a.end.Ok? ==> a.end == Ok(Word.Restored))
            && (action == Rollback ==> (a.end.Ok? && call.fuse >= |a.steps| <==>
                  && LooksAre(call.look, peer.proof, 0, 5)
                  && call.fuse >= 2 + (if stage.manifestNew then 1 else 0) + (if stage.receiptNew then 1 else 0)))
            && (action == Cleanup ==>
                  (a.end.Ok? && call.fuse >= |a.steps| <==> LooksAre(call.look, peer.proof, 0, 4) && call.fuse >= 3))
            && (a.end.Ok? && call.fuse >= |a.steps| ==>
                  after == if action == Rollback then Journaled(Word.Restored, false, false, stage.trade) else Idle)
  {
    hide Operate, Act, Image, Belongs, Leads, LooksAre, Transition, Ready, Replay;
    var a := Operate(w, Image(w, peer.origin, stage), Asked(peer, action), call.look);
    var walk := CallFollows(w, peer, stage, action, call.look);
    var image := (s: Stage) => Image(w, peer.origin, s);
    var steps := UpTo(a.steps, call.fuse);
    WalkReaches(Act, image, stage, walk, |steps|);
    assert steps == Ops(walk)[..|steps|];
    after := Where(stage, walk, |steps|);
    assert image(after) == Image(w, peer.origin, after) && image(stage) == Image(w, peer.origin, stage);
    if action == Rollback { RollbackDecides(w, peer, stage, call.look); }
        else { CleanupDecides(w, peer, stage, call.look); }
    if a.end.Ok? && call.fuse >= |a.steps| {
      var end := if action == Rollback then Journaled(Word.Restored, false, false, stage.trade) else Idle;
      EndStage(w, peer, stage, end);
      after := end;
    }
  }

  lemma EndStage(w: World, peer: Peer, stage: Stage, end: Stage)
    requires Ours(w, peer, stage) && stage.Journaled?
    requires end == Idle || end == Journaled(Word.Restored, false, false, stage.trade)
    ensures Ours(w, peer, end) && Image(w, peer.origin, Idle) == Clean(peer.origin)
  {
    hide Agreed, Ready;
  }

  // ---------------------------------------------------------------- the rehearsal

  /** The node is at this stage of the rehearsal's own transaction. */
  ghost predicate At(w: World, d: Disk<Node, Move>, peer: Peer, stage: Stage)
    reads d
  {
    d.act == Act && Ours(w, peer, stage) && d.now == Image(w, peer.origin, stage)
  }

  lemma StageShows(w: World, peer: Peer, stage: Stage)
    requires Ours(w, peer, stage)
    ensures var s := Image(w, peer.origin, stage);
            && (stage.Idle? <==> !Evidence(s)) && (stage.Idle? ==> s == Clean(peer.origin))
            && (stage.Idle? || stage.Sealed? || stage.phase == Restored ==> AtOriginals(s, peer.origin))
            && (stage.Journaled? <==> s.journal.Some? && s.seal.None?)
  {
    hide JournalText, Wrapped, Agreed, Ready, SealOf;
  }

  /** The stage behind so many writes, and the one after its rollback, on the node. */
  lemma InstalledShows(w: World, peer: Peer, written: nat)
    requires w.Valid() && Ready(w, peer) && (written > 0 ==> IsSha(peer.proof))
    ensures var stage := InstalledStage(w, peer, written);
            && Ours(w, peer, stage) && (stage.Idle? || (stage.Journaled? && stage.phase != Restored))
            && (stage.Idle? <==> written == 0)
            && (stage.Journaled? ==> stage.trade == TradeOf(w, peer)
                                     && (stage.manifestNew <==> written >= 2) && (stage.receiptNew <==> written >= 3))
    ensures Ours(w, peer, BackStage(w, peer, written))
    ensures Image(w, peer.origin, BackStage(w, peer, written)) ==
            Back(w, Clean(peer.origin), peer.role, peer.binary, peer.proof, written)
  {
    hide JournalText, Agreed, Transition;
    if written > 0 {
      ReadyIsAgreed(w, peer);
      assert Image(w, peer.origin, BackStage(w, peer, written)) ==
             Back(w, Clean(peer.origin), peer.role, peer.binary, peer.proof, written);
    }
  }

  lemma WritesNeedProof(proof: string, call: Call)
    ensures Writes(proof, call) <= 4 && (Writes(proof, call) > 0 ==> IsSha(proof))
  {
    hide IsSha;
  }

  /** What was read of a clean node, and what its installation is asked. */
  lemma CutIs(w: World, peer: Peer, call: Call)
    ensures Cut(w, Clean(peer.origin), peer.role, peer.binary, peer.proof, call) ==
            Replay(Act, Clean(peer.origin),
                UpTo(Operate(w, Clean(peer.origin), Asked(peer, Install), call.look).steps, call.fuse))
    ensures PairOf(Clean(peer.origin)) == peer.origin
  {
    hide Operate, Replay;
  }

  method Advance(w: World, ir: Disk<Node, Move>, foreign: Disk<Node, Move>, peerIr: Peer, peerForeign: Peer, p: Plan)
    returns (failed: bool, ghost stageIr: Stage, ghost stageForeign: Stage)
    requires w.Valid() && w.Roomy() && ir != foreign
    requires At(w, ir, peerIr, Idle) && At(w, foreign, peerForeign, Idle)
    requires peerIr == Peer(Ir, p.binary, peerIr.origin, p.proofIr)
    requires peerForeign == Peer(Foreign, p.binary, peerForeign.origin, p.proofForeign)
    modifies ir, foreign
    ensures var a, b := Clean(peerIr.origin), Clean(peerForeign.origin);
            && At(w, ir, peerIr, stageIr) && At(w, foreign, peerForeign, stageForeign)
            && stageIr == InstalledStage(w, peerIr, Writes(p.proofIr, p.calls.installIr))
            && stageForeign == InstalledStage(w, peerForeign, ForeignWrites(w, a, b, p))
            && ir.now == Cut(w, a, Ir, p.binary, p.proofIr, p.calls.installIr) && foreign.now == ForeignCut(w, a, b, p)
            && (!failed <==> BothChanged(w, a, b, p))
  {
    hide Act, Image, Belongs, Ready, Writes, Cut, Operate;
    ghost var a, b := Clean(peerIr.origin), Clean(peerForeign.origin);
    assert Image(w, peerIr.origin, Idle) == a && Image(w, peerForeign.origin, Idle) == b by {
      StageShows(w, peerIr, Idle);
      StageShows(w, peerForeign, Idle);
    }
    CutIs(w, peerIr, p.calls.installIr);
    CutIs(w, peerForeign, p.calls.installForeign);
    stageForeign := Idle;
    var first;
    first, stageIr := Ask(w, ir, peerIr, Install, p.calls.installIr, Idle);
    if first != Ok(Committed) || !p.accepts(AfterIr, ir.now, foreign.now) {
      return true, stageIr, stageForeign;
    }
    var second;
    second, stageForeign := Ask(w, foreign, peerForeign, Install, p.calls.installForeign, Idle);
    failed := second != Ok(Committed) || !p.accepts(AfterBoth, ir.now, foreign.now);
  }

  /** Rolls back one node, if it has a journal. */
  method Undo(w: World, d: Disk<Node, Move>, peer: Peer, call: Call, ghost written: nat, ghost stage: Stage)
    returns (done: bool, ghost after: Stage)
    requires w.Valid() && w.Roomy() && At(w, d, peer, stage)
    requires Ready(w, peer) && stage == InstalledStage(w, peer, written) && (written > 0 ==> IsSha(peer.proof))
    modifies d
    ensures At(w, d, peer, after) && (after.Idle? || after.Journaled?) && (stage.Journaled? ==> after.Journaled?)
    ensures done <==> Undoes(peer.proof, call, written)
    ensures done ==> after == BackStage(w, peer, written)
  {
    hide Act, Image, Belongs, Ready, LooksAre, IsSha;
    InstalledShows(w, peer, written);
    StageShows(w, peer, stage);
    after, done := stage, true;
    if d.now.journal.Some? {
      var outcome;
      outcome, after := Ask(w, d, peer, Rollback, call, stage);
      done := outcome == Ok(Word.Restored);
    }
  }

  /** Removes the journal of one node that is back at its originals. */
  method Clear(w: World, d: Disk<Node, Move>, peer: Peer, call: Call, ghost written: nat) returns (done: bool)
    requires w.Valid() && w.Roomy() && Ready(w, peer) && (written > 0 ==> IsSha(peer.proof))
    requires At(w, d, peer, BackStage(w, peer, written))
    modifies d
    ensures AtOriginals(d.now, peer.origin) && (Evidence(d.now) || d.now == Clean(peer.origin))
    ensures done <==> Clears(peer.proof, call, written)
    ensures done ==> d.now == Clean(peer.origin)
  {
    hide Act, Image, Belongs, Ready, LooksAre, IsSha;
    ghost var stage := BackStage(w, peer, written);
    StageShows(w, peer, stage);
    if d.now.journal.Some? {
      var outcome; ghost var after;
      outcome, after := Ask(w, d, peer, Cleanup, call, stage);
      StageShows(w, peer, after);
      if outcome != Ok(Word.Restored) {
        return false;
      }
    }
    done := AtOriginals(d.now, peer.origin) && !Evidence(d.now);
  }

  /** Until the journals are cleared a changed node has its journal and no seal; from then on its pair is the
      original. */
  predicate Kept(s: Node, origin: Pair, clearing: bool) {
    || s == Clean(origin)
    || (if clearing then AtOriginals(s, origin) && Evidence(s) else s.journal.Some? && s.seal.None?)
  }

  /** Rolls both nodes back and, only when both are restored and accepted, clears their journals.  `clearing` tells
      whether the second part began. */
  method Retreat(w: World, ir: Disk<Node, Move>, foreign: Disk<Node, Move>, peerIr: Peer, peerForeign: Peer, p: Plan,
                 ghost writtenIr: nat, ghost writtenForeign: nat, ghost stageIr: Stage, ghost stageForeign: Stage)
    returns (done: bool, ghost clearing: bool)
    requires w.Valid() && w.Roomy() && ir != foreign && Ready(w, peerIr) && Ready(w, peerForeign)
    requires peerIr.proof == p.proofIr && peerForeign.proof == p.proofForeign
    requires At(w, ir, peerIr, stageIr) && stageIr == InstalledStage(w, peerIr, writtenIr)
             && (writtenIr > 0 ==> IsSha(p.proofIr))
    requires At(w, foreign, peerForeign, stageForeign) && stageForeign == InstalledStage(w, peerForeign, writtenForeign)
    requires writtenForeign > 0 ==> IsSha(p.proofForeign)
    modifies ir, foreign
    ensures var a, b := Clean(peerIr.origin), Clean(peerForeign.origin);
            var backIr := Back(w, a, peerIr.role, peerIr.binary, p.proofIr, writtenIr);
            var backForeign := Back(w, b, peerForeign.role, peerForeign.binary, p.proofForeign, writtenForeign);
            && (clearing <==>
                  && p.accepts(BeforeRollback, old(ir.now), old(foreign.now))
                  && Undoes(p.proofForeign, p.calls.rollbackForeign, writtenForeign)
                  && Undoes(p.proofIr, p.calls.rollbackIr, writtenIr)
                  && p.accepts(CheckIr, backIr, backForeign) && p.accepts(CheckForeign, backIr, backForeign)
                  && p.accepts(AfterRollback, backIr, backForeign))
            && (done <==>
                  && clearing && Clears(p.proofIr, p.calls.cleanIr, writtenIr) && p.accepts(CleanedIr, a, backForeign)
                  && Clears(p.proofForeign, p.calls.cleanForeign, writtenForeign) && p.accepts(CleanedForeign, a, b))
    ensures done ==> ir.now == Clean(peerIr.origin) && foreign.now == Clean(peerForeign.origin)
    ensures Kept(ir.now, peerIr.origin, clearing) && Kept(foreign.now, peerForeign.origin, clearing)
    ensures !clearing ==>
              (old(Evidence(ir.now)) ==> Evidence(ir.now)) && (old(Evidence(foreign.now)) ==> Evidence(foreign.now))
  {
    hide Act, Image, Belongs, Ready, Undoes, Clears, IsSha, InstalledStage, BackStage, Back;
    InstalledShows(w, peerIr, writtenIr);
    InstalledShows(w, peerForeign, writtenForeign);
    BackShows(w, peerIr, writtenIr);
    BackShows(w, peerForeign, writtenForeign);
    StageShows(w, peerIr, stageIr);
    StageShows(w, peerForeign, stageForeign);
    clearing := false;
    if !p.accepts(BeforeRollback, ir.now, foreign.now) {
      return false, clearing;
    }
    var back; ghost var nowForeign, nowIr;
    back, nowForeign := Undo(w, foreign, peerForeign, p.calls.rollbackForeign, writtenForeign, stageForeign);
    StageShows(w, peerForeign, nowForeign);
    if !back {
      return false, clearing;
    }
    back, nowIr := Undo(w, ir, peerIr, p.calls.rollbackIr, writtenIr, stageIr);
    StageShows(w, peerIr, nowIr);
    if !back || !AtOriginals(ir.now, peerIr.origin) || !p.accepts(CheckIr, ir.now, foreign.now)
       || !AtOriginals(foreign.now, peerForeign.origin) || !p.accepts(CheckForeign, ir.now, foreign.now)
       || !p.accepts(AfterRollback, ir.now, foreign.now) {
      return false, clearing;
    }
    clearing := true;
    done := Clear(w, ir, peerIr, p.calls.cleanIr, writtenIr);
    if !done || !p.accepts(CleanedIr, ir.now, foreign.now) {
      return false, clearing;
    }
    done := Clear(w, foreign, peerForeign, p.calls.cleanForeign, writtenForeign);
    done := done && p.accepts(CleanedForeign, ir.now, foreign.now);
  }

  lemma BackShows(w: World, peer: Peer, written: nat)
    requires Ready(w, peer)
    ensures var stage := BackStage(w, peer, written); stage.Idle? || (stage.Journaled? && stage.phase == Restored)
  {
  }

  predicate Compensated(r: Result<()>) {
    r.Ok? || r == Fail(Hold(TwoHostAbortedExactRollbackProved))
  }

  /** What is established before anything is written. */
  function Preflight(w: World, s: Node, role: Word, binary: string): Result<Pair> {
    if s.journal.Some? || s.seal.Some? || s.conflict then Fail(Hold(TwoHostPendingRecovery))
    else match Current(s)
      case Fail(_) => Fail(Hold(TwoHostPreflightUnverified))
      case Ok(pair) =>
        if Transition(w, pair.0, pair.1, binary, role).Fail? then Fail(Hold(TwoHostPreflightUnverified)) else Ok(pair)
  }

  lemma PreflightExactly(w: World, s: Node, role: Word, binary: string, proof: string)
    requires role == Ir || role == Foreign
    ensures Preflight(w, s, role, binary).Ok? <==> CanBegin(w, s, role, binary)
    ensures Preflight(w, s, role, binary).Fail? ==>
              Preflight(w, s, role, binary).failure in {Hold(TwoHostPendingRecovery), Hold(TwoHostPreflightUnverified)}
    ensures Preflight(w, s, role, binary).Ok? ==>
              var origin := Preflight(w, s, role, binary).value;
              && s == Clean(origin) && Ready(w, Peer(role, binary, origin, proof))
              && Ours(w, Peer(role, binary, origin, proof), Idle) && Image(w, origin, Idle) == s
  {
    hide Transition;
  }

  /** The whole rehearsal.  `clearing` tells whether the removal of journals began. */
  method Rehearse(w: World, ir: Disk<Node, Move>, foreign: Disk<Node, Move>, p: Plan)
      returns (r: Result<()>, ghost clearing: bool)
    requires w.Valid() && w.Roomy() && ir != foreign && ir.act == Act && foreign.act == Act
    modifies ir, foreign
    // it succeeds exactly if both nodes were changed in full and accepted, restored and accepted, cleared and accepted
    ensures r.Ok? <==>
            && Begun(w, old(ir.now), old(foreign.now), p.binary, p.accepts)
            && BothChanged(w, old(ir.now), old(foreign.now), p)
            && RestoredBoth(w, old(ir.now), old(foreign.now), p) && ClearedBoth(w, old(ir.now), old(foreign.now), p)
    // it reports a compensated failure exactly if some change was not made or not accepted, and all the rest was
    ensures r == Fail(Hold(TwoHostAbortedExactRollbackProved)) <==>
            && Begun(w, old(ir.now), old(foreign.now), p.binary, p.accepts)
            && !BothChanged(w, old(ir.now), old(foreign.now), p)
            && RestoredBoth(w, old(ir.now), old(foreign.now), p) && ClearedBoth(w, old(ir.now), old(foreign.now), p)
    // it asks for review exactly if something was begun, and not restored or not cleared
    ensures r == Fail(Hold(TwoHostRollbackManualReviewRequired)) <==>
            && Begun(w, old(ir.now), old(foreign.now), p.binary, p.accepts)
            && !(RestoredBoth(w, old(ir.now), old(foreign.now), p) && ClearedBoth(w, old(ir.now), old(foreign.now), p))
    // journals are only removed once both nodes are restored and accepted
    ensures clearing <==>
            && Begun(w, old(ir.now), old(foreign.now), p.binary, p.accepts)
            && RestoredBoth(w, old(ir.now), old(foreign.now), p)
    // success, or a failure reported as compensated: both nodes are what they were, without journal or seal
    ensures Compensated(r) ==> ir.now == old(ir.now) && foreign.now == old(foreign.now)
    // a failure that asks for review: a node that is not what it was has, until the journals are cleared, its journal
    // and no seal; from then on it has the original pair, and still its journal or its seal
    ensures r == Fail(Hold(TwoHostRollbackManualReviewRequired)) ==>
              && old(ir.now) == Clean(PairOf(old(ir.now))) && Kept(ir.now, PairOf(old(ir.now)), clearing)
              && old(foreign.now) == Clean(PairOf(old(foreign.now)))
              && Kept(foreign.now, PairOf(old(foreign.now)), clearing)
    // any other answer comes before the first durable step
    ensures !Compensated(r) && r != Fail(Hold(TwoHostRollbackManualReviewRequired)) ==>
              ir.now == old(ir.now) && foreign.now == old(foreign.now)
  {
    hide Act, Image, Belongs, Ready, Preflight, CanBegin, BothChanged, InstalledStage, IsSha, Cut, ForeignCut,
         ForeignWrites, Undoes, Clears, Back, Operate;
    ghost var a, b := ir.now, foreign.now;
    clearing := false;
    PreflightExactly(w, a, Ir, p.binary, p.proofIr);
    PreflightExactly(w, b, Foreign, p.binary, p.proofForeign);
    var originIr, originForeign := Preflight(w, ir.now, Ir, p.binary), Preflight(w, foreign.now, Foreign, p.binary);
    if originIr.Fail? {
      return Fail(originIr.failure), clearing;
    }
    if originForeign.Fail? {
      return Fail(originForeign.failure), clearing;
    }
    if !p.accepts(Before, ir.now, foreign.now) {
      return Fail(Hold(TwoHostPriorSyntheticProofFailed)), clearing;
    }
    if !AtOriginals(foreign.now, originForeign.value) {
      return Fail(Hold(TwoHostPreflightPairChanged)), clearing;
    }
    if !p.accepts(RecheckForeign, ir.now, foreign.now) {
      return Fail(Hold(TwoHostPreflightWitnessChanged)), clearing;
    }
    if !AtOriginals(ir.now, originIr.value) {
      return Fail(Hold(TwoHostPreflightPairChanged)), clearing;
    }
    if !p.accepts(RecheckIr, ir.now, foreign.now) {
      return Fail(Hold(TwoHostPreflightWitnessChanged)), clearing;
    }
    assert Begun(w, a, b, p.binary, p.accepts);
    var peerIr, peerForeign := Peer(Ir, p.binary, originIr.value, p.proofIr),
        Peer(Foreign, p.binary, originForeign.value, p.proofForeign);
    var failed, done; ghost var stageIr, stageForeign;
    failed, stageIr, stageForeign := Advance(w, ir, foreign, peerIr, peerForeign, p);
    ghost var writtenIr, writtenForeign := Writes(p.proofIr, p.calls.installIr), ForeignWrites(w, a, b, p);
    WritesNeedProof(p.proofIr, p.calls.installIr);
    WritesNeedProof(p.proofForeign, p.calls.installForeign);
    assert writtenForeign > 0 ==> IsSha(p.proofForeign) by { ForeignWritesNeed(w, a, b, p); }
    done, clearing := Retreat(w, ir, foreign, peerIr, peerForeign, p, writtenIr, writtenForeign, stageIr, stageForeign);
    if !done {
      return Fail(Hold(TwoHostRollbackManualReviewRequired)), clearing;
    }
    if failed {
      return Fail(Hold(TwoHostAbortedExactRollbackProved)), clearing;
    }
    return Ok(()), clearing;
  }

  lemma ForeignWritesNeed(w: World, a: Node, b: Node, p: Plan)
    ensures ForeignWrites(w, a, b, p) > 0 ==> IsSha(p.proofForeign)
  {
    hide IrChanged, Writes;
    WritesNeedProof(p.proofForeign, p.calls.installForeign);
  }
}
