/** The coordinator that rehearses the paired transaction on two hosts and always compensates. */
module TwoHosts {
  import opened Durable
  import opened Host
  import opened PairPlanner
  import opened PairTransaction
  import opened PairRuns
  import opened PairOutcomes

  /** The moments at which the protected state of both hosts is looked at again. */
  datatype Moment = Before | AfterIr | AfterBoth | BeforeRollback | CheckIr | CheckForeign | AfterRollback

  /** How many durable steps each call completes before it raises. */
  datatype Faults = Faults(applyIr: nat, applyForeign: nat, recoverForeign: nat, recoverIr: nat)

  predicate Pending(s: Lab) {
    s.journal.Some? || s.seal.Some?
  }

  predicate Unchanged(s: Lab, tx: Tx) {
    s.manifest == Some(tx.m0) && s.receipt == Some(tx.r0)
  }

  // ---------------------------------------------------------------- what the answer has to be

  /** The observer looks at both hosts as they are at that moment. */
  type Observer = (Moment, Lab, Lab) -> bool

  /** The host after an application that raises behind so many steps. */
  function Cut(w: World, s: Lab, sha: string, role: Word, fuse: nat): Lab {
    Replay(Act, s, UpTo(Apply(w, s, sha, role).steps, fuse))
  }

  /** Both hosts can be changed, and the observer accepts them as they are. */
  predicate Begun(w: World, a: Lab, b: Lab, sha: string, accepts: Observer) {
    Applicable(w, a, sha, Ir) && Applicable(w, b, sha, Foreign) && accepts(Before, a, b)
  }

  /** IR was changed in full, and accepted. */
  predicate IrChanged(w: World, a: Lab, b: Lab, sha: string, accepts: Observer, faults: Faults) {
    faults.applyIr >= 8 && accepts(AfterIr, Cut(w, a, sha, Ir, faults.applyIr), b)
  }

  /** How many steps the application on Foreign completes; it is not called before IR is changed. */
  function ForeignSteps(w: World, a: Lab, b: Lab, sha: string, accepts: Observer, faults: Faults): nat {
    if IrChanged(w, a, b, sha, accepts, faults) then faults.applyForeign else 0
  }

  /** Both hosts were changed in full, and accepted each time. */
  predicate BothChanged(w: World, a: Lab, b: Lab, sha: string, accepts: Observer, faults: Faults) {
    && IrChanged(w, a, b, sha, accepts, faults) && faults.applyForeign >= 8
    && accepts(AfterBoth, Cut(w, a, sha, Ir, faults.applyIr), Cut(w, b, sha, Foreign, faults.applyForeign))
  }

  /** A recovery that completes so many steps undoes an application that completed so many: there is nothing to
      undo, or its journal is complete and the power lasts for the seal, the eight deletions and each file that was
      written. */
  predicate Undoes(recovered: nat, applied: nat) {
    || applied == 0
    || (applied >= 6 && recovered >= 8 + (if applied >= 7 then 1 else 0) + (if applied >= 8 then 1 else 0))
  }

  /** Both hosts are undone, Foreign first, and accepted before, in between and after. */
  predicate UndoneBoth(w: World, a: Lab, b: Lab, sha: string, accepts: Observer, faults: Faults) {
    var applied := ForeignSteps(w, a, b, sha, accepts, faults);
    && accepts(BeforeRollback, Cut(w, a, sha, Ir, faults.applyIr), Cut(w, b, sha, Foreign, applied))
    && Undoes(faults.recoverForeign, applied) && Undoes(faults.recoverIr, faults.applyIr)
    && accepts(CheckIr, a, b) && accepts(CheckForeign, a, b) && accepts(AfterRollback, a, b)
  }

  // ---------------------------------------------------------------- the coordinator

  /** Where a call of `apply` on a checked host leaves it. */
  lemma AppliedStage(w: World, s: Lab, tx: Tx, fuse: nat) returns (stage: Stage)
    requires Prepare(w, s, tx.sha, tx.role) == Ok(tx)
    ensures s == Clean(tx.m0, tx.r0) && Belongs(w, tx.m0, tx.r0, stage)
    ensures Cut(w, s, tx.sha, tx.role, fuse) == Image(w, tx.m0, tx.r0, stage)
    ensures stage == ApplyStage(if fuse < 8 then fuse else 8, tx) && |Apply(w, s, tx.sha, tx.role).steps| == 8
    ensures Apply(w, s, tx.sha, tx.role).end.Ok?
  {
    hide Transition, ApplySteps;
    var k := if fuse < 8 then fuse else 8;
    stage := ApplyStage(k, tx);
    ApplyReaches(w, tx.m0, tx.r0, tx, k);
    assert ApplySteps(w, tx)[..8] == ApplySteps(w, tx);
  }

  /** A stage either shows the originals or has left evidence; and recovery ends clean, if it can begin and the power
      lasts. */
  lemma StageEvidence(w: World, m0: Bytes, r0: Bytes, stage: Stage)
    requires w.Valid() && Belongs(w, m0, r0, stage)
    ensures var s := Image(w, m0, r0, stage);
            && (stage == Idle <==> !Pending(s)) && (stage == Idle ==> s == Clean(m0, r0))
            && (stage == Idle || stage.Writing? || Recoverable(stage))
            && (Recover(w, s).end.Ok? <==> Recoverable(stage))
            && (Recover(w, s).end.Ok? ==> Replay(Act, s, Recover(w, s).steps) == Clean(m0, r0))
            && (Recoverable(stage) ==> |Recover(w, s).steps| == Rank(stage))
  {
    hide Recover, Act, Transition;
    RecoverFrom(w, m0, r0, stage);
    if Recoverable(stage) {
      DescentReaches(w, m0, r0, stage, Rank(stage));
      assert Descent(w, stage)[..Rank(stage)] == Descent(w, stage);
      OnlyIdleIsDone(w, m0, r0, DownBy(stage, Rank(stage)), stage);
    }
  }

  /** Undoes one host, if there is anything to undo. */
  method Compensate(w: World, d: Disk<Lab, Step>, fault: nat, ghost m0: Bytes, ghost r0: Bytes, ghost stage: Stage)
    returns (r: Result<()>)
    requires w.Valid() && d.act == Act
    requires Belongs(w, m0, r0, stage) && d.now == Image(w, m0, r0, stage)
    modifies d
    ensures r.Ok? ==> d.now == Clean(m0, r0)
    ensures r.Fail? ==> Pending(d.now) || d.now == Clean(m0, r0)
    ensures r.Ok? <==> stage == Idle || (Recoverable(stage) && fault >= Rank(stage))
  {
    hide Recover, Image, Transition, Act;
    StageEvidence(w, m0, r0, stage);
    if Pending(d.now) {
      RecoverFrom(w, m0, r0, stage);
      ghost var after := RecoverStays(w, m0, r0, stage, fault);
      StageEvidence(w, m0, r0, after);
      d.fuse := fault;
      var _ :- RecoverLocked(w, d);
    }
    return Ok(());
  }

  /** Applies the change on IR, then on Foreign, until something is not accepted. */
  method Advance(w: World, ir: Disk<Lab, Step>, foreign: Disk<Lab, Step>, sha: string, txIr: Tx, txForeign: Tx,
                 accepts: Observer, faults: Faults)
    returns (failed: bool, ghost stageIr: Stage, ghost stageForeign: Stage)
    requires w.Valid() && ir != foreign && ir.act == Act && foreign.act == Act
    requires Prepare(w, ir.now, sha, Ir) == Ok(txIr) && txIr.sha == sha && txIr.role == Ir
    requires Prepare(w, foreign.now, sha, Foreign) == Ok(txForeign) && txForeign.sha == sha && txForeign.role == Foreign
    modifies ir, foreign
    ensures old(ir.now) == Clean(txIr.m0, txIr.r0) && old(foreign.now) == Clean(txForeign.m0, txForeign.r0)
    ensures Belongs(w, txIr.m0, txIr.r0, stageIr) && ir.now == Image(w, txIr.m0, txIr.r0, stageIr)
    ensures Belongs(w, txForeign.m0, txForeign.r0, stageForeign)
    ensures foreign.now == Image(w, txForeign.m0, txForeign.r0, stageForeign)
    ensures var applied := ForeignSteps(w, old(ir.now), old(foreign.now), sha, accepts, faults);
            && ir.now == Cut(w, old(ir.now), sha, Ir, faults.applyIr)
            && foreign.now == Cut(w, old(foreign.now), sha, Foreign, applied)
            && stageIr == ApplyStage(if faults.applyIr < 8 then faults.applyIr else 8, txIr)
            && stageForeign == ApplyStage(if applied < 8 then applied else 8, txForeign)
    ensures !failed <==> BothChanged(w, old(ir.now), old(foreign.now), sha, accepts, faults)
  {
    hide Transition, Act, Prepare, ApplySteps, Cut;
    ghost var a, b := ir.now, foreign.now;
    stageIr := AppliedStage(w, a, txIr, faults.applyIr);
    stageForeign := AppliedStage(w, b, txForeign, 0);
    assert Cut(w, b, sha, Foreign, 0) == b by { CutNowhere(w, b, sha, Foreign); }
    ir.fuse := faults.applyIr;
    var first := ApplyLocked(w, ir, txIr.sha, txIr.role);
    assert ir.now == Cut(w, a, sha, Ir, faults.applyIr) by { CutIs(w, a, sha, Ir, faults.applyIr); }
    if first.Fail? || !accepts(AfterIr, ir.now, foreign.now) {
      return true, stageIr, stageForeign;
    }
    stageForeign := AppliedStage(w, b, txForeign, faults.applyForeign);
    foreign.fuse := faults.applyForeign;
    var second := ApplyLocked(w, foreign, txForeign.sha, txForeign.role);
    assert foreign.now == Cut(w, b, sha, Foreign, faults.applyForeign)
        by { CutIs(w, b, sha, Foreign, faults.applyForeign); }
    failed := second.Fail? || !accepts(AfterBoth, ir.now, foreign.now);
  }

  lemma CutIs(w: World, s: Lab, sha: string, role: Word, fuse: nat)
    ensures Cut(w, s, sha, role, fuse) == Replay(Act, s, UpTo(Apply(w, s, sha, role).steps, fuse))
  {
  }

  lemma CutNowhere(w: World, s: Lab, sha: string, role: Word)
    ensures Cut(w, s, sha, role, 0) == s
  {
    hide Apply, Replay;
    assert UpTo(Apply(w, s, sha, role).steps, 0) == [];
    NoSteps(Act, s, 0);
  }

  /** The rehearsal behind the first look: forward, and back in any case. */
  method AfterProof(w: World, ir: Disk<Lab, Step>, foreign: Disk<Lab, Step>, sha: string, txIr: Tx, txForeign: Tx,
                    accepts: Observer, faults: Faults) returns (r: Result<()>)
    requires w.Valid() && ir != foreign && ir.act == Act && foreign.act == Act
    requires Prepare(w, ir.now, sha, Ir) == Ok(txIr) && txIr.sha == sha && txIr.role == Ir
    requires Prepare(w, foreign.now, sha, Foreign) == Ok(txForeign) && txForeign.sha == sha && txForeign.role == Foreign
    modifies ir, foreign
    ensures r == if !UndoneBoth(w, old(ir.now), old(foreign.now), sha, accepts, faults) then
                   Fail(Hold(TwoHostRollbackManualReviewRequired))
                 else if !BothChanged(w, old(ir.now), old(foreign.now), sha, accepts, faults) then
                   Fail(Hold(TwoHostAbortedExactRollbackProved))
                 else Ok(())
    ensures r != Fail(Hold(TwoHostRollbackManualReviewRequired)) ==>
              ir.now == old(ir.now) && foreign.now == old(foreign.now)
    ensures Pending(ir.now) || ir.now == old(ir.now)
    ensures Pending(foreign.now) || foreign.now == old(foreign.now)
  {
    hide Image, Act, ApplySteps, Belongs, Apply, BothChanged, UndoneBoth, ApplyStage, Cut, ForeignSteps, IrChanged,
         Undoes, Recoverable, Rank, World.Valid, Prepare, Pending;
    var failed; ghost var stageIr, stageForeign;
    ghost var a, b := ir.now, foreign.now;
    failed, stageIr, stageForeign := Advance(w, ir, foreign, sha, txIr, txForeign, accepts, faults);
    StageEvidence(w, txIr.m0, txIr.r0, stageIr);
    StageEvidence(w, txForeign.m0, txForeign.r0, stageForeign);
    UndoneByRank(faults.applyIr, txIr);
    UndoneByRank(ForeignSteps(w, a, b, sha, accepts, faults), txForeign);
    UndoneIs(w, a, b, sha, accepts, faults);
    r := Retreat(w, ir, foreign, txIr, txForeign, accepts, faults, failed, stageIr, stageForeign);
  }

  /** The rehearsal: both hosts are checked first, then changed in turn, and always changed back. */
  method Rehearse(w: World, ir: Disk<Lab, Step>, foreign: Disk<Lab, Step>, sha: string,
                  accepts: Observer, faults: Faults) returns (r: Result<()>)
    requires w.Valid() && ir != foreign && ir.act == Act && foreign.act == Act
    modifies ir, foreign
    // it succeeds exactly if both hosts were changed in full and accepted, and both were undone and accepted
    ensures r.Ok? <==>
            && Begun(w, old(ir.now), old(foreign.now), sha, accepts)
            && BothChanged(w, old(ir.now), old(foreign.now), sha, accepts, faults)
            && UndoneBoth(w, old(ir.now), old(foreign.now), sha, accepts, faults)
    // it reports a compensated failure exactly if some change was cut or not accepted, and both were undone, accepted
    ensures r == Fail(Hold(TwoHostAbortedExactRollbackProved)) <==>
            && Begun(w, old(ir.now), old(foreign.now), sha, accepts)
            && !BothChanged(w, old(ir.now), old(foreign.now), sha, accepts, faults)
            && UndoneBoth(w, old(ir.now), old(foreign.now), sha, accepts, faults)
    // it asks for review exactly if something was begun, and not undone and accepted
    ensures r == Fail(Hold(TwoHostRollbackManualReviewRequired)) <==>
            && Begun(w, old(ir.now), old(foreign.now), sha, accepts)
            && !UndoneBoth(w, old(ir.now), old(foreign.now), sha, accepts, faults)
    // success, or a failure reported as compensated: both hosts are what they were
    ensures r.Ok? || r == Fail(Hold(TwoHostAbortedExactRollbackProved)) ==>
              ir.now == old(ir.now) && foreign.now == old(foreign.now)
    // a failure that asks for review: a host that is not what it was still has its journal or seal
    ensures r == Fail(Hold(TwoHostRollbackManualReviewRequired)) ==>
              && (Pending(ir.now) || ir.now == old(ir.now))
              && (Pending(foreign.now) || foreign.now == old(foreign.now))
    // any other answer comes before the first durable step
    ensures !Begun(w, old(ir.now), old(foreign.now), sha, accepts) ==>
              ir.now == old(ir.now) && foreign.now == old(foreign.now)
  {
    hide Act, BothChanged, UndoneBoth;
    PreparedExactly(w, ir.now, sha, Ir);
    PreparedExactly(w, foreign.now, sha, Foreign);
    hide Applicable, Prepare;
    var txIr :- Prepare(w, ir.now, sha, Ir);
    var txForeign :- Prepare(w, foreign.now, sha, Foreign);
    if !accepts(Before, ir.now, foreign.now) {
      return Fail(Hold(TwoHostPriorSyntheticProofFailed));
    }
    r := AfterProof(w, ir, foreign, sha, txIr, txForeign, accepts, faults);
  }

  lemma PreparedExactly(w: World, s: Lab, sha: string, role: Word)
    ensures Prepare(w, s, sha, role).Ok? <==> Applicable(w, s, sha, role)
    ensures Prepare(w, s, sha, role).Ok? ==>
            Prepare(w, s, sha, role).value.sha == sha && Prepare(w, s, sha, role).value.role == role
    ensures Prepare(w, s, sha, role).Fail? ==> Prepare(w, s, sha, role).failure in {
              Hold(OtherEngineRecoveryJournalPending), Hold(PairInterruptedTransactionRequiresRecovery),
              Hold(PairPrivateFileUntrusted), Hold(PairBaselineUntrusted), Hold(PairReceiptOversized),
                  Hold(PairReceiptUntrusted)}
  {
    hide Plan, LoadJson;
    LoadFails(w, s, sha, role);
  }

  lemma LoadFails(w: World, s: Lab, sha: string, role: Word)
    ensures forall raw :: LoadJson(w, raw).Fail? ==> LoadJson(w, raw).failure == Hold(PairReceiptUntrusted)
  {
  }

  /** An application that completed so many steps is undone by as many as its stage has left. */
  lemma UndoneByRank(applied: nat, tx: Tx)
    ensures forall recovered: nat :: Undoes(recovered, applied) <==>
              var stage := ApplyStage(if applied < 8 then applied else 8, tx);
              stage == Idle || (Recoverable(stage) && recovered >= Rank(stage))
  {
  }

  lemma UndoneIs(w: World, a: Lab, b: Lab, sha: string, accepts: Observer, faults: Faults)
    ensures UndoneBoth(w, a, b, sha, accepts, faults) <==>
            var applied := ForeignSteps(w, a, b, sha, accepts, faults);
            && accepts(BeforeRollback, Cut(w, a, sha, Ir, faults.applyIr), Cut(w, b, sha, Foreign, applied))
            && Undoes(faults.recoverForeign, applied) && Undoes(faults.recoverIr, faults.applyIr)
            && accepts(CheckIr, a, b) && accepts(CheckForeign, a, b) && accepts(AfterRollback, a, b)
  {
  }

  /** Undoes Foreign, then IR, and reports success only on proof that both pairs are the originals. */
  method Retreat(w: World, ir: Disk<Lab, Step>, foreign: Disk<Lab, Step>, txIr: Tx, txForeign: Tx,
                 accepts: Observer, faults: Faults, failed: bool, ghost stageIr: Stage, ghost stageForeign: Stage)
    returns (r: Result<()>)
    requires w.Valid() && ir != foreign && ir.act == Act && foreign.act == Act
    requires Belongs(w, txIr.m0, txIr.r0, stageIr) && ir.now == Image(w, txIr.m0, txIr.r0, stageIr)
    requires Belongs(w, txForeign.m0, txForeign.r0, stageForeign)
    requires foreign.now == Image(w, txForeign.m0, txForeign.r0, stageForeign)
    modifies ir, foreign
    ensures var a, b := Clean(txIr.m0, txIr.r0), Clean(txForeign.m0, txForeign.r0);
            var proved :=
              && accepts(BeforeRollback, old(ir.now), old(foreign.now))
              && (stageForeign == Idle || (Recoverable(stageForeign) && faults.recoverForeign >= Rank(stageForeign)))
              && (stageIr == Idle || (Recoverable(stageIr) && faults.recoverIr >= Rank(stageIr)))
              && accepts(CheckIr, a, b) && accepts(CheckForeign, a, b) && accepts(AfterRollback, a, b);
            r == if !proved then Fail(Hold(TwoHostRollbackManualReviewRequired))
                 else if failed then Fail(Hold(TwoHostAbortedExactRollbackProved)) else Ok(())
    ensures r.Ok? || r == Fail(Hold(TwoHostAbortedExactRollbackProved)) ==>
              ir.now == Clean(txIr.m0, txIr.r0) && foreign.now == Clean(txForeign.m0, txForeign.r0)
    ensures (Pending(ir.now) || ir.now == Clean(txIr.m0, txIr.r0))
    ensures (Pending(foreign.now) || foreign.now == Clean(txForeign.m0, txForeign.r0))
  {
    hide Image, Belongs, Act;
    StageEvidence(w, txIr.m0, txIr.r0, stageIr);
    StageEvidence(w, txForeign.m0, txForeign.r0, stageForeign);
    if !accepts(BeforeRollback, ir.now, foreign.now) {
      return Fail(Hold(TwoHostRollbackManualReviewRequired));
    }
    var undoneForeign := Compensate(w, foreign, faults.recoverForeign, txForeign.m0, txForeign.r0, stageForeign);
    if undoneForeign.Fail? {
      return Fail(Hold(TwoHostRollbackManualReviewRequired));
    }
    var undoneIr := Compensate(w, ir, faults.recoverIr, txIr.m0, txIr.r0, stageIr);
    if undoneIr.Fail? {
      return Fail(Hold(TwoHostRollbackManualReviewRequired));
    }
    if !Unchanged(ir.now, txIr) || !accepts(CheckIr, ir.now, foreign.now)
       || !Unchanged(foreign.now, txForeign) || !accepts(CheckForeign, ir.now, foreign.now)
       || !accepts(AfterRollback, ir.now, foreign.now) {
      return Fail(Hold(TwoHostRollbackManualReviewRequired));
    }
    if failed {
      return Fail(Hold(TwoHostAbortedExactRollbackProved));
    }
    return Ok(());
  }
}
