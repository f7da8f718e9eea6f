/** Every run of the paired transaction: any sequence of apply and recover calls, each cut
    after any number of durable steps. */
module PairRuns {
  import opened Durable
  import opened Host
  import opened PairPlanner
  import opened PairTransaction
  import opened PairGuarantees

  /** How far the transaction is.  `Writing(n)` has written n journal parts, `Full` all five, and
      `Sealed(gone)` has deleted the first `gone` of the five parts, then the directory. */
  datatype Stage =
    | Idle
    | Writing(n: nat, tx: Tx)
    | Full(manifestNew: bool, receiptNew: bool, tx: Tx)
    | Sealed(gone: nat, tx: Tx)

  ghost predicate Belongs(w: World, m0: Bytes, r0: Bytes, stage: Stage) {
    match stage
    case Idle => true
    case Writing(n, tx) => n <= 4 && ChangeOf(w, m0, r0, tx)
    case Full(_, _, tx) => ChangeOf(w, m0, r0, tx)
    case Sealed(gone, tx) => gone <= 6 && ChangeOf(w, m0, r0, tx)
  }

  ghost predicate ChangeOf(w: World, m0: Bytes, r0: Bytes, tx: Tx) {
    Planned(w, tx) && tx.m0 == m0 && tx.r0 == r0 && Readable(r0)
  }

  function Index(part: Part): nat {
    match part
    case BeforeManifest => 0
    case BeforeReceipt => 1
    case NextManifest => 2
    case NextReceipt => 3
    case RecordFile => 4
    case Stray(_) => 5
  }

  /** The journal parts from number `lo` up to, not including, number `hi`. */
  function Kept(w: World, tx: Tx, lo: nat, hi: nat): map<Part, Bytes> {
    var full := FullJournal(tx, RecordBytes(w, tx));
    map part | part in full && lo <= Index(part) < hi :: full[part]
  }

  /** The disk one starts from: the original pair, and no trace of a transaction. */
  function Clean(m0: Bytes, r0: Bytes): Lab {
    Lab(Some(m0), Some(r0), None, None, false)
  }

  /** The one disk that belongs to a stage. */
  function Image(w: World, m0: Bytes, r0: Bytes, stage: Stage): Lab {
    match stage
    case Idle => Clean(m0, r0)
    case Writing(n, tx) => Lab(Some(m0), Some(r0), Some(Kept(w, tx, 0, n)), None, false)
    case Full(manifestNew, receiptNew, tx) =>
      Lab(Some(if manifestNew then tx.m1 else m0), Some(if receiptNew then tx.r1 else r0),
          Some(Kept(w, tx, 0, 5)), None, false)
    case Sealed(gone, tx) =>
      Lab(Some(m0), Some(r0), if gone <= 5 then Some(Kept(w, tx, gone, 5)) else None,
          Some(SealBytes(w, Evidence(tx, RecordDoc(w, tx), RecordBytes(w, tx)))), false)
  }

  // ---------------------------------------------------------------- apply climbs

  function ApplyStage(k: nat, tx: Tx): Stage {
    if k == 0 then Idle
    else if k <= 5 then Writing(k - 1, tx)
    else Full(k >= 7, k >= 8, tx)
  }

  lemma KeptGrows(w: World, tx: Tx, n: nat)
    requires n < 5
    ensures Kept(w, tx, 0, n)[JournalParts(w, tx)[n].0 := JournalParts(w, tx)[n].1] == Kept(w, tx, 0, n + 1)
  {
    var part := JournalParts(w, tx)[n].0;
    assert Index(part) == n && FullJournal(tx, RecordBytes(w, tx))[part] == JournalParts(w, tx)[n].1;
    assert forall p :: p in FullJournal(tx, RecordBytes(w, tx)) && Index(p) == n ==> p == part;
  }

  lemma {:induction false} ApplyReaches(w: World, m0: Bytes, r0: Bytes, tx: Tx, k: nat)
    requires k <= 8 && tx.m0 == m0 && tx.r0 == r0
    ensures |ApplySteps(w, tx)| == 8
    ensures Replay(Act, Image(w, m0, r0, Idle), ApplySteps(w, tx)[..k]) == Image(w, m0, r0, ApplyStage(k, tx))
  {
    hide Image, Act, Replay, ApplyStage;
    ApplyIsEight(w, tx);
    if k > 0 {
      hide ApplySteps;
      ApplyReaches(w, m0, r0, tx, k - 1);
      ReplayNext(Act, Image(w, m0, r0, Idle), ApplySteps(w, tx), k - 1);
      ApplyClimbs(w, m0, r0, tx, k);
    } else {
      NoSteps(Act, Image(w, m0, r0, Idle), 0);
      assert ApplySteps(w, tx)[..0] == [];
      assert ApplyStage(0, tx) == Idle by { NotBegun(tx); }
    }
  }

  lemma NotBegun(tx: Tx)
    ensures ApplyStage(0, tx) == Idle
  {
  }

  lemma ApplyIsEight(w: World, tx: Tx)
    ensures |ApplySteps(w, tx)| == 8
  {
  }

  lemma ApplyClimbs(w: World, m0: Bytes, r0: Bytes, tx: Tx, k: nat)
    requires 0 < k <= 8 && tx.m0 == m0 && tx.r0 == r0
    ensures |ApplySteps(w, tx)| == 8
    ensures Act(Image(w, m0, r0, ApplyStage(k - 1, tx)), ApplySteps(w, tx)[k - 1]) ==
            Image(w, m0, r0, ApplyStage(k, tx))
  {
    hide RecordBytes;
    if k == 1 {
      assert Kept(w, tx, 0, 0) == map[];
    } else if k <= 6 {
      KeptGrows(w, tx, k - 2);
      hide Kept;
    }
  }

  // ---------------------------------------------------------------- recovery descends

  /** The number of durable steps that recovery still has to take. */
  function Rank(stage: Stage): nat {
    match stage
    case Idle => 0
    case Writing(_, _) => 0
    case Full(manifestNew, receiptNew, _) => 8 + (if manifestNew then 1 else 0) + (if receiptNew then 1 else 0)
    case Sealed(gone, _) => if gone <= 6 then 7 - gone else 0
  }

  predicate Recoverable(stage: Stage) {
    stage.Full? || (stage.Sealed? && stage.gone <= 6)
  }

  function Down(stage: Stage): Stage
    requires Recoverable(stage)
  {
    match stage
    case Full(true, receiptNew, tx) => Full(false, receiptNew, tx)
    case Full(false, true, tx) => Full(false, false, tx)
    case Full(false, false, tx) => Sealed(0, tx)
    case Sealed(gone, tx) => if gone < 6 then Sealed(gone + 1, tx) else Idle
  }

  function StepDown(w: World, stage: Stage): Step
    requires Recoverable(stage)
  {
    match stage
    case Full(true, _, tx) => PutManifest(tx.m0)
    case Full(false, true, tx) => PutReceipt(tx.r0)
    case Full(false, false, tx) => AddSeal(SealBytes(w, Evidence(tx, RecordDoc(w, tx), RecordBytes(w, tx))))
    case Sealed(gone, tx) => if gone < 5 then DropPart(PARTS[gone]) else if gone == 5 then RemoveJournal else DropSeal
  }

  function DownBy(stage: Stage, k: nat): Stage
    decreases k
  {
    if k == 0 || !Recoverable(stage) then stage else DownBy(Down(stage), k - 1)
  }

  function Descent(w: World, stage: Stage): seq<Step>
    decreases Rank(stage)
  {
    if Recoverable(stage) then [StepDown(w, stage)] + Descent(w, Down(stage)) else []
  }

  lemma KeptShrinks(w: World, tx: Tx, gone: nat)
    requires gone < 5
    ensures Kept(w, tx, gone, 5) - {PARTS[gone]} == Kept(w, tx, gone + 1, 5)
    ensures PARTS[gone] in Kept(w, tx, gone, 5)
  {
    assert Index(PARTS[gone]) == gone;
    assert forall p :: p in FullJournal(tx, RecordBytes(w, tx)) && Index(p) == gone ==> p == PARTS[gone];
  }

  lemma StepReaches(w: World, m0: Bytes, r0: Bytes, stage: Stage)
    requires Recoverable(stage) && Belongs(w, m0, r0, stage)
    ensures Act(Image(w, m0, r0, stage), StepDown(w, stage)) == Image(w, m0, r0, Down(stage))
    ensures Belongs(w, m0, r0, Down(stage)) && Rank(Down(stage)) == Rank(stage) - 1
  {
    hide Planned, RecordBytes, RecordDoc, SealBytes, Readable, FullJournal;
    if stage.Sealed? && stage.gone < 5 {
      KeptShrinks(w, stage.tx, stage.gone);
    }
  }

  lemma {:induction false} DescentReaches(w: World, m0: Bytes, r0: Bytes, stage: Stage, k: nat)
    requires Recoverable(stage) && Belongs(w, m0, r0, stage) && k <= Rank(stage)
    ensures |Descent(w, stage)| == Rank(stage)
    ensures Replay(Act, Image(w, m0, r0, stage), Descent(w, stage)[..k]) == Image(w, m0, r0, DownBy(stage, k))
    ensures Belongs(w, m0, r0, DownBy(stage, k)) && Rank(DownBy(stage, k)) == Rank(stage) - k
    decreases Rank(stage)
  {
    hide Image, Belongs, StepDown, Act;
    StepReaches(w, m0, r0, stage);
    var next := Down(stage);
    if Recoverable(next) {
      DescentReaches(w, m0, r0, next, if k == 0 then 0 else k - 1);
    }
    if k > 0 {
      ReplayFirst(Act, Image(w, m0, r0, stage), Descent(w, stage)[..k]);
      var d, e := Descent(w, stage), Descent(w, next);
      assert d == [StepDown(w, stage)] + e;
      assert d[..k] == [StepDown(w, stage)] + e[..k - 1];
      assert d[..k][1..] == e[..k - 1];
    }
  }

  lemma SealedDescent(w: World, gone: nat, tx: Tx)
    requires gone <= 5
    ensures gone < 5 ==> Descent(w, Sealed(gone, tx)) == [DropPart(PARTS[gone])] + Descent(w, Sealed(gone + 1, tx))
    ensures gone == 5 ==> Descent(w, Sealed(gone, tx)) == [RemoveJournal, DropSeal]
  {
    hide SealBytes, RecordBytes, RecordDoc;
    LastDescent(w, tx);
  }

  lemma KeptFrom(w: World, tx: Tx, gone: nat, j: nat)
    requires j < 5
    ensures PARTS[j] in Kept(w, tx, gone, 5) <==> gone <= j
  {
    assert Index(PARTS[j]) == j;
  }

  lemma {:induction false} DropsKept(w: World, tx: Tx, j: nat, gone: nat)
    requires j <= 5 && gone <= 5
    ensures Drops(PARTS[j..], Kept(w, tx, gone, 5)) + [RemoveJournal, DropSeal] ==
            Descent(w, Sealed(if j < gone then gone else j, tx))
    decreases 5 - j
  {
    hide Drops, Descent, Kept;
    DropsUnfold(PARTS, Kept(w, tx, gone, 5), j);
    if j < 5 {
      DropsKept(w, tx, j + 1, gone);
      KeptFrom(w, tx, gone, j);
      if gone <= j {
        SealedDescent(w, j, tx);
      }
    } else {
      SealedDescent(w, 5, tx);
    }
  }

  lemma SealedImage(w: World, m0: Bytes, r0: Bytes, stage: Stage)
    requires w.Valid() && stage.Sealed? && Belongs(w, m0, r0, stage)
    ensures CheckCleanup(w, Image(w, m0, r0, stage)).Ok?
  {
    hide Transition, CheckCleanup, Kept, RecordBytes, Planned, SealBytes;
    RecordIsSmall(w, stage.tx);
    assert SealedFor(w, Image(w, m0, r0, stage), stage.tx, RecordBytes(w, stage.tx))
        by { KeptIsSealed(w, m0, r0, stage); }
    SealedCleans(w, Image(w, m0, r0, stage), stage.tx, RecordBytes(w, stage.tx));
  }

  lemma KeptIsSealed(w: World, m0: Bytes, r0: Bytes, stage: Stage)
    requires stage.Sealed? && Belongs(w, m0, r0, stage)
    ensures SealedFor(w, Image(w, m0, r0, stage), stage.tx, RecordBytes(w, stage.tx))
  {
    hide Transition, RecordBytes, Planned, RecordDoc;
  }

  lemma SealedDescends(w: World, m0: Bytes, r0: Bytes, stage: Stage)
    requires w.Valid() && stage.Sealed? && Belongs(w, m0, r0, stage)
    ensures Cleanup(w, Image(w, m0, r0, stage)) == Attempt(Descent(w, stage), Ok(ExactBytesRestored))
  {
    hide Transition, CheckCleanup, Descent, Drops, Kept, RecordBytes, Planned, SealBytes, RecordDoc, ChangeOf;
    SealedImage(w, m0, r0, stage);
    if stage.gone <= 5 {
      DropsKept(w, stage.tx, 0, stage.gone);
      assert PARTS[0..] == PARTS;
    } else {
      LastDescent(w, stage.tx);
    }
  }

  lemma LastDescent(w: World, tx: Tx)
    ensures Descent(w, Sealed(6, tx)) == [DropSeal]
  {
    assert Descent(w, Sealed(6, tx)) == [DropSeal] + Descent(w, Idle);
  }

  lemma RecordIsSmall(w: World, tx: Tx)
    requires w.Valid() && Planned(w, tx)
    ensures Readable(RecordBytes(w, tx)) && |RecordBytes(w, tx)| <= 4096
    ensures LoadJson(w, RecordBytes(w, tx)) == Ok(RecordDoc(w, tx)) && RecordTrusted(RecordDoc(w, tx))
  {
    hide Transition;
    PlannedFacts(w, tx);
    RecordIsTrusted(w, tx);
    SmallDocs(w, RecordDoc(w, tx));
  }

  lemma FullRecordReads(w: World, tx: Tx)
    requires w.Valid() && Planned(w, tx)
    ensures ReadRecord(w, Kept(w, tx, 0, 5)) == Ok((RecordDoc(w, tx), RecordBytes(w, tx)))
  {
    hide Transition, RecordTrusted, RecordDoc;
    RecordIsSmall(w, tx);
    assert Kept(w, tx, 0, 5) == FullJournal(tx, RecordBytes(w, tx));
  }

  lemma FullPiecesRead(w: World, tx: Tx)
    requires w.Valid() && Planned(w, tx) && Readable(tx.r0)
    ensures RecordTrusted(RecordDoc(w, tx))
    ensures ReadPieces(w, Kept(w, tx, 0, 5), RecordDoc(w, tx)) == Ok(tx)
  {
    hide Transition, RecordTrusted, ProposedSha, RecordBytes;
    PlannedFacts(w, tx);
    RecordIsTrusted(w, tx);
    assert Kept(w, tx, 0, 5) == FullJournal(tx, RecordBytes(w, tx));
  }

  lemma FullDescends(w: World, m0: Bytes, r0: Bytes, stage: Stage)
    requires w.Valid() && stage.Full? && Belongs(w, m0, r0, stage)
    ensures Recover(w, Image(w, m0, r0, stage)) == Attempt(Descent(w, stage), Ok(ExactBytesRestored))
  {
    hide Transition, RecordBytes, RecordDoc, SealBytes, ReadRecord, ReadPieces, Cleanup;
    var tx, s := stage.tx, Image(w, m0, r0, stage);
    var e := Evidence(tx, RecordDoc(w, tx), RecordBytes(w, tx));
    FullRecordReads(w, tx);
    FullPiecesRead(w, tx);
    PlannedFacts(w, tx);
    assert Examine(w, s) == Ok(e);
    RestoreReaches(w, s, e);
    assert Replay(Act, s, RestoreSteps(w, s, e)) == Image(w, m0, r0, Sealed(0, tx));
    SealedDescends(w, m0, r0, Sealed(0, tx));
    FullDescent(w, stage, s, e);
  }

  lemma FullDescent(w: World, stage: Stage, s: Lab, e: Evidence)
    requires stage.Full? && stage.tx == e.tx && e == Evidence(e.tx, RecordDoc(w, e.tx), RecordBytes(w, e.tx))
    requires (s.manifest != Some(e.tx.m0)) == stage.manifestNew && (s.receipt != Some(e.tx.r0)) == stage.receiptNew
    ensures Descent(w, stage) == RestoreSteps(w, s, e) + Descent(w, Sealed(0, e.tx))
  {
    var half := Full(false, stage.receiptNew, stage.tx);
    assert Descent(w, Full(false, false, stage.tx)) == [AddSeal(SealBytes(w, e))] + Descent(w, Sealed(0, stage.tx));
    assert stage.receiptNew ==> Descent(w, half) == [PutReceipt(e.tx.r0)] + Descent(w, Full(false, false, stage.tx));
    assert stage.manifestNew ==> Descent(w, stage) == [PutManifest(e.tx.m0)] + Descent(w, half);
  }

  // ---------------------------------------------------------------- every run

  /** One call, cut after `fuse` durable steps. */
  datatype Event = ApplyCall(sha: string, role: Word, fuse: nat) | RecoverCall(fuse: nat)

  function Steps(w: World, s: Lab, event: Event): seq<Step> {
    match event
    case ApplyCall(sha, role, fuse) => UpTo(Apply(w, s, sha, role).steps, fuse)
    case RecoverCall(fuse) => UpTo(Recover(w, s).steps, fuse)
  }

  function Run(w: World, s: Lab, events: seq<Event>): Lab {
    if events == [] then s
    else
      var before := Run(w, s, events[..|events| - 1]);
      Replay(Act, before, Steps(w, before, events[|events| - 1]))
  }

  lemma ApplyStays(w: World, m0: Bytes, r0: Bytes, stage: Stage, sha: string, role: Word, fuse: nat)
      returns (after: Stage)
    requires Belongs(w, m0, r0, stage)
    ensures Belongs(w, m0, r0, after)
    ensures Replay(Act, Image(w, m0, r0, stage), UpTo(Apply(w, Image(w, m0, r0, stage), sha, role).steps, fuse)) ==
            Image(w, m0, r0, after)
  {
    hide Transition, ApplySteps;
    var s := Image(w, m0, r0, stage);
    after := stage;
    if Prepare(w, s, sha, role).Ok? {
      var tx := Prepare(w, s, sha, role).value;
      ApplyReaches(w, m0, r0, tx, if fuse < 8 then fuse else 8);
      assert ApplySteps(w, tx)[..8] == ApplySteps(w, tx);
      after := ApplyStage(if fuse < 8 then fuse else 8, tx);
    }
  }

  /** Recovery acts exactly on the stages that have a complete journal or a seal. */
  lemma RecoverFrom(w: World, m0: Bytes, r0: Bytes, stage: Stage)
    requires w.Valid() && Belongs(w, m0, r0, stage)
    ensures Recoverable(stage) ==>
              Recover(w, Image(w, m0, r0, stage)) == Attempt(Descent(w, stage), Ok(ExactBytesRestored))
    ensures !Recoverable(stage) ==>
              Recover(w, Image(w, m0, r0, stage)).end.Fail? && Recover(w, Image(w, m0, r0, stage)).steps == []
  {
    hide Transition, ReadPieces, Cleanup, Kept;
    match stage
    case Idle =>
    case Writing(n, tx) =>
      assert RecordFile !in Kept(w, tx, 0, n) by { NoRecordYet(w, tx, n); }
    case Full(_, _, _) => FullDescends(w, m0, r0, stage);
    case Sealed(_, _) => SealedDescends(w, m0, r0, stage);
  }

  lemma NoRecordYet(w: World, tx: Tx, n: nat)
    requires n <= 4
    ensures RecordFile !in Kept(w, tx, 0, n)
  {
  }

  lemma RecoverStays(w: World, m0: Bytes, r0: Bytes, stage: Stage, fuse: nat) returns (after: Stage)
    requires w.Valid() && Belongs(w, m0, r0, stage)
    ensures Belongs(w, m0, r0, after)
    ensures var steps := UpTo(Recover(w, Image(w, m0, r0, stage)).steps, fuse);
            && Replay(Act, Image(w, m0, r0, stage), steps) == Image(w, m0, r0, after)
            && |steps| + Rank(after) == Rank(stage)
  {
    hide Recover, Image, Belongs, Descent, Act;
    RecoverFrom(w, m0, r0, stage);
    after := stage;
    if Recoverable(stage) {
      var k := if fuse < Rank(stage) then fuse else Rank(stage);
      DescentReaches(w, m0, r0, stage, k);
      assert Descent(w, stage)[..k] == UpTo(Descent(w, stage), fuse);
      after := DownBy(stage, k);
    }
  }

  lemma {:induction false} RunStays(w: World, m0: Bytes, r0: Bytes, events: seq<Event>) returns (stage: Stage)
    requires w.Valid()
    ensures Belongs(w, m0, r0, stage)
    ensures Run(w, Clean(m0, r0), events) == Image(w, m0, r0, stage)
  {
    hide Apply, Recover, Act;
    if events == [] {
      stage := Idle;
      assert Run(w, Clean(m0, r0), []) == Clean(m0, r0);
    } else {
      var before := RunStays(w, m0, r0, events[..|events| - 1]);
      match events[|events| - 1]
      case ApplyCall(sha, role, fuse) => stage := ApplyStays(w, m0, r0, before, sha, role, fuse);
      case RecoverCall(fuse) => stage := RecoverStays(w, m0, r0, before, fuse);
    }
  }

  predicate Originals(m0: Bytes, r0: Bytes, s: Lab) {
    s.manifest == Some(m0) && s.receipt == Some(r0)
  }

  /** What an observer may rely on after a power loss, stated on the files alone. */
  ghost predicate Safe(w: World, m0: Bytes, r0: Bytes, s: Lab) {
    // without a journal, with an incomplete one, or under a seal, nothing has changed
    && (s.journal.None? || RecordFile !in s.journal.value || s.seal.Some? ==> Originals(m0, r0, s))
    // with a complete journal, each file is its recorded before or next version
    && (s.seal.None? && s.journal.Some? && RecordFile in s.journal.value ==>
          exists tx :: && Planned(w, tx) && tx.m0 == m0 && tx.r0 == r0
                       && s.journal.value == FullJournal(tx, RecordBytes(w, tx))
                       && s.manifest in {Some(m0), Some(tx.m1)} && s.receipt in {Some(r0), Some(tx.r1)})
    // under a seal, what remains of the journal is a suffix in deletion order
    && (s.seal.Some? && s.journal.Some? ==>
          exists gone | 0 <= gone <= 5 :: s.journal.value.Keys == set part | part in PARTS[gone..])
  }

  lemma KeptIsSuffix(w: World, tx: Tx, gone: nat)
    requires gone <= 5
    ensures Kept(w, tx, gone, 5).Keys == set part | part in PARTS[gone..]
  {
    assert forall part :: part in PARTS[gone..] <==> gone <= Index(part) < 5 by {
      assert forall i | 0 <= i < 5 :: Index(PARTS[i]) == i;
      forall part | gone <= Index(part) < 5 ensures part in PARTS[gone..] {
        assert PARTS[gone..][Index(part) - gone] == part;
      }
    }
    assert forall part :: part in FullJournal(tx, RecordBytes(w, tx)) <==> Index(part) < 5;
  }

  /** Every run, cut anywhere, leaves a safe disk. */
  lemma {:induction false} EveryRunIsSafe(w: World, m0: Bytes, r0: Bytes, events: seq<Event>)
    requires w.Valid()
    ensures Safe(w, m0, r0, Run(w, Clean(m0, r0), events))
  {
    hide Run, Transition, RecordBytes, SealBytes;
    var stage := RunStays(w, m0, r0, events);
    match stage
    case Idle =>
    case Writing(n, tx) => NoRecordYet(w, tx, n);
    case Full(_, _, tx) => assert Kept(w, tx, 0, 5) == FullJournal(tx, RecordBytes(w, tx));
    case Sealed(gone, tx) =>
      if gone <= 5 {
        KeptIsSuffix(w, tx, gone);
      }
  }

  /** After every run: recovery returns exactly when the journal is complete or a seal exists, and
      when it returns, the disk is exactly the one the run started from. */
  lemma {:induction false} RecoveryUndoesEveryRun(w: World, m0: Bytes, r0: Bytes, events: seq<Event>)
    requires w.Valid()
    ensures var s := Run(w, Clean(m0, r0), events);
            && (Recover(w, s).end.Ok? <==> s.seal.Some? || (s.journal.Some? && RecordFile in s.journal.value))
            && (Recover(w, s).end.Ok? ==> Replay(Act, s, Recover(w, s).steps) == Clean(m0, r0))
  {
    hide Run, Transition, Recover, Act, RecordBytes;
    var stage := RunStays(w, m0, r0, events);
    RecoverFrom(w, m0, r0, stage);
    if Recoverable(stage) {
      DescentReaches(w, m0, r0, stage, Rank(stage));
      assert Descent(w, stage)[..Rank(stage)] == Descent(w, stage);
      OnlyIdleIsDone(w, m0, r0, DownBy(stage, Rank(stage)), stage);
    } else if stage.Writing? {
      NoRecordYet(w, stage.tx, stage.n);
    }
  }

  lemma {:induction false} OnlyIdleIsDone(w: World, m0: Bytes, r0: Bytes, after: Stage, stage: Stage)
    requires Recoverable(stage) && after == DownBy(stage, Rank(stage))
    ensures after == Idle
    decreases Rank(stage)
  {
    if Recoverable(Down(stage)) {
      OnlyIdleIsDone(w, m0, r0, after, Down(stage));
    }
  }

  /** The durable steps taken by successive recover calls, each cut by its fuse. */
  function Taken(w: World, s: Lab, fuses: seq<nat>): nat
    decreases fuses
  {
    if fuses == [] then 0
    else
      var steps := UpTo(Recover(w, s).steps, fuses[0]);
      |steps| + Taken(w, Replay(Act, s, steps), fuses[1..])
  }

  lemma {:induction false} TakenIsRank(w: World, m0: Bytes, r0: Bytes, stage: Stage, fuses: seq<nat>)
    requires w.Valid() && Belongs(w, m0, r0, stage)
    ensures Taken(w, Image(w, m0, r0, stage), fuses) <= Rank(stage)
    decreases fuses
  {
    hide Recover, Act, Image, Belongs;
    if fuses != [] {
      var after := RecoverStays(w, m0, r0, stage, fuses[0]);
      TakenIsRank(w, m0, r0, after, fuses[1..]);
    }
  }

  /** However often recovery is cut and resumed, its calls take at most ten durable steps together:
      two restores, the seal, five deletions, the directory, and the seal again. */
  lemma {:induction false} RecoveryIsBounded(w: World, m0: Bytes, r0: Bytes, events: seq<Event>, fuses: seq<nat>)
    requires w.Valid()
    ensures Taken(w, Run(w, Clean(m0, r0), events), fuses) <= 10
  {
    hide Run, Recover, Taken, Image, Belongs;
    var stage := RunStays(w, m0, r0, events);
    assert Rank(stage) <= 10;
    TakenIsRank(w, m0, r0, stage, fuses);
  }
}
