/** The paired manifest/receipt transaction: a journal of five parts is written before either
    file changes, and a seal is written before the first part of the journal is deleted. */
module PairTransaction {
  import opened Durable
  import opened Host
  import opened PairPlanner

  /** The files of the journal directory. */
  datatype Part = BeforeManifest | BeforeReceipt | NextManifest | NextReceipt | RecordFile | Stray(name: string)

  /** The order in which cleanup deletes them. */
  const PARTS := [BeforeManifest, BeforeReceipt, NextManifest, NextReceipt, RecordFile]

  datatype Lab = Lab(
    manifest: Option<Bytes>, receipt: Option<Bytes>,
    journal: Option<map<Part, Bytes>>, seal: Option<Bytes>,
    otherJournal: bool)  // a recovery journal of the single-engine transaction is pending

  datatype Step =
    | MakeJournal | AddPart(part: Part, data: Bytes)
    | PutManifest(data: Bytes) | PutReceipt(data: Bytes)
    | AddSeal(data: Bytes) | DropPart(part: Part) | RemoveJournal | DropSeal

  function Act(s: Lab, step: Step): Lab {
    match step
    case MakeJournal => s.(journal := Some(map[]))
    case AddPart(part, data) => if s.journal.Some? then s.(journal := Some(s.journal.value[part := data])) else s
    case PutManifest(data) => s.(manifest := Some(data))
    case PutReceipt(data) => s.(receipt := Some(data))
    case AddSeal(data) => s.(seal := Some(data))
    case DropPart(part) => if s.journal.Some? then s.(journal := Some(s.journal.value - {part})) else s
    case RemoveJournal => s.(journal := None)
    case DropSeal => s.(seal := None)
  }

  /** One planned change of the pair. */
  datatype Tx = Tx(m0: Bytes, r0: Bytes, m1: Bytes, r1: Bytes, sha: string, role: Word)

  predicate Planned(w: World, tx: Tx) {
    Transition(w, tx.m0, tx.r0, tx.sha, tx.role) == Ok((tx.m1, tx.r1))
  }

  function RecordDoc(w: World, tx: Tx): Fields {
    map[Schema := Int(1), Phase := Text(Prepared), Role := Text(tx.role),
        ManifestBefore := Digest(w.sha(tx.m0)), FrpBefore := Digest(w.sha(tx.r0)),
        ManifestNext := Digest(w.sha(tx.m1)), FrpNext := Digest(w.sha(tx.r1))]
  }

  function RecordBytes(w: World, tx: Tx): Bytes {
    w.Line(Obj(RecordDoc(w, tx)))
  }

  function SealDoc(w: World, record: Fields, raw: Bytes, sha: string): Fields {
    record + map[Phase := Text(Restored), BackhaulSha256 := Digest(sha), JournalRecord := Digest(w.sha(raw))]
  }

  predicate RecordTrusted(doc: Fields) {
    && doc.Keys == {Schema, Phase, Role, ManifestBefore, FrpBefore, ManifestNext, FrpNext}
    && doc[Schema] == Int(1) && doc[Phase] == Text(Prepared)
    && (doc[Role] == Text(Ir) || doc[Role] == Text(Foreign))
    && IsShaText(doc[ManifestBefore]) && IsShaText(doc[FrpBefore])
    && IsShaText(doc[ManifestNext]) && IsShaText(doc[FrpNext])
  }

  predicate SealTrusted(doc: Fields) {
    && doc.Keys == {Schema, Phase, Role, ManifestBefore, FrpBefore, ManifestNext, FrpNext, JournalRecord,
        BackhaulSha256}
    && doc[Schema] == Int(1) && doc[Phase] == Text(Restored)
    && (doc[Role] == Text(Ir) || doc[Role] == Text(Foreign))
    && IsShaText(doc[ManifestBefore]) && IsShaText(doc[FrpBefore])
    && IsShaText(doc[ManifestNext]) && IsShaText(doc[FrpNext])
    && IsShaText(doc[JournalRecord]) && IsShaText(doc[BackhaulSha256])
  }

  /** Reads one journal part and compares its hash with the recorded one. */
  function Piece(w: World, journal: map<Part, Bytes>, part: Part, want: Json): Result<Bytes> {
    match ReadPrivate(if part in journal then Some(journal[part]) else None, 8192)
    case Fail(failure) => Fail(failure)
    case Ok(data) => if Digest(w.sha(data)) == want then Ok(data) else Fail(Hold(PairRecoveryBackupDrift))
  }

  /** The Backhaul hash that a proposed manifest declares. */
  function ProposedSha(w: World, manifest: Bytes): Result<string> {
    match LoadJson(w, manifest)
    case Fail(_) => Fail(Hold(PairRecoverySemanticDrift))
    case Ok(doc) =>
      if Engines !in doc || !doc[Engines].Obj? || Backhaul !in doc[Engines].fields then
        Fail(Hold(PairRecoverySemanticDrift))
      else
        var entry := doc[Engines].fields[Backhaul];
        if !entry.Obj? || entry.fields.Keys != {Sha256} || !IsShaText(entry.fields[Sha256]) then
          Fail(Hold(PairRecoverySemanticDrift))
        else
          Ok(entry.fields[Sha256].word.text)
  }

  /** What a complete journal proves. */
  datatype Evidence = Evidence(tx: Tx, record: Fields, raw: Bytes)

  function ReadRecord(w: World, journal: map<Part, Bytes>): Result<(Fields, Bytes)> {
    match ReadPrivate(if RecordFile in journal then Some(journal[RecordFile]) else None, 4096)
    case Fail(failure) => Fail(failure)
    case Ok(raw) =>
      match LoadJson(w, raw)
      case Fail(failure) => Fail(failure)
      case Ok(record) =>
        if RecordTrusted(record) && journal.Keys ==
            {BeforeManifest, BeforeReceipt, NextManifest, NextReceipt, RecordFile}
        then Ok((record, raw))
        else Fail(Hold(PairRecoveryJournalUntrusted))
  }

  function ReadPieces(w: World, journal: map<Part, Bytes>, record: Fields): Result<Tx>
    requires RecordTrusted(record)
  {
    var m0 := Piece(w, journal, BeforeManifest, record[ManifestBefore]);
    var r0 := Piece(w, journal, BeforeReceipt, record[FrpBefore]);
    var m1 := Piece(w, journal, NextManifest, record[ManifestNext]);
    var r1 := Piece(w, journal, NextReceipt, record[FrpNext]);
    if m0.Fail? then Fail(m0.failure)
    else if r0.Fail? then Fail(r0.failure)
    else if m1.Fail? then Fail(m1.failure)
    else if r1.Fail? then Fail(r1.failure)
    else match ProposedSha(w, m1.value)
      case Fail(failure) => Fail(failure)
      case Ok(sha) =>
        var tx := Tx(m0.value, r0.value, m1.value, r1.value, sha, record[Role].word);
        if Planned(w, tx) then Ok(tx) else Fail(Hold(PairRecoverySemanticDrift))
  }

  /** The complete examination of a full journal and of both files, before anything is restored. */
  function Examine(w: World, s: Lab): Result<Evidence> {
    if s.journal.None? then Fail(Hold(UnexpectedDirectory)) else
    match ReadRecord(w, s.journal.value)
    case Fail(failure) => Fail(failure)
    case Ok((record, raw)) =>
      match ReadPieces(w, s.journal.value, record)
      case Fail(failure) => Fail(failure)
      case Ok(tx) =>
        var manifest, receipt := ReadPrivate(s.manifest, 8192), ReadPrivate(s.receipt, 8192);
        if manifest.Fail? then Fail(manifest.failure)
        else if receipt.Fail? then Fail(receipt.failure)
        else if manifest.value !in {tx.m0, tx.m1} || receipt.value !in {tx.r0, tx.r1} then
          Fail(Hold(PairRecoveryExternalDrift))
        else
          Ok(Evidence(tx, record, raw))
  }

  /** The change that a seal vouches for, if both files are its exact originals. */
  function ReadSeal(w: World, s: Lab): Result<(Tx, Fields)> {
    match ReadPrivate(s.seal, 4096)
    case Fail(failure) => Fail(failure)
    case Ok(raw) =>
      match LoadJson(w, raw)
      case Fail(failure) => Fail(failure)
      case Ok(doc) =>
        if !SealTrusted(doc) then Fail(Hold(PairCleanupSealUntrusted)) else
        var m0, r0 := ReadPrivate(s.manifest, 8192), ReadPrivate(s.receipt, 8192);
        if m0.Fail? then Fail(m0.failure)
        else if r0.Fail? then Fail(r0.failure)
        else if Digest(w.sha(m0.value)) != doc[ManifestBefore] || Digest(w.sha(r0.value)) != doc[FrpBefore] then
          Fail(Hold(PairCleanupBaselineDrift))
        else
          var sha, role := doc[BackhaulSha256].word.text, doc[Role].word;
          match Transition(w, m0.value, r0.value, sha, role)
          case Fail(_) => Fail(Hold(PairCleanupSemanticDrift))
          case Ok(next) =>
            if Digest(w.sha(next.0)) != doc[ManifestNext] || Digest(w.sha(next.1)) != doc[FrpNext] then
              Fail(Hold(PairCleanupSemanticDrift))
            else
              Ok((Tx(m0.value, r0.value, next.0, next.1, sha, role), doc))
  }

  /** A journal part that survived is what the seal says it is. */
  predicate RemnantTrusted(w: World, tx: Tx, doc: Fields, part: Part, data: Bytes)
    requires SealTrusted(doc)
  {
    && 0 < |data| <= 8192
    && match part
       case BeforeManifest => Digest(w.sha(data)) == doc[ManifestBefore] && data == tx.m0
       case BeforeReceipt => Digest(w.sha(data)) == doc[FrpBefore] && data == tx.r0
       case NextManifest => Digest(w.sha(data)) == doc[ManifestNext] && data == tx.m1
       case NextReceipt => Digest(w.sha(data)) == doc[FrpNext] && data == tx.r1
       case RecordFile => Digest(w.sha(data)) == doc[JournalRecord]
       case Stray(_) => false
  }

  function CheckCleanup(w: World, s: Lab): Result<Tx> {
    match ReadSeal(w, s)
    case Fail(failure) => Fail(failure)
    case Ok((tx, doc)) =>
      if s.journal.None? then Ok(tx)
      else if exists part :: part in s.journal.value && part.Stray? then
        Fail(Hold(PairCleanupJournalUntrusted))
      else if exists part :: part in s.journal.value && !RemnantTrusted(w, tx, doc, part, s.journal.value[part]) then
        Fail(Hold(PairCleanupJournalDrift))
      else
        Ok(tx)
  }

  /** The deletions that empty a journal, in the given order. */
  function Drops(order: seq<Part>, journal: map<Part, Bytes>): seq<Step> {
    if order == [] then []
    else (if order[0] in journal then [DropPart(order[0])] else []) + Drops(order[1..], journal)
  }

  datatype Answer = Applied | ExactBytesRestored

  type PairAttempt = Attempt<Step, Answer>

  function Erasure(s: Lab): seq<Step> {
    (if s.journal.Some? then Drops(PARTS, s.journal.value) + [RemoveJournal] else []) + [DropSeal]
  }

  function Cleanup(w: World, s: Lab): PairAttempt {
    match CheckCleanup(w, s)
    case Fail(failure) => Refuse(failure)
    case Ok(_) => Attempt(Erasure(s), Ok(ExactBytesRestored))
  }

  /** The journal parts with their bytes, in the order they are written. */
  function JournalParts(w: World, tx: Tx): seq<(Part, Bytes)> {
    [(BeforeManifest, tx.m0), (BeforeReceipt, tx.r0), (NextManifest, tx.m1), (NextReceipt, tx.r1),
     (RecordFile, RecordBytes(w, tx))]
  }

  function Adds(parts: seq<(Part, Bytes)>): seq<Step> {
    seq(|parts|, i requires 0 <= i < |parts| => AddPart(parts[i].0, parts[i].1))
  }

  function ApplySteps(w: World, tx: Tx): seq<Step> {
    [MakeJournal] + Adds(JournalParts(w, tx)) + [PutManifest(tx.m1), PutReceipt(tx.r1)]
  }

  /** Everything `apply` reads and checks before its first durable step. */
  function Prepare(w: World, s: Lab, sha: string, role: Word): Result<Tx> {
    var m0, r0 := ReadPrivate(s.manifest, 8192), ReadPrivate(s.receipt, 8192);
    if s.otherJournal then Fail(Hold(OtherEngineRecoveryJournalPending))
    else if s.journal.Some? || s.seal.Some? then Fail(Hold(PairInterruptedTransactionRequiresRecovery))
    else if m0.Fail? then Fail(m0.failure)
    else if r0.Fail? then Fail(r0.failure)
    else match Transition(w, m0.value, r0.value, sha, role)
      case Fail(failure) => Fail(failure)
      case Ok(next) => Ok(Tx(m0.value, r0.value, next.0, next.1, sha, role))
  }

  function Apply(w: World, s: Lab, sha: string, role: Word): PairAttempt {
    match Prepare(w, s, sha, role)
    case Fail(failure) => Refuse(failure)
    case Ok(tx) => Attempt(ApplySteps(w, tx), Ok(Applied))
  }

  function Restores(s: Lab, tx: Tx): seq<Step> {
    (if s.manifest != Some(tx.m0) then [PutManifest(tx.m0)] else []) +
    (if s.receipt != Some(tx.r0) then [PutReceipt(tx.r0)] else [])
  }

  function SealBytes(w: World, e: Evidence): Bytes {
    w.Line(Obj(SealDoc(w, e.record, e.raw, e.tx.sha)))
  }

  function RestoreSteps(w: World, s: Lab, e: Evidence): seq<Step> {
    Restores(s, e.tx) + [AddSeal(SealBytes(w, e))]
  }

  function Recover(w: World, s: Lab): PairAttempt {
    if s.otherJournal then Refuse(Hold(OtherEngineRecoveryJournalPending))
    else if s.seal.Some? then Cleanup(w, s)
    else match Examine(w, s)
      case Fail(failure) => Refuse(failure)
      case Ok(e) => Then(RestoreSteps(w, s, e), Cleanup(w, Replay(Act, s, RestoreSteps(w, s, e))))
  }

  method ApplyLocked(w: World, d: Disk<Lab, Step>, sha: string, role: Word) returns (r: Result<Answer>)
    requires d.act == Act
    modifies d
    ensures Ran(d, old(d.now), old(d.fuse), Apply(w, old(d.now), sha, role), r)
  {
    d.Begin(Apply(w, d.now, sha, role).steps);
    var tx :- Prepare(w, d.now, sha, role);
    PlannedSizes(w, tx.m0, tx.r0, sha, role);
    r := WritePair(w, d, tx);
  }

  /** What the planner answers can be read back. */
  lemma PlannedSizes(w: World, m0: Bytes, r0: Bytes, sha: string, role: Word)
    ensures var next := Transition(w, m0, r0, sha, role);
            next.Ok? ==> 0 < |next.value.0| <= 8192 && 0 < |next.value.1| <= 8192
  {
    hide ParseManifest, LoadJson, ReceiptTrusted;
  }

  /** The durable half of `apply`: the whole journal first, then the manifest, then the receipt. */
  method WritePair(w: World, d: Disk<Lab, Step>, tx: Tx) returns (r: Result<Answer>)
    requires d.act == Act && d.Valid() && d.at == 0 && d.plan == ApplySteps(w, tx)
    requires ReadPrivate(d.now.manifest, 8192) == Ok(tx.m0) && ReadPrivate(d.now.receipt, 8192) == Ok(tx.r0)
    requires 0 < |tx.m1| <= 8192 && 0 < |tx.r1| <= 8192
    modifies d`now, d`fuse, d`at
    ensures d.Landed() && r == if d.budget < |d.plan| then Fail(PowerLoss) else Ok(Applied)
  {
    hide Replay;
    :- d.Do(MakeJournal);
    var parts := JournalParts(w, tx);
    for i := 0 to |parts|
      modifies d`now, d`fuse, d`at
      invariant d.Valid() && d.at == 1 + i
      invariant d.now.manifest == old(d.now.manifest) && d.now.receipt == old(d.now.receipt)
    {
      :- d.Do(AddPart(parts[i].0, parts[i].1));
    }
    if ReadPrivate(d.now.manifest, 8192) != Ok(tx.m0) || ReadPrivate(d.now.receipt, 8192) != Ok(tx.r0) {
      return Fail(Hold(PairConcurrentBaselineChange));
    }
    :- d.Do(PutManifest(tx.m1));
    :- d.Do(PutReceipt(tx.r1));
    d.Finished();
    if ReadPrivate(d.now.manifest, 8192) != Ok(tx.m1) || ReadPrivate(d.now.receipt, 8192) != Ok(tx.r1) {
      return Fail(Hold(PairFinalBytesUnverified));
    }
    return Ok(Applied);
  }

  method FinishCleanupLocked(w: World, d: Disk<Lab, Step>) returns (r: Result<Answer>)
    requires d.act == Act
    modifies d
    ensures Ran(d, old(d.now), old(d.fuse), Cleanup(w, old(d.now)), r)
  {
    d.Begin(Cleanup(w, d.now).steps);
    var _ :- CheckCleanup(w, d.now);
    r := Erase(d);
  }

  lemma DropsUnfold(parts: seq<Part>, existing: map<Part, Bytes>, i: nat)
    requires i <= |parts|
    ensures i == |parts| ==> Drops(parts[i..], existing) == []
    ensures i < |parts| ==>
              Drops(parts[i..], existing) ==
              (if parts[i] in existing then [DropPart(parts[i])] else []) + Drops(parts[i + 1..], existing)
  {
  }

  /** Deletes every remaining part in the fixed order, then the directory, and the seal last. */
  method Erase(d: Disk<Lab, Step>) returns (r: Result<Answer>)
    requires d.act == Act && d.Valid() && d.at == 0 && d.plan == Erasure(d.now)
    modifies d`now, d`fuse, d`at
    ensures d.Landed() && r == if d.budget < |d.plan| then Fail(PowerLoss) else Ok(ExactBytesRestored)
  {
    hide Replay, Act, Drops;
    ghost var rest := [RemoveJournal, DropSeal];
    if d.now.journal.Some? {
      var existing := d.now.journal.value;
      DropsUnfold(PARTS, existing, |PARTS|);
      assert PARTS[0..] == PARTS;
      for i := 0 to |PARTS|
        modifies d`now, d`fuse, d`at
        invariant d.Valid() && d.plan[d.at..] == Drops(PARTS[i..], existing) + rest
      {
        DropsUnfold(PARTS, existing, i);
        ghost var next := Drops(PARTS[i + 1..], existing) + rest;
        if PARTS[i] in existing {
          assert d.plan[d.at..] == [DropPart(PARTS[i])] + next;
          :- d.Do(DropPart(PARTS[i]));
        } else {
          assert d.plan[d.at..] == next;
        }
      }
      :- d.Do(RemoveJournal);
    }
    :- d.Do(DropSeal);
    d.Finished();
    return Ok(ExactBytesRestored);
  }

  method RecoverLocked(w: World, d: Disk<Lab, Step>) returns (r: Result<Answer>)
    requires d.act == Act
    modifies d
    ensures Ran(d, old(d.now), old(d.fuse), Recover(w, old(d.now)), r)
  {
    hide Replay, Act, Cleanup, Examine, RestoreSteps;
    NoSteps(Act, d.now, d.fuse);
    if d.now.otherJournal {
      return Fail(Hold(OtherEngineRecoveryJournalPending));
    }
    if d.now.seal.Some? {
      r := FinishCleanupLocked(w, d);
      return;
    }
    var e :- Examine(w, d.now);
    ThenRan(Act, d.now, d.fuse, RestoreSteps(w, d.now, e), Cleanup(w, Replay(Act, d.now, RestoreSteps(w, d.now, e))));
    d.Begin(RestoreSteps(w, d.now, e));
    var _ :- RestoreAndSeal(w, d, e);
    r := FinishCleanupLocked(w, d);
  }

  /** Puts both originals back, manifest first, and only then writes the terminal seal. */
  method RestoreAndSeal(w: World, d: Disk<Lab, Step>, e: Evidence) returns (r: Result<()>)
    requires d.act == Act && d.Valid() && d.at == 0 && d.plan == RestoreSteps(w, d.now, e)
    modifies d`now, d`fuse, d`at
    ensures d.Landed() && r == if d.budget < |d.plan| then Fail(PowerLoss) else Ok(())
  {
    hide Replay, SealBytes;
    if d.now.manifest != Some(e.tx.m0) {
      :- d.Do(PutManifest(e.tx.m0));
    }
    if d.now.receipt != Some(e.tx.r0) {
      :- d.Do(PutReceipt(e.tx.r0));
    }
    if d.now.manifest != Some(e.tx.m0) || d.now.receipt != Some(e.tx.r0) {
      return Fail(Hold(PairRecoveryNotProven));
    }
    :- d.Do(AddSeal(SealBytes(w, e)));
    d.Finished();
    return Ok(());
  }
}
