/** The retained-node transaction: one journal file carries both snapshots and a phase, and a
    protected-state witness is looked at again before every write. */
module Retained {
  import opened Durable
  import opened Host
  import opened PairPlanner

  datatype Node = Node(
    manifest: Option<Bytes>, receipt: Option<Bytes>,
    journal: Option<Bytes>, seal: Option<Bytes>,
    conflict: bool)  // some other recovery is pending on this node

  datatype Half = ManifestHalf | ReceiptHalf

  datatype Move = Put(half: Half, data: Bytes) | PutJournal(data: Bytes) | PutSeal(data: Bytes) | DropJournal | DropSeal

  function Act(s: Node, move: Move): Node {
    match move
    case Put(ManifestHalf, data) => s.(manifest := Some(data))
    case Put(ReceiptHalf, data) => s.(receipt := Some(data))
    case PutJournal(data) => s.(journal := Some(data))
    case PutSeal(data) => s.(seal := Some(data))
    case DropJournal => s.(journal := None)
    case DropSeal => s.(seal := None)
  }

  type Pair = (Bytes, Bytes)

  function Get(pair: Pair, half: Half): Bytes {
    if half == ManifestHalf then pair.0 else pair.1
  }

  function With(pair: Pair, half: Half, data: Bytes): Pair {
    if half == ManifestHalf then (data, pair.1) else (pair.0, data)
  }

  datatype Action = Install | Rollback | Recover | Cleanup

  /** What a coordinator saw before it asked for an installation. */
  datatype Handoff = Handoff(pair: Pair, proof: string)

  datatype Request = Request(action: Action, role: Word, binary: string, expected: Option<Handoff>)

  /** The n-th look at the protected state during one operation. */
  type Looks = nat -> string

  /** What the journal of one transaction records. */
  datatype Deal = Deal(before: Pair, role: Word, binary: string, proof: string)

  function RecordOf(deal: Deal, phase: Word): Fields {
    map[Schema := Int(1), Role := Text(deal.role), Binary := Digest(deal.binary), Witness := Digest(deal.proof),
        Manifest := Text(Free(Hex(deal.before.0))), Receipt := Text(Free(Hex(deal.before.1))), Phase := Text(phase)]
  }

  /** A record together with its own hash. */
  function Wrapped(w: World, record: Fields): Bytes {
    w.Line(Envelope(record, w.sha(w.dumps(Obj(record)))))
  }

  function JournalText(w: World, deal: Deal, phase: Word): Bytes {
    Wrapped(w, RecordOf(deal, phase))
  }

  function SealOf(w: World, deal: Deal, journal: Bytes): Fields {
    map[Schema := Int(1), Role := Text(deal.role), Binary := Digest(deal.binary), Witness := Digest(deal.proof),
        ManifestSha256 := Digest(w.sha(deal.before.0)), ReceiptSha256 := Digest(w.sha(deal.before.1)),
        JournalSha256 := Digest(w.sha(journal))]
  }

  function Unwrap(w: World, raw: Bytes, why: Reason): Result<Fields> {
    match LoadJson(w, raw)
    case Fail(failure) => Fail(failure)
    case Ok(envelope) =>
      if envelope.Keys == {Record, Sha256} && envelope[Record].Obj?
         && envelope[Sha256] == Digest(w.sha(w.dumps(envelope[Record])))
      then Ok(envelope[Record].fields)
      else Fail(Hold(why))
  }

  predicate HexSnapshot(j: Json) {
    && j.Text? && j.word.Free?
    && 0 < |j.word.text| <= 16384 && |j.word.text| % 2 == 0 && IsHex(j.word.text)
  }

  function Current(s: Node): Result<Pair> {
    var manifest, receipt := ReadPrivate(s.manifest, 8192), ReadPrivate(s.receipt, 8192);
    if manifest.Fail? then Fail(manifest.failure)
    else if receipt.Fail? then Fail(receipt.failure)
    else Ok((manifest.value, receipt.value))
  }

  /** The deal and the phase of an existing journal, if it belongs to this request. */
  function ReadJournal(w: World, raw: Option<Bytes>, role: Word, binary: string, proof: string): Result<(Deal, Word)> {
    match ReadPrivate(raw, 40000)
    case Fail(failure) => Fail(failure)
    case Ok(data) =>
      match Unwrap(w, data, RetainedJournalChecksumInvalid)
      case Fail(failure) => Fail(failure)
      case Ok(record) =>
        if record.Keys != {Schema, Role, Binary, Witness, Manifest, Receipt, Phase} || record[Schema] != Int(1)
           || record[Role] != Text(role) || record[Binary] != Digest(binary) || record[Witness] != Digest(proof)
           || record[Phase] !in {Text(Prepared), Text(Committed), Text(Restoring), Text(Restored)}
           || !HexSnapshot(record[Manifest]) || !HexSnapshot(record[Receipt])
        then
          Fail(Hold(RetainedJournalUntrusted))
        else
          Ok((Deal((Unhex(record[Manifest].word.text), Unhex(record[Receipt].word.text)), role, binary, proof),
              record[Phase].word))
  }

  /** The pairs that may be on disk in each phase; an old manifest with a new receipt is in none. */
  function Allowed(phase: Word, before: Pair, after: Pair): set<Pair> {
    var mixed := (after.0, before.1);
    match phase
    case Fresh => {before}
    case Prepared => {before, mixed, after}
    case Committed => {after}
    case Restoring => {before, mixed, after}
    case Restored => {before}
    case _ => {}
  }

  /** Checks on the request itself and on the first look at the witness. */
  function Precheck(s: Node, q: Request, look: Looks): Result<()> {
    if !IsRole(q.role) then Fail(Hold(RetainedOperationInvalid))
    else if q.expected.Some? && (q.action != Install
            || !(0 < |q.expected.value.pair.0| <= 8192) || !(0 < |q.expected.value.pair.1| <= 8192)) then
      Fail(Hold(RetainedExpectedBaselineInvalid))
    else if q.expected.Some? && !IsSha(q.expected.value.proof) then Fail(Hold(RetainedExpectedWitnessRequired))
    else if s.conflict then Fail(Hold(CompetingRecoveryRequired))
    else if !IsSha(look(0)) then Fail(Hold(RetainedRuntimeProofRequired))
    else if q.expected.Some? && look(0) != q.expected.value.proof then Fail(Hold(RetainedPreflightWitnessChanged))
    else if q.expected.Some? && (s.journal.Some? || s.seal.Some?) then Fail(Hold(RetainedPreflightJournalAppeared))
    else Ok(())
  }

  /** What an operation knows when it decides what to do. */
  datatype Ticket = Ticket(deal: Deal, after: Pair, phase: Word, observed: Pair)

  function OpenDeal(w: World, s: Node, q: Request, proof: string): Result<(Deal, Word)> {
    if s.journal.Some? then
      ReadJournal(w, s.journal, q.role, q.binary, proof)
    else if q.action != Install then
      Fail(Hold(RetainedJournalMissing))
    else match Current(s)
      case Fail(failure) => Fail(failure)
      case Ok(before) =>
        if q.expected.Some? && before != q.expected.value.pair then Fail(Hold(RetainedPreflightPairChanged))
        else Ok((Deal(before, q.role, q.binary, proof), Fresh))
  }

  function Admit(w: World, s: Node, q: Request, proof: string): Result<Ticket> {
    match OpenDeal(w, s, q, proof)
    case Fail(failure) => Fail(failure)
    case Ok((deal, phase)) =>
      match Transition(w, deal.before.0, deal.before.1, q.binary, q.role)
      case Fail(failure) => Fail(failure)
      case Ok(after) =>
        match Current(s)
        case Fail(failure) => Fail(failure)
        case Ok(observed) =>
          if observed in Allowed(phase, deal.before, after) then Ok(Ticket(deal, after, phase, observed))
          else Fail(Hold(RetainedPairDrift))
  }

  type NodeAttempt = Attempt<Move, Word>

  function Gate(ok: bool, why: Reason, rest: NodeAttempt): NodeAttempt {
    if ok then rest else Refuse(Hold(why))
  }

  /** Replaces the halves that differ, in order, looking at the witness before each; then records the final phase. */
  function Shift(w: World, deal: Deal, observed: Pair, to: Pair, order: seq<Half>, final: Word, look: Looks,
                 n: nat): NodeAttempt
    decreases order
  {
    if order == [] then
      Gate(look(n) == deal.proof, RetainedFinalProofFailed,
           Attempt([PutJournal(JournalText(w, deal, final))], Ok(final)))
    else
      var data := Get(to, order[0]);
      Gate(look(n) == deal.proof, RetainedRuntimeOrPairDrift,
           Then(if Get(observed, order[0]) != data then [Put(order[0], data)] else [],
                Shift(w, deal, With(observed, order[0], data), to, order[1..], final, look, n + 1)))
  }

  /** The deal a cleanup seal vouches for, if both files are its originals. */
  function ReadSeal(w: World, s: Node, role: Word, binary: string, proof: string): Result<Fields> {
    match ReadPrivate(s.seal, 4096)
    case Fail(_) => Fail(Hold(RetainedCleanupSealUntrusted))
    case Ok(raw) =>
      match Unwrap(w, raw, RetainedCleanupSealUntrusted)
      case Fail(_) => Fail(Hold(RetainedCleanupSealUntrusted))
      case Ok(record) =>
        if record.Keys != {Schema, Role, Binary, Witness, ManifestSha256, ReceiptSha256, JournalSha256}
           || record[Schema] != Int(1) || record[Role] != Text(role) || record[Binary] != Digest(binary)
           || record[Witness] != Digest(proof)
           || !IsShaText(record[ManifestSha256]) || !IsShaText(record[ReceiptSha256])
               || !IsShaText(record[JournalSha256])
        then Fail(Hold(RetainedCleanupSealUntrusted))
        else Ok(record)
  }

  function CheckFinish(w: World, s: Node, role: Word, binary: string, proof: string, look: Looks, n: nat): Result<()> {
    match ReadSeal(w, s, role, binary, proof)
    case Fail(failure) => Fail(failure)
    case Ok(record) =>
      match Current(s)
      case Fail(failure) => Fail(failure)
      case Ok(before) =>
        if Digest(w.sha(before.0)) != record[ManifestSha256] || Digest(w.sha(before.1)) != record[ReceiptSha256]
           || look(n) != proof then
          Fail(Hold(RetainedCleanupBaselineDrift))
        else if Transition(w, before.0, before.1, binary, role).Fail? then
          Fail(Hold(RetainedCleanupSemanticDrift))
        else if s.journal.Some? && (|s.journal.value| == 0 || |s.journal.value| > 40000
                                    || Digest(w.sha(s.journal.value)) != record[JournalSha256]) then
          Fail(Hold(RetainedCleanupJournalDrift))
        else
          Ok(())
  }

  function Finish(w: World, s: Node, role: Word, binary: string, proof: string, look: Looks, n: nat): NodeAttempt {
    match CheckFinish(w, s, role, binary, proof, look, n)
    case Fail(failure) => Refuse(failure)
    case Ok(_) =>
      Then(if s.journal.Some? then [DropJournal] else [],
           Gate(look(n + 1) == proof, RetainedCleanupPostcheckFailed, Attempt([DropSeal], Ok(Restored))))
  }

  function SealText(w: World, t: Ticket, journal: Bytes): Bytes {
    Wrapped(w, SealOf(w, t.deal, journal))
  }

  function CleanUp(w: World, s: Node, t: Ticket, look: Looks): NodeAttempt {
    if t.phase != Restored || s.journal.None? then Refuse(Hold(RetainedCleanupRequiresRestored))
    else Gate(look(1) == t.deal.proof, RetainedRuntimeOrPairDrift,
              var seal := PutSeal(SealText(w, t, s.journal.value));
              Then([seal], Finish(w, Act(s, seal), t.deal.role, t.deal.binary, t.deal.proof, look, 2)))
  }

  function InstallPair(w: World, t: Ticket, expected: Option<Handoff>, look: Looks): NodeAttempt {
    var n := if expected.Some? then 2 else 1;
    if t.phase == Committed then Attempt([], Ok(Committed))
    else if t.phase == Restored then Refuse(Hold(RetainedTerminalCleanupRequired))
    else if t.phase != Fresh then Refuse(Hold(RetainedRecoveryRequired))
    else Gate(expected.Some? ==> look(1) == expected.value.proof, RetainedPreflightWitnessChanged,
              Then([PutJournal(JournalText(w, t.deal, Prepared))],
                   Shift(w, t.deal, t.observed, t.after, [ManifestHalf, ReceiptHalf], Committed, look, n)))
  }

  function RestorePair(w: World, t: Ticket, action: Action, look: Looks): NodeAttempt {
    if t.phase == Restored || (action == Recover && t.phase == Committed) then Attempt([], Ok(t.phase))
    else Gate(look(1) == t.deal.proof, RetainedRuntimeOrPairDrift,
              Then([PutJournal(JournalText(w, t.deal, Restoring))],
                   Shift(w, t.deal, t.observed, t.deal.before, [ReceiptHalf, ManifestHalf], Restored, look, 2)))
  }

  /** The whole operation.  `Ok(Restored)` also stands for the source's CLEANED. */
  function Operate(w: World, s: Node, q: Request, look: Looks): NodeAttempt {
    match Precheck(s, q, look)
    case Fail(failure) => Refuse(failure)
    case Ok(_) =>
      if s.seal.Some? then
        if q.action != Cleanup then Refuse(Hold(RetainedCleanupRecoveryRequired))
        else Finish(w, s, q.role, q.binary, look(0), look, 1)
      else match Admit(w, s, q, look(0))
        case Fail(failure) => Refuse(failure)
        case Ok(t) =>
          match q.action
          case Cleanup => CleanUp(w, s, t, look)
          case Install => InstallPair(w, t, q.expected, look)
          case _ => RestorePair(w, t, q.action, look)
  }

  // ---------------------------------------------------------------- the operation, step by step

  method OperateLocked(w: World, d: Disk<Node, Move>, q: Request, look: Looks) returns (r: Result<Word>)
    requires d.act == Act
    modifies d
    ensures Ran(d, old(d.now), old(d.fuse), Operate(w, old(d.now), q, look), r)
  {
    hide Transition, ReadJournal, CheckFinish;
    var _ :- Precheck(d.now, q, look);
    if d.now.seal.Some? {
      if q.action != Cleanup {
        return Fail(Hold(RetainedCleanupRecoveryRequired));
      }
      r := FinishLocked(w, d, q.role, q.binary, look(0), look, 1);
      return;
    }
    var t :- Admit(w, d.now, q, look(0));
    match q.action
    case Cleanup => r := CleanUpLocked(w, d, t, look);
    case Install => r := InstallLocked(w, d, t, q.expected, look);
    case _ => r := RestoreLocked(w, d, t, q.action, look);
  }

  method FinishLocked(w: World, d: Disk<Node, Move>, role: Word, binary: string, proof: string, look: Looks, n: nat)
    returns (r: Result<Word>)
    requires d.act == Act
    modifies d
    ensures Ran(d, old(d.now), old(d.fuse), Finish(w, old(d.now), role, binary, proof, look, n), r)
  {
    hide CheckFinish, Replay, Act;
    NoSteps(Act, d.now, d.fuse);
    d.Begin(Finish(w, d.now, role, binary, proof, look, n).steps);
    var _ :- CheckFinish(w, d.now, role, binary, proof, look, n);
    if d.now.journal.Some? {
      :- d.Do(DropJournal);
    }
    if look(n + 1) != proof {
      d.Finished();
      return Fail(Hold(RetainedCleanupPostcheckFailed));
    }
    :- d.Do(DropSeal);
    d.Finished();
    return Ok(Restored);
  }

  method CleanUpLocked(w: World, d: Disk<Node, Move>, t: Ticket, look: Looks) returns (r: Result<Word>)
    requires d.act == Act
    modifies d
    ensures Ran(d, old(d.now), old(d.fuse), CleanUp(w, old(d.now), t, look), r)
  {
    hide Finish;
    if t.phase != Restored || d.now.journal.None? {
      return Fail(Hold(RetainedCleanupRequiresRestored));
    }
    if look(1) != t.deal.proof {
      return Fail(Hold(RetainedRuntimeOrPairDrift));
    }
    var seal := PutSeal(SealText(w, t, d.now.journal.value));
    ThenRan(Act, d.now, d.fuse, [seal],
            Finish(w, Act(d.now, seal), t.deal.role, t.deal.binary, t.deal.proof, look, 2));
    d.Begin([seal]);
    :- d.Do(seal);
    d.Finished();
    r := FinishLocked(w, d, t.deal.role, t.deal.binary, t.deal.proof, look, 2);
  }

  method InstallLocked(w: World, d: Disk<Node, Move>, t: Ticket, expected: Option<Handoff>, look: Looks)
    returns (r: Result<Word>)
    requires d.act == Act
    modifies d
    ensures Ran(d, old(d.now), old(d.fuse), InstallPair(w, t, expected, look), r)
  {
    hide Shift;
    d.Begin(InstallPair(w, t, expected, look).steps);
    if t.phase == Committed {
      return Ok(Committed);
    }
    if t.phase == Restored {
      return Fail(Hold(RetainedTerminalCleanupRequired));
    }
    if t.phase != Fresh {
      return Fail(Hold(RetainedRecoveryRequired));
    }
    if expected.Some? && look(1) != expected.value.proof {
      return Fail(Hold(RetainedPreflightWitnessChanged));
    }
    :- d.Do(PutJournal(JournalText(w, t.deal, Prepared)));
    r := ShiftLocked(w, d, t.deal, t.observed, t.after, [ManifestHalf, ReceiptHalf], Committed,
                     look, if expected.Some? then 2 else 1);
  }

  method RestoreLocked(w: World, d: Disk<Node, Move>, t: Ticket, action: Action, look: Looks) returns (r: Result<Word>)
    requires d.act == Act
    modifies d
    ensures Ran(d, old(d.now), old(d.fuse), RestorePair(w, t, action, look), r)
  {
    hide Shift;
    d.Begin(RestorePair(w, t, action, look).steps);
    if t.phase == Restored || (action == Recover && t.phase == Committed) {
      return Ok(t.phase);
    }
    if look(1) != t.deal.proof {
      return Fail(Hold(RetainedRuntimeOrPairDrift));
    }
    :- d.Do(PutJournal(JournalText(w, t.deal, Restoring)));
    r := ShiftLocked(w, d, t.deal, t.observed, t.deal.before, [ReceiptHalf, ManifestHalf], Restored, look, 2);
  }

  /** Writes one file, unless it already holds the wanted bytes. */
  method Replace(d: Disk<Node, Move>, half: Half, was: Bytes, data: Bytes, ghost rest: seq<Move>)
      returns (r: Result<()>)
    requires d.Valid() && d.plan[d.at..] == (if was != data then [Put(half, data)] else []) + rest
    modifies d`now, d`fuse, d`at
    ensures r.Ok? ==> d.Valid() && d.plan[d.at..] == rest
    ensures r.Fail? ==> r == Fail(PowerLoss) && d.Landed() && d.budget < |d.plan|
  {
    if was != data {
      :- d.Do(Put(half, data));
    }
    return Ok(());
  }

  /** The loop over the two files, continuing an operation that is under way. */
  method ShiftLocked(w: World, d: Disk<Node, Move>, deal: Deal, observed: Pair, to: Pair, order: seq<Half>, final: Word,
                     look: Looks, n: nat) returns (r: Result<Word>)
    requires d.act == Act && d.Valid()
    requires d.plan[d.at..] == Shift(w, deal, observed, to, order, final, look, n).steps
    modifies d`now, d`fuse, d`at
    ensures d.Landed()
    ensures r == if d.budget < |d.plan| then Fail(PowerLoss)
            else Shift(w, deal, observed, to, order, final, look, n).end
  {
    hide JournalText, Shift;
    var now := observed;
    ghost var rest := Shift(w, deal, observed, to, order, final, look, n);
    ghost var end := rest.end;
    assert order[0..] == order;
    for i := 0 to |order|
      modifies d`now, d`fuse, d`at
      invariant d.Valid()
      invariant rest == Shift(w, deal, now, to, order[i..], final, look, n + i)
      invariant d.plan[d.at..] == rest.steps && rest.end == end
    {
      ShiftUnfolds(w, deal, now, to, order[i..], final, look, n + i);
      if look(n + i) != deal.proof {
        d.Finished();
        return Fail(Hold(RetainedRuntimeOrPairDrift));
      }
      var data := Get(to, order[i]);
      assert order[i..][1..] == order[i + 1..];
      ghost var next := Shift(w, deal, With(now, order[i], data), to, order[i + 1..], final, look, n + i + 1);
      var _ :- Replace(d, order[i], Get(now, order[i]), data, next.steps);
      now, rest := With(now, order[i], data), next;
    }
    ShiftUnfolds(w, deal, now, to, [], final, look, n + |order|);
    if look(n + |order|) != deal.proof {
      d.Finished();
      return Fail(Hold(RetainedFinalProofFailed));
    }
    :- d.Do(PutJournal(JournalText(w, deal, final)));
    d.Finished();
    return Ok(final);
  }

  lemma ShiftUnfolds(w: World, deal: Deal, now: Pair, to: Pair, order: seq<Half>, final: Word, look: Looks, n: nat)
    ensures order == [] ==>
              Shift(w, deal, now, to, order, final, look, n) ==
              Gate(look(n) == deal.proof, RetainedFinalProofFailed,
                   Attempt([PutJournal(JournalText(w, deal, final))], Ok(final)))
    ensures order != [] ==>
              var data := Get(to, order[0]);
              Shift(w, deal, now, to, order, final, look, n) ==
              Gate(look(n) == deal.proof, RetainedRuntimeOrPairDrift,
                   Then(if Get(now, order[0]) != data then [Put(order[0], data)] else [],
                        Shift(w, deal, With(now, order[0], data), to, order[1..], final, look, n + 1)))
  {
  }
}
