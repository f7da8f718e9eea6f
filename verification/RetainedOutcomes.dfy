/** Exactly when each operation of the retained transaction succeeds, on any node at all, and what it leaves; stated
    on the files, the request and the looks at the witness alone. */
module RetainedOutcomes {
  import opened Durable
  import opened Host
  import opened PairPlanner
  import opened Retained
  import opened RetainedRuns
  import opened RetainedGuarantees
  import PairReview

  /** The witness shows this digest at every look from the n-th up to, not including, the m-th. */
  predicate LooksAre(look: Looks, proof: string, n: nat, m: nat) {
    forall i :: n <= i < m ==> look(i) == proof
  }

  /** The request makes sense on this node, and the runtime is proved at the first look. */
  predicate Sane(s: Node, q: Request, look: Looks) {
    && (q.role == Ir || q.role == Foreign) && !s.conflict && IsSha(look(0))
    && (q.expected.Some? ==>
          && q.action == Install && IsSha(q.expected.value.proof) && look(0) == q.expected.value.proof
          && s.journal.None? && s.seal.None?
          && 0 < |q.expected.value.pair.0| <= 8192 && 0 < |q.expected.value.pair.1| <= 8192)
  }

  predicate Stands(s: Node, pair: Pair) {
    && s.manifest == Some(pair.0) && s.receipt == Some(pair.1)
    && 0 < |pair.0| <= 8192 && 0 < |pair.1| <= 8192
  }

  /** The pairs that may stand in each phase. */
  predicate Phased(s: Node, phase: Word, before: Pair, after: Pair) {
    match phase
    case Prepared => Stands(s, before) || Stands(s, (after.0, before.1)) || Stands(s, after)
    case Restoring => Stands(s, before) || Stands(s, (after.0, before.1)) || Stands(s, after)
    case Committed => Stands(s, after)
    case Restored => Stands(s, before)
    case _ => false
  }

  /** The record of a transaction, and the journal's text with its own hash. */
  function Noted(role: Word, binary: string, proof: string, before: Pair, phase: Word): Fields {
    map[Schema := Int(1), Role := Text(role), Binary := Text(Free(binary)), Witness := Text(Free(proof)),
        Manifest := Text(Free(Hex(before.0))), Receipt := Text(Free(Hex(before.1))), Phase := Text(phase)]
  }

  predicate JournalSays(w: World, raw: Bytes, role: Word, binary: string, proof: string, before: Pair, phase: Word) {
    var record := Noted(role, binary, proof, before, phase);
    && 0 < |raw| <= 40000 && 0 < |before.0| <= 8192 && 0 < |before.1| <= 8192
    && (phase == Prepared || phase == Committed || phase == Restoring || phase == Restored)
    && w.parse(raw) == Some(Obj(map[Record := Obj(record), Sha256 := Text(Free(w.sha(w.dumps(Obj(record)))))]))
  }

  /** The journal is of this request and this witness, and explains the pair that stands. */
  predicate Recorded(w: World, s: Node, q: Request, proof: string, before: Pair, after: Pair, phase: Word) {
    && s.journal.Some? && JournalSays(w, s.journal.value, q.role, q.binary, proof, before, phase)
    && Transition(w, before.0, before.1, q.binary, q.role) == Ok(after)
    && Phased(s, phase, before, after)
  }

  // ---------------------------------------------------------------- what is read

  lemma PrecheckExactly(s: Node, q: Request, look: Looks)
    ensures Precheck(s, q, look).Ok? <==> Sane(s, q, look)
  {
  }

  lemma SaidIsUnwrapped(w: World, raw: Bytes, record: Fields)
    requires w.parse(raw) == Some(Obj(map[Record := Obj(record), Sha256 := Text(Free(w.sha(w.dumps(Obj(record)))))]))
    ensures Unwrap(w, raw, RetainedJournalChecksumInvalid) == Ok(record)
  {
    assert LoadJson(w, raw) == Ok(Envelope(record, w.sha(w.dumps(Obj(record)))).fields);
    EnvelopeUnwraps(w, raw, record, RetainedJournalChecksumInvalid);
  }

  lemma SaysIsRead(w: World, raw: Bytes, role: Word, binary: string, proof: string, before: Pair, phase: Word)
    requires JournalSays(w, raw, role, binary, proof, before, phase)
    ensures ReadJournal(w, Some(raw), role, binary, proof) == Ok((Deal(before, role, binary, proof), phase))
    ensures IsPhase(phase)
  {
    hide Unwrap, Hex, Unhex, HexSnapshot, IsHex;
    var record := Noted(role, binary, proof, before, phase);
    SaidIsUnwrapped(w, raw, record);
    SnapshotEncodes(before.0);
    SnapshotEncodes(before.1);
    assert record.Keys == {Schema, Role, Binary, Witness, Manifest, Receipt, Phase};
  }


  lemma SnapshotEncodes(data: Bytes)
    requires 0 < |data| <= 8192
    ensures HexSnapshot(Text(Free(Hex(data)))) && Unhex(Hex(data)) == data
  {
    hide Hex, Unhex, IsHex;
    HexRoundTrip(data);
    Evens(|data|);
  }

  lemma Evens(n: nat)
    ensures (2 * n) % 2 == 0
  {
  }

  lemma ReadIsSaid(w: World, raw: Bytes, role: Word, binary: string, proof: string)
    requires ReadJournal(w, Some(raw), role, binary, proof).Ok?
    ensures var (deal, phase) := ReadJournal(w, Some(raw), role, binary, proof).value;
            && deal == Deal(deal.before, role, binary, proof) && IsPhase(phase)
            && JournalSays(w, raw, role, binary, proof, deal.before, phase)
  {
    hide HexSnapshot, Unhex, IsHex, Unwrap;
    var record := Unwrap(w, raw, RetainedJournalChecksumInvalid).value;
    var (deal, phase) := ReadJournal(w, Some(raw), role, binary, proof).value;
    SnapshotDecodes(record[Manifest], deal.before.0);
    SnapshotDecodes(record[Receipt], deal.before.1);
    assert record == Noted(role, binary, proof, deal.before, phase);
    Unwrapped(w, raw, record);
  }

  lemma SnapshotDecodes(j: Json, data: Bytes)
    requires HexSnapshot(j) && data == Unhex(j.word.text)
    ensures j == Text(Free(Hex(data))) && 0 < |data| <= 8192
  {
    PairReview.UnhexRoundTrip(j.word.text);
  }

  lemma Unwrapped(w: World, raw: Bytes, record: Fields)
    requires Unwrap(w, raw, RetainedJournalChecksumInvalid) == Ok(record)
    ensures w.parse(raw) == Some(Obj(map[Record := Obj(record), Sha256 := Text(Free(w.sha(w.dumps(Obj(record)))))]))
  {
    var envelope := LoadJson(w, raw).value;
    assert envelope == map[Record := Obj(record), Sha256 := Digest(w.sha(w.dumps(Obj(record))))];
  }

  lemma CurrentStands(s: Node)
    ensures Current(s).Ok? ==> Stands(s, Current(s).value)
    ensures forall pair :: Stands(s, pair) ==> Current(s) == Ok(pair)
  {
  }

  lemma AllowedIsPhased(s: Node, phase: Word, before: Pair, after: Pair)
    requires IsPhase(phase) && Current(s).Ok?
    ensures Current(s).value in Allowed(phase, before, after) <==> Phased(s, phase, before, after)
  {
    CurrentStands(s);
    var pair := Current(s).value;
    assert forall p: Pair :: Stands(s, p) <==> p == pair;
  }

  lemma PhasedIsCurrent(s: Node, phase: Word, before: Pair, after: Pair)
    requires Phased(s, phase, before, after)
    ensures Current(s).Ok?
  {
    CurrentStands(s);
  }

  /** An unsealed node admits an operation exactly on a record, or on a pair that can be changed. */
  lemma AdmitsRecord(w: World, s: Node, q: Request, proof: string)
    requires s.journal.Some?
    ensures Admit(w, s, q, proof).Ok? ==>
              var t := Admit(w, s, q, proof).value;
              && t.deal == Deal(t.deal.before, q.role, q.binary, proof) && Current(s) == Ok(t.observed)
              && Recorded(w, s, q, proof, t.deal.before, t.after, t.phase)
    ensures forall before, after, phase :: Recorded(w, s, q, proof, before, after, phase) ==>
              Admit(w, s, q, proof).Ok?
              && Admit(w, s, q, proof).value ==
                  Ticket(Deal(before, q.role, q.binary, proof), after, phase, Current(s).value)
  {
    hide Transition, ReadJournal, JournalSays, Phased, Allowed, Stands;
    CurrentStands(s);
    forall phase, before, after | IsPhase(phase) && Current(s).Ok?
      ensures Current(s).value in Allowed(phase, before, after) <==> Phased(s, phase, before, after)
    {
      AllowedIsPhased(s, phase, before, after);
    }
    forall phase, before, after | Phased(s, phase, before, after) ensures Current(s).Ok? {
      PhasedIsCurrent(s, phase, before, after);
    }
    if Admit(w, s, q, proof).Ok? {
      ReadIsSaid(w, s.journal.value, q.role, q.binary, proof);
    }
    forall before, after, phase | Recorded(w, s, q, proof, before, after, phase)
      ensures Admit(w, s, q, proof).Ok?
              && Admit(w, s, q, proof).value ==
                  Ticket(Deal(before, q.role, q.binary, proof), after, phase, Current(s).value)
    {
      SaysIsRead(w, s.journal.value, q.role, q.binary, proof, before, phase);
    }
  }

  // ---------------------------------------------------------------- installation

  /** The number of files in which two pairs differ. */
  function Changed(observed: Pair, to: Pair): nat {
    (if observed.0 != to.0 then 1 else 0) + (if observed.1 != to.1 then 1 else 0)
  }

  lemma ChangedByHalf(observed: Pair, to: Pair, order: seq<Half>)
    requires |order| == 2 && order[0] != order[1]
    ensures var mid := With(observed, order[0], Get(to, order[0]));
            Changed(observed, to) == (if Get(observed, order[0]) != Get(to, order[0]) then 1 else 0)
                                     + (if Get(mid, order[1]) != Get(to, order[1]) then 1 else 0)
  {
  }

  lemma ShiftOne(w: World, deal: Deal, observed: Pair, to: Pair, order: seq<Half>, final: Word, look: Looks, n: nat)
    requires order != []
    ensures var a := Shift(w, deal, observed, to, order, final, look, n);
            var rest := Shift(w, deal, With(observed, order[0], Get(to, order[0])), to, order[1..], final, look, n + 1);
            && (a.end.Ok? <==> look(n) == deal.proof && rest.end.Ok?)
            && (a.end.Ok? ==>
                  && a.end == rest.end
                  && |a.steps| == |rest.steps| + (if Get(observed, order[0]) != Get(to, order[0]) then 1 else 0))
  {
    ShiftUnfolds(w, deal, observed, to, order, final, look, n);
    hide Shift, JournalText, Get, With;
  }

  lemma ShiftNone(w: World, deal: Deal, observed: Pair, to: Pair, final: Word, look: Looks, n: nat)
    ensures var a := Shift(w, deal, observed, to, [], final, look, n);
            && (a.end.Ok? <==> look(n) == deal.proof) && (a.end.Ok? ==> a.end == Ok(final) && |a.steps| == 1)
  {
    ShiftUnfolds(w, deal, observed, to, [], final, look, n);
    hide Shift, JournalText;
  }

  /** The loop over both files looks three times. */
  lemma ShiftOutcome(w: World, deal: Deal, observed: Pair, to: Pair, order: seq<Half>, final: Word, look: Looks, n: nat)
    requires |order| == 2 && order[0] != order[1]
    ensures var a := Shift(w, deal, observed, to, order, final, look, n);
            && (a.end.Ok? <==> LooksAre(look, deal.proof, n, n + 3)) && (a.end.Ok? ==> a.end == Ok(final))
            && (a.end.Ok? ==> |a.steps| == 1 + Changed(observed, to))
  {
    hide Shift, JournalText, Get, With;
    assert order[1..] == [order[1]] && order[1..][1..] == [];
    assert LooksAre(look, deal.proof, n, n + 3) <==>
        look(n) == deal.proof && look(n + 1) == deal.proof && look(n + 2) == deal.proof;
    var mid := With(observed, order[0], Get(to, order[0]));
    ShiftOne(w, deal, observed, to, order, final, look, n);
    ShiftOne(w, deal, mid, to, order[1..], final, look, n + 1);
    ShiftNone(w, deal, With(mid, order[1], Get(to, order[1])), to, final, look, n + 2);
    ChangedByHalf(observed, to, order);
  }

  /** The witness at the looks of an installation: before the first write, and before each that follows. */
  predicate Witnessed(q: Request, look: Looks) {
    if q.expected.Some? then LooksAre(look, look(0), 1, 5) else LooksAre(look, look(0), 1, 4)
  }

  /** On a node without a journal, an installation that is not cut succeeds exactly if the request makes sense, there
      is no seal, a pair that can be changed stands, it is the pair of the handoff if there is one, and the witness
      stays.  Then the one permitted change stands under a committed journal. */
  lemma {:induction false} InstallsExactlyWhen(w: World, s: Node, q: Request, look: Looks)
    requires q.action == Install && s.journal.None?
    ensures var a := Operate(w, s, q, look);
            && (a.end.Ok? <==>
                  && Sane(s, q, look) && s.seal.None? && Witnessed(q, look)
                  && exists pair :: && Stands(s, pair) && (q.expected.Some? ==> pair == q.expected.value.pair)
                                    && Transition(w, pair.0, pair.1, q.binary, q.role).Ok?)
            && (a.end.Ok? ==>
                  && a.end == Ok(Committed)
                  && forall pair :: Stands(s, pair) ==>
                       var next := Transition(w, pair.0, pair.1, q.binary, q.role);
                       && next.Ok?
                       && Replay(Act, s, a.steps) ==
                          s.(manifest := Some(next.value.0), receipt := Some(next.value.1),
                             journal := Some(JournalText(w, Deal(pair, q.role, q.binary, look(0)), Committed))))
  {
    hide Transition, Shift, JournalText, Replay, Act, LooksAre;
    PrecheckExactly(s, q, look);
    hide Precheck, Sane;
    CurrentStands(s);
    hide Current, Stands;
    if Precheck(s, q, look).Ok? && s.seal.None? && Admit(w, s, q, look(0)).Ok? {
      var t := Admit(w, s, q, look(0)).value;
      ShiftOutcome(w, t.deal, t.observed, t.after, [ManifestHalf, ReceiptHalf], Committed, look,
          if q.expected.Some? then 2 else 1);
      LooksSplit(look, look(0));
      HandoffProof(s, q, look);
      if Operate(w, s, q, look).end.Ok? {
        InstalledIs(w, s, q, look);
      }
    }
  }

  lemma LooksSplit(look: Looks, proof: string)
    ensures LooksAre(look, proof, 1, 5) <==> look(1) == proof && LooksAre(look, proof, 2, 5)
  {
  }

  lemma HandoffProof(s: Node, q: Request, look: Looks)
    requires Precheck(s, q, look).Ok?
    ensures q.expected.Some? ==> look(0) == q.expected.value.proof
  {
  }

  /** What an operation other than a cleanup leaves. */
  lemma Leaves(w: World, s: Node, q: Request, look: Looks)
    requires q.action != Cleanup && Operate(w, s, q, look).end.Ok?
    ensures var answer, admitted := Operate(w, s, q, look).end.value, Admit(w, s, q, look(0));
            && admitted.Ok? && s.seal.None?
            && var ticket := admitted.value;
            && answer == (if q.action == Install
                || (q.action == Recover && ticket.phase == Committed) then Committed else Restored)
            && var pair := if answer == Committed then ticket.after else ticket.deal.before;
            Replay(Act, s, Operate(w, s, q, look).steps) ==
            s.(manifest := Some(pair.0), receipt := Some(pair.1),
               journal := if ticket.phase == answer then s.journal else Some(JournalText(w, ticket.deal, answer)))
  {
    hide Transition, OpenDeal, Admit, Operate, JournalText, Replay, Act;
    var steps := Operate(w, s, q, look).steps;
    OperationIsExact(w, s, q, look);
    EveryCutIsBetween(w, s, q, look, |steps|);
    assert UpTo(steps, |steps|) == steps;
  }

  lemma InstalledIs(w: World, s: Node, q: Request, look: Looks)
    requires q.action == Install && s.journal.None? && Operate(w, s, q, look).end.Ok?
    ensures forall pair :: Stands(s, pair) ==>
              var next := Transition(w, pair.0, pair.1, q.binary, q.role);
              && next.Ok?
              && Replay(Act, s, Operate(w, s, q, look).steps) ==
                 s.(manifest := Some(next.value.0), receipt := Some(next.value.1),
                    journal := Some(JournalText(w, Deal(pair, q.role, q.binary, look(0)), Committed)))
  {
    hide Transition, Operate, JournalText, Replay, Act;
    Leaves(w, s, q, look);
    CurrentStands(s);
    hide Stands;
  }

  /** Over a journal, an installation never writes; it succeeds exactly if the journal is this request's committed
      record. */
  lemma {:induction false} InstalledAlreadyExactlyWhen(w: World, s: Node, q: Request, look: Looks)
    requires q.action == Install && s.journal.Some?
    ensures var a := Operate(w, s, q, look);
            && a.steps == []
            && (a.end.Ok? <==>
                  && Sane(s, q, look) && s.seal.None?
                  && exists before, after :: Recorded(w, s, q, look(0), before, after, Committed))
            && (a.end.Ok? ==> a.end == Ok(Committed))
  {
    hide Transition, Shift, JournalText, Recorded, Admit, JournalSays;
    PrecheckExactly(s, q, look);
    hide Precheck, Sane;
    AdmitsRecord(w, s, q, look(0));
    if s.seal.None? && Admit(w, s, q, look(0)).Ok? {
      RecordedPhase(w, s, q, look(0));
    }
  }

  lemma RecordedPhase(w: World, s: Node, q: Request, proof: string)
    ensures forall before, after, phase :: Recorded(w, s, q, proof, before, after, phase) ==> IsPhase(phase)
  {
  }

  // ---------------------------------------------------------------- rollback and recovery

  /** What a rollback or a recovery has to do in this phase. */
  predicate Idles(action: Action, phase: Word) {
    phase == Restored || (action == Recover && phase == Committed)
  }

  /** A rollback or a recovery that is not cut succeeds exactly if the request makes sense, there is no seal, the
      journal is this request's record and explains the pair that stands, and the witness stays while there is
      something to do.  Then the pair is the one that was recorded, under a restored journal, unless there was nothing
      to do. */
  lemma {:induction false} RollsBackExactlyWhen(w: World, s: Node, q: Request, look: Looks)
    requires q.action == Rollback || q.action == Recover
    ensures var a := Operate(w, s, q, look);
            && (a.end.Ok? <==>
                  && Sane(s, q, look) && s.seal.None?
                  && exists before, after, phase ::
                       && Recorded(w, s, q, look(0), before, after, phase)
                       && (Idles(q.action, phase) || LooksAre(look, look(0), 1, 5)))
            && (a.end.Ok? ==> forall before, after, phase :: Recorded(w, s, q, look(0), before, after, phase) ==>
                  if Idles(q.action, phase) then a == Attempt([], Ok(phase))
                  else
                    && a.end == Ok(Restored)
                    && |a.steps| == 2 + (if s.manifest != Some(before.0) then 1 else 0) +
                        (if s.receipt != Some(before.1) then 1 else 0)
                    && Replay(Act, s, a.steps) ==
                       s.(manifest := Some(before.0), receipt := Some(before.1),
                          journal := Some(JournalText(w, Deal(before, q.role, q.binary, look(0)), Restored))))
  {
    hide Transition, Shift, JournalText, Recorded, Admit, JournalSays, Replay, Act, LooksAre;
    PrecheckExactly(s, q, look);
    hide Precheck, Sane;
    if s.journal.Some? {
      AdmitsRecord(w, s, q, look(0));
      RecordedPhase(w, s, q, look(0));
    } else {
      assert Admit(w, s, q, look(0)).Fail? by { NothingRecorded(w, s, q, look(0)); }
      assert forall before, after, phase :: !Recorded(w, s, q, look(0), before, after, phase)
          by { NothingRecorded(w, s, q, look(0)); }
    }
    if s.seal.None? && Admit(w, s, q, look(0)).Ok? {
      var t := Admit(w, s, q, look(0)).value;
      ShiftOutcome(w, t.deal, t.observed, t.deal.before, [ReceiptHalf, ManifestHalf], Restored, look, 2);
      LooksSplit(look, look(0));
      ObservedIs(s);
      if Operate(w, s, q, look).end.Ok? {
        Leaves(w, s, q, look);
      }
    }
  }

  lemma NothingRecorded(w: World, s: Node, q: Request, proof: string)
    requires s.journal.None? && q.action != Install
    ensures Admit(w, s, q, proof).Fail?
    ensures forall before, after, phase :: !Recorded(w, s, q, proof, before, after, phase)
  {
  }

  lemma ObservedIs(s: Node)
    ensures Current(s).Ok? ==> s.manifest == Some(Current(s).value.0) && s.receipt == Some(Current(s).value.1)
  {
  }

  // ---------------------------------------------------------------- cleanup

  /** The seal is of this request and this witness, and vouches for the pair that stands and for a journal that is
      left. */
  ghost predicate SealSays(w: World, s: Node, q: Request, proof: string, pair: Pair) {
    && s.seal.Some? && 0 < |s.seal.value| <= 4096 && Stands(s, pair)
    && Transition(w, pair.0, pair.1, q.binary, q.role).Ok?
    && exists journal :: SealTells(w, s, q, proof, pair, journal)
  }

  /** The seal's text is the record of this pair and of the journal of this hash, which is the one that is there. */
  predicate SealTells(w: World, s: Node, q: Request, proof: string, pair: Pair, journal: string)
    requires s.seal.Some?
  {
    var record := SealNoted(w, q, proof, pair, journal);
    && IsSha(journal)
    && w.parse(s.seal.value) == Some(Obj(map[Record := Obj(record), Sha256 := Text(Free(w.sha(w.dumps(Obj(record)))))]))
    && (s.journal.Some? ==> 0 < |s.journal.value| <= 40000 && w.sha(s.journal.value) == journal)
  }

  lemma UnwrapsExactly(w: World, raw: Bytes, record: Fields, why: Reason)
    ensures Unwrap(w, raw, why) == Ok(record) <==>
            w.parse(raw) == Some(Obj(map[Record := Obj(record), Sha256 := Text(Free(w.sha(w.dumps(Obj(record)))))]))
  {
    var envelope := map[Record := Obj(record), Sha256 := Digest(w.sha(w.dumps(Obj(record))))];
    assert envelope.Keys == {Record, Sha256};
    if Unwrap(w, raw, why) == Ok(record) {
      assert LoadJson(w, raw).value == envelope;
    }
  }

  /** The record of a seal. */
  function SealNoted(w: World, q: Request, proof: string, pair: Pair, journal: string): Fields {
    map[Schema := Int(1), Role := Text(q.role), Binary := Text(Free(q.binary)), Witness := Text(Free(proof)),
        ManifestSha256 := Text(Free(w.sha(pair.0))), ReceiptSha256 := Text(Free(w.sha(pair.1))),
        JournalSha256 := Text(Free(journal))]
  }

  lemma FinishedIsSealed(w: World, s: Node, q: Request, proof: string, look: Looks, n: nat)
    requires CheckFinish(w, s, q.role, q.binary, proof, look, n).Ok?
    ensures look(n) == proof && exists pair :: SealSays(w, s, q, proof, pair)
  {
    hide Transition, Unwrap, IsSha;
    var record := ReadSeal(w, s, q.role, q.binary, proof).value;
    var pair, journal := Current(s).value, record[JournalSha256].word.text;
    assert record == SealNoted(w, q, proof, pair, journal);
    UnwrapsExactly(w, s.seal.value, record, RetainedCleanupSealUntrusted);
    assert SealTells(w, s, q, proof, pair, journal);
    assert SealSays(w, s, q, proof, pair);
  }

  lemma SealReadsAs(w: World, s: Node, q: Request, proof: string, pair: Pair, journal: string)
    requires w.Valid() && s.seal.Some? && 0 < |s.seal.value| <= 4096 && SealTells(w, s, q, proof, pair, journal)
    ensures ReadSeal(w, s, q.role, q.binary, proof) == Ok(SealNoted(w, q, proof, pair, journal))
  {
    hide Unwrap, IsSha, World.Valid;
    w.HashIsSha(pair.0);
    w.HashIsSha(pair.1);
    var record := SealNoted(w, q, proof, pair, journal);
    UnwrapsExactly(w, s.seal.value, record, RetainedCleanupSealUntrusted);
    assert record.Keys == {Schema, Role, Binary, Witness, ManifestSha256, ReceiptSha256, JournalSha256};
  }

  lemma SealedIsFinished(w: World, s: Node, q: Request, proof: string, look: Looks, n: nat, pair: Pair)
    requires w.Valid() && look(n) == proof && SealSays(w, s, q, proof, pair)
    ensures CheckFinish(w, s, q.role, q.binary, proof, look, n).Ok?
  {
    hide Transition, ReadSeal, IsSha, World.Valid;
    CurrentStands(s);
    var journal :| SealTells(w, s, q, proof, pair, journal);
    SealReadsAs(w, s, q, proof, pair, journal);
  }


  /** The seal of a cleanup that begins passes its own check. */
  lemma OwnSealPasses(w: World, s: Node, q: Request, proof: string, before: Pair, after: Pair, look: Looks, n: nat)
    requires w.Valid() && w.Roomy() && IsSha(proof) && Recorded(w, s, q, proof, before, after, Restored)
    ensures var t := Ticket(Deal(before, q.role, q.binary, proof), after, Restored, before);
            var sealed := Act(s, PutSeal(SealText(w, t, s.journal.value)));
            CheckFinish(w, sealed, q.role, q.binary, proof, look, n).Ok? <==> look(n) == proof
  {
    hide World.Valid, World.Roomy, Wrapped, Transition, IsSha, ReadSeal, Current, Stands, SealOf;
    RestoredStands(w, s, q, proof, before, after);
    BinaryIsSha(w, before, q.binary, q.role, after);
    var deal := Deal(before, q.role, q.binary, proof);
    var sealed := Act(s, PutSeal(Wrapped(w, SealOf(w, deal, s.journal.value))));
    SealReadsBack(w, sealed, deal, s.journal.value, q.role, q.binary, proof);
    SameCurrent(s, sealed);
    SealNames(w, deal, s.journal.value);
  }

  lemma BinaryIsSha(w: World, before: Pair, binary: string, role: Word, after: Pair)
    requires Transition(w, before.0, before.1, binary, role) == Ok(after)
    ensures IsSha(binary) && IsRole(role)
  {
    hide Transition, Bound;
    var _, _ := TransitionFrom(w, before.0, before.1, binary, role, after);
  }

  lemma SameCurrent(s: Node, t: Node)
    requires t.manifest == s.manifest && t.receipt == s.receipt
    ensures Current(t) == Current(s)
  {
  }

  lemma SealNames(w: World, deal: Deal, journal: Bytes)
    ensures var doc := SealOf(w, deal, journal);
            && {ManifestSha256, ReceiptSha256, JournalSha256} <= doc.Keys
            && doc[ManifestSha256] == Digest(w.sha(deal.before.0)) && doc[ReceiptSha256] == Digest(w.sha(deal.before.1))
            && doc[JournalSha256] == Digest(w.sha(journal))
  {
  }

  /** A cleanup that is not cut succeeds exactly if the request makes sense and the witness stays, and either the seal
      vouches for the pair and the journal, or, without a seal, the journal is this request's restored record and its
      pair stands.  Then journal and seal are gone, and nothing else has changed. */
  lemma {:induction false} CleansExactlyWhen(w: World, s: Node, q: Request, look: Looks)
    requires w.Valid() && w.Roomy() && q.action == Cleanup
    ensures var a := Operate(w, s, q, look);
            && (a.end.Ok? <==>
                  && Sane(s, q, look)
                  && if s.seal.Some? then LooksAre(look, look(0), 1, 3) && exists pair ::
                      SealSays(w, s, q, look(0), pair)
                     else LooksAre(look, look(0), 1, 4) && exists before, after ::
                         Recorded(w, s, q, look(0), before, after, Restored))
            && (a.end.Ok? ==>
                  && a.end == Ok(Restored) && Replay(Act, s, a.steps) == s.(journal := None, seal := None)
                  && (s.seal.None? ==> |a.steps| == 3))
  {
    hide Transition, JournalText, Recorded, Admit, JournalSays, Replay, Act, CheckFinish, SealSays, SealText,
         World.Valid, World.Roomy;
    PrecheckExactly(s, q, look);
    assert Sane(s, q, look) ==> IsSha(look(0));
    hide Precheck, Sane, IsSha;
    if Operate(w, s, q, look).end.Ok? {
      OperationIsExact(w, s, q, look);
    }
    if s.seal.Some? {
      if CheckFinish(w, s, q.role, q.binary, look(0), look, 1).Ok? {
        FinishedIsSealed(w, s, q, look(0), look, 1);
      }
      forall pair | SealSays(w, s, q, look(0), pair) && look(1) == look(0)
        ensures CheckFinish(w, s, q.role, q.binary, look(0), look, 1).Ok?
      {
        SealedIsFinished(w, s, q, look(0), look, 1, pair);
      }
    } else if s.journal.None? {
      assert Admit(w, s, q, look(0)).Fail? && forall before, after ::
          !Recorded(w, s, q, look(0), before, after, Restored) by {
        NothingRecorded(w, s, q, look(0));
      }
    } else {
      UnsealedCleanup(w, s, q, look);
    }
  }

  lemma UnsealedCleanup(w: World, s: Node, q: Request, look: Looks)
    requires w.Valid() && w.Roomy() && q.action == Cleanup && s.seal.None? && s.journal.Some?
    ensures var a := Operate(w, s, q, look);
            && (a.end.Ok? <==>
                  && Sane(s, q, look) && LooksAre(look, look(0), 1, 4)
                  && exists before, after :: Recorded(w, s, q, look(0), before, after, Restored))
            && (a.end.Ok? ==> |a.steps| == 3)
  {
    hide Transition, JournalText, Recorded, Admit, JournalSays, CheckFinish, SealText, World.Valid, World.Roomy;
    PrecheckExactly(s, q, look);
    assert Sane(s, q, look) ==> IsSha(look(0));
    hide Precheck, Sane, IsSha;
    AdmitsRecord(w, s, q, look(0));
    if Sane(s, q, look) && Admit(w, s, q, look(0)).Ok? {
      var t := Admit(w, s, q, look(0)).value;
      if t.phase == Restored {
        RestoredStands(w, s, q, look(0), t.deal.before, t.after);
        assert t == Ticket(Deal(t.deal.before, q.role, q.binary, look(0)), t.after, Restored, t.deal.before);
        OwnSealPasses(w, s, q, look(0), t.deal.before, t.after, look, 2);
      } else {
        forall before, after ensures !Recorded(w, s, q, look(0), before, after, Restored) {
        }
      }
    }
  }

  lemma RestoredStands(w: World, s: Node, q: Request, proof: string, before: Pair, after: Pair)
    requires Recorded(w, s, q, proof, before, after, Restored)
    ensures Current(s) == Ok(before)
  {
    CurrentStands(s);
  }
}
