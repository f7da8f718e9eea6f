/** Every run of the retained-node transaction: any sequence of operations, whatever the witness
    shows at each look, each cut after any number of durable steps. */
module RetainedRuns {
  import opened Durable
  import opened Host
  import opened PairPlanner
  import opened Retained

  /** One agreed change: the deal and the pair it leads to. */
  datatype Trade = Trade(deal: Deal, after: Pair)

  datatype Stage =
    | Idle
    | Journaled(phase: Word, manifestNew: bool, receiptNew: bool, trade: Trade)
    | Sealed(journalLeft: bool, trade: Trade)

  predicate Readable(pair: Pair) {
    0 < |pair.0| <= 8192 && 0 < |pair.1| <= 8192
  }

  ghost predicate Agreed(w: World, origin: Pair, trade: Trade) {
    && trade.deal.before == origin && Readable(origin)
    && Transition(w, origin.0, origin.1, trade.deal.binary, trade.deal.role) == Ok(trade.after)
    && IsSha(trade.deal.proof) && IsSha(trade.deal.binary) && IsRole(trade.deal.role)
    && Readable(trade.after) && trade.after.0 != origin.0 && trade.after.1 != origin.1
  }

  /** Which halves may be new in which phase; a new receipt always comes with a new manifest. */
  predicate Fitting(phase: Word, manifestNew: bool, receiptNew: bool) {
    match phase
    case Prepared => receiptNew ==> manifestNew
    case Committed => manifestNew && receiptNew
    case Restoring => receiptNew ==> manifestNew
    case Restored => !manifestNew && !receiptNew
    case _ => false
  }

  ghost predicate Belongs(w: World, origin: Pair, stage: Stage) {
    match stage
    case Idle => true
    case Journaled(phase, manifestNew, receiptNew, trade) => Agreed(w, origin, trade)
        && Fitting(phase, manifestNew, receiptNew)
    case Sealed(_, trade) => Agreed(w, origin, trade)
  }

  function Clean(origin: Pair): Node {
    Node(Some(origin.0), Some(origin.1), None, None, false)
  }

  function Mix(before: Pair, after: Pair, manifestNew: bool, receiptNew: bool): Pair {
    (if manifestNew then after.0 else before.0, if receiptNew then after.1 else before.1)
  }

  function Image(w: World, origin: Pair, stage: Stage): Node {
    match stage
    case Idle => Clean(origin)
    case Journaled(phase, manifestNew, receiptNew, trade) =>
      var pair := Mix(origin, trade.after, manifestNew, receiptNew);
      Node(Some(pair.0), Some(pair.1), Some(JournalText(w, trade.deal, phase)), None, false)
    case Sealed(journalLeft, trade) =>
      var journal := JournalText(w, trade.deal, Restored);
      Node(Some(origin.0), Some(origin.1), if journalLeft then Some(journal) else None,
           Some(Wrapped(w, SealOf(w, trade.deal, journal))), false)
  }

  // ---------------------------------------------------------------- the complete walks

  function InstallWalk(w: World, t: Trade): Walk<Move, Stage> {
    [(PutJournal(JournalText(w, t.deal, Prepared)), Journaled(Prepared, false, false, t)),
     (Put(ManifestHalf, t.after.0), Journaled(Prepared, true, false, t)),
     (Put(ReceiptHalf, t.after.1), Journaled(Prepared, true, true, t)),
     (PutJournal(JournalText(w, t.deal, Committed)), Journaled(Committed, true, true, t))]
  }

  function RestoreWalk(w: World, t: Trade, manifestNew: bool, receiptNew: bool): Walk<Move, Stage> {
    [(PutJournal(JournalText(w, t.deal, Restoring)), Journaled(Restoring, manifestNew, receiptNew, t))] +
    (if receiptNew then [(Put(ReceiptHalf, t.deal.before.1), Journaled(Restoring, manifestNew, false, t))] else []) +
    (if manifestNew then [(Put(ManifestHalf, t.deal.before.0), Journaled(Restoring, false, false, t))] else []) +
    [(PutJournal(JournalText(w, t.deal, Restored)), Journaled(Restored, false, false, t))]
  }

  function SealedWalk(journalLeft: bool, t: Trade): Walk<Move, Stage> {
    (if journalLeft then [(DropJournal, Sealed(false, t))] else []) + [(DropSeal, Idle)]
  }

  function CleanWalk(w: World, t: Trade): Walk<Move, Stage> {
    [(PutSeal(Wrapped(w, SealOf(w, t.deal, JournalText(w, t.deal, Restored)))), Sealed(true, t))] + SealedWalk(true, t)
  }

  /** What each action intends on each stage when the witness never changes. */
  function Intended(w: World, stage: Stage, action: Action, t: Trade): Walk<Move, Stage> {
    match (stage, action)
    case (Idle, Install) => InstallWalk(w, t)
    case (Journaled(phase, manifestNew, receiptNew, t), Rollback) =>
      if phase == Restored then [] else RestoreWalk(w, t, manifestNew, receiptNew)
    case (Journaled(phase, manifestNew, receiptNew, t), Recover) =>
      if phase == Restored || phase == Committed then [] else RestoreWalk(w, t, manifestNew, receiptNew)
    case (Journaled(phase, _, _, t), Cleanup) => if phase == Restored then CleanWalk(w, t) else []
    case (Sealed(journalLeft, t), Cleanup) => SealedWalk(journalLeft, t)
    case _ => []
  }

  lemma IntendedLeads(w: World, origin: Pair, stage: Stage, action: Action, t: Trade)
    requires Belongs(w, origin, stage) && Agreed(w, origin, t)
    ensures Leads(Act, (s: Stage) => Image(w, origin, s), stage, Intended(w, stage, action, t))
    ensures forall i :: 0 <= i < |Intended(w, stage, action, t)| ==>
            Belongs(w, origin, Intended(w, stage, action, t)[i].1)
  {
    hide Transition, JournalText, Wrapped, SealOf;
  }

  // ---------------------------------------------------------------- what is written can be read back

  lemma AgreedFacts(w: World, origin: Pair, deal: Deal, after: Pair)
    requires w.Valid()
    requires deal.before == origin && Readable(origin) && IsSha(deal.proof)
    requires Transition(w, origin.0, origin.1, deal.binary, deal.role) == Ok(after)
    ensures Agreed(w, origin, Trade(deal, after))
  {
    hide Bound;
    var engines, doc := TransitionKeepsBinding(w, origin.0, origin.1, deal.binary, deal.role, after);
  }

  predicate IsPhase(phase: Word) {
    phase in {Prepared, Committed, Restoring, Restored}
  }

  lemma RecordReads(deal: Deal, phase: Word)
    requires Readable(deal.before) && IsSha(deal.proof) && IsSha(deal.binary) && IsRole(deal.role) && IsPhase(phase)
    ensures Snapshot(RecordOf(deal, phase))
    ensures HexSnapshot(RecordOf(deal, phase)[Manifest]) && HexSnapshot(RecordOf(deal, phase)[Receipt])
  {
    HexRoundTrip(deal.before.0);
    HexRoundTrip(deal.before.1);
  }

  lemma RecordIsCanonical(deal: Deal, phase: Word)
    requires Readable(deal.before) && IsSha(deal.proof) && IsSha(deal.binary) && IsRole(deal.role) && IsPhase(phase)
    ensures Canonical(Obj(RecordOf(deal, phase)))
  {
    hide Canonical, Snapshot, RecordOf;
    RecordReads(deal, phase);
    SnapshotIsCanonical(RecordOf(deal, phase));
  }

  lemma RecordUnwraps(w: World, deal: Deal, phase: Word, why: Reason)
    requires w.Valid() && Readable(deal.before) && IsSha(deal.proof) && IsSha(deal.binary) && IsRole(deal.role)
             && IsPhase(phase)
    ensures Unwrap(w, JournalText(w, deal, phase), why) == Ok(RecordOf(deal, phase))
  {
    hide Unwrap, Wrapped, RecordOf, Canonical;
    RecordIsCanonical(deal, phase);
    WrappedReads(w, RecordOf(deal, phase), why);
  }

  lemma WrappedReads(w: World, record: Fields, why: Reason)
    requires w.Valid() && Canonical(Obj(record))
    ensures Unwrap(w, Wrapped(w, record), why) == Ok(record)
  {
    var sha := w.sha(w.dumps(Obj(record)));
    w.HashIsSha(w.dumps(Obj(record)));
    EnvelopeIsCanonical(record, sha);
    hide Canonical, World.Valid, IsSha;
    var envelope := map[Record := Obj(record), Sha256 := Digest(sha)];
    LineParses(w, envelope);
    EnvelopeUnwraps(w, Wrapped(w, record), record, why);
  }

  lemma EnvelopeUnwraps(w: World, raw: Bytes, record: Fields, why: Reason)
    requires LoadJson(w, raw) == Ok(Envelope(record, w.sha(w.dumps(Obj(record)))).fields)
    ensures Unwrap(w, raw, why) == Ok(record)
  {
    hide LoadJson;
    assert Envelope(record, w.sha(w.dumps(Obj(record)))).fields.Keys == {Record, Sha256};
  }

  lemma JournalIsSmall(w: World, deal: Deal, phase: Word)
    requires w.Valid() && w.Roomy()
    requires Readable(deal.before) && IsSha(deal.proof) && IsSha(deal.binary) && IsRole(deal.role) && IsPhase(phase)
    ensures 0 < |JournalText(w, deal, phase)| <= 40000
  {
    hide Snapshot, RecordOf, Canonical, Flat;
    RecordReads(deal, phase);
    var sha := w.sha(w.dumps(Obj(RecordOf(deal, phase))));
    assert IsSha(sha);
  }

  lemma JournalReads(w: World, deal: Deal, phase: Word, role: Word, binary: string, proof: string)
    requires w.Valid() && w.Roomy()
    requires Readable(deal.before) && IsSha(deal.proof) && IsSha(deal.binary) && IsRole(deal.role) && IsPhase(phase)
    ensures 0 < |JournalText(w, deal, phase)| <= 40000
    ensures deal.role == role && deal.binary == binary && deal.proof == proof ==>
              ReadJournal(w, Some(JournalText(w, deal, phase)), role, binary, proof) == Ok((deal, phase))
    ensures !(deal.role == role && deal.binary == binary && deal.proof == proof) ==>
              ReadJournal(w, Some(JournalText(w, deal, phase)), role, binary, proof).Fail?
  {
    hide Snapshot, HexSnapshot, Canonical, JournalText, Unwrap, Flat, World.Valid;
    JournalIsSmall(w, deal, phase);
    RecordReads(deal, phase);
    HexRoundTrip(deal.before.0);
    HexRoundTrip(deal.before.1);
    RecordUnwraps(w, deal, phase, RetainedJournalChecksumInvalid);
  }

  lemma SealIsSmall(w: World, deal: Deal, journal: Bytes)
    requires w.Valid() && w.Roomy()
    requires IsSha(deal.proof) && IsSha(deal.binary) && IsRole(deal.role)
    ensures ReadPrivate(Some(Wrapped(w, SealOf(w, deal, journal))), 4096).Ok?
  {
    SealIsFlat(w, deal, journal);
    assert IsSha(w.sha(w.dumps(Obj(SealOf(w, deal, journal)))));
    hide Canonical, Flat, SealOf;
  }

  lemma SealIsFlat(w: World, deal: Deal, journal: Bytes)
    requires w.Valid()
    requires IsSha(deal.proof) && IsSha(deal.binary) && IsRole(deal.role)
    ensures Flat(SealOf(w, deal, journal))
  {
    w.HashIsSha(deal.before.0);
    w.HashIsSha(deal.before.1);
    w.HashIsSha(journal);
    hide World.Valid, IsSha;
  }

  lemma SealIsCanonical(w: World, deal: Deal, journal: Bytes)
    requires w.Valid()
    requires IsSha(deal.proof) && IsSha(deal.binary) && IsRole(deal.role)
    ensures Canonical(Obj(SealOf(w, deal, journal)))
  {
    hide Canonical, Flat, SealOf, World.Valid;
    SealIsFlat(w, deal, journal);
    FlatIsCanonical(SealOf(w, deal, journal));
  }

  lemma SealReadsBack(w: World, s: Node, deal: Deal, journal: Bytes, role: Word, binary: string, proof: string)
    requires w.Valid() && w.Roomy()
    requires IsSha(deal.proof) && IsSha(deal.binary) && IsRole(deal.role)
    requires s.seal == Some(Wrapped(w, SealOf(w, deal, journal)))
    ensures deal.role == role && deal.binary == binary && deal.proof == proof ==>
              ReadSeal(w, s, role, binary, proof) == Ok(SealOf(w, deal, journal))
    ensures !(deal.role == role && deal.binary == binary && deal.proof == proof) ==>
              ReadSeal(w, s, role, binary, proof).Fail?
  {
    hide Wrapped, Unwrap, Canonical, World.Valid;
    SealIsSmall(w, deal, journal);
    SealIsCanonical(w, deal, journal);
    WrappedReads(w, SealOf(w, deal, journal), RetainedCleanupSealUntrusted);
    w.HashIsSha(deal.before.0);
    w.HashIsSha(deal.before.1);
    w.HashIsSha(journal);
  }

  // ---------------------------------------------------------------- an operation follows its walk

  /** The witness agrees at every look from the n-th on. */
  ghost predicate Steady(look: Looks, proof: string, n: nat) {
    forall i: nat :: i >= n ==> look(i) == proof
  }

  /** What an operation that may be refused anywhere did: a part of a walk, all of it when the witness is steady. */
  ghost predicate Follows(a: NodeAttempt, walk: Walk<Move, Stage>, steady: bool, final: Word) {
    a.steps <= Ops(walk) && (steady || a.end.Ok? ==> a == Attempt(Ops(walk), Ok(final)))
  }

  lemma InstallShift(w: World, t: Trade, look: Looks, n: nat)
    requires t.after.0 != t.deal.before.0 && t.after.1 != t.deal.before.1
    ensures Follows(Shift(w, t.deal, t.deal.before, t.after, [ManifestHalf, ReceiptHalf], Committed, look, n),
                    InstallWalk(w, t)[1..], Steady(look, t.deal.proof, n), Committed)
  {
    hide Shift, JournalText;
    var mixed := With(t.deal.before, ManifestHalf, t.after.0);
    ShiftUnfolds(w, t.deal, t.deal.before, t.after, [ManifestHalf, ReceiptHalf], Committed, look, n);
    ShiftUnfolds(w, t.deal, mixed, t.after, [ReceiptHalf], Committed, look, n + 1);
    ShiftUnfolds(w, t.deal, t.after, t.after, [], Committed, look, n + 2);
    assert With(mixed, ReceiptHalf, t.after.1) == t.after;
    assert [ManifestHalf, ReceiptHalf][1..] == [ReceiptHalf] && [ReceiptHalf][1..] == [];
  }

  lemma RestoreShift(w: World, t: Trade, manifestNew: bool, receiptNew: bool, look: Looks)
    requires t.after.0 != t.deal.before.0 && t.after.1 != t.deal.before.1
    ensures Follows(Shift(w, t.deal, Mix(t.deal.before, t.after, manifestNew, receiptNew), t.deal.before,
                          [ReceiptHalf, ManifestHalf], Restored, look, 2),
                    RestoreWalk(w, t, manifestNew, receiptNew)[1..], Steady(look, t.deal.proof, 2), Restored)
  {
    hide Shift, JournalText;
    var observed := Mix(t.deal.before, t.after, manifestNew, receiptNew);
    var half := Mix(t.deal.before, t.after, manifestNew, false);
    ShiftUnfolds(w, t.deal, observed, t.deal.before, [ReceiptHalf, ManifestHalf], Restored, look, 2);
    ShiftUnfolds(w, t.deal, half, t.deal.before, [ManifestHalf], Restored, look, 3);
    ShiftUnfolds(w, t.deal, t.deal.before, t.deal.before, [], Restored, look, 4);
    assert With(observed, ReceiptHalf, t.deal.before.1) == half;
    assert With(half, ManifestHalf, t.deal.before.0) == t.deal.before;
    assert Get(observed, ReceiptHalf) != t.deal.before.1 <==> receiptNew;
    assert Get(half, ManifestHalf) != t.deal.before.0 <==> manifestNew;
    hide Mix, With;
    assert [ReceiptHalf, ManifestHalf][1..] == [ManifestHalf] && [ManifestHalf][1..] == [];
  }

  /** The request and the first look belong to the deal. */
  predicate Concerns(q: Request, look: Looks, deal: Deal) {
    q.role == deal.role && q.binary == deal.binary && look(0) == deal.proof
  }

  lemma AdmitJournaled(w: World, origin: Pair, stage: Stage, q: Request, proof: string)
    requires w.Valid() && w.Roomy() && stage.Journaled? && Belongs(w, origin, stage)
    ensures var deal := stage.trade.deal;
            var admitted := Admit(w, Image(w, origin, stage), q, proof);
            if q.role == deal.role && q.binary == deal.binary && proof == deal.proof then
              admitted == Ok(Ticket(deal, stage.trade.after, stage.phase,
                                    Mix(origin, stage.trade.after, stage.manifestNew, stage.receiptNew)))
            else admitted.Fail?
  {
    hide Transition, JournalText, ReadJournal;
    JournalReads(w, stage.trade.deal, stage.phase, q.role, q.binary, proof);
  }

  lemma AdmitIdle(w: World, origin: Pair, q: Request, proof: string)
    requires w.Valid() && IsSha(proof)
    ensures var admitted := Admit(w, Clean(origin), q, proof);
            admitted.Ok? ==>
              && q.action == Install
              && admitted.value.deal == Deal(origin, q.role, q.binary, proof)
              && admitted.value.phase == Fresh && admitted.value.observed == origin
              && Agreed(w, origin, Trade(admitted.value.deal, admitted.value.after))
  {
    hide Transition, Agreed;
    var admitted := Admit(w, Clean(origin), q, proof);
    if admitted.Ok? {
      AgreedFacts(w, origin, admitted.value.deal, admitted.value.after);
    }
  }

  lemma SealedPasses(w: World, origin: Pair, stage: Stage, role: Word, binary: string, proof: string, look: Looks,
      n: nat)
    requires w.Valid() && w.Roomy() && stage.Sealed? && Belongs(w, origin, stage)
    ensures var deal := stage.trade.deal;
            var checked := CheckFinish(w, Image(w, origin, stage), role, binary, proof, look, n);
            checked.Ok? <==> deal.role == role && deal.binary == binary && deal.proof == proof && look(n) == proof
  {
    hide Transition, JournalText, ReadSeal, Wrapped, World.Valid, World.Roomy, IsSha;
    var deal := stage.trade.deal;
    SealReadsBack(w, Image(w, origin, stage), deal, JournalText(w, deal, Restored), role, binary, proof);
    JournalReads(w, deal, Restored, role, binary, proof);
  }

  lemma FinishFollows(w: World, origin: Pair, stage: Stage, role: Word, binary: string, proof: string, look: Looks,
      n: nat)
    requires w.Valid() && w.Roomy() && stage.Sealed? && Belongs(w, origin, stage)
    ensures var deal := stage.trade.deal;
            var a := Finish(w, Image(w, origin, stage), role, binary, proof, look, n);
            && Follows(a, SealedWalk(stage.journalLeft, stage.trade), deal.role == role && deal.binary == binary
                         && deal.proof == proof && Steady(look, proof, n), Restored)
            && (deal.role != role || deal.binary != binary || deal.proof != proof ==> a.end.Fail? && a.steps == [])
  {
    hide CheckFinish, JournalText, Wrapped, Belongs;
    SealedPasses(w, origin, stage, role, binary, proof, look, n);
  }

  /** What an operation on a stage with a journal answers when it is not refused. */
  function Answer(phase: Word, action: Action): Word {
    if action == Install || (phase == Committed && action == Recover) then Committed else Restored
  }

  lemma InstallFollows(w: World, t: Ticket, expected: Option<Handoff>, look: Looks)
    requires t.phase == Fresh && t.observed == t.deal.before
    requires t.after.0 != t.deal.before.0 && t.after.1 != t.deal.before.1
    ensures Follows(InstallPair(w, t, expected, look), InstallWalk(w, Trade(t.deal, t.after)),
                    (expected.Some? ==> expected.value.proof == t.deal.proof) && Steady(look, t.deal.proof, 1),
                    Committed)
  {
    hide Shift, JournalText;
    var trade, n := Trade(t.deal, t.after), if expected.Some? then 2 else 1;
    InstallShift(w, trade, look, n);
    var walk := InstallWalk(w, trade);
    assert Ops(walk) == [walk[0].0] + Ops(walk[1..]);
  }

  lemma RestoreFollows(w: World, t: Trade, phase: Word, manifestNew: bool, receiptNew: bool, action: Action,
      look: Looks)
    requires t.after.0 != t.deal.before.0 && t.after.1 != t.deal.before.1 && action in {Rollback, Recover}
    ensures var ticket := Ticket(t.deal, t.after, phase, Mix(t.deal.before, t.after, manifestNew, receiptNew));
            Follows(RestorePair(w, ticket, action, look),
                Intended(w, Journaled(phase, manifestNew, receiptNew, t), action, t),
                    Steady(look, t.deal.proof, 1), Answer(phase, action))
  {
    hide Shift, JournalText, RestoreWalk, Mix;
    if !(phase == Restored || (action == Recover && phase == Committed)) {
      RestoreShift(w, t, manifestNew, receiptNew, look);
      RestoreFirst(w, t, manifestNew, receiptNew);
    }
  }

  lemma RestoreFirst(w: World, t: Trade, manifestNew: bool, receiptNew: bool)
    ensures var walk := RestoreWalk(w, t, manifestNew, receiptNew);
            walk != [] && Ops(walk) == [PutJournal(JournalText(w, t.deal, Restoring))] + Ops(walk[1..])
  {
    hide JournalText;
  }

  lemma CleanUpFollows(w: World, origin: Pair, stage: Stage, look: Looks)
    requires w.Valid() && w.Roomy() && stage.Journaled? && Belongs(w, origin, stage) && stage.phase == Restored
    ensures var t := Ticket(stage.trade.deal, stage.trade.after, stage.phase, origin);
            Follows(CleanUp(w, Image(w, origin, stage), t, look), CleanWalk(w, stage.trade),
                    Steady(look, t.deal.proof, 1), Restored)
  {
    hide Finish, JournalText, Wrapped, SealOf, Transition, Agreed, SealedWalk;
    var t := stage.trade;
    assert t.deal.before == origin by { AgreedStarts(w, origin, t); }
    FinishFollows(w, origin, Sealed(true, t), t.deal.role, t.deal.binary, t.deal.proof, look, 2);
    var seal := PutSeal(SealText(w, Ticket(t.deal, t.after, Restored, origin), JournalText(w, t.deal, Restored)));
    assert Act(Image(w, origin, stage), seal) == Image(w, origin, Sealed(true, t));
    var walk := CleanWalk(w, t);
    assert Ops(walk) == [seal] + Ops(SealedWalk(true, t));
  }

  lemma AgreedStarts(w: World, origin: Pair, t: Trade)
    requires Agreed(w, origin, t)
    ensures t.deal.before == origin && t.after.0 != origin.0 && t.after.1 != origin.1
  {
  }

  /** On a stage with a journal, an operation follows the walk its action intends. */
  lemma JournaledFollows(w: World, origin: Pair, stage: Stage, q: Request, look: Looks)
    requires w.Valid() && w.Roomy() && stage.Journaled? && Belongs(w, origin, stage)
    ensures Follows(Operate(w, Image(w, origin, stage), q, look), Intended(w, stage, q.action, stage.trade),
                    && q.expected.None? && Concerns(q, look, stage.trade.deal)
                    && Steady(look, stage.trade.deal.proof, 1)
                    && q.action != Install && (q.action == Cleanup ==> stage.phase == Restored),
                    Answer(stage.phase, q.action))
  {
    hide Admit, InstallPair, RestorePair, CleanUp, JournalText, Transition, World.Valid, World.Roomy;
    AdmitJournaled(w, origin, stage, q, look(0));
    var t := Ticket(stage.trade.deal, stage.trade.after, stage.phase,
                    Mix(origin, stage.trade.after, stage.manifestNew, stage.receiptNew));
    match q.action
    case Cleanup =>
      if stage.phase == Restored { CleanUpFollows(w, origin, stage, look); }
      else { NothingToDo(w, Image(w, origin, stage), t, q.expected, look); }
    case Install => NothingToDo(w, Image(w, origin, stage), t, q.expected, look);
    case _ => RestoreFollows(w, stage.trade, stage.phase, stage.manifestNew, stage.receiptNew, q.action, look);
  }

  lemma NothingToDo(w: World, s: Node, t: Ticket, expected: Option<Handoff>, look: Looks)
    requires t.phase != Fresh
    ensures t.phase != Restored ==> CleanUp(w, s, t, look).steps == [] && CleanUp(w, s, t, look).end.Fail?
    ensures var a := InstallPair(w, t, expected, look); a.steps == [] && (a.end.Ok? ==> a.end == Ok(Committed))
  {
  }

  lemma SealedFollows(w: World, origin: Pair, stage: Stage, q: Request, look: Looks)
    requires w.Valid() && w.Roomy() && stage.Sealed? && Belongs(w, origin, stage)
    ensures Follows(Operate(w, Image(w, origin, stage), q, look), Intended(w, stage, q.action, stage.trade),
                    && q.expected.None? && Concerns(q, look, stage.trade.deal)
                    && Steady(look, stage.trade.deal.proof, 1)
                    && q.action == Cleanup,
                    Restored)
  {
    hide Finish, JournalText, Wrapped;
    if q.action == Cleanup {
      FinishFollows(w, origin, stage, q.role, q.binary, look(0), look, 1);
    }
  }

  /** Whatever is asked, and whatever the witness shows, an operation walks along agreed stages. */
  lemma {:induction false} OperateFollows(w: World, origin: Pair, stage: Stage, q: Request,
                                          look: Looks) returns (walk: Walk<Move, Stage>)
    requires w.Valid() && w.Roomy() && Belongs(w, origin, stage)
    ensures Leads(Act, (s: Stage) => Image(w, origin, s), stage, walk)
    ensures forall i :: 0 <= i < |walk| ==> Belongs(w, origin, walk[i].1)
    ensures Operate(w, Image(w, origin, stage), q, look).steps <= Ops(walk)
  {
    hide Image, Agreed, Admit, InstallPair, RestorePair, CleanUp, Finish, Intended, Operate, Transition;
    match stage
    case Idle =>
      walk := IdleFollows(w, origin, q, look);
    case Journaled(_, _, _, t) =>
      JournaledFollows(w, origin, stage, q, look);
      walk := Intended(w, stage, q.action, t);
      IntendedLeads(w, origin, stage, q.action, t);
    case Sealed(_, t) =>
      SealedFollows(w, origin, stage, q, look);
      walk := Intended(w, stage, q.action, t);
      IntendedLeads(w, origin, stage, q.action, t);
  }

  lemma IdleFollows(w: World, origin: Pair, q: Request, look: Looks) returns (walk: Walk<Move, Stage>)
    requires w.Valid()
    ensures Leads(Act, (s: Stage) => Image(w, origin, s), Idle, walk)
    ensures forall i :: 0 <= i < |walk| ==> Belongs(w, origin, walk[i].1)
    ensures Operate(w, Image(w, origin, Idle), q, look).steps <= Ops(walk)
  {
    hide Admit, InstallPair, RestorePair, CleanUp, Intended, Transition;
    walk := [];
    if Precheck(Clean(origin), q, look).Ok? {
      AdmitIdle(w, origin, q, look(0));
      var admitted := Admit(w, Clean(origin), q, look(0));
      if admitted.Ok? {
        var t := admitted.value;
        InstallFollows(w, t, q.expected, look);
        walk := InstallWalk(w, Trade(t.deal, t.after));
        IntendedLeads(w, origin, Idle, Install, Trade(t.deal, t.after));
        assert Intended(w, Idle, Install, Trade(t.deal, t.after)) == walk
            by { InstallIntends(w, Trade(t.deal, t.after)); }
      }
    }
  }

  lemma InstallIntends(w: World, t: Trade)
    ensures Intended(w, Idle, Install, t) == InstallWalk(w, t)
  {
  }

  // ---------------------------------------------------------------- every run

  /** One operation, what its looks at the witness show, and how many durable steps it lasts. */
  datatype Event = Event(q: Request, look: Looks, fuse: nat)

  function Run(w: World, s: Node, events: seq<Event>): Node {
    if events == [] then s
    else
      var before, e := Run(w, s, events[..|events| - 1]), events[|events| - 1];
      Replay(Act, before, UpTo(Operate(w, before, e.q, e.look).steps, e.fuse))
  }

  lemma {:induction false} RunStays(w: World, origin: Pair, events: seq<Event>) returns (stage: Stage)
    requires w.Valid() && w.Roomy()
    ensures Belongs(w, origin, stage)
    ensures Run(w, Clean(origin), events) == Image(w, origin, stage)
  {
    hide Operate, Act, Leads, Belongs, Image;
    if events == [] {
      stage := Idle;
      assert Belongs(w, origin, Idle) && Image(w, origin, Idle) == Clean(origin) by { IdleBelongs(w, origin); }
    } else {
      var before := RunStays(w, origin, events[..|events| - 1]);
      var e := events[|events| - 1];
      var walk := OperateFollows(w, origin, before, e.q, e.look);
      var steps := UpTo(Operate(w, Image(w, origin, before), e.q, e.look).steps, e.fuse);
      var image := (s: Stage) => Image(w, origin, s);
      WalkReaches(Act, image, before, walk, |steps|);
      assert steps == Ops(walk)[..|steps|];
      stage := Where(before, walk, |steps|);
      assert image(stage) == Image(w, origin, stage) && image(before) == Image(w, origin, before);
    }
  }

  lemma IdleBelongs(w: World, origin: Pair)
    ensures Belongs(w, origin, Idle) && Image(w, origin, Idle) == Clean(origin)
  {
  }

  /** What holds of the files after a power loss at any point: the pair is one the recorded phase allows,
      and an old manifest never stands beside a new receipt. */
  ghost predicate Safe(w: World, origin: Pair, s: Node) {
    && s.manifest.Some? && s.receipt.Some?
    && var pair := (s.manifest.value, s.receipt.value);
    && (s.journal.None? || s.seal.Some? ==> pair == origin)
    && (s.journal.Some? ==>
          exists t: Trade, phase: Word ::
            && Agreed(w, origin, t) && IsPhase(phase)
            && s.journal == Some(JournalText(w, t.deal, phase))
            && pair in Allowed(phase, origin, t.after)
            && pair != (origin.0, t.after.1))
  }

  lemma {:induction false} EveryRunIsSafe(w: World, origin: Pair, events: seq<Event>)
    requires w.Valid() && w.Roomy()
    ensures Safe(w, origin, Run(w, Clean(origin), events))
  {
    hide Run, Transition, JournalText, Wrapped;
    var stage := RunStays(w, origin, events);
    match stage
    case Idle =>
    case Journaled(phase, _, _, t) =>
      assert Agreed(w, origin, t) && IsPhase(phase)
          && Image(w, origin, stage).journal == Some(JournalText(w, t.deal, phase));
    case Sealed(_, t) =>
      assert Agreed(w, origin, t) && IsPhase(Restored);
      assert Allowed(Restored, origin, t.after) == {origin};
  }

  /** A request that a run's own deal accepts. */
  function Asking(deal: Deal, action: Action): Request {
    Request(action, deal.role, deal.binary, None)
  }

  function Uncut(w: World, s: Node, q: Request, look: Looks): Node {
    Replay(Act, s, Operate(w, s, q, look).steps)
  }

  lemma RollbackRestores(w: World, origin: Pair, stage: Stage, look: Looks)
    requires w.Valid() && w.Roomy() && stage.Journaled? && Belongs(w, origin, stage)
    requires Steady(look, stage.trade.deal.proof, 0)
    ensures var s, q := Image(w, origin, stage), Asking(stage.trade.deal, Rollback);
            && Operate(w, s, q, look).end == Ok(Restored)
            && Uncut(w, s, q, look) == Image(w, origin, Journaled(Restored, false, false, stage.trade))
  {
    hide Operate, Act, Leads, Image, Transition;
    var q := Asking(stage.trade.deal, Rollback);
    JournaledFollows(w, origin, stage, q, look);
    IntendedLeads(w, origin, stage, Rollback, stage.trade);
    var walk, image := Intended(w, stage, Rollback, stage.trade), (s: Stage) => Image(w, origin, s);
    WalkReaches(Act, image, stage, walk, |walk|);
    assert Ops(walk)[..|walk|] == Ops(walk);
    assert image(stage) == Image(w, origin, stage);
    assert Where(stage, walk, |walk|) == Journaled(Restored, false, false, stage.trade) by {
      if stage.phase != Restored { assert walk == RestoreWalk(w, stage.trade, stage.manifestNew, stage.receiptNew); }
    }
  }

  lemma CleanupFinishes(w: World, origin: Pair, stage: Stage, look: Looks)
    requires w.Valid() && w.Roomy() && Belongs(w, origin, stage)
    requires stage.Sealed? || (stage.Journaled? && stage.phase == Restored)
    requires Steady(look, stage.trade.deal.proof, 0)
    ensures var s, q := Image(w, origin, stage), Asking(stage.trade.deal, Cleanup);
            && Operate(w, s, q, look).end == Ok(Restored)
            && Uncut(w, s, q, look) == Clean(origin)
  {
    hide Operate, Act, Leads, Image, Transition;
    var q := Asking(stage.trade.deal, Cleanup);
    if stage.Sealed? {
      SealedFollows(w, origin, stage, q, look);
    } else {
      JournaledFollows(w, origin, stage, q, look);
    }
    IntendedLeads(w, origin, stage, Cleanup, stage.trade);
    var walk, image := Intended(w, stage, Cleanup, stage.trade), (s: Stage) => Image(w, origin, s);
    WalkReaches(Act, image, stage, walk, |walk|);
    assert Ops(walk)[..|walk|] == Ops(walk);
    assert image(stage) == Image(w, origin, stage);
    assert Where(stage, walk, |walk|) == Idle;
    IdleBelongs(w, origin);
  }

  /** After every run that left a journal or a seal: with a steady witness, a rollback (unless there is already a
      seal) and then a cleanup both succeed, and the disk is exactly the one the run started from. */
  lemma {:induction false} EveryRunCanBeUndone(w: World, origin: Pair, events: seq<Event>) returns (deal: Deal)
    requires w.Valid() && w.Roomy()
    requires var s := Run(w, Clean(origin), events); s.journal.Some? || s.seal.Some?
    ensures var s := Run(w, Clean(origin), events);
            forall look :: Steady(look, deal.proof, 0) ==>
              && (s.seal.None? ==> Operate(w, s, Asking(deal, Rollback), look).end == Ok(Restored))
              && var back := if s.seal.Some? then s else Uncut(w, s, Asking(deal, Rollback), look);
              && (back.manifest, back.receipt) == (Some(origin.0), Some(origin.1))
              && Operate(w, back, Asking(deal, Cleanup), look).end == Ok(Restored)
              && Uncut(w, back, Asking(deal, Cleanup), look) == Clean(origin)
  {
    hide Run, Transition, JournalText, Wrapped, Operate, Act;
    var stage := RunStays(w, origin, events);
    deal := stage.trade.deal;
    var s := Image(w, origin, stage);
    forall look | Steady(look, deal.proof, 0)
      ensures s.seal.None? ==> Operate(w, s, Asking(deal, Rollback), look).end == Ok(Restored)
      ensures var back := if s.seal.Some? then s else Uncut(w, s, Asking(deal, Rollback), look);
              && (back.manifest, back.receipt) == (Some(origin.0), Some(origin.1))
              && Operate(w, back, Asking(deal, Cleanup), look).end == Ok(Restored)
              && Uncut(w, back, Asking(deal, Cleanup), look) == Clean(origin)
    {
      if stage.Sealed? {
        CleanupFinishes(w, origin, stage, look);
      } else {
        RollbackRestores(w, origin, stage, look);
        CleanupFinishes(w, origin, Journaled(Restored, false, false, stage.trade), look);
      }
    }
  }

  // ---------------------------------------------------------------- a handoff

  /** The node is what was handed over and can be changed: the same pair, no journal, no seal and no other recovery,
      and the witness of the handoff at the first two looks. */
  predicate HandedOver(w: World, s: Node, q: Request, look: Looks)
    requires q.expected.Some?
  {
    var pair, proof := q.expected.value.pair, q.expected.value.proof;
    && q.action == Install && IsRole(q.role) && IsSha(proof) && look(0) == proof && look(1) == proof
    && !s.conflict && s.journal.None? && s.seal.None? && Current(s) == Ok(pair)
    && Transition(w, pair.0, pair.1, q.binary, q.role).Ok?
  }

  /** With a handoff, any operation writes exactly if the node is what was handed over, and then a journal with the
      pair of the handoff first; and it succeeds exactly if the witness is that of the handoff at the three later
      looks, too. */
  lemma {:induction false} HandoffDecides(w: World, s: Node, q: Request, look: Looks)
    requires q.expected.Some?
    ensures var a, proof := Operate(w, s, q, look), q.expected.value.proof;
            && (a.steps != [] <==> HandedOver(w, s, q, look))
            && (a.steps != [] ==>
                  a.steps[0] == PutJournal(JournalText(w, Deal(q.expected.value.pair, q.role, q.binary, proof),
                      Prepared)))
            && (a.end.Ok? <==> HandedOver(w, s, q, look) && look(2) == proof && look(3) == proof && look(4) == proof)
  {
    hide Transition, CheckFinish, RestorePair, CleanUp, ReadJournal, Shift, JournalText;
    var proof := q.expected.value.proof;
    if HandedOver(w, s, q, look) {
      var deal := Deal(q.expected.value.pair, q.role, q.binary, proof);
      var after := Transition(w, deal.before.0, deal.before.1, q.binary, q.role).value;
      assert Admit(w, s, q, look(0)) == Ok(Ticket(deal, after, Fresh, deal.before));
      ShiftEnds(w, deal, deal.before, after, look);
    }
  }

  /** The loop over both files looks three times. */
  lemma ShiftEnds(w: World, deal: Deal, observed: Pair, to: Pair, look: Looks)
    ensures Shift(w, deal, observed, to, [ManifestHalf, ReceiptHalf], Committed, look, 2).end.Ok? <==>
            look(2) == deal.proof && look(3) == deal.proof && look(4) == deal.proof
  {
    var order := [ManifestHalf, ReceiptHalf];
    assert order[1..] == [ReceiptHalf] && order[1..][1..] == [];
  }
}
