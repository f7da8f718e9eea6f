/** What every run of the paired transaction guarantees, wherever the power fails. */
module PairGuarantees {
  import opened Durable
  import opened Host
  import opened PairPlanner
  import opened PairTransaction

  // ---------------------------------------------------------------- arbitrary disks

  lemma RecordIsCanonical(w: World, journal: map<Part, Bytes>, record: Fields, tx: Tx)
    requires RecordTrusted(record) && ReadPieces(w, journal, record) == Ok(tx)
    ensures record == RecordDoc(w, tx)
  {
  }

  lemma RecordIsTrusted(w: World, tx: Tx)
    requires w.Valid() && IsRole(tx.role)
    ensures RecordTrusted(RecordDoc(w, tx))
  {
  }

  lemma SealFromRecord(w: World, record: Fields, raw: Bytes, sha: string)
    requires RecordTrusted(record) && IsSha(sha) && IsSha(w.sha(raw))
    ensures SealTrusted(SealDoc(w, record, raw, sha))
  {
  }

  lemma SmallDocs(w: World, doc: Fields)
    requires w.Valid() && (RecordTrusted(doc) || SealTrusted(doc))
    ensures ReadPrivate(Some(w.Line(Obj(doc))), 4096) == Ok(w.Line(Obj(doc)))
    ensures LoadJson(w, w.Line(Obj(doc))) == Ok(doc)
  {
    assert Flat(doc);
    FlatIsCanonical(doc);
    hide Canonical;
    LineParses(w, doc);
  }

  predicate Readable(data: Bytes) {
    0 < |data| <= 8192
  }

  lemma PlannedFacts(w: World, tx: Tx)
    requires w.Valid() && Planned(w, tx)
    ensures IsSha(tx.sha) && IsRole(tx.role)
    ensures Readable(tx.m0) && Readable(tx.m1) && Readable(tx.r1)
    ensures tx.m1 != tx.m0 && tx.r1 != tx.r0
    ensures ProposedSha(w, tx.m1) == Ok(tx.sha)
  {
    var engines, doc := TransitionKeepsBinding(w, tx.m0, tx.r0, tx.sha, tx.role, (tx.m1, tx.r1));
    hide World.Valid, Transition, ReceiptTrusted;
    ProposedIs(w, tx.m1, WithBackhaul(engines, tx.sha), tx.sha);
  }

  /** The manifest of a parsed snapshot with Backhaul proposes its hash. */
  lemma ProposedIs(w: World, manifest: Bytes, engines: Fields, sha: string)
    requires ParseManifest(w, manifest) == Ok(engines) && IsSha(sha)
    requires Backhaul in engines && engines[Backhaul] == BackhaulEntry(sha)
    ensures ProposedSha(w, manifest) == Ok(sha) && Readable(manifest)
  {
    hide EnginesTrusted;
  }

  function FullJournal(tx: Tx, raw: Bytes): map<Part, Bytes> {
    map[BeforeManifest := tx.m0, BeforeReceipt := tx.r0, NextManifest := tx.m1, NextReceipt := tx.r1, RecordFile := raw]
  }

  /** A disk sealed for `tx`, with any part of the journal left. */
  ghost predicate SealedFor(w: World, s: Lab, tx: Tx, raw: Bytes) {
    && s.manifest == Some(tx.m0) && s.receipt == Some(tx.r0)
    && s.seal == Some(w.Line(Obj(SealDoc(w, RecordDoc(w, tx), raw, tx.sha))))
    && (s.journal.Some? ==> forall part :: part in s.journal.value ==>
          part in FullJournal(tx, raw) && s.journal.value[part] == FullJournal(tx, raw)[part])
  }

  lemma SealReads(w: World, s: Lab, tx: Tx, raw: Bytes)
    requires w.Valid() && Planned(w, tx) && IsSha(tx.sha) && IsRole(tx.role)
    requires Readable(tx.m0) && Readable(tx.r0) && SealedFor(w, s, tx, raw)
    ensures ReadSeal(w, s) == Ok((tx, SealDoc(w, RecordDoc(w, tx), raw, tx.sha)))
    ensures SealTrusted(SealDoc(w, RecordDoc(w, tx), raw, tx.sha))
  {
    assert IsSha(w.sha(raw)) by { w.HashIsSha(raw); }
    assert RecordTrusted(RecordDoc(w, tx)) by { RecordIsTrusted(w, tx); }
    hide Transition, World.Valid, SealDoc, SealTrusted, RecordTrusted, IsSha, LoadJson;
    SealFromRecord(w, RecordDoc(w, tx), raw, tx.sha);
    SmallDocs(w, SealDoc(w, RecordDoc(w, tx), raw, tx.sha));
    SealNames(w, tx, raw);
  }

  /** What the cleanup looks up in a seal. */
  lemma SealNames(w: World, tx: Tx, raw: Bytes)
    ensures var doc := SealDoc(w, RecordDoc(w, tx), raw, tx.sha);
            && {ManifestBefore, FrpBefore, ManifestNext, FrpNext, BackhaulSha256, Role} <= doc.Keys
            && doc[ManifestBefore] == Digest(w.sha(tx.m0)) && doc[FrpBefore] == Digest(w.sha(tx.r0))
            && doc[ManifestNext] == Digest(w.sha(tx.m1)) && doc[FrpNext] == Digest(w.sha(tx.r1))
            && doc[BackhaulSha256] == Digest(tx.sha) && doc[Role] == Text(tx.role)
  {
  }

  lemma RemnantsMatch(w: World, tx: Tx, raw: Bytes, doc: Fields)
    requires doc == SealDoc(w, RecordDoc(w, tx), raw, tx.sha) && SealTrusted(doc)
    requires Readable(tx.m0) && Readable(tx.m1) && Readable(tx.r0) && Readable(tx.r1) && Readable(raw)
    ensures RemnantTrusted(w, tx, doc, BeforeManifest, tx.m0) && RemnantTrusted(w, tx, doc, BeforeReceipt, tx.r0)
    ensures RemnantTrusted(w, tx, doc, NextManifest, tx.m1) && RemnantTrusted(w, tx, doc, NextReceipt, tx.r1)
    ensures RemnantTrusted(w, tx, doc, RecordFile, raw)
  {
  }

  /** Cleanup never refuses a disk that was sealed for a planned change, however far it was cleaned. */
  lemma {:induction false} SealedCleans(w: World, s: Lab, tx: Tx, raw: Bytes)
    requires w.Valid() && Planned(w, tx) && Readable(tx.r0) && Readable(raw)
    requires SealedFor(w, s, tx, raw)
    ensures CheckCleanup(w, s) == Ok(tx)
  {
    hide Transition, ReadSeal, RemnantTrusted, SealTrusted, SealDoc;
    PlannedFacts(w, tx);
    SealReads(w, s, tx, raw);
    RemnantsMatch(w, tx, raw, SealDoc(w, RecordDoc(w, tx), raw, tx.sha));
    if s.journal.Some? {
      forall part | part in s.journal.value
        ensures !part.Stray? && RemnantTrusted(w, tx, SealDoc(w, RecordDoc(w, tx), raw, tx.sha), part,
                s.journal.value[part])
      {
        assert part in FullJournal(tx, raw);
      }
    }
  }

  lemma ExaminedFacts(w: World, s: Lab, e: Evidence)
    requires Examine(w, s) == Ok(e)
    ensures Planned(w, e.tx) && Readable(e.tx.r0) && Readable(e.raw)
    ensures e.record == RecordDoc(w, e.tx)
    ensures s.journal == Some(FullJournal(e.tx, e.raw))
    ensures s.manifest == Some(e.tx.m0) || s.manifest == Some(e.tx.m1)
    ensures s.receipt == Some(e.tx.r0) || s.receipt == Some(e.tx.r1)
  {
    hide Transition, ProposedSha;
    RecordIsCanonical(w, s.journal.value, e.record, e.tx);
    assert s.journal.value == FullJournal(e.tx, e.raw);
  }

  lemma RestoreReaches(w: World, s: Lab, e: Evidence)
    ensures Replay(Act, s, RestoreSteps(w, s, e)) ==
            s.(manifest := Some(e.tx.m0), receipt := Some(e.tx.r0), seal := Some(SealBytes(w, e)))
  {
    var manifest := if s.manifest != Some(e.tx.m0) then [PutManifest(e.tx.m0)] else [];
    var receipt := if s.receipt != Some(e.tx.r0) then [PutReceipt(e.tx.r0)] else [];
    ReplayJoin(Act, s, manifest + receipt, [AddSeal(SealBytes(w, e))]);
    ReplayJoin(Act, s, manifest, receipt);
  }

  function Without(s: Lab, order: seq<Part>): Lab {
    if s.journal.Some? then s.(journal := Some(s.journal.value - set part | part in order)) else s
  }

  lemma WithoutFirst(s: Lab, order: seq<Part>)
    requires order != []
    ensures Without(Act(s, DropPart(order[0])), order[1..]) == Without(s, order)
    ensures s.journal.Some? && order[0] !in s.journal.value ==> Act(s, DropPart(order[0])) == s
  {
    if s.journal.Some? {
      var journal := s.journal.value;
      assert journal - {order[0]} - (set part | part in order[1..]) == journal - set part | part in order;
      assert order[0] !in journal ==> journal - {order[0]} == journal;
    }
  }

  lemma {:induction false} Dropped(s: Lab, order: seq<Part>, recorded: map<Part, Bytes>)
    requires s.journal.Some? && s.journal.value.Keys <= recorded.Keys
    ensures Replay(Act, s, Drops(order, recorded)) == Without(s, order)
    decreases order
  {
    if order == [] {
      assert s.journal.value - (set part | part in order) == s.journal.value;
    } else {
      WithoutFirst(s, order);
      Dropped(Act(s, DropPart(order[0])), order[1..], recorded);
      if order[0] in recorded {
        ReplayFirst(Act, s, Drops(order, recorded));
        assert Drops(order, recorded)[1..] == Drops(order[1..], recorded);
      } else {
        assert Drops(order, recorded) == Drops(order[1..], recorded);
      }
    }
  }

  lemma Erased(s: Lab)
    requires s.journal.Some? ==> forall part :: part in s.journal.value ==> !part.Stray?
    ensures Replay(Act, s, Erasure(s)) == s.(journal := None, seal := None)
  {
    hide Replay, Drops, Act, Without;
    if s.journal.Some? {
      var drops := Drops(PARTS, s.journal.value);
      assert Erasure(s) == drops + [RemoveJournal, DropSeal];
      ReplayJoin(Act, s, drops, [RemoveJournal, DropSeal]);
      Dropped(s, PARTS, s.journal.value);
      var empty := s.(journal := Some(map[]));
      NothingLeft(s);
      LastTwo(empty);
      RemovedBoth(empty);
    } else {
      assert Erasure(s) == [DropSeal];
      ReplayOne(Act, s, DropSeal);
      RemovedBoth(s);
    }
  }

  lemma NothingLeft(s: Lab)
    requires s.journal.Some? && forall part :: part in s.journal.value ==> !part.Stray?
    ensures Without(s, PARTS) == s.(journal := Some(map[]))
  {
    assert forall part: Part :: !part.Stray? ==> part in PARTS;
    assert s.journal.value - (set part | part in PARTS) == map[];
  }

  lemma RemovedBoth(s: Lab)
    ensures Act(Act(s, RemoveJournal), DropSeal) == s.(journal := None, seal := None)
    ensures Act(s, DropSeal) == s.(seal := None)
  {
  }

  lemma LastTwo(s: Lab)
    ensures Replay(Act, s, [RemoveJournal, DropSeal]) == Act(Act(s, RemoveJournal), DropSeal)
  {
    ReplayNext(Act, s, [RemoveJournal, DropSeal], 0);
    ReplayNext(Act, s, [RemoveJournal, DropSeal], 1);
    assert [RemoveJournal, DropSeal][..2] == [RemoveJournal, DropSeal];
    assert [RemoveJournal, DropSeal][..0] == [];
  }

  /** On any disk at all, a recovery that refuses has written nothing. */
  lemma {:induction false} RefusalWritesNothing(w: World, s: Lab)
    requires w.Valid() && Recover(w, s).end.Fail?
    ensures Recover(w, s).steps == []
  {
    if !s.otherJournal && s.seal.None? && Examine(w, s).Ok? {
      var e := Examine(w, s).value;
      ExaminedThenCleans(w, s, e);
    }
  }

  lemma ExaminedThenCleans(w: World, s: Lab, e: Evidence)
    requires w.Valid() && Examine(w, s) == Ok(e)
    ensures CheckCleanup(w, Replay(Act, s, RestoreSteps(w, s, e))) == Ok(e.tx)
  {
    hide Examine, CheckCleanup, Transition;
    ExaminedFacts(w, s, e);
    RestoreReaches(w, s, e);
    SealedCleans(w, Replay(Act, s, RestoreSteps(w, s, e)), e.tx, e.raw);
  }

  lemma CleanupErases(w: World, s: Lab)
    requires CheckCleanup(w, s).Ok?
    ensures Cleanup(w, s) == Attempt(Erasure(s), Ok(ExactBytesRestored))
    ensures Replay(Act, s, Erasure(s)) == s.(journal := None, seal := None)
  {
    hide ReadSeal, Erasure, RemnantTrusted;
    Erased(s);
  }

  lemma RecoverErases(w: World, s: Lab, e: Evidence)
    requires w.Valid() && !s.otherJournal && s.seal.None? && Examine(w, s) == Ok(e)
    ensures Recover(w, s).end.Ok?
    ensures Replay(Act, s, Recover(w, s).steps) ==
            s.(manifest := Some(e.tx.m0), receipt := Some(e.tx.r0), journal := None, seal := None)
  {
    hide Examine, CheckCleanup, Cleanup, RestoreSteps, Erasure;
    var sealed := Replay(Act, s, RestoreSteps(w, s, e));
    ExaminedThenCleans(w, s, e);
    CleanupErases(w, sealed);
    RestoreReaches(w, s, e);
    ReplayJoin(Act, s, RestoreSteps(w, s, e), Erasure(sealed));
  }

  /** On any disk at all, a recovery that returns leaves the journalled originals, or the pair it
      found under a seal, and neither journal nor seal. */
  lemma {:induction false} RecoveryIsExact(w: World, s: Lab)
    requires w.Valid() && Recover(w, s).end.Ok?
    ensures var after := Replay(Act, s, Recover(w, s).steps);
            && after.journal.None? && after.seal.None?
            && if s.seal.Some? then
                 after.manifest == s.manifest && after.receipt == s.receipt
               else
                 && Examine(w, s).Ok?
                 && after.manifest == Some(Examine(w, s).value.tx.m0)
                 && after.receipt == Some(Examine(w, s).value.tx.r0)
  {
    hide Examine, CheckCleanup, RestoreSteps, Erasure;
    if s.seal.Some? {
      CleanupErases(w, s);
    } else {
      RecoverErases(w, s, Examine(w, s).value);
    }
  }
}
