/** Exactly when the paired operations succeed, on any disk at all, and what they leave; stated on the files alone. */
module PairOutcomes {
  import opened Durable
  import opened Host
  import opened PairPlanner
  import opened PairTransaction
  import opened PairGuarantees
  import opened PairRuns

  /** The host has no transaction of either kind, and a readable pair that the planner accepts. */
  predicate Applicable(w: World, s: Lab, sha: string, role: Word) {
    && !s.otherJournal && s.journal.None? && s.seal.None?
    && s.manifest.Some? && 0 < |s.manifest.value| <= 8192 && s.receipt.Some? && 0 < |s.receipt.value| <= 8192
    && Transition(w, s.manifest.value, s.receipt.value, sha, role).Ok?
  }

  /** The record of a change from one pair to another. */
  function Terms(w: World, before: (Bytes, Bytes), after: (Bytes, Bytes), role: Word): Fields {
    map[Schema := Int(1), Phase := Text(Prepared), Role := Text(role),
        ManifestBefore := Digest(w.sha(before.0)), FrpBefore := Digest(w.sha(before.1)),
        ManifestNext := Digest(w.sha(after.0)), FrpNext := Digest(w.sha(after.1))]
  }

  /** A journal of five parts. */
  function Journalled(before: (Bytes, Bytes), after: (Bytes, Bytes), raw: Bytes): map<Part, Bytes> {
    map[BeforeManifest := before.0, BeforeReceipt := before.1, NextManifest := after.0, NextReceipt := after.1,
        RecordFile := raw]
  }

  /** An application that is not cut succeeds exactly on such a host, whatever the role; then the next pair is on disk
      under a journal of exactly the old and the new bytes.  Otherwise nothing is written. */
  lemma {:induction false} ApplyAppliesExactlyWhen(w: World, s: Lab, sha: string, role: Word)
    ensures Apply(w, s, sha, role).end.Ok? <==> Applicable(w, s, sha, role)
    ensures Apply(w, s, sha, role).end.Fail? ==> Apply(w, s, sha, role).steps == []
    ensures Applicable(w, s, sha, role) ==>
              var before := (s.manifest.value, s.receipt.value);
              var after := Transition(w, before.0, before.1, sha, role).value;
              && |Apply(w, s, sha, role).steps| == 8
              && Replay(Act, s, Apply(w, s, sha, role).steps) ==
                 s.(manifest := Some(after.0), receipt := Some(after.1),
                    journal := Some(Journalled(before, after, w.Line(Obj(Terms(w, before, after, role))))))
  {
    hide Transition, ApplySteps, Act, Replay;
    if Prepare(w, s, sha, role).Ok? {
      var tx := Prepare(w, s, sha, role).value;
      ApplyReaches(w, tx.m0, tx.r0, tx, 8);
      assert ApplySteps(w, tx)[..8] == ApplySteps(w, tx);
      AppliedIs(w, tx);
      assert s == Clean(tx.m0, tx.r0);
    }
  }

  lemma AppliedIs(w: World, tx: Tx)
    ensures Image(w, tx.m0, tx.r0, Idle) == Clean(tx.m0, tx.r0)
    ensures Image(w, tx.m0, tx.r0, ApplyStage(8, tx)) ==
            Clean(tx.m0, tx.r0).(manifest := Some(tx.m1), receipt := Some(tx.r1),
              journal := Some(Journalled((tx.m0, tx.r0), (tx.m1, tx.r1),
                                         w.Line(Obj(Terms(w, (tx.m0, tx.r0), (tx.m1, tx.r1), tx.role))))))
  {
    assert Kept(w, tx, 0, 5) == FullJournal(tx, RecordBytes(w, tx));
  }

  /** A complete journal explains the pair on disk: its record names the hashes of its parts, they are the one permitted
      change, and each file is its old or its new version. */
  ghost predicate Explains(w: World, s: Lab, before: (Bytes, Bytes), after: (Bytes, Bytes), raw: Bytes, sha: string,
      role: Word) {
    && s.journal == Some(Journalled(before, after, raw))
    && 0 < |raw| <= 4096 && LoadJson(w, raw) == Ok(Terms(w, before, after, role))
    && 0 < |before.0| <= 8192 && 0 < |before.1| <= 8192
    && Transition(w, before.0, before.1, sha, role) == Ok(after)
    && s.manifest in {Some(before.0), Some(after.0)} && s.receipt in {Some(before.1), Some(after.1)}
  }

  /** A seal vouches for the pair on disk, and what is left of the journal is what the seal says. */
  ghost predicate Vouches(w: World, s: Lab, before: (Bytes, Bytes), after: (Bytes, Bytes), record: string,
      sha: string, role: Word) {
    && s.manifest == Some(before.0) && s.receipt == Some(before.1)
    && 0 < |before.0| <= 8192 && 0 < |before.1| <= 8192
    && Transition(w, before.0, before.1, sha, role) == Ok(after)
    && IsSha(record) && s.seal.Some? && 0 < |s.seal.value| <= 4096
    && LoadJson(w, s.seal.value) ==
       Ok(Terms(w, before, after, role) +
          map[Phase := Text(Restored), BackhaulSha256 := Digest(sha), JournalRecord := Digest(record)])
    && (s.journal.Some? ==> forall part :: part in s.journal.value ==>
          if part == RecordFile then 0 < |s.journal.value[part]| <= 8192 && w.sha(s.journal.value[part]) == record
          else part in Journalled(before, after, []) && s.journal.value[part] == Journalled(before, after, [])[part])
  }

  lemma ExaminedExplains(w: World, s: Lab)
    requires w.Valid() && Examine(w, s).Ok?
    ensures exists before, after, raw, sha, role :: Explains(w, s, before, after, raw, sha, role)
  {
    hide Transition, ProposedSha, ReadPieces, RecordTrusted;
    var e := Examine(w, s).value;
    assert ReadRecord(w, s.journal.value) == Ok((e.record, e.raw));
    ExaminedFacts(w, s, e);
    assert Explains(w, s, (e.tx.m0, e.tx.r0), (e.tx.m1, e.tx.r1), e.raw, e.tx.sha, e.tx.role) by {
      ExaminedSizes(w, s, e);
    }
  }

  lemma ExaminedSizes(w: World, s: Lab, e: Evidence)
    requires w.Valid() && Examine(w, s) == Ok(e)
    ensures Readable(e.tx.m0) && |e.raw| <= 4096 && LoadJson(w, e.raw) == Ok(e.record)
  {
    hide Readable, Planned, Examine, ReadRecord, LoadJson, World.Valid, FullJournal;
    ExaminedFacts(w, s, e);
    PlannedFacts(w, e.tx);
    ExaminedRecord(w, s, e);
    RecordReadAs(w, s.journal.value, e.record, e.raw);
  }

  lemma ExaminedRecord(w: World, s: Lab, e: Evidence)
    requires Examine(w, s) == Ok(e)
    ensures s.journal.Some? && ReadRecord(w, s.journal.value) == Ok((e.record, e.raw))
  {
    hide ReadRecord, ReadPieces, RecordTrusted;
  }

  lemma RecordReadAs(w: World, journal: map<Part, Bytes>, record: Fields, raw: Bytes)
    requires ReadRecord(w, journal) == Ok((record, raw))
    ensures |raw| <= 4096 && LoadJson(w, raw) == Ok(record)
  {
    hide LoadJson, RecordTrusted;
  }


  lemma ExplainedIsExamined(w: World, s: Lab, before: (Bytes, Bytes), after: (Bytes, Bytes), raw: Bytes, sha: string,
      role: Word)
    requires w.Valid() && Explains(w, s, before, after, raw, sha, role)
    ensures Examine(w, s).Ok?
  {
    hide Transition, RecordTrusted, ReadPieces, World.Valid, LoadJson;
    var tx := Tx(before.0, before.1, after.0, after.1, sha, role);
    PlannedFacts(w, tx);
    RecordIsTrusted(w, tx);
    assert Terms(w, before, after, role) == RecordDoc(w, tx);
    PiecesOf(w, s.journal.value, tx, raw);
  }

  lemma PiecesOf(w: World, journal: map<Part, Bytes>, tx: Tx, raw: Bytes)
    requires w.Valid() && Planned(w, tx) && Readable(tx.r0)
    requires journal == Journalled((tx.m0, tx.r0), (tx.m1, tx.r1), raw)
    ensures RecordTrusted(RecordDoc(w, tx)) && ReadPieces(w, journal, RecordDoc(w, tx)) == Ok(tx)
  {
    hide Transition, RecordTrusted, ProposedSha, World.Valid;
    PlannedFacts(w, tx);
    RecordIsTrusted(w, tx);
  }

  lemma SealedVouches(w: World, s: Lab)
    requires w.Valid() && CheckCleanup(w, s).Ok?
    ensures exists before, after, record, sha, role :: Vouches(w, s, before, after, record, sha, role)
  {
    hide Transition, ReadSeal, LoadJson, World.Valid, SealTrusted, Terms, RemnantTrusted, Journalled;
    var (tx, doc) := ReadSeal(w, s).value;
    var record := SealFacts(w, s, tx, doc);
    RemnantsAre(w, s, tx, doc, record);
    assert Vouches(w, s, (tx.m0, tx.r0), (tx.m1, tx.r1), record, tx.sha, tx.role);
  }

  lemma RemnantsAre(w: World, s: Lab, tx: Tx, doc: Fields, record: string)
    requires CheckCleanup(w, s).Ok? && ReadSeal(w, s) == Ok((tx, doc))
    requires SealTrusted(doc) && doc[JournalRecord] == Digest(record)
    ensures var kept := Journalled((tx.m0, tx.r0), (tx.m1, tx.r1), []);
            s.journal.Some? ==> forall part :: part in s.journal.value ==>
              if part == RecordFile then 0 < |s.journal.value[part]| <= 8192 && w.sha(s.journal.value[part]) == record
              else part in kept && s.journal.value[part] == kept[part]
  {
    hide ReadSeal, SealTrusted, RemnantTrusted, Journalled;
    if s.journal.Some? {
      forall part | part in s.journal.value
        ensures var kept := Journalled((tx.m0, tx.r0), (tx.m1, tx.r1), []);
                if part == RecordFile then 0 < |s.journal.value[part]| <= 8192 && w.sha(s.journal.value[part]) == record
                else part in kept && s.journal.value[part] == kept[part]
      {
        assert !part.Stray? && RemnantTrusted(w, tx, doc, part, s.journal.value[part]);
        RemnantIs(w, tx, doc, record, part, s.journal.value[part]);
      }
    }
  }


  lemma RemnantIs(w: World, tx: Tx, doc: Fields, record: string, part: Part, data: Bytes)
    requires SealTrusted(doc) && doc[JournalRecord] == Digest(record)
    requires RemnantTrusted(w, tx, doc, part, data)
    ensures if part == RecordFile then 0 < |data| <= 8192 && w.sha(data) == record
            else part in Journalled((tx.m0, tx.r0), (tx.m1, tx.r1), [])
                 && data == Journalled((tx.m0, tx.r0), (tx.m1, tx.r1), [])[part]
  {
    hide SealTrusted;
  }

  lemma SealFacts(w: World, s: Lab, tx: Tx, doc: Fields) returns (record: string)
    requires ReadSeal(w, s) == Ok((tx, doc))
    ensures SealTrusted(doc) && doc[JournalRecord] == Digest(record) && IsSha(record)
    ensures s.manifest == Some(tx.m0) && s.receipt == Some(tx.r0) && Readable(tx.m0) && Readable(tx.r0)
    ensures Transition(w, tx.m0, tx.r0, tx.sha, tx.role) == Ok((tx.m1, tx.r1))
    ensures s.seal.Some? && 0 < |s.seal.value| <= 4096 && LoadJson(w, s.seal.value) == Ok(doc)
    ensures doc == Terms(w, (tx.m0, tx.r0), (tx.m1, tx.r1), tx.role) +
                   map[Phase := Text(Restored), BackhaulSha256 := Digest(tx.sha), JournalRecord := Digest(record)]
  {
    hide Transition, LoadJson;
    record := doc[JournalRecord].word.text;
  }

  lemma VouchedIsSealed(w: World, s: Lab, before: (Bytes, Bytes), after: (Bytes, Bytes), record: string, sha: string,
      role: Word)
    requires w.Valid() && Vouches(w, s, before, after, record, sha, role)
    ensures CheckCleanup(w, s).Ok?
  {
    hide Transition, RemnantTrusted, World.Valid, ReadSeal;
    var tx := Tx(before.0, before.1, after.0, after.1, sha, role);
    var doc := Terms(w, before, after, role) +
               map[Phase := Text(Restored), BackhaulSha256 := Digest(sha), JournalRecord := Digest(record)];
    PlannedFacts(w, tx);
    TermsTrusted(w, before, after, record, sha, role);
    ReadsSeal(w, s, tx, doc, record);
    if s.journal.Some? {
      forall part | part in s.journal.value
          ensures !part.Stray? && RemnantTrusted(w, tx, doc, part, s.journal.value[part]) {
        RemnantFits(w, tx, doc, record, part, s.journal.value[part]);
      }
    }
  }

  lemma TermsTrusted(w: World, before: (Bytes, Bytes), after: (Bytes, Bytes), record: string, sha: string, role: Word)
    requires w.Valid() && IsSha(record) && IsSha(sha) && IsRole(role)
    ensures SealTrusted(Terms(w, before, after, role) +
              map[Phase := Text(Restored), BackhaulSha256 := Digest(sha), JournalRecord := Digest(record)])
  {
    w.HashIsSha(before.0);
    w.HashIsSha(before.1);
    w.HashIsSha(after.0);
    w.HashIsSha(after.1);
    hide World.Valid, IsSha;
  }

  lemma ReadsSeal(w: World, s: Lab, tx: Tx, doc: Fields, record: string)
    requires s.manifest == Some(tx.m0) && s.receipt == Some(tx.r0) && Readable(tx.m0) && Readable(tx.r0)
    requires Transition(w, tx.m0, tx.r0, tx.sha, tx.role) == Ok((tx.m1, tx.r1))
    requires s.seal.Some? && 0 < |s.seal.value| <= 4096 && LoadJson(w, s.seal.value) == Ok(doc) && SealTrusted(doc)
    requires doc == Terms(w, (tx.m0, tx.r0), (tx.m1, tx.r1), tx.role) +
                    map[Phase := Text(Restored), BackhaulSha256 := Digest(tx.sha), JournalRecord := Digest(record)]
    ensures ReadSeal(w, s) == Ok((tx, doc))
  {
    hide Transition, LoadJson, SealTrusted;
    SealedMembers(w, tx, doc, record);
    hide Terms;
  }

  lemma SealedMembers(w: World, tx: Tx, doc: Fields, record: string)
    requires doc == Terms(w, (tx.m0, tx.r0), (tx.m1, tx.r1), tx.role) +
                    map[Phase := Text(Restored), BackhaulSha256 := Digest(tx.sha), JournalRecord := Digest(record)]
    ensures {ManifestBefore, FrpBefore, ManifestNext, FrpNext, BackhaulSha256, Role} <= doc.Keys
    ensures doc[ManifestBefore] == Digest(w.sha(tx.m0)) && doc[FrpBefore] == Digest(w.sha(tx.r0))
    ensures doc[ManifestNext] == Digest(w.sha(tx.m1)) && doc[FrpNext] == Digest(w.sha(tx.r1))
    ensures doc[BackhaulSha256] == Digest(tx.sha) && doc[Role] == Text(tx.role)
  {
    var terms := Terms(w, (tx.m0, tx.r0), (tx.m1, tx.r1), tx.role);
    TermsHave(w, (tx.m0, tx.r0), (tx.m1, tx.r1), tx.role);
    hide Terms;
    assert doc.Keys == terms.Keys + {Phase, BackhaulSha256, JournalRecord};
  }

  lemma TermsHave(w: World, before: (Bytes, Bytes), after: (Bytes, Bytes), role: Word)
    ensures var terms := Terms(w, before, after, role);
            && terms.Keys == {Schema, Phase, Role, ManifestBefore, FrpBefore, ManifestNext, FrpNext}
            && terms[ManifestBefore] == Digest(w.sha(before.0)) && terms[FrpBefore] == Digest(w.sha(before.1))
            && terms[ManifestNext] == Digest(w.sha(after.0)) && terms[FrpNext] == Digest(w.sha(after.1))
            && terms[Role] == Text(role)
  {
  }

  lemma RemnantFits(w: World, tx: Tx, doc: Fields, record: string, part: Part, data: Bytes)
    requires SealTrusted(doc)
    requires doc == Terms(w, (tx.m0, tx.r0), (tx.m1, tx.r1), tx.role) +
                    map[Phase := Text(Restored), BackhaulSha256 := Digest(tx.sha), JournalRecord := Digest(record)]
    requires Readable(tx.m0) && Readable(tx.m1) && Readable(tx.r0) && Readable(tx.r1)
    requires if part == RecordFile then 0 < |data| <= 8192 && w.sha(data) == record
             else part in Journalled((tx.m0, tx.r0), (tx.m1, tx.r1), [])
                  && data == Journalled((tx.m0, tx.r0), (tx.m1, tx.r1), [])[part]
    ensures !part.Stray? && RemnantTrusted(w, tx, doc, part, data)
  {
    hide SealTrusted;
  }

  /** On any disk at all, a recovery that is not cut returns exactly if no other journal is there and either a seal
      vouches for the pair and for every remnant, or, without a seal, a complete journal explains the pair.  So it
      never touches a file that is neither the old nor the new version, and never deletes a part that it does not
      know. */
  lemma {:induction false} RecoverReturnsExactlyWhen(w: World, s: Lab)
    requires w.Valid()
    ensures Recover(w, s).end.Ok? <==>
            && !s.otherJournal
            && if s.seal.Some? then
                 exists before, after, record, sha, role :: Vouches(w, s, before, after, record, sha, role)
               else exists before, after, raw, sha, role :: Explains(w, s, before, after, raw, sha, role)
    ensures Recover(w, s).end.Fail? ==> Recover(w, s).steps == []
  {
    hide Examine, CheckCleanup, Explains, Vouches, RestoreSteps, Erasure, World.Valid;
    if !s.otherJournal && s.seal.Some? {
      if CheckCleanup(w, s).Ok? {
        SealedVouches(w, s);
      }
      forall before, after, record, sha, role | Vouches(w, s, before, after, record, sha, role)
          ensures CheckCleanup(w, s).Ok? {
        VouchedIsSealed(w, s, before, after, record, sha, role);
      }
    } else if !s.otherJournal {
      if Examine(w, s).Ok? {
        ExaminedExplains(w, s);
        RecoverErases(w, s, Examine(w, s).value);
      }
      forall before, after, raw, sha, role | Explains(w, s, before, after, raw, sha, role) ensures Examine(w, s).Ok? {
        ExplainedIsExamined(w, s, before, after, raw, sha, role);
      }
    }
  }

  /** What it leaves: the old pair that the journal or the seal names, and neither journal nor seal. */
  lemma {:induction false} RecoveryRestores(w: World, s: Lab, before: (Bytes, Bytes), after: (Bytes, Bytes),
      text: Bytes,
                                            sha: string, role: Word)
    requires w.Valid() && !s.otherJournal && s.seal.None? && Explains(w, s, before, after, text, sha, role)
    ensures Recover(w, s).end.Ok?
    ensures Replay(Act, s, Recover(w, s).steps) == Lab(Some(before.0), Some(before.1), None, None, false)
  {
    hide Transition, CheckCleanup, RestoreSteps, Erasure, World.Valid, RecordTrusted;
    ExplainedIsExamined(w, s, before, after, text, sha, role);
    var e := Examine(w, s).value;
    ExaminedFacts(w, s, e);
    assert s.journal.value[BeforeManifest] == before.0 && s.journal.value[BeforeReceipt] == before.1;
    hide Examine, Explains;
    RecoverErases(w, s, e);
  }
}
