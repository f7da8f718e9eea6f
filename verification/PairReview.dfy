/** The read-only review of a committed retained transaction: does the journal explain the pair on disk? */
module PairReview {
  import opened Durable
  import opened Host
  import opened PairPlanner
  import opened Retained
  import opened RetainedRuns

  predicate CommitTrusted(record: Fields, role: Word, binary: string) {
    && record.Keys == {Schema, Role, Binary, Witness, Manifest, Receipt, Phase}
    && record[Schema] == Int(1) && record[Role] == Text(role) && record[Binary] == Digest(binary)
    && record[Phase] == Text(Committed) && IsShaText(record[Witness])
    && HexSnapshot(record[Manifest]) && HexSnapshot(record[Receipt])
  }

  function Snapshots(record: Fields): Pair
    requires {Manifest, Receipt} <= record.Keys && HexSnapshot(record[Manifest]) && HexSnapshot(record[Receipt])
  {
    (Unhex(record[Manifest].word.text), Unhex(record[Receipt].word.text))
  }

  function Review(w: World, current: Pair, journal: Bytes, binary: string, role: Word): Result<()> {
    match Unwrap(w, journal, RetainedCommitUntrusted)
    case Fail(_) => Fail(Hold(RetainedCommitUntrusted))
    case Ok(record) =>
      if !CommitTrusted(record, role, binary) then Fail(Hold(RetainedCommitUntrusted))
      else if !Readable(Snapshots(record)) then Fail(Hold(RetainedCommitUntrusted))
      else match Transition(w, Snapshots(record).0, Snapshots(record).1, binary, role)
        case Fail(_) => Fail(Hold(RetainedCommitUntrusted))
        case Ok(after) => if current == after then Ok(()) else Fail(Hold(RetainedCommittedPairDrift))
  }

  lemma DigitBack(c: char)
    requires IsHexDigit(c)
    ensures HexDigit(DigitValue(c)) == c
  {
  }

  lemma {:induction false} UnhexRoundTrip(text: string)
    requires IsHex(text) && |text| % 2 == 0
    ensures Hex(Unhex(text)) == text && 2 * |Unhex(text)| == |text|
    decreases |text|
  {
    if text != [] {
      hide Hex, HexDigit, DigitValue, IsHexDigit;
      UnhexRoundTrip(text[2..]);
      DigitBack(text[0]);
      DigitBack(text[1]);
      UnhexUnfolds(text);
      HexUnfolds(DigitValue(text[0]), DigitValue(text[1]), Unhex(text[2..]));
      assert text == [text[0], text[1]] + text[2..];
    }
  }

  lemma UnhexUnfolds(text: string)
    requires IsHex(text) && |text| % 2 == 0 && text != []
    ensures Unhex(text) == [(DigitValue(text[0]) * 16 + DigitValue(text[1])) as byte] + Unhex(text[2..])
  {
  }

  lemma HexUnfolds(hi: int, lo: int, rest: Bytes)
    requires 0 <= hi < 16 && 0 <= lo < 16
    ensures Hex([(hi * 16 + lo) as byte] + rest) == [HexDigit(hi), HexDigit(lo)] + Hex(rest)
  {
    assert (hi * 16 + lo) / 16 == hi && (hi * 16 + lo) % 16 == lo;
    assert ([(hi * 16 + lo) as byte] + rest)[1..] == rest;
  }

  /** A trusted record is the record of some deal. */
  lemma TrustedIsRecord(record: Fields, role: Word, binary: string)
    requires CommitTrusted(record, role, binary)
    ensures record == RecordOf(Deal(Snapshots(record), role, binary, record[Witness].word.text), Committed)
  {
    UnhexRoundTrip(record[Manifest].word.text);
    UnhexRoundTrip(record[Receipt].word.text);
    var other := RecordOf(Deal(Snapshots(record), role, binary, record[Witness].word.text), Committed);
    assert forall k :: k in record ==> record[k] == other[k];
  }

  /** The journal says that this deal was committed. */
  ghost predicate Says(w: World, journal: Bytes, deal: Deal) {
    Unwrap(w, journal, RetainedCommitUntrusted) == Ok(RecordOf(deal, Committed))
  }

  /** The review accepts exactly the pair that the one permitted change makes of the recorded originals. */
  lemma {:induction false} ReviewAcceptsExactly(w: World, current: Pair, journal: Bytes, binary: string, role: Word)
    ensures Review(w, current, journal, binary, role).Ok? <==>
            exists deal ::
              && Says(w, journal, deal) && deal.role == role && deal.binary == binary
              && IsSha(deal.proof) && Readable(deal.before)
              && Transition(w, deal.before.0, deal.before.1, binary, role) == Ok(current)
  {
    hide Transition, Unwrap;
    if Review(w, current, journal, binary, role).Ok? {
      var record := Unwrap(w, journal, RetainedCommitUntrusted).value;
      TrustedIsRecord(record, role, binary);
      assert Says(w, journal, Deal(Snapshots(record), role, binary, record[Witness].word.text));
    }
    forall deal | && Says(w, journal, deal) && deal.role == role && deal.binary == binary
                  && IsSha(deal.proof) && Readable(deal.before)
                  && Transition(w, deal.before.0, deal.before.1, binary, role) == Ok(current)
      ensures Review(w, current, journal, binary, role).Ok?
    {
      RecordIsTrusted(deal);
    }
  }

  lemma RecordIsTrusted(deal: Deal)
    requires Readable(deal.before) && IsSha(deal.proof)
    ensures CommitTrusted(RecordOf(deal, Committed), deal.role, deal.binary)
    ensures Snapshots(RecordOf(deal, Committed)) == deal.before
  {
    HexRoundTrip(deal.before.0);
    HexRoundTrip(deal.before.1);
  }

  /** At every point of every run, the review of the journal on disk accepts the pair on disk exactly when
      the transaction is committed, and then for its own binary and role only. */
  lemma {:induction false} RunsAreReviewed(w: World, origin: Pair, events: seq<Event>, binary: string, role: Word)
    requires w.Valid() && w.Roomy()
    ensures var s := Run(w, Clean(origin), events);
            s.journal.Some? && s.manifest.Some? && s.receipt.Some? ==>
              (Review(w, (s.manifest.value, s.receipt.value), s.journal.value, binary, role).Ok? <==>
               exists t :: Agreed(w, origin, t) && t.deal.binary == binary && t.deal.role == role
                           && s == Image(w, origin, Journaled(Committed, true, true, t)))
  {
    hide Run, Transition, Unwrap, Wrapped, RecordOf, CommitTrusted;
    var s := Run(w, Clean(origin), events);
    var stage := RunStays(w, origin, events);
    if s.journal.Some? {
      var t := stage.trade;
      var phase := if stage.Sealed? then Restored else stage.phase;
      RecordUnwraps(w, t.deal, phase, RetainedCommitUntrusted);
      if phase == Committed {
        assert stage == Journaled(Committed, true, true, t);
        RecordIsTrusted(t.deal);
        ReviewsOwn(w, (s.manifest.value, s.receipt.value), t.deal, binary, role);
      } else {
        NotCommitted(t.deal, phase, binary, role);
        forall t' | Agreed(w, origin, t') && s == Image(w, origin, Journaled(Committed, true, true, t'))
          ensures false
        {
          RecordUnwraps(w, t'.deal, Committed, RetainedCommitUntrusted);
          OtherPhase(t.deal, t'.deal, phase);
        }
      }
      forall t' | Agreed(w, origin, t') && s == Image(w, origin, Journaled(Committed, true, true, t'))
          && phase == Committed
        ensures t'.deal.role == t.deal.role && t'.deal.binary == t.deal.binary
      {
        RecordUnwraps(w, t'.deal, Committed, RetainedCommitUntrusted);
        SameRecord(t.deal, t'.deal);
      }
    }
  }

  lemma ReviewsOwn(w: World, current: Pair, deal: Deal, binary: string, role: Word)
    requires w.Valid() && Readable(deal.before) && IsSha(deal.proof)
    requires Transition(w, deal.before.0, deal.before.1, deal.binary, deal.role) == Ok(current)
    ensures Review(w, current, JournalText(w, deal, Committed), binary, role).Ok? <==>
            binary == deal.binary && role == deal.role
  {
    var _, _ := TransitionFrom(w, deal.before.0, deal.before.1, deal.binary, deal.role, current);
    hide Transition, Unwrap, Wrapped, Bound;
    RecordUnwraps(w, deal, Committed, RetainedCommitUntrusted);
    RecordIsTrusted(deal);
  }

  lemma NotCommitted(deal: Deal, phase: Word, binary: string, role: Word)
    requires phase != Committed
    ensures !CommitTrusted(RecordOf(deal, phase), role, binary)
  {
  }

  lemma OtherPhase(a: Deal, b: Deal, phase: Word)
    requires phase != Committed
    ensures RecordOf(a, phase) != RecordOf(b, Committed)
  {
    assert RecordOf(a, phase)[Phase] != RecordOf(b, Committed)[Phase];
  }

  lemma SameRecord(a: Deal, b: Deal)
    requires RecordOf(a, Committed) == RecordOf(b, Committed)
    ensures a.role == b.role && a.binary == b.binary
  {
    var x, y := RecordOf(a, Committed), RecordOf(b, Committed);
    assert x[Role] == y[Role] && x[Binary] == y[Binary];
  }
}
