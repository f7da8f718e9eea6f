/** Exactly when the include is added and taken out, on any vhost at all, and what each answer leaves; stated on the
    texts and the probes alone. */
module IncludeOutcomes {
  import opened Durable
  import opened TextEdits
  import opened IncludeTransaction

  /** The vhost has the line in front of which the directive goes in one place, and neither the directive nor its
      file's name; the new one has the directive and a line end there, and is the same otherwise. */
  ghost predicate Adds(w: Words, before: string, after: string) {
    && !Contains(before, w.directive) && !Contains(before, w.name)
    && exists a, b :: AddsAt(w, before, after, a, b)
  }

  ghost predicate AddsAt(w: Words, before: string, after: string, a: string, b: string) {
    && before == a + w.root + b && after == a + w.directive + ['\n'] + w.root + b
    && forall i :: Occurs(before, w.root, i) ==> i == |a|
  }

  lemma CandidateAdds(w: Words, before: string)
    requires w.Valid() && Candidate(w, before).Ok?
    ensures Adds(w, before, Candidate(w, before).value)
  {
    hide Count, OnlyAt, ReplaceFirst, Contains;
    CountOnce(before, w.root);
    CountNone(before, w.directive);
    CountNone(before, w.name);
    var p :| OnlyHere(before, w.root, p);
    NoInclude(w, before);
    ReplacesHere(before, w.root, w.Included(), p);
    var a, b := before[..p], before[p + |w.root|..];
    assert before[p..p + |w.root|] == w.root;
    assert before == a + w.root + b;
    assert Candidate(w, before).value == a + w.directive + ['\n'] + w.root + b;
    assert AddsAt(w, before, Candidate(w, before).value, a, b);
  }

  lemma AddedIsSpliced(w: Words, before: string, after: string, a: string, b: string)
    requires w.Valid() && AddsAt(w, before, after, a, b)
    ensures OnlyHere(before, w.root, |a|) && Single(before, w.root)
    ensures after == Spliced(before, |a|, w.root, w.Included())
  {
    hide Words.Valid;
    Around(a, w.root, b);
    assert OnlyHere(before, w.root, |a|);
    assert a + w.directive + ['\n'] + w.root + b == a + w.Included() + b;
  }

  lemma Around(a: string, middle: string, b: string)
    ensures var text := a + middle + b;
            && |a| + |middle| <= |text| && text[..|a|] == a && text[|a|..|a| + |middle|] == middle
            && text[|a| + |middle|..] == b && Occurs(text, middle, |a|)
  {
  }


  lemma AddsIsCandidate(w: Words, before: string, after: string)
    requires w.Valid() && Adds(w, before, after)
    ensures Candidate(w, before) == Ok(after)
  {
    hide Count, OnlyAt, ReplaceFirst, Contains;
    CountOnce(before, w.root);
    CountNone(before, w.directive);
    CountNone(before, w.name);
    var a, b :| AddsAt(w, before, after, a, b);
    AddedIsSpliced(w, before, after, a, b);
    ReplacesHere(before, w.root, w.Included(), |a|);
  }

  /** The change of a vhost is exactly this one. */
  lemma {:induction false} CandidateExactly(w: Words, before: string, after: string)
    requires w.Valid()
    ensures Candidate(w, before) == Ok(after) <==> Adds(w, before, after)
  {
    hide Candidate, Adds;
    if Candidate(w, before).Ok? {
      CandidateAdds(w, before);
    }
    if Adds(w, before, after) {
      AddsIsCandidate(w, before, after);
    }
  }

  // ---------------------------------------------------------------- the transaction

  /** There is no transaction and no table, and the vhost can be changed into this one. */
  ghost predicate Fits(w: Words, s: Gate, view: View, after: string) {
    view.ready && !s.directory && s.record.None? && s.snippet.None? && Adds(w, s.backend, after)
  }

  lemma OpeningReaches(w: Words, s: Gate, record: Record)
    ensures Replay(Act, s, Opening(w, record)) ==
            Gate(record.after, Some(w.header), true, Some(record.before), Some(record))
  {
    hide Replay;
    var a, b, c := MakeDirectory, AddBackup(record.before), PutRecord(record);
    var d, e := PutSnippet(w.header), PutBackend(record.after);
    assert Opening(w, record) == [a] + ([b] + ([c] + ([d] + [e])));
    ReplayJoin(Act, s, [a], [b] + ([c] + ([d] + [e])));
    ReplayOne(Act, s, a);
    var s1 := Act(s, a);
    ReplayJoin(Act, s1, [b], [c] + ([d] + [e]));
    ReplayOne(Act, s1, b);
    var s2 := Act(s1, b);
    ReplayJoin(Act, s2, [c], [d] + [e]);
    ReplayOne(Act, s2, c);
    var s3 := Act(s2, c);
    ReplayJoin(Act, s3, [d], [e]);
    ReplayOne(Act, s3, d);
    ReplayOne(Act, Act(s3, d), e);
  }

  /** The backup is the recorded one, the vhost is its old or its new version, and the table is the first one or
      absent. */
  predicate Explained(w: Words, s: Gate, record: Record) {
    && s.backup == Some(record.before) && (s.backend == record.before || s.backend == record.after)
    && (s.snippet.None? || s.snippet == Some(w.header))
  }

  /** What taking the directive out leaves. */
  function Retracted(s: Gate, record: Record, passes: bool): Gate {
    s.(backend := record.before, snippet := None, record :=
        if passes then Some(record.(state := RolledBack)) else s.record)
  }

  lemma RetractReaches(w: Words, s: Gate, record: Record, passes: bool)
    ensures var a := Retract(w, s, record, passes);
            if !Explained(w, s, record) then a.steps == []
                && a.end in {Fail(Hold(CriticalBackendModified)), Fail(Hold(CriticalSnippetExternalEdit))}
            else a.end == (if passes then Ok(()) else Fail(Hold(GatewayProbeFailed)))
                 && Replay(Act, s, a.steps) == Retracted(s, record, passes)
  {
    hide Replay;
    if Explained(w, s, record) {
      var first := if s.backend != record.before then [PutBackend(record.before)] else [];
      var second := if s.snippet.Some? then [DropSnippet] else [];
      var last := if passes then [PutRecord(record.(state := RolledBack))] else [];
      assert Retract(w, s, record, passes).steps == first + second + last;
      ReplayJoin(Act, s, first + second, last);
      ReplayJoin(Act, s, first, second);
      NoSteps(Act, s, 0);
      ReplayOne(Act, s, PutBackend(record.before));
      var s1 := Replay(Act, s, first);
      NoSteps(Act, s1, 0);
      ReplayOne(Act, s1, DropSnippet);
      var s2 := Replay(Act, s1, second);
      NoSteps(Act, s2, 0);
      ReplayOne(Act, s2, PutRecord(record.(state := RolledBack)));
    }
  }

  /** An inclusion that is not cut succeeds exactly if the host is ready, there is no transaction and no table, the
      vhost can be changed, and the probe passes.  Then the changed vhost stands beside the table, with a committed
      record and the backup.  If the probe fails, the old vhost stands without the table; the record says so exactly
      if the second probe passes.  Otherwise nothing is written. */
  lemma {:induction false} AppliesExactlyWhen(w: Words, s: Gate, view: View)
    requires w.Valid()
    ensures var a := Apply(w, s, view);
            var t := Replay(Act, s, a.steps);
            && ((forall after :: !Fits(w, s, view, after)) ==> a.end.Fail? && a.steps == [])
            && (forall after :: Fits(w, s, view, after) ==>
                  if view.passes(0) then
                    && a.end == Ok(())
                    && t == Gate(after, Some(w.header), true, Some(s.backend),
                        Some(Record(Committed, s.backend, after)))
                  else if view.passes(1) then
                    && a.end == Fail(Hold(IncludeRolledBack))
                    && t == Gate(s.backend, None, true, Some(s.backend), Some(Record(RolledBack, s.backend, after)))
                  else
                    && a.end == Fail(Hold(GatewayProbeFailed))
                    && t == Gate(s.backend, None, true, Some(s.backend), Some(Record(Prepared, s.backend, after))))
  {
    hide Replay, Act, Opening, Retract, Adds, Candidate;
    forall after ensures Candidate(w, s.backend) == Ok(after) <==> Adds(w, s.backend, after) {
      CandidateExactly(w, s.backend, after);
    }
    if Prepare(w, s, view).Ok? {
      var record := Prepare(w, s, view).value;
      assert Fits(w, s, view, record.after);
      assert forall after :: Fits(w, s, view, after) ==> after == record.after;
      OpeningReaches(w, s, record);
      var full := Replay(Act, s, Opening(w, record));
      ReplayJoin(Act, s, Opening(w, record), Settle(w, full, record, view).steps);
      if view.passes(0) {
        ReplayOne(Act, full, PutRecord(record.(state := Committed)));
        PutsRecord(full, record.(state := Committed));
      } else {
        RetractReaches(w, full, record, view.passes(1));
      }
    }
  }

  lemma PutsRecord(s: Gate, record: Record)
    ensures Act(s, PutRecord(record)) == s.(record := Some(record))
  {
  }

  /** A rollback that is not cut, on any vhost, begins exactly if the host is ready, the record is open and true to
      its backup, and the files are explained.  Then the old vhost stands without the table, and the record is closed
      exactly if the probe passes. Otherwise nothing is written; so a vhost or a table that someone else has changed
      is never overwritten. */
  lemma {:induction false} RollsBackExactlyWhen(w: Words, s: Gate, view: View)
    requires w.Valid()
    ensures var a := Rollback(w, s, view);
            var t := Replay(Act, s, a.steps);
            if view.ready && s.directory && s.record.Some? && s.record.value.state != RolledBack
               && Adds(w, s.record.value.before, s.record.value.after) && Explained(w, s, s.record.value) then
              && a.end == (if view.passes(0) then Ok(()) else Fail(Hold(GatewayProbeFailed)))
              && t == Retracted(s, s.record.value, view.passes(0))
            else a.end.Fail? && a.steps == []
  {
    hide Replay, Act, Retract, Adds, Candidate, Explained;
    if s.record.Some? {
      CandidateExactly(w, s.record.value.before, s.record.value.after);
      RetractReaches(w, s, s.record.value, view.passes(0));
      assert Explained(w, s, s.record.value) ==> s.backup == Some(s.record.value.before)
          by { ExplainedBackup(w, s, s.record.value); }
    }
  }

  lemma ExplainedBackup(w: Words, s: Gate, record: Record)
    ensures Explained(w, s, record) ==> s.backup == Some(record.before)
  {
  }
}
