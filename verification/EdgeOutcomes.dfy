/** Exactly when the edge is activated and undone, on any edge at all, and what each answer leaves; stated on the
    files and what the host answers alone. */
module EdgeOutcomes {
  import opened Durable
  import opened EdgeExecutor

  /** The record of an activation. */
  function RecordFor(s: Edge, view: View, committed: bool): Record
    requires view.rendered.Some?
  {
    Record(committed, s.backend, s.stream, s.streamMap, view.rendered.value.1, view.rendered.value.0)
  }

  predicate Activatable(s: Edge, view: View) {
    !s.directory && view.rendered.Some? && s.alt.None? && view.passes(0)
  }

  lemma OpeningReaches(s: Edge, record: Record)
    ensures Replay(Act, s, Opening(record)) ==
            s.(directory := true, oldMap := Some(record.mapOld), journal := Some(record), alt := Some(record.altNew),
               streamMap := record.mapNew)
  {
    hide Replay;
    var a, b, c := MakeDirectory, AddOldMap(record.mapOld), AddJournal(record);
    var d, e := PutAlt(record.altNew), PutMap(record.mapNew);
    assert Opening(record) == [a] + ([b] + ([c] + ([d] + [e])));
    ReplayJoin(Act, s, [a], [b] + ([c] + ([d] + [e])));
    ReplayOne(Act, s, a);
    var s1 := Act(s, a);
    ReplayJoin(Act, s1, [b], [c] + ([d] + [e]));
    ReplayOne(Act, s1, b);
    var s2 := Act(s1, b);
    ReplayJoin(Act, s2, [c], [d] + [e]);
    ReplayOne(Act, s2, c);
    var s3 := Act(s2, c);
    ReplayJoin(Act, s3, [d], [e]);
    ReplayOne(Act, s3, d);
    ReplayOne(Act, Act(s3, d), e);
  }

  lemma RetractReaches(s: Edge, record: Record)
    ensures Replay(Act, s, Retract(s, record)) == s.(streamMap := record.mapOld, alt := None)
  {
    hide Replay;
    var first := if s.streamMap != record.mapOld then [PutMap(record.mapOld)] else [];
    var last := if s.alt.Some? then [DropAlt] else [];
    ReplayJoin(Act, s, first, last);
    NoSteps(Act, s, 0);
    ReplayOne(Act, s, PutMap(record.mapOld));
    var s1 := Replay(Act, s, first);
    NoSteps(Act, s1, 0);
    ReplayOne(Act, s1, DropAlt);
  }

  lemma ClosingReaches(s: Edge)
    ensures Replay(Act, s, [DropJournal, DropOldMap, RemoveDirectory]) ==
            s.(journal := None, oldMap := None, directory := false)
  {
    hide Replay;
    assert [DropJournal, DropOldMap, RemoveDirectory] == [DropJournal] + ([DropOldMap] + [RemoveDirectory]);
    ReplayJoin(Act, s, [DropJournal], [DropOldMap] + [RemoveDirectory]);
    ReplayOne(Act, s, DropJournal);
    var s1 := Act(s, DropJournal);
    ReplayJoin(Act, s1, [DropOldMap], [RemoveDirectory]);
    ReplayOne(Act, s1, DropOldMap);
    ReplayOne(Act, Act(s1, DropOldMap), RemoveDirectory);
  }

  /** The protected files are as recorded, the map is the old or the new one, and so is the vhost, which a committed
      new map needs. */
  predicate Explained(s: Edge, record: Record) {
    && s.backend == record.backend && s.stream == record.stream && s.oldMap == Some(record.mapOld)
    && (s.streamMap == record.mapOld || s.streamMap == record.mapNew)
    && (s.alt.None? || s.alt == Some(record.altNew))
    && (s.alt.None? && record.committed ==> s.streamMap == record.mapOld)
  }

  /** What a withdrawal leaves. */
  function Withdrawn(s: Edge, record: Record, passes: bool): Edge {
    var back := s.(streamMap := record.mapOld, alt := None);
    if passes then back.(journal := None, oldMap := None, directory := false) else back
  }

  lemma WithdrawReaches(s: Edge, record: Record, passes: bool)
    ensures var a := Withdraw(s, record, passes);
            if !Explained(s, record) then a.end.Fail? && a.steps == []
            else a.end == (if passes then Ok(()) else Fail(Hold(EdgeServiceFailed)))
                 && Replay(Act, s, a.steps) == Withdrawn(s, record, passes)
  {
    hide Replay, Retract, Act;
    if Explained(s, record) {
      assert CheckWithdraw(s, record).Ok?;
      RetractReaches(s, record);
      var back := Replay(Act, s, Retract(s, record));
      ClosingReaches(back);
      var closing := if passes then [DropJournal, DropOldMap, RemoveDirectory] else [];
      ReplayJoin(Act, s, Retract(s, record), closing);
      NoSteps(Act, back, 0);
    }
  }

  /** An activation that is not cut succeeds exactly if there is no journal, the rendered files have the reviewed
      form, there is no vhost yet, and Nginx accepts before and after.  Then the new map and the vhost are live, with
      a committed record of the old files.  If Nginx does not accept afterwards but accepts the withdrawal, everything
      is as it was; if it accepts neither, the old map stands, there is no vhost, and the journal is kept.  Otherwise
      nothing is written. */
  lemma {:induction false} ActivatesExactlyWhen(s: Edge, view: View)
    ensures var a := Apply(s, view);
            var t := Replay(Act, s, a.steps);
            if !Activatable(s, view) then a.end.Fail? && a.steps == []
            else if view.passes(1) then
              && a.end == Ok(())
              && t == s.(directory := true, oldMap := Some(s.streamMap), next := None,
                         journal := Some(RecordFor(s, view, true)),
                         streamMap := view.rendered.value.1, alt := Some(view.rendered.value.0))
            else if view.passes(2) then
              a.end == Fail(Hold(EdgeRolledBack)) && t == s.(journal := None, oldMap := None)
            else
              && a.end == Fail(Hold(EdgeManualRecovery))
              && t == s.(directory := true, oldMap := Some(s.streamMap), journal := Some(RecordFor(s, view, false)))
  {
    hide Replay, Act, Opening, Withdraw;
    if Activatable(s, view) {
      var record := RecordFor(s, view, false);
      OpeningReaches(s, record);
      var full := Replay(Act, s, Opening(record));
      ReplayJoin(Act, s, Opening(record), Settle(full, record, view).steps);
      if view.passes(1) {
        SwapReaches(full, record.(committed := true));
      } else {
        WithdrawReaches(full, record, view.passes(2));
      }
    }
  }

  lemma SwapReaches(s: Edge, record: Record)
    ensures Replay(Act, s, [AddNext(record), SwapJournal]) == s.(journal := Some(record), next := None)
  {
    hide Replay;
    assert [AddNext(record), SwapJournal] == [AddNext(record)] + [SwapJournal];
    ReplayJoin(Act, s, [AddNext(record)], [SwapJournal]);
    ReplayOne(Act, s, AddNext(record));
    ReplayOne(Act, Act(s, AddNext(record)), SwapJournal);
  }

  /** An undoing that is not cut, on any edge, begins exactly if there is a whole journal of its kind that explains
      the files; it brings back the old map and removes the vhost, and then the journal exactly if Nginx accepts.
      Otherwise nothing is written; so a file that is neither old nor new is never overwritten. */
  lemma {:induction false} UndoesExactlyWhen(s: Edge, committed: bool, passes: bool)
    ensures var a := Undo(s, committed, passes);
            var t := Replay(Act, s, a.steps);
            if s.directory && s.next.None? && s.journal.Some? && s.journal.value.committed == committed
               && Explained(s, s.journal.value) then
              a.end == (if passes then Ok(()) else Fail(Hold(EdgeServiceFailed)))
                  && t == Withdrawn(s, s.journal.value, passes)
            else a.end.Fail? && a.steps == []
  {
    hide Replay, Act, Withdraw, Explained;
    if s.directory && s.next.None? && s.journal.Some? && s.journal.value.committed == committed {
      WithdrawReaches(s, s.journal.value, passes);
    }
  }
}
