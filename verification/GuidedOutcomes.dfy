/** Exactly when a publication and its rollback succeed, what each answer leaves, and what an inspection answers;
    stated on the texts, the journals and the probes alone. */
module GuidedOutcomes {
  import opened Durable
  import opened RoutePaths
  import opened RouteTable
  import opened GuidedPublish
  import opened GuidedRuns

  /** The host is ready, the port is saved, and the table rendered from the applied tunnels is the live one with
      exactly the block of this port and its saved path inserted. */
  ghost predicate Inserts(w: Wording, s: Gateway, port: nat, view: View) {
    view.ready && view.saved.Some? && InsertsOne(w, s.snippet, view.rendered, Route(port, view.saved.value))
  }

  lemma InsertedIsAccepted(w: Wording, s: Gateway, port: nat, view: View)
    requires w.Valid() && Inserts(w, s, port, view)
    ensures Inspect(w, s, port, view) == Ok(true)
  {
    hide Render;
    var route := Route(port, view.saved.value);
    var a: seq<Route>, b: seq<Route> :| Canonical(a + b) && Canonical(a + [route] + b)
                && s.snippet == Render(w, a + b) && view.rendered == Render(w, a + [route] + b);
    ParsedAs(w, s.snippet, a + b);
    ParsedAs(w, view.rendered, a + [route] + b);
    var current, newer := a + b, a + [route] + b;
    assert newer[|a|] == route;
    forall i | 0 <= i < |current| ensures current[i] in newer && current[i].port != port {
      var j := if i < |a| then i else i + 1;
      assert newer[j] == current[i];
    }
    forall i | 0 <= i < |newer| ensures HasPort(current, newer[i].port) || newer[i].port == port {
      if i != |a| {
        var j := if i < |a| then i else i - 1;
        assert current[j] == newer[i];
      }
    }
    assert !HasPort(current, port);
    assert HasPort(newer, port);
  }

  /** The live table is the rendered one, and has the block of this port and its saved path. */
  ghost predicate Stands(w: Wording, s: Gateway, port: nat, view: View) {
    && view.ready && view.saved.Some? && view.rendered == s.snippet
    && exists routes :: Canonical(routes) && s.snippet == Render(w, routes) && Route(port, view.saved.value) in routes
  }

  lemma StandingIsFound(w: Wording, s: Gateway, port: nat, view: View)
    requires w.Valid() && Stands(w, s, port, view)
    ensures Inspect(w, s, port, view) == Ok(false)
  {
    hide Render;
    var route := Route(port, view.saved.value);
    var routes: seq<Route> :| Canonical(routes) && s.snippet == Render(w, routes) && route in routes;
    ParsedAs(w, s.snippet, routes);
    var k :| 0 <= k < |routes| && routes[k] == route;
    assert HasPort(routes, port);
    forall i | 0 <= i < |routes| ensures HasPort(routes, routes[i].port) {
    }
  }

  lemma FoundIsStanding(w: Wording, s: Gateway, port: nat, view: View)
    requires w.Valid() && Inspect(w, s, port, view) == Ok(false)
    ensures Stands(w, s, port, view)
  {
    hide Render;
    var routes := Parsed(w, s.snippet).value;
    var newer := Parsed(w, view.rendered).value;
    RenderOfParse(w, s.snippet);
    SameBefore(w, s, port, view);
    assert Route(port, view.saved.value) in routes;
  }

  lemma SameBefore(w: Wording, s: Gateway, port: nat, view: View)
    requires Inspect(w, s, port, view) == Ok(false)
    ensures view.rendered == s.snippet
  {
    hide Render;
  }

  /** An inspection answers that the port is to be published exactly if the rendered table inserts its block, and that
      it is published already exactly if the tables are the same and have it; otherwise it refuses. */
  lemma {:induction false} InspectsExactly(w: Wording, s: Gateway, port: nat, view: View)
    requires w.Valid()
    ensures Inspect(w, s, port, view) == Ok(true) <==> Inserts(w, s, port, view)
    ensures Inspect(w, s, port, view) == Ok(false) <==> Stands(w, s, port, view)
  {
    hide InsertsOne, Stands, Inspect;
    if Inspect(w, s, port, view) == Ok(true) {
      AcceptedInsertsOne(w, s, port, view);
      assert view.ready by { InspectedReady(w, s, port, view); }
    }
    if Inserts(w, s, port, view) {
      InsertedIsAccepted(w, s, port, view);
    }
    if Inspect(w, s, port, view) == Ok(false) {
      FoundIsStanding(w, s, port, view);
    }
    if Stands(w, s, port, view) {
      StandingIsFound(w, s, port, view);
    }
  }

  lemma InspectedReady(w: Wording, s: Gateway, port: nat, view: View)
    requires Inspect(w, s, port, view).Ok?
    ensures view.ready
  {
  }

  // ---------------------------------------------------------------- publication

  /** The gateway after a publication with this record, whose table is this one. */
  function Published(s: Gateway, port: nat, view: View, state: State, table: string): Gateway
    requires view.saved.Some?
  {
    Gateway(table, s.journals[port := Journal(Some(s.snippet),
                                              Some(Record(state, view.saved.value, s.snippet, view.rendered)))])
  }

  lemma OpeningReaches(s: Gateway, port: nat, record: Record)
    ensures Replay(Act, s, Opening(port, record)) ==
            Gateway(record.after, s.journals[port := Journal(Some(record.before), Some(record))])
  {
    hide Replay;
    var a, b, c, d := MakeJournal(port), AddBackup(port, record.before), PutRecord(port, record),
        PutSnippet(record.after);
    assert Opening(port, record) == [a] + ([b] + ([c] + [d]));
    ReplayJoin(Act, s, [a], [b] + ([c] + [d]));
    ReplayOne(Act, s, a);
    var s1 := Act(s, a);
    ReplayJoin(Act, s1, [b], [c] + [d]);
    ReplayOne(Act, s1, b);
    var s2 := Act(s1, b);
    ReplayJoin(Act, s2, [c], [d]);
    ReplayOne(Act, s2, c);
    ReplayOne(Act, Act(s2, c), d);
  }

  /** What restoring leaves of a table that is the record's new one or its old one. */
  lemma RestoreReaches(s: Gateway, port: nat, record: Record, passes: bool, answer: Result<()>)
    requires port in s.journals && s.snippet in {record.before, record.after}
    ensures var a := Restore(s, port, record, record.before, passes, answer);
            && a.end == (if passes then answer else Fail(Hold(GatewayProbeFailed)))
            && Replay(Act, s, a.steps) ==
               Gateway(record.before,
                 if passes then s.journals[port := s.journals[port].(record := Some(record.(state := RolledBack)))]
                     else s.journals)
  {
    hide Replay;
    var first := if s.snippet == record.after then [PutSnippet(record.before)] else [];
    var last := if passes then [PutRecord(port, record.(state := RolledBack))] else [];
    ReplayJoin(Act, s, first, last);
    NoSteps(Act, s, 0);
    ReplayOne(Act, s, PutSnippet(record.before));
    var s1 := Replay(Act, s, first);
    NoSteps(Act, s1, 0);
    ReplayOne(Act, s1, PutRecord(port, record.(state := RolledBack)));
  }

  /** A publication that is not cut succeeds exactly if its block can be inserted, there is no journal of the port,
      and the probe passes; then the new table stands, with a committed record.  If the probe fails and the one after
      the restoring passes, the old table stands, with a record that says so; if that one fails too, the old table
      stands, and the record stays prepared. Otherwise nothing is written. */
  lemma {:induction false} PublishesExactlyWhen(w: Wording, s: Gateway, port: nat, view: View)
    requires w.Valid()
    ensures var a := Apply(w, s, port, view);
            var t := Replay(Act, s, a.steps);
            if !Inserts(w, s, port, view) || port in s.journals then a.end.Fail? && a.steps == []
            else if view.passes(0) then a.end == Ok(()) && t == Published(s, port, view, Committed, view.rendered)
            else if view.passes(1) then
              a.end == Fail(Hold(PublishFailedRolledBack)) && t == Published(s, port, view, RolledBack, s.snippet)
            else
              a.end == Fail(Hold(CriticalManualRouteRecovery)) && t == Published(s, port, view, Prepared, s.snippet)
  {
    hide InsertsOne, Inspect, Replay, Act, Opening, Restore;
    InspectsExactly(w, s, port, view);
    if Inserts(w, s, port, view) && port !in s.journals {
      var record := Record(Prepared, view.saved.value, s.snippet, view.rendered);
      OpeningReaches(s, port, record);
      var s1 := Replay(Act, s, Opening(port, record));
      var rest := Settle(s1, port, record, view).steps;
      ReplayJoin(Act, s, Opening(port, record), rest);
      if view.passes(0) {
        ReplayOne(Act, s1, PutRecord(port, record.(state := Committed)));
        PutsRecord(s1, port, record.(state := Committed));
      } else {
        RestoreReaches(s1, port, record, view.passes(1), Fail(Hold(PublishFailedRolledBack)));
      }
    }
  }

  lemma PutsRecord(s: Gateway, port: nat, record: Record)
    requires port in s.journals
    ensures Act(s, PutRecord(port, record)) ==
            s.(journals := s.journals[port := s.journals[port].(record := Some(record))])
  {
  }

  // ---------------------------------------------------------------- rollback

  /** The port has a committed record with its backup, and the live table is the record's new one or its old one. */
  predicate Retractable(s: Gateway, port: nat) {
    && port in s.journals && s.journals[port].record.Some?
    && s.journals[port].backup == Some(s.journals[port].record.value.before)
    && s.journals[port].record.value.state == Committed
    && (s.snippet == s.journals[port].record.value.before || s.snippet == s.journals[port].record.value.after)
  }

  /** A rollback that is not cut, on any gateway, succeeds exactly if the host is ready, the record can be retracted
      and the probe passes; then the old table stands, with a record that says so.  If only the probe fails, the old
      table stands and the record stays committed.  Otherwise nothing is written; so a table that someone else has
      changed is never overwritten. */
  lemma {:induction false} RollsBackExactlyWhen(s: Gateway, port: nat, view: View)
    ensures var a := Rollback(s, port, view);
            var t := Replay(Act, s, a.steps);
            if !view.ready || !Retractable(s, port) then a.end.Fail? && a.steps == []
            else
              var record := s.journals[port].record.value;
              if view.passes(0) then
                a.end == Ok(())
                && t == Gateway(record.before,
                    s.journals[port := s.journals[port].(record := Some(record.(state := RolledBack)))])
              else a.end == Fail(Hold(GatewayProbeFailed)) && t == Gateway(record.before, s.journals)
  {
    hide Replay, Act;
    if view.ready && Retractable(s, port) {
      RestoreReaches(s, port, s.journals[port].record.value, view.passes(0), Ok(()));
    }
  }
}
