/** Every run of publications and rollbacks: no route is lost but the one a call is about. */
module GuidedRuns {
  import opened Durable
  import opened RoutePaths
  import opened RouteTable
  import opened GuidedPublish

  /** The longer table is the shorter one with exactly one route inserted in the order of the ports, and the longer
      text is the shorter one with exactly that route's block inserted. */
  ghost predicate InsertsOne(w: Wording, before: string, after: string, route: Route) {
    exists a, b ::
      && Canonical(a + b) && Canonical(a + [route] + b)
      && before == Render(w, a + b) && after == Render(w, a + [route] + b)
  }

  lemma {:induction false} InsertedText(w: Wording, a: seq<Route>, b: seq<Route>, route: Route)
    ensures Render(w, a + b) == Render(w, a) + Text(Blocks(w, b))
    ensures Render(w, a + [route] + b) == Render(w, a) + Text(Block(w, route)) + Text(Blocks(w, b))
  {
    AppendedText(w, a, b);
    AppendedText(w, a + [route], b);
    AppendedText(w, a, [route]);
    assert Blocks(w, [route]) == Block(w, route) by {
      assert [route][1..] == [] && Block(w, route) + [] == Block(w, route);
    }
  }

  lemma AppendedText(w: Wording, a: seq<Route>, b: seq<Route>)
    ensures Render(w, a + b) == Render(w, a) + Text(Blocks(w, b))
  {
    hide Blocks, Text;
    BlocksJoin(w, a, b);
    TextJoin([w.header] + Blocks(w, a), Blocks(w, b));
    assert [w.header] + (Blocks(w, a) + Blocks(w, b)) == [w.header] + Blocks(w, a) + Blocks(w, b);
  }

  // ---------------------------------------------------------------- what an accepted inspection means

  /** Two ascending tables with the same routes are equal. */
  lemma {:induction false} SameRoutes(a: seq<Route>, b: seq<Route>)
    requires Increasing(a) && Increasing(b) && (forall r :: r in a <==> r in b)
    ensures a == b
    decreases a
  {
    SomeIn(a);
    SomeIn(b);
    if a != [] && b != [] {
      assert a[0] in b && b[0] in a;
      FirstIsLeast(a, b[0]);
      FirstIsLeast(b, a[0]);
      assert a[0] == b[0] by { OneOfPort(a, a[0], b[0]); }
      forall r ensures r in a[1..] <==> r in b[1..] {
        TailHas(a, r);
        TailHas(b, r);
      }
      SameRoutes(a[1..], b[1..]);
      assert a == [a[0]] + a[1..] && b == [b[0]] + b[1..];
    }
  }

  lemma SomeIn(a: seq<Route>)
    ensures a != [] ==> exists r :: r in a
  {
    if a != [] {
      assert a[0] in a;
    }
  }

  lemma FirstIsLeast(a: seq<Route>, r: Route)
    requires Increasing(a) && r in a
    ensures a[0].port <= r.port
  {
  }

  lemma OneOfPort(a: seq<Route>, r: Route, q: Route)
    requires Increasing(a) && r in a && q in a && r.port == q.port
    ensures r == q
  {
    var i :| 0 <= i < |a| && a[i] == r;
    var j :| 0 <= j < |a| && a[j] == q;
    assert !(i < j) && !(j < i);
  }

  lemma TailHas(a: seq<Route>, r: Route)
    requires Increasing(a) && a != []
    ensures r in a[1..] <==> r in a && r != a[0]
  {
    assert a == [a[0]] + a[1..];
  }

  /** Taking one route out of an ascending table. */
  lemma Splits(newer: seq<Route>, route: Route) returns (a: seq<Route>, b: seq<Route>)
    requires Increasing(newer) && route in newer
    ensures newer == a + [route] + b && Increasing(a + b)
    ensures forall r :: r in a + b <==> r in newer && r != route
  {
    var k :| 0 <= k < |newer| && newer[k] == route;
    a, b := newer[..k], newer[k + 1..];
    assert newer == a + [route] + b;
    StaysIncreasing(newer, k);
    forall r ensures r in a + b <==> r in newer && r != route {
      NotTwice(newer, k, r);
    }
  }

  lemma StaysIncreasing(newer: seq<Route>, k: nat)
    requires Increasing(newer) && k < |newer|
    ensures Increasing(newer[..k] + newer[k + 1..])
  {
    var both := newer[..k] + newer[k + 1..];
    assert forall i :: 0 <= i < |both| ==> both[i] == newer[if i < k then i else i + 1];
  }

  lemma NotTwice(newer: seq<Route>, k: nat, r: Route)
    requires Increasing(newer) && k < |newer|
    ensures r in newer[..k] + newer[k + 1..] <==> r in newer && r != newer[k]
  {
    assert newer == newer[..k] + ([newer[k]] + newer[k + 1..]);
    assert newer[k] !in newer[..k] && newer[k] !in newer[k + 1..];
  }

  /** A publication that is accepted adds exactly one block, that of its own port and saved path, in port order. */
  lemma {:induction false} AcceptedInsertsOne(w: Wording, s: Gateway, port: nat, view: View)
    requires Inspect(w, s, port, view) == Ok(true)
    ensures view.saved.Some? && InsertsOne(w, s.snippet, view.rendered, Route(port, view.saved.value))
  {
    hide Render;
    var current, newer := Parsed(w, s.snippet).value, Parsed(w, view.rendered).value;
    var route := Route(port, view.saved.value);
    var a, b := Splits(newer, route);
    forall r ensures r in current <==> r in a + b {
      if r in a + b { Added(newer, current, port, route, r); }
      if r in current {
        var i :| 0 <= i < |current| && current[i] == r;
        assert current[i] in newer && r != route;
      }
    }
    SameRoutes(current, a + b);
    assert Canonical(a + b) && Canonical(a + [route] + b);
  }

  lemma Added(newer: seq<Route>, current: seq<Route>, port: nat, route: Route, r: Route)
    requires Increasing(newer) && Includes(newer, current) && OnlyAdds(newer, current, port)
    requires route in newer && route.port == port && r in newer && r != route
    ensures r in current
  {
    var i :| 0 <= i < |newer| && newer[i] == r;
    if r.port == port {
      OneOfPort(newer, r, route);
    } else {
      var k :| 0 <= k < |current| && current[k].port == r.port;
      OneOfPort(newer, current[k], r);
    }
  }

  /** The last comparison of an inspection can never be the one that fails: once the other checks pass and the port is
      already published, the two texts are the same. */
  lemma {:induction false} SameTextOnceSameRoutes(w: Wording, s: Gateway, port: nat, view: View)
    ensures Inspect(w, s, port, view) != Fail(Hold(RenderedRouteDrift))
  {
    hide Render;
    if Inspect(w, s, port, view) == Fail(Hold(RenderedRouteDrift)) {
      var current, newer := Parsed(w, s.snippet).value, Parsed(w, view.rendered).value;
      var route := Route(port, view.saved.value);
      forall r ensures r in current <==> r in newer {
        if r in newer {
          PublishedToo(newer, current, port, r);
        }
        if r in current {
          var i :| 0 <= i < |current| && current[i] == r;
        }
      }
      SameRoutes(current, newer);
      RenderOfParse(w, s.snippet);
      RenderOfParse(w, view.rendered);
    }
  }

  lemma PublishedToo(newer: seq<Route>, current: seq<Route>, port: nat, r: Route)
    requires Increasing(newer) && Includes(newer, current) && OnlyAdds(newer, current, port) && HasPort(current, port)
             && r in newer
    ensures r in current
  {
    var i :| 0 <= i < |newer| && newer[i] == r;
    assert HasPort(current, r.port);
    var k :| 0 <= k < |current| && current[k].port == r.port;
    OneOfPort(newer, current[k], r);
  }

  // ---------------------------------------------------------------- every run

  /** Every record tells which one block its publication inserted. */
  ghost predicate Truthful(w: Wording, s: Gateway) {
    forall port :: port in s.journals && s.journals[port].record.Some? ==>
      var record := s.journals[port].record.value;
      InsertsOne(w, record.before, record.after, Route(port, record.path))
  }

  /** The live table changed at most by one block of this port: inserted, or removed. */
  ghost predicate ChangesOnly(w: Wording, port: nat, before: string, after: string) {
    after == before || exists path ::
        InsertsOne(w, before, after, Route(port, path)) || InsertsOne(w, after, before, Route(port, path))
  }

  datatype Event =
    | ApplyCall(port: nat, view: View, fuse: nat)
    | RollbackCall(port: nat, view: View, fuse: nat)

  ghost function Steps(w: Wording, s: Gateway, event: Event): seq<Op> {
    match event
    case ApplyCall(port, view, fuse) => UpTo(Apply(w, s, port, view).steps, fuse)
    case RollbackCall(port, view, fuse) => UpTo(Rollback(s, port, view).steps, fuse)
  }

  ghost function Run(w: Wording, s: Gateway, events: seq<Event>): Gateway {
    if events == [] then s
    else
      var before := Run(w, s, events[..|events| - 1]);
      Replay(Act, before, Steps(w, before, events[|events| - 1]))
  }

  /** A step of a call about this port: it writes only this port's journal, a truthful record, and only these two
      tables. */
  ghost predicate Own(w: Wording, port: nat, before: string, after: string, op: Op) {
    match op
    case MakeJournal(p) => p == port
    case AddBackup(p, _) => p == port
    case PutRecord(p, record) => p == port && InsertsOne(w, record.before, record.after, Route(port, record.path))
    case PutSnippet(text) => text in {before, after}
  }

  lemma {:induction false} OwnPrefix(w: Wording, port: nat, before: string, after: string, s: Gateway,
                                     steps: seq<Op>, k: nat)
    requires Truthful(w, s) && s.snippet in {before, after} && k <= |steps|
    requires forall i :: 0 <= i < |steps| ==> Own(w, port, before, after, steps[i])
    ensures var t := Replay(Act, s, steps[..k]); Truthful(w, t) && t.snippet in {before, after}
    decreases k
  {
    hide Replay, InsertsOne;
    if k > 0 {
      OwnPrefix(w, port, before, after, s, steps, k - 1);
      ReplayNext(Act, s, steps, k - 1);
    } else {
      NoSteps(Act, s, 0);
      assert steps[..0] == [];
    }
  }

  lemma RestoreIsOwn(w: Wording, s: Gateway, port: nat, record: Record, passes: bool, answer: Result<()>)
    requires InsertsOne(w, record.before, record.after, Route(port, record.path))
    ensures var steps := Restore(s, port, record, record.before, passes, answer).steps;
            && (forall i :: 0 <= i < |steps| ==> Own(w, port, record.before, record.after, steps[i]))
            && (forall i :: 0 <= i < |steps| ==> Own(w, port, record.before, s.snippet, steps[i]))
            && (steps != [] ==> s.snippet in {record.before, record.after})
  {
    hide InsertsOne;
  }

  lemma ApplyIsOwn(w: Wording, s: Gateway, port: nat, view: View)
    ensures var prepared, steps := Prepare(w, s, port, view), Apply(w, s, port, view).steps;
            && (prepared.Fail? ==> steps == [])
            && (prepared.Ok? ==>
                  && prepared.value.before == s.snippet && prepared.value.after == view.rendered
                  && view.saved.Some? && prepared.value.path == view.saved.value
                  && InsertsOne(w, s.snippet, view.rendered, Route(port, view.saved.value))
                  && forall i :: 0 <= i < |steps| ==> Own(w, port, s.snippet, view.rendered, steps[i]))
  {
    hide InsertsOne, Inspect, Restore, Replay, Act;
    var prepared := Prepare(w, s, port, view);
    if prepared.Ok? {
      AcceptedInsertsOne(w, s, port, view);
      var record := prepared.value;
      var t := Replay(Act, s, Opening(port, record));
      RestoreIsOwn(w, t, port, record, view.passes(1), Fail(Hold(PublishFailedRolledBack)));
    }
  }

  /** One call, cut anywhere, keeps the records truthful and changes only the block of its own port. */
  lemma CallStays(w: Wording, s: Gateway, event: Event)
    requires Truthful(w, s)
    ensures var t := Replay(Act, s, Steps(w, s, event));
            Truthful(w, t) && ChangesOnly(w, event.port, s.snippet, t.snippet)
  {
    hide InsertsOne, Apply, Rollback, Replay, Act, Prepare;
    match event
    case ApplyCall(port, view, fuse) =>
      var steps := Apply(w, s, port, view).steps;
      ApplyIsOwn(w, s, port, view);
      if Prepare(w, s, port, view).Ok? {
        OwnPrefix(w, port, s.snippet, view.rendered, s, steps, |UpTo(steps, fuse)|);
        assert steps[..|UpTo(steps, fuse)|] == UpTo(steps, fuse);
      } else {
        NoSteps(Act, s, fuse);
      }
    case RollbackCall(port, view, fuse) => RollbackOnlyRemoves(w, s, port, view, fuse);
  }

  /** A rollback, wherever it is cut, removes exactly the one block of its own port, or changes nothing. */
  lemma {:induction false} RollbackOnlyRemoves(w: Wording, s: Gateway, port: nat, view: View, fuse: nat)
    requires Truthful(w, s)
    ensures var t := Replay(Act, s, UpTo(Rollback(s, port, view).steps, fuse));
            && Truthful(w, t)
            && (t.snippet == s.snippet || exists path :: InsertsOne(w, t.snippet, s.snippet, Route(port, path)))
  {
    hide InsertsOne, Rollback, Replay, Act;
    var steps := Rollback(s, port, view).steps;
    RollbackIsOwn(w, s, port, view);
    if steps == [] {
      NoSteps(Act, s, fuse);
    } else {
      var record := s.journals[port].record.value;
      OwnPrefix(w, port, record.before, s.snippet, s, steps, |UpTo(steps, fuse)|);
      assert steps[..|UpTo(steps, fuse)|] == UpTo(steps, fuse);
    }
  }

  lemma RollbackIsOwn(w: Wording, s: Gateway, port: nat, view: View)
    requires Truthful(w, s)
    ensures var steps := Rollback(s, port, view).steps;
            steps != [] ==>
              && port in s.journals && s.journals[port].record.Some?
              && var record := s.journals[port].record.value;
              && InsertsOne(w, record.before, record.after, Route(port, record.path))
              && s.snippet in {record.before, record.after}
              && forall i :: 0 <= i < |steps| ==> Own(w, port, record.before, s.snippet, steps[i])
  {
    hide InsertsOne, Restore, Own;
    if Rollback(s, port, view).steps != [] {
      var record := Load(s, port).value;
      RestoreIsOwn(w, s, port, record, view.passes(0), Ok(()));
    }
  }

  lemma {:induction false} RunsAreTruthful(w: Wording, s: Gateway, events: seq<Event>)
    requires s.journals == map[]
    ensures Truthful(w, Run(w, s, events))
  {
    hide Steps, InsertsOne, Act, Replay;
    if events != [] {
      RunsAreTruthful(w, s, events[..|events| - 1]);
      CallStays(w, Run(w, s, events[..|events| - 1]), events[|events| - 1]);
    }
  }

  /** In every run, every call, wherever it is cut, leaves the live table as it is except for at most one block of its
      own port; so a route of any other port is neither lost nor added by it. */
  lemma {:induction false} OtherRoutesStay(w: Wording, s: Gateway, events: seq<Event>, event: Event, route: Route)
    requires w.Valid() && s.journals == map[] && route.port != event.port
    ensures var before := Run(w, s, events);
            var after := Replay(Act, before, Steps(w, before, event));
            && ChangesOnly(w, event.port, before.snippet, after.snippet)
            && (Parsed(w, before.snippet).Some? <==> Parsed(w, after.snippet).Some?)
            && (Parsed(w, before.snippet).Some? ==>
                  (route in Parsed(w, before.snippet).value <==> route in Parsed(w, after.snippet).value))
  {
    hide Steps, InsertsOne, Act, Replay, Render, Run, Parsed;
    var before := Run(w, s, events);
    RunsAreTruthful(w, s, events);
    CallStays(w, before, event);
    var after := Replay(Act, before, Steps(w, before, event));
    if after.snippet != before.snippet {
      var path :| InsertsOne(w, before.snippet, after.snippet, Route(event.port, path))
                  || InsertsOne(w, after.snippet, before.snippet, Route(event.port, path));
      if InsertsOne(w, before.snippet, after.snippet, Route(event.port, path)) {
        SameBesides(w, before.snippet, after.snippet, Route(event.port, path), route);
      } else {
        SameBesides(w, after.snippet, before.snippet, Route(event.port, path), route);
      }
    }
  }

  lemma SameBesides(w: Wording, before: string, after: string, inserted: Route, route: Route)
    requires w.Valid() && InsertsOne(w, before, after, inserted) && route != inserted
    ensures Parsed(w, before).Some? && Parsed(w, after).Some?
    ensures route in Parsed(w, before).value <==> route in Parsed(w, after).value
  {
    hide Render;
    var a, b :| Canonical(a + b) && Canonical(a + [inserted] + b)
                && before == Render(w, a + b) && after == Render(w, a + [inserted] + b);
    ParsedAs(w, before, a + b);
    ParsedAs(w, after, a + [inserted] + b);
  }

  /** A publication that succeeds has put exactly one block into the old text, in port order; and it can be taken out
      again: the rollback then gives back the old text. */
  lemma {:induction false} ApplyThenRollback(w: Wording, s: Gateway, port: nat, view: View, later: View)
    requires w.Valid() && Apply(w, s, port, view).end.Ok? && later.ready && later.passes(0)
    ensures var t := Replay(Act, s, Apply(w, s, port, view).steps);
            && view.saved.Some? && InsertsOne(w, s.snippet, t.snippet, Route(port, view.saved.value))
            && Rollback(t, port, later).end == Ok(())
            && Replay(Act, t, Rollback(t, port, later).steps).snippet == s.snippet
  {
    hide InsertsOne, Inspect, Replay;
    ApplyIsOwn(w, s, port, view);
    var record := Prepare(w, s, port, view).value;
    ApplyReaches(w, s, port, view);
    var t := Replay(Act, s, Apply(w, s, port, view).steps);
    var close := PutRecord(port, t.journals[port].record.value.(state := RolledBack));
    assert Rollback(t, port, later).steps == [PutSnippet(record.before)] + [close];
    ReplayJoin(Act, t, [PutSnippet(record.before)], [close]);
    ReplayOne(Act, t, PutSnippet(record.before));
    ReplayOne(Act, Act(t, PutSnippet(record.before)), close);
  }

  lemma ApplyReaches(w: Wording, s: Gateway, port: nat, view: View)
    requires Apply(w, s, port, view).end.Ok?
    ensures var record := Prepare(w, s, port, view).value;
            Prepare(w, s, port, view).Ok? && Replay(Act, s, Apply(w, s, port, view).steps) ==
            Gateway(view.rendered, s.journals[port := Journal(Some(s.snippet), Some(record.(state := Committed)))])
  {
    hide Inspect, Replay;
    var record := Prepare(w, s, port, view).value;
    var a, b, c, d, e := MakeJournal(port), AddBackup(port, record.before), PutRecord(port, record),
        PutSnippet(record.after),
                         PutRecord(port, record.(state := Committed));
    assert Apply(w, s, port, view).steps == [a] + ([b] + ([c] + ([d] + [e])));
    ReplayJoin(Act, s, [a], [b] + ([c] + ([d] + [e])));
    ReplayOne(Act, s, a);
    var s1 := Act(s, a);
    ReplayJoin(Act, s1, [b], [c] + ([d] + [e]));
    ReplayOne(Act, s1, b);
    var s2 := Act(s1, b);
    ReplayJoin(Act, s2, [c], [d] + [e]);
    ReplayOne(Act, s2, c);
    var s3 := Act(s2, c);
    ReplayJoin(Act, s3, [d], [e]);
    ReplayOne(Act, s3, d);
    ReplayOne(Act, Act(s3, d), e);
  }
}
