/** Which requests the lines of a rendered table serve, and where they are passed to. */
module RouteServing {
  import opened RoutePaths
  import opened RouteTable
  import Wordings

  /** What the location lines of a wording rely on: the two kinds of location differ, they look like no other line,
      and a prefix location ends its argument with a slash. */
  predicate Told(w: Wording) {
    && |w.exact| > 13 && w.exact[4] == 'l' && w.exact[13] == '='
    && |w.prefixed| > 13 && w.prefixed[4] == 'l' && w.prefixed[13] == '^'
    && w.slashBrace == ['/'] + w.brace && |w.close| <= 5 && (|w.header| > 4 ==> w.header[4] != 'l')
  }

  /** A location with `=` serves the request that is its argument; one with `^~` those that begin with it. */
  ghost predicate Serves(w: Wording, line: string, uri: string) {
    || line == w.exact + uri + w.brace
    || exists p :: line == w.prefixed + p + w.brace && StartsWith(uri, p)
  }

  lemma Cancel(a: string, p: string, q: string, b: string)
    requires a + p + b == a + q + b
    ensures p == q
  {
    var s, t := a + p + b, a + q + b;
    assert |p| == |q|;
    assert p == s[|a|..|a| + |p|] && q == t[|a|..|a| + |q|];
  }

  lemma ExactServes(w: Wording, path: string, uri: string)
    requires Told(w)
    ensures Serves(w, ExactLine(w, path), uri) <==> uri == path
  {
    var line := ExactLine(w, path);
    assert line[13] == '=';
    forall p ensures line != w.prefixed + p + w.brace {
      assert (w.prefixed + p + w.brace)[13] == '^';
    }
    if line == w.exact + uri + w.brace {
      Cancel(w.exact, uri, path, w.brace);
    }
  }

  lemma PrefixServes(w: Wording, path: string, uri: string)
    requires Told(w)
    ensures Serves(w, PrefixLine(w, path), uri) <==> StartsWith(uri, path + ['/'])
  {
    var line := PrefixLine(w, path);
    assert line == w.prefixed + (path + ['/']) + w.brace;
    assert line[13] == '^';
    assert line != w.exact + uri + w.brace by {
      assert (w.exact + uri + w.brace)[13] == '=';
    }
    forall p | line == w.prefixed + p + w.brace ensures p == path + ['/'] {
      Cancel(w.prefixed, p, path + ['/'], w.brace);
    }
  }

  /** A line that is short, or has something else where a location has its name, serves nothing. */
  lemma ServesNothing(w: Wording, line: string, uri: string)
    requires Told(w) && (|line| > 5 ==> line[4] != 'l')
    ensures !Serves(w, line, uri)
  {
    assert line != w.exact + uri + w.brace by {
      assert (w.exact + uri + w.brace)[4] == 'l';
    }
    forall p ensures line != w.prefixed + p + w.brace {
      assert (w.prefixed + p + w.brace)[4] == 'l';
    }
  }

  lemma SectionServesNothing(w: Wording, port: nat, i: nat, uri: string)
    requires w.Valid() && Told(w) && i < |Section(w, port)|
    ensures !Serves(w, Section(w, port)[i], uri)
  {
    hide Serves;
    var line := Section(w, port)[i];
    assert line[4] == ' ' by {
      if i == 0 {
        assert line[4] == w.target[4];
      } else {
        assert Indented(w.shared[i - 1]);
      }
    }
    ServesNothing(w, line, uri);
  }

  /** The lines of one block, one by one. */
  lemma BlockAt(w: Wording, route: Route, i: nat)
    requires i < |Block(w, route)|
    ensures var n, b := |w.shared|, Block(w, route);
            && |b| == 2 * n + 8
            && (i == 0 || i == n + 4 ==> b[i] == [])
            && (i == 1 ==> b[i] == ExactLine(w, route.path) && b[i + 1] == TargetLine(w, route.port))
            && (i == n + 5 ==> b[i] == PrefixLine(w, route.path) && b[i + 1] == TargetLine(w, route.port))
            && (i == n + 3 || i == 2 * n + 7 ==> b[i] == w.close)
            && (2 <= i < n + 3 ==> i - 2 < |Section(w, route.port)| && b[i] == Section(w, route.port)[i - 2])
            && (n + 6 <= i < 2 * n + 7 ==>
                i - (n + 6) < |Section(w, route.port)| && b[i] == Section(w, route.port)[i - (n + 6)])
  {
    hide ExactLine, PrefixLine, TargetLine;
  }

  lemma BlockLine(w: Wording, route: Route, i: nat, uri: string)
    requires w.Valid() && Told(w) && i < |Block(w, route)|
    ensures Serves(w, Block(w, route)[i], uri) <==>
            (i == 1 && uri == route.path) || (i == |w.shared| + 5 && StartsWith(uri, route.path + ['/']))
  {
    hide Block, Serves, ExactLine, PrefixLine, Section, TargetLine;
    BlockAt(w, route, i);
    var n, line := |w.shared|, Block(w, route)[i];
    if i == 1 {
      ExactServes(w, route.path, uri);
    } else if i == n + 5 {
      PrefixServes(w, route.path, uri);
    } else if 2 <= i < n + 3 {
      SectionServesNothing(w, route.port, i - 2, uri);
    } else if n + 6 <= i < 2 * n + 7 {
      SectionServesNothing(w, route.port, i - (n + 6), uri);
    } else {
      ServesNothing(w, line, uri);
    }
  }

  /** A block serves exactly the requests that its route owns, and passes each to the route's port. */
  lemma {:induction false} BlockServes(w: Wording, route: Route, uri: string)
    requires w.Valid() && Told(w)
    ensures (exists i :: 0 <= i < |Block(w, route)| && Serves(w, Block(w, route)[i], uri)) <==> Owns(route.path, uri)
    ensures forall i :: 0 <= i < |Block(w, route)| && Serves(w, Block(w, route)[i], uri) ==>
              i + 1 < |Block(w, route)| && Block(w, route)[i + 1] == TargetLine(w, route.port)
  {
    hide Serves, TargetLine, ExactLine, PrefixLine, Section;
    forall i | 0 <= i < |Block(w, route)|
      ensures Serves(w, Block(w, route)[i], uri) <==>
              (i == 1 && uri == route.path) || (i == |w.shared| + 5 && StartsWith(uri, route.path + ['/']))
      ensures Serves(w, Block(w, route)[i], uri) ==>
                i + 1 < |Block(w, route)| && Block(w, route)[i + 1] == TargetLine(w, route.port)
    {
      BlockLine(w, route, i, uri);
      BlockAt(w, route, i);
    }
    BlockAt(w, route, 0);
    hide Block;
    if Owns(route.path, uri) {
      var i := if uri == route.path then 1 else |w.shared| + 5;
      assert Serves(w, Block(w, route)[i], uri);
    }
  }

  /** A line of the table that serves a request belongs to a route that owns it. */
  lemma {:induction false} LineServes(w: Wording, routes: seq<Route>, uri: string, i: nat) returns (k: nat)
    requires w.Valid() && Told(w) && i < |Blocks(w, routes)| && Serves(w, Blocks(w, routes)[i], uri)
    ensures k < |routes| && Owns(routes[k].path, uri)
    ensures i + 1 < |Blocks(w, routes)| && Blocks(w, routes)[i + 1] == TargetLine(w, routes[k].port)
    decreases routes
  {
    hide Serves, TargetLine, Block;
    var n := |Block(w, routes[0])|;
    if i < n {
      k := 0;
      BlockServes(w, routes[0], uri);
      assert Block(w, routes[0])[i] == Blocks(w, routes)[i];
    } else {
      assert Blocks(w, routes)[i] == Blocks(w, routes[1..])[i - n];
      k := LineServes(w, routes[1..], uri, i - n);
      k := k + 1;
    }
  }

  /** A request that a route owns is served by some line. */
  lemma {:induction false} OwnerServes(w: Wording, routes: seq<Route>, uri: string, k: nat) returns (i: nat)
    requires w.Valid() && Told(w) && k < |routes| && Owns(routes[k].path, uri)
    ensures i < |Blocks(w, routes)| && Serves(w, Blocks(w, routes)[i], uri)
    decreases routes
  {
    hide Serves, TargetLine, Block;
    var n := |Block(w, routes[0])|;
    if k == 0 {
      BlockServes(w, routes[0], uri);
      i :| 0 <= i < n && Serves(w, Block(w, routes[0])[i], uri);
      assert Block(w, routes[0])[i] == Blocks(w, routes)[i];
    } else {
      i := OwnerServes(w, routes[1..], uri, k - 1);
      assert Blocks(w, routes)[n + i] == Blocks(w, routes[1..])[i];
      i := n + i;
    }
  }

  /** In the rendered table of routes that are pairwise apart: some line serves a request exactly if some route owns
      it; there is only one such route, and every line that serves the request is followed by the directive that
      passes it to that route's port. */
  lemma {:induction false} TableServes(w: Wording, routes: seq<Route>, uri: string)
    requires w.Valid() && Told(w) && Apart(routes)
    ensures var lines := [w.header] + Blocks(w, routes);
            && Render(w, routes) == Text(lines)
            && ((exists i :: 0 <= i < |lines| && Serves(w, lines[i], uri)) <==>
                (exists k :: 0 <= k < |routes| && Owns(routes[k].path, uri)))
            && forall i, k ::
                 (0 <= i < |lines| && 0 <= k < |routes| && Serves(w, lines[i], uri) && Owns(routes[k].path, uri)) ==>
                   i + 1 < |lines| && lines[i + 1] == w.target + Decimal(routes[k].port) + w.semicolon
  {
    hide Serves, Blocks, Owns, Apart;
    var lines := [w.header] + Blocks(w, routes);
    ServesNothing(w, w.header, uri);
    UniqueOwnerExactly(routes);
    forall i | 0 <= i < |lines| && Serves(w, lines[i], uri)
      ensures exists k :: 0 <= k < |routes| && Owns(routes[k].path, uri)
    {
      var k := LineServes(w, routes, uri, i - 1);
    }
    forall i, k | 0 <= i < |lines| && 0 <= k < |routes| && Serves(w, lines[i], uri) && Owns(routes[k].path, uri)
      ensures i + 1 < |lines| && lines[i + 1] == w.target + Decimal(routes[k].port) + w.semicolon
    {
      var owner := LineServes(w, routes, uri, i - 1);
      assert owner == k;
      assert lines[i + 1] == Blocks(w, routes)[i];
    }
    forall k | 0 <= k < |routes| && Owns(routes[k].path, uri)
      ensures exists i :: 0 <= i < |lines| && Serves(w, lines[i], uri)
    {
      var i := OwnerServes(w, routes, uri, k);
      assert lines[i + 1] == Blocks(w, routes)[i];
    }
  }

  /** The program's own wording is of this kind. */
  lemma TableIsTold()
    ensures Told(Wordings.TABLE) && Wordings.TABLE.Valid()
  {
    Wordings.TableIsValid();
    var w := Wordings.TABLE;
    assert w.exact == "    location = " && w.prefixed == "    location ^~ ";
    assert w.header[4] == 'n';
  }
}
