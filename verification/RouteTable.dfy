/** The rendered route table, and the strict parser that accepts nothing but what the renderer writes. */
module RouteTable {
  import opened Durable
  import opened RoutePaths

  const NEW_LINE: char := '\n'

  /** The fixed wording of the template; the paths, the ports and the line ends come in between.  `Valid` says all
      that the parser relies on: no wording contains a line end, directives are indented by eight blanks, closing
      braces by less, and only the upstream directive starts like one. */
  datatype Wording = Wording(
    header: string, exact: string, brace: string, prefixed: string, slashBrace: string, close: string,
    target: string, semicolon: string, shared: seq<string>)
  {
    ghost predicate Valid() {
      && OneLine(header) && OneLine(exact) && OneLine(brace) && OneLine(prefixed) && OneLine(slashBrace)
      && OneLine(close) && OneLine(target) && OneLine(semicolon)
      && !Indented(close) && Indented(target)
      && (forall i :: 0 <= i < |shared| ==> OneLine(shared[i]) && Indented(shared[i]) && !StartsWith(shared[i], target))
    }
  }

  predicate OneLine(text: string) {
    NEW_LINE !in text
  }

  /** A directive inside a location: eight blanks and something behind them. */
  predicate Indented(line: string) {
    |line| > 8 && forall i :: 0 <= i < 8 ==> line[i] == ' '
  }

  /** A path as the parser reads it; the renderer's paths are stricter. */
  predicate PlainPath(path: string) {
    && |path| >= 2 && path[0] == '/' && forall i :: 0 <= i < |path| ==> path[i] == '/' || IsWordChar(path[i])
  }

  predicate Plain(route: Route) {
    1024 <= route.port <= 65535 && PlainPath(route.path)
  }

  predicate Increasing(routes: seq<Route>) {
    forall i, j :: 0 <= i < j < |routes| ==> routes[i].port < routes[j].port
  }

  predicate Canonical(routes: seq<Route>) {
    Increasing(routes) && forall i :: 0 <= i < |routes| ==> Plain(routes[i])
  }

  // ---------------------------------------------------------------- the renderer

  function Decimal(n: nat): (text: string)
    ensures AllDigits(text) && Number(text) == n
  {
    var last := ('0' as int + n % 10) as char;
    if n < 10 then
      assert [last][..0] == [];
      [last]
    else
      var text := Decimal(n / 10) + [last];
      assert text[..|text| - 1] == Decimal(n / 10);
      text
  }

  function TargetLine(w: Wording, port: nat): string {
    w.target + Decimal(port) + w.semicolon
  }

  function ExactLine(w: Wording, path: string): string {
    w.exact + path + w.brace
  }

  function PrefixLine(w: Wording, path: string): string {
    w.prefixed + path + w.slashBrace
  }

  function Section(w: Wording, port: nat): seq<string> {
    [TargetLine(w, port)] + w.shared
  }

  /** One route: the exact path and everything below it, both passed to the same port. */
  function Block(w: Wording, route: Route): seq<string> {
    [[], ExactLine(w, route.path)] + Section(w, route.port) + [w.close, [], PrefixLine(w, route.path)] +
    Section(w, route.port) + [w.close]
  }

  function Blocks(w: Wording, routes: seq<Route>): seq<string> {
    if routes == [] then [] else Block(w, routes[0]) + Blocks(w, routes[1..])
  }

  function Text(lines: seq<string>): string {
    if lines == [] then [] else lines[0] + [NEW_LINE] + Text(lines[1..])
  }

  function Render(w: Wording, routes: seq<Route>): string {
    Text([w.header] + Blocks(w, routes))
  }

  lemma {:induction false} TextJoin(a: seq<string>, b: seq<string>)
    ensures Text(a + b) == Text(a) + Text(b)
  {
    if a == [] {
      assert a + b == b;
    } else {
      TextJoin(a[1..], b);
      assert (a + b)[1..] == a[1..] + b;
    }
  }

  lemma {:induction false} BlocksJoin(w: Wording, a: seq<Route>, b: seq<Route>)
    ensures Blocks(w, a + b) == Blocks(w, a) + Blocks(w, b)
  {
    hide Block;
    if a == [] {
      assert a + b == b;
    } else {
      BlocksJoin(w, a[1..], b);
      assert (a + b)[1..] == a[1..] + b;
    }
  }

  /** Writes the table route by route. */
  method RenderTable(w: Wording, routes: seq<Route>) returns (text: string)
    ensures text == Render(w, routes)
  {
    hide Block;
    text := w.header + [NEW_LINE];
    assert [w.header] + Blocks(w, routes[..0]) == [w.header] && [w.header][1..] == [];
    assert Text([w.header]) == w.header + [NEW_LINE] + Text([]);
    for i := 0 to |routes|
      invariant text == Render(w, routes[..i])
    {
      text := text + Text(Block(w, routes[i]));
      BlocksJoin(w, routes[..i], [routes[i]]);
      TextJoin([w.header] + Blocks(w, routes[..i]), Block(w, routes[i]));
      assert routes[..i + 1] == routes[..i] + [routes[i]];
      assert [routes[i]][1..] == [];
      assert [w.header] + Blocks(w, routes[..i + 1]) == [w.header] + Blocks(w, routes[..i]) + Block(w, routes[i]);
    }
    assert routes[..|routes|] == routes;
  }

  // ---------------------------------------------------------------- lines

  /** The complete lines of a text, and what is left behind the last line end. */
  function Split(text: string): (seq<string>, string) {
    if text == [] then ([], [])
    else
      var (lines, rest) := Split(text[1..]);
      if text[0] == NEW_LINE then ([[]] + lines, rest)
      else if lines == [] then ([], [text[0]] + rest)
      else ([[text[0]] + lines[0]] + lines[1..], rest)
  }

  lemma {:induction false} SplitText(text: string)
    ensures Text(Split(text).0) + Split(text).1 == text
  {
    if text != [] {
      SplitText(text[1..]);
      var lines, rest := Split(text[1..]).0, Split(text[1..]).1;
      if text[0] == NEW_LINE {
        assert ([[]] + lines)[1..] == lines;
      } else if lines != [] {
        assert ([[text[0]] + lines[0]] + lines[1..])[1..] == lines[1..];
      }
      assert text == [text[0]] + text[1..];
    }
  }

  lemma {:induction false} SplitLine(line: string, rest: string)
    requires OneLine(line)
    ensures Split(line + [NEW_LINE] + rest) == ([line] + Split(rest).0, Split(rest).1)
  {
    var text := line + [NEW_LINE] + rest;
    if line == [] {
      assert text[1..] == rest && text[0] == NEW_LINE;
    } else {
      SplitLine(line[1..], rest);
      assert text[1..] == line[1..] + [NEW_LINE] + rest && text[0] == line[0] != NEW_LINE;
      assert [line[0]] + line[1..] == line;
      var tail := [line[1..]] + Split(rest).0;
      assert tail[0] == line[1..] && tail[1..] == Split(rest).0;
    }
  }

  lemma {:induction false} SplitOfText(lines: seq<string>)
    requires forall i :: 0 <= i < |lines| ==> OneLine(lines[i])
    ensures Split(Text(lines)) == (lines, [])
  {
    if lines != [] {
      SplitOfText(lines[1..]);
      SplitLine(lines[0], Text(lines[1..]));
      assert [lines[0]] + lines[1..] == lines;
    }
  }

  // ---------------------------------------------------------------- the parser

  function Stripped(line: string, start: string, end: string): Option<string> {
    if |start| + |end| <= |line| && line[..|start|] == start && line[|line| - |end|..] == end then
      Some(line[|start|..|line| - |end|])
    else None
  }

  lemma StrippedBack(start: string, middle: string, end: string)
    ensures Stripped(start + middle + end, start, end) == Some(middle)
  {
    var line := start + middle + end;
    assert line[..|start|] == start && line[|line| - |end|..] == end && line[|start|..|line| - |end|] == middle;
  }

  lemma StrippedForward(line: string, start: string, end: string)
    ensures Stripped(line, start, end).Some? ==> line == start + Stripped(line, start, end).value + end
  {
  }

  /** The port of an upstream directive. */
  function TargetOf(w: Wording, line: string): Option<nat> {
    match Stripped(line, w.target, w.semicolon)
    case None => None
    case Some(digits) => if AllDigits(digits) then Some(Number(digits)) else None
  }

  function Targets(w: Wording, section: seq<string>): seq<nat> {
    if section == [] then []
    else (if TargetOf(w, section[0]).Some? then [TargetOf(w, section[0]).value] else []) + Targets(w, section[1..])
  }

  lemma TargetLineIsRead(w: Wording, port: nat)
    ensures TargetOf(w, TargetLine(w, port)) == Some(port)
  {
    StrippedBack(w.target, Decimal(port), w.semicolon);
  }

  lemma {:induction false} NoTargets(w: Wording, lines: seq<string>)
    requires forall i :: 0 <= i < |lines| ==> !StartsWith(lines[i], w.target)
    ensures Targets(w, lines) == []
  {
    if lines != [] {
      NoTargets(w, lines[1..]);
    }
  }

  lemma SectionTargets(w: Wording, port: nat)
    requires w.Valid()
    ensures Targets(w, Section(w, port)) == [port]
  {
    hide TargetOf, TargetLine;
    TargetLineIsRead(w, port);
    NoTargets(w, w.shared);
    assert Section(w, port)[1..] == w.shared;
  }

  /** A section is accepted for its one port, if it is word for word the template's. */
  function ReadSection(w: Wording, section: seq<string>): Result<nat> {
    var targets := Targets(w, section);
    if |targets| != 1 then Fail(Hold(RouteUpstreamInvalid))
    else if !(1024 <= targets[0] <= 65535) then Fail(Hold(RoutePortInvalid))
    else if section != Section(w, targets[0]) then Fail(Hold(RouteTemplateDrift))
    else Ok(targets[0])
  }

  /** The end of the run of indented lines that starts at line i. */
  method RunOfIndented(lines: seq<string>, i: nat) returns (j: nat)
    requires i <= |lines|
    ensures i <= j <= |lines|
    ensures forall k :: i <= k < j ==> Indented(lines[k])
    ensures j < |lines| ==> !Indented(lines[j])
  {
    j := i;
    while j < |lines| && Indented(lines[j])
      invariant i <= j <= |lines|
      invariant forall k :: i <= k < j ==> Indented(lines[k])
    {
      j := j + 1;
    }
  }

  predicate LineIs(lines: seq<string>, i: nat, line: string) {
    i < |lines| && lines[i] == line
  }

  /** These lines stand at line i. */
  predicate Has(lines: seq<string>, i: nat, part: seq<string>) {
    i + |part| <= |lines| && lines[i..i + |part|] == part
  }

  lemma HasJoin(lines: seq<string>, i: nat, a: seq<string>, b: seq<string>)
    ensures Has(lines, i, a + b) <==> Has(lines, i, a) && Has(lines, i + |a|, b)
  {
    if i + |a| + |b| <= |lines| {
      var here := lines[i..i + |a + b|];
      assert here[..|a|] == lines[i..i + |a|] && here[|a|..] == lines[i + |a|..i + |a| + |b|];
      assert (a + b)[..|a|] == a && (a + b)[|a|..] == b;
      assert here == here[..|a|] + here[|a|..];
    }
  }

  lemma HasOne(lines: seq<string>, i: nat, line: string)
    ensures Has(lines, i, [line]) <==> LineIs(lines, i, line)
  {
  }

  predicate FirstHalf(w: Wording, lines: seq<string>, i: nat, route: Route) {
    && LineIs(lines, i, []) && LineIs(lines, i + 1, ExactLine(w, route.path))
    && Has(lines, i + 2, Section(w, route.port)) && LineIs(lines, i + |w.shared| + 3, w.close)
  }

  predicate SecondHalf(w: Wording, lines: seq<string>, i: nat, route: Route) {
    && LineIs(lines, i, []) && LineIs(lines, i + 1, PrefixLine(w, route.path))
    && Has(lines, i + 2, Section(w, route.port)) && LineIs(lines, i + |w.shared| + 3, w.close)
  }

  lemma BlockLayout(w: Wording, lines: seq<string>, i: nat, route: Route)
    ensures |Block(w, route)| == 2 * |w.shared| + 8
    ensures Has(lines, i, Block(w, route)) <==>
            FirstHalf(w, lines, i, route) && SecondHalf(w, lines, i + |w.shared| + 4, route)
  {
    hide Has, ExactLine, PrefixLine, Section;
    var e, p, s := ExactLine(w, route.path), PrefixLine(w, route.path), Section(w, route.port);
    assert |s| == |w.shared| + 1 by { SectionSize(w, route.port); }
    var first, second := [[]] + ([e] + (s + [w.close])), [[]] + ([p] + (s + [w.close]));
    assert Block(w, route) == first + second;
    HasJoin(lines, i, first, second);
    HalfLayout(w, lines, i, e, s);
    HalfLayout(w, lines, i + |w.shared| + 4, p, s);
  }

  lemma SectionSize(w: Wording, port: nat)
    ensures |Section(w, port)| == |w.shared| + 1
  {
  }

  lemma HalfLayout(w: Wording, lines: seq<string>, i: nat, title: string, section: seq<string>)
    requires |section| == |w.shared| + 1
    ensures Has(lines, i, [[]] + ([title] + (section + [w.close]))) <==>
            && LineIs(lines, i, []) && LineIs(lines, i + 1, title)
            && Has(lines, i + 2, section) && LineIs(lines, i + |w.shared| + 3, w.close)
  {
    hide Has;
    HasJoin(lines, i, [[]], [title] + (section + [w.close]));
    HasJoin(lines, i + 1, [title], section + [w.close]);
    HasJoin(lines, i + 2, section, [w.close]);
    HasOne(lines, i, []);
    HasOne(lines, i + 1, title);
    HasOne(lines, i + |w.shared| + 3, w.close);
  }

  // ---------------------------------------------------------------- one block

  /** Where the run of indented lines ends, a section that stands there ends. */
  lemma RunIsSection(w: Wording, lines: seq<string>, i: nat, port: nat, j: nat)
    requires w.Valid() && Has(lines, i, Section(w, port)) && LineIs(lines, i + |w.shared| + 1, w.close)
    requires i <= j <= |lines| && (forall k :: i <= k < j ==> Indented(lines[k]))
             && (j < |lines| ==> !Indented(lines[j]))
    ensures j == i + |w.shared| + 1
  {
    var section := Section(w, port);
    forall k | i <= k < i + |section| ensures Indented(lines[k]) {
      assert lines[k] == lines[i..i + |section|][k - i];
      if k > i { assert section[k - i] == w.shared[k - i - 1]; }
    }
  }

  /** One location: its opening line, its directives, its closing line.  Given the opening line expected, it answers
      the port, and where the location ends. */
  method MatchLocation(w: Wording, lines: seq<string>, i: nat, title: string) returns (r: Result<(nat, nat)>)
    requires w.Valid() && i <= |lines|
    ensures r.Ok? ==> var (port, next) := r.value;
              && next == i + |w.shared| + 4 && 1024 <= port <= 65535
              && LineIs(lines, i, []) && LineIs(lines, i + 1, title)
              && Has(lines, i + 2, Section(w, port)) && LineIs(lines, i + |w.shared| + 3, w.close)
    ensures r.Fail? ==> forall port :: 1024 <= port <= 65535 && LineIs(lines, i, []) && LineIs(lines, i + 1, title) ==>
              !Has(lines, i + 2, Section(w, port)) || !LineIs(lines, i + |w.shared| + 3, w.close)
  {
    hide Section, Targets;
    if !(LineIs(lines, i, []) && LineIs(lines, i + 1, title)) {
      return Fail(Hold(NonCanonicalRoute));
    }
    var j := RunOfIndented(lines, i + 2);
    forall port: nat | Has(lines, i + 2, Section(w, port)) && LineIs(lines, i + |w.shared| + 3, w.close)
      ensures j == i + |w.shared| + 3 && lines[i + 2..j] == Section(w, port) && Targets(w, Section(w, port)) == [port]
    {
      RunIsSection(w, lines, i + 2, port, j);
      SectionTargets(w, port);
      SectionSize(w, port);
    }
    if j == i + 2 || !LineIs(lines, j, w.close) {
      return Fail(Hold(NonCanonicalRoute));
    }
    var section := ReadSection(w, lines[i + 2..j]);
    if section.Fail? {
      return Fail(section.failure);
    }
    SectionSize(w, section.value);
    return Ok((section.value, j + 1));
  }

  /** One block: both locations, for one path and one port. */
  method MatchBlock(w: Wording, lines: seq<string>, i: nat) returns (r: Result<(Route, nat)>)
    requires w.Valid() && i <= |lines|
    ensures r.Ok? ==> Plain(r.value.0) && Has(lines, i, Block(w, r.value.0)) && r.value.1 == i + |Block(w, r.value.0)|
    ensures r.Fail? ==> forall route :: Plain(route) ==> !Has(lines, i, Block(w, route))
  {
    hide Has, Section, Block, PlainPath;
    forall route ensures |Block(w, route)| == 2 * |w.shared| + 8 &&
                         (Has(lines, i, Block(w, route)) <==>
                          FirstHalf(w, lines, i, route) && SecondHalf(w, lines, i + |w.shared| + 4, route)) {
      BlockLayout(w, lines, i, route);
    }
    if i + 1 >= |lines| {
      return Fail(Hold(NonCanonicalRoute));
    }
    var path := Stripped(lines[i + 1], w.exact, w.brace);
    StrippedForward(lines[i + 1], w.exact, w.brace);
    forall route: Route ensures Stripped(ExactLine(w, route.path), w.exact, w.brace) == Some(route.path) {
      StrippedBack(w.exact, route.path, w.brace);
    }
    if path.None? || !PlainPath(path.value) {
      return Fail(Hold(NonCanonicalRoute));
    }
    var first := MatchLocation(w, lines, i, ExactLine(w, path.value));
    if first.Fail? {
      return Fail(first.failure);
    }
    var (port, half) := first.value;
    var second := MatchLocation(w, lines, half, PrefixLine(w, path.value));
    if second.Fail? {
      return Fail(second.failure);
    }
    if second.value.0 != port {
      OnePort(w, lines, i + 2);
      OnePort(w, lines, half + 2);
      return Fail(Hold(RouteSplitUpstream));
    }
    return Ok((Route(port, path.value), second.value.1));
  }

  /** At most one port's section stands at a line. */
  lemma OnePort(w: Wording, lines: seq<string>, i: nat)
    requires w.Valid()
    ensures forall a, b :: Has(lines, i, Section(w, a)) && Has(lines, i, Section(w, b)) ==> a == b
  {
    forall a, b | Has(lines, i, Section(w, a)) && Has(lines, i, Section(w, b)) ensures a == b {
      SectionTargets(w, a);
      SectionTargets(w, b);
      SectionSize(w, a);
      SectionSize(w, b);
    }
  }

  // ---------------------------------------------------------------- the whole table

  predicate HasPort(routes: seq<Route>, port: nat) {
    exists i :: 0 <= i < |routes| && routes[i].port == port
  }

  /** These are the lines of the table of these routes. */
  ghost predicate Writes(w: Wording, all: seq<Route>, lines: seq<string>) {
    Canonical(all) && [w.header] + Blocks(w, all) == lines
  }

  /** Any table that these lines could be the rendering of starts with the routes read so far. */
  ghost predicate OnlyWay(w: Wording, lines: seq<string>, i: nat, routes: seq<Route>) {
    forall all :: Writes(w, all, lines) ==> Continues(w, lines, i, routes, all)
  }

  ghost predicate Continues(w: Wording, lines: seq<string>, i: nat, routes: seq<Route>, all: seq<Route>) {
    |routes| <= |all| && all[..|routes|] == routes && i <= |lines| && lines[i..] == Blocks(w, all[|routes|..])
  }

  /** Two blocks at the same place are the same. */
  lemma StartsOnce(w: Wording, lines: seq<string>, i: nat, a: Route, b: Route, rest: seq<string>)
    requires w.Valid() && i <= |lines| && Has(lines, i, Block(w, a)) && lines[i..] == Block(w, b) + rest
    ensures a == b && lines[i + |Block(w, a)|..] == rest
  {
    hide Block, Section;
    var n := |Block(w, b)|;
    assert lines[i..i + n] == lines[i..][..n] == Block(w, b);
    BlockLayout(w, lines, i, a);
    BlockLayout(w, lines, i, b);
    OnePort(w, lines, i + 2);
    StrippedBack(w.exact, a.path, w.brace);
    StrippedBack(w.exact, b.path, w.brace);
    assert lines[i + n..] == lines[i..][n..] == rest;
  }

  /** The next route of such a table has its block at the next line, and a new port. */
  lemma NextBlock(w: Wording, lines: seq<string>, i: nat, routes: seq<Route>, all: seq<Route>)
    requires Writes(w, all, lines) && Continues(w, lines, i, routes, all) && i < |lines|
    ensures |routes| < |all| && Has(lines, i, Block(w, all[|routes|]))
    ensures lines[i..] == Block(w, all[|routes|]) + Blocks(w, all[|routes| + 1..])
  {
    hide Block;
    var rest := all[|routes|..];
    assert rest != [];
    assert rest[1..] == all[|routes| + 1..];
    var n := |Block(w, rest[0])|;
    assert lines[i..i + n] == lines[i..][..n];
  }

  lemma OnlyWayFirst(w: Wording, lines: seq<string>)
    requires lines != [] && lines[0] == w.header
    ensures lines[..1] == [w.header] + Blocks(w, []) && OnlyWay(w, lines, 1, [])
  {
    forall all: seq<Route> | Writes(w, all, lines) ensures Continues(w, lines, 1, [], all) {
      assert all[0..] == all;
    }
  }

  lemma OnlyWayNext(w: Wording, lines: seq<string>, i: nat, routes: seq<Route>, route: Route)
    requires w.Valid() && OnlyWay(w, lines, i, routes) && i < |lines| && Has(lines, i, Block(w, route))
    ensures OnlyWay(w, lines, i + |Block(w, route)|, routes + [route])
  {
    hide Block, Blocks, Writes;
    forall all: seq<Route> | Writes(w, all, lines)
      ensures Continues(w, lines, i + |Block(w, route)|, routes + [route], all)
    {
      NextBlock(w, lines, i, routes, all);
      StartsOnce(w, lines, i, route, all[|routes|], Blocks(w, all[|routes| + 1..]));
    }
  }

  lemma OneMore(w: Wording, lines: seq<string>, i: nat, routes: seq<Route>, route: Route)
    requires i <= |lines| && lines[..i] == [w.header] + Blocks(w, routes) && Has(lines, i, Block(w, route))
    ensures lines[..i + |Block(w, route)|] == [w.header] + Blocks(w, routes + [route])
  {
    hide Block;
    var a, b := Blocks(w, routes), Block(w, route);
    assert Blocks(w, routes + [route]) == a + b by { BlocksAppend(w, routes, route); }
    hide Blocks;
    assert lines[..i + |b|] == lines[..i] + lines[i..i + |b|];
    assert ([w.header] + a) + b == [w.header] + (a + b);
  }

  lemma BlocksAppend(w: Wording, routes: seq<Route>, route: Route)
    ensures Blocks(w, routes + [route]) == Blocks(w, routes) + Block(w, route)
  {
    hide Block;
    BlocksJoin(w, routes, [route]);
    assert [route][1..] == [] && Block(w, route) + [] == Block(w, route);
  }

  lemma PrefixIncreases(all: seq<Route>, routes: seq<Route>)
    requires Increasing(all) && |routes| <= |all| && all[..|routes|] == routes
    ensures Increasing(routes)
  {
    assert forall i :: 0 <= i < |routes| ==> all[i] == routes[i];
  }

  /** No table has these lines if no route's block stands next, ... */
  lemma Stuck(w: Wording, lines: seq<string>, i: nat, routes: seq<Route>)
    requires OnlyWay(w, lines, i, routes) && i < |lines| && forall route :: Plain(route) ==>
             !Has(lines, i, Block(w, route))
    ensures forall all :: !Writes(w, all, lines)
  {
    hide Block, Blocks, Has;
    forall all: seq<Route> | Writes(w, all, lines) ensures false {
      NextBlock(w, lines, i, routes, all);
    }
  }

  /** ... or if a port comes twice, ... */
  lemma Twice(w: Wording, lines: seq<string>, i: nat, routes: seq<Route>, route: Route)
    requires OnlyWay(w, lines, i, routes + [route]) && HasPort(routes, route.port)
    ensures forall all :: !Writes(w, all, lines)
  {
    hide Blocks;
    var both := routes + [route];
    var k :| 0 <= k < |routes| && routes[k].port == route.port;
    assert both[k].port == both[|routes|].port;
    forall all: seq<Route> | Writes(w, all, lines) ensures false {
      PrefixIncreases(all, both);
    }
  }

  /** ... or if the ports are not in order. */
  lemma Unordered(w: Wording, lines: seq<string>, routes: seq<Route>)
    requires OnlyWay(w, lines, |lines|, routes) && !Increasing(routes)
    ensures forall all :: !Writes(w, all, lines)
  {
    hide Blocks;
    forall all: seq<Route> | Writes(w, all, lines) ensures false {
      PrefixIncreases(all, routes);
    }
  }

  /** The strict parser.  It accepts exactly the texts the renderer could have written, and answers the routes they were
      written from. */
  method ParseBlocks(w: Wording, text: string) returns (r: Result<seq<Route>>)
    requires w.Valid()
    ensures r.Ok? ==> Canonical(r.value) && text == Render(w, r.value)
    ensures r.Fail? ==> forall routes :: Canonical(routes) ==> text != Render(w, routes)
  {
    hide Block, Blocks, OnlyWay, Writes, Has, Split, Text, Plain;
    var (lines, rest) := Split(text);
    SplitText(text);
    OnlyTables(w, text);
    if lines == [] || lines[0] != w.header {
      return Fail(Hold(RouteHeaderInvalid));
    }
    var routes: seq<Route>, i := [], 1;
    OnlyWayFirst(w, lines);
    while i < |lines|
      invariant 1 <= i <= |lines| && lines[..i] == [w.header] + Blocks(w, routes)
      invariant forall k :: 0 <= k < |routes| ==> Plain(routes[k])
      invariant OnlyWay(w, lines, i, routes)
    {
      var block := MatchBlock(w, lines, i);
      if block.Fail? {
        Stuck(w, lines, i, routes);
        return Fail(block.failure);
      }
      var (route, next) := block.value;
      OnlyWayNext(w, lines, i, routes, route);
      if HasPort(routes, route.port) {
        Twice(w, lines, next, routes, route);
        return Fail(Hold(DuplicateRoutePort));
      }
      OneMore(w, lines, i, routes, route);
      BlockEnds(w, lines, i, route);
      routes, i := routes + [route], next;
    }
    if rest != [] {
      return Fail(Hold(NonCanonicalRoute));
    }
    assert lines[..i] == lines;
    if !Increasing(routes) {
      Unordered(w, lines, routes);
      return Fail(Hold(RouteOrderDrift));
    }
    return Ok(routes);
  }

  lemma BlockEnds(w: Wording, lines: seq<string>, i: nat, route: Route)
    requires Has(lines, i, Block(w, route))
    ensures i < i + |Block(w, route)| <= |lines|
  {
  }

  lemma OnlyTables(w: Wording, text: string)
    requires w.Valid()
    ensures forall routes :: Canonical(routes) && text == Render(w, routes) ==>
              Split(text).1 == [] && Split(text).0 != [] && Split(text).0[0] == w.header
                  && Writes(w, routes, Split(text).0)
  {
    hide Blocks, Split, Render;
    forall routes: seq<Route> | Canonical(routes) && text == Render(w, routes)
      ensures Split(text).1 == [] && Split(text).0 != [] && Split(text).0[0] == w.header
              && Writes(w, routes, Split(text).0)
    {
      RenderSplits(w, routes);
    }
  }

  // ---------------------------------------------------------------- printing and parsing are inverse

  lemma {:induction false} BlocksAreLines(w: Wording, routes: seq<Route>)
    requires w.Valid() && forall i :: 0 <= i < |routes| ==> Plain(routes[i])
    ensures forall line :: line in Blocks(w, routes) ==> OneLine(line)
  {
    if routes != [] {
      BlockIsLines(w, routes[0]);
      BlocksAreLines(w, routes[1..]);
    }
  }

  lemma BlockIsLines(w: Wording, route: Route)
    requires w.Valid() && Plain(route)
    ensures forall line :: line in Block(w, route) ==> OneLine(line)
  {
    assert OneLine(route.path) && OneLine(Decimal(route.port)) by {
      assert forall c :: IsWordChar(c) ==> c != NEW_LINE;
    }
    assert OneLine(ExactLine(w, route.path)) && OneLine(PrefixLine(w, route.path))
        && OneLine(TargetLine(w, route.port));
    forall line | line in Section(w, route.port) ensures OneLine(line) {
      if line != TargetLine(w, route.port) { assert line in w.shared; }
    }
  }

  lemma RenderSplits(w: Wording, routes: seq<Route>)
    requires w.Valid() && Canonical(routes)
    ensures Split(Render(w, routes)) == ([w.header] + Blocks(w, routes), [])
  {
    hide Blocks;
    BlocksAreLines(w, routes);
    SplitOfText([w.header] + Blocks(w, routes));
  }

  /** Different tables have different texts; so the parser gives back exactly what was rendered. */
  lemma {:induction false} RenderIsInjective(w: Wording, a: seq<Route>, b: seq<Route>)
    requires w.Valid() && Canonical(a) && Canonical(b) && Render(w, a) == Render(w, b)
    ensures a == b
  {
    RenderSplits(w, a);
    RenderSplits(w, b);
    assert ([w.header] + Blocks(w, a))[1..] == Blocks(w, a) && ([w.header] + Blocks(w, b))[1..] == Blocks(w, b);
    BlocksAreInjective(w, a, b);
  }

  lemma {:induction false} BlocksAreInjective(w: Wording, a: seq<Route>, b: seq<Route>)
    requires w.Valid() && Blocks(w, a) == Blocks(w, b)
    ensures a == b
    decreases a
  {
    hide Block;
    var lines := Blocks(w, a);
    if a != [] && b != [] {
      assert lines[0..] == Block(w, b[0]) + Blocks(w, b[1..]);
      assert lines[..|Block(w, a[0])|] == Block(w, a[0]);
      StartsOnce(w, lines, 0, a[0], b[0], Blocks(w, b[1..]));
      assert lines[|Block(w, a[0])|..] == Blocks(w, a[1..]);
      BlocksAreInjective(w, a[1..], b[1..]);
    } else {
      assert a != [] ==> |Blocks(w, a)| > 0 by { if a != [] { BlockLayout(w, [], 0, a[0]); } }
      assert b != [] ==> |Blocks(w, b)| > 0 by { if b != [] { BlockLayout(w, [], 0, b[0]); } }
    }
  }

  /** The routes a text is the rendering of. */
  ghost function Parsed(w: Wording, text: string): Option<seq<Route>> {
    if exists routes :: Canonical(routes) && text == Render(w, routes) then
      var routes :| Canonical(routes) && text == Render(w, routes);
      Some(routes)
    else None
  }

  /** Parsing what was rendered gives back the routes, for every set of routes the renderer can be given. */
  lemma {:induction false} ParseOfRender(w: Wording, reserved: set<string>, routes: seq<Route>)
    requires w.Valid() && Increasing(routes) && AllValid(reserved, routes)
    requires forall i :: 0 <= i < |routes| ==> ValidPort(routes[i].port)
    ensures Parsed(w, Render(w, routes)) == Some(routes)
  {
    hide Render;
    assert Canonical(routes);
    var parsed := Parsed(w, Render(w, routes)).value;
    RenderIsInjective(w, routes, parsed);
  }

  /** Rendering what was parsed gives back the text; so two texts with the same routes are the same text. */
  lemma RenderOfParse(w: Wording, text: string)
    ensures Parsed(w, text).Some? ==> Canonical(Parsed(w, text).value) && Render(w, Parsed(w, text).value) == text
  {
  }
}
