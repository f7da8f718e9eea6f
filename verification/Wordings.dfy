/** The program's own wording has the properties that the transformations of its texts rely on. */
module Wordings {
  import opened TextEdits
  import RP = RoutePaths
  import R = RouteTable
  import I = IncludeTransaction
  import A = AuthOverlay

  const LF: char := '\n'

  // ---------------------------------------------------------------- the route table

  const INDENT: string := "        "
  const TARGET: string := "proxy_pass http://127.0.0.1:"

  const DIRECTIVES: seq<string> := [
    "proxy_http_version 1.1;", "proxy_set_header Host $host;", "proxy_set_header X-Forwarded-Proto https;",
    "proxy_buffering off;", "proxy_request_buffering off;", "proxy_connect_timeout 10s;", "proxy_read_timeout 3600s;",
    "proxy_send_timeout 3600s;"]

  const TABLE: R.Wording := R.Wording(
    "# Managed by U-OPTI - Standard FRP XHTTP", "    location = ", " {", "    location ^~ ", "/ {", "    }",
    INDENT + TARGET, ";", seq(|DIRECTIVES|, i requires 0 <= i < |DIRECTIVES| => INDENT + DIRECTIVES[i]))

  /** A directive that does not go on like the upstream's. */
  predicate Ordinary(text: string) {
    |text| > 6 && text[6] != 'p' && LF !in text
  }

  lemma OrdinaryIsShared(text: string)
    requires Ordinary(text)
    ensures R.OneLine(INDENT + text) && R.Indented(INDENT + text) && !RP.StartsWith(INDENT + text, INDENT + TARGET)
  {
    assert (INDENT + text)[14] == text[6] && (INDENT + TARGET)[14] == TARGET[6] == 'p';
  }

  lemma DirectivesAreOrdinary(i: nat)
    requires i < |DIRECTIVES|
    ensures Ordinary(DIRECTIVES[i])
  {
    var text := DIRECTIVES[i];
    assert text[6] in "hsbrc";
  }

  lemma DirectivesAreShared(i: nat)
    requires i < |TABLE.shared|
    ensures R.OneLine(TABLE.shared[i]) && R.Indented(TABLE.shared[i])
            && !RP.StartsWith(TABLE.shared[i], INDENT + TARGET)
  {
    hide R.OneLine, R.Indented, RP.StartsWith, Ordinary;
    DirectivesAreOrdinary(i);
    OrdinaryIsShared(DIRECTIVES[i]);
  }

  lemma LinesAreWhole()
    ensures R.OneLine("# Managed by U-OPTI - Standard FRP XHTTP") && R.OneLine("    location = ") && R.OneLine(" {")
    ensures R.OneLine("    location ^~ ") && R.OneLine("/ {") && R.OneLine("    }") && R.OneLine(";")
            && R.OneLine(INDENT + TARGET)
  {
    HeaderIsWhole();
    TargetIsWhole();
  }

  lemma HeaderIsWhole()
    ensures R.OneLine("# Managed by U-OPTI - Standard FRP XHTTP")
  {
  }

  lemma TargetIsWhole()
    ensures R.OneLine(INDENT + TARGET)
  {
  }

  lemma TargetIsIndented()
    ensures R.Indented(INDENT + TARGET) && !R.Indented("    }")
  {
  }

  /** The wording of the route table. */
  lemma TableIsValid()
    ensures TABLE.Valid()
  {
    hide R.OneLine, R.Indented, RP.StartsWith;
    LinesAreWhole();
    TargetIsIndented();
    forall i | 0 <= i < |TABLE.shared|
      ensures R.OneLine(TABLE.shared[i]) && R.Indented(TABLE.shared[i]) && !RP.StartsWith(TABLE.shared[i], TABLE.target)
    {
      DirectivesAreShared(i);
    }
  }

  // ---------------------------------------------------------------- the include

  const NAME: string := "u-opti-smite-frp-xhttp.conf;"
  const DIRECTIVE: string := "    include /etc/nginx/" + NAME
  const ROOT: string := "    location / {"

  const INCLUDE: I.Words := I.Words(
    DIRECTIVE + [LF], ROOT + [LF], NAME, "# Managed by U-OPTI - Standard FRP XHTTP" + [LF])

  predicate Line(text: string) {
    text != [] && LF !in text
  }

  /** A line lies over a line with another last character, or the same line, in one place at most. */
  lemma LineOverItself(line: string)
    requires Line(line)
    ensures OnlyAt(line + [LF], line + [LF], 0)
  {
    var p := line + [LF];
    forall e | -|p| < e < |p| && e != 0 ensures Differs(p, p, e) {
      var k := if e < 0 then |p| - 1 else |p| - 1 - e;
      assert p[k] != p[e + k];
    }
  }

  /** Two lines with an empty one between them. */
  function Spaced(a: string, b: string): string {
    a + [LF] + [LF] + (b + [LF])
  }

  lemma LineEnds(a: string, b: string)
    requires Line(a) && Line(b)
    ensures var t := Spaced(a, b);
            && |t| == |a| + |b| + 3
            && (forall i :: 0 <= i < |t| ==> (t[i] == LF <==> i == |a| || i == |a| + 1 || i == |t| - 1))
            && t[|a| - 1] == a[|a| - 1] && t[|t| - 2] == b[|b| - 1] && t[|a| + 2..] == b + [LF]
  {
  }

  lemma LineOverSpaced(a: string, b: string)
    requires Line(a) && Line(b) && a[|a| - 1] != b[|b| - 1]
    ensures OnlyAt(b + [LF], Spaced(a, b), |a| + 2)
  {
    hide Spaced;
    LineEnds(a, b);
    var p, t := b + [LF], Spaced(a, b);
    forall e | -|p| < e < |t| && e != |a| + 2 ensures Differs(p, t, e) {
      var last := e + |b|;  // where the line end of the pattern lies
      var k := if last >= |t| then |t| - 1 - e else if last == |a| || last == |a| + 1 then |b| - 1 else |b|;
      assert p[k] != t[e + k];
    }
  }

  lemma SpacedOverItself(a: string, b: string)
    requires Line(a) && Line(b) && a[|a| - 1] != b[|b| - 1]
    ensures OnlyAt(Spaced(a, b), Spaced(a, b), 0)
  {
    hide Spaced;
    LineEnds(a, b);
    var t := Spaced(a, b);
    forall e | -|t| < e < |t| && e != 0 ensures Differs(t, t, e) {
      var n := if e > 0 then e else -e;
      var k := if |t| - 1 - n == |a| then |a| - 1 else if |t| - 1 - n == |a| + 1 then |a| else |t| - 1 - n;
      var j := if e > 0 then k else k + n;
      assert t[k] != t[n + k];
      assert t[j] != t[e + j];
    }
  }

  /** The include directive and the line in front of which it is written. */
  lemma IncludeIsValid()
    ensures INCLUDE.Valid()
  {
    IncludeLines();
    hide OnlyAt, Line;
    LineOverItself(ROOT);
    LineOverSpaced(DIRECTIVE, ROOT);
    SpacedOverItself(DIRECTIVE, ROOT);
    assert INCLUDE.Included() == Spaced(DIRECTIVE, ROOT);
  }

  lemma DirectiveIsLine()
    ensures Line(DIRECTIVE) && DIRECTIVE[|DIRECTIVE| - 1] == ';'
  {
    assert LF !in "    include /etc/nginx/" && LF !in NAME;
  }

  lemma IncludeLines()
    ensures Line(DIRECTIVE) && Line(ROOT) && DIRECTIVE[|DIRECTIVE| - 1] != ROOT[|ROOT| - 1]
    ensures INCLUDE.directive != [] && INCLUDE.root != [] && INCLUDE.name != []
  {
    DirectiveIsLine();
    assert ROOT[|ROOT| - 1] == '{';
  }

  // ---------------------------------------------------------------- the admin guard

  const HEAD: string := "app.include_router("
  const TAIL: string := ", dependencies=admin_only"

  /** A text without brackets of calls and line ends. */
  predicate Bare(text: string) {
    text != [] && '(' !in text && ')' !in text && LF !in text
  }

  function Call(argument: string): string {
    HEAD + argument + [')']
  }

  /** A call in a list, as the marker is one. */
  function Mark(name: string, argument: string): string {
    name + ['('] + argument + [')', ']']
  }

  function Guarded(name: string, argument: string, anchor: string): string {
    Mark(name, argument) + [LF] + Call(anchor)
  }

  lemma NeverBack(p: string, t: string)
    requires Never(p, t)
    ensures Never(t, p)
  {
    forall e | -|t| < e < |p| ensures Differs(t, p, e) {
      assert Differs(p, t, -e);
      var k :| 0 <= k < |p| && 0 <= -e + k < |t| && p[k] != t[-e + k];
      assert t[k - e] != p[e + (k - e)];
    }
  }

  lemma CallEnds(argument: string)
    requires Bare(argument)
    ensures var t := Call(argument);
            && |t| == |argument| + 20 && t[0] == 'a' && t[17] == 'r' && t[|t| - 2] == argument[|argument| - 1]
            && forall i :: 0 <= i < |t| ==>
                 t[i] != LF && (t[i] == '(' <==> i == 18) && (t[i] == ')' <==> i == |t| - 1)
  {
    assert HEAD[18] == '(' && forall i :: 0 <= i < 18 ==> HEAD[i] != '(' && HEAD[i] != ')' && HEAD[i] != LF;
  }

  lemma CallsApart(x: string, y: string)
    requires Bare(x) && Bare(y) && x != y
    ensures Never(Call(x), Call(y))
  {
    CallEnds(x);
    CallEnds(y);
    var p, t := Call(x), Call(y);
    forall e | -|p| < e < |t| ensures Differs(p, t, e) {
      if e == 0 {
        CallsDiffer(x, y);
      } else {
        CallShifted(x, y, e);
      }
    }
  }

  lemma CallsDiffer(x: string, y: string)
    requires Bare(x) && Bare(y) && x != y
    ensures Differs(Call(x), Call(y), 0)
  {
    CallEnds(x);
    CallEnds(y);
    var p, t := Call(x), Call(y);
    if |p| != |t| {
      var k := if |p| < |t| then |p| - 1 else |t| - 1;
      assert p[k] != t[0 + k];
    } else {
      var k :| 0 <= k < |x| && x[k] != y[k];
      assert p[19 + k] != t[0 + (19 + k)];
    }
  }

  /** Calls that do not begin at the same place. */
  lemma CallShifted(x: string, y: string, e: int)
    requires Bare(x) && Bare(y) && -|Call(x)| < e < |Call(y)| && e != 0
    ensures Differs(Call(x), Call(y), e)
  {
    CallEnds(x);
    CallEnds(y);
    hide Call;
    var p, t := Call(x), Call(y);
    var k := if e > 0 then (if e + 18 < |t| then 18 else |t| - 1 - e) else if 18 - e < |p| then 18 - e else |p| - 1;
    assert p[k] != t[e + k];
  }

  lemma CallOverItself(x: string)
    requires Bare(x)
    ensures OnlyAt(Call(x), Call(x), 0)
  {
    forall e | -|Call(x)| < e < |Call(x)| && e != 0 ensures Differs(Call(x), Call(x), e) {
      CallShifted(x, x, e);
    }
  }

  lemma LineOverCall(line: string, x: string)
    requires Bare(line) && Bare(x)
    ensures Never(line + [LF], Call(x))
  {
    CallEnds(x);
    hide Call;
    var p, t := line + [LF], Call(x);
    forall e | -|p| < e < |t| ensures Differs(p, t, e) {
      var k := if e + |line| < |t| then |line| else |t| - 1 - e;
      assert p[k] != t[e + k];
    }
  }

  lemma LinesApart(a: string, b: string)
    requires Line(a) && Line(b) && a[|a| - 1] != b[|b| - 1]
    ensures Never(a + [LF], b + [LF])
  {
    var p, t := a + [LF], b + [LF];
    forall e | -|p| < e < |t| ensures Differs(p, t, e) {
      var k := if e + |a| < |b| then |a| else if e + |a| == |b| then |a| - 1 else |b| - e;
      assert p[k] != t[e + k];
    }
  }

  /** The name and the argument of the marker. */
  predicate Marks(name: string, argument: string) {
    && Bare(name) && Bare(argument) && |name| == 21 && |argument| == 21 && ']' !in name && ']' !in argument
    && name[20] == 's' && argument[20] == 'r'
  }

  lemma MarkEnds(name: string, argument: string)
    requires Marks(name, argument)
    ensures var t := Mark(name, argument);
            && |t| == 45 && t[20] == 's' && t[42] == 'r'
            && forall i :: 0 <= i < |t| ==>
                 t[i] != LF && (t[i] == '(' <==> i == 21) && (t[i] == ')' <==> i == 43) && (t[i] == ']' <==> i == 44)
  {
  }

  lemma GuardedEnds(name: string, argument: string, x: string)
    requires Marks(name, argument) && Bare(x)
    ensures var t := Guarded(name, argument, x);
            && |t| == |x| + 66 && t[20] == 's' && t[42] == 'r' && t[44] == ']' && t[63] == 'r'
            && t[|t| - 2] == x[|x| - 1] && t[46..] == Call(x) && t[..45] == Mark(name, argument)
            && (forall i :: 0 <= i < |t| ==>
                  && (t[i] == LF <==> i == 45) && (t[i] == '(' <==> i == 21 || i == 64)
                  && (t[i] == ')' <==> i == 43 || i == |t| - 1))
            && (forall i :: 0 <= i < 44 ==> t[i] != ']')
  {
    MarkEnds(name, argument);
    CallEnds(x);
    hide Mark, Call;
  }

  lemma MarkOverItself(name: string, argument: string)
    requires Marks(name, argument)
    ensures OnlyAt(Mark(name, argument), Mark(name, argument), 0)
  {
    MarkEnds(name, argument);
    hide Mark;
    var t := Mark(name, argument);
    forall e | -|t| < e < |t| && e != 0 ensures Differs(t, t, e) {
      var k := if e > 0 then 44 - e else 44;
      assert t[k] != t[e + k];
    }
  }

  lemma MarkOverLine(name: string, argument: string, line: string)
    requires Marks(name, argument) && Bare(line) && ']' !in line
    ensures Never(Mark(name, argument), line + [LF])
  {
    MarkEnds(name, argument);
    hide Mark;
    var p, t := Mark(name, argument), line + [LF];
    forall e | -|p| < e < |t| ensures Differs(p, t, e) {
      var k := if |line| - e < |p| then |line| - e else 44;
      assert p[k] != t[e + k];
    }
  }

  lemma MarkOverCall(name: string, argument: string, x: string)
    requires Marks(name, argument) && Bare(x) && |x| >= 4
    ensures Never(Mark(name, argument), Call(x))
  {
    MarkEnds(name, argument);
    CallEnds(x);
    hide Mark, Call;
    var p, t := Mark(name, argument), Call(x);
    forall e | -|p| < e < |t| ensures Differs(p, t, e) {
      var k := if e == -3 then 20 else if e + 21 >= |t| then |t| - 1 - e else if e + 21 >= 0 then 21
               else if e == -44 then 44 else 43;
      assert p[k] != t[e + k];
    }
  }

  lemma MarkOverGuarded(name: string, argument: string, x: string)
    requires Marks(name, argument) && Bare(x)
    ensures OnlyAt(Mark(name, argument), Guarded(name, argument, x), 0)
  {
    MarkEnds(name, argument);
    GuardedEnds(name, argument, x);
    hide Mark, Call, Guarded;
    var p, t := Mark(name, argument), Guarded(name, argument, x);
    forall e | -|p| < e < |t| && e != 0 ensures Differs(p, t, e) {
      var k := if e == 43 then 20 else if e + 21 >= |t| then |t| - 1 - e else if e + 21 >= 0 then 21 else 44;
      assert p[k] != t[e + k];
    }
  }

  lemma GuardedOverItself(name: string, argument: string, x: string)
    requires Marks(name, argument) && Bare(x) && x[|x| - 1] != 'r'
    ensures OnlyAt(Guarded(name, argument, x), Guarded(name, argument, x), 0)
  {
    GuardedEnds(name, argument, x);
    hide Mark, Call, Guarded;
    var t := Guarded(name, argument, x);
    forall e | -|t| < e < |t| && e != 0 ensures Differs(t, t, e) {
      var n := if e > 0 then e else -e;
      var k := if n + 45 < |t| then 45 else if n == |t| - 44 then 42 else |t| - 1 - n;
      var j := if e > 0 then k else k + n;
      assert t[k] != t[n + k];
      assert t[j] != t[e + j];
    }
  }

  lemma LineOverGuarded(line: string, name: string, argument: string, x: string)
    requires Bare(line) && line[|line| - 1] != ']' && Marks(name, argument) && Bare(x)
    ensures Never(line + [LF], Guarded(name, argument, x))
  {
    GuardedEnds(name, argument, x);
    hide Mark, Call, Guarded;
    var p, t := line + [LF], Guarded(name, argument, x);
    forall e | -|p| < e < |t| ensures Differs(p, t, e) {
      var k := if e + |line| == 45 then |line| - 1 else if e + |line| < |t| then |line| else |t| - 1 - e;
      assert p[k] != t[e + k];
    }
  }

  /** A call lies over the guarded anchor only where it is the anchor. */
  lemma CallOverGuarded(x: string, name: string, argument: string, anchor: string, e: int)
    requires Marks(name, argument) && Bare(anchor) && Bare(x)
    requires -|Call(x)| < e < |Guarded(name, argument, anchor)| && (e == 46 ==> x != anchor)
    ensures Differs(Call(x), Guarded(name, argument, anchor), e)
  {
    CallEnds(x);
    GuardedEnds(name, argument, anchor);
    var p, t := Call(x), Guarded(name, argument, anchor);
    if e == 46 {
      CallsDiffer(x, anchor);
      hide Call, Guarded;
      var k :| 0 <= k < |p| && 0 <= 0 + k < |Call(anchor)| && p[k] != Call(anchor)[0 + k];
      assert p[k] != t[e + k];
    } else {
      hide Call, Guarded;
      var k := if e == 3 then 17 else if e + 18 >= |t| then |t| - 1 - e else if e + 18 >= 0 then 18
               else if 21 - e < |p| then 21 - e else |p| - 1;
      assert p[k] != t[e + k];
    }
  }

  lemma CallNeverGuarded(x: string, name: string, argument: string, anchor: string)
    requires Marks(name, argument) && Bare(anchor) && Bare(x) && x != anchor
    ensures Never(Call(x), Guarded(name, argument, anchor)) && Never(Guarded(name, argument, anchor), Call(x))
  {
    forall e | -|Call(x)| < e < |Guarded(name, argument, anchor)|
        ensures Differs(Call(x), Guarded(name, argument, anchor), e) {
      CallOverGuarded(x, name, argument, anchor, e);
    }
    NeverBack(Call(x), Guarded(name, argument, anchor));
  }

  lemma AnchorOverGuarded(name: string, argument: string, anchor: string)
    requires Marks(name, argument) && Bare(anchor)
    ensures OnlyAt(Call(anchor), Guarded(name, argument, anchor), 46)
  {
    var p, t := Call(anchor), Guarded(name, argument, anchor);
    forall e | -|p| < e < |t| && e != 46 ensures Differs(p, t, e) {
      CallOverGuarded(anchor, name, argument, anchor, e);
    }
    GuardedEnds(name, argument, anchor);
    hide Guarded, Call;
    assert t[46..46 + |p|] == t[46..];
  }

  /** Two import lines, the router of the authentication, and those that become guarded. */
  datatype Overlay = Overlay(
    before: string, after: string, name: string, argument: string, anchor: string, routers: seq<string>, guard: string)
  {
    function Words(): A.Words {
      A.Words(A.Edit(before + [LF], after + [LF]), Call(anchor), Mark(name, argument), guard,
              seq(|routers|, i requires 0 <= i < |routers| => A.Edit(Call(routers[i]), Call(routers[i] + TAIL))))
    }

    predicate Fits() {
      && Bare(before) && Bare(after) && before[|before| - 1] == 'n' && after[|after| - 1] == 's'
      && ']' !in before && ']' !in after
      && Marks(name, argument) && guard != [] && |guard| <= |name| && name[..|guard|] == guard
      && Bare(anchor) && anchor[0] == 'a' && anchor[|anchor| - 1] == ']'
      && routers != []
      && (forall i :: 0 <= i < |routers| ==> Routed(routers[i]))
      && (forall i, j :: 0 <= i < j < |routers| ==> routers[i][0] != routers[j][0])
    }
  }

  /** A router that is not guarded, and not the anchor's. */
  predicate Routed(router: string) {
    Bare(router) && |router| >= 4 && router[0] != 'a' && router[|router| - 1] != 'y'
  }

  lemma TailIsBare(router: string)
    requires Bare(router)
    ensures Bare(router + TAIL) && (router + TAIL)[|router + TAIL| - 1] == 'y' && (router + TAIL)[0] == router[0]
  {
    assert TAIL[|TAIL| - 1] == 'y' && Bare(TAIL);
    assert (router + TAIL)[|router + TAIL| - 1] == TAIL[|TAIL| - 1];
  }

  /** The edit of a router. */
  function Routing(router: string): A.Edit {
    A.Edit(Call(router), Call(router + TAIL))
  }

  predicate Apart(e: A.Edit, f: A.Edit) {
    Never(e.before, f.before) && Never(e.before, f.after) && Never(e.after, f.before) && Never(e.after, f.after)
  }

  lemma ApartBack(e: A.Edit, f: A.Edit)
    requires Apart(e, f)
    ensures Apart(f, e)
  {
    hide Never;
    NeverBack(e.before, f.before);
    NeverBack(e.before, f.after);
    NeverBack(e.after, f.before);
    NeverBack(e.after, f.after);
  }

  /** An edit that is apart from itself where it has to be, and from the marker. */
  predicate Proper(e: A.Edit, marker: string) {
    && e.before != [] && e.after != [] && OnlyAt(e.before, e.before, 0) && OnlyAt(e.after, e.after, 0)
    && Never(e.before, e.after) && Never(marker, e.before) && Never(marker, e.after)
  }

  lemma RoutingIsProper(o: Overlay, router: string)
    requires o.Fits() && Routed(router)
    ensures Proper(Routing(router), Mark(o.name, o.argument))
  {
    TailIsBare(router);
    hide Never, OnlyAt, Bare, Marks, Mark;
    CallOverItself(router);
    CallOverItself(router + TAIL);
    CallsApart(router, router + TAIL);
    MarkOverCall(o.name, o.argument, router);
    MarkOverCall(o.name, o.argument, router + TAIL);
  }

  lemma ImportIsProper(o: Overlay)
    requires o.Fits()
    ensures Proper(o.Words().importLine, Mark(o.name, o.argument))
  {
    assert Line(o.before) && Line(o.after);
    hide Never, OnlyAt, Marks, Mark, Routed;
    LineOverItself(o.before);
    LineOverItself(o.after);
    LinesApart(o.before, o.after);
    MarkOverLine(o.name, o.argument, o.before);
    MarkOverLine(o.name, o.argument, o.after);
  }

  lemma RoutingsApart(x: string, y: string)
    requires Routed(x) && Routed(y) && x[0] != y[0]
    ensures Apart(Routing(x), Routing(y))
  {
    TailIsBare(x);
    TailIsBare(y);
    hide Never, Bare, Call;
    CallsApart(x, y);
    CallsApart(x, y + TAIL);
    CallsApart(x + TAIL, y);
    CallsApart(x + TAIL, y + TAIL);
  }

  lemma ImportApart(o: Overlay, router: string)
    requires o.Fits() && Routed(router)
    ensures Apart(o.Words().importLine, Routing(router))
  {
    TailIsBare(router);
    hide Never, Bare, Call, Marks;
    LineOverCall(o.before, router);
    LineOverCall(o.before, router + TAIL);
    LineOverCall(o.after, router);
    LineOverCall(o.after, router + TAIL);
  }

  lemma ImportApartFromAnchor(o: Overlay)
    requires o.Fits()
    ensures Apart(o.Words().importLine, A.Edit(Call(o.anchor), Guarded(o.name, o.argument, o.anchor)))
  {
    hide Never, Call, Marks, Guarded, Routed;
    LineOverCall(o.before, o.anchor);
    LineOverCall(o.after, o.anchor);
    LineOverGuarded(o.before, o.name, o.argument, o.anchor);
    LineOverGuarded(o.after, o.name, o.argument, o.anchor);
  }

  lemma AnchorApart(o: Overlay, router: string)
    requires o.Fits() && Routed(router)
    ensures Apart(A.Edit(Call(o.anchor), Guarded(o.name, o.argument, o.anchor)), Routing(router))
  {
    TailIsBare(router);
    hide Never, Bare, Call, Marks, Guarded;
    CallsApart(o.anchor, router);
    CallsApart(o.anchor, router + TAIL);
    CallNeverGuarded(router, o.name, o.argument, o.anchor);
    CallNeverGuarded(router + TAIL, o.name, o.argument, o.anchor);
  }

  lemma EditsApart(o: Overlay, i: nat, j: nat)
    requires o.Fits() && i < j < |o.Words().Edits()|
    ensures Apart(o.Words().Edits()[i], o.Words().Edits()[j]) && Apart(o.Words().Edits()[j], o.Words().Edits()[i])
  {
    hide Apart, Call, Mark, Bare, Marks;
    var edits := o.Words().Edits();
    assert edits[1] == A.Edit(Call(o.anchor), Guarded(o.name, o.argument, o.anchor));
    if i >= 2 {
      assert edits[i] == Routing(o.routers[i - 2]) && edits[j] == Routing(o.routers[j - 2]);
      RoutingsApart(o.routers[i - 2], o.routers[j - 2]);
    } else if j >= 2 {
      assert edits[j] == Routing(o.routers[j - 2]);
      ImportApart(o, o.routers[j - 2]);
      AnchorApart(o, o.routers[j - 2]);
    } else {
      ImportApartFromAnchor(o);
    }
    ApartBack(edits[i], edits[j]);
  }

  lemma EditIsProper(o: Overlay, i: nat)
    requires o.Fits() && i < |o.Words().Edits()| && i != 1
    ensures Proper(o.Words().Edits()[i], o.Words().marker)
  {
    hide Proper, Call, Mark, Bare, Marks;
    if i >= 2 {
      assert o.Words().Edits()[i] == Routing(o.routers[i - 2]);
      RoutingIsProper(o, o.routers[i - 2]);
    } else {
      ImportIsProper(o);
    }
  }

  lemma FitsIsValid(o: Overlay)
    requires o.Fits()
    ensures o.Words().Valid()
  {
    hide Never, OnlyAt, Call, Mark, Bare;
    var w := o.Words();
    var edits := w.Edits();
    assert w.Guarded() == Guarded(o.name, o.argument, o.anchor);
    assert edits[1] == A.Edit(Call(o.anchor), w.Guarded());
    assert |w.marker| == 45 by { MarkEnds(o.name, o.argument); }
    assert Call(o.anchor) != [] && w.marker != [] by { CallEnds(o.anchor); }
    CallOverItself(o.anchor);
    GuardedOverItself(o.name, o.argument, o.anchor);
    AnchorOverGuarded(o.name, o.argument, o.anchor);
    MarkOverGuarded(o.name, o.argument, o.anchor);
    MarkOverItself(o.name, o.argument);
    assert Contains(w.marker, w.guard) by { GuardStands(o); }
    hide Marks, Routed, Guarded;
    forall i | 0 <= i < |edits| && i != 1 ensures Proper(edits[i], w.marker) {
      EditIsProper(o, i);
    }
    forall i, j | 0 <= i < |edits| && 0 <= j < |edits| && i != j ensures Apart(edits[i], edits[j]) {
      EditsApart(o, if i < j then i else j, if i < j then j else i);
    }
  }

  lemma GuardStands(o: Overlay)
    requires o.Fits()
    ensures Contains(o.Words().marker, o.guard)
  {
    assert Mark(o.name, o.argument)[..|o.guard|] == o.name[..|o.guard|];
    assert Occurs(o.Words().marker, o.guard, 0);
  }

  /** The argument of a router with a prefix and a tag. */
  function Prefixed(name: string, path: string): string {
    name + ".router, prefix=\"/api/" + path + "\", tags=[\"" + path + "\"]"
  }

  const TUNNELS: string := Prefixed("tunnels", "tunnels")
  const LOGS: string := Prefixed("logs", "logs")
  const HEALTH: string := Prefixed("core_health", "core-health")
  const SETTINGS: string := "settings_router.router"

  const GUARD: Overlay := Overlay(
    IMPORT, IMPORT + ", Depends",
    "admin_only" + " = [Depends", "auth.get" + "_current_user", Prefixed("auth", "auth"),
        [TUNNELS, LOGS, HEALTH, SETTINGS],
    "admin_only")

  lemma PrefixedIsBare(name: string, path: string)
    requires Bare(name) && Bare(path)
    ensures var text := Prefixed(name, path);
            Bare(text) && |text| >= 4 && text[0] == name[0] && text[|text| - 1] == ']'
  {
    var middle, end := ".router, prefix=\"/api/", "\", tags=[\"";
    assert Bare(middle) && Bare(end);
    assert Prefixed(name, path) == name + middle + path + end + path + "\"]";
  }

  /** Joined texts are without these characters if both are. */
  lemma BareJoin(a: string, b: string)
    requires Bare(a) && Bare(b)
    ensures Bare(a + b) && (a + b)[0] == a[0] && (a + b)[|a + b| - 1] == b[|b| - 1]
    ensures ']' !in a && ']' !in b ==> ']' !in a + b
  {
  }

  lemma PrefixedIsRouted(name: string, path: string)
    requires Bare(name) && Bare(path) && name[0] != 'a'
    ensures Routed(Prefixed(name, path)) && Prefixed(name, path)[0] == name[0]
  {
    PrefixedIsBare(name, path);
    hide Prefixed, Bare;
  }

  lemma NamesAreBare()
    ensures Bare("tunnels") && Bare("logs") && Bare("core_health") && Bare("core-health") && Bare("auth")
  {
  }

  lemma SettingsAreRouted()
    ensures Routed(SETTINGS) && SETTINGS[0] == 's'
  {
  }

  lemma RoutersAreRouted()
    ensures Routed(TUNNELS) && TUNNELS[0] == 't' && Routed(LOGS) && LOGS[0] == 'l'
    ensures Routed(HEALTH) && HEALTH[0] == 'c' && Routed(SETTINGS) && SETTINGS[0] == 's'
  {
    hide Prefixed, Bare, Routed;
    NamesAreBare();
    PrefixedIsRouted("tunnels", "tunnels");
    PrefixedIsRouted("logs", "logs");
    PrefixedIsRouted("core_health", "core-health");
    SettingsAreRouted();
  }

  lemma AnchorIsBare()
    ensures Bare(GUARD.anchor) && GUARD.anchor[0] == 'a' && GUARD.anchor[|GUARD.anchor| - 1] == ']'
  {
    PrefixedIsBare("auth", "auth");
    hide Prefixed;
  }

  const IMPORT: string := "from fastapi import " + "FastAPI, HTTPException"

  lemma ImportIsBare()
    ensures Bare(IMPORT) && ']' !in IMPORT && IMPORT[|IMPORT| - 1] == 'n'
  {
    hide Bare;
    ImportBegins();
    ImportEnds();
    BareJoin("from fastapi import ", "FastAPI, HTTPException");
  }

  lemma ImportBegins()
    ensures Bare("from fastapi import ") && ']' !in "from fastapi import "
  {
  }

  lemma ImportEnds()
    ensures Bare("FastAPI, HTTPException") && ']' !in "FastAPI, HTTPException"
    ensures |"FastAPI, HTTPException"| == 22 && "FastAPI, HTTPException"[21] == 'n'
  {
  }

  lemma DependsIsBare()
    ensures Bare(", Depends") && ']' !in ", Depends" && ", Depends"[8] == 's'
  {
  }

  lemma ImportsAreBare()
    ensures Bare(GUARD.before) && ']' !in GUARD.before && GUARD.before[|GUARD.before| - 1] == 'n'
    ensures Bare(GUARD.after) && ']' !in GUARD.after && GUARD.after[|GUARD.after| - 1] == 's'
  {
    hide Bare;
    ImportIsBare();
    DependsIsBare();
    BareJoin(IMPORT, ", Depends");
  }

  lemma ArgumentFits()
    ensures Bare(GUARD.argument) && |GUARD.argument| == 21 && ']' !in GUARD.argument && GUARD.argument[20] == 'r'
  {
    var first, second := "auth.get", "_current_user";
    assert Bare(first) && ']' !in first && |first| == 8;
    assert Bare(second) && ']' !in second && |second| == 13 && second[12] == 'r';
    hide Bare;
    BareJoin(first, second);
  }

  lemma EndOfName()
    ensures Bare(" = [Depends") && ']' !in " = [Depends" && |" = [Depends"| == 11 && " = [Depends"[10] == 's'
  {
  }

  lemma NameFits()
    ensures Bare(GUARD.name) && |GUARD.name| == 21 && ']' !in GUARD.name && GUARD.name[20] == 's'
    ensures GUARD.name[..|GUARD.guard|] == GUARD.guard && 0 < |GUARD.guard| <= |GUARD.name|
  {
    var first, second := "admin_only", " = [Depends";
    assert Bare(first) && ']' !in first;
    EndOfName();
    hide Bare;
    BareJoin(first, second);
  }

  lemma MarkerFits()
    ensures Marks(GUARD.name, GUARD.argument) && GUARD.guard != []
    ensures |GUARD.guard| <= |GUARD.name| && GUARD.name[..|GUARD.guard|] == GUARD.guard
  {
    hide Bare;
    ArgumentFits();
    NameFits();
  }

  /** The wording of the admin guard. */
  lemma OverlayIsValid()
    ensures GUARD.Words().Valid()
  {
    assert GUARD.Fits() by {
      RoutersAreRouted();
      AnchorIsBare();
      ImportsAreBare();
      MarkerFits();
      hide Routed, Bare, Marks, Prefixed;
      assert GUARD.routers == [TUNNELS, LOGS, HEALTH, SETTINGS];
    }
    FitsIsValid(GUARD);
  }
}
