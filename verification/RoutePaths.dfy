/** The paths under which forwarded ports are reachable, and the check that no two of them compete for a request. */
module RoutePaths {
  import opened Durable

  datatype Route = Route(port: nat, path: string)

  const PORT_DENY: set<nat> := {443, 7000, 8000, 8443, 8888}

  predicate ValidPort(port: nat) {
    1024 <= port <= 65535 && port !in PORT_DENY
  }

  predicate IsDigit(c: char) {
    '0' <= c <= '9'
  }

  predicate IsWordChar(c: char) {
    'A' <= c <= 'Z' || 'a' <= c <= 'z' || IsDigit(c) || c == '_' || c == '-'
  }

  predicate AllDigits(text: string) {
    text != [] && forall i :: 0 <= i < |text| ==> IsDigit(text[i])
  }

  function Digit(c: char): (n: nat)
    requires IsDigit(c)
    ensures n < 10 && n == c as int - '0' as int
  {
    c as int - '0' as int
  }

  function Number(text: string): nat
    requires forall i :: 0 <= i < |text| ==> IsDigit(text[i])
  {
    if text == [] then 0 else 10 * Number(text[..|text| - 1]) + Digit(text[|text| - 1])
  }

  /** Segments of word characters, each behind one slash, none of them empty. */
  predicate IsPath(path: string) {
    && |path| >= 2 && path[0] == '/' && path[|path| - 1] != '/'
    && (forall i :: 0 <= i < |path| ==> path[i] == '/' || IsWordChar(path[i]))
    && (forall i :: 0 <= i < |path| - 1 ==> path[i] != '/' || path[i + 1] != '/')
  }

  /** The text before the first slash. */
  function Segment(text: string): (s: string)
    ensures |s| <= |text| && s == text[..|s|]
    ensures forall i :: 0 <= i < |s| ==> s[i] != '/'
    ensures |s| < |text| ==> text[|s|] == '/'
  {
    if text == [] || text[0] == '/' then [] else [text[0]] + Segment(text[1..])
  }

  /** `reserved` holds the first segments that belong to the gateway itself. */
  predicate ValidPath(reserved: set<string>, path: string, port: nat) {
    && |path| <= 128 && IsPath(path)
    && var first := Segment(path[1..]);
    && first !in reserved
    && (AllDigits(first) ==> Number(first) == port)
  }

  predicate StartsWith(text: string, start: string) {
    |start| <= |text| && text[..|start|] == start
  }

  predicate Overlaps(a: string, b: string) {
    a == b || StartsWith(a, b + ['/']) || StartsWith(b, a + ['/'])
  }

  function StripSlashes(text: string): string {
    if text != [] && text[|text| - 1] == '/' then StripSlashes(text[..|text| - 1]) else text
  }

  /** Any two different entries are apart. */
  ghost predicate Apart(paths: seq<Route>) {
    forall i, j :: 0 <= i < j < |paths| ==> !Overlaps(paths[i].path, paths[j].path)
  }

  ghost predicate AllValid(reserved: set<string>, paths: seq<Route>) {
    forall i :: 0 <= i < |paths| ==> ValidPath(reserved, paths[i].path, paths[i].port)
  }

  ghost predicate ClearOf(paths: seq<Route>, external: seq<string>) {
    forall i, j :: 0 <= i < |paths| && 0 <= j < |external| ==> !Overlaps(paths[i].path, StripSlashes(external[j]))
  }

  lemma OverlapsBothWays()
    ensures forall a, b :: Overlaps(a, b) == Overlaps(b, a)
  {
  }

  method CompetesWith(path: string, occupied: seq<string>) returns (found: bool)
    ensures found <==> exists i :: 0 <= i < |occupied| && Overlaps(path, occupied[i])
  {
    for i := 0 to |occupied|
      invariant forall j :: 0 <= j < i ==> !Overlaps(path, occupied[j])
    {
      if Overlaps(path, occupied[i]) {
        return true;
      }
    }
    return false;
  }

  method IsClearOf(paths: seq<Route>, external: seq<string>) returns (clear: bool)
    ensures clear <==> ClearOf(paths, external)
  {
    for j := 0 to |external|
      invariant forall k :: 0 <= k < j ==> ClearOfOne(paths, external[k])
    {
      for i := 0 to |paths|
        invariant forall k :: 0 <= k < i ==> !Overlaps(paths[k].path, StripSlashes(external[j]))
      {
        if Overlaps(paths[i].path, StripSlashes(external[j])) {
          return false;
        }
      }
    }
    return true;
  }

  predicate ClearOfOne(paths: seq<Route>, external: string) {
    forall i :: 0 <= i < |paths| ==> !Overlaps(paths[i].path, StripSlashes(external))
  }

  /** The incremental check, in the order of the ports.  It accepts exactly the sets of valid paths of which no two
      overlap and none overlaps a location of the installed sidecar. */
  method ValidatePathSet(reserved: set<string>, paths: seq<Route>, external: seq<string>) returns (r: Result<()>)
    ensures r.Ok? <==> AllValid(reserved, paths) && Apart(paths) && ClearOf(paths, external)
    ensures r.Fail? ==> r.failure in {Hold(RoutePathInvalid), Hold(RoutePathsOverlap), Hold(RouteOverlapsSidecar)}
  {
    hide ValidPath, Overlaps;
    OverlapsBothWays();
    var occupied: seq<string> := [];
    for i := 0 to |paths|
      invariant |occupied| == i && forall j :: 0 <= j < i ==> occupied[j] == paths[j].path
      invariant AllValid(reserved, paths[..i]) && Apart(paths[..i])
    {
      if !ValidPath(reserved, paths[i].path, paths[i].port) {
        return Fail(Hold(RoutePathInvalid));
      }
      var competes := CompetesWith(paths[i].path, occupied);
      if competes {
        return Fail(Hold(RoutePathsOverlap));
      }
      occupied := occupied + [paths[i].path];
    }
    assert paths[..|paths|] == paths;
    var clear := IsClearOf(paths, external);
    return if clear then Ok(()) else Fail(Hold(RouteOverlapsSidecar));
  }

  /** What is left of a sidecar's location is the part in front of its last slashes. */
  lemma {:induction false} StripsExactly(text: string, bare: string)
    ensures StripSlashes(text) == bare <==>
            && |bare| <= |text| && text[..|bare|] == bare && (bare != [] ==> bare[|bare| - 1] != '/')
            && forall i :: |bare| <= i < |text| ==> text[i] == '/'
    decreases |text|
  {
    if text != [] && text[|text| - 1] == '/' {
      var shorter := text[..|text| - 1];
      StripsExactly(shorter, bare);
      if |bare| < |text| {
        assert shorter[..|bare|] == text[..|bare|];
      }
      assert bare == text ==> bare[|bare| - 1] == '/';
      assert forall i :: |bare| <= i < |shorter| ==> shorter[i] == text[i];
    } else if text != [] {
      assert |bare| < |text| ==> text[|text| - 1] != '/';
      assert text[..|text|] == text;
    }
  }

  // ---------------------------------------------------------------- who answers a request

  /** The request falls under `location = path` or `location ^~ path/`. */
  predicate Owns(path: string, uri: string) {
    uri == path || StartsWith(uri, path + ['/'])
  }

  /** Two paths overlap exactly when some request falls under both. */
  lemma {:induction false} OverlapIsSharing(a: string, b: string)
    ensures Overlaps(a, b) <==> exists uri :: Owns(a, uri) && Owns(b, uri)
  {
    if Overlaps(a, b) {
      var uri := if StartsWith(b, a + ['/']) then b else a;
      assert Owns(a, uri) && Owns(b, uri);
    }
    forall uri | Owns(a, uri) && Owns(b, uri) ensures Overlaps(a, b) {
      SharedStart(a, b, uri);
    }
  }

  lemma SharedStart(a: string, b: string, uri: string)
    requires Owns(a, uri) && Owns(b, uri)
    ensures Overlaps(a, b)
  {
    if |a| == |b| {
      assert a == uri[..|a|] == b;
    } else if |a| < |b| {
      assert b == uri[..|b|] && a + ['/'] == uri[..|a| + 1];
      assert uri[..|b|][..|a| + 1] == uri[..|a| + 1];
      assert StartsWith(b, a + ['/']);
    } else {
      assert a == uri[..|a|] && b + ['/'] == uri[..|b| + 1];
      assert uri[..|a|][..|b| + 1] == uri[..|b| + 1];
      assert StartsWith(a, b + ['/']);
    }
  }

  /** The accepted sets are exactly those in which every request has at most one owner. */
  lemma {:induction false} UniqueOwnerExactly(paths: seq<Route>)
    ensures Apart(paths) <==>
            forall i, j, uri ::
              (0 <= i < |paths| && 0 <= j < |paths| && Owns(paths[i].path, uri) && Owns(paths[j].path, uri)) ==> i == j
  {
    if Apart(paths) {
      forall i, j, uri | 0 <= i < |paths| && 0 <= j < |paths| && Owns(paths[i].path, uri) && Owns(paths[j].path, uri)
        ensures i == j
      {
        OverlapIsSharing(paths[i].path, paths[j].path);
        OverlapIsSharing(paths[j].path, paths[i].path);
      }
    } else {
      var i, j :| 0 <= i < j < |paths| && Overlaps(paths[i].path, paths[j].path);
      OverlapIsSharing(paths[i].path, paths[j].path);
      var uri :| Owns(paths[i].path, uri) && Owns(paths[j].path, uri);
    }
  }

  // ---------------------------------------------------------------- the grammar of a path

  /** The segments, each behind a slash. */
  function Slashed(segments: seq<string>): string {
    if segments == [] then [] else ['/'] + segments[0] + Slashed(segments[1..])
  }

  /** Letters, digits, underscores and hyphens, at least one. */
  predicate IsWord(text: string) {
    text != [] && forall i :: 0 <= i < |text| ==>
        'a' <= text[i] <= 'z' || 'A' <= text[i] <= 'Z' || '0' <= text[i] <= '9' || text[i] in {'_', '-'}
  }

  predicate AreWords(segments: seq<string>) {
    segments != [] && forall i :: 0 <= i < |segments| ==> IsWord(segments[i])
  }

  lemma {:induction false} FirstSegment(word: string, rest: string)
    requires '/' !in word && (rest != [] ==> rest[0] == '/')
    ensures Segment(word + rest) == word
  {
    if word == [] {
      assert word + rest == rest;
    } else {
      assert (word + rest)[1..] == word[1..] + rest;
      FirstSegment(word[1..], rest);
    }
  }

  lemma WordChars(word: string)
    ensures IsWord(word) <==> word != [] && forall i :: 0 <= i < |word| ==> IsWordChar(word[i])
  {
  }

  lemma NoSlash(word: string)
    requires IsWord(word)
    ensures '/' !in word
  {
    WordChars(word);
    hide IsWord;
  }

  /** A word behind a slash, alone or in front of a path, is a path. */
  lemma LongerPath(word: string, rest: string)
    requires IsWord(word) && (rest != [] ==> IsPath(rest))
    ensures IsPath(['/'] + word + rest)
  {
    hide IsWord;
    WordChars(word);
    var path := ['/'] + word + rest;
    forall i | 0 <= i < |path| ensures path[i] == '/' || IsWordChar(path[i]) {
      if 1 <= i < 1 + |word| { assert path[i] == word[i - 1]; }
      if i >= 1 + |word| { assert path[i] == rest[i - 1 - |word|]; }
    }
    forall i | 0 <= i < |path| - 1 ensures path[i] != '/' || path[i + 1] != '/' {
      if i < |word| { assert path[i + 1] == word[i]; }
      else if i == |word| { assert path[i] == word[i - 1]; }
      else { assert path[i] == rest[i - 1 - |word|] && path[i + 1] == rest[i - |word|]; }
    }
    assert path[|path| - 1] == if rest == [] then word[|word| - 1] else rest[|rest| - 1];
  }

  lemma PathStart(path: string)
    requires IsPath(path)
    ensures path != [] && path[0] == '/'
  {
  }

  lemma SlashedOnce(segments: seq<string>)
    requires segments != []
    ensures Slashed(segments) == ['/'] + segments[0] + Slashed(segments[1..])
    ensures segments[1..] == [] ==> Slashed(segments[1..]) == []
  {
  }

  lemma {:induction false} SlashedIsPath(segments: seq<string>)
    requires AreWords(segments)
    ensures IsPath(Slashed(segments)) && Segment(Slashed(segments)[1..]) == segments[0]
    decreases segments
  {
    hide IsPath, IsWord, Slashed, Segment;
    var word, rest := segments[0], Slashed(segments[1..]);
    NoSlash(word);
    if segments[1..] != [] {
      SlashedIsPath(segments[1..]);
      PathStart(rest);
    }
    SlashedOnce(segments);
    LongerPath(word, rest);
    FirstSegment(word, rest);
    assert Slashed(segments)[1..] == word + rest;
  }

  lemma {:induction false} PathIsSlashed(path: string) returns (segments: seq<string>)
    requires IsPath(path)
    ensures AreWords(segments) && path == Slashed(segments) && Segment(path[1..]) == segments[0]
    decreases |path|
  {
    var word := Segment(path[1..]);
    var rest := path[1 + |word|..];
    assert path[0] == '/' && path[1..][0] == path[1] != '/';
    forall i | 0 <= i < |word| ensures IsWordChar(word[i]) {
      assert word[i] == path[1..][i] == path[i + 1];
    }
    WordChars(word);
    assert path == ['/'] + word + rest;
    if rest == [] {
      segments := [word];
      assert Slashed([word]) == ['/'] + word + Slashed([word][1..]);
    } else {
      RestIsPath(path, word, rest);
      var others := PathIsSlashed(rest);
      segments := [word] + others;
      assert segments[1..] == others;
    }
  }

  lemma RestIsPath(path: string, word: string, rest: string)
    requires IsPath(path) && word == Segment(path[1..]) && rest == path[1 + |word|..] && rest != []
    ensures IsPath(rest)
  {
    var n := 1 + |word|;
    assert rest[0] == path[1..][|word|] == '/';
    assert rest[|rest| - 1] == path[|path| - 1];
    assert |rest| >= 2;
    forall i | 0 <= i < |rest| ensures rest[i] == '/' || IsWordChar(rest[i]) {
      assert rest[i] == path[n + i];
    }
    forall i | 0 <= i < |rest| - 1 ensures rest[i] != '/' || rest[i + 1] != '/' {
      assert rest[i] == path[n + i] && rest[i + 1] == path[n + i + 1];
    }
  }

  /** A path is valid for a port exactly if it has at most 128 characters and consists of words, each behind one
      slash, of which the first is not reserved and, if it is a number, is the port's. */
  lemma {:induction false} ValidExactly(reserved: set<string>, path: string, port: nat)
    ensures ValidPath(reserved, path, port) <==>
            && |path| <= 128
            && exists segments ::
                 && AreWords(segments) && path == Slashed(segments) && segments[0] !in reserved
                 && (AllDigits(segments[0]) ==> Number(segments[0]) == port)
  {
    if ValidPath(reserved, path, port) {
      var segments := PathIsSlashed(path);
    }
    forall segments | AreWords(segments) && path == Slashed(segments)
        ensures IsPath(path) && Segment(path[1..]) == segments[0] {
      SlashedIsPath(segments);
    }
  }
}
