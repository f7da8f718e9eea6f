/** The pure planner of the paired change: the engine manifest gains Backhaul, and the FRP
    receipt, which pins the hash of the whole manifest, is rebound to the new bytes. */
module PairPlanner {
  import opened Durable
  import opened Host

  const ENGINES := {Backhaul, Frp, Gost, Rathole, Chisel}

  type Fields = map<Key, Json>

  predicate AllDigests(fields: Fields) {
    forall k :: k in fields ==> IsShaText(fields[k])
  }

  predicate EngineEntry(name: Key, item: Json) {
    && item.Obj?
    && item.fields.Keys == (if name == Frp then {Sha256, ServerSha256} else {Sha256})
    && AllDigests(item.fields)
  }

  predicate EnginesTrusted(engines: Fields) {
    engines.Keys <= ENGINES && forall name :: name in engines ==> EngineEntry(name, engines[name])
  }

  /** The engines of a manifest snapshot, if the snapshot is in the one trusted form. */
  function ParseManifest(w: World, raw: Bytes): Result<Fields> {
    var doc := LoadJson(w, raw);
    if |raw| == 0 || |raw| > 8192 || doc.Fail? then
      Fail(Hold(EngineSnapshotUntrusted))
    else if doc.value.Keys != {Schema, Engines} || doc.value[Schema] != Int(1) || !doc.value[Engines].Obj? then
      Fail(Hold(EngineSnapshotUntrusted))
    else if !EnginesTrusted(doc.value[Engines].fields) then
      Fail(Hold(EngineSnapshotUntrusted))
    else
      Ok(doc.value[Engines].fields)
  }

  predicate IsRole(role: Word) {
    role == Ir || role == Foreign
  }

  predicate ReceiptTrusted(doc: Fields, role: Word) {
    && doc.Keys == {Schema, Role, State, Old, New, Binaries}
    && doc[Schema] == Int(1)
    && doc[State] == Text(Committed)
    && doc[Role] == Text(role)
    && IsShaText(doc[New])
    && (doc[Old] == Null || IsShaText(doc[Old]))
    && doc[Binaries].Obj?
    && doc[Binaries].fields.Keys == {Frpc, Frps}
    && AllDigests(doc[Binaries].fields)
  }

  function BackhaulEntry(sha: string): Json {
    Obj(map[Sha256 := Digest(sha)])
  }

  function FrpEntry(doc: Fields): Json
    requires Binaries in doc && doc[Binaries].Obj? && {Frpc, Frps} <= doc[Binaries].fields.Keys
  {
    Obj(map[Sha256 := doc[Binaries].fields[Frpc], ServerSha256 := doc[Binaries].fields[Frps]])
  }

  function ManifestText(w: World, engines: Fields): Bytes {
    w.pretty(Obj(map[Schema := Int(1), Engines := Obj(engines)])) + [NEW_LINE]
  }

  function WithBackhaul(engines: Fields, sha: string): Fields {
    engines[Backhaul := BackhaulEntry(sha)]
  }

  /** The receipt's fields, pinning another manifest. */
  function Rebound(w: World, doc: Fields, manifest: Bytes): Fields {
    doc[New := Digest(w.sha(manifest))]
  }

  function Plan(w: World, manifest: Bytes, receipt: Fields, sha: string, role: Word): Result<Bytes> {
    if !IsRole(role) then
      Fail(Hold(EngineRoleUntrusted))
    else if !IsSha(sha) then
      Fail(Hold(BackhaulBinaryDigestUntrusted))
    else match ParseManifest(w, manifest)
      case Fail(failure) => Fail(failure)
      case Ok(engines) =>
        var candidate := ManifestText(w, WithBackhaul(engines, sha));
        if Backhaul in engines then
          Fail(Hold(BackhaulEnrolledOrUnreviewed))
        else if Frp !in engines then
          Fail(Hold(FrpEnrollmentRequired))
        else if !ReceiptTrusted(receipt, role) then
          Fail(Hold(FrpReceiptUntrusted))
        else if receipt[New] != Digest(w.sha(manifest)) then
          Fail(Hold(FrpReceiptManifestMismatch))
        else if engines[Frp] != FrpEntry(receipt) then
          Fail(Hold(FrpReceiptBinaryMismatch))
        else if |candidate| > 8192 then
          Fail(Hold(EngineCandidateOversized))
        else if w.sha(candidate) == w.sha(manifest) then
          Fail(Hold(EngineCandidateNotChanged))
        else
          Ok(candidate)
  }

  /** The only permitted change of the pair, recomputed from the original bytes. */
  function Transition(w: World, manifest: Bytes, receipt: Bytes, sha: string, role: Word): Result<(Bytes, Bytes)> {
    match LoadJson(w, receipt)
    case Fail(failure) => Fail(failure)
    case Ok(doc) =>
      match Plan(w, manifest, doc, sha, role)
      case Fail(_) => Fail(Hold(PairBaselineUntrusted))
      case Ok(next) =>
        var rebound := w.Line(Obj(Rebound(w, doc, next)));
        if |rebound| == 0 || |rebound| > 8192 then Fail(Hold(PairReceiptOversized))
        else Ok((next, rebound))
  }

  /** A manifest with these engines and a receipt with these fields vouch for each other. */
  ghost predicate Bound(w: World, manifest: Bytes, engines: Fields, receipt: Bytes, doc: Fields, role: Word) {
    && ParseManifest(w, manifest) == Ok(engines)
    && LoadJson(w, receipt) == Ok(doc)
    && Frp in engines
    && ReceiptTrusted(doc, role)
    && doc[New] == Digest(w.sha(manifest))
    && engines[Frp] == FrpEntry(doc)
  }

  lemma ManifestTextParses(w: World, engines: Fields)
    requires w.Valid() && EnginesTrusted(engines) && |ManifestText(w, engines)| <= 8192
    ensures ParseManifest(w, ManifestText(w, engines)) == Ok(engines) && |ManifestText(w, engines)| > 0
  {
    ManifestIsCanonical(engines);
    hide Canonical, EnginesTrusted;
    var fields := map[Schema := Int(1), Engines := Obj(engines)];
    TextParses(w, fields);
    assert fields.Keys == {Schema, Engines};
  }

  lemma TextParses(w: World, fields: Fields)
    requires w.Valid() && Canonical(Obj(fields))
    ensures LoadJson(w, w.pretty(Obj(fields)) + [NEW_LINE]) == Ok(fields)
  {
    hide Canonical;
    assert w.parse(w.pretty(Obj(fields)) + [NEW_LINE]) == Some(Obj(fields));
  }

  lemma ManifestIsCanonical(engines: Fields)
    requires EnginesTrusted(engines)
    ensures Canonical(Obj(map[Schema := Int(1), Engines := Obj(engines)]))
  {
    hide EnginesTrusted, Canonical;
    EnginesAreCanonical(engines);
    assert Canonical(Int(1)) by { NumberIsCanonical(1); }
    ObjectIsCanonical(map[Schema := Int(1), Engines := Obj(engines)]);
  }

  lemma EnginesAreCanonical(engines: Fields)
    requires EnginesTrusted(engines)
    ensures Canonical(Obj(engines))
  {
    hide Canonical, EngineEntry;
    forall name | name in engines ensures !name.Other? && Canonical(engines[name]) {
      EntryIsCanonical(name, engines[name]);
    }
    ObjectIsCanonical(engines);
  }

  lemma EntryIsCanonical(name: Key, item: Json)
    requires EngineEntry(name, item)
    ensures Canonical(item)
  {
  }

  lemma ReceiptIsCanonical(doc: Fields, role: Word)
    requires ReceiptTrusted(doc, role) && IsRole(role)
    ensures Canonical(Obj(doc))
  {
    assert Canonical(doc[Binaries]) by { DigestsAreCanonical(doc[Binaries].fields); }
    forall k | k in doc && k != Binaries ensures !k.Other? && Canonical(doc[k]) {
    }
    hide Canonical, ReceiptTrusted;
    ObjectIsCanonical(doc);
  }

  lemma DigestsAreCanonical(fields: Fields)
    requires fields.Keys == {Frpc, Frps} && AllDigests(fields)
    ensures Canonical(Obj(fields))
  {
  }

  lemma LineParses(w: World, doc: Fields)
    requires w.Valid() && Canonical(Obj(doc))
    ensures LoadJson(w, w.Line(Obj(doc))) == Ok(doc)
  {
    assert w.parse(w.Line(Obj(doc))) == Some(Obj(doc));
  }

  lemma AddedEngineTrusted(engines: Fields, sha: string)
    requires EnginesTrusted(engines) && IsSha(sha)
    ensures EnginesTrusted(WithBackhaul(engines, sha))
  {
    assert EngineEntry(Backhaul, BackhaulEntry(sha));
  }

  lemma ReboundReceiptTrusted(doc: Fields, role: Word, sha: string)
    requires ReceiptTrusted(doc, role) && IsSha(sha)
    ensures ReceiptTrusted(doc[New := Digest(sha)], role)
    ensures FrpEntry(doc[New := Digest(sha)]) == FrpEntry(doc)
  {
  }

  /** What the planner has found when it accepts. */
  lemma PlanFacts(w: World, manifest: Bytes, doc: Fields, sha: string, role: Word, next: Bytes)
      returns (engines: Fields)
    requires Plan(w, manifest, doc, sha, role) == Ok(next)
    ensures IsRole(role) && IsSha(sha)
    ensures ParseManifest(w, manifest) == Ok(engines) && EnginesTrusted(engines)
    ensures Backhaul !in engines && Frp in engines
    ensures ReceiptTrusted(doc, role) && doc[New] == Digest(w.sha(manifest)) && engines[Frp] == FrpEntry(doc)
    ensures next == ManifestText(w, WithBackhaul(engines, sha))
    ensures |next| <= 8192 && w.sha(next) != w.sha(manifest)
  {
    engines := ParseManifest(w, manifest).value;
  }

  lemma TransitionFrom(w: World, manifest: Bytes, receipt: Bytes, sha: string, role: Word, next: (Bytes, Bytes))
    returns (engines: Fields, doc: Fields)
    requires Transition(w, manifest, receipt, sha, role) == Ok(next)
    ensures LoadJson(w, receipt) == Ok(doc) && Plan(w, manifest, doc, sha, role) == Ok(next.0)
    ensures next.1 == w.Line(Obj(Rebound(w, doc, next.0))) && 0 < |next.1| <= 8192
    ensures IsRole(role) && IsSha(sha) && Backhaul !in engines
    ensures Bound(w, manifest, engines, receipt, doc, role)
  {
    doc := LoadJson(w, receipt).value;
    engines := PlanFacts(w, manifest, doc, sha, role, next.0);
  }

  lemma TransitionTo(w: World, manifest: Bytes, engines: Fields, receipt: Bytes, doc: Fields, sha: string, role: Word,
                     next: (Bytes, Bytes))
    requires w.Valid()
    requires Bound(w, manifest, engines, receipt, doc, role)
    requires Plan(w, manifest, doc, sha, role) == Ok(next.0) && next.1 == w.Line(Obj(Rebound(w, doc, next.0)))
    ensures Bound(w, next.0, WithBackhaul(engines, sha), next.1, Rebound(w, doc, next.0), role)
    ensures 0 < |next.0| <= 8192 && w.sha(next.0) != w.sha(manifest)
  {
    hide Plan, ParseManifest, LoadJson, EnginesTrusted, ManifestText, IsShaText, AllDigests, Canonical, World.Valid;
    var engines' := PlanFacts(w, manifest, doc, sha, role, next.0);
    AddedEngineTrusted(engines, sha);
    ManifestTextParses(w, WithBackhaul(engines, sha));
    w.HashIsSha(next.0);
    ReboundReceiptTrusted(doc, role, w.sha(next.0));
    ReceiptIsCanonical(Rebound(w, doc, next.0), role);
    LineParses(w, Rebound(w, doc, next.0));
  }

  lemma ReboundDiffers(w: World, manifest: Bytes, receipt: Bytes, doc: Fields, next: (Bytes, Bytes))
    requires w.Valid() && New in doc && doc[New] == Digest(w.sha(manifest)) && Canonical(Obj(Rebound(w, doc, next.0)))
    requires LoadJson(w, receipt) == Ok(doc)
    requires next.1 == w.Line(Obj(Rebound(w, doc, next.0))) && w.sha(next.0) != w.sha(manifest)
    ensures next.0 != manifest && next.1 != receipt
  {
    LineParses(w, Rebound(w, doc, next.0));
    assert Rebound(w, doc, next.0)[New] != doc[New];
  }

  /** The change keeps the binding, adds exactly the Backhaul entry, and edits only `new` in the receipt. */
  lemma {:induction false} TransitionKeepsBinding(w: World, manifest: Bytes, receipt: Bytes, sha: string, role: Word,
                                                  next: (Bytes, Bytes))
    returns (engines: Fields, doc: Fields)
    requires w.Valid()
    requires Transition(w, manifest, receipt, sha, role) == Ok(next)
    ensures IsRole(role) && IsSha(sha) && Backhaul !in engines
    ensures Bound(w, manifest, engines, receipt, doc, role)
    ensures Bound(w, next.0, WithBackhaul(engines, sha), next.1, Rebound(w, doc, next.0), role)
    ensures 0 < |next.0| <= 8192 && 0 < |next.1| <= 8192
    ensures next.0 != manifest && next.1 != receipt
  {
    engines, doc := TransitionFrom(w, manifest, receipt, sha, role, next);
    TransitionTo(w, manifest, engines, receipt, doc, sha, role, next);
    ReceiptIsCanonical(Rebound(w, doc, next.0), role);
    ReboundDiffers(w, manifest, receipt, doc, next);
  }

  lemma ForgettingUndoes(w: World, manifest: Bytes, engines: Fields, doc: Fields, sha: string, next: Bytes)
    requires Backhaul !in engines
    requires New in doc && doc[New] == Digest(w.sha(manifest))
    ensures WithBackhaul(engines, sha) - {Backhaul} == engines
    ensures Rebound(w, Rebound(w, doc, next), manifest) == doc
  {
  }

  /** Forgetting the Backhaul entry and the new hash gives back what one started from. */
  lemma {:induction false} TransitionIsReversible(w: World, manifest: Bytes, receipt: Bytes, sha: string, role: Word,
                                                  next: (Bytes, Bytes))
    returns (engines: Fields, doc: Fields)
    requires w.Valid()
    requires Transition(w, manifest, receipt, sha, role) == Ok(next)
    ensures Bound(w, next.0, engines, next.1, doc, role)
    ensures Bound(w, manifest, engines - {Backhaul}, receipt, Rebound(w, doc, manifest), role)
  {
    var before, was := TransitionKeepsBinding(w, manifest, receipt, sha, role, next);
    ForgettingUndoes(w, manifest, before, was, sha, next.0);
    engines, doc := WithBackhaul(before, sha), Rebound(w, was, next.0);
  }

  /** Whatever binary or role is asked for, a planned pair cannot be planned again. */
  lemma {:induction false} SecondPlanRefused(w: World, manifest: Bytes, receipt: Bytes, sha: string, role: Word,
                                             next: (Bytes, Bytes),
                          sha': string, role': Word)
    requires w.Valid()
    requires Transition(w, manifest, receipt, sha, role) == Ok(next)
    ensures Transition(w, next.0, next.1, sha', role').Fail?
  {
    var engines, doc := TransitionKeepsBinding(w, manifest, receipt, sha, role, next);
    var doc' := Rebound(w, doc, next.0);
    if Plan(w, next.0, doc', sha', role').Ok? {
      var _ := PlanFacts(w, next.0, doc', sha', role', Plan(w, next.0, doc', sha', role').value);
      assert false;
    }
  }

  ghost predicate Accepts(w: World, manifest: Bytes, engines: Fields, receipt: Bytes, doc: Fields, sha: string,
      role: Word,
                          next: (Bytes, Bytes))
  {
    && IsRole(role) && IsSha(sha)
    && Bound(w, manifest, engines, receipt, doc, role) && Backhaul !in engines
    && next.0 == ManifestText(w, WithBackhaul(engines, sha)) && |next.0| <= 8192
    && w.sha(next.0) != w.sha(manifest)
    && next.1 == w.Line(Obj(Rebound(w, doc, next.0))) && |next.1| <= 8192
  }

  /** The planner accepts exactly the bound pairs without Backhaul whose new bytes fit and differ. */
  lemma {:induction false} PlannedExactlyWhen(w: World, manifest: Bytes, receipt: Bytes, sha: string, role: Word,
                                              next: (Bytes, Bytes))
    requires w.Valid()
    ensures Transition(w, manifest, receipt, sha, role) == Ok(next) <==>
            exists engines, doc :: Accepts(w, manifest, engines, receipt, doc, sha, role, next)
  {
    if Transition(w, manifest, receipt, sha, role) == Ok(next) {
      var engines, doc := TransitionFrom(w, manifest, receipt, sha, role, next);
      var engines' := PlanFacts(w, manifest, doc, sha, role, next.0);
      assert Accepts(w, manifest, engines, receipt, doc, sha, role, next);
    }
    if engines, doc :| Accepts(w, manifest, engines, receipt, doc, sha, role, next) {
      AcceptedIsPlanned(w, manifest, engines, receipt, doc, sha, role, next);
    }
  }

  lemma AcceptedIsPlanned(w: World, manifest: Bytes, engines: Fields, receipt: Bytes, doc: Fields, sha: string,
      role: Word,
                          next: (Bytes, Bytes))
    requires w.Valid()
    requires Accepts(w, manifest, engines, receipt, doc, sha, role, next)
    ensures Transition(w, manifest, receipt, sha, role) == Ok(next)
  {
    assert Plan(w, manifest, doc, sha, role) == Ok(next.0);
  }

  // ---------------------------------------------------------------- the same, spelled out

  /** An engine of a manifest: the hash of its binary, and for FRP that of its server's. */
  predicate EntrySpelled(name: Key, item: Json) {
    item.Obj? && AllHex(item.fields) && if name == Frp then item.fields.Keys == {Sha256, ServerSha256}
        else item.fields.Keys == {Sha256}
  }

  predicate AllHex(fields: Fields) {
    forall k :: k in fields ==> fields[k].Text? && fields[k].word.Free? && IsSha(fields[k].word.text)
  }

  /** A manifest with these engines and an FRP receipt that vouch for each other, and the pair with Backhaul added. */
  ghost predicate Spelled(w: World, manifest: Bytes, receipt: Bytes, sha: string, role: Word, next: (Bytes, Bytes),
                          engines: Fields, old': Json, client: string, server: string) {
    && (role == Ir || role == Foreign) && IsSha(sha) && IsSha(client) && IsSha(server)
    && 0 < |manifest| <= 8192
    && w.parse(manifest) == Some(Obj(map[Schema := Int(1), Engines := Obj(engines)]))
    && engines.Keys <= {Backhaul, Frp, Gost, Rathole, Chisel}
    && (forall name :: name in engines ==> EntrySpelled(name, engines[name]))
    && Backhaul !in engines && Frp in engines
    && engines[Frp] == Obj(map[Sha256 := Text(Free(client)), ServerSha256 := Text(Free(server))])
    && (old' == Null || (old'.Text? && old'.word.Free? && IsSha(old'.word.text)))
    && w.parse(receipt) == Some(Obj(ReceiptSpelled(role, old', w.sha(manifest), client, server)))
    && next.0 == w.pretty(Obj(map[Schema := Int(1),
                                  Engines := Obj(engines[Backhaul := Obj(map[Sha256 := Text(Free(sha))])])])) +
                                      [NEW_LINE]
    && |next.0| <= 8192 && w.sha(next.0) != w.sha(manifest)
    && next.1 == w.dumps(Obj(ReceiptSpelled(role, old', w.sha(next.0), client, server))) + [NEW_LINE]
    && |next.1| <= 8192
  }

  function ReceiptSpelled(role: Word, old': Json, sha: string, client: string, server: string): Fields {
    map[Schema := Int(1), Role := Text(role), State := Text(Committed), Old := old', New := Text(Free(sha)),
        Binaries := Obj(map[Frpc := Text(Free(client)), Frps := Text(Free(server))])]
  }

  lemma ReceiptIsSpelled(role: Word, old': Json, sha: string, client: string, server: string)
    requires IsSha(sha) && IsSha(client) && IsSha(server) && (old' == Null || IsShaText(old'))
    ensures ReceiptTrusted(ReceiptSpelled(role, old', sha, client, server), role)
    ensures FrpEntry(ReceiptSpelled(role, old', sha, client, server)) ==
            Obj(map[Sha256 := Text(Free(client)), ServerSha256 := Text(Free(server))])
  {
  }

  lemma TrustedIsSpelled(doc: Fields, role: Word, sha: string) returns (old': Json, client: string, server: string)
    requires ReceiptTrusted(doc, role) && doc[New] == Digest(sha)
    ensures IsSha(client) && IsSha(server) && (old' == Null || IsShaText(old'))
    ensures doc == ReceiptSpelled(role, old', sha, client, server)
  {
    old', client, server := doc[Old], doc[Binaries].fields[Frpc].word.text, doc[Binaries].fields[Frps].word.text;
    assert doc[Binaries].fields == map[Frpc := Text(Free(client)), Frps := Text(Free(server))];
  }

  lemma EnginesSpelled(engines: Fields)
    ensures EnginesTrusted(engines) <==>
            && engines.Keys <= {Backhaul, Frp, Gost, Rathole, Chisel}
            && forall name :: name in engines ==> EntrySpelled(name, engines[name])
  {
    forall name, item ensures EngineEntry(name, item) <==> EntrySpelled(name, item) {
      if item.Obj? {
        assert AllDigests(item.fields) <==> AllHex(item.fields);
      }
    }
  }

  lemma ManifestSpelled(w: World, raw: Bytes, engines: Fields)
    ensures ParseManifest(w, raw) == Ok(engines) <==>
            && 0 < |raw| <= 8192 && w.parse(raw) == Some(Obj(map[Schema := Int(1), Engines := Obj(engines)]))
            && EnginesTrusted(engines)
  {
    hide EnginesTrusted;
    var doc := map[Schema := Int(1), Engines := Obj(engines)];
    assert doc.Keys == {Schema, Engines};
    if ParseManifest(w, raw) == Ok(engines) {
      assert LoadJson(w, raw).value == doc;
    }
  }

  lemma AcceptedIsSpelled(w: World, manifest: Bytes, engines: Fields, receipt: Bytes, doc: Fields, sha: string,
      role: Word,
                          next: (Bytes, Bytes)) returns (old': Json, client: string, server: string)
    requires w.Valid() && Accepts(w, manifest, engines, receipt, doc, sha, role, next)
    ensures Spelled(w, manifest, receipt, sha, role, next, engines, old', client, server)
  {
    hide ReceiptTrusted, ParseManifest, EnginesTrusted, World.Valid, EntrySpelled;
    ManifestSpelled(w, manifest, engines);
    EnginesSpelled(engines);
    old', client, server := TrustedIsSpelled(doc, role, w.sha(manifest));
    w.HashIsSha(manifest);
    ReceiptIsSpelled(role, old', w.sha(manifest), client, server);
    assert Rebound(w, doc, next.0) == ReceiptSpelled(role, old', w.sha(next.0), client, server);
  }

  lemma SpelledIsAccepted(w: World, manifest: Bytes, receipt: Bytes, sha: string, role: Word, next: (Bytes, Bytes),
                          engines: Fields, old': Json, client: string, server: string)
    requires w.Valid() && Spelled(w, manifest, receipt, sha, role, next, engines, old', client, server)
    ensures Accepts(w, manifest, engines, receipt, ReceiptSpelled(role, old', w.sha(manifest), client, server), sha,
            role, next)
  {
    hide ReceiptTrusted, ParseManifest, EnginesTrusted, World.Valid, EntrySpelled;
    ManifestSpelled(w, manifest, engines);
    EnginesSpelled(engines);
    w.HashIsSha(manifest);
    var doc := ReceiptSpelled(role, old', w.sha(manifest), client, server);
    ReceiptIsSpelled(role, old', w.sha(manifest), client, server);
    assert Rebound(w, doc, next.0) == ReceiptSpelled(role, old', w.sha(next.0), client, server);
  }

  /** The planner on the bytes and their JSON alone: what it accepts, and exactly what it writes. */
  lemma {:induction false} PlansExactlyWhen(w: World, manifest: Bytes, receipt: Bytes, sha: string, role: Word,
                                            next: (Bytes, Bytes))
    requires w.Valid()
    ensures Transition(w, manifest, receipt, sha, role) == Ok(next) <==>
            exists engines, old', client, server ::
              Spelled(w, manifest, receipt, sha, role, next, engines, old', client, server)
  {
    hide Accepts, Spelled, World.Valid, Transition;
    PlannedExactlyWhen(w, manifest, receipt, sha, role, next);
    if Transition(w, manifest, receipt, sha, role) == Ok(next) {
      var engines, doc :| Accepts(w, manifest, engines, receipt, doc, sha, role, next);
      var old', client, server := AcceptedIsSpelled(w, manifest, engines, receipt, doc, sha, role, next);
    }
    forall engines, old', client, server | Spelled(w, manifest, receipt, sha, role, next, engines, old', client, server)
      ensures Transition(w, manifest, receipt, sha, role) == Ok(next)
    {
      SpelledIsAccepted(w, manifest, receipt, sha, role, next, engines, old', client, server);
    }
  }
}
