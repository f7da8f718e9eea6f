/** A hash and a codec with the properties that the transactions rely on exist: a canonical value is written with one
    byte for each known name, integer digit or character, so that no text is the beginning of another. */
module Worlds {
  import opened Durable
  import opened Host

  /** The known names, in the order in which an object's members are written. */
  const FIRST: seq<Key> := [
    Schema, Phase, Role, State, Engines, ManifestBefore, FrpBefore, ManifestNext, FrpNext, JournalRecord,
        BackhaulSha256,
    Old, New, Binaries, Frpc, Frps]
  const SECOND: seq<Key> := [
    Sha256, ServerSha256, Record, Binary, Witness, Manifest, Receipt, ManifestSha256, ReceiptSha256, JournalSha256,
    Backhaul, Frp, Gost, Rathole, Chisel]

  const COUNT: nat := 31

  function KeyAt(i: nat): Key
    requires i < COUNT
  {
    if i < 16 then FIRST[i] else SECOND[i - 16]
  }

  function Place(key: Key): nat {
    match key
    case Schema => 0 case Phase => 1 case Role => 2 case State => 3 case Engines => 4 case ManifestBefore => 5
    case FrpBefore => 6 case ManifestNext => 7 case FrpNext => 8 case JournalRecord => 9 case BackhaulSha256 => 10
    case Old => 11 case New => 12 case Binaries => 13 case Frpc => 14 case Frps => 15 case Sha256 => 16
    case ServerSha256 => 17 case Record => 18 case Binary => 19 case Witness => 20 case Manifest => 21
    case Receipt => 22 case ManifestSha256 => 23 case ReceiptSha256 => 24 case JournalSha256 => 25 case Backhaul => 26
    case Frp => 27 case Gost => 28 case Rathole => 29 case Chisel => 30 case Other(_) => 31
  }

  lemma Places(key: Key)
    requires !key.Other?
    ensures Place(key) < COUNT && KeyAt(Place(key)) == key
  {
    if Place(key) < 16 { FirstNames(key); } else { SecondNames(key); }
  }

  lemma FirstNames(key: Key)
    requires Place(key) < 16
    ensures FIRST[Place(key)] == key
  {
  }

  lemma SecondNames(key: Key)
    requires Place(key) >= 16 && !key.Other?
    ensures Place(key) < COUNT && SECOND[Place(key) - 16] == key
  {
  }

  lemma PlaceAt(i: nat)
    requires i < COUNT
    ensures Place(KeyAt(i)) == i && !KeyAt(i).Other?
  {
    if i < 16 { FirstPlace(i); } else { SecondPlace(i); }
  }

  lemma FirstPlace(i: nat)
    requires i < 16
    ensures Place(FIRST[i]) == i && !FIRST[i].Other?
  {
  }

  lemma SecondPlace(i: nat)
    requires 16 <= i < COUNT
    ensures Place(SECOND[i - 16]) == i && !SECOND[i - 16].Other?
  {
    hide Place;
    if i < 24 { SecondBegins(i); } else { SecondEnds(i); }
  }

  lemma SecondBegins(i: nat)
    requires 16 <= i < 24
    ensures Place(SECOND[i - 16]) == i && !SECOND[i - 16].Other?
  {
  }

  lemma SecondEnds(i: nat)
    requires 24 <= i < COUNT
    ensures Place(SECOND[i - 16]) == i && !SECOND[i - 16].Other?
  {
  }

  function WordByte(word: Word): (b: byte)
    ensures b < 8
  {
    match word
    case Ir => 0 case Foreign => 1 case Prepared => 2 case Committed => 3 case Restoring => 4 case Restored => 5
    case Fresh => 6 case Free(_) => 7
  }

  /** A number in unary. */
  function Unary(n: nat): Bytes {
    if n == 0 then [0] else [1] + Unary(n - 1)
  }

  function Letters(text: string): Bytes
    requires IsHex(text)
  {
    if text == [] then [0] else [(text[0] as int) as byte] + Letters(text[1..])
  }

  function Dump(j: Json): Bytes
    requires Canonical(j)
    decreases j, 32
  {
    match j
    case Null => [0]
    case Int(i) => if i >= 0 then [1] + Unary(i) else [2] + Unary(-i)
    case Text(word) => [3, WordByte(word)] + if word.Free? then Letters(word.text) else []
    case Obj(_) => [4] + Members(j, 0)
  }

  /** The members from this place on: a mark, and the value if there is one. */
  function Members(j: Json, i: nat): Bytes
    requires Canonical(j) && j.Obj? && i <= COUNT
    decreases j, COUNT - i
  {
    if i == COUNT then []
    else (if KeyAt(i) in j.fields then [1] + Dump(j.fields[KeyAt(i)]) else [0]) + Members(j, i + 1)
  }

  lemma MembersFrom(j: Json, i: nat)
    requires Canonical(j) && j.Obj? && i <= COUNT
    ensures i == COUNT ==> Members(j, i) == []
    ensures i < COUNT && KeyAt(i) !in j.fields ==> Members(j, i) == [0] + Members(j, i + 1)
    ensures i < COUNT && KeyAt(i) in j.fields ==>
              Canonical(j.fields[KeyAt(i)]) && Members(j, i) == [1] + Dump(j.fields[KeyAt(i)]) + Members(j, i + 1)
  {
    hide KeyAt;
  }

  // ---------------------------------------------------------------- no text is the beginning of another

  lemma {:induction false} UnaryFirst(m: nat, n: nat, x: Bytes, y: Bytes)
    requires Unary(m) + x == Unary(n) + y
    ensures m == n && x == y
  {
    var a, b := Unary(m) + x, Unary(n) + y;
    assert a[0] == b[0] && a[1..] == b[1..];
    if m > 0 && n > 0 {
      assert a[1..] == Unary(m - 1) + x && b[1..] == Unary(n - 1) + y;
      UnaryFirst(m - 1, n - 1, x, y);
    }
  }

  lemma {:induction false} LettersFirst(s: string, t: string, x: Bytes, y: Bytes)
    requires IsHex(s) && IsHex(t) && Letters(s) + x == Letters(t) + y
    ensures s == t && x == y
  {
    var a, b := Letters(s) + x, Letters(t) + y;
    assert a[0] == b[0] && a[1..] == b[1..];
    if s != [] && t != [] {
      assert a[1..] == Letters(s[1..]) + x && b[1..] == Letters(t[1..]) + y;
      LettersFirst(s[1..], t[1..], x, y);
      assert s == [s[0]] + s[1..] && t == [t[0]] + t[1..];
    }
  }

  lemma {:induction false} DumpFirst(j: Json, k: Json, x: Bytes, y: Bytes)
    requires Canonical(j) && Canonical(k) && Dump(j) + x == Dump(k) + y
    ensures j == k && x == y
    decreases j, 32
  {
    hide Members, Unary, Letters;
    var a, b := Dump(j) + x, Dump(k) + y;
    assert a[0] == b[0] && a[1..] == b[1..];
    match j
    case Null =>
    case Int(i) =>
      var m, n := if i >= 0 then i else -i, if k.i >= 0 then k.i else -k.i;
      assert a[1..] == Unary(m) + x && b[1..] == Unary(n) + y;
      UnaryFirst(m, n, x, y);
    case Text(word) =>
      assert a[1] == b[1] && a[2..] == b[2..];
      if word.Free? {
        assert a[2..] == Letters(word.text) + x && b[2..] == Letters(k.word.text) + y;
        LettersFirst(word.text, k.word.text, x, y);
      }
    case Obj(_) =>
      assert a[1..] == Members(j, 0) + x && b[1..] == Members(k, 0) + y;
      MembersFirst(j, k, 0, x, y);
      SameMembers(j, k);
  }

  lemma SameMembers(j: Json, k: Json)
    requires Canonical(j) && Canonical(k) && j.Obj? && k.Obj? && forall n :: 0 <= n < COUNT ==> Alike(j, k, KeyAt(n))
    ensures j == k
  {
    forall key | key in j.fields || key in k.fields ensures Alike(j, k, key) {
      Places(key);
    }
    assert j.fields == k.fields;
  }

  predicate Alike(j: Json, k: Json, key: Key)
    requires j.Obj? && k.Obj?
  {
    (key in j.fields <==> key in k.fields) && (key in j.fields ==> j.fields[key] == k.fields[key])
  }

  lemma {:induction false} MembersFirst(j: Json, k: Json, i: nat, x: Bytes, y: Bytes)
    requires Canonical(j) && Canonical(k) && j.Obj? && k.Obj? && i <= COUNT
    requires Members(j, i) + x == Members(k, i) + y
    ensures x == y
    ensures forall n :: i <= n < COUNT ==> Alike(j, k, KeyAt(n))
    decreases j, COUNT - i
  {
    hide Members, Dump, Canonical, KeyAt;
    MembersFrom(j, i);
    MembersFrom(k, i);
    if i < COUNT {
      var key := KeyAt(i);
      var a, b := Members(j, i) + x, Members(k, i) + y;
      assert a[0] == b[0] && a[1..] == b[1..];
      if key in j.fields {
        assert a[1..] == Dump(j.fields[key]) + (Members(j, i + 1) + x);
        assert b[1..] == Dump(k.fields[key]) + (Members(k, i + 1) + y);
        DumpFirst(j.fields[key], k.fields[key], Members(j, i + 1) + x, Members(k, i + 1) + y);
      } else {
        assert a[1..] == Members(j, i + 1) + x && b[1..] == Members(k, i + 1) + y;
      }
      assert Alike(j, k, KeyAt(i));
      MembersFirst(j, k, i + 1, x, y);
    } else {
      assert [] + x == x && [] + y == y;
    }
  }

  // ---------------------------------------------------------------- the sizes

  lemma {:induction false} LettersSize(text: string)
    requires IsHex(text)
    ensures |Letters(text)| == |text| + 1
  {
    if text != [] {
      LettersSize(text[1..]);
    }
  }

  /** The size of an object whose members have at most `c` bytes each, but for two of them. */
  lemma {:induction false} MembersSize(j: Json, i: nat, c: nat, a: Key, inA: nat, b: Key, inB: nat)
    requires Canonical(j) && j.Obj? && i <= COUNT
    requires forall key :: key in j.fields ==>
               |Dump(j.fields[key])| <= c + (if key == a then inA else 0) + (if key == b then inB else 0)
    ensures |Members(j, i)| <= Room(c, i) + (if i <= Place(a) then inA else 0) + (if i <= Place(b) then inB else 0)
    decreases COUNT - i
  {
    hide Members, Dump, Canonical, KeyAt, Place;
    MembersFrom(j, i);
    if i < COUNT {
      MembersSize(j, i + 1, c, a, inA, b, inB);
      PlaceAt(i);
    }
  }

  /** A mark and at most c bytes for each name from this place on. */
  function Room(c: nat, i: nat): nat
    requires i <= COUNT
    decreases COUNT - i
  {
    if i == COUNT then 0 else c + 1 + Room(c, i + 1)
  }

  lemma {:induction false} RoomIs(c: nat, i: nat)
    requires i <= COUNT
    ensures Room(c, i) == (c + 1) * (COUNT - i)
    decreases COUNT - i
  {
    if i < COUNT {
      RoomIs(c, i + 1);
      assert (c + 1) * (COUNT - i) == (c + 1) * (COUNT - (i + 1)) + c + 1;
    }
  }

  lemma SmallMember(j: Json)
    requires j == Int(1) || IsShaText(j) || (j.Text? && !j.word.Free?)
    ensures Canonical(j) && |Dump(j)| <= 67
  {
    if j == Int(1) {
      assert Unary(1) == [1] + Unary(0);
    } else if IsShaText(j) {
      LettersSize(j.word.text);
    }
  }

  lemma FlatSize(fields: map<Key, Json>)
    requires Flat(fields)
    ensures Canonical(Obj(fields)) && |Dump(Obj(fields))| <= 2109
  {
    hide Room;
    FlatIsCanonical(fields);
    forall key | key in fields ensures |Dump(fields[key])| <= 67 {
      SmallMember(fields[key]);
    }
    RoomIs(67, 0);
    MembersSize(Obj(fields), 0, 67, Schema, 0, Phase, 0);
  }

  lemma SnapshotText(j: Json)
    requires IsSnapshotText(j)
    ensures Canonical(j) && |Dump(j)| <= 16387
  {
    LettersSize(j.word.text);
  }

  lemma SnapshotMembers(record: map<Key, Json>)
    requires Snapshot(record)
    ensures forall key :: key in record ==>
              && Canonical(record[key])
              && |Dump(record[key])| <=
                 67 + (if key == Manifest then 16320 else 0) + (if key == Receipt then 16320 else 0)
  {
    hide Snapshot, Canonical, Dump;
    forall key | key in record
      ensures Canonical(record[key])
      ensures |Dump(record[key])| <= 67 + (if key == Manifest then 16320 else 0) + (if key == Receipt then 16320 else 0)
    {
      SnapshotMember(record, key);
    }
  }

  lemma SnapshotSize(record: map<Key, Json>)
    requires Snapshot(record)
    ensures Canonical(Obj(record)) && |Dump(Obj(record))| <= 34749
  {
    hide Room, Place, Snapshot, Canonical, Dump, Members;
    SnapshotIsCanonical(record);
    SnapshotMembers(record);
    RoomIs(67, 0);
    MembersSize(Obj(record), 0, 67, Manifest, 16320, Receipt, 16320);
    ObjectSize(Obj(record));
  }

  lemma SnapshotMember(record: map<Key, Json>, key: Key)
    requires Snapshot(record) && key in record
    ensures Canonical(record[key])
    ensures |Dump(record[key])| <= 67 + (if key == Manifest || key == Receipt then 16320 else 0)
  {
    hide Canonical, Dump, IsSnapshotText;
    if key == Manifest || key == Receipt {
      SnapshotText(record[key]);
    } else {
      assert key in record - {Manifest, Receipt};
      SmallMember(record[key]);
    }
  }

  lemma EnvelopeSize(record: map<Key, Json>, sha: string, size: nat)
    requires Canonical(Obj(record)) && |Dump(Obj(record))| <= size && IsSha(sha)
    ensures Canonical(Envelope(record, sha)) && |Dump(Envelope(record, sha))| <= size + 99
  {
    hide Room;
    hide Canonical, Dump;
    EnvelopeIsCanonical(record, sha);
    var j := Envelope(record, sha);
    SmallMember(Digest(sha));
    RoomIs(0, 0);
    MembersSize(j, 0, 0, Record, size, Sha256, 67);
    ObjectSize(j);
  }

  lemma ObjectSize(j: Json)
    requires Canonical(j) && j.Obj?
    ensures |Dump(j)| == 1 + |Members(j, 0)|
  {
  }

  // ---------------------------------------------------------------- the codec

  function Write(j: Json): Bytes {
    if Canonical(j) then Dump(j) else []
  }

  ghost predicate Spells(raw: Bytes, j: Json) {
    Canonical(j) && (raw == Dump(j) + [] || raw == Dump(j) + [NEW_LINE])
  }

  /** The value that is spelled, with or without an end of line behind it. */
  ghost function Read(raw: Bytes): Option<Json> {
    if exists j :: Spells(raw, j) then
      var j :| Spells(raw, j);
      Some(j)
    else None
  }

  lemma ReadsBack(j: Json, raw: Bytes)
    requires Spells(raw, j)
    ensures Read(raw) == Some(j)
  {
    hide Canonical, Dump;
    forall k | Spells(raw, k) ensures k == j {
      var x, y := if raw == Dump(j) + [] then [] else [NEW_LINE], if raw == Dump(k) + [] then [] else [NEW_LINE];
      DumpFirst(j, k, x, y);
    }
  }

  /** Hashes that tell apart some texts at least. */
  function Hash(raw: Bytes): string {
    seq(64, i => HexDigit(|raw| % 16))
  }

  /** There is a hash and a codec of this kind, with room for the journals. */
  lemma SomeWorldIsValid() returns (w: World)
    ensures w.Valid() && w.Roomy()
  {
    hide Canonical, Dump, Flat, Snapshot;
    w := World(Hash, Read, Write, Write);
    forall b ensures IsSha(w.sha(b)) {
      assert IsHexDigit(HexDigit(|b| % 16));
    }
    forall j | Canonical(j)
      ensures w.parse(w.dumps(j)) == Some(j) && w.parse(w.Line(j)) == Some(j)
              && w.parse(w.pretty(j) + [NEW_LINE]) == Some(j)
    {
      assert Dump(j) == Dump(j) + [];
      ReadsBack(j, Dump(j));
      ReadsBack(j, Dump(j) + [NEW_LINE]);
    }
    forall fields | Flat(fields) ensures |w.Line(Obj(fields))| <= 4096 {
      FlatSize(fields);
    }
    forall record, sha | Snapshot(record) && IsSha(sha) ensures |w.Line(Envelope(record, sha))| <= 40000 {
      SnapshotSize(record);
      EnvelopeSize(record, sha, 34749);
    }
    forall record, sha | Flat(record) && IsSha(sha) ensures |w.Line(Envelope(record, sha))| <= 4096 {
      FlatSize(record);
      EnvelopeSize(record, sha, 2109);
    }
  }
}
