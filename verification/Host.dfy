/** Bytes, JSON values and the hash function, as far as the transactions depend on them. */
module Host {
  import opened Durable

  newtype byte = x: int | 0 <= x < 256
  type Bytes = seq<byte>

  /** The member names the transactions look at; any other name is `Other`. */
  datatype Key =
    | Schema | Phase | Role | State | Engines
    | ManifestBefore | FrpBefore | ManifestNext | FrpNext | JournalRecord | BackhaulSha256
    | Old | New | Binaries | Frpc | Frps | Sha256 | ServerSha256
    | Record | Binary | Witness | Manifest | Receipt | ManifestSha256 | ReceiptSha256 | JournalSha256
    | Backhaul | Frp | Gost | Rathole | Chisel
    | Other(name: string)

  /** The string values the transactions compare with; any other string is `Free`. */
  datatype Word = Ir | Foreign | Prepared | Committed | Restoring | Restored | Fresh | Free(text: string)

  datatype Json =
    | Null | Bool(b: bool) | Int(i: int) | Real(literal: string) | Text(word: Word)
    | Arr(items: seq<Json>) | Obj(fields: map<Key, Json>)

  predicate IsHexDigit(c: char) {
    '0' <= c <= '9' || 'a' <= c <= 'f'
  }

  predicate IsHex(text: string) {
    forall i :: 0 <= i < |text| ==> IsHexDigit(text[i])
  }

  predicate IsSha(text: string) {
    |text| == 64 && IsHex(text)
  }

  predicate IsShaText(j: Json) {
    j.Text? && j.word.Free? && IsSha(j.word.text)
  }

  function Digest(sha: string): Json {
    Text(Free(sha))
  }

  const NEW_LINE: byte := 10

  /** An object of named members that are the number 1, protocol words or digests. */
  predicate Flat(fields: map<Key, Json>) {
    forall k :: k in fields ==>
      !k.Other? && (fields[k] == Int(1) || IsShaText(fields[k]) || (fields[k].Text? && !fields[k].word.Free?))
  }

  /** The record of a retained transaction, whose snapshots are at most 8192 bytes in hex. */
  predicate Snapshot(record: map<Key, Json>) {
    && record.Keys == {Schema, Role, Binary, Witness, Manifest, Receipt, Phase}
    && IsSnapshotText(record[Manifest]) && IsSnapshotText(record[Receipt])
    && Flat(record - {Manifest, Receipt})
  }

  predicate IsSnapshotText(j: Json) {
    j.Text? && j.word.Free? && IsHex(j.word.text) && |j.word.text| <= 16384
  }

  function Envelope(record: map<Key, Json>, sha: string): Json {
    Obj(map[Record := Obj(record), Sha256 := Digest(sha)])
  }

  /** The values that the transactions write: known names, and integers, protocol words and digits in hex.  Two of
      them are never the same JSON text, as `Text(Ir)` and `Text(Free("ir"))` would be. */
  predicate Canonical(j: Json) {
    match j
    case Null => true
    case Int(_) => true
    case Text(word) => word.Free? ==> IsHex(word.text)
    case Obj(fields) => forall k :: k in fields ==> !k.Other? && Canonical(fields[k])
    case _ => false
  }

  lemma ObjectIsCanonical(fields: map<Key, Json>)
    requires forall k :: k in fields ==> !k.Other? && Canonical(fields[k])
    ensures Canonical(Obj(fields))
  {
  }

  lemma NumberIsCanonical(i: int)
    ensures Canonical(Int(i))
  {
  }

  lemma FlatIsCanonical(fields: map<Key, Json>)
    requires Flat(fields)
    ensures Canonical(Obj(fields))
  {
    hide Canonical;
    forall k | k in fields ensures !k.Other? && Canonical(fields[k]) {
      FlatMemberIsCanonical(fields, k);
    }
    ObjectIsCanonical(fields);
  }

  lemma SnapshotIsCanonical(record: map<Key, Json>)
    requires Snapshot(record)
    ensures Canonical(Obj(record))
  {
    hide Canonical, Flat, IsSnapshotText;
    var rest := record - {Manifest, Receipt};
    forall k | k in record ensures !k.Other? && Canonical(record[k]) {
      if k == Manifest || k == Receipt {
        SnapshotTextIsCanonical(record[k]);
      } else {
        assert k in rest && rest[k] == record[k];
        FlatMemberIsCanonical(rest, k);
      }
    }
    ObjectIsCanonical(record);
  }

  lemma SnapshotTextIsCanonical(j: Json)
    requires IsSnapshotText(j)
    ensures Canonical(j)
  {
  }

  lemma FlatMemberIsCanonical(fields: map<Key, Json>, k: Key)
    requires Flat(fields) && k in fields
    ensures !k.Other? && Canonical(fields[k])
  {
  }

  lemma EnvelopeIsCanonical(record: map<Key, Json>, sha: string)
    requires Canonical(Obj(record)) && IsSha(sha)
    ensures Canonical(Envelope(record, sha))
  {
  }

  /** SHA-256 (section 6.2 of FIPS 180-4) and a JSON codec, both abstract.  `parse` refuses
      duplicate names; `dumps` writes a value with sorted names. */
  datatype World = World(
    sha: Bytes -> string, parse: Bytes -> Option<Json>, dumps: Json -> Bytes, pretty: Json -> Bytes)
  {
    ghost predicate Valid() {
      && (forall b :: IsSha(sha(b)))
      && (forall j :: Canonical(j) ==>
            parse(dumps(j)) == Some(j) && parse(Line(j)) == Some(j) && parse(pretty(j) + [NEW_LINE]) == Some(j))
      // 31 names, each with a value of at most 66 characters, are below 4096 bytes
      && (forall fields :: Flat(fields) ==> |Line(Obj(fields))| <= 4096)
    }

    /** The same for the journal and the seal of a retained transaction, each wrapped with its own hash:
        two snapshots of 16384 digits, and less than 4096 bytes for the rest. */
    ghost predicate Roomy() {
      && (forall record, sha :: Snapshot(record) && IsSha(sha) ==> |Line(Envelope(record, sha))| <= 40000)
      && (forall record, sha :: Flat(record) && IsSha(sha) ==> |Line(Envelope(record, sha))| <= 4096)
    }

    function Line(j: Json): Bytes {
      dumps(j) + [NEW_LINE]
    }

    lemma HashIsSha(b: Bytes)
      requires Valid()
      ensures IsSha(sha(b))
    {
    }
  }

  /** Reads a private file: it must exist, hold at least one byte and at most `limit`. */
  function ReadPrivate(file: Option<Bytes>, limit: nat): Result<Bytes> {
    if file.Some? && 0 < |file.value| <= limit then Ok(file.value)
    else Fail(Hold(PairPrivateFileUntrusted))
  }

  function LoadJson(w: World, raw: Bytes): Result<map<Key, Json>> {
    match w.parse(raw)
    case Some(Obj(fields)) => Ok(fields)
    case _ => Fail(Hold(PairReceiptUntrusted))
  }

  function HexDigit(n: int): char
    requires 0 <= n < 16
  {
    if n < 10 then '0' + n as char else 'a' + (n - 10) as char
  }

  function DigitValue(c: char): (n: int)
    requires IsHexDigit(c)
    ensures 0 <= n < 16
  {
    if '0' <= c <= '9' then (c - '0') as int else (c - 'a') as int + 10
  }

  /** `bytes.hex()` */
  function Hex(raw: Bytes): string {
    if raw == [] then []
    else [HexDigit(raw[0] as int / 16), HexDigit(raw[0] as int % 16)] + Hex(raw[1..])
  }

  /** `bytes.fromhex()` on lower-case digits without blanks. */
  function Unhex(text: string): Bytes
    requires IsHex(text) && |text| % 2 == 0
  {
    if text == [] then []
    else
      [(DigitValue(text[0]) * 16 + DigitValue(text[1])) as byte] + Unhex(text[2..])
  }

  lemma {:induction false} HexRoundTrip(raw: Bytes)
    ensures |Hex(raw)| == 2 * |raw| && IsHex(Hex(raw)) && Unhex(Hex(raw)) == raw
  {
    if raw != [] {
      HexRoundTrip(raw[1..]);
      var hi, lo := HexDigit(raw[0] as int / 16), HexDigit(raw[0] as int % 16);
      assert Hex(raw) == [hi, lo] + Hex(raw[1..]);
      assert Hex(raw)[2..] == Hex(raw[1..]);
      assert IsHexDigit(hi) && IsHexDigit(lo);
      assert DigitValue(hi) == raw[0] as int / 16 && DigitValue(lo) == raw[0] as int % 16;
    }
  }
}
