/** The walk over the extensions of a Token-2022 account: type-length-value records, then zero padding. */
module TokenExtensions {
  import opened Outcomes

  type Byte = n: nat | n < 256

  const TYPE_OFFSET := 165

  const FIRST_RECORD := 166

  const ACCOUNT_EXTENSIONS: set<nat> := {2, 7, 8, 11, 13, 15, 27}

  const MINT_EXTENSIONS: set<nat> := {1, 3, 6, 9, 10, 12, 14, 18, 19, 20, 21, 22, 23, 25, 26}

  datatype Record = Record(kind: nat, value: seq<Byte>)

  function ReadUInt16LE(data: seq<Byte>, offset: nat): nat
    requires offset + 2 <= |data|
  {
    data[offset] as nat + 256 * data[offset + 1] as nat
  }

  function WriteUInt16LE(n: nat): (r: seq<Byte>)
    requires n < 0x1_0000
    ensures |r| == 2 && ReadUInt16LE(r, 0) == n
  {
    [n % 256, n / 256]
  }

  predicate AllZero(data: seq<Byte>) {
    forall i :: 0 <= i < |data| ==> data[i] == 0
  }

  // ---------------------------------------------------------------------------
  // The grammar
  // ---------------------------------------------------------------------------

  predicate Encodable(r: Record) {
    r.kind < 0x1_0000 && |r.value| < 0x1_0000
  }

  function SerializeOne(r: Record): (s: seq<Byte>)
    requires Encodable(r)
    ensures |s| == 4 + |r.value|
  {
    WriteUInt16LE(r.kind) + WriteUInt16LE(|r.value|) + r.value
  }

  function Serialize(records: seq<Record>): seq<Byte>
    requires forall i :: 0 <= i < |records| ==> Encodable(records[i])
  {
    if records == [] then [] else SerializeOne(records[0]) + Serialize(records[1..])
  }

  /** Encodable records of distinct permitted kinds, none seen before. */
  predicate Permitted(records: seq<Record>, allowed: set<nat>, seen: set<nat>) {
    && (forall i :: 0 <= i < |records| ==>
         Encodable(records[i]) && records[i].kind in allowed && records[i].kind !in seen)
    && forall i, j :: 0 <= i < j < |records| ==> records[i].kind != records[j].kind
  }

  /** The bytes are the records followed by zeros. */
  predicate Spells(tail: seq<Byte>, records: seq<Record>)
    requires forall i :: 0 <= i < |records| ==> Encodable(records[i])
  {
    var s := Serialize(records);
    |s| <= |tail| && tail[..|s|] == s && AllZero(tail[|s|..])
  }

  // ---------------------------------------------------------------------------
  // The walk
  // ---------------------------------------------------------------------------

  /** The records the walk reads, or `None` when it throws. */
  function Parse(tail: seq<Byte>, allowed: set<nat>, seen: set<nat>): Option<seq<Record>>
    decreases |tail|
  {
    if AllZero(tail) then Some([])
    else if |tail| < 4 then None
    else
      var kind, length := ReadUInt16LE(tail, 0), ReadUInt16LE(tail, 2);
      if kind !in allowed || kind in seen || 4 + length > |tail| then None
      else
        match Parse(tail[4 + length..], allowed, seen + {kind})
        case None => None
        case Some(rest) => Some([Record(kind, tail[4..4 + length])] + rest)
  }

  predicate Accepts(data: seq<Byte>, accountType: Byte, allowed: set<nat>) {
    |data| >= FIRST_RECORD && data[TYPE_OFFSET] == accountType && Parse(data[FIRST_RECORD..], allowed, {}).Some?
  }

  /** `inspectExtensions`; false when it throws. */
  method InspectExtensions(data: seq<Byte>, accountType: Byte, allowed: set<nat>) returns (ok: bool)
    ensures ok <==> Accepts(data, accountType, allowed)
  {
    if |data| < FIRST_RECORD || data[TYPE_OFFSET] != accountType {
      return false;
    }
    var offset := FIRST_RECORD;
    var seen: set<nat> := {};
    while offset < |data|
      invariant FIRST_RECORD <= offset <= |data|
      invariant Parse(data[FIRST_RECORD..], allowed, {}).Some? <==> Parse(data[offset..], allowed, seen).Some?
    {
      var rest := data[offset..];
      if AllZero(rest) {
        return true;
      }
      if offset + 4 > |data| {
        return false;
      }
      var kind := ReadUInt16LE(data, offset);
      var length := ReadUInt16LE(data, offset + 2);
      assert kind == ReadUInt16LE(rest, 0) && length == ReadUInt16LE(rest, 2);
      if kind !in allowed || kind in seen {
        return false;
      }
      if offset + 4 + length > |data| {
        return false;
      }
      assert rest[4 + length..] == data[offset + 4 + length..];
      seen := seen + {kind};
      offset := offset + 4 + length;
    }
    return true;
  }

  // ---------------------------------------------------------------------------
  // Reading and writing
  // ---------------------------------------------------------------------------

  lemma TwoBytes(data: seq<Byte>, offset: nat)
    requires offset + 2 <= |data|
    ensures ReadUInt16LE(data, offset) < 0x1_0000
    ensures WriteUInt16LE(ReadUInt16LE(data, offset)) == data[offset..offset + 2]
  {
  }

  lemma FirstRecord(tail: seq<Byte>)
    requires |tail| >= 4 && 4 + ReadUInt16LE(tail, 2) <= |tail|
    ensures var r := Record(ReadUInt16LE(tail, 0), tail[4..4 + ReadUInt16LE(tail, 2)]);
      Encodable(r) && SerializeOne(r) == tail[..4 + |r.value|]
  {
    TwoBytes(tail, 0);
    TwoBytes(tail, 2);
    var n := 4 + ReadUInt16LE(tail, 2);
    assert tail[..n] == tail[0..2] + tail[2..4] + tail[4..n];
  }

  /** What the walk reads is spelled by the bytes and permitted. */
  lemma {:induction false} ParsedIsSpelled(tail: seq<Byte>, allowed: set<nat>, seen: set<nat>)
    requires Parse(tail, allowed, seen).Some?
    ensures var records := Parse(tail, allowed, seen).value;
      Permitted(records, allowed, seen) && Spells(tail, records)
    decreases |tail|
  {
    var records := Parse(tail, allowed, seen).value;
    if AllZero(tail) {
      assert tail[0..] == tail;
    } else {
      var n := 4 + ReadUInt16LE(tail, 2);
      var rest := records[1..];
      FirstRecord(tail);
      ParsedIsSpelled(tail[n..], allowed, seen + {records[0].kind});
      assert Parse(tail[n..], allowed, seen + {records[0].kind}).value == rest;
      var s := Serialize(rest);
      assert tail[..n + |s|] == tail[..n] + tail[n..][..|s|];
      assert tail[n + |s|..] == tail[n..][|s|..];
    }
  }

  /** Reading back a serialised list: one record at a time. */
  lemma ReadsOne(r: Record, rest: seq<Byte>)
    requires Encodable(r)
    ensures var tail := SerializeOne(r) + rest;
      && ReadUInt16LE(tail, 0) == r.kind && ReadUInt16LE(tail, 2) == |r.value|
      && tail[4..4 + |r.value|] == r.value && tail[4 + |r.value|..] == rest
  {
    var tail := SerializeOne(r) + rest;
    assert tail[..2] == WriteUInt16LE(r.kind) && tail[2..4] == WriteUInt16LE(|r.value|);
    assert tail[0] == WriteUInt16LE(r.kind)[0] && tail[1] == WriteUInt16LE(r.kind)[1];
    assert tail[2] == WriteUInt16LE(|r.value|)[0] && tail[3] == WriteUInt16LE(|r.value|)[1];
  }

  /** Bytes spelled by permitted records are accepted; when no permitted kind is zero, exactly those records are
      read. */
  lemma {:induction false} SpelledIsParsed(tail: seq<Byte>, records: seq<Record>, allowed: set<nat>, seen: set<nat>)
    requires Permitted(records, allowed, seen) && Spells(tail, records)
    ensures Parse(tail, allowed, seen).Some?
    ensures 0 !in allowed ==> Parse(tail, allowed, seen) == Some(records)
    decreases |records|
  {
    if records == [] {
      assert tail[0..] == tail;
    } else {
      var r, more := records[0], records[1..];
      var n, s := 4 + |r.value|, Serialize(more);
      assert tail == SerializeOne(r) + tail[n..] by {
        assert tail[..n] == tail[..n + |s|][..n] == SerializeOne(r);
      }
      ReadsOne(r, tail[n..]);
      assert tail[n..][..|s|] == tail[..n + |s|][n..] == s;
      assert tail[n..][|s|..] == tail[n + |s|..];
      SpelledIsParsed(tail[n..], more, allowed, seen + {r.kind});
      if 0 !in allowed {
        NonzeroKind(tail);
      }
      assert [r] + more == records;
    }
  }

  lemma NonzeroKind(tail: seq<Byte>)
    requires |tail| >= 2 && ReadUInt16LE(tail, 0) != 0
    ensures !AllZero(tail)
  {
  }

  /** The walk accepts exactly the byte strings whose type byte matches and whose tail is a concatenation of distinct
      permitted records followed by zero padding. */
  lemma AcceptsExactlyRecords(data: seq<Byte>, accountType: Byte, allowed: set<nat>)
    ensures Accepts(data, accountType, allowed) <==>
      && |data| >= FIRST_RECORD && data[TYPE_OFFSET] == accountType
      && exists records :: Permitted(records, allowed, {}) && Spells(data[FIRST_RECORD..], records)
  {
    if |data| >= FIRST_RECORD {
      var tail := data[FIRST_RECORD..];
      if Parse(tail, allowed, {}).Some? {
        ParsedIsSpelled(tail, allowed, {});
      }
      if exists records :: Permitted(records, allowed, {}) && Spells(tail, records) {
        var records :| Permitted(records, allowed, {}) && Spells(tail, records);
        SpelledIsParsed(tail, records, allowed, {});
      }
    }
  }

  /** Parsing a serialised record list, with any padding, recovers it. Neither set of permitted kinds holds zero. */
  lemma ParseOfSerialized(records: seq<Record>, padding: seq<Byte>, allowed: set<nat>)
    requires Permitted(records, allowed, {}) && AllZero(padding) && 0 !in allowed
    ensures Parse(Serialize(records) + padding, allowed, {}) == Some(records)
  {
    hide Parse, Serialize;
    PaddedIsSpelled(records, padding);
    SpelledIsParsed(Serialize(records) + padding, records, allowed, {});
  }

  lemma PaddedIsSpelled(records: seq<Record>, padding: seq<Byte>)
    requires AllZero(padding) && forall i :: 0 <= i < |records| ==> Encodable(records[i])
    ensures Spells(Serialize(records) + padding, records)
  {
    hide Serialize;
    var s := Serialize(records);
    assert (s + padding)[..|s|] == s && (s + padding)[|s|..] == padding;
  }
}
