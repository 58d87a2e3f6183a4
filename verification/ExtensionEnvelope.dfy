/** The Wire 3 extension envelope: a length-prefixed core followed by length-delimited
    fields, one of which carries the capability list of a HELLO.

    Every failure of the source is a `CodecError`, and so is the overflow of a length prefix,
    which `struct` refuses. */
module ExtensionEnvelopes {
  import opened Bytes

  datatype Result<T> = Ok(value: T) | CodecError

  datatype Field = Field(id: int, value: bytes)

  const U16_LIMIT: nat := 0x1_0000
  const U32_LIMIT: nat := 0x1_0000_0000
  const MSG_HELLO: nat := 2
  const CAPABILITIES: nat := 1

  /** `flags & EXTENSIONS_PRESENT`, the bit of weight 4. */
  predicate ExtensionsPresent(flags: nat) {
    flags / 4 % 2 == 1
  }

  /** The flag is the third bit from the right, whatever the others are. */
  lemma ExtensionFlag(high: nat, low: nat)
    requires low < 4
    ensures ExtensionsPresent(8 * high + 4 + low) && !ExtensionsPresent(8 * high + low)
  {
    assert (8 * high + 4 + low) / 4 == 2 * high + 1 && (8 * high + low) / 4 == 2 * high;
  }

  // ----- Big-endian numbers -----

  function U16(n: nat): (b: bytes)
    requires n < U16_LIMIT
    ensures |b| == 2
  {
    [n / 256, n % 256]
  }

  function U32(n: nat): (b: bytes)
    requires n < U32_LIMIT
    ensures |b| == 4
  {
    U16(n / U16_LIMIT) + U16(n % U16_LIMIT)
  }

  function Read16(b: bytes, at: nat): (n: nat)
    requires at + 2 <= |b|
    ensures n < U16_LIMIT
  {
    var high: int, low: int := b[at], b[at + 1];
    high * 256 + low
  }

  function Read32(b: bytes, at: nat): (n: nat)
    requires at + 4 <= |b|
    ensures n < U32_LIMIT
  {
    Read16(b, at) * U16_LIMIT + Read16(b, at + 2)
  }

  lemma Read16OfU16(n: nat, rest: bytes)
    requires n < U16_LIMIT
    ensures Read16(U16(n) + rest, 0) == n
  {
  }

  lemma Read32OfU32(n: nat, rest: bytes)
    requires n < U32_LIMIT
    ensures Read32(U32(n) + rest, 0) == n
  {
    var b := U32(n) + rest;
    assert b[0] == n / U16_LIMIT / 256 && b[1] == n / U16_LIMIT % 256;
    assert b[2] == n % U16_LIMIT / 256 && b[3] == n % U16_LIMIT % 256;
  }

  lemma U16OfRead16(b: bytes)
    requires |b| == 2
    ensures U16(Read16(b, 0)) == b
  {
  }

  lemma U32OfRead32(b: bytes)
    requires |b| == 4
    ensures U32(Read32(b, 0)) == b
  {
    var n := Read32(b, 0);
    HighAndLow(Read16(b, 0), Read16(b, 2));
    assert n / U16_LIMIT == Read16(b, 0) && n % U16_LIMIT == Read16(b, 2);
    U16OfRead16(b[..2]);
    U16OfRead16(b[2..]);
    assert b == b[..2] + b[2..];
  }

  lemma HighAndLow(high: nat, low: nat)
    requires low < U16_LIMIT
    ensures (high * U16_LIMIT + low) / U16_LIMIT == high && (high * U16_LIMIT + low) % U16_LIMIT == low
  {
  }

  // ----- Capability lists -----

  predicate ValidIds(ids: seq<int>) {
    && |ids| < U16_LIMIT
    && (forall i :: 0 <= i < |ids| ==> 0 < ids[i] < U32_LIMIT)
    && (forall i, j :: 0 <= i < |ids| && j == i + 1 && j < |ids| ==> ids[i] < ids[j])
  }

  function IdBytes(ids: seq<int>): (b: bytes)
    requires forall i :: 0 <= i < |ids| ==> 0 < ids[i] < U32_LIMIT
    ensures |b| == 4 * |ids|
  {
    if ids == [] then [] else U32(ids[0]) + IdBytes(ids[1..])
  }

  function EncodeCapabilities(ids: seq<int>): Result<bytes> {
    if ValidIds(ids) then Ok(U16(|ids|) + IdBytes(ids)) else CodecError
  }

  function ReadIds(value: bytes, count: nat): (ids: seq<int>)
    requires |value| == 2 + 4 * count
  {
    seq(count, i requires 0 <= i < count => Read32(value, 2 + 4 * i))
  }

  /** The capability field of a HELLO: its count must fit its size, and re-encoding it must
      not fail. */
  function DecodeCapabilities(value: bytes): Result<seq<int>> {
    if |value| < 2 || |value| != 2 + 4 * Read16(value, 0) then CodecError
    else
      var ids := ReadIds(value, Read16(value, 0));
      if EncodeCapabilities(ids).Ok? then Ok(ids) else CodecError
  }

  lemma {:induction false} IdBytesAt(ids: seq<int>, i: nat)
    requires forall k :: 0 <= k < |ids| ==> 0 < ids[k] < U32_LIMIT
    requires i < |ids|
    ensures IdBytes(ids)[4 * i..4 * i + 4] == U32(ids[i])
  {
    if i > 0 {
      IdBytesAt(ids[1..], i - 1);
      assert IdBytes(ids)[4 * i..4 * i + 4] == IdBytes(ids[1..])[4 * (i - 1)..4 * (i - 1) + 4];
    }
  }

  lemma Read32Within(b: bytes, at: nat)
    requires at + 4 <= |b|
    ensures Read32(b, at) == Read32(b[at..at + 4], 0)
  {
  }

  lemma {:induction false} BytesOfIds(b: bytes, ids: seq<int>)
    requires forall k :: 0 <= k < |ids| ==> 0 < ids[k] < U32_LIMIT
    requires |b| == 4 * |ids| && forall i :: 0 <= i < |ids| ==> ids[i] == Read32(b, 4 * i)
    ensures b == IdBytes(ids)
  {
    if ids != [] {
      var rest := b[4..];
      forall i | 0 <= i < |ids[1..]|
        ensures ids[1..][i] == Read32(rest, 4 * i)
      {
        assert ids[i + 1] == Read32(b, 4 * (i + 1));
        Read32Within(b, 4 * (i + 1));
        Read32Within(rest, 4 * i);
        assert b[4 * (i + 1)..4 * (i + 1) + 4] == rest[4 * i..4 * i + 4];
      }
      BytesOfIds(rest, ids[1..]);
      Read32Within(b, 0);
      U32OfRead32(b[..4]);
      assert b == b[..4] + rest;
    }
  }

  /** A value decodes to a capability list exactly if it is that list's encoding. */
  lemma CapabilitiesExactly(value: bytes, ids: seq<int>)
    ensures DecodeCapabilities(value) == Ok(ids) <==> EncodeCapabilities(ids) == Ok(value)
  {
    if EncodeCapabilities(ids) == Ok(value) {
      DecodesEncoded(ids);
    }
    if DecodeCapabilities(value) == Ok(ids) {
      forall i | 0 <= i < |ids|
        ensures ids[i] == Read32(value[2..], 4 * i)
      {
        Read32Within(value, 2 + 4 * i);
        Read32Within(value[2..], 4 * i);
        assert value[2 + 4 * i..2 + 4 * i + 4] == value[2..][4 * i..4 * i + 4];
      }
      BytesOfIds(value[2..], ids);
      U16OfRead16(value[..2]);
      assert value == value[..2] + value[2..];
    }
  }

  lemma TailSlice(head: bytes, tail: bytes, at: nat)
    requires at + 4 <= |tail|
    ensures (head + tail)[|head| + at..|head| + at + 4] == tail[at..at + 4]
  {
  }

  lemma ReadsBack(b: bytes, at: nat, n: nat)
    requires at + 4 <= |b| && n < U32_LIMIT && b[at..at + 4] == U32(n)
    ensures Read32(b, at) == n
  {
    hide *;
    Read32Within(b, at);
    Read32OfU32(n, []);
    assert U32(n) + [] == U32(n);
  }

  lemma ReadsBehind(head: bytes, tail: bytes, at: nat, n: nat)
    requires |head| == 2 && at + 4 <= |tail| && n < U32_LIMIT && tail[at..at + 4] == U32(n)
    ensures Read32(head + tail, 2 + at) == n
  {
    hide *;
    TailSlice(head, tail, at);
    ReadsBack(head + tail, 2 + at, n);
  }

  lemma IdReadBack(ids: seq<int>, i: nat)
    requires ValidIds(ids) && i < |ids|
    ensures Read32(U16(|ids|) + IdBytes(ids), 2 + 4 * i) == ids[i]
  {
    IdBytesAt(ids, i);
    var head, tail, n := U16(|ids|), IdBytes(ids), ids[i];
    ReadsBehind(head, tail, 4 * i, n);
    hide *;
  }

  lemma IdsReadBack(ids: seq<int>)
    requires ValidIds(ids)
    ensures ReadIds(U16(|ids|) + IdBytes(ids), |ids|) == ids
  {
    hide U16, IdBytes, Read32;
    var read := ReadIds(U16(|ids|) + IdBytes(ids), |ids|);
    forall i | 0 <= i < |ids|
      ensures read[i] == ids[i]
    {
      IdReadBack(ids, i);
    }
  }

  lemma DecodesEncoded(ids: seq<int>)
    requires ValidIds(ids)
    ensures DecodeCapabilities(U16(|ids|) + IdBytes(ids)) == Ok(ids)
  {
    Read16OfU16(|ids|, IdBytes(ids));
    IdsReadBack(ids);
    hide U16, IdBytes, Read16, ReadIds;
  }

  // ----- The grammar -----

  predicate ValidField(f: Field) {
    0 < f.id < U16_LIMIT && |f.value| < U32_LIMIT
  }

  function FieldBytes(f: Field): (b: bytes)
    requires ValidField(f)
    ensures |b| == 6 + |f.value|
  {
    U16(f.id) + U32(|f.value|) + f.value
  }

  predicate ValidFields(fs: seq<Field>) {
    forall i :: 0 <= i < |fs| ==> ValidField(fs[i])
  }

  function FieldsBytes(fs: seq<Field>): bytes
    requires ValidFields(fs)
  {
    if fs == [] then [] else FieldBytes(fs[0]) + FieldsBytes(fs[1..])
  }

  predicate WellFormed(core: bytes, fs: seq<Field>) {
    |core| < U32_LIMIT && ValidFields(fs)
  }

  function Envelope(core: bytes, fs: seq<Field>): bytes
    requires WellFormed(core, fs)
  {
    U32(|core|) + core + FieldsBytes(fs)
  }

  /** What `encode_payload` gives: without fields, the core itself. */
  function Encoded(core: bytes, fs: seq<Field>): bytes
    requires fs == [] || WellFormed(core, fs)
  {
    if fs == [] then core else Envelope(core, fs)
  }

  /** Exactly one field is numbered 1, and it carries the list. */
  predicate Carries(fs: seq<Field>, ids: seq<int>) {
    exists i :: 0 <= i < |fs| && CarriesAt(fs, i, ids)
  }

  predicate CarriesAt(fs: seq<Field>, i: nat, ids: seq<int>)
    requires i < |fs|
  {
    && fs[i].id == CAPABILITIES && EncodeCapabilities(ids) == Ok(fs[i].value)
    && forall j :: 0 <= j < |fs| && j != i ==> fs[j].id != CAPABILITIES
  }

  /** What an envelope means to the reader of a message type. */
  ghost predicate Means(payload: bytes, messageType: nat, core: bytes, ids: seq<int>) {
    exists fs :: Spells(payload, core, fs) && (if messageType == MSG_HELLO then Carries(fs, ids) else ids == [])
  }

  ghost predicate Spells(payload: bytes, core: bytes, fs: seq<Field>) {
    fs != [] && WellFormed(core, fs) && payload == Envelope(core, fs)
  }

  // ----- Encoding -----

  predicate Ascending(fs: seq<Field>, previous: int) {
    fs == [] || (previous < fs[0].id < U16_LIMIT && |fs[0].value| < U32_LIMIT && Ascending(fs[1..], fs[0].id))
  }

  lemma {:induction false} AscendingIsValid(fs: seq<Field>, previous: nat)
    requires Ascending(fs, previous)
    ensures ValidFields(fs) && forall i :: 0 <= i < |fs| ==> previous < fs[i].id
    ensures forall i, j :: 0 <= i < j < |fs| ==> fs[i].id < fs[j].id
  {
    if fs != [] {
      AscendingIsValid(fs[1..], fs[0].id);
      assert forall i :: 0 < i < |fs| ==> fs[i] == fs[1..][i - 1];
    }
  }

  lemma {:induction false} FieldsBytesAppend(fs: seq<Field>, gs: seq<Field>)
    requires ValidFields(fs) && ValidFields(gs)
    ensures ValidFields(fs + gs) && FieldsBytes(fs + gs) == FieldsBytes(fs) + FieldsBytes(gs)
  {
    if fs == [] {
      assert fs + gs == gs;
    } else {
      FieldsBytesAppend(fs[1..], gs);
      assert (fs + gs)[1..] == fs[1..] + gs && (fs + gs)[0] == fs[0];
      hide FieldBytes;
      var head := FieldBytes(fs[0]);
      assert head + (FieldsBytes(fs[1..]) + FieldsBytes(gs)) == (head + FieldsBytes(fs[1..])) + FieldsBytes(gs);
    }
  }

  /** `encode_payload`: without fields the core goes out bare. */
  method EncodePayload(core: bytes, fields: seq<Field>) returns (r: Result<bytes>)
    ensures r.Ok? <==> fields == [] || (Ascending(fields, 0) && |core| < U32_LIMIT)
    ensures r.Ok? ==> (fields == [] || WellFormed(core, fields)) && r.value == Encoded(core, fields)
  {
    if fields == [] {
      return Ok(core);
    }
    var previous, i := 0, 0;
    var entries: bytes := [];
    while i < |fields|
      invariant i <= |fields| && 0 <= previous
      invariant ValidFields(fields[..i]) && entries == FieldsBytes(fields[..i])
      invariant Ascending(fields, 0) <==> Ascending(fields[i..], previous)
    {
      var f := fields[i];
      assert fields[i..][0] == f && fields[i..][1..] == fields[i + 1..];
      if !(previous < f.id < U16_LIMIT) || |f.value| >= U32_LIMIT {
        return CodecError;
      }
      FieldsBytesAppend(fields[..i], [f]);
      assert fields[..i + 1] == fields[..i] + [f];
      assert FieldsBytes([f]) == FieldBytes(f) + [] == FieldBytes(f);
      entries := entries + U16(f.id) + U32(|f.value|);
      entries := entries + f.value;
      previous, i := f.id, i + 1;
    }
    assert fields[..i] == fields;
    if |core| >= U32_LIMIT {
      return CodecError;
    }
    return Ok(U32(|core|) + core + entries);
  }

  // ----- Decoding -----

  /** The loop of `decode_payload` over what is left of the payload: `found` is the
      capability list so far. */
  function Scan(b: bytes, handshake: bool, found: Result<seq<int>>, fieldsSeen: bool): Result<seq<int>>
    decreases |b|
  {
    if b == [] then
      if !fieldsSeen || (handshake && found == CodecError) then CodecError
      else if found.Ok? then found else Ok([])
    else if |b| < 6 then CodecError
    else
      var id, size := Read16(b, 0), Read32(b, 2);
      if id == 0 || size > |b| - 6 then CodecError
      else if handshake && id == CAPABILITIES then
        if found.Ok? then CodecError
        else
          var ids := DecodeCapabilities(b[6..6 + size]);
          if ids.Ok? then Scan(b[6 + size..], handshake, ids, true) else CodecError
      else Scan(b[6 + size..], handshake, found, true)
  }

  datatype Decoded = Decoded(core: bytes, capabilities: seq<int>)

  function Decode(payload: bytes, messageType: nat, flags: nat): Result<Decoded> {
    if !ExtensionsPresent(flags) then
      if messageType == MSG_HELLO then CodecError else Ok(Decoded(payload, []))
    else if |payload| < 4 || 4 + Read32(payload, 0) > |payload| then CodecError
    else
      var coreEnd := 4 + Read32(payload, 0);
      var ids := Scan(payload[coreEnd..], messageType == MSG_HELLO, CodecError, false);
      if ids.Ok? then Ok(Decoded(payload[4..coreEnd], ids.value)) else CodecError
  }

  lemma HeaderAtCursor(payload: bytes, cursor: nat)
    requires cursor + 6 <= |payload|
    ensures Read16(payload, cursor) == Read16(payload[cursor..], 0)
    ensures Read32(payload, cursor + 2) == Read32(payload[cursor..], 2)
  {
  }

  /** `decode_payload`. */
  method DecodePayload(payload: bytes, messageType: nat, flags: nat) returns (r: Result<Decoded>)
    ensures r == Decode(payload, messageType, flags)
  {
    var handshake := messageType == MSG_HELLO;
    if !ExtensionsPresent(flags) {
      return if handshake then CodecError else Ok(Decoded(payload, []));
    }
    if |payload| < 4 {
      return CodecError;
    }
    var coreEnd := 4 + Read32(payload, 0);
    if coreEnd > |payload| {
      return CodecError;
    }
    var cursor := coreEnd;
    var capabilities: Result<seq<int>> := CodecError;
    var fieldsSeen := false;
    hide DecodeCapabilities;
    while cursor < |payload|
      invariant coreEnd <= cursor <= |payload|
      invariant Scan(payload[cursor..], handshake, capabilities, fieldsSeen)
             == Scan(payload[coreEnd..], handshake, CodecError, false)
    {
      ghost var left := payload[cursor..];
      if |payload| - cursor < 6 {
        return CodecError;
      }
      var id, size := Read16(payload, cursor), Read32(payload, cursor + 2);
      HeaderAtCursor(payload, cursor);
      cursor := cursor + 6;
      if id == 0 || size > |payload| - cursor {
        return CodecError;
      }
      assert payload[cursor..cursor + size] == left[6..6 + size];
      if handshake && id == CAPABILITIES {
        if capabilities.Ok? {
          return CodecError;
        }
        capabilities := DecodeCapabilities(payload[cursor..cursor + size]);
        if capabilities == CodecError {
          return CodecError;
        }
      }
      cursor, fieldsSeen := cursor + size, true;
      assert payload[cursor..] == left[6 + size..];
    }
    if !fieldsSeen || (handshake && capabilities == CodecError) {
      return CodecError;
    }
    return Ok(Decoded(payload[4..coreEnd], if capabilities.Ok? then capabilities.value else []));
  }

  // ----- Decoding accepts exactly the grammar -----

  /** Reading the fields of an envelope one by one, without looking into them. */
  function ParseFields(b: bytes): Result<seq<Field>>
    decreases |b|
  {
    if b == [] then Ok([])
    else if |b| < 6 || Read16(b, 0) == 0 || Read32(b, 2) > |b| - 6 then CodecError
    else
      var end := 6 + Read32(b, 2);
      var rest := ParseFields(b[end..]);
      if rest.Ok? then Ok([Field(Read16(b, 0), b[6..end])] + rest.value) else CodecError
  }

  lemma HeaderReadsBack(f: Field, rest: bytes)
    requires ValidField(f)
    ensures var b := FieldBytes(f) + rest;
      && Read16(b, 0) == f.id && Read32(b, 2) == |f.value|
      && b[6..6 + |f.value|] == f.value && b[6 + |f.value|..] == rest
  {
    var b := FieldBytes(f) + rest;
    assert b == U16(f.id) + (U32(|f.value|) + f.value + rest);
    Read16OfU16(f.id, U32(|f.value|) + f.value + rest);
    assert b[2..] == U32(|f.value|) + (f.value + rest);
    Read32OfU32(|f.value|, f.value + rest);
    Read32Within(b, 2);
    Read32Within(b[2..], 0);
    assert b[2..6] == b[2..][0..4];
  }

  lemma HeaderWritesBack(b: bytes)
    requires 6 <= |b| && Read16(b, 0) != 0 && Read32(b, 2) <= |b| - 6
    ensures var f := Field(Read16(b, 0), b[6..6 + Read32(b, 2)]);
      ValidField(f) && b == FieldBytes(f) + b[6 + Read32(b, 2)..]
  {
    U16OfRead16(b[..2]);
    U32OfRead32(b[2..6]);
    Read32Within(b, 2);
    var end := 6 + Read32(b, 2);
    assert b == b[..2] + b[2..6] + b[6..end] + b[end..];
  }

  lemma {:induction false} ParsesWritten(fs: seq<Field>)
    requires ValidFields(fs)
    ensures ParseFields(FieldsBytes(fs)) == Ok(fs)
    decreases |fs|
  {
    if fs != [] {
      ParsesWritten(fs[1..]);
      HeaderReadsBack(fs[0], FieldsBytes(fs[1..]));
      hide FieldBytes, Read16, Read32;
      assert fs == [fs[0]] + fs[1..];
    }
  }

  lemma {:induction false} ParsedIsWritten(b: bytes)
    requires ParseFields(b).Ok?
    ensures ValidFields(ParseFields(b).value) && b == FieldsBytes(ParseFields(b).value)
    decreases |b|
  {
    if b != [] {
      HeaderWritesBack(b);
      var end, fs := 6 + Read32(b, 2), ParseFields(b).value;
      ParsedIsWritten(b[end..]);
      hide FieldBytes, Read16, Read32;
      assert fs[1..] == ParseFields(b[end..]).value && fs[0] == Field(Read16(b, 0), b[6..end]);
    }
  }

  predicate Mentions(fs: seq<Field>) {
    exists i :: 0 <= i < |fs| && fs[i].id == CAPABILITIES
  }

  /** The loop on a payload whose fields are not looked into. */
  lemma {:induction false} ScanSkips(b: bytes, fieldsSeen: bool)
    ensures Scan(b, false, CodecError, fieldsSeen)
         == if ParseFields(b).Ok? && (fieldsSeen || b != []) then Ok([]) else CodecError
    decreases |b|
  {
    if 6 <= |b| && Read16(b, 0) != 0 && Read32(b, 2) <= |b| - 6 {
      ScanSkips(b[6 + Read32(b, 2)..], true);
    }
  }

  /** The loop on a HELLO, after its capability list: there must be no second one. */
  lemma {:induction false} ScanAfterList(b: bytes, ids: seq<int>)
    ensures Scan(b, true, Ok(ids), true)
         == if ParseFields(b).Ok? && !Mentions(ParseFields(b).value) then Ok(ids) else CodecError
    decreases |b|
  {
    if 6 <= |b| && Read16(b, 0) != 0 && Read32(b, 2) <= |b| - 6 {
      var end := 6 + Read32(b, 2);
      ScanAfterList(b[end..], ids);
      if ParseFields(b).Ok? {
        var fs, rest := ParseFields(b).value, ParseFields(b[end..]).value;
        assert fs == [Field(Read16(b, 0), b[6..end])] + rest;
        MentionsHead(fs[0], rest);
      }
    }
  }

  lemma MentionsHead(f: Field, rest: seq<Field>)
    ensures Mentions([f] + rest) <==> f.id == CAPABILITIES || Mentions(rest)
  {
    var fs := [f] + rest;
    assert fs[0] == f;
    if Mentions(rest) {
      var i :| 0 <= i < |rest| && rest[i].id == CAPABILITIES;
      assert fs[i + 1] == rest[i];
    }
    if Mentions(fs) && f.id != CAPABILITIES {
      var i :| 0 <= i < |fs| && fs[i].id == CAPABILITIES;
      assert rest[i - 1] == fs[i];
    }
  }

  lemma CarriesHead(f: Field, rest: seq<Field>, ids: seq<int>)
    ensures Carries([f] + rest, ids) <==>
      if f.id == CAPABILITIES then EncodeCapabilities(ids) == Ok(f.value) && !Mentions(rest) else Carries(rest, ids)
  {
    var fs := [f] + rest;
    forall i | 0 <= i < |rest|
      ensures CarriesAt(rest, i, ids) && f.id != CAPABILITIES <==> CarriesAt(fs, i + 1, ids)
    {
      CarriesShifts(f, rest, i, ids);
    }
    assert CarriesAt(fs, 0, ids) <==>
      f.id == CAPABILITIES && EncodeCapabilities(ids) == Ok(f.value) && !Mentions(rest) by {
      CarriedFirst(f, rest, ids);
    }
    hide CarriesAt, Mentions;
    if Carries(fs, ids) {
      var i :| 0 <= i < |fs| && CarriesAt(fs, i, ids);
      assert i > 0 ==> CarriesAt(rest, i - 1, ids);
    }
  }

  lemma CarriesShifts(f: Field, rest: seq<Field>, i: nat, ids: seq<int>)
    requires i < |rest|
    ensures CarriesAt(rest, i, ids) && f.id != CAPABILITIES <==> CarriesAt([f] + rest, i + 1, ids)
  {
    var fs := [f] + rest;
    assert fs[0] == f && forall j :: 0 <= j < |rest| ==> rest[j] == fs[j + 1];
  }

  lemma CarriedFirst(f: Field, rest: seq<Field>, ids: seq<int>)
    ensures CarriesAt([f] + rest, 0, ids)
      <==> f.id == CAPABILITIES && EncodeCapabilities(ids) == Ok(f.value) && !Mentions(rest)
  {
    var fs := [f] + rest;
    assert forall j :: 0 <= j < |rest| ==> rest[j] == fs[j + 1];
  }

  /** The loop on a HELLO: it finds a list exactly if one field carries it. */
  lemma {:induction false} ScanFinds(b: bytes, fieldsSeen: bool, ids: seq<int>)
    ensures Scan(b, true, CodecError, fieldsSeen) == Ok(ids)
      <==> ParseFields(b).Ok? && Carries(ParseFields(b).value, ids)
    decreases |b|
  {
    if 6 <= |b| && Read16(b, 0) != 0 && Read32(b, 2) <= |b| - 6 {
      var end := 6 + Read32(b, 2);
      ScanFinds(b[end..], true, ids);
      CapabilitiesExactly(b[6..end], ids);
      if Read16(b, 0) == CAPABILITIES && DecodeCapabilities(b[6..end]).Ok? {
        ScanAfterList(b[end..], DecodeCapabilities(b[6..end]).value);
      }
      if ParseFields(b[end..]).Ok? {
        CarriesHead(Field(Read16(b, 0), b[6..end]), ParseFields(b[end..]).value, ids);
      }
    }
  }

  lemma EnvelopeReadsBack(core: bytes, fs: seq<Field>)
    requires WellFormed(core, fs)
    ensures var p := Envelope(core, fs);
      && 4 + |core| <= |p| && Read32(p, 0) == |core|
      && p[4..4 + |core|] == core && p[4 + |core|..] == FieldsBytes(fs)
  {
    var p := Envelope(core, fs);
    assert p == U32(|core|) + (core + FieldsBytes(fs));
    Read32OfU32(|core|, core + FieldsBytes(fs));
  }

  /** `decode_payload` succeeds on exactly the byte strings of the envelope grammar, with the
      core and, for a HELLO, the capability list that they spell. */
  lemma DecodesExactlyTheGrammar(payload: bytes, messageType: nat, flags: nat, core: bytes, ids: seq<int>)
    requires ExtensionsPresent(flags)
    ensures Decode(payload, messageType, flags) == Ok(Decoded(core, ids)) <==> Means(payload, messageType, core, ids)
  {
    if Decode(payload, messageType, flags) == Ok(Decoded(core, ids)) {
      DecodedIsMeant(payload, messageType, flags, core, ids);
    }
    if Means(payload, messageType, core, ids) {
      var fs :| Spells(payload, core, fs) && (if messageType == MSG_HELLO then Carries(fs, ids) else ids == []);
      EnvelopeReadsBack(core, fs);
      ParsesWritten(fs);
      var b := FieldsBytes(fs);
      ScanSkips(b, false);
      ScanFinds(b, false, ids);
    }
  }

  lemma DecodedIsMeant(payload: bytes, messageType: nat, flags: nat, core: bytes, ids: seq<int>)
    requires ExtensionsPresent(flags) && Decode(payload, messageType, flags) == Ok(Decoded(core, ids))
    ensures Means(payload, messageType, core, ids)
  {
    var b := payload[4 + Read32(payload, 0)..];
    CoreWritesBack(payload);
    ScanSkips(b, false);
    ScanFinds(b, false, ids);
    ParsedIsWritten(b);
    hide Scan, ParseFields, FieldsBytes, U32, Read32, Carries;
    assert Spells(payload, core, ParseFields(b).value);
  }

  lemma CoreWritesBack(payload: bytes)
    requires 4 <= |payload| && 4 + Read32(payload, 0) <= |payload|
    ensures payload == U32(Read32(payload, 0)) + payload[4..4 + Read32(payload, 0)] + payload[4 + Read32(payload, 0)..]
  {
    U32OfRead32(payload[..4]);
    Read32Within(payload, 0);
  }

  // ----- Round trips and prefixes -----

  /** Decoding inverts `encode_payload` when the flag says whether there are fields; a HELLO
      gives back the ids exactly when its field 1, which ascending order puts first, is there
      and is their encoding. */
  lemma DecodesEncodedPayload(core: bytes, fs: seq<Field>, messageType: nat, flags: nat, ids: seq<int>)
    requires Ascending(fs, 0) && (fs != [] ==> |core| < U32_LIMIT)
    requires ExtensionsPresent(flags) <==> fs != []
    ensures fs == [] || WellFormed(core, fs)
    ensures messageType != MSG_HELLO ==> Decode(Encoded(core, fs), messageType, flags) == Ok(Decoded(core, []))
    ensures messageType == MSG_HELLO ==>
      (Decode(Encoded(core, fs), messageType, flags) == Ok(Decoded(core, ids))
       <==> fs != [] && fs[0].id == CAPABILITIES && EncodeCapabilities(ids) == Ok(fs[0].value))
  {
    if fs != [] {
      AscendingIsValid(fs, 0);
      EnvelopeReadsBack(core, fs);
      ParsesWritten(fs);
      var b := FieldsBytes(fs);
      ScanSkips(b, false);
      ScanFinds(b, false, ids);
      assert Carries(fs, ids) <==> fs[0].id == CAPABILITIES && EncodeCapabilities(ids) == Ok(fs[0].value) by {
        FirstCarries(fs, ids);
      }
    }
  }

  lemma FirstCarries(fs: seq<Field>, ids: seq<int>)
    requires fs != [] && forall i :: 0 <= i < |fs| ==> 0 < fs[i].id
    requires forall i, j :: 0 <= i < j < |fs| ==> fs[i].id < fs[j].id
    ensures Carries(fs, ids) <==> fs[0].id == CAPABILITIES && EncodeCapabilities(ids) == Ok(fs[0].value)
  {
    if fs[0].id == CAPABILITIES && EncodeCapabilities(ids) == Ok(fs[0].value) {
      assert CarriesAt(fs, 0, ids);
    }
  }

  /** Without the flag a payload is its own core, and a HELLO is an error whatever it holds;
      with it a HELLO without a capability list is one. */
  lemma HelloNeedsItsList(payload: bytes, messageType: nat, flags: nat, core: bytes, ids: seq<int>)
    ensures !ExtensionsPresent(flags) ==>
      Decode(payload, messageType, flags) == if messageType == MSG_HELLO then CodecError else Ok(Decoded(payload, []))
    ensures Decode(payload, MSG_HELLO, flags) == Ok(Decoded(core, ids)) ==>
      ExtensionsPresent(flags) && exists fs :: Spells(payload, core, fs) && Carries(fs, ids)
  {
    if Decode(payload, MSG_HELLO, flags) == Ok(Decoded(core, ids)) {
      DecodesExactlyTheGrammar(payload, MSG_HELLO, flags, core, ids);
    }
  }

  /** Exactly the lists of at most 65535 strictly ascending positive u32 ids can be encoded. */
  lemma EncodableExactly(ids: seq<int>)
    ensures EncodeCapabilities(ids).Ok? <==>
      && |ids| <= 65535
      && (forall i :: 0 <= i < |ids| ==> 1 <= ids[i] <= 0xFFFF_FFFF)
      && (forall i, j :: 0 <= i < j < |ids| ==> ids[i] < ids[j])
  {
    if EncodeCapabilities(ids).Ok? {
      forall i, j | 0 <= i < j < |ids| ensures ids[i] < ids[j] {
        Ascends(ids, i, j);
      }
    }
  }

  lemma {:induction false} Ascends(ids: seq<int>, i: nat, j: nat)
    requires ValidIds(ids) && i < j < |ids|
    ensures ids[i] < ids[j]
    decreases j
  {
    if i + 1 < j {
      Ascends(ids, i, j - 1);
    }
    assert ids[j - 1] < ids[j];
  }

  /** `n` is the length of the first `k` fields. */
  predicate EndsField(fs: seq<Field>, k: nat, n: nat) {
    k <= |fs| && ValidFields(fs[..k]) && n == |FieldsBytes(fs[..k])|
  }

  lemma EndsFieldHead(fs: seq<Field>, k: nat, n: nat)
    requires ValidFields(fs) && fs != [] && 6 + |fs[0].value| <= n
    ensures EndsField(fs, k + 1, n) <==> EndsField(fs[1..], k, n - 6 - |fs[0].value|)
  {
    if k + 1 <= |fs| {
      assert fs[..k + 1][1..] == fs[1..][..k] && fs[..k + 1][0] == fs[0];
    }
  }

  lemma {:induction false} FieldsAtLeastOne(fs: seq<Field>, k: nat)
    requires ValidFields(fs) && 0 < k <= |fs|
    ensures EndsField(fs, k, |FieldsBytes(fs[..k])|) && 6 + |fs[0].value| <= |FieldsBytes(fs[..k])|
  {
    assert fs[..k][0] == fs[0];
  }

  /** A prefix of written fields parses exactly when it ends with a field, and then to the
      fields before the cut. */
  lemma {:induction false} ParsesPrefix(fs: seq<Field>, n: nat, gs: seq<Field>)
    requires ValidFields(fs) && n <= |FieldsBytes(fs)|
    ensures ParseFields(FieldsBytes(fs)[..n]) == Ok(gs) <==> EndsField(fs, |gs|, n) && gs == fs[..|gs|]
    decreases |fs|
  {
    var b := FieldsBytes(fs)[..n];
    if n == 0 {
      assert b == [] && fs[..0] == [];
      if 0 < |gs| <= |fs| { FieldsAtLeastOne(fs, |gs|); }
    } else {
      PrefixHeader(fs, n);
      if 0 < |gs| <= |fs| { FieldsAtLeastOne(fs, |gs|); }
      var end := 6 + |fs[0].value|;
      if end <= n {
        if gs != [] {
          HeadOfPrefix(fs, gs);
          ParsesPrefix(fs[1..], n - end, gs[1..]);
          EndsFieldHead(fs, |gs| - 1, n);
          ParsedHead(b, gs);
        }
      }
    }
  }

  lemma HeadOfPrefix(fs: seq<Field>, gs: seq<Field>)
    requires fs != [] && gs != []
    ensures |gs| <= |fs| ==> (gs == fs[..|gs|] <==> gs[0] == fs[0] && gs[1..] == fs[1..][..|gs| - 1])
  {
  }

  lemma ParsedHead(b: bytes, gs: seq<Field>)
    requires gs != [] && 6 <= |b| && Read16(b, 0) != 0 && Read32(b, 2) <= |b| - 6
    ensures ParseFields(b) == Ok(gs)
      <==> gs[0] == Field(Read16(b, 0), b[6..6 + Read32(b, 2)]) && ParseFields(b[6 + Read32(b, 2)..]) == Ok(gs[1..])
  {
    assert gs == [gs[0]] + gs[1..];
  }

  /** What a reader sees of the first field of a cut sequence of fields. */
  lemma PrefixHeader(fs: seq<Field>, n: nat)
    requires ValidFields(fs) && 0 < n <= |FieldsBytes(fs)|
    ensures fs != []
    ensures var b, end := FieldsBytes(fs)[..n], 6 + |fs[0].value|;
      && (6 <= n ==> Read16(b, 0) == fs[0].id && Read32(b, 2) == |fs[0].value|)
      && (end <= n ==> b[6..end] == fs[0].value && b[end..] == FieldsBytes(fs[1..])[..n - end])
  {
    HeaderReadsBack(fs[0], FieldsBytes(fs[1..]));
    var whole := FieldsBytes(fs);
    var b, end := whole[..n], 6 + |fs[0].value|;
    assert whole == FieldBytes(fs[0]) + FieldsBytes(fs[1..]);
    if end <= n {
      assert b[6..end] == whole[6..end] && b[end..] == whole[end..][..n - end];
    }
  }

  /** What a reader makes of a cut envelope: it accepts exactly the cuts that end a field,
      and takes the fields before the cut to be all there are. */
  lemma CutEnvelopes(core: bytes, fs: seq<Field>, n: nat, messageType: nat, flags: nat, c: bytes, ids: seq<int>)
    requires WellFormed(core, fs) && n <= |Envelope(core, fs)| && ExtensionsPresent(flags)
    ensures Decode(Envelope(core, fs)[..n], messageType, flags) == Ok(Decoded(c, ids))
      <==> c == core && exists k :: 1 <= k <= |fs| && CutAfter(core, fs, k, n)
                                    && (if messageType == MSG_HELLO then Carries(fs[..k], ids) else ids == [])
  {
    var cut := Envelope(core, fs)[..n];
    EnvelopeReadsBack(core, fs);
    if n < 4 + |core| {
      assert 4 <= n ==> Read32(cut, 0) == |core|;
      forall k | 1 <= k <= |fs| ensures !CutAfter(core, fs, k, n) {}
    } else {
      var m := n - 4 - |core|;
      assert Read32(cut, 0) == |core| && cut[4..4 + |core|] == core && cut[4 + |core|..] == FieldsBytes(fs)[..m];
      CutFields(fs, m, messageType == MSG_HELLO, ids);
    }
  }

  predicate CutAfter(core: bytes, fs: seq<Field>, k: nat, n: nat) {
    4 + |core| <= n && EndsField(fs, k, n - 4 - |core|)
  }

  lemma CutFields(fs: seq<Field>, m: nat, handshake: bool, ids: seq<int>)
    requires ValidFields(fs) && m <= |FieldsBytes(fs)|
    ensures Scan(FieldsBytes(fs)[..m], handshake, CodecError, false) == Ok(ids)
      <==> exists k :: 1 <= k <= |fs| && EndsField(fs, k, m) && (if handshake then Carries(fs[..k], ids) else ids == [])
  {
    var b := FieldsBytes(fs)[..m];
    ScanSkips(b, false);
    ScanFinds(b, false, ids);
    if Scan(b, handshake, CodecError, false) == Ok(ids) {
      var gs := ParseFields(b).value;
      ParsesPrefix(fs, m, gs);
      assert gs != [];
    }
    forall k | 1 <= k <= |fs| && EndsField(fs, k, m)
      ensures ParseFields(b) == Ok(fs[..k])
    {
      ParsesPrefix(fs, m, fs[..k]);
    }
    if m == 0 {
      forall k | 1 <= k <= |fs| ensures !EndsField(fs, k, m) { FieldsAtLeastOne(fs, k); }
    }
  }

  /** No proper prefix of an envelope with a single field is accepted. */
  lemma SingleFieldEnvelopesAreNotCut(core: bytes, f: Field, n: nat, messageType: nat, flags: nat)
    requires WellFormed(core, [f]) && n < |Envelope(core, [f])| && ExtensionsPresent(flags)
    ensures Decode(Envelope(core, [f])[..n], messageType, flags) == CodecError
  {
    var cut := Envelope(core, [f])[..n];
    assert [f][..1] == [f];
    if Decode(cut, messageType, flags).Ok? {
      var d := Decode(cut, messageType, flags).value;
      CutEnvelopes(core, [f], n, messageType, flags, d.core, d.capabilities);
      assert false;
    }
  }
}
