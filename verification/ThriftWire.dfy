/** The byte layout that the generated readers and writers meet: the Thrift Binary protocol encoding, in which the
  server skeleton speaks.  A value of any wire type is a tree; Encode lays it out, Skip passes over it knowing only its
  wire type.
*/
module ThriftWire {
  import opened Wrappers

  type byte = n: int | 0 <= n < 256
  type Bytes = seq<byte>

  // Wire types, section "Struct" of the Thrift Binary protocol encoding.
  const T_STOP: byte := 0
  const T_BOOL: byte := 2
  const T_BYTE: byte := 3
  const T_DOUBLE: byte := 4
  const T_I16: byte := 6
  const T_I32: byte := 8
  const T_I64: byte := 10
  const T_STRING: byte := 11
  const T_STRUCT: byte := 12
  const T_MAP: byte := 13
  const T_SET: byte := 14
  const T_LIST: byte := 15

  // -------------------------------------------------------------------------------------------------------------
  // Integers
  // -------------------------------------------------------------------------------------------------------------

  function Power256(k: nat): (p: nat)
    ensures p > 0
  {
    if k == 0 then 1 else 256 * Power256(k - 1)
  }

  /** The k-byte big-endian form of n. */
  function BigEndian(n: nat, k: nat): (s: Bytes)
    ensures |s| == k
  {
    if k == 0 then [] else BigEndian(n / 256, k - 1) + [n % 256]
  }

  function Unsigned(s: Bytes): nat {
    if |s| == 0 then 0 else 256 * Unsigned(s[..|s| - 1]) + s[|s| - 1]
  }

  lemma {:induction false} UnsignedBigEndian(n: nat, k: nat)
    requires n < Power256(k)
    ensures Unsigned(BigEndian(n, k)) == n
  {
    if k > 0 {
      assert BigEndian(n, k)[..k - 1] == BigEndian(n / 256, k - 1);
      UnsignedBigEndian(n / 256, k - 1);
    }
  }

  lemma {:induction false} UnsignedBound(s: Bytes)
    ensures Unsigned(s) < Power256(|s|)
  {
    if |s| > 0 {
      UnsignedBound(s[..|s| - 1]);
    }
  }

  type i32 = n: int | -0x8000_0000 <= n < 0x8000_0000
  type i16 = n: int | -0x8000 <= n < 0x8000

  lemma Powers()
    ensures Power256(2) == 0x1_0000 && Power256(4) == 0x1_0000_0000
  {
    assert Power256(1) == 256;
    assert Power256(2) == 0x1_0000;
    assert Power256(3) == 0x100_0000;
  }

  function I32Bytes(n: i32): (s: Bytes)
    ensures |s| == 4
  {
    BigEndian(if n < 0 then n + 0x1_0000_0000 else n, 4)
  }

  function I32Of(s: Bytes): i32
    requires |s| == 4
  {
    UnsignedBound(s);
    Powers();
    var u := Unsigned(s);
    if u < 0x8000_0000 then u else u - 0x1_0000_0000
  }

  lemma I32RoundTrip(n: i32)
    ensures I32Of(I32Bytes(n)) == n
  {
    Powers();
    UnsignedBigEndian(if n < 0 then n + 0x1_0000_0000 else n, 4);
  }

  function I16Bytes(n: i16): (s: Bytes)
    ensures |s| == 2
  {
    BigEndian(if n < 0 then n + 0x1_0000 else n, 2)
  }

  function I16Of(s: Bytes): i16
    requires |s| == 2
  {
    UnsignedBound(s);
    Powers();
    var u := Unsigned(s);
    if u < 0x8000 then u else u - 0x1_0000
  }

  lemma I16RoundTrip(n: i16)
    ensures I16Of(I16Bytes(n)) == n
  {
    Powers();
    UnsignedBigEndian(if n < 0 then n + 0x1_0000 else n, 2);
  }

  /** Sizes travel as 32-bit patterns; a larger size is cut to its low 32 bits, as the writers' casts do. */
  function SizeBytes(n: nat): (s: Bytes)
    ensures |s| == 4
  {
    BigEndian(n % 0x1_0000_0000, 4)
  }

  lemma SizeRoundTrip(n: nat)
    requires n < 0x1_0000_0000
    ensures Unsigned(SizeBytes(n)) == n
  {
    Powers();
    assert n % 0x1_0000_0000 == n;
    UnsignedBigEndian(n, 4);
  }

  // -------------------------------------------------------------------------------------------------------------
  // Values on the wire
  // -------------------------------------------------------------------------------------------------------------

  datatype Wire =
    | Fixed(kind: byte, raw: Bytes)
    | Text(text: Bytes)
    | Struct(fields: seq<WireField>)
    | Sequence(kind: byte, etype: byte, elems: seq<Wire>)
    | Mapping(ktype: byte, vtype: byte, entries: seq<WireEntry>)

  datatype WireField = WireField(id: i16, value: Wire)

  datatype WireEntry = WireEntry(key: Wire, value: Wire)

  /** The width of the types that have one, and 0 for the others. */
  function Width(ty: byte): nat {
    if ty == T_BOOL || ty == T_BYTE then 1
    else if ty == T_I16 then 2
    else if ty == T_I32 then 4
    else if ty == T_I64 || ty == T_DOUBLE then 8
    else 0
  }

  function TypeOf(w: Wire): byte {
    match w
    case Fixed(kind, _) => kind
    case Text(_) => T_STRING
    case Struct(_) => T_STRUCT
    case Sequence(kind, _, _) => kind
    case Mapping(_, _, _) => T_MAP
  }

  /** Sizes fit 32 bits, and the elements of a container have the type its header names. */
  predicate WellFormed(w: Wire) {
    match w
    case Fixed(kind, raw) => Width(kind) > 0 && |raw| == Width(kind)
    case Text(text) => |text| < 0x1_0000_0000
    case Struct(fields) => forall f <- fields :: WellFormed(f.value)
    case Sequence(kind, etype, elems) =>
      && (kind == T_LIST || kind == T_SET)
      && |elems| < 0x1_0000_0000
      && forall e <- elems :: TypeOf(e) == etype && WellFormed(e)
    case Mapping(ktype, vtype, entries) =>
      && |entries| < 0x1_0000_0000
      && forall e <- entries ::
         TypeOf(e.key) == ktype && TypeOf(e.value) == vtype && WellFormed(e.key) && WellFormed(e.value)
  }

  function Encode(w: Wire): Bytes {
    match w
    case Fixed(_, raw) => raw
    case Text(text) => SizeBytes(|text|) + text
    case Struct(fields) => EncodeFields(fields) + [T_STOP]
    case Sequence(_, etype, elems) => [etype] + SizeBytes(|elems|) + EncodeElems(elems)
    case Mapping(ktype, vtype, entries) => [ktype, vtype] + SizeBytes(|entries|) + EncodeEntries(entries)
  }

  function EncodeField(f: WireField): Bytes {
    [TypeOf(f.value)] + I16Bytes(f.id) + Encode(f.value)
  }

  function EncodeFields(fields: seq<WireField>): Bytes {
    if |fields| == 0 then [] else EncodeField(fields[0]) + EncodeFields(fields[1..])
  }

  function EncodeElems(elems: seq<Wire>): Bytes {
    if |elems| == 0 then [] else Encode(elems[0]) + EncodeElems(elems[1..])
  }

  function EncodeEntry(e: WireEntry): Bytes {
    Encode(e.key) + Encode(e.value)
  }

  function EncodeEntries(entries: seq<WireEntry>): Bytes {
    if |entries| == 0 then [] else EncodeEntry(entries[0]) + EncodeEntries(entries[1..])
  }

  /** A field header, or the end of a struct, or a stream too short to hold either. */
  datatype FieldBegin = Broken | Stop(rest: Bytes) | Header(ty: byte, id: i16, rest: Bytes)

  function ParseFieldBegin(s: Bytes): (r: FieldBegin)
    ensures !r.Broken? ==> |r.rest| < |s|
    ensures r.Header? ==> r.ty != T_STOP
  {
    if |s| == 0 then Broken
    else if s[0] == T_STOP then Stop(s[1..])
    else if |s| < 3 then Broken
    else Header(s[0], I16Of(s[1..3]), s[3..])
  }

  // -------------------------------------------------------------------------------------------------------------
  // Skipping
  // -------------------------------------------------------------------------------------------------------------

  /** What is left after a value of the given type; None where the library throws. */
  function Skip(ty: byte, s: Bytes): (r: Option<Bytes>)
    ensures r.Some? ==> |r.value| < |s|
    decreases |s|, 1
  {
    if Width(ty) > 0 then
      if |s| < Width(ty) then None else Some(s[Width(ty)..])
    else if ty == T_STRING then
      if |s| < 4 || |s| < 4 + Unsigned(s[..4]) then None else Some(s[4..][Unsigned(s[..4])..])
    else if ty == T_STRUCT then
      SkipFields(s)
    else if ty == T_LIST || ty == T_SET then
      if |s| < 5 then None else SkipElems(s[0], Unsigned(s[1..5]), s[5..])
    else if ty == T_MAP then
      if |s| < 6 then None else SkipEntries(s[0], s[1], Unsigned(s[2..6]), s[6..])
    else
      None
  }

  function SkipFields(s: Bytes): (r: Option<Bytes>)
    ensures r.Some? ==> |r.value| < |s|
    decreases |s|, 0
  {
    match ParseFieldBegin(s)
    case Broken => None
    case Stop(rest) => Some(rest)
    case Header(ty, _, body) =>
      match Skip(ty, body)
      case None => None
      case Some(rest) => SkipFields(rest)
  }

  function SkipElems(ty: byte, n: nat, s: Bytes): (r: Option<Bytes>)
    ensures r.Some? ==> |r.value| <= |s|
    decreases |s|, 2
  {
    if n == 0 then Some(s)
    else match Skip(ty, s)
      case None => None
      case Some(rest) => SkipElems(ty, n - 1, rest)
  }

  function SkipEntries(ktype: byte, vtype: byte, n: nat, s: Bytes): (r: Option<Bytes>)
    ensures r.Some? ==> |r.value| <= |s|
    decreases |s|, 2
  {
    if n == 0 then Some(s)
    else match Skip(ktype, s)
      case None => None
      case Some(mid) =>
        match Skip(vtype, mid)
        case None => None
        case Some(rest) => SkipEntries(ktype, vtype, n - 1, rest)
  }

  lemma SkipText(text: Bytes, rest: Bytes)
    requires |text| < 0x1_0000_0000
    ensures Skip(T_STRING, SizeBytes(|text|) + text + rest) == Some(rest)
  {
    hide SizeBytes;
    var s := SizeBytes(|text|) + text + rest;
    SizeRoundTrip(|text|);
    assert s[..4] == SizeBytes(|text|);
    assert s[4..] == text + rest;
    assert (text + rest)[|text|..] == rest;
  }

  lemma SequenceHeader(etype: byte, n: nat, body: Bytes)
    requires n < 0x1_0000_0000
    ensures var s := [etype] + SizeBytes(n) + body;
      |s| >= 5 && s[0] == etype && Unsigned(s[1..5]) == n && s[5..] == body
  {
    hide SizeBytes;
    SizeRoundTrip(n);
    assert ([etype] + SizeBytes(n) + body)[1..5] == SizeBytes(n);
  }

  lemma MappingHeader(ktype: byte, vtype: byte, n: nat, body: Bytes)
    requires n < 0x1_0000_0000
    ensures var s := [ktype, vtype] + SizeBytes(n) + body;
      |s| >= 6 && s[0] == ktype && s[1] == vtype && Unsigned(s[2..6]) == n && s[6..] == body
  {
    hide SizeBytes;
    SizeRoundTrip(n);
    assert ([ktype, vtype] + SizeBytes(n) + body)[2..6] == SizeBytes(n);
  }

  lemma FieldHeader(ty: byte, id: i16, body: Bytes)
    requires ty != T_STOP
    ensures ParseFieldBegin([ty] + I16Bytes(id) + body) == Header(ty, id, body)
  {
    hide I16Bytes, I16Of;
    I16RoundTrip(id);
    assert ([ty] + I16Bytes(id) + body)[1..3] == I16Bytes(id);
  }

  lemma RegroupTail(a: Bytes, b: Bytes, c: Bytes, d: Bytes)
    ensures a + b + c + d == a + b + (c + d)
  {
  }

  lemma SkipSequence(kind: byte, etype: byte, n: nat, body: Bytes, rest: Bytes)
    requires (kind == T_LIST || kind == T_SET) && n < 0x1_0000_0000
    requires SkipElems(etype, n, body + rest) == Some(rest)
    ensures Skip(kind, [etype] + SizeBytes(n) + body + rest) == Some(rest)
  {
    RegroupTail([etype], SizeBytes(n), body, rest);
    SkipSequenceAt(kind, etype, n, body + rest);
  }

  lemma SkipSequenceAt(kind: byte, etype: byte, n: nat, body: Bytes)
    requires (kind == T_LIST || kind == T_SET) && n < 0x1_0000_0000
    ensures Skip(kind, [etype] + SizeBytes(n) + body) == SkipElems(etype, n, body)
  {
    hide SizeBytes;
    SequenceHeader(etype, n, body);
  }

  lemma SkipMapping(ktype: byte, vtype: byte, n: nat, body: Bytes, rest: Bytes)
    requires n < 0x1_0000_0000
    requires SkipEntries(ktype, vtype, n, body + rest) == Some(rest)
    ensures Skip(T_MAP, [ktype, vtype] + SizeBytes(n) + body + rest) == Some(rest)
  {
    RegroupTail([ktype, vtype], SizeBytes(n), body, rest);
    SkipMappingAt(ktype, vtype, n, body + rest);
  }

  lemma SkipMappingAt(ktype: byte, vtype: byte, n: nat, body: Bytes)
    requires n < 0x1_0000_0000
    ensures Skip(T_MAP, [ktype, vtype] + SizeBytes(n) + body) == SkipEntries(ktype, vtype, n, body)
  {
    hide SizeBytes;
    MappingHeader(ktype, vtype, n, body);
  }

  /** Skipping passes over exactly one value of its type, whatever follows it. */
  lemma {:induction false} SkipEncode(w: Wire, rest: Bytes)
    requires WellFormed(w)
    ensures Skip(TypeOf(w), Encode(w) + rest) == Some(rest)
    decreases w, 1
  {
    hide SizeBytes;
    match w
    case Fixed(kind, raw) =>
      assert (raw + rest)[|raw|..] == rest;
    case Text(text) =>
      SkipText(text, rest);
    case Struct(fields) =>
      SkipEncodeFields(fields, rest);
      assert Skip(T_STRUCT, EncodeFields(fields) + [T_STOP] + rest)
        == SkipFields(EncodeFields(fields) + [T_STOP] + rest);
    case Sequence(kind, etype, elems) =>
      SkipEncodeElems(etype, elems, rest);
      SkipSequence(kind, etype, |elems|, EncodeElems(elems), rest);
    case Mapping(ktype, vtype, entries) =>
      SkipEncodeEntries(ktype, vtype, entries, rest);
      SkipMapping(ktype, vtype, |entries|, EncodeEntries(entries), rest);
  }

  lemma Regroup(a: Bytes, b: Bytes, c: Bytes, d: Bytes, e: Bytes, f: Bytes)
    ensures a + b + c + d + e + f == a + b + (c + (d + e + f))
  {
  }

  lemma FieldsThenRest(fields: seq<WireField>, rest: Bytes)
    requires |fields| > 0
    ensures EncodeFields(fields) + [T_STOP] + rest
         == [TypeOf(fields[0].value)] + I16Bytes(fields[0].id)
            + (Encode(fields[0].value) + (EncodeFields(fields[1..]) + [T_STOP] + rest))
  {
    var f := fields[0];
    Regroup([TypeOf(f.value)], I16Bytes(f.id), Encode(f.value), EncodeFields(fields[1..]), [T_STOP], rest);
    assert EncodeFields(fields) == [TypeOf(f.value)] + I16Bytes(f.id) + Encode(f.value) + EncodeFields(fields[1..]);
  }

  lemma {:induction false} SkipEncodeFields(fields: seq<WireField>, rest: Bytes)
    requires forall f <- fields :: WellFormed(f.value)
    ensures SkipFields(EncodeFields(fields) + [T_STOP] + rest) == Some(rest)
    decreases fields, 0
  {
    if |fields| == 0 {
      assert ([T_STOP] + rest)[1..] == rest;
      assert EncodeFields(fields) + [T_STOP] + rest == [T_STOP] + rest;
    } else {
      var f := fields[0];
      var after := EncodeFields(fields[1..]) + [T_STOP] + rest;
      TypeIsNotStop(f.value);
      FieldsThenRest(fields, rest);
      FieldHeader(TypeOf(f.value), f.id, Encode(f.value) + after);
      assert f.value < f;
      SkipEncode(f.value, after);
      SkipEncodeFields(fields[1..], rest);
    }
  }

  lemma {:induction false} SkipEncodeElems(ty: byte, elems: seq<Wire>, rest: Bytes)
    requires forall e <- elems :: TypeOf(e) == ty && WellFormed(e)
    ensures SkipElems(ty, |elems|, EncodeElems(elems) + rest) == Some(rest)
    decreases elems, 0
  {
    if |elems| == 0 {
      assert EncodeElems(elems) + rest == rest;
    } else {
      assert EncodeElems(elems) + rest == Encode(elems[0]) + (EncodeElems(elems[1..]) + rest);
      SkipEncode(elems[0], EncodeElems(elems[1..]) + rest);
      SkipEncodeElems(ty, elems[1..], rest);
    }
  }

  lemma {:induction false} SkipEncodeEntries(ktype: byte, vtype: byte, entries: seq<WireEntry>, rest: Bytes)
    requires forall e <- entries ::
      TypeOf(e.key) == ktype && TypeOf(e.value) == vtype && WellFormed(e.key) && WellFormed(e.value)
    ensures SkipEntries(ktype, vtype, |entries|, EncodeEntries(entries) + rest) == Some(rest)
    decreases entries, 0
  {
    if |entries| == 0 {
      assert EncodeEntries(entries) + rest == rest;
    } else {
      var e := entries[0];
      var after := EncodeEntries(entries[1..]) + rest;
      assert EncodeEntries(entries) + rest == Encode(e.key) + (Encode(e.value) + after);
      assert e.key < e && e.value < e;
      SkipEncode(e.key, Encode(e.value) + after);
      SkipEncode(e.value, after);
      SkipEncodeEntries(ktype, vtype, entries[1..], rest);
    }
  }

  lemma TypeIsNotStop(w: Wire)
    requires WellFormed(w)
    ensures TypeOf(w) != T_STOP
  {
  }
}
