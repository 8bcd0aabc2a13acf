/** The encoding in plain numbers: byte order, type codes and widths as the Thrift Binary protocol encoding prints
  them, and the exact set of byte strings that a skip passes over.
*/
module ThriftEncoding {
  import opened Wrappers
  import opened ThriftWire

  // -------------------------------------------------------------------------------------------------------------
  // Integers, most significant byte first, negative numbers in two's complement
  // -------------------------------------------------------------------------------------------------------------

  lemma FourDigits(n: nat)
    requires n < 0x1_0000_0000
    ensures BigEndian(n, 4) == [n / 0x100_0000, n / 0x1_0000 % 256, n / 0x100 % 256, n % 256]
  {
    assert BigEndian(n, 4) == BigEndian(n / 256, 3) + [n % 256];
    assert BigEndian(n / 256, 3) == BigEndian(n / 256 / 256, 2) + [n / 256 % 256];
    assert BigEndian(n / 256 / 256, 2) == BigEndian(n / 256 / 256 / 256, 1) + [n / 256 / 256 % 256];
    assert BigEndian(n / 256 / 256 / 256, 1) == BigEndian(n / 256 / 256 / 256 / 256, 0) + [n / 256 / 256 / 256 % 256];
  }

  lemma NumberInBytes(n: i32)
    ensures var u := if n < 0 then n + 0x1_0000_0000 else n;
      I32Bytes(n) == [u / 0x100_0000, u / 0x1_0000 % 256, u / 0x100 % 256, u % 256]
  {
    FourDigits(if n < 0 then n + 0x1_0000_0000 else n);
  }

  lemma SizeInBytes(n: nat)
    ensures var u := n % 0x1_0000_0000;
      SizeBytes(n) == [u / 0x100_0000, u / 0x1_0000 % 256, u / 0x100 % 256, u % 256]
  {
    FourDigits(n % 0x1_0000_0000);
  }

  lemma I16InBytes(n: i16)
    ensures var u := if n < 0 then n + 0x1_0000 else n;
      I16Bytes(n) == [u / 256, u % 256]
  {
    var u := if n < 0 then n + 0x1_0000 else n;
    assert BigEndian(u, 2) == BigEndian(u / 256, 1) + [u % 256];
    assert BigEndian(u / 256, 1) == BigEndian(u / 256 / 256, 0) + [u / 256 % 256];
  }

  lemma FieldIdInBytes(id: i16)
    requires 0 <= id < 256
    ensures I16Bytes(id) == [0, id]
  {
    I16InBytes(id);
  }

  lemma SizeFromBytes(a: byte, b: byte, c: byte, d: byte)
    ensures Unsigned([a, b, c, d]) == a * 0x100_0000 + b * 0x1_0000 + c * 0x100 + d
  {
    assert [a][..0] == [] && [a, b][..1] == [a] && [a, b, c][..2] == [a, b] && [a, b, c, d][..3] == [a, b, c];
    assert Unsigned([a]) == a;
    assert Unsigned([a, b]) == a * 256 + b;
    assert Unsigned([a, b, c]) == a * 0x1_0000 + b * 256 + c;
  }

  lemma {:induction false} BigEndianUnsigned(s: Bytes)
    ensures BigEndian(Unsigned(s), |s|) == s
  {
    if |s| > 0 {
      var init := s[..|s| - 1];
      BigEndianUnsigned(init);
      assert s == init + [s[|s| - 1]];
      assert Unsigned(s) / 256 == Unsigned(init) && Unsigned(s) % 256 == s[|s| - 1];
    }
  }

  lemma SizeOfBytes(s: Bytes)
    requires |s| == 4
    ensures Unsigned(s) < 0x1_0000_0000 && SizeBytes(Unsigned(s)) == s
  {
    UnsignedBound(s);
    Powers();
    BigEndianUnsigned(s);
    hide Unsigned, BigEndian, Power256;
  }

  lemma IdOfBytes(s: Bytes)
    requires |s| == 2
    ensures I16Bytes(I16Of(s)) == s
  {
    UnsignedBound(s);
    Powers();
    BigEndianUnsigned(s);
  }

  // -------------------------------------------------------------------------------------------------------------
  // Type codes and widths
  // -------------------------------------------------------------------------------------------------------------

  lemma SkippedFixed(ty: byte, s: Bytes)
    requires Width(ty) > 0
    ensures Skip(ty, s) == if |s| < Width(ty) then None else Some(s[Width(ty)..])
  {
  }

  /** How far a skip goes: past a bool or a byte, a 16-bit, a 32-bit and a 64-bit number, and a double. */
  lemma SkippedWidths(s: Bytes)
    ensures Skip(2, s) == Skip(3, s) == if |s| < 1 then None else Some(s[1..])
    ensures Skip(6, s) == if |s| < 2 then None else Some(s[2..])
    ensures Skip(8, s) == if |s| < 4 then None else Some(s[4..])
    ensures Skip(10, s) == Skip(4, s) == if |s| < 8 then None else Some(s[8..])
  {
    hide Skip;
    SkippedFixed(2, s);
    SkippedFixed(3, s);
    SkippedFixed(6, s);
    SkippedFixed(8, s);
    SkippedFixed(10, s);
    SkippedFixed(4, s);
  }

  /** How far a skip goes past a string. */
  lemma SkippedString(s: Bytes)
    ensures Skip(11, s) == if |s| < 4 || |s| < 4 + Unsigned(s[..4]) then None else Some(s[4 + Unsigned(s[..4])..])
  {
    hide Unsigned, SkipFields, SkipElems, SkipEntries;
    if |s| >= 4 && |s| >= 4 + Unsigned(s[..4]) {
      assert s[4..][Unsigned(s[..4])..] == s[4 + Unsigned(s[..4])..];
    }
  }

  /** The codes of the types that have no fixed width, and the bytes of their values. */
  lemma TextAndStructCodes(text: Bytes, id: i16, w: Wire)
    ensures TypeOf(Text(text)) == 11 && Encode(Text(text)) == SizeBytes(|text|) + text
    ensures TypeOf(Struct([])) == 12 && Encode(Struct([])) == [0]
    ensures Encode(Struct([WireField(id, w)])) == [TypeOf(w)] + I16Bytes(id) + Encode(w) + [0]
  {
    hide I16Bytes, SizeBytes;
    FieldsAre(WireField(id, w), []);
    assert [WireField(id, w)] + [] == [WireField(id, w)];
    assert EncodeFields([]) == [];
  }

  lemma SequenceCodes(kind: byte, etype: byte, w: Wire)
    ensures WellFormed(Sequence(kind, etype, [])) <==> kind == 15 || kind == 14
    ensures Encode(Sequence(kind, etype, [w])) == [etype, 0, 0, 0, 1] + Encode(w)
  {
    SizeInBytes(1);
    NoElems();
    ElemsAre(w, []);
    assert [w] + [] == [w];
    hide SizeBytes, EncodeElems;
  }

  lemma MappingCodes(ktype: byte, vtype: byte, key: Wire, value: Wire)
    ensures TypeOf(Mapping(ktype, vtype, [])) == 13
    ensures Encode(Mapping(ktype, vtype, [WireEntry(key, value)]))
         == [ktype, vtype, 0, 0, 0, 1] + (Encode(key) + Encode(value))
  {
    SizeInBytes(1);
    NoEntries();
    EntriesAre(key, value, []);
    assert [WireEntry(key, value)] + [] == [WireEntry(key, value)];
    hide SizeBytes, EncodeEntries;
  }

  // -------------------------------------------------------------------------------------------------------------
  // A skip passes over nothing but values
  // -------------------------------------------------------------------------------------------------------------

  lemma TextIsValue(s: Bytes) returns (w: Wire)
    requires Skip(T_STRING, s).Some?
    ensures WellFormed(w) && TypeOf(w) == T_STRING && s == Encode(w) + Skip(T_STRING, s).value
  {
    hide SizeBytes, Unsigned, SkipFields, SkipElems, SkipEntries;
    var n := Unsigned(s[..4]);
    SizeOfBytes(s[..4]);
    w := Text(s[4..][..n]);
    assert s == s[..4] + s[4..][..n] + s[4..][n..];
  }

  lemma SequenceIsValue(kind: byte, s: Bytes, elems: seq<Wire>, rest: Bytes) returns (w: Wire)
    requires (kind == T_LIST || kind == T_SET) && |s| >= 5 && |elems| == Unsigned(s[1..5])
    requires (forall e <- elems :: TypeOf(e) == s[0] && WellFormed(e)) && s[5..] == EncodeElems(elems) + rest
    ensures WellFormed(w) && TypeOf(w) == kind && s == Encode(w) + rest
  {
    hide SizeBytes, Unsigned, EncodeElems;
    SizeOfBytes(s[1..5]);
    w := Sequence(kind, s[0], elems);
    assert s == [s[0]] + s[1..5] + s[5..];
    assert [s[0]] + s[1..5] + (EncodeElems(elems) + rest) == [s[0]] + s[1..5] + EncodeElems(elems) + rest;
  }

  lemma MappingIsValue(s: Bytes, entries: seq<WireEntry>, rest: Bytes) returns (w: Wire)
    requires |s| >= 6 && |entries| == Unsigned(s[2..6]) && s[6..] == EncodeEntries(entries) + rest
    requires forall e <- entries ::
      TypeOf(e.key) == s[0] && TypeOf(e.value) == s[1] && WellFormed(e.key) && WellFormed(e.value)
    ensures WellFormed(w) && TypeOf(w) == T_MAP && s == Encode(w) + rest
  {
    hide SizeBytes, Unsigned, EncodeEntries;
    SizeOfBytes(s[2..6]);
    w := Mapping(s[0], s[1], entries);
    assert s == [s[0], s[1]] + s[2..6] + s[6..];
    assert [s[0], s[1]] + s[2..6] + (EncodeEntries(entries) + rest)
      == [s[0], s[1]] + s[2..6] + EncodeEntries(entries) + rest;
  }

  lemma FieldIsValue(s: Bytes, w: Wire, more: seq<WireField>, mid: Bytes, rest: Bytes) returns (f: WireField)
    requires |s| >= 3 && s[0] != T_STOP && TypeOf(w) == s[0]
    requires s[3..] == Encode(w) + mid && mid == EncodeFields(more) + [T_STOP] + rest
    ensures f.value == w && s == EncodeFields([f] + more) + [T_STOP] + rest
  {
    hide I16Bytes, I16Of, EncodeFields, Encode;
    IdOfBytes(s[1..3]);
    f := WireField(I16Of(s[1..3]), w);
    FieldsAre(f, more);
    assert s == [s[0]] + s[1..3] + s[3..];
    var head, tail := [s[0]] + s[1..3], EncodeFields(more);
    assert head + (Encode(w) + (tail + [T_STOP] + rest)) == head + Encode(w) + tail + [T_STOP] + rest;
  }

  lemma FieldsAre(f: WireField, more: seq<WireField>)
    ensures EncodeFields([f] + more) == EncodeField(f) + EncodeFields(more)
  {
    assert ([f] + more)[1..] == more;
  }

  /** Whatever a skip passes over is the encoding of a well-formed value of the type; with SkipEncode, a skip passes
      over exactly the encodings of such values. */
  lemma {:induction false} SkippedIsValue(ty: byte, s: Bytes) returns (w: Wire)
    requires Skip(ty, s).Some?
    ensures WellFormed(w) && TypeOf(w) == ty && s == Encode(w) + Skip(ty, s).value
    decreases |s|, 1
  {
    hide I16Bytes, SizeBytes, Unsigned, EncodeElems, EncodeEntries, EncodeFields;
    if Width(ty) > 0 {
      w := Fixed(ty, s[..Width(ty)]);
    } else if ty == T_STRING {
      w := TextIsValue(s);
    } else if ty == T_STRUCT {
      var fields := SkippedFields(s);
      w := Struct(fields);
    } else if ty == T_LIST || ty == T_SET {
      var elems := SkippedElems(s[0], Unsigned(s[1..5]), s[5..]);
      w := SequenceIsValue(ty, s, elems, Skip(ty, s).value);
    } else {
      var entries := SkippedEntries(s[0], s[1], Unsigned(s[2..6]), s[6..]);
      w := MappingIsValue(s, entries, Skip(ty, s).value);
    }
  }

  lemma {:induction false} SkippedFields(s: Bytes) returns (fields: seq<WireField>)
    requires SkipFields(s).Some?
    ensures forall f <- fields :: WellFormed(f.value)
    ensures s == EncodeFields(fields) + [T_STOP] + SkipFields(s).value
    decreases |s|, 0
  {
    hide I16Bytes, I16Of, Encode, EncodeFields, WellFormed, Skip;
    match ParseFieldBegin(s)
    case Stop(rest) =>
      fields := [];
      assert s == [T_STOP] + rest;
      assert EncodeFields([]) == [] by { NoFields(); }
      assert [] + [T_STOP] + rest == [T_STOP] + rest;
    case Header(ty, id, body) =>
      var w := SkippedIsValue(ty, body);
      var rest := Skip(ty, body).value;
      var more := SkippedFields(rest);
      var f := FieldIsValue(s, w, more, rest, SkipFields(rest).value);
      fields := [f] + more;
  }

  lemma NoFields()
    ensures EncodeFields([]) == []
  {
  }

  lemma {:induction false} SkippedElems(ty: byte, n: nat, s: Bytes) returns (elems: seq<Wire>)
    requires SkipElems(ty, n, s).Some?
    ensures |elems| == n && forall e <- elems :: TypeOf(e) == ty && WellFormed(e)
    ensures s == EncodeElems(elems) + SkipElems(ty, n, s).value
    decreases |s|, 2
  {
    hide Encode, EncodeElems, WellFormed, Skip;
    elems := [];
    NoElems();
    if n > 0 {
      var w := SkippedIsValue(ty, s);
      var rest := Skip(ty, s).value;
      var more := SkippedElems(ty, n - 1, rest);
      elems := [w] + more;
      ElemsAre(w, more);
      var tail := EncodeElems(more);
      assert Encode(w) + (tail + SkipElems(ty, n - 1, rest).value)
        == Encode(w) + tail + SkipElems(ty, n - 1, rest).value;
    } else {
      assert [] + s == s;
    }
  }

  lemma NoElems()
    ensures EncodeElems([]) == []
  {
  }

  lemma ElemsAre(w: Wire, more: seq<Wire>)
    ensures EncodeElems([w] + more) == Encode(w) + EncodeElems(more)
  {
    assert ([w] + more)[1..] == more;
  }

  lemma {:induction false} SkippedEntries(ktype: byte, vtype: byte, n: nat, s: Bytes) returns (entries: seq<WireEntry>)
    requires SkipEntries(ktype, vtype, n, s).Some?
    ensures |entries| == n
    ensures forall e <- entries ::
      TypeOf(e.key) == ktype && TypeOf(e.value) == vtype && WellFormed(e.key) && WellFormed(e.value)
    ensures s == EncodeEntries(entries) + SkipEntries(ktype, vtype, n, s).value
    decreases |s|, 2
  {
    hide Encode, EncodeEntries, WellFormed, Skip;
    entries := [];
    NoEntries();
    if n > 0 {
      var key := SkippedIsValue(ktype, s);
      var mid := Skip(ktype, s).value;
      var value := SkippedIsValue(vtype, mid);
      var rest := Skip(vtype, mid).value;
      var more := SkippedEntries(ktype, vtype, n - 1, rest);
      entries := [WireEntry(key, value)] + more;
      EntriesAre(key, value, more);
      var tail := EncodeEntries(more);
      assert Encode(key) + (Encode(value) + (tail + SkipEntries(ktype, vtype, n - 1, rest).value))
          == Encode(key) + Encode(value) + tail + SkipEntries(ktype, vtype, n - 1, rest).value;
    } else {
      assert [] + s == s;
    }
  }

  lemma NoEntries()
    ensures EncodeEntries([]) == []
  {
  }

  lemma EntriesAre(key: Wire, value: Wire, more: seq<WireEntry>)
    ensures EncodeEntries([WireEntry(key, value)] + more) == Encode(key) + Encode(value) + EncodeEntries(more)
  {
    assert ([WireEntry(key, value)] + more)[1..] == more;
  }
}
