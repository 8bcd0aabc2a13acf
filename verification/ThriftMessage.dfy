/** Message headers, section "Message" of the Thrift Binary protocol encoding, and the application exception that the
  library sends in place of a result.
*/
module ThriftMessage {
  import opened ThriftWire
  import opened ThriftCodec
  import opened ThriftLaws
  import opened ThriftEncoding

  const T_CALL: byte := 1
  const T_REPLY: byte := 2
  const T_EXCEPTION: byte := 3
  const T_ONEWAY: byte := 4

  // Kinds of application exception.
  const UNKNOWN: i32 := 0
  const UNKNOWN_METHOD: i32 := 1
  const MISSING_RESULT: i32 := 5

  const APPLICATION_EXCEPTION: Ty := TStruct([Field(1, TString, false), Field(2, TI32, false)])

  /** The version and the message type share the first word. */
  function MessageBegin(name: Bytes, mtype: byte, seqid: i32): Bytes {
    BigEndian(0x8001_0000 + mtype, 4) + (SizeBytes(|name|) + (name + I32Bytes(seqid)))
  }

  datatype Head = NoHead | Head(name: Bytes, mtype: byte, seqid: i32, rest: Bytes)

  /** The header of the next message, in the versioned or in the old layout. */
  function ReadMessageBegin(s: Bytes): (h: Head)
    ensures h.Head? ==> |h.rest| < |s|
  {
    if |s| < 4 then NoHead
    else
      var word := Unsigned(s[..4]);
      if word >= 0x8000_0000 then
        if word / 0x1_0000 != 0x8001 then NoHead else ReadNameAndSeqid(word % 256, s[4..])
      else
        if |s| < 4 + word + 5 then NoHead
        else Head(s[4..4 + word], s[4 + word], I32Of(s[4 + word + 1..4 + word + 5]), s[4 + word + 5..])
  }

  function ReadNameAndSeqid(mtype: byte, s: Bytes): (h: Head)
    ensures h.Head? ==> |h.rest| <= |s|
  {
    if |s| < 4 then NoHead
    else
      var size := Unsigned(s[..4]);
      if |s| < 4 + size + 4 then NoHead
      else Head(s[4..4 + size], mtype, I32Of(s[4 + size..4 + size + 4]), s[4 + size + 4..])
  }

  lemma VersionWord(mtype: byte)
    ensures var word := Unsigned(BigEndian(0x8001_0000 + mtype, 4));
      word >= 0x8000_0000 && word / 0x1_0000 == 0x8001 && word % 256 == mtype
  {
    Powers();
    UnsignedBigEndian(0x8001_0000 + mtype, 4);
  }

  lemma NameAndSeqid(name: Bytes, mtype: byte, seqid: i32, rest: Bytes)
    requires |name| < 0x1_0000_0000
    ensures ReadNameAndSeqid(mtype, SizeBytes(|name|) + (name + I32Bytes(seqid)) + rest)
      == Head(name, mtype, seqid, rest)
  {
    hide SizeBytes, I32Bytes, I32Of;
    var s := SizeBytes(|name|) + (name + I32Bytes(seqid)) + rest;
    SizeRoundTrip(|name|);
    I32RoundTrip(seqid);
    assert s[..4] == SizeBytes(|name|);
    assert s[4..4 + |name|] == name;
    assert s[4 + |name|..4 + |name| + 4] == I32Bytes(seqid);
    assert s[4 + |name| + 4..] == rest;
  }

  /** A message header in plain numbers: the version with the message type, the name and the sequence id. */
  lemma MessageInBytes(name: Bytes, mtype: byte, seqid: i32)
    ensures MessageBegin(name, mtype, seqid)
         == [0x80, 1, 0, mtype] + SizeBytes(|name|) + name + I32Bytes(seqid)
  {
    FourDigits(0x8001_0000 + mtype);
    hide BigEndian, SizeBytes, I32Bytes;
  }

  /** A written header is read back, and exactly the following bytes are left. */
  lemma HeaderRoundTrip(name: Bytes, mtype: byte, seqid: i32, rest: Bytes)
    requires |name| < 0x1_0000_0000
    ensures ReadMessageBegin(MessageBegin(name, mtype, seqid) + rest) == Head(name, mtype, seqid, rest)
  {
    var word := BigEndian(0x8001_0000 + mtype, 4);
    var tail := SizeBytes(|name|) + (name + I32Bytes(seqid));
    VersionWord(mtype);
    NameAndSeqid(name, mtype, seqid, rest);
    hide BigEndian, Unsigned, SizeBytes, I32Bytes, ReadNameAndSeqid;
    var s := MessageBegin(name, mtype, seqid) + rest;
    assert s == word + (tail + rest);
    assert s[..4] == word && s[4..] == tail + rest;
  }

  /** An application exception as a struct. */
  function ExceptionVal(text: Bytes, kind: i32): (v: Val)
    ensures HasType(APPLICATION_EXCEPTION, v)
  {
    VStruct([VString(text), VI32(kind)], [false, false])
  }

  /** The text and the kind of an application exception that was read. */
  function ExceptionParts(x: Val): (Bytes, i32)
    requires HasType(APPLICATION_EXCEPTION, x)
  {
    assert HasType(APPLICATION_EXCEPTION.fields[0].ty, x.vals[0])
      && HasType(APPLICATION_EXCEPTION.fields[1].ty, x.vals[1]);
    (x.vals[0].text, x.vals[1].n)
  }

  lemma ExceptionRoundTrip(text: Bytes, kind: i32, rest: Bytes)
    requires |text| < 0x1_0000_0000
    ensures ReadVal(APPLICATION_EXCEPTION, Default(APPLICATION_EXCEPTION),
      Write(APPLICATION_EXCEPTION, ExceptionVal(text, kind)) + rest)
         == Done(VStruct([VString(text), VI32(kind)], [true, true]), rest)
  {
    hide ReadVal, Encode, ToWire;
    var v := ExceptionVal(text, kind);
    RoundTrip(APPLICATION_EXCEPTION, Default(APPLICATION_EXCEPTION), v, rest);
    assert Stamp(APPLICATION_EXCEPTION, v).vals == [VString(text), VI32(kind)];
    assert Stamp(APPLICATION_EXCEPTION, v).isset == [true, true];
  }
}
