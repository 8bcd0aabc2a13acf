/** The secure-erase structs: an object to erase, and an object that was not erased and why. */
module DgiSecureEraseTypes {
  import opened ThriftWire
  import opened ThriftCodec
  import opened ThriftLaws
  import opened ThriftProtocol

  const ERASE_OBJECT_FIELDS: seq<Field> := [Field(1, TI32, false), Field(2, TString, false)]
  const ERASE_OBJECT: Ty := TStruct(ERASE_OBJECT_FIELDS)

  datatype EraseObjectIsset = EraseObjectIsset(ty: bool, path: bool)

  lemma EraseObjectSchema()
    ensures Plain(ERASE_OBJECT)
  {
    hide Plain;
    PlainLeaves();
    PlainStruct(ERASE_OBJECT_FIELDS);
  }

  /** What is written for these members, in plain numbers. */
  lemma EraseObjectInBytes(ty: i32, path: Bytes, isset: seq<bool>)
    requires |isset| == 2
    ensures Write(ERASE_OBJECT, VStruct([VI32(ty), VString(path)], isset))
         == [8, 0, 1] + I32Bytes(ty)
            + [11, 0, 2] + SizeBytes(|path|) + path
            + [0]
  {
    var v := VStruct([VI32(ty), VString(path)], isset);
    hide Write, WriteFrom, SizeBytes, I32Bytes;
    assert HasType(ERASE_OBJECT, v);
    hide HasType;
    var all := Write(ERASE_OBJECT, v);
    WriteFromStart(ERASE_OBJECT_FIELDS, v);
    I32InBytes(ERASE_OBJECT_FIELDS, v, 0, all, [], 1, ty);
    var before1 := [8, 0, 1] + I32Bytes(ty);
    assert [] + [8, 0, 1] + I32Bytes(ty) == before1;
    TextInBytes(ERASE_OBJECT_FIELDS, v, 1, all, before1, 2, path);
    var before2 := before1 + [11, 0, 2] + SizeBytes(|path|) + path;
    WriteFromEnd(ERASE_OBJECT_FIELDS, v);
  }

  /** What is read from such bytes. */
  lemma EraseObjectFromBytes(was: Val, ty: i32, path: Bytes, rest: Bytes)
    requires HasType(ERASE_OBJECT, was) && |path| < 0x1_0000_0000
    ensures ReadVal(ERASE_OBJECT, was,
              ([8, 0, 1] + I32Bytes(ty)
           + [11, 0, 2] + SizeBytes(|path|) + path
           + [0]) + rest)
         == Done(VStruct([VI32(ty), VString(path)], [true, true]), rest)
  {
    var v := VStruct([VI32(ty), VString(path)], [false, false]);
    EraseObjectInBytes(ty, path, [false, false]);
    EraseObjectSchema();
    assert Writable(ERASE_OBJECT, v);
    RoundTrip(ERASE_OBJECT, was, v, rest);
    assert Stamp(ERASE_OBJECT, v).vals == [VI32(ty), VString(path)];
    assert Stamp(ERASE_OBJECT, v).isset == [true, true];
  }

  class EraseObject {
    var ty: i32
    var path: Bytes
    var isset: EraseObjectIsset

    ghost function Value(): (v: Val)
      reads this
      ensures HasType(ERASE_OBJECT, v)
    {
      VStruct([VI32(ty), VString(path)], [isset.ty, isset.path])
    }

    constructor ()
      ensures ty == 0 && path == [] && isset == EraseObjectIsset(false, false)
      ensures Value() == Default(ERASE_OBJECT)
    {
      ty, path, isset := 0, [], EraseObjectIsset(false, false);
      new;
      DefaultOfTwo(ERASE_OBJECT_FIELDS);
    }

    /** The switch of the field loop. */
    method ReadMember(iprot: TProtocol, ftype: byte, fid: i16) returns (r: Try<uint32>)
      modifies this, iprot`input
      ensures Agrees(Turn(ERASE_OBJECT_FIELDS, old(Value()), ftype, fid, old(iprot.input)),
                     old(iprot.input), r, Value(), iprot.input)
      ensures r.Got? ==>
        isset ==
          if fid == 1 && ftype == 8 then old(isset).(ty := true)
          else if fid == 2 && ftype == 11 then old(isset).(path := true)
          else old(isset)
    {
      hide Count, ReadVal, Skip, Turn, HasType, Set, Default;
      ghost var was, body := Value(), iprot.input;
      if fid == 1 && ftype == T_I32 {
        LeafTurn(ERASE_OBJECT_FIELDS, was, 0, body);
        var v, n :- iprot.ReadI32();
        ty, isset := v, isset.(ty := true);
        SetOfTwo(VI32(old(ty)), VString(old(path)), old(isset.ty), old(isset.path), VI32(v));
        return Got(n);
      } else if fid == 2 && ftype == T_STRING {
        LeafTurn(ERASE_OBJECT_FIELDS, was, 1, body);
        var v, n :- iprot.ReadString();
        path, isset := v, isset.(path := true);
        SetOfTwo(VI32(old(ty)), VString(old(path)), old(isset.ty), old(isset.path), VString(v));
        return Got(n);
      } else {
        SkippedTurn(ERASE_OBJECT_FIELDS, was, ftype, fid, body);
        var n :- iprot.SkipValue(ftype);
        return Got(n);
      }
    }

    method Read(iprot: TProtocol) returns (r: Try<uint32>)
      modifies this, iprot`input
      ensures Agrees(ReadVal(ERASE_OBJECT, old(Value()), old(iprot.input)), old(iprot.input), r, Value(), iprot.input)
      ensures r.Got? ==> r.value == (|old(iprot.input)| - |iprot.input|) % 0x1_0000_0000
      ensures forall a: i32, b: Bytes, rest: Bytes |
        && |b| < 0x1_0000_0000
        && old(iprot.input)
        == ([8, 0, 1] + I32Bytes(a)
         + [11, 0, 2] + SizeBytes(|b|) + b
         + [0]) + rest ::
        && r.Got? && iprot.input == rest && isset == EraseObjectIsset(true, true)
        && ty == a && path == b
    {
      hide Count, Plus, ReadFields, ReadVal, Turn, ParseFieldBegin, HasType, SizeBytes, I32Bytes, ThriftCodec.Write,
        Writable, Stamp;
      ghost var start, was := iprot.input, Value();
      forall a: i32, b: Bytes, rest: Bytes |
        && |b| < 0x1_0000_0000
        && start
        == ([8, 0, 1] + I32Bytes(a)
         + [11, 0, 2] + SizeBytes(|b|) + b
         + [0]) + rest
        ensures ReadVal(ERASE_OBJECT, was, start)
             == Done(VStruct([VI32(a), VString(b)], [true, true]), rest)
      {
        EraseObjectFromBytes(was, a, b, rest);
      }
      LoopTurn(ERASE_OBJECT_FIELDS, was, start);
      var xfer := Count(0);
      while true
        invariant ReadFields(ERASE_OBJECT_FIELDS, Value(), iprot.input) == ReadFields(ERASE_OBJECT_FIELDS, was, start)
        invariant |iprot.input| <= |start| && xfer == Count(|start| - |iprot.input|)
        decreases |iprot.input|
      {
        ghost var turn := iprot.input;
        LoopTurn(ERASE_OBJECT_FIELDS, Value(), turn);
        var ftype, fid, n :- iprot.ReadFieldBegin();
        ghost var body := iprot.input;
        CountSum(|start| - |turn|, |turn| - |body|);
        xfer := Plus(xfer, n);
        if ftype == T_STOP {
          break;
        }
        var m :- ReadMember(iprot, ftype, fid);
        CountSum(|start| - |body|, |body| - |iprot.input|);
        xfer := Plus(xfer, m);
      }
      CountIsModulo(|start| - |iprot.input|);
      return Got(xfer);
    }

    method Write(oprot: TProtocol) returns (xfer: uint32)
      modifies oprot`output
      ensures oprot.output == old(oprot.output) + ThriftCodec.Write(ERASE_OBJECT, Value())
      ensures xfer == Count(|ThriftCodec.Write(ERASE_OBJECT, Value())|)
      ensures oprot.output
        == old(oprot.output)
         + ([8, 0, 1] + I32Bytes(ty)
         + [11, 0, 2] + SizeBytes(|path|) + path
         + [0])
      ensures xfer == (|oprot.output| - |old(oprot.output)|) % 0x1_0000_0000
    {
      hide Count, Plus, ThriftCodec.Write, WriteFrom, I16Bytes, Halfway, SizeBytes, I32Bytes;
      ghost var v, start, last := Value(), oprot.output, oprot.output;
      HalfwayStart(ERASE_OBJECT_FIELDS, v, start);
      var n, m;
      xfer := Count(0);

      n := oprot.WriteFieldBegin(T_I32, 1);
      m := oprot.WriteI32(ty);
      HalfwayWritten(ERASE_OBJECT_FIELDS, v, 0, start, last, xfer, oprot.output);
      xfer := Plus(Plus(xfer, n), m);
      last := oprot.output;

      n := oprot.WriteFieldBegin(T_STRING, 2);
      m := oprot.WriteString(path);
      HalfwayWritten(ERASE_OBJECT_FIELDS, v, 1, start, last, xfer, oprot.output);
      xfer := Plus(Plus(xfer, n), m);
      last := oprot.output;

      HalfwayEnd(ERASE_OBJECT_FIELDS, v, start, oprot.output, xfer);
      n := oprot.WriteFieldStop();
      xfer := Plus(xfer, n);
      EraseObjectInBytes(ty, path, [isset.ty, isset.path]);
      CountIsModulo(|oprot.output| - |start|);
    }
  }

  const ERASE_OBJECT_ERROR_FIELDS: seq<Field> := [Field(1, ERASE_OBJECT, false), Field(2, TI32, false),
    Field(3, TString, false)]
  const ERASE_OBJECT_ERROR: Ty := TStruct(ERASE_OBJECT_ERROR_FIELDS)

  datatype EraseObjectErrorIsset = EraseObjectErrorIsset(erObject: bool, status: bool, description: bool)

  lemma EraseObjectErrorSchema()
    ensures Plain(ERASE_OBJECT_ERROR)
  {
    hide Plain;
    PlainLeaves();
    EraseObjectSchema();
    PlainStruct(ERASE_OBJECT_ERROR_FIELDS);
  }

  /** What is written for these members, in plain numbers. */
  lemma EraseObjectErrorInBytes(erObject: Val, status: i32, description: Bytes, isset: seq<bool>)
    requires |isset| == 3 && HasType(ERASE_OBJECT, erObject)
    ensures Write(ERASE_OBJECT_ERROR, VStruct([erObject, VI32(status), VString(description)], isset))
         == [12, 0, 1] + Write(ERASE_OBJECT, erObject)
            + [8, 0, 2] + I32Bytes(status)
            + [11, 0, 3] + SizeBytes(|description|) + description
            + [0]
  {
    var v := VStruct([erObject, VI32(status), VString(description)], isset);
    hide Write, WriteFrom, SizeBytes, I32Bytes;
    assert HasType(ERASE_OBJECT_ERROR, v);
    hide HasType;
    var all := Write(ERASE_OBJECT_ERROR, v);
    WriteFromStart(ERASE_OBJECT_ERROR_FIELDS, v);
    StructInBytes(ERASE_OBJECT_ERROR_FIELDS, v, 0, all, [], 1, ERASE_OBJECT, erObject);
    var before1 := [12, 0, 1] + Write(ERASE_OBJECT, erObject);
    assert [] + [12, 0, 1] + Write(ERASE_OBJECT, erObject) == before1;
    I32InBytes(ERASE_OBJECT_ERROR_FIELDS, v, 1, all, before1, 2, status);
    var before2 := before1 + [8, 0, 2] + I32Bytes(status);
    TextInBytes(ERASE_OBJECT_ERROR_FIELDS, v, 2, all, before2, 3, description);
    var before3 := before2 + [11, 0, 3] + SizeBytes(|description|) + description;
    WriteFromEnd(ERASE_OBJECT_ERROR_FIELDS, v);
  }

  /** What is read from such bytes. */
  lemma EraseObjectErrorFromBytes(was: Val, erObject: Val, status: i32, description: Bytes, rest: Bytes)
    requires HasType(ERASE_OBJECT_ERROR, was) && |description| < 0x1_0000_0000
    requires HasType(ERASE_OBJECT, erObject) && Writable(ERASE_OBJECT, erObject)
    ensures ReadVal(ERASE_OBJECT_ERROR, was,
              ([12, 0, 1] + Write(ERASE_OBJECT, erObject)
           + [8, 0, 2] + I32Bytes(status)
           + [11, 0, 3] + SizeBytes(|description|) + description
           + [0]) + rest)
         == Done(VStruct([Stamp(ERASE_OBJECT, erObject), VI32(status), VString(description)], [true, true, true]), rest)
  {
    var v := VStruct([erObject, VI32(status), VString(description)], [false, false, false]);
    EraseObjectErrorInBytes(erObject, status, description, [false, false, false]);
    EraseObjectErrorSchema();
    assert Writable(ERASE_OBJECT_ERROR, v);
    RoundTrip(ERASE_OBJECT_ERROR, was, v, rest);
    assert Stamp(ERASE_OBJECT_ERROR, v).vals == [Stamp(ERASE_OBJECT, erObject), VI32(status), VString(description)];
    assert Stamp(ERASE_OBJECT_ERROR, v).isset == [true, true, true];
  }

  class EraseObjectError {
    const erObject: EraseObject
    var status: i32
    var description: Bytes
    var isset: EraseObjectErrorIsset

    ghost function Value(): (v: Val)
      reads this, erObject
      ensures HasType(ERASE_OBJECT_ERROR, v)
    {
      VStruct([erObject.Value(), VI32(status), VString(description)], [isset.erObject, isset.status, isset.description])
    }

    constructor ()
      ensures status == 0 && description == [] && isset == EraseObjectErrorIsset(false, false, false)
      ensures Value() == Default(ERASE_OBJECT_ERROR) && fresh(erObject)
    {
      erObject := new EraseObject();
      status, description, isset := 0, [], EraseObjectErrorIsset(false, false, false);
      new;
      DefaultOfThree(ERASE_OBJECT_ERROR_FIELDS);
    }

    /** The case of the nested struct in the switch of the field loop. */
    method ReadMemberObject(iprot: TProtocol) returns (r: Try<uint32>)
      modifies this, erObject, iprot`input
      ensures Agrees(Turn(ERASE_OBJECT_ERROR_FIELDS, old(Value()), T_STRUCT, 1, old(iprot.input)),
                     old(iprot.input), r, Value(), iprot.input)
      ensures r.Got? ==> isset == old(isset).(erObject := true)
    {
      hide Count, ReadVal, Skip, Turn, HasType, Set, Default, EraseObject.Value;
      StoredTurn(ERASE_OBJECT_ERROR_FIELDS, Value(), 0, iprot.input);
      var n :- erObject.Read(iprot);
      isset := isset.(erObject := true);
      SetOfThree(old(erObject.Value()), VI32(old(status)), VString(old(description)), old(isset.erObject),
        old(isset.status), old(isset.description), erObject.Value());
      return Got(n);
    }

    /** The switch of the field loop. */
    method ReadMember(iprot: TProtocol, ftype: byte, fid: i16) returns (r: Try<uint32>)
      modifies this, erObject, iprot`input
      ensures Agrees(Turn(ERASE_OBJECT_ERROR_FIELDS, old(Value()), ftype, fid, old(iprot.input)),
                     old(iprot.input), r, Value(), iprot.input)
      ensures r.Got? ==>
        isset ==
          if fid == 1 && ftype == 12 then old(isset).(erObject := true)
          else if fid == 2 && ftype == 8 then old(isset).(status := true)
          else if fid == 3 && ftype == 11 then old(isset).(description := true)
          else old(isset)
    {
      hide Count, ReadVal, Skip, Turn, HasType, Set, Default, EraseObject.Value;
      ghost var was, body := Value(), iprot.input;
      if fid == 1 && ftype == T_STRUCT {
        r := ReadMemberObject(iprot);
      } else if fid == 2 && ftype == T_I32 {
        LeafTurn(ERASE_OBJECT_ERROR_FIELDS, was, 1, body);
        var ecast, n :- iprot.ReadI32();
        status, isset := ecast, isset.(status := true);
        SetOfThree(old(erObject.Value()), VI32(old(status)), VString(old(description)), old(isset.erObject),
          old(isset.status), old(isset.description), VI32(ecast));
        return Got(n);
      } else if fid == 3 && ftype == T_STRING {
        LeafTurn(ERASE_OBJECT_ERROR_FIELDS, was, 2, body);
        var v, n :- iprot.ReadString();
        description, isset := v, isset.(description := true);
        SetOfThree(old(erObject.Value()), VI32(old(status)), VString(old(description)), old(isset.erObject),
          old(isset.status), old(isset.description), VString(v));
        return Got(n);
      } else {
        SkippedTurn(ERASE_OBJECT_ERROR_FIELDS, was, ftype, fid, body);
        var n :- iprot.SkipValue(ftype);
        return Got(n);
      }
    }

    method Read(iprot: TProtocol) returns (r: Try<uint32>)
      modifies this, erObject, iprot`input
      ensures Agrees(ReadVal(ERASE_OBJECT_ERROR, old(Value()), old(iprot.input)),
                     old(iprot.input), r, Value(), iprot.input)
      ensures r.Got? ==> r.value == (|old(iprot.input)| - |iprot.input|) % 0x1_0000_0000
      ensures forall a: Val, b: i32, c: Bytes, rest: Bytes |
        && HasType(ERASE_OBJECT, a) && Writable(ERASE_OBJECT, a)
        && |c| < 0x1_0000_0000
        && old(iprot.input)
        == ([12, 0, 1] + ThriftCodec.Write(ERASE_OBJECT, a)
         + [8, 0, 2] + I32Bytes(b)
         + [11, 0, 3] + SizeBytes(|c|) + c
         + [0]) + rest ::
        && r.Got? && iprot.input == rest && isset == EraseObjectErrorIsset(true, true, true)
        && erObject.Value() == Stamp(ERASE_OBJECT, a) && status == b && description == c
    {
      hide Count, Plus, ReadFields, ReadVal, Turn, ParseFieldBegin, HasType, SizeBytes, I32Bytes, ThriftCodec.Write,
        Writable, Stamp;
      ghost var start, was := iprot.input, Value();
      forall a: Val, b: i32, c: Bytes, rest: Bytes |
        && HasType(ERASE_OBJECT, a) && Writable(ERASE_OBJECT, a)
        && |c| < 0x1_0000_0000
        && start
        == ([12, 0, 1] + ThriftCodec.Write(ERASE_OBJECT, a)
         + [8, 0, 2] + I32Bytes(b)
         + [11, 0, 3] + SizeBytes(|c|) + c
         + [0]) + rest
        ensures ReadVal(ERASE_OBJECT_ERROR, was, start)
             == Done(VStruct([Stamp(ERASE_OBJECT, a), VI32(b), VString(c)], [true, true, true]), rest)
      {
        EraseObjectErrorFromBytes(was, a, b, c, rest);
      }
      LoopTurn(ERASE_OBJECT_ERROR_FIELDS, was, start);
      var xfer := Count(0);
      while true
        invariant ReadFields(ERASE_OBJECT_ERROR_FIELDS, Value(), iprot.input)
          == ReadFields(ERASE_OBJECT_ERROR_FIELDS, was, start)
        invariant |iprot.input| <= |start| && xfer == Count(|start| - |iprot.input|)
        decreases |iprot.input|
      {
        ghost var turn := iprot.input;
        LoopTurn(ERASE_OBJECT_ERROR_FIELDS, Value(), turn);
        var ftype, fid, n :- iprot.ReadFieldBegin();
        ghost var body := iprot.input;
        CountSum(|start| - |turn|, |turn| - |body|);
        xfer := Plus(xfer, n);
        if ftype == T_STOP {
          break;
        }
        var m :- ReadMember(iprot, ftype, fid);
        CountSum(|start| - |body|, |body| - |iprot.input|);
        xfer := Plus(xfer, m);
      }
      CountIsModulo(|start| - |iprot.input|);
      return Got(xfer);
    }

    method Write(oprot: TProtocol) returns (xfer: uint32)
      modifies oprot`output
      ensures oprot.output == old(oprot.output) + ThriftCodec.Write(ERASE_OBJECT_ERROR, Value())
      ensures xfer == Count(|ThriftCodec.Write(ERASE_OBJECT_ERROR, Value())|)
      ensures oprot.output
        == old(oprot.output)
         + ([12, 0, 1] + ThriftCodec.Write(ERASE_OBJECT, erObject.Value())
         + [8, 0, 2] + I32Bytes(status)
         + [11, 0, 3] + SizeBytes(|description|) + description
         + [0])
      ensures xfer == (|oprot.output| - |old(oprot.output)|) % 0x1_0000_0000
    {
      hide Count, Plus, ThriftCodec.Write, WriteFrom, I16Bytes, Halfway, SizeBytes, I32Bytes;
      ghost var v, start, last := Value(), oprot.output, oprot.output;
      HalfwayStart(ERASE_OBJECT_ERROR_FIELDS, v, start);
      var n, m;
      xfer := Count(0);

      n := oprot.WriteFieldBegin(T_STRUCT, 1);
      m := erObject.Write(oprot);
      HalfwayWritten(ERASE_OBJECT_ERROR_FIELDS, v, 0, start, last, xfer, oprot.output);
      xfer := Plus(Plus(xfer, n), m);
      last := oprot.output;

      n := oprot.WriteFieldBegin(T_I32, 2);
      m := oprot.WriteI32(status);
      HalfwayWritten(ERASE_OBJECT_ERROR_FIELDS, v, 1, start, last, xfer, oprot.output);
      xfer := Plus(Plus(xfer, n), m);
      last := oprot.output;

      n := oprot.WriteFieldBegin(T_STRING, 3);
      m := oprot.WriteString(description);
      HalfwayWritten(ERASE_OBJECT_ERROR_FIELDS, v, 2, start, last, xfer, oprot.output);
      xfer := Plus(Plus(xfer, n), m);
      last := oprot.output;

      HalfwayEnd(ERASE_OBJECT_ERROR_FIELDS, v, start, oprot.output, xfer);
      n := oprot.WriteFieldStop();
      xfer := Plus(xfer, n);
      EraseObjectErrorInBytes(erObject.Value(), status, description, [isset.erObject, isset.status, isset.description]);
      CountIsModulo(|oprot.output| - |start|);
    }
  }
}
