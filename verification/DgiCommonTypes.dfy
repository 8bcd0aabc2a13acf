/** The structs shared by all services. */
module DgiCommonTypes {
  import opened ThriftWire
  import opened ThriftCodec
  import opened ThriftLaws
  import opened ThriftProtocol

  const DGI_RESULT_FIELDS: seq<Field> := [Field(1, TI32, false), Field(2, TString, false)]
  const DGI_RESULT: Ty := TStruct(DGI_RESULT_FIELDS)

  datatype DgiResultIsset = DgiResultIsset(status: bool, description: bool)

  lemma DgiResultSchema()
    ensures Plain(DGI_RESULT)
  {
    hide Plain;
    PlainLeaves();
    PlainStruct(DGI_RESULT_FIELDS);
  }

  /** What is written for these members, in plain numbers. */
  lemma DgiResultInBytes(status: i32, description: Bytes, isset: seq<bool>)
    requires |isset| == 2
    ensures Write(DGI_RESULT, VStruct([VI32(status), VString(description)], isset))
         == [8, 0, 1] + I32Bytes(status)
            + [11, 0, 2] + SizeBytes(|description|) + description
            + [0]
  {
    var v := VStruct([VI32(status), VString(description)], isset);
    hide Write, WriteFrom, SizeBytes, I32Bytes;
    assert HasType(DGI_RESULT, v);
    hide HasType;
    var all := Write(DGI_RESULT, v);
    WriteFromStart(DGI_RESULT_FIELDS, v);
    I32InBytes(DGI_RESULT_FIELDS, v, 0, all, [], 1, status);
    var before1 := [8, 0, 1] + I32Bytes(status);
    assert [] + [8, 0, 1] + I32Bytes(status) == before1;
    TextInBytes(DGI_RESULT_FIELDS, v, 1, all, before1, 2, description);
    var before2 := before1 + [11, 0, 2] + SizeBytes(|description|) + description;
    WriteFromEnd(DGI_RESULT_FIELDS, v);
  }

  /** What is read from such bytes. */
  lemma DgiResultFromBytes(was: Val, status: i32, description: Bytes, rest: Bytes)
    requires HasType(DGI_RESULT, was) && |description| < 0x1_0000_0000
    ensures ReadVal(DGI_RESULT, was,
              ([8, 0, 1] + I32Bytes(status)
           + [11, 0, 2] + SizeBytes(|description|) + description
           + [0]) + rest)
         == Done(VStruct([VI32(status), VString(description)], [true, true]), rest)
  {
    var v := VStruct([VI32(status), VString(description)], [false, false]);
    DgiResultInBytes(status, description, [false, false]);
    DgiResultSchema();
    assert Writable(DGI_RESULT, v);
    RoundTrip(DGI_RESULT, was, v, rest);
    assert Stamp(DGI_RESULT, v).vals == [VI32(status), VString(description)];
    assert Stamp(DGI_RESULT, v).isset == [true, true];
  }

  class DgiResult {
    var status: i32
    var description: Bytes
    var isset: DgiResultIsset

    ghost function Value(): (v: Val)
      reads this
      ensures HasType(DGI_RESULT, v)
    {
      VStruct([VI32(status), VString(description)], [isset.status, isset.description])
    }

    constructor ()
      ensures status == 0 && description == [] && isset == DgiResultIsset(false, false)
      ensures Value() == Default(DGI_RESULT)
    {
      status, description, isset := 0, [], DgiResultIsset(false, false);
      new;
      DefaultOfTwo(DGI_RESULT_FIELDS);
    }

    /** A copy of a value. */
    constructor Of(v: Val)
      requires HasType(DGI_RESULT, v)
      ensures Value() == v
    {
      assert HasType(DGI_RESULT_FIELDS[0].ty, v.vals[0]) && HasType(DGI_RESULT_FIELDS[1].ty, v.vals[1]);
      status, description := v.vals[0].n, v.vals[1].text;
      isset := DgiResultIsset(v.isset[0], v.isset[1]);
    }

    /** The switch of the field loop. */
    method ReadMember(iprot: TProtocol, ftype: byte, fid: i16) returns (r: Try<uint32>)
      modifies this, iprot`input
      ensures Agrees(Turn(DGI_RESULT_FIELDS, old(Value()), ftype, fid, old(iprot.input)),
                     old(iprot.input), r, Value(), iprot.input)
      ensures r.Got? ==>
        isset ==
          if fid == 1 && ftype == 8 then old(isset).(status := true)
          else if fid == 2 && ftype == 11 then old(isset).(description := true)
          else old(isset)
    {
      hide Count, ReadVal, Skip, Turn, HasType, Set, Default;
      ghost var was, body := Value(), iprot.input;
      if fid == 1 && ftype == T_I32 {
        LeafTurn(DGI_RESULT_FIELDS, was, 0, body);
        var v, n :- iprot.ReadI32();
        status, isset := v, isset.(status := true);
        SetOfTwo(VI32(old(status)), VString(old(description)), old(isset.status), old(isset.description), VI32(v));
        return Got(n);
      } else if fid == 2 && ftype == T_STRING {
        LeafTurn(DGI_RESULT_FIELDS, was, 1, body);
        var v, n :- iprot.ReadString();
        description, isset := v, isset.(description := true);
        SetOfTwo(VI32(old(status)), VString(old(description)), old(isset.status), old(isset.description), VString(v));
        return Got(n);
      } else {
        SkippedTurn(DGI_RESULT_FIELDS, was, ftype, fid, body);
        var n :- iprot.SkipValue(ftype);
        return Got(n);
      }
    }

    method Read(iprot: TProtocol) returns (r: Try<uint32>)
      modifies this, iprot`input
      ensures Agrees(ReadVal(DGI_RESULT, old(Value()), old(iprot.input)), old(iprot.input), r, Value(), iprot.input)
      ensures r.Got? ==> r.value == (|old(iprot.input)| - |iprot.input|) % 0x1_0000_0000
      ensures forall a: i32, b: Bytes, rest: Bytes |
        && |b| < 0x1_0000_0000
        && old(iprot.input)
        == ([8, 0, 1] + I32Bytes(a)
         + [11, 0, 2] + SizeBytes(|b|) + b
         + [0]) + rest ::
        && r.Got? && iprot.input == rest && isset == DgiResultIsset(true, true)
        && status == a && description == b
    {
      hide Count, Plus, ReadFields, ReadVal, Turn, ParseFieldBegin, HasType, SizeBytes, I32Bytes, ThriftCodec.Write,
        Writable, Stamp;
      ghost var start, was := iprot.input, Value();
      forall a: i32, b: Bytes, rest: Bytes |
        && |b| < 0x1_0000_0000
        && start
        == ([8, 0, 1] + I32Bytes(a)
         + [11, 0, 2] + SizeBytes(|b|) + b
         + [0]) + rest
        ensures ReadVal(DGI_RESULT, was, start)
             == Done(VStruct([VI32(a), VString(b)], [true, true]), rest)
      {
        DgiResultFromBytes(was, a, b, rest);
      }
      LoopTurn(DGI_RESULT_FIELDS, was, start);
      var xfer := Count(0);
      while true
        invariant ReadFields(DGI_RESULT_FIELDS, Value(), iprot.input) == ReadFields(DGI_RESULT_FIELDS, was, start)
        invariant |iprot.input| <= |start| && xfer == Count(|start| - |iprot.input|)
        decreases |iprot.input|
      {
        ghost var turn := iprot.input;
        LoopTurn(DGI_RESULT_FIELDS, Value(), turn);
        var ftype, fid, n :- iprot.ReadFieldBegin();
        ghost var body := iprot.input;
        CountSum(|start| - |turn|, |turn| - |body|);
        xfer := Plus(xfer, n);
        if ftype == T_STOP {
          break;
        }
        var m :- ReadMember(iprot, ftype, fid);
        CountSum(|start| - |body|, |body| - |iprot.input|);
        xfer := Plus(xfer, m);
      }
      CountIsModulo(|start| - |iprot.input|);
      return Got(xfer);
    }

    method Write(oprot: TProtocol) returns (xfer: uint32)
      modifies oprot`output
      ensures oprot.output == old(oprot.output) + ThriftCodec.Write(DGI_RESULT, Value())
      ensures xfer == Count(|ThriftCodec.Write(DGI_RESULT, Value())|)
      ensures oprot.output
        == old(oprot.output)
         + ([8, 0, 1] + I32Bytes(status)
         + [11, 0, 2] + SizeBytes(|description|) + description
         + [0])
      ensures xfer == (|oprot.output| - |old(oprot.output)|) % 0x1_0000_0000
    {
      hide Count, Plus, ThriftCodec.Write, WriteFrom, I16Bytes, Halfway, SizeBytes, I32Bytes;
      ghost var v, start, last := Value(), oprot.output, oprot.output;
      HalfwayStart(DGI_RESULT_FIELDS, v, start);
      var n, m;
      xfer := Count(0);

      n := oprot.WriteFieldBegin(T_I32, 1);
      m := oprot.WriteI32(status);
      HalfwayWritten(DGI_RESULT_FIELDS, v, 0, start, last, xfer, oprot.output);
      xfer := Plus(Plus(xfer, n), m);
      last := oprot.output;

      n := oprot.WriteFieldBegin(T_STRING, 2);
      m := oprot.WriteString(description);
      HalfwayWritten(DGI_RESULT_FIELDS, v, 1, start, last, xfer, oprot.output);
      xfer := Plus(Plus(xfer, n), m);
      last := oprot.output;

      HalfwayEnd(DGI_RESULT_FIELDS, v, start, oprot.output, xfer);
      n := oprot.WriteFieldStop();
      xfer := Plus(xfer, n);
      DgiResultInBytes(status, description, [isset.status, isset.description]);
      CountIsModulo(|oprot.output| - |start|);
    }
  }
}
