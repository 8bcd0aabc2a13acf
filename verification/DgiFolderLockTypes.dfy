/** The folder-lock structs: a flat struct with an enum member, a struct that holds it, and a reply that holds a list of
  those.
*/
module DgiFolderLockTypes {
  import opened ThriftWire
  import opened ThriftCodec
  import opened ThriftLaws
  import opened ThriftProtocol
  import opened DgiCommonTypes

  const FLOCK_OBJECT_FIELDS: seq<Field> := [Field(1, TI32, false), Field(2, TString, false), Field(3, TString, false)]
  const FLOCK_OBJECT: Ty := TStruct(FLOCK_OBJECT_FIELDS)

  datatype FLockObjectIsset = FLockObjectIsset(ty: bool, flockId: bool, path: bool)

  lemma FLockObjectSchema()
    ensures Plain(FLOCK_OBJECT)
  {
    hide Plain;
    PlainLeaves();
    PlainStruct(FLOCK_OBJECT_FIELDS);
  }

  /** What is written for these members, in plain numbers. */
  lemma FLockObjectInBytes(ty: i32, flockId: Bytes, path: Bytes, isset: seq<bool>)
    requires |isset| == 3
    ensures Write(FLOCK_OBJECT, VStruct([VI32(ty), VString(flockId), VString(path)], isset))
         == [8, 0, 1] + I32Bytes(ty)
            + [11, 0, 2] + SizeBytes(|flockId|) + flockId
            + [11, 0, 3] + SizeBytes(|path|) + path
            + [0]
  {
    var v := VStruct([VI32(ty), VString(flockId), VString(path)], isset);
    hide Write, WriteFrom, SizeBytes, I32Bytes;
    assert HasType(FLOCK_OBJECT, v);
    hide HasType;
    var all := Write(FLOCK_OBJECT, v);
    WriteFromStart(FLOCK_OBJECT_FIELDS, v);
    I32InBytes(FLOCK_OBJECT_FIELDS, v, 0, all, [], 1, ty);
    var before1 := [8, 0, 1] + I32Bytes(ty);
    assert [] + [8, 0, 1] + I32Bytes(ty) == before1;
    TextInBytes(FLOCK_OBJECT_FIELDS, v, 1, all, before1, 2, flockId);
    var before2 := before1 + [11, 0, 2] + SizeBytes(|flockId|) + flockId;
    TextInBytes(FLOCK_OBJECT_FIELDS, v, 2, all, before2, 3, path);
    var before3 := before2 + [11, 0, 3] + SizeBytes(|path|) + path;
    WriteFromEnd(FLOCK_OBJECT_FIELDS, v);
  }

  /** What is read from such bytes. */
  lemma FLockObjectFromBytes(was: Val, ty: i32, flockId: Bytes, path: Bytes, rest: Bytes)
    requires HasType(FLOCK_OBJECT, was) && |flockId| < 0x1_0000_0000 && |path| < 0x1_0000_0000
    ensures ReadVal(FLOCK_OBJECT, was,
              ([8, 0, 1] + I32Bytes(ty)
           + [11, 0, 2] + SizeBytes(|flockId|) + flockId
           + [11, 0, 3] + SizeBytes(|path|) + path
           + [0]) + rest)
         == Done(VStruct([VI32(ty), VString(flockId), VString(path)], [true, true, true]), rest)
  {
    var v := VStruct([VI32(ty), VString(flockId), VString(path)], [false, false, false]);
    FLockObjectInBytes(ty, flockId, path, [false, false, false]);
    FLockObjectSchema();
    assert Writable(FLOCK_OBJECT, v);
    RoundTrip(FLOCK_OBJECT, was, v, rest);
    assert Stamp(FLOCK_OBJECT, v).vals == [VI32(ty), VString(flockId), VString(path)];
    assert Stamp(FLOCK_OBJECT, v).isset == [true, true, true];
  }

  class FLockObject {
    var ty: i32
    var flockId: Bytes
    var path: Bytes
    var isset: FLockObjectIsset

    ghost function Value(): (v: Val)
      reads this
      ensures HasType(FLOCK_OBJECT, v)
    {
      VStruct([VI32(ty), VString(flockId), VString(path)], [isset.ty, isset.flockId, isset.path])
    }

    constructor ()
      ensures ty == 0 && flockId == [] && path == [] && isset == FLockObjectIsset(false, false, false)
      ensures Value() == Default(FLOCK_OBJECT)
    {
      ty, flockId, path, isset := 0, [], [], FLockObjectIsset(false, false, false);
      new;
      DefaultOfThree(FLOCK_OBJECT_FIELDS);
    }

    /** Assigns one of the text members and sets its flag. */
    method StoreText(fid: i16, text: Bytes)
      requires fid == 2 || fid == 3
      modifies this
      ensures Value() == Set(old(Value()), fid - 1, VString(text))
      ensures isset == if fid == 2 then old(isset).(flockId := true) else old(isset).(path := true)
    {
      hide Set, HasType;
      SetOfThree(VI32(ty), VString(flockId), VString(path), isset.ty, isset.flockId, isset.path, VString(text));
      if fid == 2 {
        flockId, isset := text, isset.(flockId := true);
      } else {
        path, isset := text, isset.(path := true);
      }
    }

    /** The switch of the field loop. */
    method ReadMember(iprot: TProtocol, ftype: byte, fid: i16) returns (r: Try<uint32>)
      modifies this, iprot`input
      ensures Agrees(Turn(FLOCK_OBJECT_FIELDS, old(Value()), ftype, fid, old(iprot.input)),
                     old(iprot.input), r, Value(), iprot.input)
      ensures r.Got? ==>
        isset ==
          if fid == 1 && ftype == 8 then old(isset).(ty := true)
          else if fid == 2 && ftype == 11 then old(isset).(flockId := true)
          else if fid == 3 && ftype == 11 then old(isset).(path := true)
          else old(isset)
    {
      hide Count, ReadVal, Skip, Turn, HasType, Set, Default;
      ghost var was, body := Value(), iprot.input;
      if fid == 1 && ftype == T_I32 {
        LeafTurn(FLOCK_OBJECT_FIELDS, was, 0, body);
        var v, n :- iprot.ReadI32();
        ty, isset := v, isset.(ty := true);
        SetOfThree(VI32(old(ty)), VString(old(flockId)), VString(old(path)), old(isset.ty), old(isset.flockId),
          old(isset.path), VI32(v));
        return Got(n);
      } else if (fid == 2 || fid == 3) && ftype == T_STRING {
        LeafTurn(FLOCK_OBJECT_FIELDS, was, fid - 1, body);
        var v, n :- iprot.ReadString();
        StoreText(fid, v);
        return Got(n);
      } else {
        SkippedTurn(FLOCK_OBJECT_FIELDS, was, ftype, fid, body);
        var n :- iprot.SkipValue(ftype);
        return Got(n);
      }
    }

    method Read(iprot: TProtocol) returns (r: Try<uint32>)
      modifies this, iprot`input
      ensures Agrees(ReadVal(FLOCK_OBJECT, old(Value()), old(iprot.input)), old(iprot.input), r, Value(), iprot.input)
      ensures r.Got? ==> r.value == (|old(iprot.input)| - |iprot.input|) % 0x1_0000_0000
      ensures forall a: i32, b: Bytes, c: Bytes, rest: Bytes |
        && |b| < 0x1_0000_0000
        && |c| < 0x1_0000_0000
        && old(iprot.input)
        == ([8, 0, 1] + I32Bytes(a)
         + [11, 0, 2] + SizeBytes(|b|) + b
         + [11, 0, 3] + SizeBytes(|c|) + c
         + [0]) + rest ::
        && r.Got? && iprot.input == rest && isset == FLockObjectIsset(true, true, true)
        && ty == a && flockId == b && path == c
    {
      hide Count, Plus, ReadFields, ReadVal, Turn, ParseFieldBegin, HasType, SizeBytes, I32Bytes, ThriftCodec.Write,
        Writable, Stamp;
      ghost var start, was := iprot.input, Value();
      forall a: i32, b: Bytes, c: Bytes, rest: Bytes |
        && |b| < 0x1_0000_0000
        && |c| < 0x1_0000_0000
        && start
        == ([8, 0, 1] + I32Bytes(a)
         + [11, 0, 2] + SizeBytes(|b|) + b
         + [11, 0, 3] + SizeBytes(|c|) + c
         + [0]) + rest
        ensures ReadVal(FLOCK_OBJECT, was, start)
             == Done(VStruct([VI32(a), VString(b), VString(c)], [true, true, true]), rest)
      {
        FLockObjectFromBytes(was, a, b, c, rest);
      }
      LoopTurn(FLOCK_OBJECT_FIELDS, was, start);
      var xfer := Count(0);
      while true
        invariant ReadFields(FLOCK_OBJECT_FIELDS, Value(), iprot.input) == ReadFields(FLOCK_OBJECT_FIELDS, was, start)
        invariant |iprot.input| <= |start| && xfer == Count(|start| - |iprot.input|)
        decreases |iprot.input|
      {
        ghost var turn := iprot.input;
        LoopTurn(FLOCK_OBJECT_FIELDS, Value(), turn);
        var ftype, fid, n :- iprot.ReadFieldBegin();
        ghost var body := iprot.input;
        CountSum(|start| - |turn|, |turn| - |body|);
        xfer := Plus(xfer, n);
        if ftype == T_STOP {
          break;
        }
        var m :- ReadMember(iprot, ftype, fid);
        CountSum(|start| - |body|, |body| - |iprot.input|);
        xfer := Plus(xfer, m);
      }
      CountIsModulo(|start| - |iprot.input|);
      return Got(xfer);
    }

    method Write(oprot: TProtocol) returns (xfer: uint32)
      modifies oprot`output
      ensures oprot.output == old(oprot.output) + ThriftCodec.Write(FLOCK_OBJECT, Value())
      ensures xfer == Count(|ThriftCodec.Write(FLOCK_OBJECT, Value())|)
      ensures oprot.output
        == old(oprot.output)
         + ([8, 0, 1] + I32Bytes(ty)
         + [11, 0, 2] + SizeBytes(|flockId|) + flockId
         + [11, 0, 3] + SizeBytes(|path|) + path
         + [0])
      ensures xfer == (|oprot.output| - |old(oprot.output)|) % 0x1_0000_0000
    {
      hide Count, Plus, ThriftCodec.Write, WriteFrom, I16Bytes, Halfway, SizeBytes, I32Bytes;
      ghost var v, start, last := Value(), oprot.output, oprot.output;
      HalfwayStart(FLOCK_OBJECT_FIELDS, v, start);
      var n, m;
      xfer := Count(0);

      n := oprot.WriteFieldBegin(T_I32, 1);
      m := oprot.WriteI32(ty);
      HalfwayWritten(FLOCK_OBJECT_FIELDS, v, 0, start, last, xfer, oprot.output);
      xfer := Plus(Plus(xfer, n), m);
      last := oprot.output;

      n := oprot.WriteFieldBegin(T_STRING, 2);
      m := oprot.WriteString(flockId);
      HalfwayWritten(FLOCK_OBJECT_FIELDS, v, 1, start, last, xfer, oprot.output);
      xfer := Plus(Plus(xfer, n), m);
      last := oprot.output;

      n := oprot.WriteFieldBegin(T_STRING, 3);
      m := oprot.WriteString(path);
      HalfwayWritten(FLOCK_OBJECT_FIELDS, v, 2, start, last, xfer, oprot.output);
      xfer := Plus(Plus(xfer, n), m);
      last := oprot.output;

      HalfwayEnd(FLOCK_OBJECT_FIELDS, v, start, oprot.output, xfer);
      n := oprot.WriteFieldStop();
      xfer := Plus(xfer, n);
      FLockObjectInBytes(ty, flockId, path, [isset.ty, isset.flockId, isset.path]);
      CountIsModulo(|oprot.output| - |start|);
    }
  }

  const FLOCK_INFO_FIELDS: seq<Field> := [Field(1, FLOCK_OBJECT, false), Field(2, TI32, false)]
  const FLOCK_INFO: Ty := TStruct(FLOCK_INFO_FIELDS)

  datatype FLockInfoIsset = FLockInfoIsset(obj: bool, state: bool)

  lemma FLockInfoSchema()
    ensures Plain(FLOCK_INFO)
  {
    hide Plain;
    PlainLeaves();
    FLockObjectSchema();
    PlainStruct(FLOCK_INFO_FIELDS);
  }

  /** What is written for these members, in plain numbers. */
  lemma FLockInfoInBytes(obj: Val, state: i32, isset: seq<bool>)
    requires |isset| == 2 && HasType(FLOCK_OBJECT, obj)
    ensures Write(FLOCK_INFO, VStruct([obj, VI32(state)], isset))
         == [12, 0, 1] + Write(FLOCK_OBJECT, obj)
            + [8, 0, 2] + I32Bytes(state)
            + [0]
  {
    var v := VStruct([obj, VI32(state)], isset);
    hide Write, WriteFrom, SizeBytes, I32Bytes;
    assert HasType(FLOCK_INFO, v);
    hide HasType;
    var all := Write(FLOCK_INFO, v);
    WriteFromStart(FLOCK_INFO_FIELDS, v);
    StructInBytes(FLOCK_INFO_FIELDS, v, 0, all, [], 1, FLOCK_OBJECT, obj);
    var before1 := [12, 0, 1] + Write(FLOCK_OBJECT, obj);
    assert [] + [12, 0, 1] + Write(FLOCK_OBJECT, obj) == before1;
    I32InBytes(FLOCK_INFO_FIELDS, v, 1, all, before1, 2, state);
    var before2 := before1 + [8, 0, 2] + I32Bytes(state);
    WriteFromEnd(FLOCK_INFO_FIELDS, v);
  }

  /** What is read from such bytes. */
  lemma FLockInfoFromBytes(was: Val, obj: Val, state: i32, rest: Bytes)
    requires HasType(FLOCK_INFO, was)
    requires HasType(FLOCK_OBJECT, obj) && Writable(FLOCK_OBJECT, obj)
    ensures ReadVal(FLOCK_INFO, was,
              ([12, 0, 1] + Write(FLOCK_OBJECT, obj)
           + [8, 0, 2] + I32Bytes(state)
           + [0]) + rest)
         == Done(VStruct([Stamp(FLOCK_OBJECT, obj), VI32(state)], [true, true]), rest)
  {
    var v := VStruct([obj, VI32(state)], [false, false]);
    FLockInfoInBytes(obj, state, [false, false]);
    FLockInfoSchema();
    assert Writable(FLOCK_INFO, v);
    RoundTrip(FLOCK_INFO, was, v, rest);
    assert Stamp(FLOCK_INFO, v).vals == [Stamp(FLOCK_OBJECT, obj), VI32(state)];
    assert Stamp(FLOCK_INFO, v).isset == [true, true];
  }

  class FLockInfo {
    const obj: FLockObject
    var state: i32
    var isset: FLockInfoIsset

    ghost function Value(): (v: Val)
      reads this, obj
      ensures HasType(FLOCK_INFO, v)
    {
      VStruct([obj.Value(), VI32(state)], [isset.obj, isset.state])
    }

    constructor ()
      ensures state == 0 && isset == FLockInfoIsset(false, false)
      ensures Value() == Default(FLOCK_INFO) && fresh(obj)
    {
      obj := new FLockObject();
      state, isset := 0, FLockInfoIsset(false, false);
      new;
      DefaultOfTwo(FLOCK_INFO_FIELDS);
    }

    /** The switch of the field loop. */
    method ReadMember(iprot: TProtocol, ftype: byte, fid: i16) returns (r: Try<uint32>)
      modifies this, obj, iprot`input
      ensures Agrees(Turn(FLOCK_INFO_FIELDS, old(Value()), ftype, fid, old(iprot.input)),
                     old(iprot.input), r, Value(), iprot.input)
      ensures r.Got? ==>
        isset ==
          if fid == 1 && ftype == 12 then old(isset).(obj := true)
          else if fid == 2 && ftype == 8 then old(isset).(state := true)
          else old(isset)
    {
      hide Count, ReadVal, Skip, Turn, HasType, Set, Default;
      ghost var was, body := Value(), iprot.input;
      if fid == 1 && ftype == T_STRUCT {
        StoredTurn(FLOCK_INFO_FIELDS, was, 0, body);
        var n :- obj.Read(iprot);
        isset := isset.(obj := true);
        SetOfTwo(old(obj.Value()), VI32(old(state)), old(isset.obj), old(isset.state), obj.Value());
        return Got(n);
      } else if fid == 2 && ftype == T_I32 {
        LeafTurn(FLOCK_INFO_FIELDS, was, 1, body);
        var ecast, n :- iprot.ReadI32();
        state, isset := ecast, isset.(state := true);
        SetOfTwo(old(obj.Value()), VI32(old(state)), old(isset.obj), old(isset.state), VI32(ecast));
        return Got(n);
      } else {
        SkippedTurn(FLOCK_INFO_FIELDS, was, ftype, fid, body);
        var n :- iprot.SkipValue(ftype);
        return Got(n);
      }
    }

    method Read(iprot: TProtocol) returns (r: Try<uint32>)
      modifies this, obj, iprot`input
      ensures Agrees(ReadVal(FLOCK_INFO, old(Value()), old(iprot.input)), old(iprot.input), r, Value(), iprot.input)
      ensures r.Got? ==> r.value == (|old(iprot.input)| - |iprot.input|) % 0x1_0000_0000
      ensures forall a: Val, b: i32, rest: Bytes |
        && HasType(FLOCK_OBJECT, a) && Writable(FLOCK_OBJECT, a)
        && old(iprot.input)
        == ([12, 0, 1] + ThriftCodec.Write(FLOCK_OBJECT, a)
         + [8, 0, 2] + I32Bytes(b)
         + [0]) + rest ::
        && r.Got? && iprot.input == rest && isset == FLockInfoIsset(true, true)
        && obj.Value() == Stamp(FLOCK_OBJECT, a) && state == b
    {
      hide Count, Plus, ReadFields, ReadVal, Turn, ParseFieldBegin, HasType, SizeBytes, I32Bytes, ThriftCodec.Write,
        Writable, Stamp;
      ghost var start, was := iprot.input, Value();
      forall a: Val, b: i32, rest: Bytes |
        && HasType(FLOCK_OBJECT, a) && Writable(FLOCK_OBJECT, a)
        && start
        == ([12, 0, 1] + ThriftCodec.Write(FLOCK_OBJECT, a)
         + [8, 0, 2] + I32Bytes(b)
         + [0]) + rest
        ensures ReadVal(FLOCK_INFO, was, start)
             == Done(VStruct([Stamp(FLOCK_OBJECT, a), VI32(b)], [true, true]), rest)
      {
        FLockInfoFromBytes(was, a, b, rest);
      }
      LoopTurn(FLOCK_INFO_FIELDS, was, start);
      var xfer := Count(0);
      while true
        invariant ReadFields(FLOCK_INFO_FIELDS, Value(), iprot.input) == ReadFields(FLOCK_INFO_FIELDS, was, start)
        invariant |iprot.input| <= |start| && xfer == Count(|start| - |iprot.input|)
        decreases |iprot.input|
      {
        ghost var turn := iprot.input;
        LoopTurn(FLOCK_INFO_FIELDS, Value(), turn);
        var ftype, fid, n :- iprot.ReadFieldBegin();
        ghost var body := iprot.input;
        CountSum(|start| - |turn|, |turn| - |body|);
        xfer := Plus(xfer, n);
        if ftype == T_STOP {
          break;
        }
        var m :- ReadMember(iprot, ftype, fid);
        CountSum(|start| - |body|, |body| - |iprot.input|);
        xfer := Plus(xfer, m);
      }
      CountIsModulo(|start| - |iprot.input|);
      return Got(xfer);
    }

    method Write(oprot: TProtocol) returns (xfer: uint32)
      modifies oprot`output
      ensures oprot.output == old(oprot.output) + ThriftCodec.Write(FLOCK_INFO, Value())
      ensures xfer == Count(|ThriftCodec.Write(FLOCK_INFO, Value())|)
      ensures oprot.output
        == old(oprot.output)
         + ([12, 0, 1] + ThriftCodec.Write(FLOCK_OBJECT, obj.Value())
         + [8, 0, 2] + I32Bytes(state)
         + [0])
      ensures xfer == (|oprot.output| - |old(oprot.output)|) % 0x1_0000_0000
    {
      hide Count, Plus, ThriftCodec.Write, WriteFrom, I16Bytes, Halfway, SizeBytes, I32Bytes;
      ghost var v, start, last := Value(), oprot.output, oprot.output;
      HalfwayStart(FLOCK_INFO_FIELDS, v, start);
      var n, m;
      xfer := Count(0);

      n := oprot.WriteFieldBegin(T_STRUCT, 1);
      m := obj.Write(oprot);
      HalfwayWritten(FLOCK_INFO_FIELDS, v, 0, start, last, xfer, oprot.output);
      xfer := Plus(Plus(xfer, n), m);
      last := oprot.output;

      n := oprot.WriteFieldBegin(T_I32, 2);
      m := oprot.WriteI32(state);
      HalfwayWritten(FLOCK_INFO_FIELDS, v, 1, start, last, xfer, oprot.output);
      xfer := Plus(Plus(xfer, n), m);
      last := oprot.output;

      HalfwayEnd(FLOCK_INFO_FIELDS, v, start, oprot.output, xfer);
      n := oprot.WriteFieldStop();
      xfer := Plus(xfer, n);
      FLockInfoInBytes(obj.Value(), state, [isset.obj, isset.state]);
      CountIsModulo(|oprot.output| - |start|);
    }
  }

  const FLOCK_LIST_RESPONSE_FIELDS: seq<Field> := [Field(1, DGI_RESULT, false), Field(2, TList(FLOCK_INFO), false)]
  const FLOCK_LIST_RESPONSE: Ty := TStruct(FLOCK_LIST_RESPONSE_FIELDS)

  datatype FLockListResponseIsset = FLockListResponseIsset(result: bool, flocks: bool)

  /** The elements of a vector own their members: no two share anything. */
  ghost predicate Separate(flocks: seq<FLockInfo>) {
    forall i, j | 0 <= i < j < |flocks| :: flocks[i] != flocks[j] && flocks[i].obj != flocks[j].obj
  }

  ghost function Objects(flocks: seq<FLockInfo>): set<FLockObject> {
    set x | x in flocks :: x.obj
  }

  ghost function Values(flocks: seq<FLockInfo>): (vs: seq<Val>)
    reads flocks, Objects(flocks)
    ensures |vs| == |flocks| && forall x <- vs :: HasType(FLOCK_INFO, x)
  {
    seq(|flocks|, i requires 0 <= i < |flocks| reads flocks, Objects(flocks) =>
          assert flocks[i] in flocks; flocks[i].Value())
  }

  twostate lemma ValuesUnchanged(flocks: seq<FLockInfo>)
    requires forall x <- flocks :: unchanged(x) && unchanged(x.obj)
    ensures Values(flocks) == old(Values(flocks))
  {
    forall k | 0 <= k < |flocks| ensures flocks[k].Value() == old(flocks[k].Value()) {
      assert flocks[k] in flocks;
    }
  }

  /** A vector of n default elements. */
  method Resize(n: nat) returns (flocks: seq<FLockInfo>)
    ensures |flocks| == n && Separate(flocks) && forall x <- flocks :: fresh(x) && fresh(x.obj)
    ensures forall x <- flocks :: x.Value() == Default(FLOCK_INFO)
  {
    flocks := [];
    while |flocks| < n
      invariant |flocks| <= n && Separate(flocks) && forall x <- flocks :: fresh(x) && fresh(x.obj)
      invariant forall x <- flocks :: x.Value() == Default(FLOCK_INFO)
    {
      var x := new FLockInfo();
      flocks := flocks + [x];
    }
  }

  /** The first elements of a vector have been read, with the given results; the others are still defaults. */
  ghost predicate Progress(flocks: seq<FLockInfo>, done: seq<Val>)
    reads flocks, Objects(flocks)
  {
    && |done| <= |flocks|
    && (forall k | 0 <= k < |done| :: flocks[k] in flocks && flocks[k].Value() == done[k])
    && (forall k | |done| <= k < |flocks| :: flocks[k] in flocks && flocks[k].Value() == Default(FLOCK_INFO))
  }

  lemma NothingRead(flocks: seq<FLockInfo>)
    requires forall x <- flocks :: x.Value() == Default(FLOCK_INFO)
    ensures Progress(flocks, [])
  {
  }

  lemma AllRead(flocks: seq<FLockInfo>, done: seq<Val>)
    requires Progress(flocks, done) && |done| == |flocks|
    ensures Values(flocks) == done
  {
  }

  /** Reads the next element in place, which leaves the others alone. */
  method ReadElement(flocks: seq<FLockInfo>, ghost done: seq<Val>, i: nat, iprot: TProtocol) returns (r: Try<uint32>)
    requires i == |done| < |flocks| && Separate(flocks) && Progress(flocks, done)
    modifies flocks[i], flocks[i].obj, iprot`input
    ensures Agrees(ReadVal(FLOCK_INFO, Default(FLOCK_INFO), old(iprot.input)),
                   old(iprot.input), r, flocks[i].Value(), iprot.input)
    ensures Progress(flocks, done + [flocks[i].Value()])
  {
    hide Count, ReadVal, Default;
    r := flocks[i].Read(iprot);
    assert forall k | 0 <= k < |flocks| && k != i :: flocks[k].Value() == old(flocks[k].Value());
  }

  lemma FLockListResponseSchema()
    ensures Plain(FLOCK_LIST_RESPONSE)
  {
    hide Plain;
    PlainLeaves();
    DgiResultSchema();
    FLockInfoSchema();
    PlainList(FLOCK_INFO);
    PlainStruct(FLOCK_LIST_RESPONSE_FIELDS);
  }

  /** What is written for these members, in plain numbers. */
  lemma FLockListResponseInBytes(result: Val, flocks: Val, isset: seq<bool>)
    requires |isset| == 2 && HasType(DGI_RESULT, result) && HasType(TList(FLOCK_INFO), flocks)
    ensures Write(FLOCK_LIST_RESPONSE, VStruct([result, flocks], isset))
         == [12, 0, 1] + Write(DGI_RESULT, result)
            + [15, 0, 2] + Write(TList(FLOCK_INFO), flocks)
            + [0]
  {
    var v := VStruct([result, flocks], isset);
    hide Write, WriteFrom, SizeBytes, I32Bytes;
    assert HasType(FLOCK_LIST_RESPONSE, v);
    hide HasType;
    var all := Write(FLOCK_LIST_RESPONSE, v);
    WriteFromStart(FLOCK_LIST_RESPONSE_FIELDS, v);
    StructInBytes(FLOCK_LIST_RESPONSE_FIELDS, v, 0, all, [], 1, DGI_RESULT, result);
    var before1 := [12, 0, 1] + Write(DGI_RESULT, result);
    assert [] + [12, 0, 1] + Write(DGI_RESULT, result) == before1;
    ListInBytes(FLOCK_LIST_RESPONSE_FIELDS, v, 1, all, before1, 2, TList(FLOCK_INFO), flocks);
    var before2 := before1 + [15, 0, 2] + Write(TList(FLOCK_INFO), flocks);
    WriteFromEnd(FLOCK_LIST_RESPONSE_FIELDS, v);
  }

  /** What is read from such bytes. */
  lemma FLockListResponseFromBytes(was: Val, result: Val, flocks: Val, rest: Bytes)
    requires HasType(FLOCK_LIST_RESPONSE, was)
    requires HasType(DGI_RESULT, result) && Writable(DGI_RESULT, result)
    requires HasType(TList(FLOCK_INFO), flocks) && Writable(TList(FLOCK_INFO), flocks)
    ensures ReadVal(FLOCK_LIST_RESPONSE, was,
              ([12, 0, 1] + Write(DGI_RESULT, result)
           + [15, 0, 2] + Write(TList(FLOCK_INFO), flocks)
           + [0]) + rest)
         == Done(VStruct([Stamp(DGI_RESULT, result), Stamp(TList(FLOCK_INFO), flocks)], [true, true]), rest)
  {
    var v := VStruct([result, flocks], [false, false]);
    FLockListResponseInBytes(result, flocks, [false, false]);
    FLockListResponseSchema();
    assert Writable(FLOCK_LIST_RESPONSE, v);
    RoundTrip(FLOCK_LIST_RESPONSE, was, v, rest);
    assert Stamp(FLOCK_LIST_RESPONSE, v).vals == [Stamp(DGI_RESULT, result), Stamp(TList(FLOCK_INFO), flocks)];
    assert Stamp(FLOCK_LIST_RESPONSE, v).isset == [true, true];
  }

  class FLockListResponse {
    const result: DgiResult
    var flocks: seq<FLockInfo>
    var isset: FLockListResponseIsset

    ghost function Value(): (v: Val)
      reads this, result, flocks, Objects(flocks)
      ensures HasType(FLOCK_LIST_RESPONSE, v)
    {
      VStruct([result.Value(), VList(Values(flocks))], [isset.result, isset.flocks])
    }

    constructor ()
      ensures flocks == [] && isset == FLockListResponseIsset(false, false)
      ensures Value() == Default(FLOCK_LIST_RESPONSE) && fresh(result)
    {
      result := new DgiResult();
      flocks, isset := [], FLockListResponseIsset(false, false);
      new;
      DefaultOfTwo(FLOCK_LIST_RESPONSE_FIELDS);
    }

    /** Clears the list, reads its size, makes that many default elements and reads each of them in place. */
    method ReadFlocks(iprot: TProtocol) returns (r: Try<uint32>)
      modifies this`flocks, iprot`input
      ensures Agrees(ReadVal(TList(FLOCK_INFO), VList([]), old(iprot.input)),
                     old(iprot.input), r, VList(Values(flocks)), iprot.input)
      ensures r.Got? ==> |old(iprot.input)| >= 5 && |flocks| == Unsigned(old(iprot.input)[1..5])
      ensures r.Got? ==> r.value == (|old(iprot.input)| - |iprot.input|) % 0x1_0000_0000
    {
      hide Count, Plus, ReadVal, ReadElems, HasType, Default, Unsigned, Progress;
      ghost var start := iprot.input;
      ListStart(FLOCK_INFO, VList([]), start);
      flocks := [];
      var etype, size, n :- iprot.ReadListBegin();
      var xfer := n;
      ghost var first := iprot.input;
      flocks := Resize(size);
      ghost var done: seq<Val> := [];
      NothingRead(flocks);
      var i := 0;
      while i < size
        invariant i <= size == |flocks| && Separate(flocks) && forall x <- flocks :: fresh(x) && fresh(x.obj)
        invariant |done| == i && (forall x <- done :: HasType(FLOCK_INFO, x)) && Progress(flocks, done)
        invariant ReadElems(FLOCK_INFO, size - i, done, iprot.input) == ReadElems(FLOCK_INFO, size, [], first)
        invariant |iprot.input| <= |start| && xfer == Count(|start| - |iprot.input|)
      {
        ghost var turn := iprot.input;
        ListTurn(FLOCK_INFO, size - i, done, turn);
        assert flocks[i] in flocks;
        var m :- ReadElement(flocks, done, i, iprot);
        done := done + [flocks[i].Value()];
        CountSum(|start| - |turn|, |turn| - |iprot.input|);
        xfer := Plus(xfer, m);
        i := i + 1;
      }
      ListTurn(FLOCK_INFO, 0, done, iprot.input);
      AllRead(flocks, done);
      CountIsModulo(|start| - |iprot.input|);
      return Got(xfer);
    }

    /** The switch of the field loop. */
    method ReadMember(iprot: TProtocol, ftype: byte, fid: i16) returns (r: Try<uint32>)
      modifies this, result, iprot`input
      ensures Agrees(Turn(FLOCK_LIST_RESPONSE_FIELDS, old(Value()), ftype, fid, old(iprot.input)),
                     old(iprot.input), r, Value(), iprot.input)
      ensures r.Got? ==>
        isset ==
          if fid == 1 && ftype == 12 then old(isset).(result := true)
          else if fid == 2 && ftype == 15 then old(isset).(flocks := true)
          else old(isset)
    {
      hide Count, ReadVal, Skip, Turn, HasType, Set, Default;
      ghost var was, body := Value(), iprot.input;
      if fid == 1 && ftype == T_STRUCT {
        StoredTurn(FLOCK_LIST_RESPONSE_FIELDS, was, 0, body);
        var n :- result.Read(iprot);
        isset := isset.(result := true);
        ValuesUnchanged(flocks);
        SetOfTwo(old(result.Value()), VList(old(Values(flocks))), old(isset.result), old(isset.flocks), result.Value());
        return Got(n);
      } else if fid == 2 && ftype == T_LIST {
        ListTurnStored(FLOCK_LIST_RESPONSE_FIELDS, was, 1, body);
        var n :- ReadFlocks(iprot);
        label Filled:
        isset := isset.(flocks := true);
        ValuesUnchanged@Filled(flocks);
        SetOfTwo(old(result.Value()), VList(old(Values(flocks))), old(isset.result), old(isset.flocks),
          VList(Values(flocks)));
        return Got(n);
      } else {
        SkippedTurn(FLOCK_LIST_RESPONSE_FIELDS, was, ftype, fid, body);
        var n :- iprot.SkipValue(ftype);
        ValuesUnchanged(flocks);
        return Got(n);
      }
    }

    method Read(iprot: TProtocol) returns (r: Try<uint32>)
      modifies this, result, iprot`input
      ensures Agrees(ReadVal(FLOCK_LIST_RESPONSE, old(Value()), old(iprot.input)),
                     old(iprot.input), r, Value(), iprot.input)
      ensures r.Got? ==> r.value == (|old(iprot.input)| - |iprot.input|) % 0x1_0000_0000
      ensures forall a: Val, b: Val, rest: Bytes |
        && HasType(DGI_RESULT, a) && Writable(DGI_RESULT, a)
        && HasType(TList(FLOCK_INFO), b) && Writable(TList(FLOCK_INFO), b)
        && old(iprot.input)
        == ([12, 0, 1] + ThriftCodec.Write(DGI_RESULT, a)
         + [15, 0, 2] + ThriftCodec.Write(TList(FLOCK_INFO), b)
         + [0]) + rest ::
        && r.Got? && iprot.input == rest && isset == FLockListResponseIsset(true, true)
        && result.Value() == Stamp(DGI_RESULT, a) && VList(Values(flocks)) == Stamp(TList(FLOCK_INFO), b)
    {
      hide Count, Plus, ReadFields, ReadVal, Turn, ParseFieldBegin, HasType, SizeBytes, I32Bytes, ThriftCodec.Write,
        Writable, Stamp;
      ghost var start, was := iprot.input, Value();
      forall a: Val, b: Val, rest: Bytes |
        && HasType(DGI_RESULT, a) && Writable(DGI_RESULT, a)
        && HasType(TList(FLOCK_INFO), b) && Writable(TList(FLOCK_INFO), b)
        && start
        == ([12, 0, 1] + ThriftCodec.Write(DGI_RESULT, a)
         + [15, 0, 2] + ThriftCodec.Write(TList(FLOCK_INFO), b)
         + [0]) + rest
        ensures ReadVal(FLOCK_LIST_RESPONSE, was, start)
             == Done(VStruct([Stamp(DGI_RESULT, a), Stamp(TList(FLOCK_INFO), b)], [true, true]), rest)
      {
        FLockListResponseFromBytes(was, a, b, rest);
      }
      LoopTurn(FLOCK_LIST_RESPONSE_FIELDS, was, start);
      var xfer := Count(0);
      while true
        invariant ReadFields(FLOCK_LIST_RESPONSE_FIELDS, Value(), iprot.input)
          == ReadFields(FLOCK_LIST_RESPONSE_FIELDS, was, start)
        invariant |iprot.input| <= |start| && xfer == Count(|start| - |iprot.input|)
        decreases |iprot.input|
      {
        ghost var turn := iprot.input;
        LoopTurn(FLOCK_LIST_RESPONSE_FIELDS, Value(), turn);
        label Head:
        var ftype, fid, n :- iprot.ReadFieldBegin();
        ValuesUnchanged@Head(flocks);
        ghost var body := iprot.input;
        CountSum(|start| - |turn|, |turn| - |body|);
        xfer := Plus(xfer, n);
        if ftype == T_STOP {
          break;
        }
        var m :- ReadMember(iprot, ftype, fid);
        CountSum(|start| - |body|, |body| - |iprot.input|);
        xfer := Plus(xfer, m);
      }
      CountIsModulo(|start| - |iprot.input|);
      return Got(xfer);
    }

    method WriteFlocks(oprot: TProtocol) returns (xfer: uint32)
      modifies oprot`output
      ensures oprot.output == old(oprot.output) + ThriftCodec.Write(TList(FLOCK_INFO), VList(Values(flocks)))
      ensures xfer == Count(|ThriftCodec.Write(TList(FLOCK_INFO), VList(Values(flocks)))|)
      ensures oprot.output == old(oprot.output) + ([12] + SizeBytes(|flocks|) + WriteElems(FLOCK_INFO, Values(flocks)))
      ensures xfer == (|oprot.output| - |old(oprot.output)|) % 0x1_0000_0000
    {
      hide Count, Plus, ThriftCodec.Write, WriteElems, SizeBytes;
      ghost var start, vs := oprot.output, Values(flocks);
      WriteElemsEmpty(FLOCK_INFO);
      xfer := oprot.WriteListBegin(T_STRUCT, |flocks|);
      var i := 0;
      while i < |flocks|
        invariant i <= |flocks| && vs == Values(flocks)
        invariant oprot.output == start + ([T_STRUCT] + SizeBytes(|flocks|) + WriteElems(FLOCK_INFO, vs[..i]))
        invariant xfer == Count(|oprot.output| - |start|)
      {
        ghost var last := oprot.output;
        WriteElemsAppend(FLOCK_INFO, vs[..i], vs[i]);
        assert vs[..i] + [vs[i]] == vs[..i + 1];
        var m := flocks[i].Write(oprot);
        CountSum(|last| - |start|, |oprot.output| - |last|);
        xfer := Plus(xfer, m);
        i := i + 1;
      }
      assert vs[..i] == vs;
      WriteList(FLOCK_INFO, vs);
      CountIsModulo(|oprot.output| - |start|);
    }

    method Write(oprot: TProtocol) returns (xfer: uint32)
      modifies oprot`output
      ensures oprot.output == old(oprot.output) + ThriftCodec.Write(FLOCK_LIST_RESPONSE, Value())
      ensures xfer == Count(|ThriftCodec.Write(FLOCK_LIST_RESPONSE, Value())|)
      ensures oprot.output
        == old(oprot.output)
         + ([12, 0, 1] + ThriftCodec.Write(DGI_RESULT, result.Value())
         + [15, 0, 2] + ThriftCodec.Write(TList(FLOCK_INFO), VList(Values(flocks)))
         + [0])
      ensures xfer == (|oprot.output| - |old(oprot.output)|) % 0x1_0000_0000
    {
      hide Count, Plus, ThriftCodec.Write, WriteFrom, I16Bytes, Halfway, SizeBytes, I32Bytes;
      ghost var v, start, last := Value(), oprot.output, oprot.output;
      HalfwayStart(FLOCK_LIST_RESPONSE_FIELDS, v, start);
      var n, m;
      xfer := Count(0);

      n := oprot.WriteFieldBegin(T_STRUCT, 1);
      m := result.Write(oprot);
      HalfwayWritten(FLOCK_LIST_RESPONSE_FIELDS, v, 0, start, last, xfer, oprot.output);
      xfer := Plus(Plus(xfer, n), m);
      last := oprot.output;

      n := oprot.WriteFieldBegin(T_LIST, 2);
      m := WriteFlocks(oprot);
      ValuesUnchanged(flocks);
      HalfwayWritten(FLOCK_LIST_RESPONSE_FIELDS, v, 1, start, last, xfer, oprot.output);
      xfer := Plus(Plus(xfer, n), m);
      last := oprot.output;

      HalfwayEnd(FLOCK_LIST_RESPONSE_FIELDS, v, start, oprot.output, xfer);
      n := oprot.WriteFieldStop();
      ValuesUnchanged(flocks);
      xfer := Plus(xfer, n);
      FLockListResponseInBytes(result.Value(), VList(Values(flocks)), [isset.result, isset.flocks]);
      CountIsModulo(|oprot.output| - |start|);
    }
  }

  /** A list reply of the folder lock service, read back over any old contents and in front of any other bytes, equals
      what was written, flags every member at every level, and leaves exactly the following bytes. */
  lemma FLockListResponseRoundTrip(was: Val, v: Val, rest: Bytes)
    requires HasType(FLOCK_LIST_RESPONSE, was) && HasType(FLOCK_LIST_RESPONSE, v) && Writable(FLOCK_LIST_RESPONSE, v)
    ensures ReadVal(FLOCK_LIST_RESPONSE, was, Write(FLOCK_LIST_RESPONSE, v) + rest)
      == Done(Stamp(FLOCK_LIST_RESPONSE, v), rest)
    ensures Equal(FLOCK_LIST_RESPONSE, v, Stamp(FLOCK_LIST_RESPONSE, v))
  {
    FLockListResponseSchema();
    RoundTrip(FLOCK_LIST_RESPONSE, was, v, rest);
  }
}
