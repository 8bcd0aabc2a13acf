/** The reply of the secure-erase service, with a list of the objects that were not erased. */
module DgiSecureEraseResponse {
  import opened ThriftWire
  import opened ThriftCodec
  import opened ThriftLaws
  import opened ThriftProtocol
  import opened DgiCommonTypes
  import opened DgiSecureEraseTypes

  const ERASE_RESPONSE_FIELDS: seq<Field> := [Field(1, DGI_RESULT, false), Field(2, TList(ERASE_OBJECT_ERROR), false)]
  const ERASE_RESPONSE: Ty := TStruct(ERASE_RESPONSE_FIELDS)

  datatype EraseResponseIsset = EraseResponseIsset(result: bool, notErased: bool)

  /** The elements of a vector own their members: no two share anything. */
  ghost predicate Separate(notErased: seq<EraseObjectError>) {
    forall i, j | 0 <= i < j < |notErased| ::
      notErased[i] != notErased[j] && notErased[i].erObject != notErased[j].erObject
  }

  ghost function Objects(notErased: seq<EraseObjectError>): set<EraseObject> {
    set x | x in notErased :: x.erObject
  }

  ghost function Values(notErased: seq<EraseObjectError>): (vs: seq<Val>)
    reads notErased, Objects(notErased)
    ensures |vs| == |notErased| && forall x <- vs :: HasType(ERASE_OBJECT_ERROR, x)
  {
    seq(|notErased|, i requires 0 <= i < |notErased| reads notErased, Objects(notErased) =>
          assert notErased[i] in notErased; notErased[i].Value())
  }

  twostate lemma ValuesUnchanged(notErased: seq<EraseObjectError>)
    requires forall x <- notErased :: unchanged(x) && unchanged(x.erObject)
    ensures Values(notErased) == old(Values(notErased))
  {
    forall k | 0 <= k < |notErased| ensures notErased[k].Value() == old(notErased[k].Value()) {
      assert notErased[k] in notErased;
    }
  }

  /** A vector of n default elements. */
  method Resize(n: nat) returns (notErased: seq<EraseObjectError>)
    ensures |notErased| == n && Separate(notErased) && forall x <- notErased :: fresh(x) && fresh(x.erObject)
    ensures forall x <- notErased :: x.Value() == Default(ERASE_OBJECT_ERROR)
  {
    notErased := [];
    while |notErased| < n
      invariant |notErased| <= n && Separate(notErased) && forall x <- notErased :: fresh(x) && fresh(x.erObject)
      invariant forall x <- notErased :: x.Value() == Default(ERASE_OBJECT_ERROR)
    {
      var x := new EraseObjectError();
      notErased := notErased + [x];
    }
  }

  /** The first elements of a vector have been read, with the given results; the others are still defaults. */
  ghost predicate Progress(notErased: seq<EraseObjectError>, done: seq<Val>)
    reads notErased, Objects(notErased)
  {
    && |done| <= |notErased|
    && (forall k | 0 <= k < |done| :: notErased[k] in notErased && notErased[k].Value() == done[k])
    && (forall k | |done| <= k < |notErased| ::
       notErased[k] in notErased && notErased[k].Value() == Default(ERASE_OBJECT_ERROR))
  }

  lemma NothingRead(notErased: seq<EraseObjectError>)
    requires forall x <- notErased :: x.Value() == Default(ERASE_OBJECT_ERROR)
    ensures Progress(notErased, [])
  {
  }

  lemma AllRead(notErased: seq<EraseObjectError>, done: seq<Val>)
    requires Progress(notErased, done) && |done| == |notErased|
    ensures Values(notErased) == done
  {
  }

  /** Reads the next element in place, which leaves the others alone. */
  method ReadElement(notErased: seq<EraseObjectError>, ghost done: seq<Val>, i: nat,
      iprot: TProtocol) returns (r: Try<uint32>)
    requires i == |done| < |notErased| && Separate(notErased) && Progress(notErased, done)
    modifies notErased[i], notErased[i].erObject, iprot`input
    ensures Agrees(ReadVal(ERASE_OBJECT_ERROR, Default(ERASE_OBJECT_ERROR), old(iprot.input)),
                   old(iprot.input), r, notErased[i].Value(), iprot.input)
    ensures Progress(notErased, done + [notErased[i].Value()])
  {
    hide Count, ReadVal, Default;
    r := notErased[i].Read(iprot);
    assert forall k | 0 <= k < |notErased| && k != i :: notErased[k].Value() == old(notErased[k].Value());
  }

  lemma EraseResponseSchema()
    ensures Plain(ERASE_RESPONSE)
  {
    hide Plain;
    PlainLeaves();
    DgiResultSchema();
    EraseObjectErrorSchema();
    PlainList(ERASE_OBJECT_ERROR);
    PlainStruct(ERASE_RESPONSE_FIELDS);
  }

  /** What is written for these members, in plain numbers. */
  lemma EraseResponseInBytes(result: Val, notErased: Val, isset: seq<bool>)
    requires |isset| == 2 && HasType(DGI_RESULT, result) && HasType(TList(ERASE_OBJECT_ERROR), notErased)
    ensures Write(ERASE_RESPONSE, VStruct([result, notErased], isset))
         == [12, 0, 1] + Write(DGI_RESULT, result)
            + [15, 0, 2] + Write(TList(ERASE_OBJECT_ERROR), notErased)
            + [0]
  {
    var v := VStruct([result, notErased], isset);
    hide Write, WriteFrom, SizeBytes, I32Bytes;
    assert HasType(ERASE_RESPONSE, v);
    hide HasType;
    var all := Write(ERASE_RESPONSE, v);
    WriteFromStart(ERASE_RESPONSE_FIELDS, v);
    StructInBytes(ERASE_RESPONSE_FIELDS, v, 0, all, [], 1, DGI_RESULT, result);
    var before1 := [12, 0, 1] + Write(DGI_RESULT, result);
    assert [] + [12, 0, 1] + Write(DGI_RESULT, result) == before1;
    ListInBytes(ERASE_RESPONSE_FIELDS, v, 1, all, before1, 2, TList(ERASE_OBJECT_ERROR), notErased);
    var before2 := before1 + [15, 0, 2] + Write(TList(ERASE_OBJECT_ERROR), notErased);
    WriteFromEnd(ERASE_RESPONSE_FIELDS, v);
  }

  /** What is read from such bytes. */
  lemma EraseResponseFromBytes(was: Val, result: Val, notErased: Val, rest: Bytes)
    requires HasType(ERASE_RESPONSE, was)
    requires HasType(DGI_RESULT, result) && Writable(DGI_RESULT, result)
    requires HasType(TList(ERASE_OBJECT_ERROR), notErased) && Writable(TList(ERASE_OBJECT_ERROR), notErased)
    ensures ReadVal(ERASE_RESPONSE, was,
              ([12, 0, 1] + Write(DGI_RESULT, result)
           + [15, 0, 2] + Write(TList(ERASE_OBJECT_ERROR), notErased)
           + [0]) + rest)
         == Done(VStruct([Stamp(DGI_RESULT, result), Stamp(TList(ERASE_OBJECT_ERROR), notErased)], [true, true]), rest)
  {
    var v := VStruct([result, notErased], [false, false]);
    EraseResponseInBytes(result, notErased, [false, false]);
    EraseResponseSchema();
    assert Writable(ERASE_RESPONSE, v);
    RoundTrip(ERASE_RESPONSE, was, v, rest);
    assert Stamp(ERASE_RESPONSE, v).vals == [Stamp(DGI_RESULT, result), Stamp(TList(ERASE_OBJECT_ERROR), notErased)];
    assert Stamp(ERASE_RESPONSE, v).isset == [true, true];
  }

  class EraseResponse {
    const result: DgiResult
    var notErased: seq<EraseObjectError>
    var isset: EraseResponseIsset

    ghost function Value(): (v: Val)
      reads this, result, notErased, Objects(notErased)
      ensures HasType(ERASE_RESPONSE, v)
    {
      VStruct([result.Value(), VList(Values(notErased))], [isset.result, isset.notErased])
    }

    constructor ()
      ensures notErased == [] && isset == EraseResponseIsset(false, false)
      ensures Value() == Default(ERASE_RESPONSE) && fresh(result)
    {
      result := new DgiResult();
      notErased, isset := [], EraseResponseIsset(false, false);
      new;
      DefaultOfTwo(ERASE_RESPONSE_FIELDS);
    }

    /** Clears the list, reads its size, makes that many default elements and reads each of them in place. */
    method ReadNotErased(iprot: TProtocol) returns (r: Try<uint32>)
      modifies this`notErased, iprot`input
      ensures Agrees(ReadVal(TList(ERASE_OBJECT_ERROR), VList([]), old(iprot.input)),
                     old(iprot.input), r, VList(Values(notErased)), iprot.input)
      ensures r.Got? ==> |old(iprot.input)| >= 5 && |notErased| == Unsigned(old(iprot.input)[1..5])
      ensures r.Got? ==> r.value == (|old(iprot.input)| - |iprot.input|) % 0x1_0000_0000
    {
      hide Count, Plus, ReadVal, ReadElems, HasType, Default, Unsigned, Progress;
      ghost var start := iprot.input;
      ListStart(ERASE_OBJECT_ERROR, VList([]), start);
      notErased := [];
      var etype, size, n :- iprot.ReadListBegin();
      var xfer := n;
      ghost var first := iprot.input;
      notErased := Resize(size);
      ghost var done: seq<Val> := [];
      NothingRead(notErased);
      var i := 0;
      while i < size
        invariant i <= size == |notErased| && Separate(notErased) && forall x <- notErased ::
          fresh(x) && fresh(x.erObject)
        invariant |done| == i && (forall x <- done :: HasType(ERASE_OBJECT_ERROR, x)) && Progress(notErased, done)
        invariant ReadElems(ERASE_OBJECT_ERROR, size - i, done, iprot.input)
          == ReadElems(ERASE_OBJECT_ERROR, size, [], first)
        invariant |iprot.input| <= |start| && xfer == Count(|start| - |iprot.input|)
      {
        ghost var turn := iprot.input;
        ListTurn(ERASE_OBJECT_ERROR, size - i, done, turn);
        assert notErased[i] in notErased;
        var m :- ReadElement(notErased, done, i, iprot);
        done := done + [notErased[i].Value()];
        CountSum(|start| - |turn|, |turn| - |iprot.input|);
        xfer := Plus(xfer, m);
        i := i + 1;
      }
      ListTurn(ERASE_OBJECT_ERROR, 0, done, iprot.input);
      AllRead(notErased, done);
      CountIsModulo(|start| - |iprot.input|);
      return Got(xfer);
    }

    /** The switch of the field loop. */
    method ReadMember(iprot: TProtocol, ftype: byte, fid: i16) returns (r: Try<uint32>)
      modifies this, result, iprot`input
      ensures Agrees(Turn(ERASE_RESPONSE_FIELDS, old(Value()), ftype, fid, old(iprot.input)),
                     old(iprot.input), r, Value(), iprot.input)
      ensures r.Got? ==>
        isset ==
          if fid == 1 && ftype == 12 then old(isset).(result := true)
          else if fid == 2 && ftype == 15 then old(isset).(notErased := true)
          else old(isset)
    {
      hide Count, ReadVal, Skip, Turn, HasType, Set, Default;
      ghost var was, body := Value(), iprot.input;
      if fid == 1 && ftype == T_STRUCT {
        StoredTurn(ERASE_RESPONSE_FIELDS, was, 0, body);
        var n :- result.Read(iprot);
        isset := isset.(result := true);
        ValuesUnchanged(notErased);
        SetOfTwo(old(result.Value()), VList(old(Values(notErased))), old(isset.result), old(isset.notErased),
          result.Value());
        return Got(n);
      } else if fid == 2 && ftype == T_LIST {
        ListTurnStored(ERASE_RESPONSE_FIELDS, was, 1, body);
        var n :- ReadNotErased(iprot);
        label Filled:
        isset := isset.(notErased := true);
        ValuesUnchanged@Filled(notErased);
        SetOfTwo(old(result.Value()), VList(old(Values(notErased))), old(isset.result), old(isset.notErased),
          VList(Values(notErased)));
        return Got(n);
      } else {
        SkippedTurn(ERASE_RESPONSE_FIELDS, was, ftype, fid, body);
        var n :- iprot.SkipValue(ftype);
        ValuesUnchanged(notErased);
        return Got(n);
      }
    }

    method Read(iprot: TProtocol) returns (r: Try<uint32>)
      modifies this, result, iprot`input
      ensures Agrees(ReadVal(ERASE_RESPONSE, old(Value()), old(iprot.input)), old(iprot.input), r, Value(), iprot.input)
      ensures r.Got? ==> r.value == (|old(iprot.input)| - |iprot.input|) % 0x1_0000_0000
      ensures forall a: Val, b: Val, rest: Bytes |
        && HasType(DGI_RESULT, a) && Writable(DGI_RESULT, a)
        && HasType(TList(ERASE_OBJECT_ERROR), b) && Writable(TList(ERASE_OBJECT_ERROR), b)
        && old(iprot.input)
        == ([12, 0, 1] + ThriftCodec.Write(DGI_RESULT, a)
         + [15, 0, 2] + ThriftCodec.Write(TList(ERASE_OBJECT_ERROR), b)
         + [0]) + rest ::
        && r.Got? && iprot.input == rest && isset == EraseResponseIsset(true, true)
        && result.Value() == Stamp(DGI_RESULT, a) && VList(Values(notErased)) == Stamp(TList(ERASE_OBJECT_ERROR), b)
    {
      hide Count, Plus, ReadFields, ReadVal, Turn, ParseFieldBegin, HasType, SizeBytes, I32Bytes, ThriftCodec.Write,
        Writable, Stamp;
      ghost var start, was := iprot.input, Value();
      forall a: Val, b: Val, rest: Bytes |
        && HasType(DGI_RESULT, a) && Writable(DGI_RESULT, a)
        && HasType(TList(ERASE_OBJECT_ERROR), b) && Writable(TList(ERASE_OBJECT_ERROR), b)
        && start
        == ([12, 0, 1] + ThriftCodec.Write(DGI_RESULT, a)
         + [15, 0, 2] + ThriftCodec.Write(TList(ERASE_OBJECT_ERROR), b)
         + [0]) + rest
        ensures ReadVal(ERASE_RESPONSE, was, start)
             == Done(VStruct([Stamp(DGI_RESULT, a), Stamp(TList(ERASE_OBJECT_ERROR), b)], [true, true]), rest)
      {
        EraseResponseFromBytes(was, a, b, rest);
      }
      LoopTurn(ERASE_RESPONSE_FIELDS, was, start);
      var xfer := Count(0);
      while true
        invariant ReadFields(ERASE_RESPONSE_FIELDS, Value(), iprot.input)
          == ReadFields(ERASE_RESPONSE_FIELDS, was, start)
        invariant |iprot.input| <= |start| && xfer == Count(|start| - |iprot.input|)
        decreases |iprot.input|
      {
        ghost var turn := iprot.input;
        LoopTurn(ERASE_RESPONSE_FIELDS, Value(), turn);
        label Head:
        var ftype, fid, n :- iprot.ReadFieldBegin();
        ValuesUnchanged@Head(notErased);
        ghost var body := iprot.input;
        CountSum(|start| - |turn|, |turn| - |body|);
        xfer := Plus(xfer, n);
        if ftype == T_STOP {
          break;
        }
        var m :- ReadMember(iprot, ftype, fid);
        CountSum(|start| - |body|, |body| - |iprot.input|);
        xfer := Plus(xfer, m);
      }
      CountIsModulo(|start| - |iprot.input|);
      return Got(xfer);
    }

    method WriteNotErased(oprot: TProtocol) returns (xfer: uint32)
      modifies oprot`output
      ensures oprot.output == old(oprot.output) + ThriftCodec.Write(TList(ERASE_OBJECT_ERROR), VList(Values(notErased)))
      ensures xfer == Count(|ThriftCodec.Write(TList(ERASE_OBJECT_ERROR), VList(Values(notErased)))|)
      ensures oprot.output == old(oprot.output) + ([12] + SizeBytes(|notErased|) + WriteElems(ERASE_OBJECT_ERROR,
        Values(notErased)))
      ensures xfer == (|oprot.output| - |old(oprot.output)|) % 0x1_0000_0000
    {
      hide Count, Plus, ThriftCodec.Write, WriteElems, SizeBytes;
      ghost var start, vs := oprot.output, Values(notErased);
      WriteElemsEmpty(ERASE_OBJECT_ERROR);
      xfer := oprot.WriteListBegin(T_STRUCT, |notErased|);
      var i := 0;
      while i < |notErased|
        invariant i <= |notErased| && vs == Values(notErased)
        invariant oprot.output
          == start + ([T_STRUCT] + SizeBytes(|notErased|) + WriteElems(ERASE_OBJECT_ERROR, vs[..i]))
        invariant xfer == Count(|oprot.output| - |start|)
      {
        ghost var last := oprot.output;
        WriteElemsAppend(ERASE_OBJECT_ERROR, vs[..i], vs[i]);
        assert vs[..i] + [vs[i]] == vs[..i + 1];
        var m := notErased[i].Write(oprot);
        CountSum(|last| - |start|, |oprot.output| - |last|);
        xfer := Plus(xfer, m);
        i := i + 1;
      }
      assert vs[..i] == vs;
      WriteList(ERASE_OBJECT_ERROR, vs);
      CountIsModulo(|oprot.output| - |start|);
    }

    method Write(oprot: TProtocol) returns (xfer: uint32)
      modifies oprot`output
      ensures oprot.output == old(oprot.output) + ThriftCodec.Write(ERASE_RESPONSE, Value())
      ensures xfer == Count(|ThriftCodec.Write(ERASE_RESPONSE, Value())|)
      ensures oprot.output
        == old(oprot.output)
         + ([12, 0, 1] + ThriftCodec.Write(DGI_RESULT, result.Value())
         + [15, 0, 2] + ThriftCodec.Write(TList(ERASE_OBJECT_ERROR), VList(Values(notErased)))
         + [0])
      ensures xfer == (|oprot.output| - |old(oprot.output)|) % 0x1_0000_0000
    {
      hide Count, Plus, ThriftCodec.Write, WriteFrom, I16Bytes, Halfway, SizeBytes, I32Bytes;
      ghost var v, start, last := Value(), oprot.output, oprot.output;
      HalfwayStart(ERASE_RESPONSE_FIELDS, v, start);
      var n, m;
      xfer := Count(0);

      n := oprot.WriteFieldBegin(T_STRUCT, 1);
      m := result.Write(oprot);
      HalfwayWritten(ERASE_RESPONSE_FIELDS, v, 0, start, last, xfer, oprot.output);
      xfer := Plus(Plus(xfer, n), m);
      last := oprot.output;

      n := oprot.WriteFieldBegin(T_LIST, 2);
      m := WriteNotErased(oprot);
      ValuesUnchanged(notErased);
      HalfwayWritten(ERASE_RESPONSE_FIELDS, v, 1, start, last, xfer, oprot.output);
      xfer := Plus(Plus(xfer, n), m);
      last := oprot.output;

      HalfwayEnd(ERASE_RESPONSE_FIELDS, v, start, oprot.output, xfer);
      n := oprot.WriteFieldStop();
      ValuesUnchanged(notErased);
      xfer := Plus(xfer, n);
      EraseResponseInBytes(result.Value(), VList(Values(notErased)), [isset.result, isset.notErased]);
      CountIsModulo(|oprot.output| - |start|);
    }
  }
}
