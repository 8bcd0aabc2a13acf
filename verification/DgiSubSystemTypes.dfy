/** The reply with the state of the subsystems: a result, a flag and a list of results. */
module DgiSubSystemTypes {
  import opened ThriftWire
  import opened ThriftCodec
  import opened ThriftLaws
  import opened ThriftProtocol
  import opened DgiCommonTypes

  /** The elements of a vector are distinct objects. */
  ghost predicate Separate(results: seq<DgiResult>) {
    forall i, j | 0 <= i < j < |results| :: results[i] != results[j]
  }

  ghost function Values(results: seq<DgiResult>): (vs: seq<Val>)
    reads results
    ensures |vs| == |results| && forall x <- vs :: HasType(DGI_RESULT, x)
  {
    seq(|results|, i requires 0 <= i < |results| reads results =>
          assert results[i] in results; results[i].Value())
  }

  twostate lemma ValuesUnchanged(results: seq<DgiResult>)
    requires forall x <- results :: unchanged(x)
    ensures Values(results) == old(Values(results))
  {
    forall k | 0 <= k < |results| ensures results[k].Value() == old(results[k].Value()) {
      assert results[k] in results;
    }
  }

  /** A vector of n default elements. */
  method Resize(n: nat) returns (results: seq<DgiResult>)
    ensures |results| == n && Separate(results) && forall x <- results :: fresh(x)
    ensures forall x <- results :: x.Value() == Default(DGI_RESULT)
  {
    results := [];
    while |results| < n
      invariant |results| <= n && Separate(results) && forall x <- results :: fresh(x)
      invariant forall x <- results :: x.Value() == Default(DGI_RESULT)
    {
      var x := new DgiResult();
      results := results + [x];
    }
  }

  /** The first elements of a vector have been read, with the given results; the others are still defaults. */
  ghost predicate Progress(results: seq<DgiResult>, done: seq<Val>)
    reads results
  {
    && |done| <= |results|
    && (forall k | 0 <= k < |done| :: results[k] in results && results[k].Value() == done[k])
    && (forall k | |done| <= k < |results| :: results[k] in results && results[k].Value() == Default(DGI_RESULT))
  }

  lemma NothingRead(results: seq<DgiResult>)
    requires forall x <- results :: x.Value() == Default(DGI_RESULT)
    ensures Progress(results, [])
  {
  }

  lemma AllRead(results: seq<DgiResult>, done: seq<Val>)
    requires Progress(results, done) && |done| == |results|
    ensures Values(results) == done
  {
  }

  /** Reads the next element in place, which leaves the others alone. */
  method ReadElement(results: seq<DgiResult>, ghost done: seq<Val>, i: nat, iprot: TProtocol) returns (r: Try<uint32>)
    requires i == |done| < |results| && Separate(results) && Progress(results, done)
    modifies results[i], iprot`input
    ensures Agrees(ReadVal(DGI_RESULT, Default(DGI_RESULT), old(iprot.input)),
                   old(iprot.input), r, results[i].Value(), iprot.input)
    ensures Progress(results, done + [results[i].Value()])
  {
    hide Count, ReadVal, Default;
    r := results[i].Read(iprot);
    assert forall k | 0 <= k < |results| && k != i :: results[k].Value() == old(results[k].Value());
  }

  const SUB_SYSTEM_STATE_RESPONSE_FIELDS: seq<Field> :=
    [Field(1, DGI_RESULT, false), Field(2, TBool, false), Field(3, TList(DGI_RESULT), false)]
  const SUB_SYSTEM_STATE_RESPONSE: Ty := TStruct(SUB_SYSTEM_STATE_RESPONSE_FIELDS)

  datatype SubSystemStateResponseIsset = SubSystemStateResponseIsset(result: bool, hasProblems: bool, report: bool)

  lemma SubSystemStateResponseSchema()
    ensures Plain(SUB_SYSTEM_STATE_RESPONSE)
  {
    hide Plain;
    PlainLeaves();
    DgiResultSchema();
    PlainList(DGI_RESULT);
    PlainStruct(SUB_SYSTEM_STATE_RESPONSE_FIELDS);
  }

  /** What is written for these members, in plain numbers. */
  lemma SubSystemStateResponseInBytes(result: Val, hasProblems: bool, report: Val, isset: seq<bool>)
    requires |isset| == 3 && HasType(DGI_RESULT, result) && HasType(TList(DGI_RESULT), report)
    ensures Write(SUB_SYSTEM_STATE_RESPONSE, VStruct([result, VBool(hasProblems), report], isset))
         == [12, 0, 1] + Write(DGI_RESULT, result)
            + [2, 0, 2] + [if hasProblems then 1 else 0]
            + [15, 0, 3] + Write(TList(DGI_RESULT), report)
            + [0]
  {
    var v := VStruct([result, VBool(hasProblems), report], isset);
    hide Write, WriteFrom, SizeBytes, I32Bytes;
    assert HasType(SUB_SYSTEM_STATE_RESPONSE, v);
    hide HasType;
    var all := Write(SUB_SYSTEM_STATE_RESPONSE, v);
    WriteFromStart(SUB_SYSTEM_STATE_RESPONSE_FIELDS, v);
    StructInBytes(SUB_SYSTEM_STATE_RESPONSE_FIELDS, v, 0, all, [], 1, DGI_RESULT, result);
    var before1 := [12, 0, 1] + Write(DGI_RESULT, result);
    assert [] + [12, 0, 1] + Write(DGI_RESULT, result) == before1;
    BoolInBytes(SUB_SYSTEM_STATE_RESPONSE_FIELDS, v, 1, all, before1, 2, hasProblems);
    var before2 := before1 + [2, 0, 2] + [if hasProblems then 1 else 0];
    ListInBytes(SUB_SYSTEM_STATE_RESPONSE_FIELDS, v, 2, all, before2, 3, TList(DGI_RESULT), report);
    var before3 := before2 + [15, 0, 3] + Write(TList(DGI_RESULT), report);
    WriteFromEnd(SUB_SYSTEM_STATE_RESPONSE_FIELDS, v);
  }

  /** What is read from such bytes. */
  lemma SubSystemStateResponseFromBytes(was: Val, result: Val, hasProblems: bool, report: Val, rest: Bytes)
    requires HasType(SUB_SYSTEM_STATE_RESPONSE, was)
    requires HasType(DGI_RESULT, result) && Writable(DGI_RESULT, result)
    requires HasType(TList(DGI_RESULT), report) && Writable(TList(DGI_RESULT), report)
    ensures ReadVal(SUB_SYSTEM_STATE_RESPONSE, was,
              ([12, 0, 1] + Write(DGI_RESULT, result)
           + [2, 0, 2] + [BoolByte(hasProblems)]
           + [15, 0, 3] + Write(TList(DGI_RESULT), report)
           + [0]) + rest)
         == Done(VStruct([Stamp(DGI_RESULT, result), VBool(hasProblems), Stamp(TList(DGI_RESULT), report)],
           [true, true, true]), rest)
  {
    var v := VStruct([result, VBool(hasProblems), report], [false, false, false]);
    SubSystemStateResponseInBytes(result, hasProblems, report, [false, false, false]);
    SubSystemStateResponseSchema();
    assert Writable(SUB_SYSTEM_STATE_RESPONSE, v);
    RoundTrip(SUB_SYSTEM_STATE_RESPONSE, was, v, rest);
    assert Stamp(SUB_SYSTEM_STATE_RESPONSE, v).vals
      == [Stamp(DGI_RESULT, result), VBool(hasProblems), Stamp(TList(DGI_RESULT), report)];
    assert Stamp(SUB_SYSTEM_STATE_RESPONSE, v).isset == [true, true, true];
  }

  class SubSystemStateResponse {
    const result: DgiResult
    var hasProblems: bool
    var report: seq<DgiResult>
    var isset: SubSystemStateResponseIsset

    /** The member result is embedded, and so not one of the elements of the list. */
    ghost predicate Valid()
      reads this
    {
      result !in report
    }

    ghost function Value(): (v: Val)
      reads this, result, report
      ensures HasType(SUB_SYSTEM_STATE_RESPONSE, v)
    {
      VStruct([result.Value(), VBool(hasProblems), VList(Values(report))],
        [isset.result, isset.hasProblems, isset.report])
    }

    constructor ()
      ensures hasProblems == false && report == [] && isset == SubSystemStateResponseIsset(false, false, false)
      ensures Valid() && Value() == Default(SUB_SYSTEM_STATE_RESPONSE) && fresh(result)
    {
      result := new DgiResult();
      hasProblems, report, isset := false, [], SubSystemStateResponseIsset(false, false, false);
      new;
      DefaultOfThree(SUB_SYSTEM_STATE_RESPONSE_FIELDS);
    }

    /** Clears the list, reads its size, makes that many default elements and reads each of them in place. */
    method ReadReport(iprot: TProtocol) returns (r: Try<uint32>)
      modifies this`report, iprot`input
      ensures forall x <- report :: fresh(x)
      ensures Agrees(ReadVal(TList(DGI_RESULT), VList([]), old(iprot.input)),
                     old(iprot.input), r, VList(Values(report)), iprot.input)
      ensures r.Got? ==> |old(iprot.input)| >= 5 && |report| == Unsigned(old(iprot.input)[1..5])
      ensures r.Got? ==> r.value == (|old(iprot.input)| - |iprot.input|) % 0x1_0000_0000
    {
      hide Count, Plus, ReadVal, ReadElems, HasType, Default, Unsigned, Progress;
      ghost var start := iprot.input;
      ListStart(DGI_RESULT, VList([]), start);
      report := [];
      var etype, size, n :- iprot.ReadListBegin();
      var xfer := n;
      ghost var first := iprot.input;
      report := Resize(size);
      ghost var done: seq<Val> := [];
      NothingRead(report);
      var i := 0;
      while i < size
        invariant i <= size == |report| && Separate(report) && forall x <- report :: fresh(x)
        invariant |done| == i && (forall x <- done :: HasType(DGI_RESULT, x)) && Progress(report, done)
        invariant ReadElems(DGI_RESULT, size - i, done, iprot.input) == ReadElems(DGI_RESULT, size, [], first)
        invariant |iprot.input| <= |start| && xfer == Count(|start| - |iprot.input|)
      {
        ghost var turn := iprot.input;
        ListTurn(DGI_RESULT, size - i, done, turn);
        assert report[i] in report;
        var m :- ReadElement(report, done, i, iprot);
        done := done + [report[i].Value()];
        CountSum(|start| - |turn|, |turn| - |iprot.input|);
        xfer := Plus(xfer, m);
        i := i + 1;
      }
      ListTurn(DGI_RESULT, 0, done, iprot.input);
      AllRead(report, done);
      CountIsModulo(|start| - |iprot.input|);
      return Got(xfer);
    }

    /** The case of the nested struct in the switch of the field loop. */
    method ReadMemberResult(iprot: TProtocol) returns (r: Try<uint32>)
      requires Valid()
      modifies this, result, iprot`input
      ensures Valid()
      ensures Agrees(Turn(SUB_SYSTEM_STATE_RESPONSE_FIELDS, old(Value()), T_STRUCT, 1, old(iprot.input)),
                     old(iprot.input), r, Value(), iprot.input)
      ensures r.Got? ==> isset == old(isset).(result := true)
    {
      hide Count, ReadVal, Skip, Turn, HasType, Set, Default;
      StoredTurn(SUB_SYSTEM_STATE_RESPONSE_FIELDS, Value(), 0, iprot.input);
      var n :- result.Read(iprot);
      isset := isset.(result := true);
      ValuesUnchanged(report);
      SetOfThree(old(result.Value()), VBool(old(hasProblems)), VList(old(Values(report))), old(isset.result),
        old(isset.hasProblems), old(isset.report), result.Value());
      return Got(n);
    }

    /** The case of the list in the switch of the field loop. */
    method ReadMemberReport(iprot: TProtocol) returns (r: Try<uint32>)
      requires Valid()
      modifies this, iprot`input
      ensures Valid()
      ensures Agrees(Turn(SUB_SYSTEM_STATE_RESPONSE_FIELDS, old(Value()), T_LIST, 3, old(iprot.input)),
                     old(iprot.input), r, Value(), iprot.input)
      ensures r.Got? ==> isset == old(isset).(report := true)
    {
      hide Count, ReadVal, Skip, Turn, HasType, Set, Default;
      ListTurnStored(SUB_SYSTEM_STATE_RESPONSE_FIELDS, Value(), 2, iprot.input);
      var n :- ReadReport(iprot);
      label Filled:
      isset := isset.(report := true);
      ValuesUnchanged@Filled(report);
      SetOfThree(old(result.Value()), VBool(old(hasProblems)), VList(old(Values(report))), old(isset.result),
        old(isset.hasProblems), old(isset.report), VList(Values(report)));
      return Got(n);
    }

    /** The switch of the field loop. */
    method ReadMember(iprot: TProtocol, ftype: byte, fid: i16) returns (r: Try<uint32>)
      requires Valid()
      modifies this, result, iprot`input
      ensures Valid()
      ensures Agrees(Turn(SUB_SYSTEM_STATE_RESPONSE_FIELDS, old(Value()), ftype, fid, old(iprot.input)),
                     old(iprot.input), r, Value(), iprot.input)
      ensures r.Got? ==>
        isset ==
          if fid == 1 && ftype == 12 then old(isset).(result := true)
          else if fid == 2 && ftype == 2 then old(isset).(hasProblems := true)
          else if fid == 3 && ftype == 15 then old(isset).(report := true)
          else old(isset)
    {
      hide Count, ReadVal, Skip, Turn, HasType, Set, Default, Values, DgiResult.Value;
      ghost var was, body := Value(), iprot.input;
      if fid == 1 && ftype == T_STRUCT {
        r := ReadMemberResult(iprot);
      } else if fid == 2 && ftype == T_BOOL {
        LeafTurn(SUB_SYSTEM_STATE_RESPONSE_FIELDS, was, 1, body);
        var v, n :- iprot.ReadBool();
        hasProblems, isset := v, isset.(hasProblems := true);
        ValuesUnchanged(report);
        SetOfThree(old(result.Value()), VBool(old(hasProblems)), VList(old(Values(report))), old(isset.result),
          old(isset.hasProblems), old(isset.report), VBool(v));
        return Got(n);
      } else if fid == 3 && ftype == T_LIST {
        r := ReadMemberReport(iprot);
      } else {
        SkippedTurn(SUB_SYSTEM_STATE_RESPONSE_FIELDS, was, ftype, fid, body);
        var n :- iprot.SkipValue(ftype);
        ValuesUnchanged(report);
        return Got(n);
      }
    }

    method Read(iprot: TProtocol) returns (r: Try<uint32>)
      requires Valid()
      modifies this, result, iprot`input
      ensures Valid()
      ensures Agrees(ReadVal(SUB_SYSTEM_STATE_RESPONSE, old(Value()), old(iprot.input)),
                     old(iprot.input), r, Value(), iprot.input)
      ensures r.Got? ==> r.value == (|old(iprot.input)| - |iprot.input|) % 0x1_0000_0000
      ensures forall a: Val, b: bool, c: Val, rest: Bytes |
        && HasType(DGI_RESULT, a) && Writable(DGI_RESULT, a)
        && HasType(TList(DGI_RESULT), c) && Writable(TList(DGI_RESULT), c)
        && old(iprot.input)
        == ([12, 0, 1] + ThriftCodec.Write(DGI_RESULT, a)
         + [2, 0, 2] + [BoolByte(b)]
         + [15, 0, 3] + ThriftCodec.Write(TList(DGI_RESULT), c)
         + [0]) + rest ::
        && r.Got? && iprot.input == rest && isset == SubSystemStateResponseIsset(true, true, true)
        && result.Value() == Stamp(DGI_RESULT, a) && hasProblems == b
           && VList(Values(report)) == Stamp(TList(DGI_RESULT), c)
    {
      hide Count, Plus, ReadFields, ReadVal, Turn, ParseFieldBegin, HasType, SizeBytes, I32Bytes, ThriftCodec.Write,
        Writable, Stamp;
      ghost var start, was := iprot.input, Value();
      forall a: Val, b: bool, c: Val, rest: Bytes |
        && HasType(DGI_RESULT, a) && Writable(DGI_RESULT, a)
        && HasType(TList(DGI_RESULT), c) && Writable(TList(DGI_RESULT), c)
        && start
        == ([12, 0, 1] + ThriftCodec.Write(DGI_RESULT, a)
         + [2, 0, 2] + [BoolByte(b)]
         + [15, 0, 3] + ThriftCodec.Write(TList(DGI_RESULT), c)
         + [0]) + rest
        ensures ReadVal(SUB_SYSTEM_STATE_RESPONSE, was, start)
             == Done(VStruct([Stamp(DGI_RESULT, a), VBool(b), Stamp(TList(DGI_RESULT), c)], [true, true, true]), rest)
      {
        SubSystemStateResponseFromBytes(was, a, b, c, rest);
      }
      LoopTurn(SUB_SYSTEM_STATE_RESPONSE_FIELDS, was, start);
      var xfer := Count(0);
      while true
        invariant ReadFields(SUB_SYSTEM_STATE_RESPONSE_FIELDS, Value(), iprot.input)
          == ReadFields(SUB_SYSTEM_STATE_RESPONSE_FIELDS, was, start)
        invariant |iprot.input| <= |start| && xfer == Count(|start| - |iprot.input|)
        invariant Valid()
        decreases |iprot.input|
      {
        ghost var turn := iprot.input;
        LoopTurn(SUB_SYSTEM_STATE_RESPONSE_FIELDS, Value(), turn);
        label Head:
        var ftype, fid, n :- iprot.ReadFieldBegin();
        ValuesUnchanged@Head(report);
        ghost var body := iprot.input;
        CountSum(|start| - |turn|, |turn| - |body|);
        xfer := Plus(xfer, n);
        if ftype == T_STOP {
          break;
        }
        var m :- ReadMember(iprot, ftype, fid);
        CountSum(|start| - |body|, |body| - |iprot.input|);
        xfer := Plus(xfer, m);
      }
      CountIsModulo(|start| - |iprot.input|);
      return Got(xfer);
    }

    method WriteReport(oprot: TProtocol) returns (xfer: uint32)
      modifies oprot`output
      ensures oprot.output == old(oprot.output) + ThriftCodec.Write(TList(DGI_RESULT), VList(Values(report)))
      ensures xfer == Count(|ThriftCodec.Write(TList(DGI_RESULT), VList(Values(report)))|)
      ensures oprot.output == old(oprot.output) + ([12] + SizeBytes(|report|) + WriteElems(DGI_RESULT, Values(report)))
      ensures xfer == (|oprot.output| - |old(oprot.output)|) % 0x1_0000_0000
    {
      hide Count, Plus, ThriftCodec.Write, WriteElems, SizeBytes;
      ghost var start, vs := oprot.output, Values(report);
      WriteElemsEmpty(DGI_RESULT);
      xfer := oprot.WriteListBegin(T_STRUCT, |report|);
      var i := 0;
      while i < |report|
        invariant i <= |report| && vs == Values(report)
        invariant oprot.output == start + ([T_STRUCT] + SizeBytes(|report|) + WriteElems(DGI_RESULT, vs[..i]))
        invariant xfer == Count(|oprot.output| - |start|)
      {
        ghost var last := oprot.output;
        WriteElemsAppend(DGI_RESULT, vs[..i], vs[i]);
        assert vs[..i] + [vs[i]] == vs[..i + 1];
        var m := report[i].Write(oprot);
        CountSum(|last| - |start|, |oprot.output| - |last|);
        xfer := Plus(xfer, m);
        i := i + 1;
      }
      assert vs[..i] == vs;
      WriteList(DGI_RESULT, vs);
      CountIsModulo(|oprot.output| - |start|);
    }

    method Write(oprot: TProtocol) returns (xfer: uint32)
      modifies oprot`output
      ensures oprot.output == old(oprot.output) + ThriftCodec.Write(SUB_SYSTEM_STATE_RESPONSE, Value())
      ensures xfer == Count(|ThriftCodec.Write(SUB_SYSTEM_STATE_RESPONSE, Value())|)
      ensures oprot.output
        == old(oprot.output)
         + ([12, 0, 1] + ThriftCodec.Write(DGI_RESULT, result.Value())
         + [2, 0, 2] + [if hasProblems then 1 else 0]
         + [15, 0, 3] + ThriftCodec.Write(TList(DGI_RESULT), VList(Values(report)))
         + [0])
      ensures xfer == (|oprot.output| - |old(oprot.output)|) % 0x1_0000_0000
    {
      hide Count, Plus, ThriftCodec.Write, WriteFrom, I16Bytes, Halfway, HasType, Values, DgiResult.Value, SizeBytes,
        I32Bytes;
      ghost var v, start, last := Value(), oprot.output, oprot.output;
      HalfwayStart(SUB_SYSTEM_STATE_RESPONSE_FIELDS, v, start);
      var n, m;
      xfer := Count(0);

      n := oprot.WriteFieldBegin(T_STRUCT, 1);
      m := result.Write(oprot);
      HalfwayWritten(SUB_SYSTEM_STATE_RESPONSE_FIELDS, v, 0, start, last, xfer, oprot.output);
      xfer := Plus(Plus(xfer, n), m);
      last := oprot.output;

      n := oprot.WriteFieldBegin(T_BOOL, 2);
      m := oprot.WriteBool(hasProblems);
      HalfwayWritten(SUB_SYSTEM_STATE_RESPONSE_FIELDS, v, 1, start, last, xfer, oprot.output);
      xfer := Plus(Plus(xfer, n), m);
      last := oprot.output;

      n := oprot.WriteFieldBegin(T_LIST, 3);
      m := WriteReport(oprot);
      ValuesUnchanged(report);
      HalfwayWritten(SUB_SYSTEM_STATE_RESPONSE_FIELDS, v, 2, start, last, xfer, oprot.output);
      xfer := Plus(Plus(xfer, n), m);
      last := oprot.output;

      HalfwayEnd(SUB_SYSTEM_STATE_RESPONSE_FIELDS, v, start, oprot.output, xfer);
      n := oprot.WriteFieldStop();
      ValuesUnchanged(report);
      xfer := Plus(xfer, n);
      ListHasType(DGI_RESULT, Values(report));
      SubSystemStateResponseInBytes(result.Value(), hasProblems, VList(Values(report)),
        [isset.result, isset.hasProblems, isset.report]);
      CountIsModulo(|oprot.output| - |start|);
    }
  }
}
