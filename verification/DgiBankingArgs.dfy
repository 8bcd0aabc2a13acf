/** The arguments of the banking calls.  One class stands for the struct that the server reads and for the one that the
  client writes: the latter points to the caller's card.
*/
module DgiBankingArgs {
  import opened ThriftWire
  import opened ThriftCodec
  import opened ThriftLaws
  import opened ThriftProtocol
  import opened DgiBankingTypes

  const CARD_ARGS_FIELDS: seq<Field> := [Field(1, TString, false), Field(2, BANK_CARD, false)]
  const CARD_ARGS: Ty := TStruct(CARD_ARGS_FIELDS)

  datatype CardArgsIsset = CardArgsIsset(sid: bool, card: bool)

  lemma CardArgsSchema()
    ensures Plain(CARD_ARGS)
  {
    hide Plain;
    PlainLeaves();
    BankCardSchema();
    PlainStruct(CARD_ARGS_FIELDS);
  }

  /** What is written for these members, in plain numbers. */
  lemma CardArgsInBytes(sid: Bytes, card: Val, isset: seq<bool>)
    requires |isset| == 2 && HasType(BANK_CARD, card)
    ensures Write(CARD_ARGS, VStruct([VString(sid), card], isset))
         == [11, 0, 1] + SizeBytes(|sid|) + sid
            + [12, 0, 2] + Write(BANK_CARD, card)
            + [0]
  {
    var v := VStruct([VString(sid), card], isset);
    hide Write, WriteFrom, SizeBytes, I32Bytes;
    assert HasType(CARD_ARGS, v);
    hide HasType;
    var all := Write(CARD_ARGS, v);
    WriteFromStart(CARD_ARGS_FIELDS, v);
    TextInBytes(CARD_ARGS_FIELDS, v, 0, all, [], 1, sid);
    var before1 := [11, 0, 1] + SizeBytes(|sid|) + sid;
    assert [] + [11, 0, 1] + SizeBytes(|sid|) + sid == before1;
    StructInBytes(CARD_ARGS_FIELDS, v, 1, all, before1, 2, BANK_CARD, card);
    var before2 := before1 + [12, 0, 2] + Write(BANK_CARD, card);
    WriteFromEnd(CARD_ARGS_FIELDS, v);
  }

  /** What is read from such bytes. */
  lemma CardArgsFromBytes(was: Val, sid: Bytes, card: Val, rest: Bytes)
    requires HasType(CARD_ARGS, was) && |sid| < 0x1_0000_0000
    requires HasType(BANK_CARD, card) && Writable(BANK_CARD, card)
    ensures ReadVal(CARD_ARGS, was,
              ([11, 0, 1] + SizeBytes(|sid|) + sid
           + [12, 0, 2] + Write(BANK_CARD, card)
           + [0]) + rest)
         == Done(VStruct([VString(sid), Stamp(BANK_CARD, card)], [true, true]), rest)
  {
    var v := VStruct([VString(sid), card], [false, false]);
    CardArgsInBytes(sid, card, [false, false]);
    CardArgsSchema();
    assert Writable(CARD_ARGS, v);
    RoundTrip(CARD_ARGS, was, v, rest);
    assert Stamp(CARD_ARGS, v).vals == [VString(sid), Stamp(BANK_CARD, card)];
    assert Stamp(CARD_ARGS, v).isset == [true, true];
  }

  /** The arguments of AddCard and DeleteCard. */
  class CardArgs {
    var sid: Bytes
    const card: BankCard
    var isset: CardArgsIsset

    function Value(): (v: Val)
      reads this, card, card.vd
      ensures HasType(CARD_ARGS, v)
    {
      VStruct([VString(sid), card.Value()], [isset.sid, isset.card])
    }

    constructor (sid: Bytes, card: BankCard)
      ensures Value() == VStruct([VString(sid), card.Value()], [false, false])
      ensures this.sid == sid && this.card == card && isset == CardArgsIsset(false, false)
    {
      this.sid := sid;
      this.card := card;
      isset := CardArgsIsset(false, false);
    }

    /** The switch of the field loop. */
    method ReadMember(iprot: TProtocol, ftype: byte, fid: i16) returns (r: Try<uint32>)
      modifies this, card, card.vd, iprot`input
      ensures Agrees(Turn(CARD_ARGS_FIELDS, old(Value()), ftype, fid, old(iprot.input)),
                     old(iprot.input), r, Value(), iprot.input)
      ensures r.Got? ==>
        isset ==
          if fid == 1 && ftype == 11 then old(isset).(sid := true)
          else if fid == 2 && ftype == 12 then old(isset).(card := true)
          else old(isset)
    {
      hide Count, ReadVal, Skip, Turn, HasType, Set, Default, BankCard.Value;
      ghost var was, body := Value(), iprot.input;
      if fid == 1 && ftype == T_STRING {
        LeafTurn(CARD_ARGS_FIELDS, was, 0, body);
        var v, n :- iprot.ReadString();
        sid := v;
        isset := isset.(sid := true);
        SetOfTwo(VString(old(sid)), old(card.Value()), old(isset.sid), old(isset.card),
                 VString(v));
        return Got(n);
      } else if fid == 2 && ftype == T_STRUCT {
        StoredTurn(CARD_ARGS_FIELDS, was, 1, body);
        var n :- card.Read(iprot);
        isset := isset.(card := true);
        SetOfTwo(VString(old(sid)), old(card.Value()), old(isset.sid), old(isset.card),
                 card.Value());
        return Got(n);
      } else {
        SkippedTurn(CARD_ARGS_FIELDS, was, ftype, fid, body);
        var n :- iprot.SkipValue(ftype);
        return Got(n);
      }
    }

    method Read(iprot: TProtocol) returns (r: Try<uint32>)
      modifies this, card, card.vd, iprot`input
      ensures Agrees(ReadVal(CARD_ARGS, old(Value()), old(iprot.input)), old(iprot.input), r, Value(), iprot.input)
      ensures r.Got? ==> r.value == (|old(iprot.input)| - |iprot.input|) % 0x1_0000_0000
      ensures forall a: Bytes, b: Val, rest: Bytes |
        && |a| < 0x1_0000_0000
        && HasType(BANK_CARD, b) && Writable(BANK_CARD, b)
        && old(iprot.input)
        == ([11, 0, 1] + SizeBytes(|a|) + a
         + [12, 0, 2] + ThriftCodec.Write(BANK_CARD, b)
         + [0]) + rest ::
        && r.Got? && iprot.input == rest && isset == CardArgsIsset(true, true)
        && sid == a && card.Value() == Stamp(BANK_CARD, b)
    {
      hide Count, Plus, ReadFields, ReadVal, Turn, ParseFieldBegin, HasType, BankCard.Value, SizeBytes, I32Bytes,
        ThriftCodec.Write, Writable, Stamp;
      ghost var start, was := iprot.input, Value();
      forall a: Bytes, b: Val, rest: Bytes |
        && |a| < 0x1_0000_0000
        && HasType(BANK_CARD, b) && Writable(BANK_CARD, b)
        && start
        == ([11, 0, 1] + SizeBytes(|a|) + a
         + [12, 0, 2] + ThriftCodec.Write(BANK_CARD, b)
         + [0]) + rest
        ensures ReadVal(CARD_ARGS, was, start)
             == Done(VStruct([VString(a), Stamp(BANK_CARD, b)], [true, true]), rest)
      {
        CardArgsFromBytes(was, a, b, rest);
      }
      LoopTurn(CARD_ARGS_FIELDS, was, start);
      var xfer := Count(0);
      while true
        invariant ReadFields(CARD_ARGS_FIELDS, Value(), iprot.input) == ReadFields(CARD_ARGS_FIELDS, was, start)
        invariant |iprot.input| <= |start| && xfer == Count(|start| - |iprot.input|)
        decreases |iprot.input|
      {
        ghost var turn := iprot.input;
        LoopTurn(CARD_ARGS_FIELDS, Value(), turn);
        var ftype, fid, n :- iprot.ReadFieldBegin();
        ghost var body := iprot.input;
        CountSum(|start| - |turn|, |turn| - |body|);
        xfer := Plus(xfer, n);
        if ftype == T_STOP {
          break;
        }
        var m :- ReadMember(iprot, ftype, fid);
        CountSum(|start| - |body|, |body| - |iprot.input|);
        xfer := Plus(xfer, m);
      }
      CountIsModulo(|start| - |iprot.input|);
      return Got(xfer);
    }

    method Write(oprot: TProtocol) returns (xfer: uint32)
      modifies oprot`output
      ensures oprot.output == old(oprot.output) + ThriftCodec.Write(CARD_ARGS, Value())
      ensures xfer == Count(|ThriftCodec.Write(CARD_ARGS, Value())|)
      ensures oprot.output
        == old(oprot.output)
         + ([11, 0, 1] + SizeBytes(|sid|) + sid
         + [12, 0, 2] + ThriftCodec.Write(BANK_CARD, card.Value())
         + [0])
      ensures xfer == (|oprot.output| - |old(oprot.output)|) % 0x1_0000_0000
    {
      hide Count, Plus, ThriftCodec.Write, WriteFrom, I16Bytes, Halfway, BankCard.Value, SizeBytes, I32Bytes;
      ghost var v, start, last := Value(), oprot.output, oprot.output;
      HalfwayStart(CARD_ARGS_FIELDS, v, start);
      var n, m;
      xfer := Count(0);

      n := oprot.WriteFieldBegin(T_STRING, 1);
      m := oprot.WriteString(sid);
      HalfwayWritten(CARD_ARGS_FIELDS, v, 0, start, last, xfer, oprot.output);
      xfer := Plus(Plus(xfer, n), m);
      last := oprot.output;

      n := oprot.WriteFieldBegin(T_STRUCT, 2);
      m := card.Write(oprot);
      HalfwayWritten(CARD_ARGS_FIELDS, v, 1, start, last, xfer, oprot.output);
      xfer := Plus(Plus(xfer, n), m);
      last := oprot.output;

      HalfwayEnd(CARD_ARGS_FIELDS, v, start, oprot.output, xfer);
      n := oprot.WriteFieldStop();
      xfer := Plus(xfer, n);
      CardArgsInBytes(sid, card.Value(), [isset.sid, isset.card]);
      CountIsModulo(|oprot.output| - |start|);
    }
  }

  const NUMBER_ARGS_FIELDS: seq<Field> := [Field(1, TString, false), Field(2, TString, false)]
  const NUMBER_ARGS: Ty := TStruct(NUMBER_ARGS_FIELDS)

  datatype NumberArgsIsset = NumberArgsIsset(sid: bool, number: bool)

  lemma NumberArgsSchema()
    ensures Plain(NUMBER_ARGS)
  {
    hide Plain;
    PlainLeaves();
    PlainStruct(NUMBER_ARGS_FIELDS);
  }

  /** What is written for these members, in plain numbers. */
  lemma NumberArgsInBytes(sid: Bytes, number: Bytes, isset: seq<bool>)
    requires |isset| == 2
    ensures Write(NUMBER_ARGS, VStruct([VString(sid), VString(number)], isset))
         == [11, 0, 1] + SizeBytes(|sid|) + sid
            + [11, 0, 2] + SizeBytes(|number|) + number
            + [0]
  {
    var v := VStruct([VString(sid), VString(number)], isset);
    hide Write, WriteFrom, SizeBytes, I32Bytes;
    assert HasType(NUMBER_ARGS, v);
    hide HasType;
    var all := Write(NUMBER_ARGS, v);
    WriteFromStart(NUMBER_ARGS_FIELDS, v);
    TextInBytes(NUMBER_ARGS_FIELDS, v, 0, all, [], 1, sid);
    var before1 := [11, 0, 1] + SizeBytes(|sid|) + sid;
    assert [] + [11, 0, 1] + SizeBytes(|sid|) + sid == before1;
    TextInBytes(NUMBER_ARGS_FIELDS, v, 1, all, before1, 2, number);
    var before2 := before1 + [11, 0, 2] + SizeBytes(|number|) + number;
    WriteFromEnd(NUMBER_ARGS_FIELDS, v);
  }

  /** What is read from such bytes. */
  lemma NumberArgsFromBytes(was: Val, sid: Bytes, number: Bytes, rest: Bytes)
    requires HasType(NUMBER_ARGS, was) && |sid| < 0x1_0000_0000 && |number| < 0x1_0000_0000
    ensures ReadVal(NUMBER_ARGS, was,
              ([11, 0, 1] + SizeBytes(|sid|) + sid
           + [11, 0, 2] + SizeBytes(|number|) + number
           + [0]) + rest)
         == Done(VStruct([VString(sid), VString(number)], [true, true]), rest)
  {
    var v := VStruct([VString(sid), VString(number)], [false, false]);
    NumberArgsInBytes(sid, number, [false, false]);
    NumberArgsSchema();
    assert Writable(NUMBER_ARGS, v);
    RoundTrip(NUMBER_ARGS, was, v, rest);
    assert Stamp(NUMBER_ARGS, v).vals == [VString(sid), VString(number)];
    assert Stamp(NUMBER_ARGS, v).isset == [true, true];
  }

  /** The arguments of DeleteCardByNumber and GetCard. */
  class NumberArgs {
    var sid: Bytes
    var number: Bytes
    var isset: NumberArgsIsset

    function Value(): (v: Val)
      reads this
      ensures HasType(NUMBER_ARGS, v)
    {
      VStruct([VString(sid), VString(number)], [isset.sid, isset.number])
    }

    constructor (sid: Bytes, number: Bytes)
      ensures Value() == VStruct([VString(sid), VString(number)], [false, false])
      ensures this.sid == sid && this.number == number && isset == NumberArgsIsset(false, false)
    {
      this.sid := sid;
      this.number := number;
      isset := NumberArgsIsset(false, false);
    }

    /** The switch of the field loop. */
    method ReadMember(iprot: TProtocol, ftype: byte, fid: i16) returns (r: Try<uint32>)
      modifies this, iprot`input
      ensures Agrees(Turn(NUMBER_ARGS_FIELDS, old(Value()), ftype, fid, old(iprot.input)),
                     old(iprot.input), r, Value(), iprot.input)
      ensures r.Got? ==>
        isset ==
          if fid == 1 && ftype == 11 then old(isset).(sid := true)
          else if fid == 2 && ftype == 11 then old(isset).(number := true)
          else old(isset)
    {
      hide Count, ReadVal, Skip, Turn, HasType, Set, Default;
      ghost var was, body := Value(), iprot.input;
      if fid == 1 && ftype == T_STRING {
        LeafTurn(NUMBER_ARGS_FIELDS, was, 0, body);
        var v, n :- iprot.ReadString();
        sid := v;
        isset := isset.(sid := true);
        SetOfTwo(VString(old(sid)), VString(old(number)), old(isset.sid), old(isset.number),
                 VString(v));
        return Got(n);
      } else if fid == 2 && ftype == T_STRING {
        LeafTurn(NUMBER_ARGS_FIELDS, was, 1, body);
        var v, n :- iprot.ReadString();
        number := v;
        isset := isset.(number := true);
        SetOfTwo(VString(old(sid)), VString(old(number)), old(isset.sid), old(isset.number),
                 VString(v));
        return Got(n);
      } else {
        SkippedTurn(NUMBER_ARGS_FIELDS, was, ftype, fid, body);
        var n :- iprot.SkipValue(ftype);
        return Got(n);
      }
    }

    method Read(iprot: TProtocol) returns (r: Try<uint32>)
      modifies this, iprot`input
      ensures Agrees(ReadVal(NUMBER_ARGS, old(Value()), old(iprot.input)), old(iprot.input), r, Value(), iprot.input)
      ensures r.Got? ==> r.value == (|old(iprot.input)| - |iprot.input|) % 0x1_0000_0000
      ensures forall a: Bytes, b: Bytes, rest: Bytes |
        && |a| < 0x1_0000_0000
        && |b| < 0x1_0000_0000
        && old(iprot.input)
        == ([11, 0, 1] + SizeBytes(|a|) + a
         + [11, 0, 2] + SizeBytes(|b|) + b
         + [0]) + rest ::
        && r.Got? && iprot.input == rest && isset == NumberArgsIsset(true, true)
        && sid == a && number == b
    {
      hide Count, Plus, ReadFields, ReadVal, Turn, ParseFieldBegin, HasType, SizeBytes, I32Bytes, ThriftCodec.Write,
        Writable, Stamp;
      ghost var start, was := iprot.input, Value();
      forall a: Bytes, b: Bytes, rest: Bytes |
        && |a| < 0x1_0000_0000
        && |b| < 0x1_0000_0000
        && start
        == ([11, 0, 1] + SizeBytes(|a|) + a
         + [11, 0, 2] + SizeBytes(|b|) + b
         + [0]) + rest
        ensures ReadVal(NUMBER_ARGS, was, start)
             == Done(VStruct([VString(a), VString(b)], [true, true]), rest)
      {
        NumberArgsFromBytes(was, a, b, rest);
      }
      LoopTurn(NUMBER_ARGS_FIELDS, was, start);
      var xfer := Count(0);
      while true
        invariant ReadFields(NUMBER_ARGS_FIELDS, Value(), iprot.input) == ReadFields(NUMBER_ARGS_FIELDS, was, start)
        invariant |iprot.input| <= |start| && xfer == Count(|start| - |iprot.input|)
        decreases |iprot.input|
      {
        ghost var turn := iprot.input;
        LoopTurn(NUMBER_ARGS_FIELDS, Value(), turn);
        var ftype, fid, n :- iprot.ReadFieldBegin();
        ghost var body := iprot.input;
        CountSum(|start| - |turn|, |turn| - |body|);
        xfer := Plus(xfer, n);
        if ftype == T_STOP {
          break;
        }
        var m :- ReadMember(iprot, ftype, fid);
        CountSum(|start| - |body|, |body| - |iprot.input|);
        xfer := Plus(xfer, m);
      }
      CountIsModulo(|start| - |iprot.input|);
      return Got(xfer);
    }

    method Write(oprot: TProtocol) returns (xfer: uint32)
      modifies oprot`output
      ensures oprot.output == old(oprot.output) + ThriftCodec.Write(NUMBER_ARGS, Value())
      ensures xfer == Count(|ThriftCodec.Write(NUMBER_ARGS, Value())|)
      ensures oprot.output
        == old(oprot.output)
         + ([11, 0, 1] + SizeBytes(|sid|) + sid
         + [11, 0, 2] + SizeBytes(|number|) + number
         + [0])
      ensures xfer == (|oprot.output| - |old(oprot.output)|) % 0x1_0000_0000
    {
      hide Count, Plus, ThriftCodec.Write, WriteFrom, I16Bytes, Halfway, SizeBytes, I32Bytes;
      ghost var v, start, last := Value(), oprot.output, oprot.output;
      HalfwayStart(NUMBER_ARGS_FIELDS, v, start);
      var n, m;
      xfer := Count(0);

      n := oprot.WriteFieldBegin(T_STRING, 1);
      m := oprot.WriteString(sid);
      HalfwayWritten(NUMBER_ARGS_FIELDS, v, 0, start, last, xfer, oprot.output);
      xfer := Plus(Plus(xfer, n), m);
      last := oprot.output;

      n := oprot.WriteFieldBegin(T_STRING, 2);
      m := oprot.WriteString(number);
      HalfwayWritten(NUMBER_ARGS_FIELDS, v, 1, start, last, xfer, oprot.output);
      xfer := Plus(Plus(xfer, n), m);
      last := oprot.output;

      HalfwayEnd(NUMBER_ARGS_FIELDS, v, start, oprot.output, xfer);
      n := oprot.WriteFieldStop();
      xfer := Plus(xfer, n);
      NumberArgsInBytes(sid, number, [isset.sid, isset.number]);
      CountIsModulo(|oprot.output| - |start|);
    }
  }

  const SID_ARGS_FIELDS: seq<Field> := [Field(1, TString, false)]
  const SID_ARGS: Ty := TStruct(SID_ARGS_FIELDS)

  lemma SidArgsSchema()
    ensures Plain(SID_ARGS)
  {
    hide Plain;
    PlainLeaves();
    PlainStruct(SID_ARGS_FIELDS);
  }

  /** What is written for these members, in plain numbers. */
  lemma SidArgsInBytes(sid: Bytes, isset: seq<bool>)
    requires |isset| == 1
    ensures Write(SID_ARGS, VStruct([VString(sid)], isset))
         == [11, 0, 1] + SizeBytes(|sid|) + sid
            + [0]
  {
    var v := VStruct([VString(sid)], isset);
    hide Write, WriteFrom, SizeBytes, I32Bytes;
    assert HasType(SID_ARGS, v);
    hide HasType;
    var all := Write(SID_ARGS, v);
    WriteFromStart(SID_ARGS_FIELDS, v);
    TextInBytes(SID_ARGS_FIELDS, v, 0, all, [], 1, sid);
    var before1 := [11, 0, 1] + SizeBytes(|sid|) + sid;
    assert [] + [11, 0, 1] + SizeBytes(|sid|) + sid == before1;
    WriteFromEnd(SID_ARGS_FIELDS, v);
  }

  /** What is read from such bytes. */
  lemma SidArgsFromBytes(was: Val, sid: Bytes, rest: Bytes)
    requires HasType(SID_ARGS, was) && |sid| < 0x1_0000_0000
    ensures ReadVal(SID_ARGS, was,
              ([11, 0, 1] + SizeBytes(|sid|) + sid
           + [0]) + rest)
         == Done(VStruct([VString(sid)], [true]), rest)
  {
    var v := VStruct([VString(sid)], [false]);
    SidArgsInBytes(sid, [false]);
    SidArgsSchema();
    assert Writable(SID_ARGS, v);
    RoundTrip(SID_ARGS, was, v, rest);
    assert Stamp(SID_ARGS, v).vals == [VString(sid)];
    assert Stamp(SID_ARGS, v).isset == [true];
  }

  /** The arguments of GetCards. */
  class SidArgs {
    var sid: Bytes
    var isset: bool

    function Value(): (v: Val)
      reads this
      ensures HasType(SID_ARGS, v)
    {
      VStruct([VString(sid)], [isset])
    }

    constructor (sid: Bytes)
      ensures Value() == VStruct([VString(sid)], [false])
      ensures this.sid == sid && !isset
    {
      this.sid := sid;
      isset := false;
    }

    /** The switch of the field loop. */
    method ReadMember(iprot: TProtocol, ftype: byte, fid: i16) returns (r: Try<uint32>)
      modifies this, iprot`input
      ensures Agrees(Turn(SID_ARGS_FIELDS, old(Value()), ftype, fid, old(iprot.input)),
                     old(iprot.input), r, Value(), iprot.input)
      ensures r.Got? ==>
        isset ==
          if fid == 1 && ftype == 11 then true
          else old(isset)
    {
      hide Count, ReadVal, Skip, Turn, HasType, Set, Default;
      ghost var was, body := Value(), iprot.input;
      if fid == 1 && ftype == T_STRING {
        LeafTurn(SID_ARGS_FIELDS, was, 0, body);
        var v, n :- iprot.ReadString();
        sid := v;
        isset := true;
        SetOfOne(VString(old(sid)), old(isset),
                 VString(v));
        return Got(n);
      } else {
        SkippedTurn(SID_ARGS_FIELDS, was, ftype, fid, body);
        var n :- iprot.SkipValue(ftype);
        return Got(n);
      }
    }

    method Read(iprot: TProtocol) returns (r: Try<uint32>)
      modifies this, iprot`input
      ensures Agrees(ReadVal(SID_ARGS, old(Value()), old(iprot.input)), old(iprot.input), r, Value(), iprot.input)
      ensures r.Got? ==> r.value == (|old(iprot.input)| - |iprot.input|) % 0x1_0000_0000
      ensures forall a: Bytes, rest: Bytes |
        && |a| < 0x1_0000_0000
        && old(iprot.input)
        == ([11, 0, 1] + SizeBytes(|a|) + a
         + [0]) + rest ::
        && r.Got? && iprot.input == rest && isset == true
        && sid == a
    {
      hide Count, Plus, ReadFields, ReadVal, Turn, ParseFieldBegin, HasType, SizeBytes, I32Bytes, ThriftCodec.Write,
        Writable, Stamp;
      ghost var start, was := iprot.input, Value();
      forall a: Bytes, rest: Bytes |
        && |a| < 0x1_0000_0000
        && start
        == ([11, 0, 1] + SizeBytes(|a|) + a
         + [0]) + rest
        ensures ReadVal(SID_ARGS, was, start)
             == Done(VStruct([VString(a)], [true]), rest)
      {
        SidArgsFromBytes(was, a, rest);
      }
      LoopTurn(SID_ARGS_FIELDS, was, start);
      var xfer := Count(0);
      while true
        invariant ReadFields(SID_ARGS_FIELDS, Value(), iprot.input) == ReadFields(SID_ARGS_FIELDS, was, start)
        invariant |iprot.input| <= |start| && xfer == Count(|start| - |iprot.input|)
        decreases |iprot.input|
      {
        ghost var turn := iprot.input;
        LoopTurn(SID_ARGS_FIELDS, Value(), turn);
        var ftype, fid, n :- iprot.ReadFieldBegin();
        ghost var body := iprot.input;
        CountSum(|start| - |turn|, |turn| - |body|);
        xfer := Plus(xfer, n);
        if ftype == T_STOP {
          break;
        }
        var m :- ReadMember(iprot, ftype, fid);
        CountSum(|start| - |body|, |body| - |iprot.input|);
        xfer := Plus(xfer, m);
      }
      CountIsModulo(|start| - |iprot.input|);
      return Got(xfer);
    }

    method Write(oprot: TProtocol) returns (xfer: uint32)
      modifies oprot`output
      ensures oprot.output == old(oprot.output) + ThriftCodec.Write(SID_ARGS, Value())
      ensures xfer == Count(|ThriftCodec.Write(SID_ARGS, Value())|)
      ensures oprot.output
        == old(oprot.output)
         + ([11, 0, 1] + SizeBytes(|sid|) + sid
         + [0])
      ensures xfer == (|oprot.output| - |old(oprot.output)|) % 0x1_0000_0000
    {
      hide Count, Plus, ThriftCodec.Write, WriteFrom, I16Bytes, Halfway, SizeBytes, I32Bytes;
      ghost var v, start, last := Value(), oprot.output, oprot.output;
      HalfwayStart(SID_ARGS_FIELDS, v, start);
      var n, m;
      xfer := Count(0);

      n := oprot.WriteFieldBegin(T_STRING, 1);
      m := oprot.WriteString(sid);
      HalfwayWritten(SID_ARGS_FIELDS, v, 0, start, last, xfer, oprot.output);
      xfer := Plus(Plus(xfer, n), m);
      last := oprot.output;

      HalfwayEnd(SID_ARGS_FIELDS, v, start, oprot.output, xfer);
      n := oprot.WriteFieldStop();
      xfer := Plus(xfer, n);
      SidArgsInBytes(sid, [isset]);
      CountIsModulo(|oprot.output| - |start|);
    }
  }
}
