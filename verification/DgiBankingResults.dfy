/** The results of the banking calls: one guarded member, which is written only if the handler returned. */
module DgiBankingResults {
  import opened ThriftWire
  import opened ThriftCodec
  import opened ThriftLaws
  import opened ThriftProtocol
  import opened DgiCommonTypes
  import opened DgiBankingTypes
  import opened ThriftEncoding

  /** The elements of a vector own their members: no two share anything. */
  ghost predicate Separate(cards: seq<BankCard>) {
    forall i, j | 0 <= i < j < |cards| :: cards[i] != cards[j] && cards[i].vd != cards[j].vd
  }

  ghost function Dates(cards: seq<BankCard>): set<ValidDate> {
    set x | x in cards :: x.vd
  }

  ghost function Values(cards: seq<BankCard>): (vs: seq<Val>)
    reads cards, Dates(cards)
    ensures |vs| == |cards| && forall x <- vs :: HasType(BANK_CARD, x)
  {
    seq(|cards|, i requires 0 <= i < |cards| reads cards, Dates(cards) =>
          assert cards[i] in cards; cards[i].Value())
  }

  twostate lemma ValuesUnchanged(cards: seq<BankCard>)
    requires forall x <- cards :: unchanged(x) && unchanged(x.vd)
    ensures Values(cards) == old(Values(cards))
  {
    forall k | 0 <= k < |cards| ensures cards[k].Value() == old(cards[k].Value()) {
      assert cards[k] in cards;
    }
  }

  /** A vector of n default elements. */
  method Resize(n: nat) returns (cards: seq<BankCard>)
    ensures |cards| == n && Separate(cards) && forall x <- cards :: fresh(x) && fresh(x.vd)
    ensures forall x <- cards :: x.Value() == Default(BANK_CARD)
  {
    cards := [];
    while |cards| < n
      invariant |cards| <= n && Separate(cards) && forall x <- cards :: fresh(x) && fresh(x.vd)
      invariant forall x <- cards :: x.Value() == Default(BANK_CARD)
    {
      var x := new BankCard();
      cards := cards + [x];
    }
  }

  /** The first elements of a vector have been read, with the given results; the others are still defaults. */
  ghost predicate Progress(cards: seq<BankCard>, done: seq<Val>)
    reads cards, Dates(cards)
  {
    && |done| <= |cards|
    && (forall k | 0 <= k < |done| :: cards[k] in cards && cards[k].Value() == done[k])
    && (forall k | |done| <= k < |cards| :: cards[k] in cards && cards[k].Value() == Default(BANK_CARD))
  }

  lemma NothingRead(cards: seq<BankCard>)
    requires forall x <- cards :: x.Value() == Default(BANK_CARD)
    ensures Progress(cards, [])
  {
  }

  lemma AllRead(cards: seq<BankCard>, done: seq<Val>)
    requires Progress(cards, done) && |done| == |cards|
    ensures Values(cards) == done
  {
  }

  /** Reads the next element in place, which leaves the others alone. */
  method ReadElement(cards: seq<BankCard>, ghost done: seq<Val>, i: nat, iprot: TProtocol) returns (r: Try<uint32>)
    requires i == |done| < |cards| && Separate(cards) && Progress(cards, done)
    modifies cards[i], cards[i].vd, iprot`input
    ensures Agrees(ReadVal(BANK_CARD, Default(BANK_CARD), old(iprot.input)),
                   old(iprot.input), r, cards[i].Value(), iprot.input)
    ensures Progress(cards, done + [cards[i].Value()])
  {
    hide Count, ReadVal, Default, HasType, CardVal, ValidDate.Value;
    r := cards[i].Read(iprot);
    assert forall k | 0 <= k < |cards| && k != i :: cards[k].Value() == old(cards[k].Value());
  }

  /** A vector of cards, as the object that a result points to. */
  class CardList {
    var cards: seq<BankCard>

    ghost function Value(): (v: Val)
      reads this, cards, Dates(cards)
      ensures HasType(TList(BANK_CARD), v)
    {
      VList(Values(cards))
    }

    constructor ()
      ensures cards == []
      ensures Value() == Default(TList(BANK_CARD))
    {
      cards := [];
    }

    /** A copy of a value. */
    constructor Of(v: Val)
      requires HasType(TList(BANK_CARD), v)
      ensures Value() == v
      ensures forall x <- cards :: fresh(x) && fresh(x.vd)
    {
      new;
      cards := CopyOf(v.elems);
      assert Values(cards) == v.elems;
    }

    /** Clears the list, reads its size, makes that many default elements and reads each of them in place. */
    method Read(iprot: TProtocol) returns (r: Try<uint32>)
      modifies this, iprot`input
      ensures Agrees(ReadVal(TList(BANK_CARD), old(Value()), old(iprot.input)),
                     old(iprot.input), r, Value(), iprot.input)
      ensures r.Got? ==> |old(iprot.input)| >= 5 && |cards| == Unsigned(old(iprot.input)[1..5])
      ensures r.Got? ==> r.value == (|old(iprot.input)| - |iprot.input|) % 0x1_0000_0000
    {
      hide Count, Plus, ReadVal, ReadElems, HasType, Default, Unsigned, Progress, BankCard.Value;
      ghost var start := iprot.input;
      ListStart(BANK_CARD, Value(), start);
      cards := [];
      var etype, size, n :- iprot.ReadListBegin();
      var xfer := n;
      ghost var first := iprot.input;
      cards := Resize(size);
      ghost var done: seq<Val> := [];
      NothingRead(cards);
      var i := 0;
      while i < size
        invariant i <= size == |cards| && Separate(cards) && forall x <- cards :: fresh(x) && fresh(x.vd)
        invariant |done| == i && (forall x <- done :: HasType(BANK_CARD, x)) && Progress(cards, done)
        invariant ReadElems(BANK_CARD, size - i, done, iprot.input) == ReadElems(BANK_CARD, size, [], first)
        invariant |iprot.input| <= |start| && xfer == Count(|start| - |iprot.input|)
      {
        ghost var turn := iprot.input;
        ListTurn(BANK_CARD, size - i, done, turn);
        assert cards[i] in cards;
        var m :- ReadElement(cards, done, i, iprot);
        done := done + [cards[i].Value()];
        CountSum(|start| - |turn|, |turn| - |iprot.input|);
        xfer := Plus(xfer, m);
        i := i + 1;
      }
      ListTurn(BANK_CARD, 0, done, iprot.input);
      AllRead(cards, done);
      CountIsModulo(|start| - |iprot.input|);
      return Got(xfer);
    }

    method Write(oprot: TProtocol) returns (xfer: uint32)
      modifies oprot`output
      ensures oprot.output == old(oprot.output) + ThriftCodec.Write(TList(BANK_CARD), Value())
      ensures xfer == Count(|ThriftCodec.Write(TList(BANK_CARD), Value())|)
      ensures oprot.output == old(oprot.output) + ([12] + SizeBytes(|cards|) + WriteElems(BANK_CARD, Values(cards)))
      ensures xfer == (|oprot.output| - |old(oprot.output)|) % 0x1_0000_0000
    {
      hide Count, Plus, ThriftCodec.Write, WriteElems, SizeBytes, BankCard.Value;
      ghost var start, vs := oprot.output, Values(cards);
      WriteElemsEmpty(BANK_CARD);
      xfer := oprot.WriteListBegin(T_STRUCT, |cards|);
      var i := 0;
      while i < |cards|
        invariant i <= |cards| && vs == Values(cards)
        invariant oprot.output == start + ([T_STRUCT] + SizeBytes(|cards|) + WriteElems(BANK_CARD, vs[..i]))
        invariant xfer == Count(|oprot.output| - |start|)
      {
        ghost var last := oprot.output;
        WriteElemsAppend(BANK_CARD, vs[..i], vs[i]);
        assert vs[..i] + [vs[i]] == vs[..i + 1];
        var m := cards[i].Write(oprot);
        CountSum(|last| - |start|, |oprot.output| - |last|);
        xfer := Plus(xfer, m);
        i := i + 1;
      }
      assert vs[..i] == vs;
      WriteList(BANK_CARD, vs);
      CountIsModulo(|oprot.output| - |start|);
    }
  }

  /** A vector of cards with the given values. */
  method CopyOf(vs: seq<Val>) returns (cards: seq<BankCard>)
    requires forall v <- vs :: HasType(BANK_CARD, v)
    ensures |cards| == |vs| && forall x <- cards :: fresh(x) && fresh(x.vd)
    ensures forall i | 0 <= i < |vs| :: cards[i].Value() == vs[i]
  {
    hide HasType, BankCard.Value;
    cards := [];
    while |cards| < |vs|
      invariant |cards| <= |vs| && forall x <- cards :: fresh(x) && fresh(x.vd)
      invariant forall i | 0 <= i < |cards| :: cards[i] in cards && cards[i].Value() == vs[i]
    {
      var x := new BankCard.Of(vs[|cards|]);
      cards := cards + [x];
    }
  }

  /** The object that a result points to: the handler's, or the caller's return object.  The calls differ in its
      type only. */
  datatype Success = OfResult(result: DgiResult) | OfCards(list: CardList) | OfCard(card: RespBankCard) {
    function Type(): Ty {
      match this
      case OfResult(_) => DGI_RESULT
      case OfCards(_) => TList(BANK_CARD)
      case OfCard(_) => RESP_BANK_CARD
    }

    /** What reading into the object changes. */
    ghost function Pointees(): set<object> {
      match this
      case OfResult(result) => {result}
      case OfCards(list) => {list}
      case OfCard(card) => {card, card.result, card.cardInfo, card.cardInfo.vd}
    }

    ghost function Objects(): (all: set<object>)
      reads Pointees()
      ensures Pointees() <= all
    {
      if OfCards? then Pointees() + (set x | x in list.cards) + Dates(list.cards) else Pointees()
    }

    ghost function Value(): (v: Val)
      reads Pointees(), Objects()
      ensures HasType(Type(), v)
    {
      match this
      case OfResult(result) => result.Value()
      case OfCards(list) => list.Value()
      case OfCard(card) => card.Value()
    }

    lemma Apart(p: TProtocol, r: CallResult)
      ensures p !in Objects() && r !in Objects()
    {
    }

    lemma ApartFromStream(p: TProtocol)
      ensures p !in Objects()
    {
    }

    method Read(iprot: TProtocol) returns (r: Try<uint32>)
      modifies Pointees(), iprot`input
      ensures Agrees(ReadVal(Type(), old(Value()), old(iprot.input)), old(iprot.input), r, Value(), iprot.input)
    {
      match this
      case OfResult(result) => r := result.Read(iprot);
      case OfCards(list) => r := list.Read(iprot);
      case OfCard(card) => r := card.Read(iprot);
    }

    method Write(oprot: TProtocol) returns (xfer: uint32)
      modifies oprot`output
      ensures oprot.output == old(oprot.output) + ThriftCodec.Write(Type(), Value())
      ensures xfer == Count(|ThriftCodec.Write(Type(), Value())|)
    {
      match this
      case OfResult(result) => xfer := result.Write(oprot);
      case OfCards(list) => xfer := list.Write(oprot);
      case OfCard(card) => xfer := card.Write(oprot);
    }
  }

  /** The type code of what a result holds: a list or a struct. */
  function TypeCode(success: Success): (code: byte)
    ensures code == if success.OfCards? then 15 else 12
  {
    WireType(success.Type())
  }

  lemma SuccessCode(success: Success)
    ensures WireType(success.Type()) == TypeCode(success)
  {
  }

  lemma SuccessSchema(success: Success)
    ensures Plain(success.Type())
  {
    hide Plain;
    DgiResultSchema();
    BankCardSchema();
    RespBankCardSchema();
    PlainList(BANK_CARD);
  }

  /** What is written for a result, in plain numbers. */
  lemma ResultInBytes(ty: Ty, v: Val, isset: bool)
    requires HasType(ty, v)
    ensures Write(TStruct([Field(0, ty, true)]), VStruct([v], [isset]))
         == if isset then [WireType(ty), 0, 0] + Write(ty, v) + [0] else [0]
  {
    var fs, x := [Field(0, ty, true)], VStruct([v], [isset]);
    WriteFromStart(fs, x);
    WriteFromEnd(fs, x);
    if isset {
      WriteFromWritten(fs, x, 0);
      FieldIdInBytes(0);
    } else {
      assert FieldsToWire(fs, x.vals, x.isset, 0) == FieldsToWire(fs, x.vals, x.isset, 1);
    }
  }

  /** What is read from such bytes, over any old contents. */
  lemma ResultFromBytes(ty: Ty, was: Val, flag: bool, v: Val, rest: Bytes)
    requires Plain(ty) && HasType(ty, was) && HasType(ty, v) && Writable(ty, v)
    ensures ReadVal(TStruct([Field(0, ty, true)]), VStruct([was], [flag]),
              ([WireType(ty), 0, 0] + Write(ty, v) + [0]) + rest)
         == Done(VStruct([Stamp(ty, v)], [true]), rest)
  {
    var result := TStruct([Field(0, ty, true)]);
    var before, written := VStruct([was], [flag]), VStruct([v], [true]);
    ResultInBytes(ty, v, true);
    OverIsStamp(ty, was, v);
    OverResult(ty, was, flag, v);
    hide Plain, Stamp, Over, Write;
    assert ValidSchema(result) && Writable(result, written) by { ResultIsValid(ty, v); }
    RoundTripOver(result, before, written, rest);
  }

  /** A result without its member leaves everything as it was. */
  lemma EmptyResultFromBytes(ty: Ty, was: Val, flag: bool, rest: Bytes)
    requires HasType(ty, was)
    ensures ReadVal(TStruct([Field(0, ty, true)]), VStruct([was], [flag]), [0] + rest)
      == Done(VStruct([was], [flag]), rest)
  {
    assert ([0] + rest)[1..] == rest;
  }

  lemma ResultFromAnyBytes(ty: Ty, was: Val, flag: bool, s: Bytes)
    requires Plain(ty) && HasType(ty, was)
    ensures var result := TStruct([Field(0, ty, true)]);
      && (forall v: Val, rest: Bytes |
            HasType(ty, v) && Writable(ty, v) && s == ([WireType(ty), 0, 0] + Write(ty, v) + [0]) + rest ::
            ReadVal(result, VStruct([was], [flag]), s) == Done(VStruct([Stamp(ty, v)], [true]), rest))
      && (forall rest: Bytes | s == [0] + rest ::
            ReadVal(result, VStruct([was], [flag]), s) == Done(VStruct([was], [flag]), rest))
  {
    hide Plain, Write, ReadVal, Stamp, Writable;
    forall v: Val, rest: Bytes |
      HasType(ty, v) && Writable(ty, v) && s == ([WireType(ty), 0, 0] + Write(ty, v) + [0]) + rest
      ensures ReadVal(TStruct([Field(0, ty, true)]), VStruct([was], [flag]), s)
        == Done(VStruct([Stamp(ty, v)], [true]), rest)
    {
      ResultFromBytes(ty, was, flag, v, rest);
    }
    forall rest: Bytes | s == [0] + rest
      ensures ReadVal(TStruct([Field(0, ty, true)]), VStruct([was], [flag]), s) == Done(VStruct([was], [flag]), rest)
    {
      EmptyResultFromBytes(ty, was, flag, rest);
    }
  }

  lemma ResultIsValid(ty: Ty, v: Val)
    requires Plain(ty) && HasType(ty, v) && Writable(ty, v)
    ensures ValidSchema(TStruct([Field(0, ty, true)]))
    ensures HasType(TStruct([Field(0, ty, true)]), VStruct([v], [true]))
    ensures Writable(TStruct([Field(0, ty, true)]), VStruct([v], [true]))
  {
  }

  lemma OverResult(ty: Ty, was: Val, flag: bool, v: Val)
    requires HasType(ty, was) && HasType(ty, v)
    ensures var result := TStruct([Field(0, ty, true)]);
      && HasType(result, VStruct([was], [flag])) && HasType(result, VStruct([v], [true]))
      && Over(result, VStruct([was], [flag]), VStruct([v], [true])) == VStruct([Over(ty, was, v)], [true])
  {
    var o := Over(TStruct([Field(0, ty, true)]), VStruct([was], [flag]), VStruct([v], [true]));
    assert o.vals == [Over(ty, was, v)];
    assert o.isset == [true];
  }

  /** The result struct of a call, and its twin that points to the caller's return object. */
  class CallResult {
    const success: Success
    var isset: bool

    ghost function Fields(): seq<Field> {
      [Field(0, success.Type(), true)]
    }

    ghost function Type(): Ty {
      TStruct(Fields())
    }

    ghost function Value(): (v: Val)
      reads this, success.Pointees(), success.Objects()
      ensures HasType(Type(), v)
    {
      VStruct([success.Value()], [isset])
    }

    constructor (success: Success)
      ensures this.success == success && isset == false
    {
      this.success, isset := success, false;
    }

    /** The switch of the field loop. */
    method ReadMember(iprot: TProtocol, ftype: byte, fid: i16) returns (r: Try<uint32>)
      modifies this, success.Pointees(), iprot`input
      ensures Agrees(Turn(Fields(), old(Value()), ftype, fid, old(iprot.input)),
                     old(iprot.input), r, Value(), iprot.input)
      ensures r.Got? ==>
        isset == if fid == 0 && ftype == (if success.OfCards? then 15 else 12) then true else old(isset)
    {
      hide Count, ReadVal, Skip, Turn, HasType, Set, Default, Success.Value, Success.Type;
      success.Apart(iprot, this);
      SuccessCode(success);
      ghost var was, body := Value(), iprot.input;
      if fid == 0 && ftype == WireType(success.Type()) {
        StoredTurn(Fields(), was, 0, body);
        var n :- success.Read(iprot);
        success.Apart(iprot, this);
        isset := true;
        SetOfOne(old(success.Value()), old(isset), success.Value());
        return Got(n);
      } else {
        SkippedTurn(Fields(), was, ftype, fid, body);
        var n :- iprot.SkipValue(ftype);
        return Got(n);
      }
    }

    /** The field loop. */
    method ReadLoop(iprot: TProtocol) returns (r: Try<uint32>)
      modifies this, success.Pointees(), iprot`input
      ensures Agrees(ReadVal(Type(), old(Value()), old(iprot.input)), old(iprot.input), r, Value(), iprot.input)
      ensures r.Got? ==> r.value == (|old(iprot.input)| - |iprot.input|) % 0x1_0000_0000
    {
      hide Count, Plus, ReadFields, ReadVal, Turn, ParseFieldBegin, HasType, Success.Value, Success.Type,
        ThriftCodec.Write, Writable, Stamp;
      success.Apart(iprot, this);
      ghost var start, was := iprot.input, Value();
      LoopTurn(Fields(), was, start);
      var xfer := Count(0);
      while true
        invariant ReadFields(Fields(), Value(), iprot.input) == ReadFields(Fields(), was, start)
        invariant |iprot.input| <= |start| && xfer == Count(|start| - |iprot.input|)
        decreases |iprot.input|
      {
        ghost var turn := iprot.input;
        LoopTurn(Fields(), Value(), turn);
        success.Apart(iprot, this);
        var ftype, fid, n :- iprot.ReadFieldBegin();
        ghost var body := iprot.input;
        CountSum(|start| - |turn|, |turn| - |body|);
        xfer := Plus(xfer, n);
        if ftype == T_STOP {
          break;
        }
        var m :- ReadMember(iprot, ftype, fid);
        CountSum(|start| - |body|, |body| - |iprot.input|);
        xfer := Plus(xfer, m);
      }
      CountIsModulo(|start| - |iprot.input|);
      return Got(xfer);
    }

    method Read(iprot: TProtocol) returns (r: Try<uint32>)
      modifies this, success.Pointees(), iprot`input
      ensures Agrees(ReadVal(Type(), old(Value()), old(iprot.input)), old(iprot.input), r, Value(), iprot.input)
      ensures r.Got? ==> r.value == (|old(iprot.input)| - |iprot.input|) % 0x1_0000_0000
      ensures forall v: Val, rest: Bytes |
        && HasType(success.Type(), v) && Writable(success.Type(), v)
        && old(iprot.input) == ([TypeCode(success), 0, 0] + ThriftCodec.Write(success.Type(), v) + [0]) + rest ::
        r.Got? && iprot.input == rest && isset && success.Value() == Stamp(success.Type(), v)
      ensures forall rest: Bytes | old(iprot.input) == [0] + rest ::
        r.Got? && iprot.input == rest && isset == old(isset) && success.Value() == old(success.Value())
    {
      hide Count, ReadVal, HasType, Success.Value, Success.Type, ThriftCodec.Write, Writable, Stamp;
      ghost var start, was := iprot.input, Value();
      ghost var before, flag := success.Value(), isset;
      SuccessSchema(success);
      SuccessCode(success);
      ResultFromAnyBytes(success.Type(), before, flag, start);
      r := ReadLoop(iprot);
    }

    /** The member is written only if its flag is set. */
    method Write(oprot: TProtocol) returns (xfer: uint32)
      modifies oprot`output
      ensures oprot.output == old(oprot.output) + ThriftCodec.Write(Type(), Value())
      ensures xfer == Count(|ThriftCodec.Write(Type(), Value())|)
      ensures oprot.output == old(oprot.output)
        + if isset then [if success.OfCards? then 15 else 12, 0, 0] + ThriftCodec.Write(success.Type(),
          success.Value()) + [0] else [0]
      ensures xfer == (|oprot.output| - |old(oprot.output)|) % 0x1_0000_0000
    {
      hide Count, Plus, ThriftCodec.Write, WriteFrom, I16Bytes, Halfway, HasType, Success.Value, Success.Type;
      success.Apart(oprot, this);
      ghost var v, start := Value(), oprot.output;
      HalfwayStart(Fields(), v, start);
      xfer := Count(0);
      if isset {
        ghost var before := xfer;
        var n := oprot.WriteFieldBegin(WireType(success.Type()), 0);
        var m := success.Write(oprot);
        HalfwayWritten(Fields(), v, 0, start, start, before, oprot.output);
        xfer := Plus(Plus(xfer, n), m);
      } else {
        HalfwayUnwritten(Fields(), v, 0, start, start, xfer);
      }
      HalfwayEnd(Fields(), v, start, oprot.output, xfer);
      var n := oprot.WriteFieldStop();
      xfer := Plus(xfer, n);
      success.Apart(oprot, this);
      SuccessCode(success);
      ResultInBytes(success.Type(), success.Value(), isset);
      CountIsModulo(|oprot.output| - |start|);
    }
  }
}
