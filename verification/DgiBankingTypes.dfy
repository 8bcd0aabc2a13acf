/** The banking structs: a date, a wide struct with a date among its members, and a reply that holds two structs. */
module DgiBankingTypes {
  import opened ThriftWire
  import opened ThriftCodec
  import opened ThriftLaws
  import opened ThriftProtocol
  import opened DgiCommonTypes

  const VALID_DATE_FIELDS: seq<Field> := [Field(1, TI32, false), Field(2, TI32, false)]
  const VALID_DATE: Ty := TStruct(VALID_DATE_FIELDS)

  datatype ValidDateIsset = ValidDateIsset(vdMonth: bool, vdYear: bool)

  lemma ValidDateSchema()
    ensures Plain(VALID_DATE)
  {
    hide Plain;
    PlainLeaves();
    PlainStruct(VALID_DATE_FIELDS);
  }

  /** What is written for these members, in plain numbers. */
  lemma ValidDateInBytes(vdMonth: i32, vdYear: i32, isset: seq<bool>)
    requires |isset| == 2
    ensures Write(VALID_DATE, VStruct([VI32(vdMonth), VI32(vdYear)], isset))
         == [8, 0, 1] + I32Bytes(vdMonth)
            + [8, 0, 2] + I32Bytes(vdYear)
            + [0]
  {
    var v := VStruct([VI32(vdMonth), VI32(vdYear)], isset);
    hide Write, WriteFrom, SizeBytes, I32Bytes;
    assert HasType(VALID_DATE, v);
    hide HasType;
    var all := Write(VALID_DATE, v);
    WriteFromStart(VALID_DATE_FIELDS, v);
    I32InBytes(VALID_DATE_FIELDS, v, 0, all, [], 1, vdMonth);
    var before1 := [8, 0, 1] + I32Bytes(vdMonth);
    assert [] + [8, 0, 1] + I32Bytes(vdMonth) == before1;
    I32InBytes(VALID_DATE_FIELDS, v, 1, all, before1, 2, vdYear);
    var before2 := before1 + [8, 0, 2] + I32Bytes(vdYear);
    WriteFromEnd(VALID_DATE_FIELDS, v);
  }

  /** What is read from such bytes. */
  lemma ValidDateFromBytes(was: Val, vdMonth: i32, vdYear: i32, rest: Bytes)
    requires HasType(VALID_DATE, was)
    ensures ReadVal(VALID_DATE, was,
              ([8, 0, 1] + I32Bytes(vdMonth)
           + [8, 0, 2] + I32Bytes(vdYear)
           + [0]) + rest)
         == Done(VStruct([VI32(vdMonth), VI32(vdYear)], [true, true]), rest)
  {
    var v := VStruct([VI32(vdMonth), VI32(vdYear)], [false, false]);
    ValidDateInBytes(vdMonth, vdYear, [false, false]);
    ValidDateSchema();
    assert Writable(VALID_DATE, v);
    RoundTrip(VALID_DATE, was, v, rest);
    assert Stamp(VALID_DATE, v).vals == [VI32(vdMonth), VI32(vdYear)];
    assert Stamp(VALID_DATE, v).isset == [true, true];
  }

  class ValidDate {
    var vdMonth: i32
    var vdYear: i32
    var isset: ValidDateIsset

    function Value(): (v: Val)
      reads this
      ensures HasType(VALID_DATE, v)
    {
      VStruct([VI32(vdMonth), VI32(vdYear)], [isset.vdMonth, isset.vdYear])
    }

    constructor ()
      ensures vdMonth == 0 && vdYear == 0 && isset == ValidDateIsset(false, false)
      ensures Value() == Default(VALID_DATE)
    {
      vdMonth, vdYear, isset := 0, 0, ValidDateIsset(false, false);
      new;
      DefaultOfTwo(VALID_DATE_FIELDS);
    }

    /** A copy of a value. */
    constructor Of(v: Val)
      requires HasType(VALID_DATE, v)
      ensures Value() == v
    {
      assert HasType(VALID_DATE_FIELDS[0].ty, v.vals[0]) && HasType(VALID_DATE_FIELDS[1].ty, v.vals[1]);
      vdMonth, vdYear := v.vals[0].n, v.vals[1].n;
      isset := ValidDateIsset(v.isset[0], v.isset[1]);
    }

    /** The switch of the field loop. */
    method ReadMember(iprot: TProtocol, ftype: byte, fid: i16) returns (r: Try<uint32>)
      modifies this, iprot`input
      ensures Agrees(Turn(VALID_DATE_FIELDS, old(Value()), ftype, fid, old(iprot.input)),
                     old(iprot.input), r, Value(), iprot.input)
      ensures r.Got? ==>
        isset ==
          if fid == 1 && ftype == 8 then old(isset).(vdMonth := true)
          else if fid == 2 && ftype == 8 then old(isset).(vdYear := true)
          else old(isset)
    {
      hide Count, ReadVal, Skip, Turn, HasType, Set, Default;
      ghost var was, body := Value(), iprot.input;
      if fid == 1 && ftype == T_I32 {
        LeafTurn(VALID_DATE_FIELDS, was, 0, body);
        var v, n :- iprot.ReadI32();
        vdMonth, isset := v, isset.(vdMonth := true);
        SetOfTwo(VI32(old(vdMonth)), VI32(old(vdYear)), old(isset.vdMonth), old(isset.vdYear), VI32(v));
        return Got(n);
      } else if fid == 2 && ftype == T_I32 {
        LeafTurn(VALID_DATE_FIELDS, was, 1, body);
        var v, n :- iprot.ReadI32();
        vdYear, isset := v, isset.(vdYear := true);
        SetOfTwo(VI32(old(vdMonth)), VI32(old(vdYear)), old(isset.vdMonth), old(isset.vdYear), VI32(v));
        return Got(n);
      } else {
        SkippedTurn(VALID_DATE_FIELDS, was, ftype, fid, body);
        var n :- iprot.SkipValue(ftype);
        return Got(n);
      }
    }

    method Read(iprot: TProtocol) returns (r: Try<uint32>)
      modifies this, iprot`input
      ensures Agrees(ReadVal(VALID_DATE, old(Value()), old(iprot.input)), old(iprot.input), r, Value(), iprot.input)
      ensures r.Got? ==> r.value == (|old(iprot.input)| - |iprot.input|) % 0x1_0000_0000
      ensures forall a: i32, b: i32, rest: Bytes |
        && old(iprot.input)
        == ([8, 0, 1] + I32Bytes(a)
         + [8, 0, 2] + I32Bytes(b)
         + [0]) + rest ::
        && r.Got? && iprot.input == rest && isset == ValidDateIsset(true, true)
        && vdMonth == a && vdYear == b
    {
      hide Count, Plus, ReadFields, ReadVal, Turn, ParseFieldBegin, HasType, SizeBytes, I32Bytes, ThriftCodec.Write,
        Writable, Stamp;
      ghost var start, was := iprot.input, Value();
      forall a: i32, b: i32, rest: Bytes |
        && start
        == ([8, 0, 1] + I32Bytes(a)
         + [8, 0, 2] + I32Bytes(b)
         + [0]) + rest
        ensures ReadVal(VALID_DATE, was, start)
             == Done(VStruct([VI32(a), VI32(b)], [true, true]), rest)
      {
        ValidDateFromBytes(was, a, b, rest);
      }
      LoopTurn(VALID_DATE_FIELDS, was, start);
      var xfer := Count(0);
      while true
        invariant ReadFields(VALID_DATE_FIELDS, Value(), iprot.input) == ReadFields(VALID_DATE_FIELDS, was, start)
        invariant |iprot.input| <= |start| && xfer == Count(|start| - |iprot.input|)
        decreases |iprot.input|
      {
        ghost var turn := iprot.input;
        LoopTurn(VALID_DATE_FIELDS, Value(), turn);
        var ftype, fid, n :- iprot.ReadFieldBegin();
        ghost var body := iprot.input;
        CountSum(|start| - |turn|, |turn| - |body|);
        xfer := Plus(xfer, n);
        if ftype == T_STOP {
          break;
        }
        var m :- ReadMember(iprot, ftype, fid);
        CountSum(|start| - |body|, |body| - |iprot.input|);
        xfer := Plus(xfer, m);
      }
      CountIsModulo(|start| - |iprot.input|);
      return Got(xfer);
    }

    method Write(oprot: TProtocol) returns (xfer: uint32)
      modifies oprot`output
      ensures oprot.output == old(oprot.output) + ThriftCodec.Write(VALID_DATE, Value())
      ensures xfer == Count(|ThriftCodec.Write(VALID_DATE, Value())|)
      ensures oprot.output
        == old(oprot.output)
         + ([8, 0, 1] + I32Bytes(vdMonth)
         + [8, 0, 2] + I32Bytes(vdYear)
         + [0])
      ensures xfer == (|oprot.output| - |old(oprot.output)|) % 0x1_0000_0000
    {
      hide Count, Plus, ThriftCodec.Write, WriteFrom, I16Bytes, Halfway, SizeBytes, I32Bytes;
      ghost var v, start, last := Value(), oprot.output, oprot.output;
      HalfwayStart(VALID_DATE_FIELDS, v, start);
      var n, m;
      xfer := Count(0);

      n := oprot.WriteFieldBegin(T_I32, 1);
      m := oprot.WriteI32(vdMonth);
      HalfwayWritten(VALID_DATE_FIELDS, v, 0, start, last, xfer, oprot.output);
      xfer := Plus(Plus(xfer, n), m);
      last := oprot.output;

      n := oprot.WriteFieldBegin(T_I32, 2);
      m := oprot.WriteI32(vdYear);
      HalfwayWritten(VALID_DATE_FIELDS, v, 1, start, last, xfer, oprot.output);
      xfer := Plus(Plus(xfer, n), m);
      last := oprot.output;

      HalfwayEnd(VALID_DATE_FIELDS, v, start, oprot.output, xfer);
      n := oprot.WriteFieldStop();
      xfer := Plus(xfer, n);
      ValidDateInBytes(vdMonth, vdYear, [isset.vdMonth, isset.vdYear]);
      CountIsModulo(|oprot.output| - |start|);
    }
  }

  const BANK_CARD_FIELDS: seq<Field> := [
    Field(1, TString, false), Field(2, TString, false), Field(3, TString, false), Field(4, TString, false),
    Field(5, VALID_DATE, false),
    Field(6, TString, false), Field(7, TString, false), Field(8, TString, false), Field(9, TString, false)]
  const BANK_CARD: Ty := TStruct(BANK_CARD_FIELDS)

  datatype BankCardIsset = BankCardIsset(
    shortDescription: bool, bankOwner: bool, paySystem: bool, number: bool, vd: bool,
    pinCode: bool, cvvCode: bool, holder: bool, name: bool)

  /** The members and the flags of a card as a value. */
  function CardVal(a: Val, b: Val, c: Val, d: Val, e: Val, f: Val, g: Val, h: Val, i: Val,
      flags: BankCardIsset): (v: Val)
    ensures v.VStruct? && |v.vals| == 9 && v.vals[4] == e
  {
    VStruct(
      [a, b, c, d, e, f, g, h, i],
      [flags.shortDescription, flags.bankOwner, flags.paySystem, flags.number, flags.vd,
       flags.pinCode, flags.cvvCode, flags.holder, flags.name])
  }

  lemma UpdatesOfNine<T>(a: T, b: T, c: T, d: T, e: T, f: T, g: T, h: T, i: T, x: T)
    ensures [a, b, c, d, e, f, g, h, i][0 := x] == [x, b, c, d, e, f, g, h, i]
    ensures [a, b, c, d, e, f, g, h, i][1 := x] == [a, x, c, d, e, f, g, h, i]
    ensures [a, b, c, d, e, f, g, h, i][2 := x] == [a, b, x, d, e, f, g, h, i]
    ensures [a, b, c, d, e, f, g, h, i][3 := x] == [a, b, c, x, e, f, g, h, i]
    ensures [a, b, c, d, e, f, g, h, i][4 := x] == [a, b, c, d, x, f, g, h, i]
    ensures [a, b, c, d, e, f, g, h, i][5 := x] == [a, b, c, d, e, x, g, h, i]
    ensures [a, b, c, d, e, f, g, h, i][6 := x] == [a, b, c, d, e, f, x, h, i]
    ensures [a, b, c, d, e, f, g, h, i][7 := x] == [a, b, c, d, e, f, g, x, i]
    ensures [a, b, c, d, e, f, g, h, i][8 := x] == [a, b, c, d, e, f, g, h, x]
  {
  }

  lemma SetOfCardFront(a: Val, b: Val, c: Val, d: Val, e: Val, f: Val, g: Val, h: Val, i: Val, flags: BankCardIsset,
      x: Val)
    ensures Set(CardVal(a, b, c, d, e, f, g, h, i, flags), 0, x)
      == CardVal(x, b, c, d, e, f, g, h, i, flags.(shortDescription := true))
    ensures Set(CardVal(a, b, c, d, e, f, g, h, i, flags), 1, x)
      == CardVal(a, x, c, d, e, f, g, h, i, flags.(bankOwner := true))
    ensures Set(CardVal(a, b, c, d, e, f, g, h, i, flags), 2, x)
      == CardVal(a, b, x, d, e, f, g, h, i, flags.(paySystem := true))
  {
    UpdatesOfNine(a, b, c, d, e, f, g, h, i, x);
    UpdatesOfNine(flags.shortDescription, flags.bankOwner, flags.paySystem, flags.number, flags.vd,
                  flags.pinCode, flags.cvvCode, flags.holder, flags.name, true);
  }

  lemma SetOfCardMiddle(a: Val, b: Val, c: Val, d: Val, e: Val, f: Val, g: Val, h: Val, i: Val, flags: BankCardIsset,
      x: Val)
    ensures Set(CardVal(a, b, c, d, e, f, g, h, i, flags), 3, x)
      == CardVal(a, b, c, x, e, f, g, h, i, flags.(number := true))
    ensures Set(CardVal(a, b, c, d, e, f, g, h, i, flags), 4, x)
      == CardVal(a, b, c, d, x, f, g, h, i, flags.(vd := true))
    ensures Set(CardVal(a, b, c, d, e, f, g, h, i, flags), 5, x)
      == CardVal(a, b, c, d, e, x, g, h, i, flags.(pinCode := true))
  {
    UpdatesOfNine(a, b, c, d, e, f, g, h, i, x);
    UpdatesOfNine(flags.shortDescription, flags.bankOwner, flags.paySystem, flags.number, flags.vd,
                  flags.pinCode, flags.cvvCode, flags.holder, flags.name, true);
  }

  lemma SetOfCardBack(a: Val, b: Val, c: Val, d: Val, e: Val, f: Val, g: Val, h: Val, i: Val, flags: BankCardIsset,
      x: Val)
    ensures Set(CardVal(a, b, c, d, e, f, g, h, i, flags), 6, x)
      == CardVal(a, b, c, d, e, f, x, h, i, flags.(cvvCode := true))
    ensures Set(CardVal(a, b, c, d, e, f, g, h, i, flags), 7, x)
      == CardVal(a, b, c, d, e, f, g, x, i, flags.(holder := true))
    ensures Set(CardVal(a, b, c, d, e, f, g, h, i, flags), 8, x)
      == CardVal(a, b, c, d, e, f, g, h, x, flags.(name := true))
  {
    UpdatesOfNine(a, b, c, d, e, f, g, h, i, x);
    UpdatesOfNine(flags.shortDescription, flags.bankOwner, flags.paySystem, flags.number, flags.vd,
                  flags.pinCode, flags.cvvCode, flags.holder, flags.name, true);
  }

  lemma SetOfCard(a: Val, b: Val, c: Val, d: Val, e: Val, f: Val, g: Val, h: Val, i: Val, flags: BankCardIsset, x: Val)
    ensures Set(CardVal(a, b, c, d, e, f, g, h, i, flags), 0, x)
      == CardVal(x, b, c, d, e, f, g, h, i, flags.(shortDescription := true))
    ensures Set(CardVal(a, b, c, d, e, f, g, h, i, flags), 1, x)
      == CardVal(a, x, c, d, e, f, g, h, i, flags.(bankOwner := true))
    ensures Set(CardVal(a, b, c, d, e, f, g, h, i, flags), 2, x)
      == CardVal(a, b, x, d, e, f, g, h, i, flags.(paySystem := true))
    ensures Set(CardVal(a, b, c, d, e, f, g, h, i, flags), 3, x)
      == CardVal(a, b, c, x, e, f, g, h, i, flags.(number := true))
    ensures Set(CardVal(a, b, c, d, e, f, g, h, i, flags), 4, x)
      == CardVal(a, b, c, d, x, f, g, h, i, flags.(vd := true))
    ensures Set(CardVal(a, b, c, d, e, f, g, h, i, flags), 5, x)
      == CardVal(a, b, c, d, e, x, g, h, i, flags.(pinCode := true))
    ensures Set(CardVal(a, b, c, d, e, f, g, h, i, flags), 6, x)
      == CardVal(a, b, c, d, e, f, x, h, i, flags.(cvvCode := true))
    ensures Set(CardVal(a, b, c, d, e, f, g, h, i, flags), 7, x)
      == CardVal(a, b, c, d, e, f, g, x, i, flags.(holder := true))
    ensures Set(CardVal(a, b, c, d, e, f, g, h, i, flags), 8, x)
      == CardVal(a, b, c, d, e, f, g, h, x, flags.(name := true))
  {
    hide CardVal, Set;
    SetOfCardFront(a, b, c, d, e, f, g, h, i, flags, x);
    SetOfCardMiddle(a, b, c, d, e, f, g, h, i, flags, x);
    SetOfCardBack(a, b, c, d, e, f, g, h, i, flags, x);
  }

  lemma ValsOfCard(a: Val, b: Val, c: Val, d: Val, e: Val, f: Val, g: Val, h: Val, i: Val, flags: BankCardIsset)
    ensures var vals := CardVal(a, b, c, d, e, f, g, h, i, flags).vals;
      && vals[0] == a && vals[1] == b && vals[2] == c && vals[3] == d && vals[4] == e
      && vals[5] == f && vals[6] == g && vals[7] == h && vals[8] == i
  {
  }

  lemma NineElements<T>(s: seq<T>)
    requires |s| == 9
    ensures s == [s[0], s[1], s[2], s[3], s[4], s[5], s[6], s[7], s[8]]
  {
  }

  function CardFlags(isset: seq<bool>): BankCardIsset
    requires |isset| == 9
  {
    BankCardIsset(isset[0], isset[1], isset[2], isset[3], isset[4], isset[5], isset[6], isset[7], isset[8])
  }

  lemma CardParts(v: Val)
    requires v.VStruct? && |v.vals| == |v.isset| == 9
    ensures v == CardVal(v.vals[0], v.vals[1], v.vals[2], v.vals[3], v.vals[4],
                         v.vals[5], v.vals[6], v.vals[7], v.vals[8], CardFlags(v.isset))
  {
    NineElements(v.vals);
    NineElements(v.isset);
  }

  lemma CardMembers(v: Val)
    requires HasType(BANK_CARD, v)
    ensures v.VStruct? && |v.vals| == |v.isset| == 9 && HasType(VALID_DATE, v.vals[4])
    ensures forall i | 0 <= i < 9 && i != 4 :: v.vals[i].VString?
  {
    forall i | 0 <= i < 9 && i != 4 ensures v.vals[i].VString? {
      assert HasType(BANK_CARD_FIELDS[i].ty, v.vals[i]);
    }
    assert HasType(BANK_CARD_FIELDS[4].ty, v.vals[4]);
  }

  lemma DefaultCard()
    ensures Default(BANK_CARD)
         == CardVal(VString([]), VString([]), VString([]), VString([]), Default(VALID_DATE),
                    VString([]), VString([]), VString([]), VString([]),
                    BankCardIsset(false, false, false, false, false, false, false, false, false))
  {
    hide CardVal;
    var d := Default(BANK_CARD);
    forall i | 0 <= i < 9 ensures d.vals[i] == Default(BANK_CARD_FIELDS[i].ty) {
      DefaultAt(BANK_CARD_FIELDS, i);
    }
    CardParts(d);
  }

  lemma BankCardSchema()
    ensures Plain(BANK_CARD)
  {
    hide Plain;
    PlainLeaves();
    ValidDateSchema();
    PlainStruct(BANK_CARD_FIELDS);
  }

  lemma BankCardFrontInBytes(v: Val, shortDescription: Bytes, bankOwner: Bytes, paySystem: Bytes, number: Bytes,
      vd: Val)
    requires HasType(BANK_CARD, v) && HasType(VALID_DATE, vd)
    requires v.vals[0] == VString(shortDescription) && v.vals[1] == VString(bankOwner)
      && v.vals[2] == VString(paySystem)
    requires v.vals[3] == VString(number) && v.vals[4] == vd
    ensures Write(BANK_CARD, v)
         == [11, 0, 1] + SizeBytes(|shortDescription|) + shortDescription
            + [11, 0, 2] + SizeBytes(|bankOwner|) + bankOwner
            + [11, 0, 3] + SizeBytes(|paySystem|) + paySystem
            + [11, 0, 4] + SizeBytes(|number|) + number
            + [12, 0, 5] + Write(VALID_DATE, vd)
            + WriteFrom(BANK_CARD_FIELDS, v, 5)
  {
    hide Write, WriteFrom, SizeBytes, HasType;
    var all := Write(BANK_CARD, v);
    WriteFromStart(BANK_CARD_FIELDS, v);
    TextInBytes(BANK_CARD_FIELDS, v, 0, all, [], 1, shortDescription);
    var before1 := [11, 0, 1] + SizeBytes(|shortDescription|) + shortDescription;
    assert [] + [11, 0, 1] + SizeBytes(|shortDescription|) + shortDescription == before1;
    TextInBytes(BANK_CARD_FIELDS, v, 1, all, before1, 2, bankOwner);
    var before2 := before1 + [11, 0, 2] + SizeBytes(|bankOwner|) + bankOwner;
    TextInBytes(BANK_CARD_FIELDS, v, 2, all, before2, 3, paySystem);
    var before3 := before2 + [11, 0, 3] + SizeBytes(|paySystem|) + paySystem;
    TextInBytes(BANK_CARD_FIELDS, v, 3, all, before3, 4, number);
    var before4 := before3 + [11, 0, 4] + SizeBytes(|number|) + number;
    StructInBytes(BANK_CARD_FIELDS, v, 4, all, before4, 5, VALID_DATE, vd);
  }

  lemma BankCardBackInBytes(v: Val, all: Bytes, before: Bytes, pinCode: Bytes, cvvCode: Bytes, holder: Bytes,
      name: Bytes)
    requires HasType(BANK_CARD, v) && all == before + WriteFrom(BANK_CARD_FIELDS, v, 5)
    requires v.vals[5] == VString(pinCode) && v.vals[6] == VString(cvvCode) && v.vals[7] == VString(holder)
    requires v.vals[8] == VString(name)
    ensures all == before + [11, 0, 6] + SizeBytes(|pinCode|) + pinCode
            + [11, 0, 7] + SizeBytes(|cvvCode|) + cvvCode
            + [11, 0, 8] + SizeBytes(|holder|) + holder
            + [11, 0, 9] + SizeBytes(|name|) + name
            + [0]
  {
    hide Write, WriteFrom, SizeBytes, HasType;
    TextInBytes(BANK_CARD_FIELDS, v, 5, all, before, 6, pinCode);
    var before6 := before + [11, 0, 6] + SizeBytes(|pinCode|) + pinCode;
    TextInBytes(BANK_CARD_FIELDS, v, 6, all, before6, 7, cvvCode);
    var before7 := before6 + [11, 0, 7] + SizeBytes(|cvvCode|) + cvvCode;
    TextInBytes(BANK_CARD_FIELDS, v, 7, all, before7, 8, holder);
    var before8 := before7 + [11, 0, 8] + SizeBytes(|holder|) + holder;
    TextInBytes(BANK_CARD_FIELDS, v, 8, all, before8, 9, name);
    WriteFromEnd(BANK_CARD_FIELDS, v);
  }

  /** What is written for these members, in plain numbers. */
  lemma BankCardInBytes(v: Val, shortDescription: Bytes, bankOwner: Bytes, paySystem: Bytes, number: Bytes, vd: Val,
      pinCode: Bytes, cvvCode: Bytes, holder: Bytes, name: Bytes)
    requires HasType(BANK_CARD, v) && HasType(VALID_DATE, vd)
    requires v.vals[0] == VString(shortDescription) && v.vals[1] == VString(bankOwner)
      && v.vals[2] == VString(paySystem)
    requires v.vals[3] == VString(number) && v.vals[4] == vd
    requires v.vals[5] == VString(pinCode) && v.vals[6] == VString(cvvCode) && v.vals[7] == VString(holder)
    requires v.vals[8] == VString(name)
    ensures Write(BANK_CARD, v)
         == [11, 0, 1] + SizeBytes(|shortDescription|) + shortDescription
            + [11, 0, 2] + SizeBytes(|bankOwner|) + bankOwner
            + [11, 0, 3] + SizeBytes(|paySystem|) + paySystem
            + [11, 0, 4] + SizeBytes(|number|) + number
            + [12, 0, 5] + Write(VALID_DATE, vd)
            + [11, 0, 6] + SizeBytes(|pinCode|) + pinCode
            + [11, 0, 7] + SizeBytes(|cvvCode|) + cvvCode
            + [11, 0, 8] + SizeBytes(|holder|) + holder
            + [11, 0, 9] + SizeBytes(|name|) + name
            + [0]
  {
    hide Write, WriteFrom, SizeBytes, HasType;
    BankCardFrontInBytes(v, shortDescription, bankOwner, paySystem, number, vd);
    BankCardBackInBytes(v, Write(BANK_CARD, v),
      [11, 0, 1] + SizeBytes(|shortDescription|) + shortDescription
      + [11, 0, 2] + SizeBytes(|bankOwner|) + bankOwner
      + [11, 0, 3] + SizeBytes(|paySystem|) + paySystem
      + [11, 0, 4] + SizeBytes(|number|) + number
      + [12, 0, 5] + Write(VALID_DATE, vd),
      pinCode, cvvCode, holder, name);
  }

  lemma StampedCard(shortDescription: Bytes, bankOwner: Bytes, paySystem: Bytes, number: Bytes, vd: Val,
      pinCode: Bytes, cvvCode: Bytes, holder: Bytes, name: Bytes)
    requires HasType(VALID_DATE, vd)
    ensures var v := CardVal(VString(shortDescription), VString(bankOwner), VString(paySystem), VString(number), vd,
      VString(pinCode), VString(cvvCode), VString(holder), VString(name),
        CardFlags([false, false, false, false, false, false, false, false, false]));
      && HasType(BANK_CARD, v)
      && Stamp(BANK_CARD, v)
         == CardVal(VString(shortDescription), VString(bankOwner), VString(paySystem), VString(number),
           Stamp(VALID_DATE, vd), VString(pinCode), VString(cvvCode), VString(holder), VString(name),
                    BankCardIsset(true, true, true, true, true, true, true, true, true))
  {
    var v := CardVal(VString(shortDescription), VString(bankOwner), VString(paySystem), VString(number), vd,
      VString(pinCode), VString(cvvCode), VString(holder), VString(name),
        CardFlags([false, false, false, false, false, false, false, false, false]));
    var m := Stamp(BANK_CARD, v);
    hide HasType;
    CardParts(m);
  }

  /** What is read from such bytes. */
  lemma BankCardFromBytes(was: Val, shortDescription: Bytes, bankOwner: Bytes, paySystem: Bytes, number: Bytes,
      vd: Val, pinCode: Bytes, cvvCode: Bytes, holder: Bytes, name: Bytes, rest: Bytes)
    requires HasType(BANK_CARD, was) && HasType(VALID_DATE, vd) && Writable(VALID_DATE, vd)
    requires |shortDescription| < 0x1_0000_0000 && |bankOwner| < 0x1_0000_0000 && |paySystem| < 0x1_0000_0000
      && |number| < 0x1_0000_0000
    requires |pinCode| < 0x1_0000_0000 && |cvvCode| < 0x1_0000_0000 && |holder| < 0x1_0000_0000
      && |name| < 0x1_0000_0000
    ensures ReadVal(BANK_CARD, was,
              ([11, 0, 1] + SizeBytes(|shortDescription|) + shortDescription
               + [11, 0, 2] + SizeBytes(|bankOwner|) + bankOwner
               + [11, 0, 3] + SizeBytes(|paySystem|) + paySystem
               + [11, 0, 4] + SizeBytes(|number|) + number
               + [12, 0, 5] + Write(VALID_DATE, vd)
               + [11, 0, 6] + SizeBytes(|pinCode|) + pinCode
               + [11, 0, 7] + SizeBytes(|cvvCode|) + cvvCode
               + [11, 0, 8] + SizeBytes(|holder|) + holder
               + [11, 0, 9] + SizeBytes(|name|) + name
               + [0]) + rest)
         == Done(CardVal(VString(shortDescription), VString(bankOwner), VString(paySystem), VString(number),
           Stamp(VALID_DATE, vd), VString(pinCode), VString(cvvCode), VString(holder), VString(name),
                         BankCardIsset(true, true, true, true, true, true, true, true, true)), rest)
  {
    var v := CardVal(VString(shortDescription), VString(bankOwner), VString(paySystem), VString(number), vd,
      VString(pinCode), VString(cvvCode), VString(holder), VString(name),
        CardFlags([false, false, false, false, false, false, false, false, false]));
    StampedCard(shortDescription, bankOwner, paySystem, number, vd, pinCode, cvvCode, holder, name);
    BankCardSchema();
    CardIsWritable(v, shortDescription, bankOwner, paySystem, number, vd, pinCode, cvvCode, holder, name);
    BankCardInBytes(v, shortDescription, bankOwner, paySystem, number, vd, pinCode, cvvCode, holder, name);
    hide HasType, CardVal, Writable, Write, SizeBytes, Plain;
    RoundTrip(BANK_CARD, was, v, rest);
  }

  lemma CardIsWritable(v: Val, shortDescription: Bytes, bankOwner: Bytes, paySystem: Bytes, number: Bytes, vd: Val,
      pinCode: Bytes, cvvCode: Bytes, holder: Bytes, name: Bytes)
    requires HasType(BANK_CARD, v) && HasType(VALID_DATE, vd) && Writable(VALID_DATE, vd)
    requires |shortDescription| < 0x1_0000_0000 && |bankOwner| < 0x1_0000_0000 && |paySystem| < 0x1_0000_0000
      && |number| < 0x1_0000_0000
    requires |pinCode| < 0x1_0000_0000 && |cvvCode| < 0x1_0000_0000 && |holder| < 0x1_0000_0000
      && |name| < 0x1_0000_0000
    requires v == CardVal(VString(shortDescription), VString(bankOwner), VString(paySystem), VString(number), vd,
      VString(pinCode), VString(cvvCode), VString(holder), VString(name),
        CardFlags([false, false, false, false, false, false, false, false, false]))
    ensures Writable(BANK_CARD, v)
  {
  }

  lemma CardValInBytes(shortDescription: Bytes, bankOwner: Bytes, paySystem: Bytes, number: Bytes, vd: Val,
      pinCode: Bytes, cvvCode: Bytes, holder: Bytes, name: Bytes, isset: BankCardIsset)
    requires HasType(VALID_DATE, vd)
    requires HasType(BANK_CARD,
      CardVal(VString(shortDescription), VString(bankOwner), VString(paySystem), VString(number), vd,
        VString(pinCode), VString(cvvCode), VString(holder), VString(name), isset))
    ensures Write(BANK_CARD,
      CardVal(VString(shortDescription), VString(bankOwner), VString(paySystem), VString(number), vd,
        VString(pinCode), VString(cvvCode), VString(holder), VString(name), isset))
         == [11, 0, 1] + SizeBytes(|shortDescription|) + shortDescription
            + [11, 0, 2] + SizeBytes(|bankOwner|) + bankOwner
            + [11, 0, 3] + SizeBytes(|paySystem|) + paySystem
            + [11, 0, 4] + SizeBytes(|number|) + number
            + [12, 0, 5] + Write(VALID_DATE, vd)
            + [11, 0, 6] + SizeBytes(|pinCode|) + pinCode
            + [11, 0, 7] + SizeBytes(|cvvCode|) + cvvCode
            + [11, 0, 8] + SizeBytes(|holder|) + holder
            + [11, 0, 9] + SizeBytes(|name|) + name
            + [0]
  {
    hide HasType, Write, SizeBytes;
    BankCardInBytes(CardVal(VString(shortDescription), VString(bankOwner), VString(paySystem), VString(number), vd,
      VString(pinCode), VString(cvvCode), VString(holder), VString(name), isset), shortDescription, bankOwner,
        paySystem, number, vd, pinCode, cvvCode, holder, name);
  }

  lemma SameCard(shortDescription: Bytes, bankOwner: Bytes, paySystem: Bytes, number: Bytes, vd: Val, pinCode: Bytes,
      cvvCode: Bytes, holder: Bytes, name: Bytes, isset: BankCardIsset,
                 shortDescription1: Bytes, bankOwner1: Bytes, paySystem1: Bytes, number1: Bytes, vd1: Val,
                   pinCode1: Bytes, cvvCode1: Bytes, holder1: Bytes, name1: Bytes, isset1: BankCardIsset)
    requires CardVal(VString(shortDescription), VString(bankOwner), VString(paySystem), VString(number), vd,
      VString(pinCode), VString(cvvCode), VString(holder), VString(name), isset)
          == CardVal(VString(shortDescription1), VString(bankOwner1), VString(paySystem1), VString(number1), vd1,
            VString(pinCode1), VString(cvvCode1), VString(holder1), VString(name1), isset1)
    ensures shortDescription == shortDescription1 && bankOwner == bankOwner1 && paySystem == paySystem1
      && number == number1 && vd == vd1
    ensures pinCode == pinCode1 && cvvCode == cvvCode1 && holder == holder1 && name == name1 && isset == isset1
  {
    var v := CardVal(VString(shortDescription), VString(bankOwner), VString(paySystem), VString(number), vd,
      VString(pinCode), VString(cvvCode), VString(holder), VString(name), isset);
    assert v.vals[0] == VString(shortDescription) && v.vals[1] == VString(bankOwner) && v.vals[2] == VString(paySystem);
  }

  class BankCard {
    var shortDescription: Bytes
    var bankOwner: Bytes
    var paySystem: Bytes
    var number: Bytes
    const vd: ValidDate
    var pinCode: Bytes
    var cvvCode: Bytes
    var holder: Bytes
    var name: Bytes
    var isset: BankCardIsset

    function Value(): (v: Val)
      reads this, vd
      ensures HasType(BANK_CARD, v)
    {
      CardVal(VString(shortDescription), VString(bankOwner), VString(paySystem), VString(number), vd.Value(),
              VString(pinCode), VString(cvvCode), VString(holder), VString(name), isset)
    }

    constructor ()
      ensures shortDescription == [] && bankOwner == [] && paySystem == [] && number == [] && pinCode == []
        && cvvCode == [] && holder == [] && name == []
           && isset == BankCardIsset(false, false, false, false, false, false, false, false, false)
      ensures Value() == Default(BANK_CARD) && fresh(vd)
    {
      vd := new ValidDate();
      shortDescription, bankOwner, paySystem, number := [], [], [], [];
      pinCode, cvvCode, holder, name := [], [], [], [];
      isset := BankCardIsset(false, false, false, false, false, false, false, false, false);
      new;
      DefaultCard();
      hide CardVal, HasType, Default;
    }

    /** A copy of a value. */
    constructor Of(v: Val)
      requires HasType(BANK_CARD, v)
      ensures Value() == v && fresh(vd)
    {
      CardMembers(v);
      CardParts(v);
      hide HasType, CardVal, CardFlags;
      vd := new ValidDate.Of(v.vals[4]);
      shortDescription, bankOwner, paySystem, number := v.vals[0].text, v.vals[1].text, v.vals[2].text, v.vals[3].text;
      pinCode, cvvCode, holder, name := v.vals[5].text, v.vals[6].text, v.vals[7].text, v.vals[8].text;
      isset := CardFlags(v.isset);
    }

    /** Assigns one of the text members and sets its flag. */
    method StoreText(fid: i16, text: Bytes)
      requires 1 <= fid <= 9 && fid != 5
      modifies this
      ensures Value() == Set(old(Value()), fid - 1, VString(text))
      ensures isset ==
          if fid == 1 then old(isset).(shortDescription := true)
          else if fid == 2 then old(isset).(bankOwner := true)
          else if fid == 3 then old(isset).(paySystem := true)
          else if fid == 4 then old(isset).(number := true)
          else if fid == 6 then old(isset).(pinCode := true)
          else if fid == 7 then old(isset).(cvvCode := true)
          else if fid == 8 then old(isset).(holder := true)
          else old(isset).(name := true)
    {
      hide CardVal, Set, HasType;
      SetOfCard(VString(shortDescription), VString(bankOwner), VString(paySystem), VString(number), vd.Value(),
        VString(pinCode), VString(cvvCode), VString(holder), VString(name), isset, VString(text));
      match fid
      case 1 => shortDescription, isset := text, isset.(shortDescription := true);
      case 2 => bankOwner, isset := text, isset.(bankOwner := true);
      case 3 => paySystem, isset := text, isset.(paySystem := true);
      case 4 => number, isset := text, isset.(number := true);
      case 6 => pinCode, isset := text, isset.(pinCode := true);
      case 7 => cvvCode, isset := text, isset.(cvvCode := true);
      case 8 => holder, isset := text, isset.(holder := true);
      case 9 => name, isset := text, isset.(name := true);
      case _ =>
    }

    /** The switch of the field loop. */
    method ReadMember(iprot: TProtocol, ftype: byte, fid: i16) returns (r: Try<uint32>)
      modifies this, vd, iprot`input
      ensures Agrees(Turn(BANK_CARD_FIELDS, old(Value()), ftype, fid, old(iprot.input)),
                     old(iprot.input), r, Value(), iprot.input)
      ensures r.Got? ==>
        isset ==
          if fid == 1 && ftype == 11 then old(isset).(shortDescription := true)
          else if fid == 2 && ftype == 11 then old(isset).(bankOwner := true)
          else if fid == 3 && ftype == 11 then old(isset).(paySystem := true)
          else if fid == 4 && ftype == 11 then old(isset).(number := true)
          else if fid == 5 && ftype == 12 then old(isset).(vd := true)
          else if fid == 6 && ftype == 11 then old(isset).(pinCode := true)
          else if fid == 7 && ftype == 11 then old(isset).(cvvCode := true)
          else if fid == 8 && ftype == 11 then old(isset).(holder := true)
          else if fid == 9 && ftype == 11 then old(isset).(name := true)
          else old(isset)
    {
      hide Count, ReadVal, Skip, Turn, HasType, Set, Default, CardVal;
      ghost var was, body := Value(), iprot.input;
      if 1 <= fid <= 9 && fid != 5 && ftype == T_STRING {
        LeafTurn(BANK_CARD_FIELDS, was, fid - 1, body);
        var v, n :- iprot.ReadString();
        StoreText(fid, v);
        return Got(n);
      } else if fid == 5 && ftype == T_STRUCT {
        r := ReadMemberDate(iprot);
      } else {
        SkippedTurn(BANK_CARD_FIELDS, was, ftype, fid, body);
        var n :- iprot.SkipValue(ftype);
        return Got(n);
      }
    }

    /** The case of the date in the switch of the field loop. */
    method ReadMemberDate(iprot: TProtocol) returns (r: Try<uint32>)
      modifies this, vd, iprot`input
      ensures Agrees(Turn(BANK_CARD_FIELDS, old(Value()), T_STRUCT, 5, old(iprot.input)),
                     old(iprot.input), r, Value(), iprot.input)
      ensures r.Got? ==> isset == old(isset).(vd := true)
    {
      hide Count, ReadVal, Skip, Turn, HasType, Default, CardVal, Set;
      StoredTurn(BANK_CARD_FIELDS, Value(), 4, iprot.input);
      ghost var date := vd.Value();
      var n :- vd.Read(iprot);
      SetOfCard(VString(shortDescription), VString(bankOwner), VString(paySystem), VString(number), date,
        VString(pinCode), VString(cvvCode), VString(holder), VString(name), isset, vd.Value());
      isset := isset.(vd := true);
      return Got(n);
    }

    /** The field loop. */
    method ReadLoop(iprot: TProtocol) returns (r: Try<uint32>)
      modifies this, vd, iprot`input
      ensures Agrees(ReadVal(BANK_CARD, old(Value()), old(iprot.input)), old(iprot.input), r, Value(), iprot.input)
      ensures r.Got? ==> r.value == (|old(iprot.input)| - |iprot.input|) % 0x1_0000_0000
    {
      hide Count, Plus, ReadFields, ReadVal, Turn, ParseFieldBegin, HasType, SizeBytes, I32Bytes, ThriftCodec.Write,
        Writable, Stamp;
      ghost var start, was := iprot.input, Value();
      LoopTurn(BANK_CARD_FIELDS, was, start);
      var xfer := Count(0);
      while true
        invariant ReadFields(BANK_CARD_FIELDS, Value(), iprot.input) == ReadFields(BANK_CARD_FIELDS, was, start)
        invariant |iprot.input| <= |start| && xfer == Count(|start| - |iprot.input|)
        decreases |iprot.input|
      {
        ghost var turn := iprot.input;
        LoopTurn(BANK_CARD_FIELDS, Value(), turn);
        var ftype, fid, n :- iprot.ReadFieldBegin();
        ghost var body := iprot.input;
        CountSum(|start| - |turn|, |turn| - |body|);
        xfer := Plus(xfer, n);
        if ftype == T_STOP {
          break;
        }
        var m :- ReadMember(iprot, ftype, fid);
        CountSum(|start| - |body|, |body| - |iprot.input|);
        xfer := Plus(xfer, m);
      }
      CountIsModulo(|start| - |iprot.input|);
      return Got(xfer);
    }

    method Read(iprot: TProtocol) returns (r: Try<uint32>)
      modifies this, vd, iprot`input
      ensures Agrees(ReadVal(BANK_CARD, old(Value()), old(iprot.input)), old(iprot.input), r, Value(), iprot.input)
      ensures r.Got? ==> r.value == (|old(iprot.input)| - |iprot.input|) % 0x1_0000_0000
      ensures forall a: Bytes, b: Bytes, c: Bytes, d: Bytes, e: Val, f: Bytes, g: Bytes, h: Bytes, i: Bytes,
        rest: Bytes |
        && |a| < 0x1_0000_0000
        && |b| < 0x1_0000_0000
        && |c| < 0x1_0000_0000
        && |d| < 0x1_0000_0000
        && HasType(VALID_DATE, e) && Writable(VALID_DATE, e)
        && |f| < 0x1_0000_0000
        && |g| < 0x1_0000_0000
        && |h| < 0x1_0000_0000
        && |i| < 0x1_0000_0000
        && old(iprot.input)
        == ([11, 0, 1] + SizeBytes(|a|) + a
         + [11, 0, 2] + SizeBytes(|b|) + b
         + [11, 0, 3] + SizeBytes(|c|) + c
         + [11, 0, 4] + SizeBytes(|d|) + d
         + [12, 0, 5] + ThriftCodec.Write(VALID_DATE, e)
         + [11, 0, 6] + SizeBytes(|f|) + f
         + [11, 0, 7] + SizeBytes(|g|) + g
         + [11, 0, 8] + SizeBytes(|h|) + h
         + [11, 0, 9] + SizeBytes(|i|) + i
         + [0]) + rest ::
        && r.Got? && iprot.input == rest && isset == BankCardIsset(true, true, true, true, true, true, true, true, true)
        && shortDescription == a && bankOwner == b && paySystem == c && number == d
           && vd.Value() == Stamp(VALID_DATE, e) && pinCode == f && cvvCode == g && holder == h && name == i
    {
      hide Count, ReadVal, HasType, CardVal, SizeBytes, ThriftCodec.Write, Writable, Stamp, ValidDate.Value;
      ghost var start, was := iprot.input, Value();
      forall a: Bytes, b: Bytes, c: Bytes, d: Bytes, e: Val, f: Bytes, g: Bytes, h: Bytes, i: Bytes, rest: Bytes |
        && |a| < 0x1_0000_0000
        && |b| < 0x1_0000_0000
        && |c| < 0x1_0000_0000
        && |d| < 0x1_0000_0000
        && HasType(VALID_DATE, e) && Writable(VALID_DATE, e)
        && |f| < 0x1_0000_0000
        && |g| < 0x1_0000_0000
        && |h| < 0x1_0000_0000
        && |i| < 0x1_0000_0000
        && start
        == ([11, 0, 1] + SizeBytes(|a|) + a
         + [11, 0, 2] + SizeBytes(|b|) + b
         + [11, 0, 3] + SizeBytes(|c|) + c
         + [11, 0, 4] + SizeBytes(|d|) + d
         + [12, 0, 5] + ThriftCodec.Write(VALID_DATE, e)
         + [11, 0, 6] + SizeBytes(|f|) + f
         + [11, 0, 7] + SizeBytes(|g|) + g
         + [11, 0, 8] + SizeBytes(|h|) + h
         + [11, 0, 9] + SizeBytes(|i|) + i
         + [0]) + rest
        ensures ReadVal(BANK_CARD, was, start)
             == Done(CardVal(VString(a), VString(b), VString(c), VString(d), Stamp(VALID_DATE, e), VString(f),
               VString(g), VString(h), VString(i),
                             BankCardIsset(true, true, true, true, true, true, true, true, true)), rest)
      {
        BankCardFromBytes(was, a, b, c, d, e, f, g, h, i, rest);
      }
      r := ReadLoop(iprot);
      forall a: Bytes, b: Bytes, c: Bytes, d: Bytes, e: Val, f: Bytes, g: Bytes, h: Bytes, i: Bytes |
        Value() == CardVal(VString(a), VString(b), VString(c), VString(d), e, VString(f), VString(g), VString(h),
          VString(i),
                           BankCardIsset(true, true, true, true, true, true, true, true, true))
        ensures isset == BankCardIsset(true, true, true, true, true, true, true, true, true)
        ensures shortDescription == a && bankOwner == b && paySystem == c && number == d && vd.Value() == e
        ensures pinCode == f && cvvCode == g && holder == h && name == i
      {
        SameCard(shortDescription, bankOwner, paySystem, number, vd.Value(), pinCode, cvvCode, holder, name, isset,
                 a, b, c, d, e, f, g, h, i, BankCardIsset(true, true, true, true, true, true, true, true, true));
      }
    }


    /** One text field, header and value, with the fields before it written and those behind it to come. */
    method WriteText(oprot: TProtocol, k: nat, text: Bytes, ghost start: Bytes, xfer: uint32) returns (next: uint32)
      requires k < 9 && k != 4 && Value().vals[k] == VString(text)
      requires Halfway(BANK_CARD_FIELDS, Value(), k, start, oprot.output, xfer)
      modifies oprot`output
      ensures Halfway(BANK_CARD_FIELDS, Value(), k + 1, start, oprot.output, next)
    {
      hide Count, Plus, ThriftCodec.Write, WriteFrom, I16Bytes, Halfway, HasType;
      ghost var last := oprot.output;
      var n := oprot.WriteFieldBegin(T_STRING, k + 1);
      var m := oprot.WriteString(text);
      HalfwayWritten(BANK_CARD_FIELDS, Value(), k, start, last, xfer, oprot.output);
      next := Plus(Plus(xfer, n), m);
    }

    method Write(oprot: TProtocol) returns (xfer: uint32)
      modifies oprot`output
      ensures oprot.output == old(oprot.output) + ThriftCodec.Write(BANK_CARD, Value())
      ensures xfer == Count(|ThriftCodec.Write(BANK_CARD, Value())|)
      ensures oprot.output
        == old(oprot.output)
         + ([11, 0, 1] + SizeBytes(|shortDescription|) + shortDescription
         + [11, 0, 2] + SizeBytes(|bankOwner|) + bankOwner
         + [11, 0, 3] + SizeBytes(|paySystem|) + paySystem
         + [11, 0, 4] + SizeBytes(|number|) + number
         + [12, 0, 5] + ThriftCodec.Write(VALID_DATE, vd.Value())
         + [11, 0, 6] + SizeBytes(|pinCode|) + pinCode
         + [11, 0, 7] + SizeBytes(|cvvCode|) + cvvCode
         + [11, 0, 8] + SizeBytes(|holder|) + holder
         + [11, 0, 9] + SizeBytes(|name|) + name
         + [0])
      ensures xfer == (|oprot.output| - |old(oprot.output)|) % 0x1_0000_0000
    {
      hide Count, Plus, ThriftCodec.Write, WriteFrom, I16Bytes, Halfway, HasType, SizeBytes, I32Bytes, CardVal;
      ghost var v, start := Value(), oprot.output;
      ValsOfCard(VString(shortDescription), VString(bankOwner), VString(paySystem), VString(number), vd.Value(),
                 VString(pinCode), VString(cvvCode), VString(holder), VString(name), isset);
      HalfwayStart(BANK_CARD_FIELDS, v, start);
      xfer := Count(0);
      xfer := WriteText(oprot, 0, shortDescription, start, xfer);
      xfer := WriteText(oprot, 1, bankOwner, start, xfer);
      xfer := WriteText(oprot, 2, paySystem, start, xfer);
      xfer := WriteText(oprot, 3, number, start, xfer);

      ghost var last, before := oprot.output, xfer;
      var n := oprot.WriteFieldBegin(T_STRUCT, 5);
      var m := vd.Write(oprot);
      HalfwayWritten(BANK_CARD_FIELDS, v, 4, start, last, before, oprot.output);
      xfer := Plus(Plus(xfer, n), m);

      xfer := WriteText(oprot, 5, pinCode, start, xfer);
      xfer := WriteText(oprot, 6, cvvCode, start, xfer);
      xfer := WriteText(oprot, 7, holder, start, xfer);
      xfer := WriteText(oprot, 8, name, start, xfer);

      HalfwayEnd(BANK_CARD_FIELDS, v, start, oprot.output, xfer);
      n := oprot.WriteFieldStop();
      xfer := Plus(xfer, n);
      CardValInBytes(shortDescription, bankOwner, paySystem, number, vd.Value(), pinCode, cvvCode, holder, name, isset);
      CountIsModulo(|oprot.output| - |start|);
    }
  }

  const RESP_BANK_CARD_FIELDS: seq<Field> := [Field(1, DGI_RESULT, false), Field(2, BANK_CARD, false)]
  const RESP_BANK_CARD: Ty := TStruct(RESP_BANK_CARD_FIELDS)

  datatype RespBankCardIsset = RespBankCardIsset(result: bool, cardInfo: bool)

  lemma RespBankCardSchema()
    ensures Plain(RESP_BANK_CARD)
  {
    hide Plain;
    PlainLeaves();
    DgiResultSchema();
    BankCardSchema();
    PlainStruct(RESP_BANK_CARD_FIELDS);
  }

  /** What is written for these members, in plain numbers. */
  lemma RespBankCardInBytes(result: Val, cardInfo: Val, isset: seq<bool>)
    requires |isset| == 2 && HasType(DGI_RESULT, result) && HasType(BANK_CARD, cardInfo)
    ensures Write(RESP_BANK_CARD, VStruct([result, cardInfo], isset))
         == [12, 0, 1] + Write(DGI_RESULT, result)
            + [12, 0, 2] + Write(BANK_CARD, cardInfo)
            + [0]
  {
    var v := VStruct([result, cardInfo], isset);
    hide Write, WriteFrom, SizeBytes, I32Bytes;
    assert HasType(RESP_BANK_CARD, v);
    hide HasType;
    var all := Write(RESP_BANK_CARD, v);
    WriteFromStart(RESP_BANK_CARD_FIELDS, v);
    StructInBytes(RESP_BANK_CARD_FIELDS, v, 0, all, [], 1, DGI_RESULT, result);
    var before1 := [12, 0, 1] + Write(DGI_RESULT, result);
    assert [] + [12, 0, 1] + Write(DGI_RESULT, result) == before1;
    StructInBytes(RESP_BANK_CARD_FIELDS, v, 1, all, before1, 2, BANK_CARD, cardInfo);
    var before2 := before1 + [12, 0, 2] + Write(BANK_CARD, cardInfo);
    WriteFromEnd(RESP_BANK_CARD_FIELDS, v);
  }

  /** What is read from such bytes. */
  lemma RespBankCardFromBytes(was: Val, result: Val, cardInfo: Val, rest: Bytes)
    requires HasType(RESP_BANK_CARD, was)
    requires HasType(DGI_RESULT, result) && Writable(DGI_RESULT, result)
    requires HasType(BANK_CARD, cardInfo) && Writable(BANK_CARD, cardInfo)
    ensures ReadVal(RESP_BANK_CARD, was,
              ([12, 0, 1] + Write(DGI_RESULT, result)
           + [12, 0, 2] + Write(BANK_CARD, cardInfo)
           + [0]) + rest)
         == Done(VStruct([Stamp(DGI_RESULT, result), Stamp(BANK_CARD, cardInfo)], [true, true]), rest)
  {
    var v := VStruct([result, cardInfo], [false, false]);
    RespBankCardInBytes(result, cardInfo, [false, false]);
    RespBankCardSchema();
    assert Writable(RESP_BANK_CARD, v);
    RoundTrip(RESP_BANK_CARD, was, v, rest);
    assert Stamp(RESP_BANK_CARD, v).vals == [Stamp(DGI_RESULT, result), Stamp(BANK_CARD, cardInfo)];
    assert Stamp(RESP_BANK_CARD, v).isset == [true, true];
  }

  class RespBankCard {
    const result: DgiResult
    const cardInfo: BankCard
    var isset: RespBankCardIsset

    ghost function Value(): (v: Val)
      reads this, result, cardInfo, cardInfo.vd
      ensures HasType(RESP_BANK_CARD, v)
    {
      VStruct([result.Value(), cardInfo.Value()], [isset.result, isset.cardInfo])
    }

    constructor ()
      ensures isset == RespBankCardIsset(false, false)
      ensures Value() == Default(RESP_BANK_CARD) && fresh(result) && fresh(cardInfo) && fresh(cardInfo.vd)
    {
      result := new DgiResult();
      cardInfo := new BankCard();
      isset := RespBankCardIsset(false, false);
      new;
      DefaultOfTwo(RESP_BANK_CARD_FIELDS);
    }

    /** A copy of a value. */
    constructor Of(v: Val)
      requires HasType(RESP_BANK_CARD, v)
      ensures Value() == v && fresh(result) && fresh(cardInfo) && fresh(cardInfo.vd)
    {
      assert HasType(RESP_BANK_CARD_FIELDS[0].ty, v.vals[0]) && HasType(RESP_BANK_CARD_FIELDS[1].ty, v.vals[1]);
      result := new DgiResult.Of(v.vals[0]);
      cardInfo := new BankCard.Of(v.vals[1]);
      isset := RespBankCardIsset(v.isset[0], v.isset[1]);
    }

    /** The switch of the field loop. */
    method ReadMember(iprot: TProtocol, ftype: byte, fid: i16) returns (r: Try<uint32>)
      modifies this, result, cardInfo, cardInfo.vd, iprot`input
      ensures Agrees(Turn(RESP_BANK_CARD_FIELDS, old(Value()), ftype, fid, old(iprot.input)),
                     old(iprot.input), r, Value(), iprot.input)
      ensures r.Got? ==>
        isset ==
          if fid == 1 && ftype == 12 then old(isset).(result := true)
          else if fid == 2 && ftype == 12 then old(isset).(cardInfo := true)
          else old(isset)
    {
      hide Count, ReadVal, Skip, Turn, HasType, Set, Default, DgiResult.Value, BankCard.Value;
      ghost var was, body := Value(), iprot.input;
      if fid == 1 && ftype == T_STRUCT {
        StoredTurn(RESP_BANK_CARD_FIELDS, was, 0, body);
        var n :- result.Read(iprot);
        isset := isset.(result := true);
        SetOfTwo(old(result.Value()), old(cardInfo.Value()), old(isset.result), old(isset.cardInfo), result.Value());
        return Got(n);
      } else if fid == 2 && ftype == T_STRUCT {
        StoredTurn(RESP_BANK_CARD_FIELDS, was, 1, body);
        var n :- cardInfo.Read(iprot);
        isset := isset.(cardInfo := true);
        SetOfTwo(old(result.Value()), old(cardInfo.Value()), old(isset.result), old(isset.cardInfo), cardInfo.Value());
        return Got(n);
      } else {
        SkippedTurn(RESP_BANK_CARD_FIELDS, was, ftype, fid, body);
        var n :- iprot.SkipValue(ftype);
        return Got(n);
      }
    }

    method Read(iprot: TProtocol) returns (r: Try<uint32>)
      modifies this, result, cardInfo, cardInfo.vd, iprot`input
      ensures Agrees(ReadVal(RESP_BANK_CARD, old(Value()), old(iprot.input)), old(iprot.input), r, Value(), iprot.input)
      ensures r.Got? ==> r.value == (|old(iprot.input)| - |iprot.input|) % 0x1_0000_0000
      ensures forall a: Val, b: Val, rest: Bytes |
        && HasType(DGI_RESULT, a) && Writable(DGI_RESULT, a)
        && HasType(BANK_CARD, b) && Writable(BANK_CARD, b)
        && old(iprot.input)
        == ([12, 0, 1] + ThriftCodec.Write(DGI_RESULT, a)
         + [12, 0, 2] + ThriftCodec.Write(BANK_CARD, b)
         + [0]) + rest ::
        && r.Got? && iprot.input == rest && isset == RespBankCardIsset(true, true)
        && result.Value() == Stamp(DGI_RESULT, a) && cardInfo.Value() == Stamp(BANK_CARD, b)
    {
      hide Count, Plus, ReadFields, ReadVal, Turn, ParseFieldBegin, HasType, DgiResult.Value, BankCard.Value,
        SizeBytes, I32Bytes, ThriftCodec.Write, Writable, Stamp;
      ghost var start, was := iprot.input, Value();
      forall a: Val, b: Val, rest: Bytes |
        && HasType(DGI_RESULT, a) && Writable(DGI_RESULT, a)
        && HasType(BANK_CARD, b) && Writable(BANK_CARD, b)
        && start
        == ([12, 0, 1] + ThriftCodec.Write(DGI_RESULT, a)
         + [12, 0, 2] + ThriftCodec.Write(BANK_CARD, b)
         + [0]) + rest
        ensures ReadVal(RESP_BANK_CARD, was, start)
             == Done(VStruct([Stamp(DGI_RESULT, a), Stamp(BANK_CARD, b)], [true, true]), rest)
      {
        RespBankCardFromBytes(was, a, b, rest);
      }
      LoopTurn(RESP_BANK_CARD_FIELDS, was, start);
      var xfer := Count(0);
      while true
        invariant ReadFields(RESP_BANK_CARD_FIELDS, Value(), iprot.input)
          == ReadFields(RESP_BANK_CARD_FIELDS, was, start)
        invariant |iprot.input| <= |start| && xfer == Count(|start| - |iprot.input|)
        decreases |iprot.input|
      {
        ghost var turn := iprot.input;
        LoopTurn(RESP_BANK_CARD_FIELDS, Value(), turn);
        var ftype, fid, n :- iprot.ReadFieldBegin();
        ghost var body := iprot.input;
        CountSum(|start| - |turn|, |turn| - |body|);
        xfer := Plus(xfer, n);
        if ftype == T_STOP {
          break;
        }
        var m :- ReadMember(iprot, ftype, fid);
        CountSum(|start| - |body|, |body| - |iprot.input|);
        xfer := Plus(xfer, m);
      }
      CountIsModulo(|start| - |iprot.input|);
      return Got(xfer);
    }

    method Write(oprot: TProtocol) returns (xfer: uint32)
      modifies oprot`output
      ensures oprot.output == old(oprot.output) + ThriftCodec.Write(RESP_BANK_CARD, Value())
      ensures xfer == Count(|ThriftCodec.Write(RESP_BANK_CARD, Value())|)
      ensures oprot.output
        == old(oprot.output)
         + ([12, 0, 1] + ThriftCodec.Write(DGI_RESULT, result.Value())
         + [12, 0, 2] + ThriftCodec.Write(BANK_CARD, cardInfo.Value())
         + [0])
      ensures xfer == (|oprot.output| - |old(oprot.output)|) % 0x1_0000_0000
    {
      hide Count, Plus, ThriftCodec.Write, WriteFrom, I16Bytes, Halfway, SizeBytes, I32Bytes;
      ghost var v, start, last := Value(), oprot.output, oprot.output;
      HalfwayStart(RESP_BANK_CARD_FIELDS, v, start);
      var n, m;
      xfer := Count(0);

      n := oprot.WriteFieldBegin(T_STRUCT, 1);
      m := result.Write(oprot);
      HalfwayWritten(RESP_BANK_CARD_FIELDS, v, 0, start, last, xfer, oprot.output);
      xfer := Plus(Plus(xfer, n), m);
      last := oprot.output;

      n := oprot.WriteFieldBegin(T_STRUCT, 2);
      m := cardInfo.Write(oprot);
      HalfwayWritten(RESP_BANK_CARD_FIELDS, v, 1, start, last, xfer, oprot.output);
      xfer := Plus(Plus(xfer, n), m);
      last := oprot.output;

      HalfwayEnd(RESP_BANK_CARD_FIELDS, v, start, oprot.output, xfer);
      n := oprot.WriteFieldStop();
      xfer := Plus(xfer, n);
      RespBankCardInBytes(result.Value(), cardInfo.Value(), [isset.result, isset.cardInfo]);
      CountIsModulo(|oprot.output| - |start|);
    }
  }

  /** An instance three levels down: after a reply has been read over another one, the month of its card is the last
      month that the stream has for it, and the old month if it has none. */
  lemma MonthOfReplyCard(was: Val, w: Wire)
    requires HasType(RESP_BANK_CARD, was) && Fits(RESP_BANK_CARD, w)
    ensures IsLeaf(RESP_BANK_CARD, [1, 4, 0]) && LeafType(RESP_BANK_CARD, [1, 4, 0]) == TI32
    ensures var ws := Mentions(RESP_BANK_CARD, [1, 4, 0], w);
      At(RESP_BANK_CARD, Merge(RESP_BANK_CARD, was, w), [1, 4, 0])
      == if ws == [] then At(RESP_BANK_CARD, was, [1, 4, 0]) else Merge(TI32, VI32(0), ws[|ws| - 1])
  {
    MonthIsLeaf();
    LeafMeaning(RESP_BANK_CARD, was, w, [1, 4, 0]);
  }

  lemma MonthIsLeaf()
    ensures IsLeaf(RESP_BANK_CARD, [1, 4, 0]) && LeafType(RESP_BANK_CARD, [1, 4, 0]) == TI32
  {
    var path: seq<nat> := [1, 4, 0];
    assert path[1..] == [4, 0] && path[1..][1..] == [0] && path[1..][1..][1..] == [];
    assert IsLeaf(TI32, path[1..][1..][1..]);
    assert IsLeaf(VALID_DATE, path[1..][1..]);
    assert IsLeaf(BANK_CARD, path[1..]);
  }
}
