/** The protocol object that the generated members are handed: a stream of bytes to read and a stream of bytes written.
  Its methods are the library's; their contracts say what the encoding says.  A thrown exception is the outcome Thrown.
*/
module ThriftProtocol {
  import opened Wrappers
  import opened ThriftWire
  import opened ThriftCodec
  import opened ThriftMessage
  import opened ThriftEncoding

  datatype Try<+T> = Thrown | Got(value: T) {
    predicate IsFailure() {
      Thrown?
    }

    function PropagateFailure<U>(): Try<U>
      requires Thrown?
    {
      Thrown
    }

    function Extract(): T
      requires Got?
    {
      value
    }
  }

  // Byte counts are 32-bit and wrap around.

  type uint32 = n: int | 0 <= n < 0x1_0000_0000

  function Count(n: nat): uint32 {
    n % 0x1_0000_0000
  }

  function Plus(a: uint32, b: uint32): uint32 {
    (a + b) % 0x1_0000_0000
  }

  /** Counts are exact up to multiples of 2^32. */
  lemma CountIsModulo(n: nat)
    ensures Count(n) == n % 0x1_0000_0000
    ensures n < 0x1_0000_0000 ==> Count(n) == n
  {
  }

  lemma CountSum(a: nat, b: nat)
    ensures Plus(Count(a), Count(b)) == Count(a + b)
  {
  }

  lemma FieldCount(before: nat, value: nat)
    ensures Plus(Plus(Count(before), Count(3)), Count(value)) == Count(before + 3 + value)
  {
    hide Plus, Count;
    CountSum(before, 3);
    CountSum(before + 3, value);
  }

  /** A reader did on the stream what the specification of the reader says. */
  ghost predicate Agrees(spec: Result, start: Bytes, r: Try<uint32>, val: Val, rest: Bytes) {
    match spec
    case Failed => r.Thrown?
    case Done(v, s) => val == v && rest == s && |s| <= |start| && r == Got(Count(|start| - |s|))
  }

  class TProtocol {
    var input: Bytes
    var output: Bytes

    constructor (input: Bytes)
      ensures this.input == input && output == []
    {
      this.input, this.output := input, [];
    }

    method WriteMessageBegin(name: Bytes, mtype: byte, seqid: i32)
      modifies this`output
      ensures output == old(output) + MessageBegin(name, mtype, seqid)
    {
      output := output + MessageBegin(name, mtype, seqid);
    }

    /** The header of the next message. */
    method ReadMessageBegin() returns (r: Try<Bytes>, mtype: byte, seqid: i32)
      modifies this`input
      ensures var head := ThriftMessage.ReadMessageBegin(old(input));
        if head.NoHead? then r.Thrown?
        else r == Got(head.name) && mtype == head.mtype && seqid == head.seqid && input == head.rest
    {
      match ThriftMessage.ReadMessageBegin(input)
      case NoHead => return Thrown, 0, 0;
      case Head(name, ty, id, rest) =>
        input := rest;
        return Got(name), ty, id;
    }

    /** The header of the next field; its type is T_STOP at the end of a struct. */
    method ReadFieldBegin() returns (r: Try<byte>, id: i16, n: uint32)
      modifies this`input
      ensures var spec := ParseFieldBegin(old(input));
        if spec.Broken? then r.Thrown?
        else input == spec.rest && n == Count(|old(input)| - |input|)
             && r == Got(if spec.Stop? then T_STOP else spec.ty) && (spec.Header? ==> id == spec.id)
    {
      if |input| == 0 {
        return Thrown, 0, 0;
      }
      var ty := input[0];
      if ty == T_STOP {
        input := input[1..];
        return Got(T_STOP), 0, 1;
      }
      if |input| < 3 {
        return Thrown, 0, 0;
      }
      id := I16Of(input[1..3]);
      input := input[3..];
      return Got(ty), id, 3;
    }

    method ReadBool() returns (r: Try<bool>, n: uint32)
      modifies this`input
      ensures var spec := ReadVal(TBool, Default(TBool), old(input));
        if spec.Failed? then r.Thrown?
        else input == spec.rest && r == Got(spec.val.b) && n == Count(|old(input)| - |input|)
    {
      if |input| < 1 {
        return Thrown, 0;
      }
      var v := input[0] != 0;
      input := input[1..];
      return Got(v), 1;
    }

    method ReadI32() returns (r: Try<i32>, n: uint32)
      modifies this`input
      ensures var spec := ReadVal(TI32, Default(TI32), old(input));
        if spec.Failed? then r.Thrown?
        else input == spec.rest && r == Got(spec.val.n) && n == Count(|old(input)| - |input|)
    {
      if |input| < 4 {
        return Thrown, 0;
      }
      var v := I32Of(input[..4]);
      input := input[4..];
      return Got(v), 4;
    }

    method ReadString() returns (r: Try<Bytes>, n: uint32)
      modifies this`input
      ensures var spec := ReadVal(TString, Default(TString), old(input));
        if spec.Failed? then r.Thrown?
        else input == spec.rest && r == Got(spec.val.text) && n == Count(|old(input)| - |input|)
    {
      if |input| < 4 {
        return Thrown, 0;
      }
      var size := Unsigned(input[..4]);
      if |input| < 4 + size {
        return Thrown, 0;
      }
      var text := input[4..4 + size];
      input := input[4 + size..];
      return Got(text), Count(4 + size);
    }

    /** The element type and the number of elements of a list. */
    method ReadListBegin() returns (r: Try<byte>, size: uint32, n: uint32)
      modifies this`input
      ensures if |old(input)| < 5 then r.Thrown?
        else r == Got(old(input)[0]) && size == Unsigned(old(input)[1..5]) && n == Count(5) && input == old(input)[5..]
    {
      if |input| < 5 {
        return Thrown, 0, 0;
      }
      UnsignedBound(input[1..5]);
      Powers();
      var ty := input[0];
      size := Unsigned(input[1..5]);
      input := input[5..];
      return Got(ty), size, 5;
    }

    method SkipValue(ty: byte) returns (r: Try<uint32>)
      modifies this`input
      ensures var spec := Skip(ty, old(input));
        if spec.None? then r.Thrown?
        else input == spec.value && r == Got(Count(|old(input)| - |input|))
    {
      match Skip(ty, input)
      case None => return Thrown;
      case Some(rest) =>
        var n := Count(|input| - |rest|);
        input := rest;
        return Got(n);
    }

    method WriteFieldBegin(ty: byte, id: i16) returns (n: uint32)
      modifies this`output
      ensures output == old(output) + ([ty] + I16Bytes(id)) && n == Count(3)
    {
      output := output + ([ty] + I16Bytes(id));
      n := 3;
    }

    method WriteFieldStop() returns (n: uint32)
      modifies this`output
      ensures output == old(output) + [T_STOP] && n == Count(1)
    {
      output := output + [T_STOP];
      n := 1;
    }

    method WriteBool(b: bool) returns (n: uint32)
      modifies this`output
      ensures output == old(output) + Write(TBool, VBool(b)) && n == Count(|Write(TBool, VBool(b))|)
    {
      output := output + [if b then 1 else 0];
      n := 1;
    }

    method WriteI32(v: i32) returns (n: uint32)
      modifies this`output
      ensures output == old(output) + Write(TI32, VI32(v)) && n == Count(|Write(TI32, VI32(v))|)
    {
      output := output + I32Bytes(v);
      n := 4;
    }

    method WriteString(text: Bytes) returns (n: uint32)
      modifies this`output
      ensures output == old(output) + Write(TString, VString(text)) && n == Count(|Write(TString, VString(text))|)
    {
      output := output + (SizeBytes(|text|) + text);
      n := Count(4 + |text|);
    }

    method WriteListBegin(etype: byte, size: nat) returns (n: uint32)
      modifies this`output
      ensures output == old(output) + ([etype] + SizeBytes(size)) && n == Count(5)
    {
      output := output + ([etype] + SizeBytes(size));
      n := 5;
    }
  }

  /** The library's application exception. */
  class TApplicationException {
    var message: Bytes
    var kind: i32

    constructor (message: Bytes, kind: i32)
      ensures this.message == message && this.kind == kind
    {
      this.message, this.kind := message, kind;
    }

    method Read(iprot: TProtocol) returns (r: Try<uint32>)
      modifies this, iprot`input
      ensures var spec := ReadVal(APPLICATION_EXCEPTION, ExceptionVal(old(message), old(kind)), old(iprot.input));
        if spec.Failed? then r.Thrown?
        else (message, kind) == ExceptionParts(spec.val) && iprot.input == spec.rest
             && r == Got(Count(|old(iprot.input)| - |iprot.input|))
    {
      match ReadVal(APPLICATION_EXCEPTION, ExceptionVal(message, kind), iprot.input)
      case Failed => return Thrown;
      case Done(x, rest) =>
        var n := Count(|iprot.input| - |rest|);
        var parts := ExceptionParts(x);
        message, kind := parts.0, parts.1;
        iprot.input := rest;
        return Got(n);
    }

    method Write(oprot: TProtocol) returns (xfer: uint32)
      modifies oprot`output
      ensures oprot.output == old(oprot.output) + ThriftCodec.Write(APPLICATION_EXCEPTION, ExceptionVal(message, kind))
      ensures xfer == Count(|ThriftCodec.Write(APPLICATION_EXCEPTION, ExceptionVal(message, kind))|)
    {
      var s := ThriftCodec.Write(APPLICATION_EXCEPTION, ExceptionVal(message, kind));
      oprot.output := oprot.output + s;
      xfer := Count(|s|);
    }
  }

  lemma DefaultException()
    ensures Default(APPLICATION_EXCEPTION) == ExceptionVal([], 0)
  {
    DefaultOfTwo(APPLICATION_EXCEPTION.fields);
  }

  lemma DefaultOfOne(fs: seq<Field>)
    requires |fs| == 1
    ensures Default(TStruct(fs)) == VStruct([Default(fs[0].ty)], [false])
  {
    assert fs[1..] == [];
    assert Defaults(fs) == [Default(fs[0].ty)];
  }

  lemma DefaultOfTwo(fs: seq<Field>)
    requires |fs| == 2
    ensures Default(TStruct(fs)) == VStruct([Default(fs[0].ty), Default(fs[1].ty)], [false, false])
  {
    assert fs[1..][1..] == [];
    assert Defaults(fs[1..]) == [Default(fs[1].ty)];
    assert Defaults(fs) == [Default(fs[0].ty), Default(fs[1].ty)];
  }

  lemma DefaultOfThree(fs: seq<Field>)
    requires |fs| == 3
    ensures Default(TStruct(fs))
      == VStruct([Default(fs[0].ty), Default(fs[1].ty), Default(fs[2].ty)], [false, false, false])
  {
    DefaultOfTwo(fs[1..]);
    assert Defaults(fs) == [Default(fs[0].ty), Default(fs[1].ty), Default(fs[2].ty)];
  }

  lemma {:induction false} DefaultAt(fs: seq<Field>, k: nat)
    requires k < |fs|
    ensures Defaults(fs)[k] == Default(fs[k].ty)
  {
    if k > 0 {
      DefaultAt(fs[1..], k - 1);
    }
  }

  // -------------------------------------------------------------------------------------------------------------
  // Steps of a field loop and of a sequence of field writes
  // -------------------------------------------------------------------------------------------------------------

  /** One turn of a field loop after the header has been read: the switch on the field id. */
  function Turn(fs: seq<Field>, was: Val, ftype: byte, fid: i16, body: Bytes): (r: Result)
    requires HasType(TStruct(fs), was)
    ensures r.Done? ==> HasType(TStruct(fs), r.val) && |r.rest| < |body|
  {
    var i := Target(fs, fid, ftype);
    if i < |fs| then
      match ReadVal(fs[i].ty, was.vals[i], body)
      case Failed => Failed
      case Done(v, rest) => Done(Set(was, i, v), rest)
    else
      match Skip(ftype, body)
      case None => Failed
      case Some(rest) => Done(was, rest)
  }

  /** A field loop is a turn after each header. */
  lemma LoopTurn(fs: seq<Field>, was: Val, s: Bytes)
    requires HasType(TStruct(fs), was)
    ensures ReadVal(TStruct(fs), was, s) == ReadFields(fs, was, s)
    ensures var head := ParseFieldBegin(s);
      && (head.Broken? ==> ReadFields(fs, was, s) == Failed)
      && (head.Stop? ==> ReadFields(fs, was, s) == Done(was, head.rest))
      && (head.Header? ==>
            var t := Turn(fs, was, head.ty, head.id, head.rest);
            ReadFields(fs, was, s) == if t.Failed? then Failed else ReadFields(fs, t.val, t.rest))
  {
  }

  /** A turn that stores a member which is not a list or a struct: the member's old value does not matter. */
  lemma LeafTurn(fs: seq<Field>, was: Val, i: nat, body: Bytes)
    requires HasType(TStruct(fs), was) && i < |fs| && (forall j | 0 <= j < i :: fs[j].id != fs[i].id)
    requires !fs[i].ty.TStruct? && !fs[i].ty.TList?
    ensures var spec := ReadVal(fs[i].ty, Default(fs[i].ty), body);
      && Turn(fs, was, WireType(fs[i].ty), fs[i].id, body)
         == (if spec.Failed? then Failed else Done(Set(was, i, spec.val), spec.rest))
      && (spec.Done? && fs[i].ty.TBool? ==> spec.val.VBool?)
      && (spec.Done? && fs[i].ty.TI32? ==> spec.val.VI32?)
      && (spec.Done? && fs[i].ty.TString? ==> spec.val.VString?)
  {
    assert Target(fs, fs[i].id, WireType(fs[i].ty)) == i;
  }

  /** A turn that stores a member. */
  lemma StoredTurn(fs: seq<Field>, was: Val, i: nat, body: Bytes)
    requires HasType(TStruct(fs), was) && i < |fs| && (forall j | 0 <= j < i :: fs[j].id != fs[i].id)
    ensures var spec := ReadVal(fs[i].ty, was.vals[i], body);
      Turn(fs, was, WireType(fs[i].ty), fs[i].id, body)
        == if spec.Failed? then Failed else Done(Set(was, i, spec.val), spec.rest)
  {
    assert Target(fs, fs[i].id, WireType(fs[i].ty)) == i;
  }

  /** A turn that stores a list: the old list does not matter. */
  lemma ListTurnStored(fs: seq<Field>, was: Val, i: nat, body: Bytes)
    requires HasType(TStruct(fs), was) && i < |fs| && fs[i].ty.TList? && (forall j | 0 <= j < i :: fs[j].id != fs[i].id)
    ensures var spec := ReadVal(fs[i].ty, VList([]), body);
      Turn(fs, was, WireType(fs[i].ty), fs[i].id, body)
        == if spec.Failed? then Failed else Done(Set(was, i, spec.val), spec.rest)
  {
    assert Target(fs, fs[i].id, WireType(fs[i].ty)) == i;
  }

  /** A turn that skips. */
  lemma SkippedTurn(fs: seq<Field>, was: Val, ftype: byte, fid: i16, body: Bytes)
    requires HasType(TStruct(fs), was)
    requires forall j | 0 <= j < |fs| :: fs[j].id != fid || WireType(fs[j].ty) != ftype
    ensures var spec := Skip(ftype, body);
      Turn(fs, was, ftype, fid, body) == if spec.None? then Failed else Done(was, spec.value)
  {
  }

  lemma SetOfOne(a: Val, p: bool, x: Val)
    ensures Set(VStruct([a], [p]), 0, x) == VStruct([x], [true])
  {
  }

  lemma SetOfTwo(a: Val, b: Val, p: bool, q: bool, x: Val)
    ensures Set(VStruct([a, b], [p, q]), 0, x) == VStruct([x, b], [true, q])
    ensures Set(VStruct([a, b], [p, q]), 1, x) == VStruct([a, x], [p, true])
  {
  }

  lemma SetOfThree(a: Val, b: Val, c: Val, p: bool, q: bool, r: bool, x: Val)
    ensures Set(VStruct([a, b, c], [p, q, r]), 0, x) == VStruct([x, b, c], [true, q, r])
    ensures Set(VStruct([a, b, c], [p, q, r]), 1, x) == VStruct([a, x, c], [p, true, r])
    ensures Set(VStruct([a, b, c], [p, q, r]), 2, x) == VStruct([a, b, x], [p, q, true])
  {
  }

  /** The bytes of the fields of a struct from position k on, with the final stop. */
  function WriteFrom(fs: seq<Field>, v: Val, k: nat): Bytes
    requires HasType(TStruct(fs), v) && k <= |fs|
  {
    EncodeFields(FieldsToWire(fs, v.vals, v.isset, k)) + [T_STOP]
  }

  lemma WriteFromStart(fs: seq<Field>, v: Val)
    requires HasType(TStruct(fs), v)
    ensures WriteFrom(fs, v, 0) == Write(TStruct(fs), v)
  {
  }

  lemma WriteFromEnd(fs: seq<Field>, v: Val)
    requires HasType(TStruct(fs), v)
    ensures WriteFrom(fs, v, |fs|) == [T_STOP]
  {
  }

  lemma WriteFromWritten(fs: seq<Field>, v: Val, k: nat)
    requires HasType(TStruct(fs), v) && k < |fs| && IsWritten(fs[k], v.isset[k])
    ensures WriteFrom(fs, v, k)
         == ([WireType(fs[k].ty)] + I16Bytes(fs[k].id)) + Write(fs[k].ty, v.vals[k]) + WriteFrom(fs, v, k + 1)
  {
    var f := WireField(fs[k].id, ToWire(fs[k].ty, v.vals[k]));
    var tail := FieldsToWire(fs, v.vals, v.isset, k + 1);
    assert FieldsToWire(fs, v.vals, v.isset, k) == [f] + tail;
    assert ([f] + tail)[1..] == tail;
    assert EncodeFields([f] + tail) == EncodeField(f) + EncodeFields(tail);
  }

  function BoolByte(b: bool): (x: byte)
    ensures x <= 1 && (x == 1 <==> b)
  {
    if b then 1 else 0
  }

  /** Fields that are written, with their headers in plain numbers. */
  lemma FieldInBytes(fs: seq<Field>, v: Val, k: nat, f: Field, x: Val)
    requires HasType(TStruct(fs), v) && k < |fs| && fs[k] == f && v.vals[k] == x
    requires 0 <= f.id < 256 && !f.guarded
    ensures HasType(f.ty, x)
      && WriteFrom(fs, v, k) == [WireType(f.ty), 0, f.id] + Write(f.ty, x) + WriteFrom(fs, v, k + 1)
  {
    WriteFromWritten(fs, v, k);
    FieldIdInBytes(f.id);
  }

  lemma BoolInBytes(fs: seq<Field>, v: Val, k: nat, all: Bytes, before: Bytes, id: i16, b: bool)
    requires HasType(TStruct(fs), v) && k < |fs| && fs[k] == Field(id, TBool, false) && 0 <= id < 256
    requires v.vals[k] == VBool(b) && all == before + WriteFrom(fs, v, k)
    ensures all == before + [2, 0, id] + [if b then 1 else 0] + WriteFrom(fs, v, k + 1)
  {
    FieldInBytes(fs, v, k, Field(id, TBool, false), VBool(b));
    var tail := WriteFrom(fs, v, k + 1);
    hide WriteFrom, HasType, SizeBytes, I32Bytes;
    assert before + ([2, 0, id] + [if b then 1 else 0] + tail) == before + [2, 0, id] + [if b then 1 else 0] + tail;
  }

  lemma I32InBytes(fs: seq<Field>, v: Val, k: nat, all: Bytes, before: Bytes, id: i16, n: i32)
    requires HasType(TStruct(fs), v) && k < |fs| && fs[k] == Field(id, TI32, false) && 0 <= id < 256
    requires v.vals[k] == VI32(n) && all == before + WriteFrom(fs, v, k)
    ensures all == before + [8, 0, id] + I32Bytes(n) + WriteFrom(fs, v, k + 1)
  {
    FieldInBytes(fs, v, k, Field(id, TI32, false), VI32(n));
    var tail := WriteFrom(fs, v, k + 1);
    hide WriteFrom, HasType, SizeBytes, I32Bytes;
    assert before + ([8, 0, id] + I32Bytes(n) + tail) == before + [8, 0, id] + I32Bytes(n) + tail;
  }

  lemma TextInBytes(fs: seq<Field>, v: Val, k: nat, all: Bytes, before: Bytes, id: i16, text: Bytes)
    requires HasType(TStruct(fs), v) && k < |fs| && fs[k] == Field(id, TString, false) && 0 <= id < 256
    requires v.vals[k] == VString(text) && all == before + WriteFrom(fs, v, k)
    ensures all == before + [11, 0, id] + SizeBytes(|text|) + text + WriteFrom(fs, v, k + 1)
  {
    FieldInBytes(fs, v, k, Field(id, TString, false), VString(text));
    var tail := WriteFrom(fs, v, k + 1);
    hide WriteFrom, HasType, SizeBytes, I32Bytes;
    assert before + ([11, 0, id] + (SizeBytes(|text|) + text) + tail)
        == before + [11, 0, id] + SizeBytes(|text|) + text + tail;
  }

  lemma StructInBytes(fs: seq<Field>, v: Val, k: nat, all: Bytes, before: Bytes, id: i16, ty: Ty, x: Val)
    requires HasType(TStruct(fs), v) && k < |fs| && fs[k] == Field(id, ty, false) && 0 <= id < 256 && ty.TStruct?
    requires v.vals[k] == x && all == before + WriteFrom(fs, v, k)
    ensures HasType(ty, x) && all == before + [12, 0, id] + Write(ty, x) + WriteFrom(fs, v, k + 1)
  {
    FieldInBytes(fs, v, k, Field(id, ty, false), x);
    var tail := WriteFrom(fs, v, k + 1);
    hide WriteFrom, HasType, SizeBytes, I32Bytes;
    hide Write;
    assert before + ([12, 0, id] + Write(ty, x) + tail) == before + [12, 0, id] + Write(ty, x) + tail;
  }

  lemma ListInBytes(fs: seq<Field>, v: Val, k: nat, all: Bytes, before: Bytes, id: i16, ty: Ty, x: Val)
    requires HasType(TStruct(fs), v) && k < |fs| && fs[k] == Field(id, ty, false) && 0 <= id < 256 && ty.TList?
    requires v.vals[k] == x && all == before + WriteFrom(fs, v, k)
    ensures HasType(ty, x) && all == before + [15, 0, id] + Write(ty, x) + WriteFrom(fs, v, k + 1)
  {
    FieldInBytes(fs, v, k, Field(id, ty, false), x);
    var tail := WriteFrom(fs, v, k + 1);
    hide WriteFrom, HasType, SizeBytes, I32Bytes;
    hide Write;
    assert before + ([15, 0, id] + Write(ty, x) + tail) == before + [15, 0, id] + Write(ty, x) + tail;
  }

  /** The fields before position k of a struct have been written after start, and counted; the others are to come. */
  ghost predicate Halfway(fs: seq<Field>, v: Val, k: nat, start: Bytes, output: Bytes, xfer: uint32) {
    && HasType(TStruct(fs), v) && k <= |fs| && |start| <= |output|
    && output + WriteFrom(fs, v, k) == start + Write(TStruct(fs), v)
    && xfer == Count(|output| - |start|)
  }

  lemma HalfwayStart(fs: seq<Field>, v: Val, start: Bytes)
    requires HasType(TStruct(fs), v)
    ensures Halfway(fs, v, 0, start, start, Count(0))
  {
    WriteFromStart(fs, v);
  }

  /** Writing a header and a value goes one field further. */
  lemma HalfwayWritten(fs: seq<Field>, v: Val, k: nat, start: Bytes, last: Bytes, xfer: uint32, output: Bytes)
    requires Halfway(fs, v, k, start, last, xfer) && k < |fs| && IsWritten(fs[k], v.isset[k])
    requires output == last + ([WireType(fs[k].ty)] + I16Bytes(fs[k].id)) + Write(fs[k].ty, v.vals[k])
    ensures Halfway(fs, v, k + 1, start, output, Plus(Plus(xfer, Count(3)), Count(|Write(fs[k].ty, v.vals[k])|)))
  {
    hide Write, WriteFrom, I16Bytes, Count, Plus;
    WriteFromWritten(fs, v, k);
    FieldCount(|last| - |start|, |Write(fs[k].ty, v.vals[k])|);
    var header, value, tail := [WireType(fs[k].ty)] + I16Bytes(fs[k].id), Write(fs[k].ty, v.vals[k]),
      WriteFrom(fs, v, k + 1);
    assert last + header + value + tail == last + (header + value + tail);
  }

  /** Not writing a guarded field whose flag is off goes one field further too. */
  lemma HalfwayUnwritten(fs: seq<Field>, v: Val, k: nat, start: Bytes, output: Bytes, xfer: uint32)
    requires Halfway(fs, v, k, start, output, xfer) && k < |fs| && !IsWritten(fs[k], v.isset[k])
    ensures Halfway(fs, v, k + 1, start, output, xfer)
  {
    assert FieldsToWire(fs, v.vals, v.isset, k) == FieldsToWire(fs, v.vals, v.isset, k + 1);
  }

  /** The final stop completes the struct. */
  lemma HalfwayEnd(fs: seq<Field>, v: Val, start: Bytes, output: Bytes, xfer: uint32)
    requires Halfway(fs, v, |fs|, start, output, xfer)
    ensures output + [T_STOP] == start + Write(TStruct(fs), v)
    ensures Plus(xfer, Count(1)) == Count(|Write(TStruct(fs), v)|)
  {
    hide Write, Count, Plus, HasType;
    WriteFromEnd(fs, v);
    CountSum(|output| - |start|, 1);
    assert |output + [T_STOP]| == |start| + |Write(TStruct(fs), v)|;
  }

  /** An application exception in plain numbers. */
  lemma ExceptionInBytes(text: Bytes, kind: i32)
    ensures Write(APPLICATION_EXCEPTION, ExceptionVal(text, kind))
         == [11, 0, 1] + SizeBytes(|text|) + text + [8, 0, 2] + I32Bytes(kind) + [0]
  {
    var fs, v := APPLICATION_EXCEPTION.fields, ExceptionVal(text, kind);
    hide Write, WriteFrom, SizeBytes, I32Bytes;
    assert HasType(APPLICATION_EXCEPTION, v);
    hide HasType;
    var all := Write(APPLICATION_EXCEPTION, v);
    WriteFromStart(fs, v);
    TextInBytes(fs, v, 0, all, [], 1, text);
    var before := [11, 0, 1] + SizeBytes(|text|) + text;
    assert [] + [11, 0, 1] + SizeBytes(|text|) + text == before;
    I32InBytes(fs, v, 1, all, before, 2, kind);
    WriteFromEnd(fs, v);
  }

  // -------------------------------------------------------------------------------------------------------------
  // Steps of an element loop
  // -------------------------------------------------------------------------------------------------------------

  lemma ListStart(elem: Ty, was: Val, s: Bytes)
    requires HasType(TList(elem), was)
    ensures ReadVal(TList(elem), was, s) == if |s| < 5 then Failed else ReadElems(elem, Unsigned(s[1..5]), [], s[5..])
  {
  }

  lemma ListTurn(elem: Ty, n: nat, done: seq<Val>, s: Bytes)
    requires forall x <- done :: HasType(elem, x)
    ensures n == 0 ==> ReadElems(elem, n, done, s) == Done(VList(done), s)
    ensures n > 0 ==>
      var spec := ReadVal(elem, Default(elem), s);
      ReadElems(elem, n, done, s)
        == if spec.Failed? then Failed else ReadElems(elem, n - 1, done + [spec.val], spec.rest)
  {
  }

  /** The bytes of some list elements, without the list header. */
  function WriteElems(elem: Ty, vs: seq<Val>): Bytes
    requires forall x <- vs :: HasType(elem, x)
  {
    EncodeElems(ElemsToWire(elem, vs))
  }

  lemma WriteElemsEmpty(elem: Ty)
    ensures WriteElems(elem, []) == []
  {
  }

  lemma {:induction false} WriteElemsAppend(elem: Ty, vs: seq<Val>, v: Val)
    requires (forall x <- vs :: HasType(elem, x)) && HasType(elem, v)
    ensures WriteElems(elem, vs + [v]) == WriteElems(elem, vs) + Write(elem, v)
  {
    if |vs| == 0 {
      assert vs + [v] == [v];
      assert [v][1..] == [];
      assert ElemsToWire(elem, [v]) == [ToWire(elem, v)];
      assert EncodeElems([ToWire(elem, v)]) == Write(elem, v) + EncodeElems([ToWire(elem, v)][1..]);
    } else {
      assert (vs + [v])[1..] == vs[1..] + [v];
      WriteElemsAppend(elem, vs[1..], v);
      var ws, tail := ElemsToWire(elem, vs + [v]), ElemsToWire(elem, vs[1..] + [v]);
      assert ws == [ToWire(elem, vs[0])] + tail;
      assert ws[1..] == tail;
      var us := ElemsToWire(elem, vs);
      assert us[1..] == ElemsToWire(elem, vs[1..]);
    }
  }

  lemma ListHasType(elem: Ty, vs: seq<Val>)
    requires forall x <- vs :: HasType(elem, x)
    ensures HasType(TList(elem), VList(vs))
  {
  }

  lemma WriteList(elem: Ty, vs: seq<Val>)
    requires forall x <- vs :: HasType(elem, x)
    ensures Write(TList(elem), VList(vs)) == [WireType(elem)] + SizeBytes(|vs|) + WriteElems(elem, vs)
  {
  }
}
