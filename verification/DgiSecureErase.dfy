/** The request with an unbounded list of objects to erase, as the server reads it and as the client writes it. */
module DgiSecureErase {
  import opened ThriftWire
  import opened ThriftCodec
  import opened ThriftLaws
  import opened ThriftProtocol
  import opened DgiSecureEraseTypes

  const ERASE_FILES_FIELDS: seq<Field> := [Field(1, TList(ERASE_OBJECT), false)]
  const ERASE_FILES: Ty := TStruct(ERASE_FILES_FIELDS)

  /** The elements of a vector are distinct objects. */
  ghost predicate Separate(objects: seq<EraseObject>) {
    forall i, j | 0 <= i < j < |objects| :: objects[i] != objects[j]
  }

  ghost function Values(objects: seq<EraseObject>): (vs: seq<Val>)
    reads objects
    ensures |vs| == |objects| && forall x <- vs :: HasType(ERASE_OBJECT, x)
  {
    seq(|objects|, i requires 0 <= i < |objects| reads objects =>
          assert objects[i] in objects; objects[i].Value())
  }

  twostate lemma ValuesUnchanged(objects: seq<EraseObject>)
    requires forall x <- objects :: unchanged(x)
    ensures Values(objects) == old(Values(objects))
  {
    forall k | 0 <= k < |objects| ensures objects[k].Value() == old(objects[k].Value()) {
      assert objects[k] in objects;
    }
  }

  /** A vector of n default elements. */
  method Resize(n: nat) returns (objects: seq<EraseObject>)
    ensures |objects| == n && Separate(objects) && forall x <- objects :: fresh(x)
    ensures forall x <- objects :: x.Value() == Default(ERASE_OBJECT)
  {
    objects := [];
    while |objects| < n
      invariant |objects| <= n && Separate(objects) && forall x <- objects :: fresh(x)
      invariant forall x <- objects :: x.Value() == Default(ERASE_OBJECT)
    {
      var x := new EraseObject();
      objects := objects + [x];
    }
  }

  /** The first elements of a vector have been read, with the given results; the others are still defaults. */
  ghost predicate Progress(objects: seq<EraseObject>, done: seq<Val>)
    reads objects
  {
    && |done| <= |objects|
    && (forall k | 0 <= k < |done| :: objects[k] in objects && objects[k].Value() == done[k])
    && (forall k | |done| <= k < |objects| :: objects[k] in objects && objects[k].Value() == Default(ERASE_OBJECT))
  }

  lemma NothingRead(objects: seq<EraseObject>)
    requires forall x <- objects :: x.Value() == Default(ERASE_OBJECT)
    ensures Progress(objects, [])
  {
  }

  lemma AllRead(objects: seq<EraseObject>, done: seq<Val>)
    requires Progress(objects, done) && |done| == |objects|
    ensures Values(objects) == done
  {
  }

  /** Reads the next element in place, which leaves the others alone. */
  method ReadElement(objects: seq<EraseObject>, ghost done: seq<Val>, i: nat, iprot: TProtocol) returns (r: Try<uint32>)
    requires i == |done| < |objects| && Separate(objects) && Progress(objects, done)
    modifies objects[i], iprot`input
    ensures Agrees(ReadVal(ERASE_OBJECT, Default(ERASE_OBJECT), old(iprot.input)),
                   old(iprot.input), r, objects[i].Value(), iprot.input)
    ensures Progress(objects, done + [objects[i].Value()])
  {
    hide Count, ReadVal, Default;
    r := objects[i].Read(iprot);
    assert forall k | 0 <= k < |objects| && k != i :: objects[k].Value() == old(objects[k].Value());
  }

  lemma EraseFilesSchema()
    ensures Plain(ERASE_FILES)
  {
    hide Plain;
    PlainLeaves();
    EraseObjectSchema();
    PlainList(ERASE_OBJECT);
    PlainStruct(ERASE_FILES_FIELDS);
  }

  /** What is written for these members, in plain numbers. */
  lemma EraseFilesInBytes(toErase: Val, isset: seq<bool>)
    requires |isset| == 1 && HasType(TList(ERASE_OBJECT), toErase)
    ensures Write(ERASE_FILES, VStruct([toErase], isset))
         == [15, 0, 1] + Write(TList(ERASE_OBJECT), toErase)
            + [0]
  {
    var v := VStruct([toErase], isset);
    hide Write, WriteFrom, SizeBytes, I32Bytes;
    assert HasType(ERASE_FILES, v);
    hide HasType;
    var all := Write(ERASE_FILES, v);
    WriteFromStart(ERASE_FILES_FIELDS, v);
    ListInBytes(ERASE_FILES_FIELDS, v, 0, all, [], 1, TList(ERASE_OBJECT), toErase);
    var before1 := [15, 0, 1] + Write(TList(ERASE_OBJECT), toErase);
    assert [] + [15, 0, 1] + Write(TList(ERASE_OBJECT), toErase) == before1;
    WriteFromEnd(ERASE_FILES_FIELDS, v);
  }

  /** What is read from such bytes. */
  lemma EraseFilesFromBytes(was: Val, toErase: Val, rest: Bytes)
    requires HasType(ERASE_FILES, was)
    requires HasType(TList(ERASE_OBJECT), toErase) && Writable(TList(ERASE_OBJECT), toErase)
    ensures ReadVal(ERASE_FILES, was,
              ([15, 0, 1] + Write(TList(ERASE_OBJECT), toErase)
           + [0]) + rest)
         == Done(VStruct([Stamp(TList(ERASE_OBJECT), toErase)], [true]), rest)
  {
    var v := VStruct([toErase], [false]);
    EraseFilesInBytes(toErase, [false]);
    EraseFilesSchema();
    assert Writable(ERASE_FILES, v);
    RoundTrip(ERASE_FILES, was, v, rest);
    assert Stamp(ERASE_FILES, v).vals == [Stamp(TList(ERASE_OBJECT), toErase)];
    assert Stamp(ERASE_FILES, v).isset == [true];
  }

  /** The request as the server reads it. */
  class EraseFilesArgs {
    var toErase: seq<EraseObject>
    var isset: bool

    ghost function Value(): (v: Val)
      reads this, toErase
      ensures HasType(ERASE_FILES, v)
    {
      VStruct([VList(Values(toErase))], [isset])
    }

    constructor ()
      ensures toErase == [] && !isset
      ensures Value() == Default(ERASE_FILES)
    {
      toErase, isset := [], false;
      new;
      DefaultOfOne(ERASE_FILES_FIELDS);
    }

    /** Clears the list, reads its size, makes that many default elements and reads each of them in place. */
    method ReadToErase(iprot: TProtocol) returns (r: Try<uint32>)
      modifies this`toErase, iprot`input
      ensures Agrees(ReadVal(TList(ERASE_OBJECT), VList([]), old(iprot.input)),
                     old(iprot.input), r, VList(Values(toErase)), iprot.input)
      ensures r.Got? ==> |old(iprot.input)| >= 5 && |toErase| == Unsigned(old(iprot.input)[1..5])
      ensures r.Got? ==> r.value == (|old(iprot.input)| - |iprot.input|) % 0x1_0000_0000
    {
      hide Count, Plus, ReadVal, ReadElems, HasType, Default, Unsigned, Progress;
      ghost var start := iprot.input;
      ListStart(ERASE_OBJECT, VList([]), start);
      toErase := [];
      var etype, size, n :- iprot.ReadListBegin();
      var xfer := n;
      ghost var first := iprot.input;
      toErase := Resize(size);
      ghost var done: seq<Val> := [];
      NothingRead(toErase);
      var i := 0;
      while i < size
        invariant i <= size == |toErase| && Separate(toErase) && forall x <- toErase :: fresh(x)
        invariant |done| == i && (forall x <- done :: HasType(ERASE_OBJECT, x)) && Progress(toErase, done)
        invariant ReadElems(ERASE_OBJECT, size - i, done, iprot.input) == ReadElems(ERASE_OBJECT, size, [], first)
        invariant |iprot.input| <= |start| && xfer == Count(|start| - |iprot.input|)
      {
        ghost var turn := iprot.input;
        ListTurn(ERASE_OBJECT, size - i, done, turn);
        assert toErase[i] in toErase;
        var m :- ReadElement(toErase, done, i, iprot);
        done := done + [toErase[i].Value()];
        CountSum(|start| - |turn|, |turn| - |iprot.input|);
        xfer := Plus(xfer, m);
        i := i + 1;
      }
      ListTurn(ERASE_OBJECT, 0, done, iprot.input);
      AllRead(toErase, done);
      CountIsModulo(|start| - |iprot.input|);
      return Got(xfer);
    }

    /** The switch of the field loop. */
    method ReadMember(iprot: TProtocol, ftype: byte, fid: i16) returns (r: Try<uint32>)
      modifies this, iprot`input
      ensures Agrees(Turn(ERASE_FILES_FIELDS, old(Value()), ftype, fid, old(iprot.input)),
                     old(iprot.input), r, Value(), iprot.input)
      ensures r.Got? ==>
        isset ==
          if fid == 1 && ftype == 15 then true
          else old(isset)
    {
      hide Count, ReadVal, Skip, Turn, HasType, Set, Default;
      ghost var was, body := Value(), iprot.input;
      if fid == 1 && ftype == T_LIST {
        ListTurnStored(ERASE_FILES_FIELDS, was, 0, body);
        var n :- ReadToErase(iprot);
        label Filled:
        isset := true;
        ValuesUnchanged@Filled(toErase);
        SetOfOne(VList(old(Values(toErase))), old(isset), VList(Values(toErase)));
        return Got(n);
      } else {
        SkippedTurn(ERASE_FILES_FIELDS, was, ftype, fid, body);
        var n :- iprot.SkipValue(ftype);
        ValuesUnchanged(toErase);
        return Got(n);
      }
    }

    method Read(iprot: TProtocol) returns (r: Try<uint32>)
      modifies this, iprot`input
      ensures Agrees(ReadVal(ERASE_FILES, old(Value()), old(iprot.input)), old(iprot.input), r, Value(), iprot.input)
      ensures r.Got? ==> r.value == (|old(iprot.input)| - |iprot.input|) % 0x1_0000_0000
      ensures forall a: Val, rest: Bytes |
        && HasType(TList(ERASE_OBJECT), a) && Writable(TList(ERASE_OBJECT), a)
        && old(iprot.input)
        == ([15, 0, 1] + ThriftCodec.Write(TList(ERASE_OBJECT), a)
         + [0]) + rest ::
        && r.Got? && iprot.input == rest && isset == true
        && VList(Values(toErase)) == Stamp(TList(ERASE_OBJECT), a)
    {
      hide Count, Plus, ReadFields, ReadVal, Turn, ParseFieldBegin, HasType, SizeBytes, I32Bytes, ThriftCodec.Write,
        Writable, Stamp;
      ghost var start, was := iprot.input, Value();
      forall a: Val, rest: Bytes |
        && HasType(TList(ERASE_OBJECT), a) && Writable(TList(ERASE_OBJECT), a)
        && start
        == ([15, 0, 1] + ThriftCodec.Write(TList(ERASE_OBJECT), a)
         + [0]) + rest
        ensures ReadVal(ERASE_FILES, was, start)
             == Done(VStruct([Stamp(TList(ERASE_OBJECT), a)], [true]), rest)
      {
        EraseFilesFromBytes(was, a, rest);
      }
      LoopTurn(ERASE_FILES_FIELDS, was, start);
      var xfer := Count(0);
      while true
        invariant ReadFields(ERASE_FILES_FIELDS, Value(), iprot.input) == ReadFields(ERASE_FILES_FIELDS, was, start)
        invariant |iprot.input| <= |start| && xfer == Count(|start| - |iprot.input|)
        decreases |iprot.input|
      {
        ghost var turn := iprot.input;
        LoopTurn(ERASE_FILES_FIELDS, Value(), turn);
        label Head:
        var ftype, fid, n :- iprot.ReadFieldBegin();
        ValuesUnchanged@Head(toErase);
        ghost var body := iprot.input;
        CountSum(|start| - |turn|, |turn| - |body|);
        xfer := Plus(xfer, n);
        if ftype == T_STOP {
          break;
        }
        var m :- ReadMember(iprot, ftype, fid);
        CountSum(|start| - |body|, |body| - |iprot.input|);
        xfer := Plus(xfer, m);
      }
      CountIsModulo(|start| - |iprot.input|);
      return Got(xfer);
    }
  }

  /** The request as the client writes it: the list is the caller's, and only pointed to. */
  class EraseFilesPargs {
    const toErase: seq<EraseObject>

    /** What the request says; a pargs object has no presence flag of its own. */
    ghost function Value(): (v: Val)
      reads toErase
      ensures HasType(ERASE_FILES, v)
    {
      VStruct([VList(Values(toErase))], [false])
    }

    constructor (toErase: seq<EraseObject>)
      ensures this.toErase == toErase
    {
      this.toErase := toErase;
    }

    method WriteToErase(oprot: TProtocol) returns (xfer: uint32)
      modifies oprot`output
      ensures oprot.output == old(oprot.output) + ThriftCodec.Write(TList(ERASE_OBJECT), VList(Values(toErase)))
      ensures xfer == Count(|ThriftCodec.Write(TList(ERASE_OBJECT), VList(Values(toErase)))|)
      ensures oprot.output == old(oprot.output) + ([12] + SizeBytes(|toErase|) + WriteElems(ERASE_OBJECT,
        Values(toErase)))
      ensures xfer == (|oprot.output| - |old(oprot.output)|) % 0x1_0000_0000
    {
      hide Count, Plus, ThriftCodec.Write, WriteElems, SizeBytes;
      ghost var start, vs := oprot.output, Values(toErase);
      WriteElemsEmpty(ERASE_OBJECT);
      xfer := oprot.WriteListBegin(T_STRUCT, |toErase|);
      var i := 0;
      while i < |toErase|
        invariant i <= |toErase| && vs == Values(toErase)
        invariant oprot.output == start + ([T_STRUCT] + SizeBytes(|toErase|) + WriteElems(ERASE_OBJECT, vs[..i]))
        invariant xfer == Count(|oprot.output| - |start|)
      {
        ghost var last := oprot.output;
        WriteElemsAppend(ERASE_OBJECT, vs[..i], vs[i]);
        assert vs[..i] + [vs[i]] == vs[..i + 1];
        var m := toErase[i].Write(oprot);
        CountSum(|last| - |start|, |oprot.output| - |last|);
        xfer := Plus(xfer, m);
        i := i + 1;
      }
      assert vs[..i] == vs;
      WriteList(ERASE_OBJECT, vs);
      CountIsModulo(|oprot.output| - |start|);
    }

    method Write(oprot: TProtocol) returns (xfer: uint32)
      modifies oprot`output
      ensures oprot.output == old(oprot.output) + ThriftCodec.Write(ERASE_FILES, Value())
      ensures xfer == Count(|ThriftCodec.Write(ERASE_FILES, Value())|)
      ensures oprot.output
        == old(oprot.output)
         + ([15, 0, 1] + ThriftCodec.Write(TList(ERASE_OBJECT), VList(Values(toErase)))
         + [0])
      ensures xfer == (|oprot.output| - |old(oprot.output)|) % 0x1_0000_0000
    {
      hide Count, Plus, ThriftCodec.Write, WriteFrom, I16Bytes, Halfway, SizeBytes, I32Bytes;
      ghost var v, start := Value(), oprot.output;
      HalfwayStart(ERASE_FILES_FIELDS, v, start);
      xfer := Count(0);
      ghost var before := xfer;
      var n := oprot.WriteFieldBegin(T_LIST, 1);
      var m := WriteToErase(oprot);
      ValuesUnchanged(toErase);
      HalfwayWritten(ERASE_FILES_FIELDS, v, 0, start, start, before, oprot.output);
      xfer := Plus(Plus(xfer, n), m);
      HalfwayEnd(ERASE_FILES_FIELDS, v, start, oprot.output, xfer);
      n := oprot.WriteFieldStop();
      ValuesUnchanged(toErase);
      xfer := Plus(xfer, n);
      EraseFilesInBytes(VList(Values(toErase)), [false]);
      CountIsModulo(|oprot.output| - |start|);
    }
  }

  /** What the client writes, the server reads as the same list, over any old contents and in front of any other
      bytes. */
  lemma EraseFilesAsymmetry(was: Val, vs: seq<Val>, rest: Bytes)
    requires HasType(ERASE_FILES, was) && HasType(TList(ERASE_OBJECT), VList(vs))
      && Writable(TList(ERASE_OBJECT), VList(vs))
    ensures var v := VStruct([VList(vs)], [false]);
      && ReadVal(ERASE_FILES, was, ThriftCodec.Write(ERASE_FILES, v) + rest)
         == Done(VStruct([Stamp(TList(ERASE_OBJECT), VList(vs))], [true]), rest)
      && Equal(TList(ERASE_OBJECT), VList(vs), Stamp(TList(ERASE_OBJECT), VList(vs)))
  {
    var v := VStruct([VList(vs)], [false]);
    EraseFilesSchema();
    RoundTrip(ERASE_FILES, was, v, rest);
    StampEqual(TList(ERASE_OBJECT), VList(vs));
    assert Stamp(ERASE_FILES, v).vals == [Stamp(TList(ERASE_OBJECT), VList(vs))];
    assert Stamp(ERASE_FILES, v).isset == [true];
  }

  /** The same on the objects: the server's object ends up with the client's list, whatever it held before, the
      bytes behind the request are left, and the reader returns the byte count that the writer returned. */
  method SendEraseFiles(pargs: EraseFilesPargs, args: EraseFilesArgs, rest: Bytes)
    returns (written: uint32, read: Try<uint32>, wire: TProtocol)
    requires Writable(TList(ERASE_OBJECT), VList(Values(pargs.toErase)))
    modifies args
    ensures read == Got(written) && wire.input == rest
    ensures args.Value() == VStruct([Stamp(TList(ERASE_OBJECT), VList(old(Values(pargs.toErase))))], [true])
  {
    hide ReadVal, ThriftCodec.Write, HasType, Writable, Count;
    ghost var vs, was := Values(pargs.toErase), args.Value();
    var out := new TProtocol([]);
    written := pargs.Write(out);
    ValuesUnchanged(pargs.toErase);
    wire := new TProtocol(out.output + rest);
    ValuesUnchanged(args.toErase);
    EraseFilesAsymmetry(was, vs, rest);
    assert out.output == ThriftCodec.Write(ERASE_FILES, VStruct([VList(vs)], [false]));
    read := args.Read(wire);
  }
}
