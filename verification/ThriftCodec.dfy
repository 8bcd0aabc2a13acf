/** One reader and one writer for every generated struct.

  The generated read and write members differ only in their tables of field ids and types.  A schema is such a
  table; ReadVal is the generated field loop driven by a schema, and Merge is its meaning on a well-formed value.
  Each class of the structs modules proves that its own hand-unrolled loop is ReadVal on its own schema, so every
  law proved here is a law of all of them.
*/
module ThriftCodec {
  import opened Wrappers
  import opened ThriftWire

  /** The type of a struct member.  A guarded field is written only when its presence flag is set. */
  datatype Ty = TBool | TI32 | TString | TStruct(fields: seq<Field>) | TList(elem: Ty)

  datatype Field = Field(id: i16, ty: Ty, guarded: bool)

  /** The contents of a member.  A struct has one value and one presence flag per field, in schema order. */
  datatype Val =
    | VBool(b: bool)
    | VI32(n: i32)
    | VString(text: Bytes)
    | VStruct(vals: seq<Val>, isset: seq<bool>)
    | VList(elems: seq<Val>)

  function WireType(ty: Ty): byte {
    match ty
    case TBool => T_BOOL
    case TI32 => T_I32
    case TString => T_STRING
    case TStruct(_) => T_STRUCT
    case TList(_) => T_LIST
  }

  ghost predicate HasType(ty: Ty, v: Val) {
    match ty
    case TBool => v.VBool?
    case TI32 => v.VI32?
    case TString => v.VString?
    case TStruct(fs) =>
      v.VStruct? && |v.vals| == |fs| && |v.isset| == |fs| && forall i | 0 <= i < |fs| :: HasType(fs[i].ty, v.vals[i])
    case TList(elem) => v.VList? && forall x <- v.elems :: HasType(elem, x)
  }

  /** Field ids of a struct are distinct, at every level. */
  ghost predicate ValidSchema(ty: Ty) {
    match ty
    case TStruct(fs) =>
      && (forall i, j | 0 <= i < j < |fs| :: fs[i].id != fs[j].id)
      && (forall f <- fs :: ValidSchema(f.ty))
    case TList(elem) => ValidSchema(elem)
    case _ => true
  }

  /** What a constructor leaves in a member. */
  function Default(ty: Ty): (v: Val)
    ensures HasType(ty, v)
  {
    match ty
    case TBool => VBool(false)
    case TI32 => VI32(0)
    case TString => VString([])
    case TStruct(fs) => VStruct(Defaults(fs), seq(|fs|, _ => false))
    case TList(_) => VList([])
  }

  function Defaults(fs: seq<Field>): (vs: seq<Val>)
    ensures |vs| == |fs| && forall i | 0 <= i < |fs| :: HasType(fs[i].ty, vs[i])
  {
    if |fs| == 0 then [] else [FieldDefault(fs[0])] + Defaults(fs[1..])
  }

  function FieldDefault(f: Field): (v: Val)
    ensures HasType(f.ty, v)
  {
    Default(f.ty)
  }

  /** The position of the field with the given id; past the end when there is none. */
  function Find(fs: seq<Field>, id: i16): (i: nat)
    ensures i <= |fs|
    ensures i < |fs| ==> fs[i].id == id
    ensures forall j | 0 <= j < i :: fs[j].id != id
  {
    if |fs| == 0 then 0 else if fs[0].id == id then 0 else 1 + Find(fs[1..], id)
  }

  /** The position a field of the stream is stored at; past the end when the reader skips it. */
  function Target(fs: seq<Field>, id: i16, ty: byte): (i: nat)
    ensures i <= |fs|
    ensures i < |fs| ==> fs[i].id == id && WireType(fs[i].ty) == ty
  {
    var i := Find(fs, id);
    if i < |fs| && WireType(fs[i].ty) == ty then i else |fs|
  }

  // -------------------------------------------------------------------------------------------------------------
  // Reading
  // -------------------------------------------------------------------------------------------------------------

  /** Failed stands for an exception thrown by the library. */
  datatype Result = Failed | Done(val: Val, rest: Bytes)

  ghost predicate Reads(ty: Ty, s: Bytes, r: Result) {
    r.Done? ==> HasType(ty, r.val) && |r.rest| < |s|
  }

  function Set(was: Val, i: nat, v: Val): Val
    requires was.VStruct? && i < |was.vals| && |was.vals| == |was.isset|
  {
    VStruct(was.vals[i := v], was.isset[i := true])
  }

  /** Reads one member over its old value. */
  function ReadVal(ty: Ty, was: Val, s: Bytes): (r: Result)
    requires HasType(ty, was)
    ensures Reads(ty, s, r)
    decreases |s|, 1
  {
    match ty
    case TBool => if |s| < 1 then Failed else Done(VBool(s[0] != 0), s[1..])
    case TI32 => if |s| < 4 then Failed else Done(VI32(I32Of(s[..4])), s[4..])
    case TString =>
      if |s| < 4 || |s| < 4 + Unsigned(s[..4]) then Failed
      else Done(VString(s[4..4 + Unsigned(s[..4])]), s[4 + Unsigned(s[..4])..])
    case TStruct(fs) => ReadFields(fs, was, s)
    case TList(elem) => if |s| < 5 then Failed else ReadElems(elem, Unsigned(s[1..5]), [], s[5..])
  }

  /** The field loop. */
  function ReadFields(fs: seq<Field>, was: Val, s: Bytes): (r: Result)
    requires HasType(TStruct(fs), was)
    ensures Reads(TStruct(fs), s, r)
    decreases |s|, 0
  {
    match ParseFieldBegin(s)
    case Broken => Failed
    case Stop(rest) => Done(was, rest)
    case Header(ty, id, body) =>
      var i := Target(fs, id, ty);
      if i < |fs| then
        match ReadVal(fs[i].ty, was.vals[i], body)
        case Failed => Failed
        case Done(v, rest) => ReadFields(fs, Set(was, i, v), rest)
      else
        match Skip(ty, body)
        case None => Failed
        case Some(rest) => ReadFields(fs, was, rest)
  }

  /** The element loop: n more elements, each read into a fresh default.  The element type in the header is ignored. */
  function ReadElems(elem: Ty, n: nat, done: seq<Val>, s: Bytes): (r: Result)
    requires forall x <- done :: HasType(elem, x)
    ensures r.Done? ==> HasType(TList(elem), r.val) && |r.rest| <= |s|
    decreases |s|, 2
  {
    if n == 0 then Done(VList(done), s)
    else match ReadVal(elem, Default(elem), s)
      case Failed => Failed
      case Done(v, rest) => ReadElems(elem, n - 1, done + [v], rest)
  }

  // -------------------------------------------------------------------------------------------------------------
  // Meaning
  // -------------------------------------------------------------------------------------------------------------

  /** A well-formed value that the reader of a member can take: the right wire type, and lists whose elements have the
      type the reader assumes.  Fields that the reader skips may hold anything. */
  ghost predicate Fits(ty: Ty, w: Wire)
    decreases w, 1
  {
    && WellFormed(w)
    && TypeOf(w) == WireType(ty)
    && match ty
       case TStruct(fs) => w.Struct? && forall f <- w.fields :: FieldFits(fs, f)
       case TList(elem) => w.Sequence? && forall e <- w.elems :: Fits(elem, e)
       case _ => true
  }

  ghost predicate FieldFits(fs: seq<Field>, f: WireField)
    decreases f, 0
  {
    && WellFormed(f.value)
    && var i := Target(fs, f.id, TypeOf(f.value));
       (i < |fs| ==> Fits(fs[i].ty, f.value))
  }

  /** What a member holds after a value has been read over its old contents. */
  ghost function Merge(ty: Ty, was: Val, w: Wire): (v: Val)
    requires HasType(ty, was) && Fits(ty, w)
    ensures HasType(ty, v)
    decreases w, 1
  {
    match ty
    case TBool => VBool(w.raw[0] != 0)
    case TI32 => VI32(I32Of(w.raw))
    case TString => VString(w.text)
    case TStruct(fs) => MergeFields(fs, was, w.fields)
    case TList(elem) => VList(MergeElems(elem, w.elems))
  }

  /** What a struct holds after one field of the stream. */
  ghost function MergeField(fs: seq<Field>, was: Val, f: WireField): (v: Val)
    requires HasType(TStruct(fs), was) && FieldFits(fs, f)
    ensures HasType(TStruct(fs), v)
    decreases f, 0
  {
    var i := Target(fs, f.id, TypeOf(f.value));
    if i < |fs| then Set(was, i, Merge(fs[i].ty, was.vals[i], f.value)) else was
  }

  ghost function MergeFields(fs: seq<Field>, was: Val, stream: seq<WireField>): (v: Val)
    requires HasType(TStruct(fs), was) && forall f <- stream :: FieldFits(fs, f)
    ensures HasType(TStruct(fs), v)
    decreases stream, 0
  {
    if |stream| == 0 then was else MergeFields(fs, MergeField(fs, was, stream[0]), stream[1..])
  }

  ghost function MergeElems(elem: Ty, elems: seq<Wire>): (vs: seq<Val>)
    requires forall e <- elems :: Fits(elem, e)
    ensures |vs| == |elems| && forall x <- vs :: HasType(elem, x)
    decreases elems, 0
  {
    if |elems| == 0 then [] else [Merge(elem, Default(elem), elems[0])] + MergeElems(elem, elems[1..])
  }

  // -------------------------------------------------------------------------------------------------------------
  // The reader computes the meaning
  // -------------------------------------------------------------------------------------------------------------

  /** On every well-formed value, whatever the member held and whatever follows the value in the stream, the reader
      stops exactly behind it and leaves its meaning. */
  lemma {:induction false} ReadMeaning(ty: Ty, was: Val, w: Wire, rest: Bytes)
    requires HasType(ty, was) && Fits(ty, w)
    ensures ReadVal(ty, was, Encode(w) + rest) == Done(Merge(ty, was, w), rest)
    decreases w, 1
  {
    hide SizeBytes, I32Of;
    match ty
    case TBool =>
      assert (w.raw + rest)[1..] == rest;
    case TI32 =>
      assert (w.raw + rest)[..4] == w.raw && (w.raw + rest)[4..] == rest;
    case TString =>
      ReadText(was, w.text, rest);
    case TStruct(fs) =>
      ReadFieldsMeaning(fs, was, w.fields, rest);
      assert Encode(w) + rest == EncodeFields(w.fields) + [T_STOP] + rest;
    case TList(elem) =>
      ReadElemsMeaning(elem, w.elems, [], rest);
      ReadListHeader(elem, was, w.etype, |w.elems|, EncodeElems(w.elems) + rest);
      assert Encode(w) + rest == [w.etype] + SizeBytes(|w.elems|) + (EncodeElems(w.elems) + rest);
      assert [] + MergeElems(elem, w.elems) == MergeElems(elem, w.elems);
  }

  lemma ReadText(was: Val, text: Bytes, rest: Bytes)
    requires was.VString? && |text| < 0x1_0000_0000
    ensures ReadVal(TString, was, SizeBytes(|text|) + text + rest) == Done(VString(text), rest)
  {
    hide SizeBytes;
    var s := SizeBytes(|text|) + text + rest;
    SizeRoundTrip(|text|);
    assert s[..4] == SizeBytes(|text|);
    assert s[4..4 + |text|] == text && s[4 + |text|..] == rest;
  }

  lemma ReadListHeader(elem: Ty, was: Val, etype: byte, n: nat, body: Bytes)
    requires HasType(TList(elem), was) && n < 0x1_0000_0000
    ensures ReadVal(TList(elem), was, [etype] + SizeBytes(n) + body) == ReadElems(elem, n, [], body)
  {
    hide SizeBytes;
    SequenceHeader(etype, n, body);
  }

  lemma {:induction false} ReadFieldsMeaning(fs: seq<Field>, was: Val, stream: seq<WireField>, rest: Bytes)
    requires HasType(TStruct(fs), was) && forall f <- stream :: FieldFits(fs, f)
    ensures ReadFields(fs, was, EncodeFields(stream) + [T_STOP] + rest) == Done(MergeFields(fs, was, stream), rest)
    decreases stream, 0
  {
    hide I16Bytes;
    if |stream| == 0 {
      assert ([T_STOP] + rest)[1..] == rest;
      assert EncodeFields(stream) + [T_STOP] + rest == [T_STOP] + rest;
    } else {
      var f := stream[0];
      assert f in stream && FieldFits(fs, f);
      var ty := TypeOf(f.value);
      var after := EncodeFields(stream[1..]) + [T_STOP] + rest;
      TypeIsNotStop(f.value);
      FieldsThenRest(stream, rest);
      FieldHeader(ty, f.id, Encode(f.value) + after);
      assert f.value < f;
      var i := Target(fs, f.id, ty);
      if i < |fs| {
        ReadMeaning(fs[i].ty, was.vals[i], f.value, after);
      } else {
        SkipEncode(f.value, after);
      }
      ReadFieldsMeaning(fs, MergeField(fs, was, f), stream[1..], rest);
    }
  }

  lemma ReadElemsStep(elem: Ty, n: nat, done: seq<Val>, s: Bytes, v: Val, rest: Bytes)
    requires n > 0 && (forall x <- done :: HasType(elem, x))
    requires ReadVal(elem, Default(elem), s) == Done(v, rest)
    ensures ReadElems(elem, n, done, s) == ReadElems(elem, n - 1, done + [v], rest)
  {
  }

  lemma {:induction false} ReadElemsMeaning(elem: Ty, elems: seq<Wire>, done: seq<Val>, rest: Bytes)
    requires (forall x <- done :: HasType(elem, x)) && forall e <- elems :: Fits(elem, e)
    ensures ReadElems(elem, |elems|, done, EncodeElems(elems) + rest)
      == Done(VList(done + MergeElems(elem, elems)), rest)
    decreases elems, 0
  {
    if |elems| == 0 {
      assert EncodeElems(elems) + rest == rest;
      assert done + MergeElems(elem, elems) == done;
    } else {
      assert elems[0] in elems;
      var after := EncodeElems(elems[1..]) + rest;
      var v := Merge(elem, Default(elem), elems[0]);
      assert EncodeElems(elems) + rest == Encode(elems[0]) + after;
      assert MergeElems(elem, elems) == [v] + MergeElems(elem, elems[1..]);
      assert done + [v] + MergeElems(elem, elems[1..]) == done + ([v] + MergeElems(elem, elems[1..]));
      ReadMeaning(elem, Default(elem), elems[0], after);
      ReadElemsMeaning(elem, elems[1..], done + [v], rest);
      ReadElemsStep(elem, |elems|, done, Encode(elems[0]) + after, v, after);
    }
  }

  // -------------------------------------------------------------------------------------------------------------
  // Writing
  // -------------------------------------------------------------------------------------------------------------

  /** The value a member is written as. */
  function ToWire(ty: Ty, v: Val): Wire
    requires HasType(ty, v)
    decreases v, 1
  {
    match ty
    case TBool => Fixed(T_BOOL, [if v.b then 1 else 0])
    case TI32 => Fixed(T_I32, I32Bytes(v.n))
    case TString => Text(v.text)
    case TStruct(fs) => Struct(FieldsToWire(fs, v.vals, v.isset, 0))
    case TList(elem) => Sequence(T_LIST, WireType(elem), ElemsToWire(elem, v.elems))
  }

  predicate IsWritten(f: Field, present: bool) {
    !f.guarded || present
  }

  /** The fields of a struct from position k on, in schema order. */
  function FieldsToWire(fs: seq<Field>, vals: seq<Val>, isset: seq<bool>, k: nat): seq<WireField>
    requires k <= |fs| == |vals| == |isset| && forall i | 0 <= i < |fs| :: HasType(fs[i].ty, vals[i])
    decreases vals, |fs| - k
  {
    if k == |fs| then [] else
      (if IsWritten(fs[k], isset[k]) then [WireField(fs[k].id, ToWire(fs[k].ty, vals[k]))] else [])
      + FieldsToWire(fs, vals, isset, k + 1)
  }

  function ElemsToWire(elem: Ty, vs: seq<Val>): (ws: seq<Wire>)
    requires forall x <- vs :: HasType(elem, x)
    ensures |ws| == |vs|
    decreases vs, 0
  {
    if |vs| == 0 then [] else [ToWire(elem, vs[0])] + ElemsToWire(elem, vs[1..])
  }

  /** The bytes a member is written as. */
  function Write(ty: Ty, v: Val): Bytes
    requires HasType(ty, v)
  {
    Encode(ToWire(ty, v))
  }

  /** Every string and every list that will be written has a size below 2^32. */
  ghost predicate Writable(ty: Ty, v: Val)
    requires HasType(ty, v)
    decreases v
  {
    match ty
    case TBool => true
    case TI32 => true
    case TString => |v.text| < 0x1_0000_0000
    case TStruct(fs) => forall i | 0 <= i < |fs| && IsWritten(fs[i], v.isset[i]) :: Writable(fs[i].ty, v.vals[i])
    case TList(elem) => |v.elems| < 0x1_0000_0000 && forall x <- v.elems :: Writable(elem, x)
  }
}
