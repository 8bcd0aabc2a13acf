/** Laws of the reader and the writer, for every schema: round trips, what a stream of fields means, and which
  changes to a stream the reader does not notice.
*/
module ThriftLaws {
  import opened ThriftWire
  import opened ThriftCodec

  // -------------------------------------------------------------------------------------------------------------
  // Round trip
  // -------------------------------------------------------------------------------------------------------------

  /** What a member holds after a written value has been read over it: everything written is taken over and flagged
      as present, list elements start from their defaults, and guarded members that were not written keep what they
      held. */
  ghost function Over(ty: Ty, was: Val, v: Val): (r: Val)
    requires HasType(ty, was) && HasType(ty, v)
    ensures HasType(ty, r)
    decreases v
  {
    match ty
    case TStruct(fs) =>
      VStruct(seq(|fs|, i requires 0 <= i < |fs| =>
                if IsWritten(fs[i], v.isset[i]) then Over(fs[i].ty, was.vals[i], v.vals[i]) else was.vals[i]),
              seq(|fs|, i requires 0 <= i < |fs| => was.isset[i] || IsWritten(fs[i], v.isset[i])))
    case TList(elem) => VList(seq(|v.elems|, i requires 0 <= i < |v.elems| => Over(elem, Default(elem), v.elems[i])))
    case _ => v
  }

  lemma TargetOfPosition(fs: seq<Field>, k: nat)
    requires ValidSchema(TStruct(fs)) && k < |fs|
    ensures Target(fs, fs[k].id, WireType(fs[k].ty)) == k
  {
    var i := Find(fs, fs[k].id);
    assert i <= k;
  }

  lemma TypeOfToWire(ty: Ty, v: Val)
    requires HasType(ty, v)
    ensures TypeOf(ToWire(ty, v)) == WireType(ty)
  {
  }

  /** What the writer lays out is well-formed, and the reader of the same schema can take it. */
  lemma {:induction false} WrittenFits(ty: Ty, v: Val)
    requires ValidSchema(ty) && HasType(ty, v) && Writable(ty, v)
    ensures Fits(ty, ToWire(ty, v))
    decreases v, 1
  {
    match ty
    case TStruct(fs) => WrittenFieldsFit(fs, v.vals, v.isset, 0);
    case TList(elem) => WrittenElemsFit(elem, v.elems);
    case _ =>
  }

  lemma {:induction false} WrittenFieldsFit(fs: seq<Field>, vals: seq<Val>, isset: seq<bool>, k: nat)
    requires k <= |fs| == |vals| == |isset| && ValidSchema(TStruct(fs)) && HasType(TStruct(fs), VStruct(vals, isset))
    requires forall i | 0 <= i < |fs| && IsWritten(fs[i], isset[i]) :: Writable(fs[i].ty, vals[i])
    ensures forall f <- FieldsToWire(fs, vals, isset, k) :: FieldFits(fs, f)
    decreases vals, |fs| - k
  {
    if k < |fs| {
      WrittenFieldsFit(fs, vals, isset, k + 1);
      if IsWritten(fs[k], isset[k]) {
        assert fs[k] in fs;
        WrittenFits(fs[k].ty, vals[k]);
        TypeOfToWire(fs[k].ty, vals[k]);
        TargetOfPosition(fs, k);
        assert FieldFits(fs, WireField(fs[k].id, ToWire(fs[k].ty, vals[k])));
      }
    }
  }

  lemma {:induction false} WrittenElemsFit(elem: Ty, vs: seq<Val>)
    requires ValidSchema(elem) && forall x <- vs :: HasType(elem, x) && Writable(elem, x)
    ensures forall w <- ElemsToWire(elem, vs) :: Fits(elem, w)
    decreases vs, 0
  {
    if |vs| > 0 {
      assert vs[0] in vs;
      WrittenFits(elem, vs[0]);
      WrittenElemsFit(elem, vs[1..]);
    }
  }

  lemma {:induction false} WrittenFieldAppears(fs: seq<Field>, vals: seq<Val>, isset: seq<bool>, k: nat, i: nat)
    requires k <= i < |fs| == |vals| == |isset| && HasType(TStruct(fs), VStruct(vals, isset))
    requires IsWritten(fs[i], isset[i])
    ensures WireField(fs[i].id, ToWire(fs[i].ty, vals[i])) in FieldsToWire(fs, vals, isset, k)
    decreases i - k
  {
    if k < i {
      WrittenFieldAppears(fs, vals, isset, k + 1, i);
    }
  }

  lemma {:induction false} WrittenElemAppears(elem: Ty, vs: seq<Val>, i: nat)
    requires (forall x <- vs :: HasType(elem, x)) && i < |vs|
    ensures ElemsToWire(elem, vs)[i] == ToWire(elem, vs[i])
  {
    if i > 0 {
      WrittenElemAppears(elem, vs[1..], i - 1);
    }
  }

  /** What can be written: exactly the values that are laid out well-formed, which are those whose sizes fit 32 bits. */
  lemma {:induction false} WritableIffWellFormed(ty: Ty, v: Val)
    requires ValidSchema(ty) && HasType(ty, v)
    ensures Writable(ty, v) <==> WellFormed(ToWire(ty, v))
    decreases v
  {
    if Writable(ty, v) {
      WrittenFits(ty, v);
    }
    if WellFormed(ToWire(ty, v)) {
      match ty
      case TStruct(fs) =>
        forall i | 0 <= i < |fs| && IsWritten(fs[i], v.isset[i]) ensures Writable(fs[i].ty, v.vals[i]) {
          WrittenFieldAppears(fs, v.vals, v.isset, 0, i);
          WritableIffWellFormed(fs[i].ty, v.vals[i]);
        }
      case TList(elem) =>
        forall i | 0 <= i < |v.elems| ensures Writable(elem, v.elems[i]) {
          WrittenElemAppears(elem, v.elems, i);
          WritableIffWellFormed(elem, v.elems[i]);
        }
      case _ =>
    }
  }

  /** The meaning of what was written is the written value laid over the old one. */
  lemma {:induction false} MergeWritten(ty: Ty, was: Val, v: Val)
    requires ValidSchema(ty) && HasType(ty, was) && HasType(ty, v) && Fits(ty, ToWire(ty, v))
    ensures Merge(ty, was, ToWire(ty, v)) == Over(ty, was, v)
    decreases v, 1
  {
    match ty
    case TBool =>
    case TI32 => I32RoundTrip(v.n);
    case TString =>
    case TStruct(fs) =>
      MergeWrittenFields(fs, was, v, 0);
      OverlaidIsOver(fs, was, v, MergeFields(fs, was, FieldsToWire(fs, v.vals, v.isset, 0)));
    case TList(elem) =>
      MergeWrittenElems(elem, v.elems);
      assert MergeElems(elem, ElemsToWire(elem, v.elems)) == Over(ty, was, v).elems;
  }

  /** The member at position i after the fields from position k on have been read over a struct. */
  ghost predicate Overlaid(fs: seq<Field>, was: Val, v: Val, k: nat, i: nat, m: Val)
    requires HasType(TStruct(fs), was) && HasType(TStruct(fs), v) && HasType(TStruct(fs), m) && i < |fs|
  {
    var written := k <= i && IsWritten(fs[i], v.isset[i]);
    && m.vals[i] == (if written then Over(fs[i].ty, was.vals[i], v.vals[i]) else was.vals[i])
    && m.isset[i] == (was.isset[i] || written)
  }

  ghost predicate AllOverlaid(fs: seq<Field>, was: Val, v: Val, k: nat, m: Val)
    requires HasType(TStruct(fs), was) && HasType(TStruct(fs), v)
  {
    HasType(TStruct(fs), m) && forall i | 0 <= i < |fs| :: Overlaid(fs, was, v, k, i, m)
  }

  lemma OverlaidIsOver(fs: seq<Field>, was: Val, v: Val, m: Val)
    requires HasType(TStruct(fs), was) && HasType(TStruct(fs), v) && AllOverlaid(fs, was, v, 0, m)
    ensures m == Over(TStruct(fs), was, v)
  {
    var o := Over(TStruct(fs), was, v);
    forall i | 0 <= i < |fs| ensures m.vals[i] == o.vals[i] && m.isset[i] == o.isset[i] {
      assert Overlaid(fs, was, v, 0, i, m);
    }
    assert m.vals == o.vals && m.isset == o.isset;
  }

  lemma MergeWrittenField(fs: seq<Field>, was: Val, v: Val, k: nat)
    requires ValidSchema(TStruct(fs)) && HasType(TStruct(fs), was) && HasType(TStruct(fs), v) && k < |fs|
    requires IsWritten(fs[k], v.isset[k])
    requires FieldFits(fs, WireField(fs[k].id, ToWire(fs[k].ty, v.vals[k])))
    ensures Fits(fs[k].ty, ToWire(fs[k].ty, v.vals[k]))
    ensures MergeField(fs, was, WireField(fs[k].id, ToWire(fs[k].ty, v.vals[k])))
         == Set(was, k, Merge(fs[k].ty, was.vals[k], ToWire(fs[k].ty, v.vals[k])))
  {
    TypeOfToWire(fs[k].ty, v.vals[k]);
    TargetOfPosition(fs, k);
  }

  lemma OverlaidWritten(fs: seq<Field>, was: Val, v: Val, k: nat, m: Val)
    requires HasType(TStruct(fs), was) && HasType(TStruct(fs), v) && k < |fs| && IsWritten(fs[k], v.isset[k])
    requires HasType(TStruct(fs), Set(was, k, Over(fs[k].ty, was.vals[k], v.vals[k])))
    requires AllOverlaid(fs, Set(was, k, Over(fs[k].ty, was.vals[k], v.vals[k])), v, k + 1, m)
    ensures AllOverlaid(fs, was, v, k, m)
  {
    var mid := Set(was, k, Over(fs[k].ty, was.vals[k], v.vals[k]));
    forall i | 0 <= i < |fs| ensures Overlaid(fs, was, v, k, i, m) {
      assert Overlaid(fs, mid, v, k + 1, i, m);
    }
  }

  lemma OverlaidUnwritten(fs: seq<Field>, was: Val, v: Val, k: nat, m: Val)
    requires HasType(TStruct(fs), was) && HasType(TStruct(fs), v) && k < |fs| && !IsWritten(fs[k], v.isset[k])
    requires AllOverlaid(fs, was, v, k + 1, m)
    ensures AllOverlaid(fs, was, v, k, m)
  {
    forall i | 0 <= i < |fs| ensures Overlaid(fs, was, v, k, i, m) {
      assert Overlaid(fs, was, v, k + 1, i, m);
    }
  }

  lemma {:induction false} MergeWrittenFields(fs: seq<Field>, was: Val, v: Val, k: nat)
    requires ValidSchema(TStruct(fs)) && HasType(TStruct(fs), was) && HasType(TStruct(fs), v) && k <= |fs|
    requires forall f <- FieldsToWire(fs, v.vals, v.isset, k) :: FieldFits(fs, f)
    ensures AllOverlaid(fs, was, v, k, MergeFields(fs, was, FieldsToWire(fs, v.vals, v.isset, k)))
    decreases v, 0, |fs| - k
  {
    if k < |fs| {
      hide AllOverlaid, Set, FieldFits;
      var stream := FieldsToWire(fs, v.vals, v.isset, k);
      var tail := FieldsToWire(fs, v.vals, v.isset, k + 1);
      if IsWritten(fs[k], v.isset[k]) {
        assert stream[0] in stream && stream[1..] == tail;
        MergeWrittenField(fs, was, v, k);
        assert fs[k] in fs;
        MergeWritten(fs[k].ty, was.vals[k], v.vals[k]);
        MergeWrittenFields(fs, MergeField(fs, was, stream[0]), v, k + 1);
        OverlaidWritten(fs, was, v, k, MergeFields(fs, was, stream));
      } else {
        assert stream == tail;
        MergeWrittenFields(fs, was, v, k + 1);
        OverlaidUnwritten(fs, was, v, k, MergeFields(fs, was, stream));
      }
    }
  }

  lemma {:induction false} MergeWrittenElems(elem: Ty, vs: seq<Val>)
    requires ValidSchema(elem) && (forall x <- vs :: HasType(elem, x)) && forall w <- ElemsToWire(elem, vs) ::
      Fits(elem, w)
    ensures var ms := MergeElems(elem, ElemsToWire(elem, vs));
      |ms| == |vs| && forall i | 0 <= i < |vs| :: ms[i] == Over(elem, Default(elem), vs[i])
    decreases vs, 0
  {
    if |vs| > 0 {
      var ws := ElemsToWire(elem, vs);
      assert ws[0] in ws && ws[1..] == ElemsToWire(elem, vs[1..]);
      MergeWritten(elem, Default(elem), vs[0]);
      MergeWrittenElems(elem, vs[1..]);
    }
  }

  /** Reading back what was written, over any old contents and in front of any other bytes. */
  lemma RoundTripOver(ty: Ty, was: Val, v: Val, rest: Bytes)
    requires ValidSchema(ty) && HasType(ty, was) && HasType(ty, v) && Writable(ty, v)
    ensures ReadVal(ty, was, Write(ty, v) + rest) == Done(Over(ty, was, v), rest)
  {
    WrittenFits(ty, v);
    MergeWritten(ty, was, v);
    ReadMeaning(ty, was, ToWire(ty, v), rest);
  }

  /** No member is guarded, at any level. */
  ghost predicate Unguarded(ty: Ty) {
    match ty
    case TStruct(fs) => forall f <- fs :: !f.guarded && Unguarded(f.ty)
    case TList(elem) => Unguarded(elem)
    case _ => true
  }

  /** The same value with every presence flag set, at every level. */
  ghost function Stamp(ty: Ty, v: Val): (r: Val)
    requires HasType(ty, v)
    ensures HasType(ty, r)
    decreases v
  {
    match ty
    case TStruct(fs) => VStruct(seq(|fs|, i requires 0 <= i < |fs| => Stamp(fs[i].ty, v.vals[i])), seq(|fs|, _ => true))
    case TList(elem) => VList(seq(|v.elems|, i requires 0 <= i < |v.elems| => Stamp(elem, v.elems[i])))
    case _ => v
  }

  /** The generated operator==: members are compared, presence flags are not. */
  predicate Equal(ty: Ty, a: Val, b: Val)
    requires HasType(ty, a) && HasType(ty, b)
    decreases a
  {
    match ty
    case TStruct(fs) => forall i | 0 <= i < |fs| :: Equal(fs[i].ty, a.vals[i], b.vals[i])
    case TList(elem) => |a.elems| == |b.elems| && forall i | 0 <= i < |a.elems| :: Equal(elem, a.elems[i], b.elems[i])
    case _ => a == b
  }

  lemma {:induction false} OverIsStamp(ty: Ty, was: Val, v: Val)
    requires HasType(ty, was) && HasType(ty, v) && Unguarded(ty)
    ensures Over(ty, was, v) == Stamp(ty, v)
    decreases v
  {
    match ty
    case TStruct(fs) =>
      forall i | 0 <= i < |fs| ensures Over(fs[i].ty, was.vals[i], v.vals[i]) == Stamp(fs[i].ty, v.vals[i]) {
        assert fs[i] in fs;
        OverIsStamp(fs[i].ty, was.vals[i], v.vals[i]);
      }
      assert forall i | 0 <= i < |fs| :: fs[i] in fs;
      assert Over(ty, was, v).vals == Stamp(ty, v).vals && Over(ty, was, v).isset == Stamp(ty, v).isset;
    case TList(elem) =>
      forall i | 0 <= i < |v.elems| ensures Over(elem, Default(elem), v.elems[i]) == Stamp(elem, v.elems[i]) {
        OverIsStamp(elem, Default(elem), v.elems[i]);
      }
      assert Over(ty, was, v).elems == Stamp(ty, v).elems;
    case _ =>
  }

  lemma {:induction false} StampEqual(ty: Ty, v: Val)
    requires HasType(ty, v)
    ensures Equal(ty, v, Stamp(ty, v))
    decreases v
  {
    match ty
    case TStruct(fs) => forall i | 0 <= i < |fs| ensures Equal(fs[i].ty, v.vals[i], Stamp(fs[i].ty, v.vals[i])) {
        StampEqual(fs[i].ty, v.vals[i]);
      }
    case TList(elem) => forall i | 0 <= i < |v.elems| ensures Equal(elem, v.elems[i], Stamp(elem, v.elems[i])) {
        StampEqual(elem, v.elems[i]);
      }
    case _ =>
  }

  /** When two values are equal by operator==: exactly when they differ in presence flags only. */
  lemma {:induction false} EqualIffSameMembers(ty: Ty, a: Val, b: Val)
    requires HasType(ty, a) && HasType(ty, b)
    ensures Equal(ty, a, b) <==> Stamp(ty, a) == Stamp(ty, b)
  {
    match ty
    case TStruct(fs) =>
      var x, y := Stamp(ty, a), Stamp(ty, b);
      forall i | 0 <= i < |fs| ensures Equal(fs[i].ty, a.vals[i], b.vals[i]) <==> x.vals[i] == y.vals[i] {
        EqualIffSameMembers(fs[i].ty, a.vals[i], b.vals[i]);
      }
      assert x.isset == y.isset;
      assert x == y <==> x.vals == y.vals;
    case TList(elem) =>
      var x, y := Stamp(ty, a), Stamp(ty, b);
      if |a.elems| == |b.elems| {
        forall i | 0 <= i < |a.elems| ensures Equal(elem, a.elems[i], b.elems[i]) <==> x.elems[i] == y.elems[i] {
          EqualIffSameMembers(elem, a.elems[i], b.elems[i]);
        }
        assert x == y <==> x.elems == y.elems;
      }
    case _ =>
  }

  /** Round trip of a struct without guarded members: whatever the target held before, it ends up equal to the written
      value with every presence flag set, and exactly the following bytes are left. */
  lemma RoundTrip(ty: Ty, was: Val, v: Val, rest: Bytes)
    requires ValidSchema(ty) && Unguarded(ty) && HasType(ty, was) && HasType(ty, v) && Writable(ty, v)
    ensures ReadVal(ty, was, Write(ty, v) + rest) == Done(Stamp(ty, v), rest)
    ensures Equal(ty, v, Stamp(ty, v))
  {
    RoundTripOver(ty, was, v, rest);
    OverIsStamp(ty, was, v);
    StampEqual(ty, v);
  }

  // -------------------------------------------------------------------------------------------------------------
  // What a stream of fields means, member by member
  // -------------------------------------------------------------------------------------------------------------

  /** The values in the stream that the reader stores at position i, in order. */
  function Occurrences(fs: seq<Field>, i: nat, stream: seq<WireField>): seq<Wire> {
    if |stream| == 0 then [] else Occurrence(fs, i, stream[0]) + Occurrences(fs, i, stream[1..])
  }

  function Occurrence(fs: seq<Field>, i: nat, f: WireField): seq<Wire> {
    if Target(fs, f.id, TypeOf(f.value)) == i then [f.value] else []
  }

  ghost function MergeAll(ty: Ty, was: Val, ws: seq<Wire>): (v: Val)
    requires HasType(ty, was) && forall w <- ws :: Fits(ty, w)
    ensures HasType(ty, v)
    decreases |ws|
  {
    if |ws| == 0 then was else MergeAll(ty, Merge(ty, was, ws[0]), ws[1..])
  }

  lemma {:induction false} OccurrencesFit(fs: seq<Field>, i: nat, stream: seq<WireField>)
    requires i < |fs| && forall f <- stream :: FieldFits(fs, f)
    ensures forall w <- Occurrences(fs, i, stream) :: Fits(fs[i].ty, w)
  {
    if |stream| > 0 {
      assert FieldFits(fs, stream[0]);
      OccurrencesFit(fs, i, stream[1..]);
    }
  }

  /** Each member depends only on its own occurrences; its flag says whether there were any. */
  lemma {:induction false} MemberMeaning(fs: seq<Field>, was: Val, stream: seq<WireField>, i: nat)
    requires HasType(TStruct(fs), was) && i < |fs| && forall f <- stream :: FieldFits(fs, f)
    ensures forall w <- Occurrences(fs, i, stream) :: Fits(fs[i].ty, w)
    ensures var m := MergeFields(fs, was, stream);
      && m.vals[i] == MergeAll(fs[i].ty, was.vals[i], Occurrences(fs, i, stream))
      && m.isset[i] == (was.isset[i] || Occurrences(fs, i, stream) != [])
    decreases stream
  {
    OccurrencesFit(fs, i, stream);
    if |stream| > 0 {
      var f := stream[0];
      assert FieldFits(fs, f);
      MemberMeaning(fs, MergeField(fs, was, f), stream[1..], i);
      if Target(fs, f.id, TypeOf(f.value)) == i {
        assert Occurrences(fs, i, stream)[1..] == Occurrences(fs, i, stream[1..]);
      } else {
        assert Occurrences(fs, i, stream) == Occurrences(fs, i, stream[1..]);
      }
    }
  }

  /** Two streams with the same occurrences of every member, however these are interleaved with each other and with
      fields the reader skips, read the same over any old contents, and both are consumed exactly. */
  lemma ReaderTolerance(fs: seq<Field>, was: Val, a: seq<WireField>, b: seq<WireField>, rest: Bytes)
    requires HasType(TStruct(fs), was)
    requires (forall f <- a :: FieldFits(fs, f)) && (forall f <- b :: FieldFits(fs, f))
    requires forall i | 0 <= i < |fs| :: Occurrences(fs, i, a) == Occurrences(fs, i, b)
    ensures ReadVal(TStruct(fs), was, Encode(Struct(a)) + rest) == ReadVal(TStruct(fs), was, Encode(Struct(b)) + rest)
         == Done(MergeFields(fs, was, a), rest)
  {
    var m, n := MergeFields(fs, was, a), MergeFields(fs, was, b);
    forall i | 0 <= i < |fs| ensures m.vals[i] == n.vals[i] && m.isset[i] == n.isset[i] {
      MemberMeaning(fs, was, a, i);
      MemberMeaning(fs, was, b, i);
    }
    assert m.vals == n.vals && m.isset == n.isset;
    ReadMeaning(TStruct(fs), was, Struct(a), rest);
    ReadMeaning(TStruct(fs), was, Struct(b), rest);
  }

  /** Fields with an unknown id, or with a known id and the wrong wire type. */
  predicate Ignored(fs: seq<Field>, f: WireField) {
    WellFormed(f.value) && Target(fs, f.id, TypeOf(f.value)) == |fs|
  }

  /** Which fields are ignored: exactly those that no field of the schema has both the id and the wire type of. */
  lemma IgnoredIffNoTarget(fs: seq<Field>, f: WireField)
    requires ValidSchema(TStruct(fs)) && WellFormed(f.value)
    ensures Ignored(fs, f) <==> forall i | 0 <= i < |fs| :: fs[i].id != f.id || WireType(fs[i].ty) != TypeOf(f.value)
  {
    forall i | 0 <= i < |fs| && fs[i].id == f.id && WireType(fs[i].ty) == TypeOf(f.value) ensures !Ignored(fs, f) {
      TargetOfPosition(fs, i);
    }
  }

  lemma {:induction false} OccurrencesAppend(fs: seq<Field>, i: nat, a: seq<WireField>, b: seq<WireField>)
    ensures Occurrences(fs, i, a + b) == Occurrences(fs, i, a) + Occurrences(fs, i, b)
  {
    hide Occurrence;
    if |a| == 0 {
      assert a + b == b;
    } else {
      assert (a + b)[1..] == a[1..] + b;
      OccurrencesAppend(fs, i, a[1..], b);
    }
  }

  lemma {:induction false} IgnoredHaveNoOccurrences(fs: seq<Field>, i: nat, junk: seq<WireField>)
    requires i < |fs| && forall f <- junk :: Ignored(fs, f)
    ensures Occurrences(fs, i, junk) == []
  {
    if |junk| > 0 {
      assert Ignored(fs, junk[0]);
      IgnoredHaveNoOccurrences(fs, i, junk[1..]);
    }
  }

  lemma IgnoredFieldsFit(fs: seq<Field>, a: seq<WireField>, junk: seq<WireField>, b: seq<WireField>)
    requires (forall f <- a + b :: FieldFits(fs, f)) && (forall f <- junk :: Ignored(fs, f))
    ensures forall f <- a + junk + b :: FieldFits(fs, f)
  {
    forall f | f in a + junk + b ensures FieldFits(fs, f) {
      if f in junk {
        assert Ignored(fs, f);
      } else {
        assert f in a + b;
      }
    }
  }

  lemma IgnoredOccurrences(fs: seq<Field>, i: nat, a: seq<WireField>, junk: seq<WireField>, b: seq<WireField>)
    requires i < |fs| && forall f <- junk :: Ignored(fs, f)
    ensures Occurrences(fs, i, a + b) == Occurrences(fs, i, a + junk + b)
  {
    hide Ignored;
    OccurrencesAppend(fs, i, a + junk, b);
    OccurrencesAppend(fs, i, a, junk);
    OccurrencesAppend(fs, i, a, b);
    IgnoredHaveNoOccurrences(fs, i, junk);
  }

  /** Inserting any number of ignored fields anywhere changes nothing. */
  lemma IgnoredFieldsChangeNothing(fs: seq<Field>, was: Val, a: seq<WireField>, junk: seq<WireField>,
      b: seq<WireField>, rest: Bytes)
    requires HasType(TStruct(fs), was)
    requires (forall f <- a + b :: FieldFits(fs, f)) && (forall f <- junk :: Ignored(fs, f))
    ensures ReadVal(TStruct(fs), was, Encode(Struct(a + junk + b)) + rest)
         == ReadVal(TStruct(fs), was, Encode(Struct(a + b)) + rest)
         == Done(MergeFields(fs, was, a + b), rest)
  {
    hide Ignored;
    IgnoredFieldsFit(fs, a, junk, b);
    forall i | 0 <= i < |fs| ensures Occurrences(fs, i, a + b) == Occurrences(fs, i, a + junk + b) {
      IgnoredOccurrences(fs, i, a, junk, b);
    }
    ReaderTolerance(fs, was, a + b, a + junk + b, rest);
  }

  ghost predicate UniqueIds(stream: seq<WireField>) {
    forall i, j | 0 <= i < j < |stream| :: stream[i].id != stream[j].id
  }

  lemma UniqueIdsCountOnce(a: seq<WireField>, f: WireField)
    requires UniqueIds(a)
    ensures multiset(a)[f] <= 1
  {
    if f in a {
      var k :| 0 <= k < |a| && a[k] == f;
      assert a == a[..k] + [f] + a[k + 1..];
      assert multiset(a) == multiset(a[..k]) + multiset{f} + multiset(a[k + 1..]);
      assert f !in a[..k] && f !in a[k + 1..];
    }
  }

  lemma RepeatedCountTwice(b: seq<WireField>, i: nat, j: nat)
    requires i < j < |b| && b[i] == b[j]
    ensures multiset(b)[b[i]] >= 2
  {
    assert b == b[..j] + [b[j]] + b[j + 1..];
    assert multiset(b) == multiset(b[..j]) + multiset{b[j]} + multiset(b[j + 1..]);
    assert b[..j][i] in multiset(b[..j]);
  }

  lemma UniqueIdsPermuted(a: seq<WireField>, b: seq<WireField>)
    requires UniqueIds(a) && multiset(a) == multiset(b)
    ensures UniqueIds(b)
  {
    forall i, j | 0 <= i < j < |b| ensures b[i].id != b[j].id {
      UniqueIdsCountOnce(a, b[i]);
      assert b[i] in multiset(b) && b[j] in multiset(b);
      assert b[i] in a && b[j] in a;
      if b[i] == b[j] {
        RepeatedCountTwice(b, i, j);
      }
    }
  }

  lemma {:induction false} OccurrencesAreMembers(fs: seq<Field>, i: nat, stream: seq<WireField>, w: Wire)
    ensures w in Occurrences(fs, i, stream) <==> exists f ::
      f in stream && f.value == w && Target(fs, f.id, TypeOf(w)) == i
  {
    if |stream| > 0 {
      OccurrencesAreMembers(fs, i, stream[1..], w);
      assert forall f :: f in stream <==> f == stream[0] || f in stream[1..];
    }
  }

  lemma {:induction false} UniqueIdsOccurOnce(fs: seq<Field>, i: nat, stream: seq<WireField>)
    requires i < |fs| && UniqueIds(stream)
    ensures |Occurrences(fs, i, stream)| <= 1
  {
    if |stream| > 0 {
      UniqueIdsOccurOnce(fs, i, stream[1..]);
      if Target(fs, stream[0].id, TypeOf(stream[0].value)) == i && Occurrences(fs, i, stream[1..]) != [] {
        var w := Occurrences(fs, i, stream[1..])[0];
        OccurrencesAreMembers(fs, i, stream[1..], w);
        assert false;
      }
    }
  }

  lemma SameMembers(a: seq<WireField>, b: seq<WireField>)
    requires multiset(a) == multiset(b)
    ensures forall f :: f in a <==> f in b
  {
    assert forall f :: f in a <==> f in multiset(a);
    assert forall f :: f in b <==> f in multiset(b);
  }

  lemma AtMostOne(x: seq<Wire>, y: seq<Wire>)
    requires |x| <= 1 && |y| <= 1 && forall w :: w in x <==> w in y
    ensures x == y
  {
    if |x| == 1 {
      assert x[0] in y;
    }
    if |y| == 1 {
      assert y[0] in x;
    }
  }

  lemma PermutedOccurrences(fs: seq<Field>, i: nat, a: seq<WireField>, b: seq<WireField>)
    requires i < |fs| && UniqueIds(a) && UniqueIds(b) && forall f :: f in a <==> f in b
    ensures Occurrences(fs, i, a) == Occurrences(fs, i, b)
  {
    hide Target, UniqueIds;
    UniqueIdsOccurOnce(fs, i, a);
    UniqueIdsOccurOnce(fs, i, b);
    forall w ensures w in Occurrences(fs, i, a) <==> w in Occurrences(fs, i, b) {
      OccurrencesAreMembers(fs, i, a, w);
      OccurrencesAreMembers(fs, i, b, w);
    }
    AtMostOne(Occurrences(fs, i, a), Occurrences(fs, i, b));
  }

  lemma {:induction false} WrittenIdsComeFrom(fs: seq<Field>, vals: seq<Val>, isset: seq<bool>, k: nat, f: WireField)
    requires k <= |fs| == |vals| == |isset| && HasType(TStruct(fs), VStruct(vals, isset))
    requires f in FieldsToWire(fs, vals, isset, k)
    ensures exists i :: k <= i < |fs| && fs[i].id == f.id
    decreases |fs| - k
  {
    if k < |fs| && f in FieldsToWire(fs, vals, isset, k + 1) {
      WrittenIdsComeFrom(fs, vals, isset, k + 1, f);
    } else {
      assert fs[k].id == f.id;
    }
  }

  /** What a writer lays out has each id once, so a reader takes it in any order. */
  lemma {:induction false} WrittenIdsOccurOnce(fs: seq<Field>, vals: seq<Val>, isset: seq<bool>, k: nat)
    requires ValidSchema(TStruct(fs)) && HasType(TStruct(fs), VStruct(vals, isset)) && k <= |fs| == |vals| == |isset|
    ensures UniqueIds(FieldsToWire(fs, vals, isset, k))
    decreases |fs| - k
  {
    if k < |fs| {
      WrittenIdsOccurOnce(fs, vals, isset, k + 1);
      var tail := FieldsToWire(fs, vals, isset, k + 1);
      forall f | f in tail ensures f.id != fs[k].id {
        WrittenIdsComeFrom(fs, vals, isset, k + 1, f);
      }
    }
  }

  /** Permuting fields whose ids each occur once changes nothing. */
  lemma PermutedFieldsChangeNothing(fs: seq<Field>, was: Val, a: seq<WireField>, b: seq<WireField>, rest: Bytes)
    requires HasType(TStruct(fs), was) && (forall f <- a :: FieldFits(fs, f))
    requires UniqueIds(a) && multiset(a) == multiset(b)
    ensures ReadVal(TStruct(fs), was, Encode(Struct(b)) + rest)
         == ReadVal(TStruct(fs), was, Encode(Struct(a)) + rest)
         == Done(MergeFields(fs, was, a), rest)
  {
    UniqueIdsPermuted(a, b);
    SameMembers(a, b);
    forall i | 0 <= i < |fs| ensures Occurrences(fs, i, a) == Occurrences(fs, i, b) {
      PermutedOccurrences(fs, i, a, b);
    }
    ReaderTolerance(fs, was, a, b, rest);
  }

  // -------------------------------------------------------------------------------------------------------------
  // What a stream means, leaf by leaf through nested structs
  // -------------------------------------------------------------------------------------------------------------

  /** A path of positions through nested structs that ends at a member which is not itself a struct. */
  ghost predicate IsLeaf(ty: Ty, path: seq<nat>)
    decreases |path|
  {
    if |path| == 0 then !ty.TStruct?
    else ty.TStruct? && path[0] < |ty.fields| && IsLeaf(ty.fields[path[0]].ty, path[1..])
  }

  ghost function LeafType(ty: Ty, path: seq<nat>): Ty
    requires IsLeaf(ty, path)
    decreases |path|
  {
    if |path| == 0 then ty else LeafType(ty.fields[path[0]].ty, path[1..])
  }

  ghost function At(ty: Ty, v: Val, path: seq<nat>): Val
    requires IsLeaf(ty, path) && HasType(ty, v)
    decreases |path|
  {
    if |path| == 0 then v else At(ty.fields[path[0]].ty, v.vals[path[0]], path[1..])
  }

  /** The presence flag beside a leaf, in the struct that holds it. */
  ghost function FlagAt(ty: Ty, v: Val, path: seq<nat>): bool
    requires |path| > 0 && IsLeaf(ty, path) && HasType(ty, v)
    decreases |path|
  {
    if |path| == 1 then v.isset[path[0]] else FlagAt(ty.fields[path[0]].ty, v.vals[path[0]], path[1..])
  }

  /** All values the stream has for a leaf, in order, through every repetition of the structs around it. */
  ghost function Mentions(ty: Ty, path: seq<nat>, w: Wire): (ws: seq<Wire>)
    requires IsLeaf(ty, path) && Fits(ty, w)
    ensures forall x <- ws :: Fits(LeafType(ty, path), x)
    decreases w, 1
  {
    if |path| == 0 then [w] else MentionsIn(ty.fields, path, w.fields)
  }

  ghost function MentionsIn(fs: seq<Field>, path: seq<nat>, stream: seq<WireField>): (ws: seq<Wire>)
    requires |path| > 0 && IsLeaf(TStruct(fs), path) && forall f <- stream :: FieldFits(fs, f)
    ensures forall x <- ws :: Fits(LeafType(TStruct(fs), path), x)
    decreases stream, 0
  {
    if |stream| == 0 then []
    else MentionsOf(fs, path, stream[0]) + MentionsIn(fs, path, stream[1..])
  }

  ghost function MentionsOf(fs: seq<Field>, path: seq<nat>, f: WireField): (ws: seq<Wire>)
    requires |path| > 0 && IsLeaf(TStruct(fs), path) && FieldFits(fs, f)
    ensures forall x <- ws :: Fits(LeafType(TStruct(fs), path), x)
    decreases f, 0
  {
    if Target(fs, f.id, TypeOf(f.value)) == path[0] then Mentions(fs[path[0]].ty, path[1..], f.value) else []
  }

  /** The value of a leaf: its last mention, read afresh, or what it held before if it is never mentioned. */
  ghost function LastMention(leaf: Ty, was: Val, ws: seq<Wire>): Val
    requires forall x <- ws :: Fits(leaf, x)
  {
    if |ws| == 0 then was else Merge(leaf, Default(leaf), ws[|ws| - 1])
  }

  /** Every leaf ends up with its last mention: nested structs merge leaf by leaf, a repeated list replaces the earlier
      one, and leaves that are never mentioned keep their value.  A leaf's flag says whether it was ever mentioned. */
  lemma {:induction false} LeafMeaning(ty: Ty, was: Val, w: Wire, path: seq<nat>)
    requires HasType(ty, was) && Fits(ty, w) && IsLeaf(ty, path)
    ensures At(ty, Merge(ty, was, w), path) == LastMention(LeafType(ty, path), At(ty, was, path), Mentions(ty, path, w))
    ensures |path| > 0 ==> FlagAt(ty, Merge(ty, was, w), path) == (FlagAt(ty, was, path) || Mentions(ty, path, w) != [])
    decreases w, 1
  {
    if |path| > 0 {
      LeafMeaningIn(ty.fields, was, w.fields, path);
    }
  }

  lemma {:induction false} LeafMeaningIn(fs: seq<Field>, was: Val, stream: seq<WireField>, path: seq<nat>)
    requires HasType(TStruct(fs), was) && |path| > 0 && IsLeaf(TStruct(fs), path) && forall f <- stream ::
      FieldFits(fs, f)
    ensures At(TStruct(fs), MergeFields(fs, was, stream), path)
         == LastMention(LeafType(TStruct(fs), path), At(TStruct(fs), was, path), MentionsIn(fs, path, stream))
    ensures FlagAt(TStruct(fs), MergeFields(fs, was, stream), path)
         == (FlagAt(TStruct(fs), was, path) || MentionsIn(fs, path, stream) != [])
    decreases stream, 0
  {
    if |stream| > 0 {
      var f := stream[0];
      assert FieldFits(fs, f);
      assert f.value < f;
      if Target(fs, f.id, TypeOf(f.value)) == path[0] {
        LeafMeaning(fs[path[0]].ty, was.vals[path[0]], f.value, path[1..]);
      }
      LeafMeaningIn(fs, MergeField(fs, was, f), stream[1..], path);
    }
  }

  // -------------------------------------------------------------------------------------------------------------
  // Schemas of the generated structs
  // -------------------------------------------------------------------------------------------------------------

  /** Schemas that the round-trip laws apply to. */
  ghost predicate Plain(ty: Ty) {
    ValidSchema(ty) && Unguarded(ty)
  }

  /** A struct whose fields are numbered from 1 and are plain themselves. */
  lemma PlainStruct(fs: seq<Field>)
    requires forall i | 0 <= i < |fs| :: fs[i].id == i + 1 && !fs[i].guarded && Plain(fs[i].ty)
    ensures Plain(TStruct(fs))
  {
  }

  lemma PlainList(elem: Ty)
    ensures Plain(TList(elem)) == Plain(elem)
  {
  }

  lemma PlainLeaves()
    ensures Plain(TBool) && Plain(TI32) && Plain(TString)
  {
  }
}
