/** Which changes to a stream the reader does not notice at any depth, in nested structs and list elements. */
module ThriftTolerance {
  import opened ThriftWire
  import opened ThriftCodec
  import opened ThriftLaws

  /** Two values say the same to a reader: every member has as many occurrences in both, which say the same
      pairwise, and every list has as many elements in both, which say the same pairwise.  Where the occurrences
      stand among each other, and what stands between them that the reader ignores, is left open at every level. */
  ghost predicate SaySame(ty: Ty, a: Wire, b: Wire)
    decreases ty, 0
  {
    match ty
    case TStruct(fs) =>
      && a.Struct? && b.Struct?
      && forall i | 0 <= i < |fs| :: AllSaySame(fs[i].ty, Occurrences(fs, i, a.fields), Occurrences(fs, i, b.fields))
    case TList(elem) => a.Sequence? && b.Sequence? && AllSaySame(elem, a.elems, b.elems)
    case _ => a == b
  }

  ghost predicate AllSaySame(ty: Ty, a: seq<Wire>, b: seq<Wire>)
    decreases ty, 1
  {
    |a| == |b| && forall k | 0 <= k < |a| :: SaySame(ty, a[k], b[k])
  }

  /** Values that say the same mean the same, whatever the member held. */
  lemma {:induction false} SameMeaning(ty: Ty, was: Val, a: Wire, b: Wire)
    requires HasType(ty, was) && Fits(ty, a) && Fits(ty, b) && SaySame(ty, a, b)
    ensures Merge(ty, was, a) == Merge(ty, was, b)
    decreases ty, 0
  {
    match ty
    case TStruct(fs) =>
      var m, n := MergeFields(fs, was, a.fields), MergeFields(fs, was, b.fields);
      forall i | 0 <= i < |fs| ensures m.vals[i] == n.vals[i] && m.isset[i] == n.isset[i] {
        MemberMeaning(fs, was, a.fields, i);
        MemberMeaning(fs, was, b.fields, i);
        var x, y := Occurrences(fs, i, a.fields), Occurrences(fs, i, b.fields);
        assert AllSaySame(fs[i].ty, x, y);
        assert fs[i].ty < ty;
        SameMeaningAll(fs[i].ty, was.vals[i], x, y);
      }
    case TList(elem) => SameMeaningElems(elem, a.elems, b.elems);
    case _ =>
  }

  lemma {:induction false} SameMeaningAll(ty: Ty, was: Val, a: seq<Wire>, b: seq<Wire>)
    requires HasType(ty, was) && (forall w <- a :: Fits(ty, w)) && (forall w <- b :: Fits(ty, w))
      && AllSaySame(ty, a, b)
    ensures MergeAll(ty, was, a) == MergeAll(ty, was, b)
    decreases ty, 1, |a|
  {
    if |a| > 0 {
      assert a[0] in a && b[0] in b && SaySame(ty, a[0], b[0]);
      SameMeaning(ty, was, a[0], b[0]);
      SameMeaningAll(ty, Merge(ty, was, a[0]), a[1..], b[1..]);
    }
  }

  lemma {:induction false} SameMeaningElems(elem: Ty, a: seq<Wire>, b: seq<Wire>)
    requires (forall w <- a :: Fits(elem, w)) && (forall w <- b :: Fits(elem, w)) && AllSaySame(elem, a, b)
    ensures MergeElems(elem, a) == MergeElems(elem, b)
    decreases elem, 1, |a|
  {
    if |a| > 0 {
      assert a[0] in a && b[0] in b && SaySame(elem, a[0], b[0]);
      SameMeaning(elem, Default(elem), a[0], b[0]);
      SameMeaningElems(elem, a[1..], b[1..]);
    }
  }

  /** Reordering and ignored fields, at any depth, change nothing in what a read leaves and where it stops. */
  lemma DeepTolerance(ty: Ty, was: Val, a: Wire, b: Wire, rest: Bytes)
    requires HasType(ty, was) && Fits(ty, a) && Fits(ty, b) && SaySame(ty, a, b)
    ensures ReadVal(ty, was, Encode(a) + rest) == ReadVal(ty, was, Encode(b) + rest) == Done(Merge(ty, was, a), rest)
  {
    SameMeaning(ty, was, a, b);
    ReadMeaning(ty, was, a, rest);
    ReadMeaning(ty, was, b, rest);
  }

  // -------------------------------------------------------------------------------------------------------------
  // Ignored fields
  // -------------------------------------------------------------------------------------------------------------

  /** The value without the fields that the reader ignores, at every level and in every element. */
  function Trim(ty: Ty, w: Wire): (t: Wire)
    ensures TypeOf(t) == TypeOf(w)
    decreases w, 1
  {
    match ty
    case TStruct(fs) => if w.Struct? then Struct(TrimFields(fs, w.fields)) else w
    case TList(elem) => if w.Sequence? then w.(elems := TrimElems(elem, w.elems)) else w
    case _ => w
  }

  function TrimFields(fs: seq<Field>, stream: seq<WireField>): seq<WireField>
    decreases stream, 0
  {
    if |stream| == 0 then [] else TrimField(fs, stream[0]) + TrimFields(fs, stream[1..])
  }

  function TrimField(fs: seq<Field>, f: WireField): seq<WireField>
    decreases f, 0
  {
    var i := Target(fs, f.id, TypeOf(f.value));
    if i < |fs| then [WireField(f.id, Trim(fs[i].ty, f.value))] else []
  }

  function TrimElems(elem: Ty, elems: seq<Wire>): (ts: seq<Wire>)
    ensures |ts| == |elems|
    ensures forall k | 0 <= k < |elems| :: ts[k] == Trim(elem, elems[k])
    decreases elems, 0
  {
    if |elems| == 0 then [] else [Trim(elem, elems[0])] + TrimElems(elem, elems[1..])
  }

  lemma {:induction false} TrimFits(ty: Ty, w: Wire)
    requires Fits(ty, w)
    ensures Fits(ty, Trim(ty, w))
    decreases w, 1
  {
    match ty
    case TStruct(fs) => TrimFieldsFit(fs, w.fields);
    case TList(elem) =>
      var ts := TrimElems(elem, w.elems);
      forall k | 0 <= k < |ts| ensures Fits(elem, ts[k]) && TypeOf(ts[k]) == w.etype {
        assert w.elems[k] in w.elems;
        TrimFits(elem, w.elems[k]);
      }
    case _ =>
  }

  lemma {:induction false} TrimFieldsFit(fs: seq<Field>, stream: seq<WireField>)
    requires forall f <- stream :: FieldFits(fs, f)
    ensures forall f <- TrimFields(fs, stream) :: FieldFits(fs, f)
    decreases stream, 0
  {
    if |stream| > 0 {
      var f := stream[0];
      assert FieldFits(fs, f) && f.value < f;
      var i := Target(fs, f.id, TypeOf(f.value));
      if i < |fs| {
        TrimFits(fs[i].ty, f.value);
      }
      TrimFieldsFit(fs, stream[1..]);
    }
  }

  /** The reader stores every field of the value, at every level and in every element. */
  ghost predicate AllStored(ty: Ty, w: Wire)
    decreases w
  {
    match ty
    case TStruct(fs) =>
      w.Struct? && forall f <- w.fields ::
        exists i :: 0 <= i < |fs| && fs[i].id == f.id && WireType(fs[i].ty) == TypeOf(f.value) && AllStored(fs[i].ty,
          f.value)
    case TList(elem) => w.Sequence? && forall e <- w.elems :: AllStored(elem, e)
    case _ => true
  }

  /** After trimming nothing that the reader ignores is left, at any level. */
  lemma {:induction false} TrimLeavesStored(ty: Ty, w: Wire)
    requires Fits(ty, w)
    ensures AllStored(ty, Trim(ty, w))
    decreases w, 1
  {
    match ty
    case TStruct(fs) => TrimLeavesStoredFields(fs, w.fields);
    case TList(elem) =>
      forall k | 0 <= k < |w.elems| ensures AllStored(elem, Trim(elem, w.elems[k])) {
        assert w.elems[k] in w.elems;
        TrimLeavesStored(elem, w.elems[k]);
      }
    case _ =>
  }

  lemma {:induction false} TrimLeavesStoredFields(fs: seq<Field>, stream: seq<WireField>)
    requires forall f <- stream :: FieldFits(fs, f)
    ensures forall f <- TrimFields(fs, stream) ::
      exists i :: 0 <= i < |fs| && fs[i].id == f.id && WireType(fs[i].ty) == TypeOf(f.value) && AllStored(fs[i].ty,
        f.value)
    decreases stream, 0
  {
    if |stream| > 0 {
      var f := stream[0];
      assert FieldFits(fs, f) && f.value < f;
      var i := Target(fs, f.id, TypeOf(f.value));
      if i < |fs| {
        TrimLeavesStored(fs[i].ty, f.value);
        assert fs[i].id == f.id;
      }
      TrimLeavesStoredFields(fs, stream[1..]);
    }
  }

  lemma {:induction false} OccurrencesOfTrimmed(fs: seq<Field>, i: nat, stream: seq<WireField>)
    requires i < |fs|
    ensures var x, y := Occurrences(fs, i, stream), Occurrences(fs, i, TrimFields(fs, stream));
      |x| == |y| && forall k | 0 <= k < |x| :: y[k] == Trim(fs[i].ty, x[k])
  {
    if |stream| > 0 {
      OccurrencesOfTrimmed(fs, i, stream[1..]);
      OccurrencesAppend(fs, i, TrimField(fs, stream[0]), TrimFields(fs, stream[1..]));
    }
  }

  lemma {:induction false} TrimSaysSame(ty: Ty, w: Wire)
    requires Fits(ty, w)
    ensures SaySame(ty, w, Trim(ty, w))
    decreases ty
  {
    match ty
    case TStruct(fs) =>
      forall i | 0 <= i < |fs|
        ensures AllSaySame(fs[i].ty, Occurrences(fs, i, w.fields), Occurrences(fs, i, TrimFields(fs, w.fields)))
      {
        OccurrencesFit(fs, i, w.fields);
        OccurrencesOfTrimmed(fs, i, w.fields);
        var x := Occurrences(fs, i, w.fields);
        forall k | 0 <= k < |x| ensures SaySame(fs[i].ty, x[k], Trim(fs[i].ty, x[k])) {
          assert x[k] in x && fs[i].ty < ty;
          TrimSaysSame(fs[i].ty, x[k]);
        }
      }
    case TList(elem) =>
      forall k | 0 <= k < |w.elems| ensures SaySame(elem, w.elems[k], Trim(elem, w.elems[k])) {
        assert w.elems[k] in w.elems;
        TrimSaysSame(elem, w.elems[k]);
      }
    case _ =>
  }

  /** Fields with unknown ids, or known ids and the wrong type, inside nested structs and list elements too, change
      nothing: the value reads as it does without them. */
  lemma IgnoredAnywhere(ty: Ty, was: Val, w: Wire, rest: Bytes)
    requires HasType(ty, was) && Fits(ty, w)
    ensures Fits(ty, Trim(ty, w)) && AllStored(ty, Trim(ty, w))
    ensures ReadVal(ty, was, Encode(w) + rest) == ReadVal(ty, was, Encode(Trim(ty, w)) + rest)
      == Done(Merge(ty, was, w), rest)
  {
    TrimFits(ty, w);
    TrimLeavesStored(ty, w);
    TrimSaysSame(ty, w);
    DeepTolerance(ty, was, w, Trim(ty, w), rest);
  }

  // -------------------------------------------------------------------------------------------------------------
  // Permuted fields
  // -------------------------------------------------------------------------------------------------------------

  lemma {:induction false} SaysSameAsItself(ty: Ty, w: Wire)
    requires Fits(ty, w)
    ensures SaySame(ty, w, w)
    decreases ty
  {
    match ty
    case TStruct(fs) =>
      forall i | 0 <= i < |fs|
        ensures AllSaySame(fs[i].ty, Occurrences(fs, i, w.fields), Occurrences(fs, i, w.fields))
      {
        OccurrencesFit(fs, i, w.fields);
        var x := Occurrences(fs, i, w.fields);
        forall k | 0 <= k < |x| ensures SaySame(fs[i].ty, x[k], x[k]) {
          assert x[k] in x && fs[i].ty < ty;
          SaysSameAsItself(fs[i].ty, x[k]);
        }
      }
    case TList(elem) =>
      forall k | 0 <= k < |w.elems| ensures SaySame(elem, w.elems[k], w.elems[k]) {
        assert w.elems[k] in w.elems;
        SaysSameAsItself(elem, w.elems[k]);
      }
    case _ =>
  }

  /** Permuting fields whose ids each occur once makes a value that says the same, so it may be done at any depth. */
  lemma PermutedSaysSame(fs: seq<Field>, a: seq<WireField>, b: seq<WireField>)
    requires Fits(TStruct(fs), Struct(a)) && UniqueIds(a) && multiset(a) == multiset(b)
    ensures SaySame(TStruct(fs), Struct(a), Struct(b))
  {
    UniqueIdsPermuted(a, b);
    SameMembers(a, b);
    SaysSameAsItself(TStruct(fs), Struct(a));
    forall i | 0 <= i < |fs| ensures Occurrences(fs, i, a) == Occurrences(fs, i, b) {
      PermutedOccurrences(fs, i, a, b);
    }
  }
}
