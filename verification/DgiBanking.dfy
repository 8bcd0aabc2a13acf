/** The banking service: the client's send and recv, the processor's dispatch, and exchanges between them. */
module DgiBanking {
  import opened Wrappers
  import opened ThriftWire
  import opened ThriftCodec
  import opened ThriftLaws
  import opened ThriftProtocol
  import opened ThriftMessage
  import opened ThriftEncoding
  import opened DgiCommonTypes
  import opened DgiBankingTypes
  import opened DgiBankingArgs
  import opened DgiBankingResults

  datatype Call = AddCard | DeleteCard | DeleteCardByNumber | GetCards | GetCard

  function Ascii(s: string): (b: Bytes)
    ensures |b| == |s|
    ensures forall i | 0 <= i < |s| && s[i] < 128 as char :: b[i] == s[i] as int
  {
    seq(|s|, i requires 0 <= i < |s| => if s[i] < 128 as char then s[i] as int else 63)
  }

  function NameOf(call: Call): (name: Bytes)
    ensures |name| < 0x1_0000_0000
  {
    match call
    case AddCard => Ascii("AddCard")
    case DeleteCard => Ascii("DeleteCard")
    case DeleteCardByNumber => Ascii("DeleteCardByNumber")
    case GetCards => Ascii("GetCards")
    case GetCard => Ascii("GetCard")
  }

  /** The names of the calls, in ASCII. */
  lemma NamesInBytes()
    ensures NameOf(AddCard) == [65, 100, 100, 67, 97, 114, 100]
    ensures NameOf(DeleteCard) == [68, 101, 108, 101, 116, 101, 67, 97, 114, 100]
    ensures NameOf(DeleteCardByNumber)
      == [68, 101, 108, 101, 116, 101, 67, 97, 114, 100, 66, 121, 78, 117, 109, 98, 101, 114]
    ensures NameOf(GetCards) == [71, 101, 116, 67, 97, 114, 100, 115]
    ensures NameOf(GetCard) == [71, 101, 116, 67, 97, 114, 100]
  {
  }

  lemma NamesDiffer(a: Call, b: Call)
    requires a != b
    ensures NameOf(a) != NameOf(b)
  {
    if |NameOf(a)| == |NameOf(b)| {
      assert "AddCard"[0] == 'A' && "GetCard"[0] == 'G';
      assert NameOf(a)[0] != NameOf(b)[0];
    }
  }

  /** The arguments struct of a call. */
  function ArgsOf(call: Call): (ty: Ty)
    ensures ty.TStruct?
  {
    match call
    case AddCard => CARD_ARGS
    case DeleteCard => CARD_ARGS
    case DeleteCardByNumber => NUMBER_ARGS
    case GetCards => SID_ARGS
    case GetCard => NUMBER_ARGS
  }

  /** What a call returns. */
  function SuccessOf(call: Call): Ty {
    match call
    case AddCard => DGI_RESULT
    case DeleteCard => DGI_RESULT
    case DeleteCardByNumber => DGI_RESULT
    case GetCards => TList(BANK_CARD)
    case GetCard => RESP_BANK_CARD
  }

  /** The result struct of a call: one guarded member. */
  function ResultOf(call: Call): Ty {
    TStruct([Field(0, SuccessOf(call), true)])
  }

  lemma CallSchemas(call: Call)
    ensures Plain(ArgsOf(call)) && Plain(SuccessOf(call)) && ValidSchema(ResultOf(call))
  {
    DgiResultSchema();
    BankCardSchema();
    RespBankCardSchema();
    CardArgsSchema();
    NumberArgsSchema();
    SidArgsSchema();
    PlainList(BANK_CARD);
  }

  // -------------------------------------------------------------------------------------------------------------
  // The processor
  // -------------------------------------------------------------------------------------------------------------

  /** What a handler does with a call: it fills the result, or throws. */
  datatype Outcome = Returned(val: Val) | Threw(what: Bytes)

  /** A handler takes its state, the call and the values of the arguments to its new state and an outcome. */
  type Handler<!S> = (S, Call, seq<Val>) -> (S, Outcome)

  /** A handler fills the result with a value of the declared type. */
  ghost predicate Typed<S(!new)>(handler: Handler<S>) {
    forall st, call, args :: var o := handler(st, call, args).1; o.Returned? ==> HasType(SuccessOf(call), o.val)
  }

  /** What the library's process step and the dispatch leave behind: nothing but a closed connection, or the
      handler's new state, the bytes written and the bytes not yet read. */
  datatype Served<S> = Closed | Served(state: S, output: Bytes, rest: Bytes)

  function ResultVal(v: Val): Val {
    VStruct([v], [true])
  }

  function ExceptionMessage(name: Bytes, seqid: i32, text: Bytes, kind: i32): Bytes {
    MessageBegin(name, T_EXCEPTION, seqid) + Write(APPLICATION_EXCEPTION, ExceptionVal(text, kind))
  }

  /** The reply to a known call. */
  function Reply(call: Call, seqid: i32, o: Outcome): Bytes
    requires o.Returned? ==> HasType(SuccessOf(call), o.val)
  {
    match o
    case Returned(v) => MessageBegin(NameOf(call), T_REPLY, seqid) + Write(ResultOf(call), ResultVal(v))
    case Threw(what) => ExceptionMessage(NameOf(call), seqid, what, UNKNOWN)
  }

  function Lookup(name: Bytes): Option<Call> {
    if name == NameOf(AddCard) then Some(AddCard)
    else if name == NameOf(DeleteCard) then Some(DeleteCard)
    else if name == NameOf(DeleteCardByNumber) then Some(DeleteCardByNumber)
    else if name == NameOf(GetCards) then Some(GetCards)
    else if name == NameOf(GetCard) then Some(GetCard)
    else None
  }

  lemma LookupName(call: Call)
    ensures Lookup(NameOf(call)) == Some(call)
  {
    hide NameOf;
    if call != AddCard { NamesDiffer(call, AddCard); }
    if call != DeleteCard { NamesDiffer(call, DeleteCard); }
    if call != DeleteCardByNumber { NamesDiffer(call, DeleteCardByNumber); }
    if call != GetCards { NamesDiffer(call, GetCards); }
  }

  function InvalidName(name: Bytes): Bytes {
    Ascii("Invalid method name: '") + name + Ascii("'")
  }

  /** The specification of dispatchCall and of the process functions behind it. */
  function Dispatch<S(!new)>(handler: Handler<S>, st: S, name: Bytes, seqid: i32, body: Bytes): Served<S>
    requires Typed(handler)
  {
    match Lookup(name)
    case None =>
      (match Skip(T_STRUCT, body)
       case None => Closed
       case Some(rest) => Served(st, ExceptionMessage(name, seqid, InvalidName(name), UNKNOWN_METHOD), rest))
    case Some(call) =>
      match ReadVal(ArgsOf(call), Default(ArgsOf(call)), body)
      case Failed => Closed
      case Done(args, rest) =>
        var (st', o) := handler(st, call, args.vals);
        Served(st', Reply(call, seqid, o), rest)
  }

  /** Reads the arguments of a call into an object of their own. */
  method ReadArgs(call: Call, iprot: TProtocol) returns (r: Try<seq<Val>>)
    modifies iprot`input
    ensures var spec := ReadVal(ArgsOf(call), Default(ArgsOf(call)), old(iprot.input));
      if spec.Failed? then r.Thrown? else r == Got(spec.val.vals) && iprot.input == spec.rest
  {
    hide ReadVal, Default, HasType, Count, BankCard.Value;
    DefaultArgs();
    match call
    case AddCard =>
      r := ReadCardArgs(iprot);
    case DeleteCard =>
      r := ReadCardArgs(iprot);
    case DeleteCardByNumber =>
      r := ReadNumberArgs(iprot);
    case GetCards =>
      var args := new SidArgs([]);
      var n :- args.Read(iprot);
      return Got(args.Value().vals);
    case GetCard =>
      r := ReadNumberArgs(iprot);
  }

  method ReadCardArgs(iprot: TProtocol) returns (r: Try<seq<Val>>)
    modifies iprot`input
    ensures var spec := ReadVal(CARD_ARGS, Default(CARD_ARGS), old(iprot.input));
      if spec.Failed? then r.Thrown? else r == Got(spec.val.vals) && iprot.input == spec.rest
  {
    hide ReadVal, Default, HasType, Count, BankCard.Value;
    DefaultArgs();
    var card := new BankCard();
    var args := new CardArgs([], card);
    var n :- args.Read(iprot);
    return Got(args.Value().vals);
  }

  method ReadNumberArgs(iprot: TProtocol) returns (r: Try<seq<Val>>)
    modifies iprot`input
    ensures var spec := ReadVal(NUMBER_ARGS, Default(NUMBER_ARGS), old(iprot.input));
      if spec.Failed? then r.Thrown? else r == Got(spec.val.vals) && iprot.input == spec.rest
  {
    hide ReadVal, Default, HasType, Count;
    DefaultArgs();
    var args := new NumberArgs([], []);
    var n :- args.Read(iprot);
    return Got(args.Value().vals);
  }

  lemma DefaultArgs()
    ensures Default(CARD_ARGS) == VStruct([VString([]), Default(BANK_CARD)], [false, false])
    ensures Default(NUMBER_ARGS) == VStruct([VString([]), VString([])], [false, false])
    ensures Default(SID_ARGS) == VStruct([VString([])], [false])
  {
    DefaultOfTwo(CARD_ARGS_FIELDS);
    DefaultOfTwo(NUMBER_ARGS_FIELDS);
    DefaultOfOne(SID_ARGS_FIELDS);
  }

  /** The object that holds what a handler has filled in. */
  method FilledBy(call: Call, v: Val) returns (success: Success)
    requires HasType(SuccessOf(call), v)
    ensures success.Type() == SuccessOf(call) && success.Value() == v
  {
    hide HasType, DgiResult.Value, CardList.Value, RespBankCard.Value;
    if call.GetCards? {
      var list := new CardList.Of(v);
      success := OfCards(list);
    } else if call.GetCard? {
      var card := new RespBankCard.Of(v);
      success := OfCard(card);
    } else {
      var result := new DgiResult.Of(v);
      success := OfResult(result);
    }
  }

  /** Writes the reply with what the handler has filled in. */
  method WriteReply(call: Call, seqid: i32, v: Val, oprot: TProtocol)
    requires HasType(SuccessOf(call), v)
    modifies oprot`output
    ensures oprot.output
         == old(oprot.output) + (MessageBegin(NameOf(call), T_REPLY, seqid) + Write(ResultOf(call), ResultVal(v)))
  {
    hide ThriftCodec.Write, MessageBegin, SuccessOf, Success.Value, Success.Type, HasType, Count, NameOf;
    var success := FilledBy(call, v);
    var result := new CallResult(success);
    success.Apart(oprot, result);
    result.isset := true;
    oprot.WriteMessageBegin(NameOf(call), T_REPLY, seqid);
    success.Apart(oprot, result);
    var n := result.Write(oprot);
    success.Apart(oprot, result);
  }

  /** Writes an application exception in place of a reply. */
  method WriteException(name: Bytes, seqid: i32, text: Bytes, kind: i32, oprot: TProtocol)
    modifies oprot`output
    ensures oprot.output == old(oprot.output) + ExceptionMessage(name, seqid, text, kind)
  {
    hide ThriftCodec.Write, MessageBegin, Count;
    var x := new TApplicationException(text, kind);
    oprot.WriteMessageBegin(name, T_EXCEPTION, seqid);
    var n := x.Write(oprot);
  }

  class DgiBankingProcessor<S(!new)> {
    var state: S
    const handler: Handler<S>
    var processMap: map<Bytes, Call>

    /** The processor knows each call under its name and under no other. */
    ghost predicate Valid()
      reads this
    {
      && Typed(handler)
      && forall name :: match Lookup(name)
           case None => name !in processMap
           case Some(call) => name in processMap && processMap[name] == call
    }

    constructor (state: S, handler: Handler<S>)
      requires Typed(handler)
      ensures Valid() && this.state == state && this.handler == handler
    {
      this.state, this.handler := state, handler;
      processMap := map[];
      new;
      processMap := processMap[NameOf(AddCard) := AddCard];
      processMap := processMap[NameOf(DeleteCard) := DeleteCard];
      processMap := processMap[NameOf(DeleteCardByNumber) := DeleteCardByNumber];
      processMap := processMap[NameOf(GetCards) := GetCards];
      processMap := processMap[NameOf(GetCard) := GetCard];
      LookupName(AddCard);
      LookupName(DeleteCard);
      LookupName(DeleteCardByNumber);
      LookupName(GetCards);
      LookupName(GetCard);
      hide NameOf;
    }

    /** One of the five process functions; they differ in their types only. */
    method Process(call: Call, seqid: i32, iprot: TProtocol, oprot: TProtocol) returns (r: Try<bool>)
      requires Valid() && iprot != oprot
      modifies this`state, iprot`input, oprot`output
      ensures Valid()
      ensures match ReadVal(ArgsOf(call), Default(ArgsOf(call)), old(iprot.input))
        case Failed => r.Thrown? && oprot.output == old(oprot.output) && state == old(state)
        case Done(args, rest) =>
          r == Got(true) && iprot.input == rest
          && (state, oprot.output) == (handler(old(state), call, args.vals).0,
                                       old(oprot.output) + Reply(call, seqid, handler(old(state), call, args.vals).1))
    {
      hide ReadVal, ThriftCodec.Write, MessageBegin, SuccessOf, HasType, Count, NameOf, ExceptionMessage, ResultVal;
      var args :- ReadArgs(call, iprot);
      var (st, o) := handler(state, call, args);
      state := st;
      match o {
        case Threw(what) =>
          WriteException(NameOf(call), seqid, what, UNKNOWN, oprot);
        case Returned(v) =>
          WriteReply(call, seqid, v, oprot);
      }
      return Got(true);
    }

    method DispatchCall(iprot: TProtocol, oprot: TProtocol, fname: Bytes, seqid: i32) returns (r: Try<bool>)
      requires Valid() && iprot != oprot
      modifies this`state, iprot`input, oprot`output
      ensures Valid()
      ensures match Dispatch(handler, old(state), fname, seqid, old(iprot.input))
        case Closed => r.Thrown? && oprot.output == old(oprot.output)
        case Served(st, output, rest) =>
          r == Got(true) && state == st && iprot.input == rest && oprot.output == old(oprot.output) + output
    {
      hide ReadVal, ThriftCodec.Write, MessageBegin, NameOf, Count;
      if fname !in processMap {
        var n :- iprot.SkipValue(T_STRUCT);
        WriteException(fname, seqid, InvalidName(fname), UNKNOWN_METHOD, oprot);
        return Got(true);
      }
      r := Process(processMap[fname], seqid, iprot, oprot);
    }
  }

  // -------------------------------------------------------------------------------------------------------------
  // The client
  // -------------------------------------------------------------------------------------------------------------

  /** What send writes: the arguments are pointed to, so their struct has no presence flags of its own. */
  function Request(call: Call, seqid: i32, args: Val): Bytes
    requires HasType(ArgsOf(call), args)
  {
    MessageBegin(NameOf(call), T_CALL, seqid) + Write(ArgsOf(call), args)
  }

  /** What recv does: it returns a value, throws an application exception, or throws a protocol or transport error. */
  datatype Received = Lost | Value(val: Val, rest: Bytes) | Exception(text: Bytes, kind: i32, rest: Bytes)

  function UnknownResult(call: Call): Bytes {
    NameOf(call) + Ascii(" failed: unknown result")
  }

  /** The end of recv: the result struct is read over the caller's return object. */
  function RecvResult(call: Call, was: Val, body: Bytes): Received
    requires HasType(SuccessOf(call), was)
  {
    match ReadVal(ResultOf(call), VStruct([was], [false]), body)
    case Failed => Lost
    case Done(result, rest) =>
      if result.isset[0] then Value(result.vals[0], rest) else Exception(UnknownResult(call), MISSING_RESULT, rest)
  }

  /** The specification of recv.  A reply of another type, or under another name, is skipped, and reading goes on. */
  function Recv(call: Call, was: Val, s: Bytes): Received
    requires HasType(SuccessOf(call), was)
  {
    match ReadMessageBegin(s)
    case NoHead => Lost
    case Head(fname, mtype, _, body) =>
      if mtype == T_EXCEPTION then
        match ReadVal(APPLICATION_EXCEPTION, Default(APPLICATION_EXCEPTION), body)
        case Failed => Lost
        case Done(x, rest) => Exception(ExceptionParts(x).0, ExceptionParts(x).1, rest)
      else
        match if mtype != T_REPLY then Skip(T_STRUCT, body) else Some(body)
        case None => Lost
        case Some(mid) =>
          match if fname != NameOf(call) then Skip(T_STRUCT, mid) else Some(mid)
          case None => Lost
          case Some(end) => RecvResult(call, was, end)
  }

  /** What the caller passes to a call: the client points to it. */
  datatype Arguments =
    | WithCard(sid: Bytes, card: BankCard)
    | WithNumber(sid: Bytes, number: Bytes)
    | WithSid(sid: Bytes)
  {
    function Type(): Ty {
      match this
      case WithCard(_, _) => CARD_ARGS
      case WithNumber(_, _) => NUMBER_ARGS
      case WithSid(_) => SID_ARGS
    }

    ghost function Objects(): set<object> {
      if WithCard? then {card, card.vd} else {}
    }

    ghost function Value(): (v: Val)
      reads Objects()
      ensures HasType(Type(), v)
    {
      match this
      case WithCard(sid, card) => VStruct([VString(sid), card.Value()], [false, false])
      case WithNumber(sid, number) => VStruct([VString(sid), VString(number)], [false, false])
      case WithSid(sid) => VStruct([VString(sid)], [false])
    }

    lemma Apart(p: TProtocol)
      ensures p !in Objects()
    {
    }

    /** Points an args object to the arguments and writes it. */
    method Write(oprot: TProtocol)
      modifies oprot`output
      ensures oprot.output == old(oprot.output) + ThriftCodec.Write(Type(), old(Value()))
    {
      hide ThriftCodec.Write, HasType, Count, BankCard.Value;
      match this
      case WithCard(sid, card) =>
        var args := new CardArgs(sid, card);
        var n := args.Write(oprot);
      case WithNumber(sid, number) =>
        var args := new NumberArgs(sid, number);
        var n := args.Write(oprot);
      case WithSid(sid) =>
        var args := new SidArgs(sid);
        var n := args.Write(oprot);
    }
  }

  /** What the caller of recv sees: an error of the protocol or the transport, its return object filled, or an
      application exception. */
  datatype Response = Dropped | Filled | Raised(text: Bytes, kind: i32)

  ghost predicate Delivered(spec: Received, r: Response, val: Val, rest: Bytes) {
    match spec
    case Lost => r.Dropped?
    case Value(v, s) => r.Filled? && val == v && rest == s
    case Exception(text, kind, s) => r == Raised(text, kind) && rest == s
  }

  /** The plain client: one call at a time over one pair of streams. */
  class DgiBankingClient {
    const iprot: TProtocol
    const oprot: TProtocol

    constructor (iprot: TProtocol, oprot: TProtocol)
      ensures this.iprot == iprot && this.oprot == oprot
    {
      this.iprot, this.oprot := iprot, oprot;
    }

    /** One of the five send functions; they differ in their arguments only. */
    method Send(call: Call, arguments: Arguments)
      requires arguments.Type() == ArgsOf(call)
      modifies oprot`output
      ensures oprot.output == old(oprot.output) + Request(call, 0, old(arguments.Value()))
    {
      hide ThriftCodec.Write, MessageBegin, NameOf, HasType, Arguments.Value, Arguments.Type, ArgsOf;
      arguments.Apart(oprot);
      var cseqid := 0;
      oprot.WriteMessageBegin(NameOf(call), T_CALL, cseqid);
      arguments.Write(oprot);
    }

    /** One of the five recv functions; the result struct points to the caller's return object. */
    method Receive(call: Call, ret: Success) returns (r: Response)
      requires ret.Type() == SuccessOf(call)
      modifies ret.Pointees(), iprot`input
      ensures Delivered(Recv(call, old(ret.Value()), old(iprot.input)), r, ret.Value(), iprot.input)
    {
      hide ReadVal, Skip, NameOf, Success.Value, Success.Type, HasType, Count, SuccessOf, ExceptionParts, RecvResult,
        ThriftMessage.ReadMessageBegin;
      ret.ApartFromStream(iprot);
      var fname, mtype, rseqid := iprot.ReadMessageBegin();
      if fname.Thrown? {
        return Dropped;
      }
      ret.ApartFromStream(iprot);
      if mtype == T_EXCEPTION {
        DefaultException();
        var x := new TApplicationException([], 0);
        var n := x.Read(iprot);
        return if n.Thrown? then Dropped else Raised(x.message, x.kind);
      }
      if mtype != T_REPLY {
        var n := iprot.SkipValue(T_STRUCT);
        if n.Thrown? {
          return Dropped;
        }
      }
      ret.ApartFromStream(iprot);
      if fname.value != NameOf(call) {
        var n := iprot.SkipValue(T_STRUCT);
        if n.Thrown? {
          return Dropped;
        }
      }
      ret.ApartFromStream(iprot);
      assert ret.Value() == old(ret.Value());
      r := ReceiveResult(call, ret);
    }

    /** The end of recv: the result struct is read over the caller's return object. */
    method ReceiveResult(call: Call, ret: Success) returns (r: Response)
      requires ret.Type() == SuccessOf(call)
      modifies ret.Pointees(), iprot`input
      ensures Delivered(RecvResult(call, old(ret.Value()), old(iprot.input)), r, ret.Value(), iprot.input)
    {
      hide ReadVal, NameOf, Success.Value, Success.Type, HasType, Count, SuccessOf;
      var result := new CallResult(ret);
      ret.Apart(iprot, result);
      var n := result.Read(iprot);
      ret.Apart(iprot, result);
      if n.Thrown? {
        return Dropped;
      }
      return if result.isset then Filled else Raised(UnknownResult(call), MISSING_RESULT);
    }
  }

  // -------------------------------------------------------------------------------------------------------------
  // One exchange
  // -------------------------------------------------------------------------------------------------------------

  lemma ResultRoundTrip(call: Call, was: Val, v: Val, rest: Bytes)
    requires HasType(SuccessOf(call), was) && HasType(SuccessOf(call), v) && Writable(SuccessOf(call), v)
    ensures RecvResult(call, was, Write(ResultOf(call), ResultVal(v)) + rest) == Value(Stamp(SuccessOf(call), v), rest)
  {
    hide ReadVal, Encode, ToWire, SuccessOf, Over, Stamp;
    CallSchemas(call);
    OverResult(SuccessOf(call), was, false, v);
    RoundTripOver(ResultOf(call), VStruct([was], [false]), ResultVal(v), rest);
    OverIsStamp(SuccessOf(call), was, v);
  }

  /** What recv makes of a reply, by the outcome it was written for. */
  ghost function OutcomeReceived(call: Call, o: Outcome, rest: Bytes): Received
    requires o.Returned? ==> HasType(SuccessOf(call), o.val)
  {
    match o
    case Returned(v) => Value(Stamp(SuccessOf(call), v), rest)
    case Threw(what) => Exception(what, UNKNOWN, rest)
  }

  /** The sizes in an outcome fit 32 bits. */
  ghost predicate WritableOutcome(call: Call, o: Outcome)
    requires o.Returned? ==> HasType(SuccessOf(call), o.val)
  {
    match o
    case Returned(v) => Writable(SuccessOf(call), v)
    case Threw(what) => |what| < 0x1_0000_0000
  }

  lemma ReplyReceived(call: Call, seqid: i32, o: Outcome, was: Val, rest: Bytes)
    requires HasType(SuccessOf(call), was) && (o.Returned? ==> HasType(SuccessOf(call), o.val))
      && WritableOutcome(call, o)
    ensures Recv(call, was, Reply(call, seqid, o) + rest) == OutcomeReceived(call, o, rest)
  {
    hide ReadVal, Encode, ToWire, NameOf, MessageBegin, ReadMessageBegin, SuccessOf, RecvResult;
    match o
    case Returned(v) =>
      var body := Write(ResultOf(call), ResultVal(v));
      assert Reply(call, seqid, o) + rest == MessageBegin(NameOf(call), T_REPLY, seqid) + (body + rest);
      HeaderRoundTrip(NameOf(call), T_REPLY, seqid, body + rest);
      ResultRoundTrip(call, was, v, rest);
    case Threw(what) =>
      var body := Write(APPLICATION_EXCEPTION, ExceptionVal(what, UNKNOWN));
      assert Reply(call, seqid, o) + rest == MessageBegin(NameOf(call), T_EXCEPTION, seqid) + (body + rest);
      HeaderRoundTrip(NameOf(call), T_EXCEPTION, seqid, body + rest);
      ExceptionRoundTrip(what, UNKNOWN, rest);
  }

  /** What the handler makes of arguments that were sent: it sees them with every presence flag set. */
  ghost function Handled<S(!new)>(handler: Handler<S>, st: S, call: Call, args: Val): (r: (S, Outcome))
    requires Typed(handler) && HasType(ArgsOf(call), args)
    ensures r.1.Returned? ==> HasType(SuccessOf(call), r.1.val)
  {
    handler(st, call, Stamp(ArgsOf(call), args).vals)
  }

  /** One whole exchange.  The processor finds the header the client sent; the handler is called with the values sent,
      every presence flag set; the client gets the value the handler produced (flags set again), or an application
      exception with the handler's text if and only if the handler threw; and both streams are left exactly behind the
      messages, whatever follows on them. */
  lemma RpcTransparency<S(!new)>(handler: Handler<S>, st: S, call: Call, seqid: i32, args: Val, was: Val,
      restIn: Bytes, restOut: Bytes)
    requires Typed(handler) && HasType(ArgsOf(call), args) && Writable(ArgsOf(call), args)
      && HasType(SuccessOf(call), was)
    requires var o := Handled(handler, st, call, args).1;
      && (o.Returned? ==> Writable(SuccessOf(call), o.val))
      && (o.Threw? ==> |o.what| < 0x1_0000_0000)
    ensures var (st', o) := Handled(handler, st, call, args);
      && Equal(ArgsOf(call), args, Stamp(ArgsOf(call), args))
      && ReadMessageBegin(Request(call, seqid, args) + restIn)
         == Head(NameOf(call), T_CALL, seqid, Write(ArgsOf(call), args) + restIn)
      && Dispatch(handler, st, NameOf(call), seqid, Write(ArgsOf(call), args) + restIn)
         == Served(st', Reply(call, seqid, o), restIn)
      && Recv(call, was, Reply(call, seqid, o) + restOut) == OutcomeReceived(call, o, restOut)
      && (o.Returned? ==> Equal(SuccessOf(call), o.val, Stamp(SuccessOf(call), o.val)))
  {
    hide ReadVal, Encode, ToWire, NameOf, MessageBegin, ReadMessageBegin, ArgsOf, SuccessOf, Recv, Reply;
    var o := Handled(handler, st, call, args).1;
    CallSchemas(call);
    LookupName(call);
    assert Request(call, seqid, args) + restIn
        == MessageBegin(NameOf(call), T_CALL, seqid) + (Write(ArgsOf(call), args) + restIn);
    HeaderRoundTrip(NameOf(call), T_CALL, seqid, Write(ArgsOf(call), args) + restIn);
    RoundTrip(ArgsOf(call), Default(ArgsOf(call)), args, restIn);
    ReplyReceived(call, seqid, o, was, restOut);
    if o.Returned? {
      StampEqual(SuccessOf(call), o.val);
    }
  }

  /** The first half of an exchange on the objects: the caller's arguments are sent, and the processor takes the
      request off its stream and answers it. */
  method SendAndServe<S(!new)>(client: DgiBankingClient, processor: DgiBankingProcessor<S>,
                               call: Call, arguments: Arguments, rest: Bytes)
    returns (server: TProtocol, answer: Bytes)
    requires processor.Valid() && arguments.Type() == ArgsOf(call) && Writable(ArgsOf(call), arguments.Value())
    requires var o := Handled(processor.handler, processor.state, call, arguments.Value()).1;
      && (o.Returned? ==> Writable(SuccessOf(call), o.val))
      && (o.Threw? ==> |o.what| < 0x1_0000_0000)
    modifies client.oprot`output, processor`state
    ensures processor.Valid() && fresh(server) && server.input == rest
    ensures var (st, o) := Handled(processor.handler, old(processor.state), call, old(arguments.Value()));
      processor.state == st && answer == Reply(call, 0, o)
  {
    hide ReadVal, ThriftCodec.Write, NameOf, MessageBegin, ThriftMessage.ReadMessageBegin, HasType,
      SuccessOf, ArgsOf, Recv, Dispatch, Reply, Request, Stamp, Writable, Arguments.Value, Arguments.Type, Handled;
    ghost var args := arguments.Value();
    var sent := |client.oprot.output|;
    RpcTransparency(processor.handler, processor.state, call, 0, args, Default(SuccessOf(call)), rest, []);
    client.Send(call, arguments);
    assert client.oprot.output[sent..] == Request(call, 0, args);
    server := new TProtocol(client.oprot.output[sent..] + rest);
    var back := new TProtocol([]);
    var fname, mtype, seqid := server.ReadMessageBegin();
    var served := processor.DispatchCall(server, back, fname.value, seqid);
    answer := back.output;
  }

  /** A whole exchange on the objects: the caller's return object ends up with what the handler made of the caller's
      arguments, or the caller gets an application exception if and only if the handler threw.  Whatever follows the two
      messages on their streams is left there. */
  method Exchange<S(!new)>(client: DgiBankingClient, processor: DgiBankingProcessor<S>, call: Call,
                           arguments: Arguments, ret: Success, restIn: Bytes, restOut: Bytes)
    returns (r: Response, server: TProtocol)
    requires processor.Valid() && arguments.Type() == ArgsOf(call) && ret.Type() == SuccessOf(call)
    requires Writable(ArgsOf(call), arguments.Value())
    requires var o := Handled(processor.handler, processor.state, call, arguments.Value()).1;
      && (o.Returned? ==> Writable(SuccessOf(call), o.val))
      && (o.Threw? ==> |o.what| < 0x1_0000_0000)
    modifies client.oprot`output, client.iprot`input, processor`state, ret.Pointees()
    ensures processor.Valid() && fresh(server) && server.input == restIn && client.iprot.input == restOut
    ensures var (st, o) := Handled(processor.handler, old(processor.state), call, old(arguments.Value()));
      && processor.state == st
      && match o
         case Returned(v) => r.Filled? && ret.Value() == Stamp(SuccessOf(call), v)
         case Threw(what) => r == Raised(what, UNKNOWN)
  {
    hide HasType, SuccessOf, ArgsOf, Recv, Reply, Stamp, Arguments.Value, Arguments.Type, Handled, Success.Type,
      Success.Value;
    ghost var o := Handled(processor.handler, processor.state, call, arguments.Value()).1;
    var answer;
    server, answer := SendAndServe(client, processor, call, arguments, restIn);
    client.iprot.input := answer + restOut;
    ReplyReceived(call, 0, o, ret.Value(), restOut);
    r := client.Receive(call, ret);
  }

  lemma RecvResultShrinks(call: Call, was: Val, s: Bytes)
    requires HasType(SuccessOf(call), was)
    ensures !RecvResult(call, was, s).Lost? ==> |RecvResult(call, was, s).rest| < |s|
  {
    hide ReadVal, SuccessOf;
  }

  /** When recv takes exactly one message: an application exception, or a reply under the expected name.  After any
      other message it reads on into the bytes of the next one. */
  lemma RecvTakesOneMessage(call: Call, was: Val, name: Bytes, mtype: byte, seqid: i32, body: Wire, rest: Bytes)
    requires HasType(SuccessOf(call), was) && |name| < 0x1_0000_0000 && body.Struct? && WellFormed(body)
    requires mtype == T_EXCEPTION ==> Fits(APPLICATION_EXCEPTION, body)
    requires mtype == T_REPLY && name == NameOf(call) ==> Fits(ResultOf(call), body)
    ensures var r := Recv(call, was, MessageBegin(name, mtype, seqid) + (Encode(body) + rest));
      (!r.Lost? && r.rest == rest) <==> (mtype == T_EXCEPTION || (mtype == T_REPLY && name == NameOf(call)))
  {
    hide ReadVal, Encode, NameOf, MessageBegin, ReadMessageBegin, SuccessOf, RecvResult, Skip;
    HeaderRoundTrip(name, mtype, seqid, Encode(body) + rest);
    if mtype == T_EXCEPTION {
      ReadMeaning(APPLICATION_EXCEPTION, Default(APPLICATION_EXCEPTION), body, rest);
    } else if mtype == T_REPLY && name == NameOf(call) {
      ResultTakesBody(call, was, body, rest);
    } else {
      SkipEncode(body, rest);
      RecvResultShrinks(call, was, rest);
      match Skip(T_STRUCT, rest)
      case None =>
      case Some(beyond) => RecvResultShrinks(call, was, beyond);
    }
  }

  lemma ResultTakesBody(call: Call, was: Val, body: Wire, rest: Bytes)
    requires HasType(SuccessOf(call), was) && Fits(ResultOf(call), body)
    ensures var r := RecvResult(call, was, Encode(body) + rest);
      !r.Lost? && r.rest == rest
  {
    hide ReadVal, SuccessOf, Encode;
    ReadMeaning(ResultOf(call), VStruct([was], [false]), body, rest);
  }

  // -------------------------------------------------------------------------------------------------------------
  // Whole runs of the server
  // -------------------------------------------------------------------------------------------------------------

  /** A message on a stream. */
  datatype Message = Message(name: Bytes, mtype: byte, seqid: i32, body: Wire)

  function EncodeMessage(m: Message): Bytes {
    MessageBegin(m.name, m.mtype, m.seqid) + Encode(m.body)
  }

  function EncodeMessages(ms: seq<Message>): Bytes {
    if |ms| == 0 then [] else EncodeMessage(ms[0]) + EncodeMessages(ms[1..])
  }

  /** A call that the server can be sent: any name, and under a known name a body that the arguments reader can take. */
  ghost predicate Acceptable(m: Message) {
    && m.mtype == T_CALL
    && |InvalidName(m.name)| < 0x1_0000_0000
    && m.body.Struct? && WellFormed(m.body)
    && (Lookup(m.name).Some? ==> Fits(ArgsOf(Lookup(m.name).value), m.body))
  }

  ghost predicate Answerable<S(!new)>(handler: Handler<S>) {
    Typed(handler) && forall st, call, args :: WritableOutcome(call, handler(st, call, args).1)
  }

  /** The processor's turn: the library reads a header and hands calls to the dispatch. */
  function ServeOne<S(!new)>(handler: Handler<S>, st: S, s: Bytes): Served<S>
    requires Typed(handler)
  {
    match ReadMessageBegin(s)
    case NoHead => Closed
    case Head(name, mtype, seqid, body) =>
      if mtype != T_CALL && mtype != T_ONEWAY then Closed else Dispatch(handler, st, name, seqid, body)
  }

  /** n turns in a row. */
  function Serve<S(!new)>(handler: Handler<S>, st: S, n: nat, s: Bytes): Served<S>
    requires Typed(handler)
  {
    if n == 0 then Served(st, [], s)
    else
      match ServeOne(handler, st, s)
      case Closed => Closed
      case Served(st', output, rest) =>
        match Serve(handler, st', n - 1, rest)
        case Closed => Closed
        case Served(st'', more, rest') => Served(st'', output + more, rest')
  }

  function ExceptionTo(m: Message, text: Bytes, kind: i32): Message {
    Message(m.name, T_EXCEPTION, m.seqid, ToWire(APPLICATION_EXCEPTION, ExceptionVal(text, kind)))
  }

  /** The state a call leaves the handler in, and the one message it is answered with. */
  ghost function Answer<S(!new)>(handler: Handler<S>, st: S, m: Message): (S, Message)
    requires Typed(handler) && Acceptable(m)
  {
    match Lookup(m.name)
    case None => (st, ExceptionTo(m, InvalidName(m.name), UNKNOWN_METHOD))
    case Some(call) =>
      var (st', o) := handler(st, call, Merge(ArgsOf(call), Default(ArgsOf(call)), m.body).vals);
      match o
      case Returned(v) => (st', Message(m.name, T_REPLY, m.seqid, ToWire(ResultOf(call), ResultVal(v))))
      case Threw(what) => (st', ExceptionTo(m, what, UNKNOWN))
  }

  ghost function Answers<S(!new)>(handler: Handler<S>, st: S, calls: seq<Message>): (S, seq<Message>)
    requires Typed(handler) && forall m <- calls :: Acceptable(m)
    decreases |calls|
  {
    if |calls| == 0 then (st, [])
    else
      var (st', a) := Answer(handler, st, calls[0]);
      var (st'', more) := Answers(handler, st', calls[1..]);
      (st'', [a] + more)
  }

  /** An answer carries the name and the sequence id of its call, is a reply or an exception, and is well-formed. */
  ghost predicate IsAnswerTo(a: Message, m: Message): (yes: bool)
    ensures yes ==> a.name == m.name && a.seqid == m.seqid && (a.mtype == 2 || a.mtype == 3)
  {
    && a.name == m.name && a.seqid == m.seqid
    && (a.mtype == T_REPLY || a.mtype == T_EXCEPTION)
    && |a.name| < 0x1_0000_0000 && a.body.Struct? && WellFormed(a.body)
  }

  lemma LookupInverse(name: Bytes)
    ensures Lookup(name).Some? ==> NameOf(Lookup(name).value) == name
  {
    hide NameOf;
  }

  lemma ExceptionIsAnswer(m: Message, text: Bytes, kind: i32)
    requires |m.name| < 0x1_0000_0000 && |text| < 0x1_0000_0000
    ensures IsAnswerTo(ExceptionTo(m, text, kind), m)
  {
    hide ToWire, WellFormed;
    WrittenFits(APPLICATION_EXCEPTION, ExceptionVal(text, kind));
  }

  lemma ReplyIsAnswer(m: Message, call: Call, v: Val)
    requires |m.name| < 0x1_0000_0000 && HasType(SuccessOf(call), v) && Writable(SuccessOf(call), v)
    ensures IsAnswerTo(Message(m.name, T_REPLY, m.seqid, ToWire(ResultOf(call), ResultVal(v))), m)
  {
    hide ToWire, WellFormed, SuccessOf;
    CallSchemas(call);
    WrittenFits(ResultOf(call), ResultVal(v));
  }

  /** One turn on one acceptable call, whatever follows it on the stream. */
  lemma ServeOneCall<S(!new)>(handler: Handler<S>, st: S, m: Message, rest: Bytes)
    requires Answerable(handler) && Acceptable(m)
    ensures var (st', a) := Answer(handler, st, m);
      && ServeOne(handler, st, EncodeMessage(m) + rest) == Served(st', EncodeMessage(a), rest)
      && IsAnswerTo(a, m)
  {
    hide ReadVal, Encode, ToWire, NameOf, MessageBegin, ReadMessageBegin, ArgsOf, SuccessOf, Skip, InvalidName,
      WellFormed;
    assert EncodeMessage(m) + rest == MessageBegin(m.name, m.mtype, m.seqid) + (Encode(m.body) + rest);
    assert |m.name| < 0x1_0000_0000 by { NameIsShorter(m.name); }
    HeaderRoundTrip(m.name, m.mtype, m.seqid, Encode(m.body) + rest);
    LookupInverse(m.name);
    match Lookup(m.name)
    case None =>
      SkipEncode(m.body, rest);
      ExceptionIsAnswer(m, InvalidName(m.name), UNKNOWN_METHOD);
    case Some(call) =>
      ReadMeaning(ArgsOf(call), Default(ArgsOf(call)), m.body, rest);
      var o := handler(st, call, Merge(ArgsOf(call), Default(ArgsOf(call)), m.body).vals).1;
      match o {
        case Returned(v) => ReplyIsAnswer(m, call, v);
        case Threw(what) => ExceptionIsAnswer(m, what, UNKNOWN);
      }
  }

  lemma NameIsShorter(name: Bytes)
    ensures |name| < |InvalidName(name)|
  {
  }

  /** Framing over whole runs: for any sequence of acceptable calls, known and unknown names mixed, the server reads
      exactly those messages, whatever follows them, and writes exactly one answer to each, in order. */
  lemma {:induction false} ServeRun<S(!new)>(handler: Handler<S>, st: S, calls: seq<Message>, rest: Bytes)
    requires Answerable(handler) && forall m <- calls :: Acceptable(m)
    ensures var (st', answers) := Answers(handler, st, calls);
      && Serve(handler, st, |calls|, EncodeMessages(calls) + rest) == Served(st', EncodeMessages(answers), rest)
      && |answers| == |calls|
      && forall i | 0 <= i < |calls| :: IsAnswerTo(answers[i], calls[i])
    decreases |calls|
  {
    hide ServeOne, EncodeMessage, Acceptable, IsAnswerTo, Answer;
    if |calls| == 0 {
      assert EncodeMessages(calls) + rest == rest;
    } else {
      assert calls[0] in calls;
      var after := EncodeMessages(calls[1..]) + rest;
      assert EncodeMessages(calls) + rest == EncodeMessage(calls[0]) + after;
      ServeOneCall(handler, st, calls[0], after);
      var (st', a) := Answer(handler, st, calls[0]);
      ServeRun(handler, st', calls[1..], rest);
      var (st'', more) := Answers(handler, st', calls[1..]);
      assert ([a] + more)[1..] == more;
      assert EncodeMessages([a] + more) == EncodeMessage(a) + EncodeMessages(more);
    }
  }

  /** Reading n headers, each followed by a struct that is skipped. */
  function ReadHeads(n: nat, s: Bytes): Option<(seq<Head>, Bytes)> {
    if n == 0 then Some(([], s))
    else
      match ReadMessageBegin(s)
      case NoHead => None
      case Head(name, mtype, seqid, body) =>
        match Skip(T_STRUCT, body)
        case None => None
        case Some(rest) =>
          match ReadHeads(n - 1, rest)
          case None => None
          case Some((heads, rest')) => Some(([Head(name, mtype, seqid, [])] + heads, rest'))
  }

  /** The headers of some messages. */
  function HeadsOf(ms: seq<Message>): (heads: seq<Head>)
    ensures |heads| == |ms|
    ensures forall i | 0 <= i < |ms| :: heads[i] == Head(ms[i].name, ms[i].mtype, ms[i].seqid, [])
  {
    if |ms| == 0 then [] else [Head(ms[0].name, ms[0].mtype, ms[0].seqid, [])] + HeadsOf(ms[1..])
  }

  /** The answers of a run are separate messages to whoever reads them: their headers are found one after the other. */
  lemma {:induction false} AnswersAreFramed(answers: seq<Message>, rest: Bytes)
    requires forall a <- answers :: |a.name| < 0x1_0000_0000 && a.body.Struct? && WellFormed(a.body)
    ensures ReadHeads(|answers|, EncodeMessages(answers) + rest) == Some((HeadsOf(answers), rest))
  {
    hide ReadMessageBegin, MessageBegin, Skip, Encode, WellFormed;
    if |answers| == 0 {
      assert EncodeMessages(answers) + rest == rest;
    } else {
      var a := answers[0];
      var after := EncodeMessages(answers[1..]) + rest;
      assert a in answers;
      assert EncodeMessages(answers) + rest == MessageBegin(a.name, a.mtype, a.seqid) + (Encode(a.body) + after);
      HeaderRoundTrip(a.name, a.mtype, a.seqid, Encode(a.body) + after);
      SkipEncode(a.body, after);
      AnswersAreFramed(answers[1..], rest);
    }
  }

  // -------------------------------------------------------------------------------------------------------------
  // The calls in bytes
  // -------------------------------------------------------------------------------------------------------------

  lemma TextsInBytes(name: Bytes, call: Call)
    ensures InvalidName(name)
      == [73, 110, 118, 97, 108, 105, 100, 32, 109, 101, 116, 104, 111, 100, 32, 110, 97, 109, 101, 58, 32,
        39] + name + [39]
    ensures UnknownResult(call)
      == NameOf(call) + [32, 102, 97, 105, 108, 101, 100, 58, 32, 117, 110, 107, 110, 111, 119, 110, 32, 114, 101,
        115, 117, 108, 116]
  {
    hide NameOf;
    assert Ascii("Invalid method name: '")
      == [73, 110, 118, 97, 108, 105, 100, 32, 109, 101, 116, 104, 111, 100, 32, 110, 97, 109, 101, 58, 32, 39];
    assert Ascii(" failed: unknown result")
      == [32, 102, 97, 105, 108, 101, 100, 58, 32, 117, 110, 107, 110, 111, 119, 110, 32, 114, 101, 115, 117, 108, 116];
    assert Ascii("'") == [39];
  }

  lemma ExceptionMessageInBytes(name: Bytes, seqid: i32, text: Bytes, kind: i32)
    ensures ExceptionMessage(name, seqid, text, kind)
         == [0x80, 1, 0, 3] + SizeBytes(|name|) + name + I32Bytes(seqid)
            + [11, 0, 1] + SizeBytes(|text|) + text + [8, 0, 2] + I32Bytes(kind) + [0]
  {
    MessageInBytes(name, T_EXCEPTION, seqid);
    ExceptionInBytes(text, kind);
    hide Write, SizeBytes, I32Bytes, MessageBegin;
  }

  /** A reply in plain numbers: the header, and the result with the returned value as field 0; or the exception. */
  lemma ReplyInBytes(call: Call, seqid: i32, o: Outcome)
    requires o.Returned? ==> HasType(SuccessOf(call), o.val)
    ensures o.Returned? ==>
      Reply(call, seqid, o)
      == [0x80, 1, 0, 2] + SizeBytes(|NameOf(call)|) + NameOf(call) + I32Bytes(seqid)
         + [WireType(SuccessOf(call)), 0, 0] + Write(SuccessOf(call), o.val) + [0]
    ensures o.Threw? ==>
      Reply(call, seqid, o)
      == [0x80, 1, 0, 3] + SizeBytes(|NameOf(call)|) + NameOf(call) + I32Bytes(seqid)
         + [11, 0, 1] + SizeBytes(|o.what|) + o.what + [8, 0, 2] + [0, 0, 0, 0] + [0]
  {
    hide Write, SizeBytes, I32Bytes, SuccessOf, NameOf;
    MessageInBytes(NameOf(call), T_REPLY, seqid);
    assert I32Bytes(0) == [0, 0, 0, 0] by { NumberInBytes(0); }
    hide MessageBegin, ExceptionMessage;
    match o
    case Returned(v) => ResultInBytes(SuccessOf(call), v, true);
    case Threw(what) => ExceptionMessageInBytes(NameOf(call), seqid, what, UNKNOWN);
  }

  /** The library's step on a request whose header and arguments are as given. */
  lemma ServeRequest<S(!new)>(handler: Handler<S>, st: S, call: Call, seqid: i32, args: Val, body: Bytes, rest: Bytes)
    requires Typed(handler) && HasType(ArgsOf(call), args)
    requires ReadVal(ArgsOf(call), Default(ArgsOf(call)), body + rest) == Done(args, rest)
    ensures var (st', o) := handler(st, call, args.vals);
      ServeOne(handler, st, [0x80, 1, 0, 1] + SizeBytes(|NameOf(call)|) + NameOf(call) + I32Bytes(seqid) + body + rest)
      == Served(st', Reply(call, seqid, o), rest)
  {
    hide ReadVal, SizeBytes, I32Bytes, NameOf, ReadMessageBegin, ArgsOf, SuccessOf, Reply;
    MessageInBytes(NameOf(call), T_CALL, seqid);
    LookupName(call);
    HeaderRoundTrip(NameOf(call), T_CALL, seqid, body + rest);
    var header := [0x80, 1, 0, 1] + SizeBytes(|NameOf(call)|) + NameOf(call) + I32Bytes(seqid);
    assert header + body + rest == header + (body + rest);
    hide MessageBegin;
  }

  /** The same with the parts of the messages given as bytes. */
  lemma CallInBytes<S(!new)>(handler: Handler<S>, st: S, call: Call, seqid: i32, name: Bytes, size: Bytes,
                             code: byte, success: Ty, args: Val, seen: Val, body: Bytes, rest: Bytes)
    requires Typed(handler) && name == NameOf(call) && size == SizeBytes(|name|)
    requires success == SuccessOf(call) && code == WireType(success)
    requires HasType(ArgsOf(call), args) && body == Write(ArgsOf(call), args)
    requires HasType(ArgsOf(call), seen)
    requires ReadVal(ArgsOf(call), Default(ArgsOf(call)), body + rest) == Done(seen, rest)
    ensures Request(call, seqid, args) == [0x80, 1, 0, 1] + size + name + I32Bytes(seqid) + body
    ensures var (st', o) := handler(st, call, seen.vals);
      ServeOne(handler, st, [0x80, 1, 0, 1] + size + name + I32Bytes(seqid) + body + rest)
      == Served(st',
           if o.Returned? then
             [0x80, 1, 0, 2] + size + name + I32Bytes(seqid) + [code, 0, 0] + Write(success, o.val) + [0]
           else
             [0x80, 1, 0, 3] + size + name + I32Bytes(seqid)
             + [11, 0, 1] + SizeBytes(|o.what|) + o.what + [8, 0, 2] + [0, 0, 0, 0] + [0],
           rest)
  {
    MessageInBytes(NameOf(call), T_CALL, seqid);
    var o := handler(st, call, seen.vals).1;
    hide Write, ReadVal, SizeBytes, I32Bytes, NameOf, MessageBegin, ServeOne, Reply, Default, HasType, ArgsOf,
      SuccessOf;
    ServeRequest(handler, st, call, seqid, seen, body, rest);
    ReplyInBytes(call, seqid, o);
  }

  /** AddCard in bytes: what the client writes, what the handler is called with, and what the server writes. */
  lemma AddCardInBytes<S(!new)>(handler: Handler<S>, st: S, seqid: i32, sid: Bytes, card: Val, rest: Bytes)
    requires Typed(handler) && |sid| < 0x1_0000_0000 && HasType(BANK_CARD, card) && Writable(BANK_CARD, card)
    ensures HasType(ArgsOf(AddCard), VStruct([VString(sid), card], [false, false]))
    ensures Request(AddCard, seqid, VStruct([VString(sid), card], [false, false]))
         == [0x80, 1, 0, 1] + [0, 0, 0, 7] + [65, 100, 100, 67, 97, 114, 100] + I32Bytes(seqid)
            + ([11, 0, 1] + SizeBytes(|sid|) + sid + [12, 0, 2] + Write(BANK_CARD, card) + [0])
    ensures var (st', o) := handler(st, AddCard, [VString(sid), Stamp(BANK_CARD, card)]);
      ServeOne(handler, st,
        [0x80, 1, 0, 1] + [0, 0, 0, 7] + [65, 100, 100, 67, 97, 114, 100] + I32Bytes(seqid)
        + ([11, 0, 1] + SizeBytes(|sid|) + sid + [12, 0, 2] + Write(BANK_CARD, card) + [0])
        + rest)
      == Served(st',
           if o.Returned? then
             [0x80, 1, 0, 2] + [0, 0, 0, 7] + [65, 100, 100, 67, 97, 114, 100] + I32Bytes(seqid)
             + [12, 0, 0] + Write(DGI_RESULT, o.val) + [0]
           else
             [0x80, 1, 0, 3] + [0, 0, 0, 7] + [65, 100, 100, 67, 97, 114, 100] + I32Bytes(seqid)
             + [11, 0, 1] + SizeBytes(|o.what|) + o.what + [8, 0, 2] + [0, 0, 0, 0] + [0],
           rest)
  {
    var name: Bytes := [65, 100, 100, 67, 97, 114, 100];
    var body := [11, 0, 1] + SizeBytes(|sid|) + sid + [12, 0, 2] + Write(BANK_CARD, card) + [0];
    assert NameOf(AddCard) == name by { NamesInBytes(); }
    assert SizeBytes(|name|) == [0, 0, 0, 7] by { SizeInBytes(7); }
    CardArgsInBytes(sid, card, [false, false]);
    CardArgsFromBytes(Default(CARD_ARGS), sid, card, rest);
    assert HasType(CARD_ARGS, VStruct([VString(sid), card], [false, false]))
      && HasType(CARD_ARGS, VStruct([VString(sid), Stamp(BANK_CARD, card)], [true, true]));
    hide Write, ReadVal, SizeBytes, I32Bytes, NameOf, ServeOne, Default, Writable, HasType, Request, Stamp;
    CallInBytes(handler, st, AddCard, seqid, name, [0, 0, 0, 7], 12, DGI_RESULT,
      VStruct([VString(sid), card], [false, false]), VStruct([VString(sid), Stamp(BANK_CARD, card)], [true, true]),
        body, rest);
  }

  /** DeleteCard in bytes: what the client writes, what the handler is called with, and what the server writes. */
  lemma DeleteCardInBytes<S(!new)>(handler: Handler<S>, st: S, seqid: i32, sid: Bytes, card: Val, rest: Bytes)
    requires Typed(handler) && |sid| < 0x1_0000_0000 && HasType(BANK_CARD, card) && Writable(BANK_CARD, card)
    ensures HasType(ArgsOf(DeleteCard), VStruct([VString(sid), card], [false, false]))
    ensures Request(DeleteCard, seqid, VStruct([VString(sid), card], [false, false]))
         == [0x80, 1, 0, 1] + [0, 0, 0, 10] + [68, 101, 108, 101, 116, 101, 67, 97, 114, 100] + I32Bytes(seqid)
            + ([11, 0, 1] + SizeBytes(|sid|) + sid + [12, 0, 2] + Write(BANK_CARD, card) + [0])
    ensures var (st', o) := handler(st, DeleteCard, [VString(sid), Stamp(BANK_CARD, card)]);
      ServeOne(handler, st,
        [0x80, 1, 0, 1] + [0, 0, 0, 10] + [68, 101, 108, 101, 116, 101, 67, 97, 114, 100] + I32Bytes(seqid)
        + ([11, 0, 1] + SizeBytes(|sid|) + sid + [12, 0, 2] + Write(BANK_CARD, card) + [0])
        + rest)
      == Served(st',
           if o.Returned? then
             [0x80, 1, 0, 2] + [0, 0, 0, 10] + [68, 101, 108, 101, 116, 101, 67, 97, 114, 100] + I32Bytes(seqid)
             + [12, 0, 0] + Write(DGI_RESULT, o.val) + [0]
           else
             [0x80, 1, 0, 3] + [0, 0, 0, 10] + [68, 101, 108, 101, 116, 101, 67, 97, 114, 100] + I32Bytes(seqid)
             + [11, 0, 1] + SizeBytes(|o.what|) + o.what + [8, 0, 2] + [0, 0, 0, 0] + [0],
           rest)
  {
    var name: Bytes := [68, 101, 108, 101, 116, 101, 67, 97, 114, 100];
    var body := [11, 0, 1] + SizeBytes(|sid|) + sid + [12, 0, 2] + Write(BANK_CARD, card) + [0];
    assert NameOf(DeleteCard) == name by { NamesInBytes(); }
    assert SizeBytes(|name|) == [0, 0, 0, 10] by { SizeInBytes(10); }
    CardArgsInBytes(sid, card, [false, false]);
    CardArgsFromBytes(Default(CARD_ARGS), sid, card, rest);
    assert HasType(CARD_ARGS, VStruct([VString(sid), card], [false, false]))
      && HasType(CARD_ARGS, VStruct([VString(sid), Stamp(BANK_CARD, card)], [true, true]));
    hide Write, ReadVal, SizeBytes, I32Bytes, NameOf, ServeOne, Default, Writable, HasType, Request, Stamp;
    CallInBytes(handler, st, DeleteCard, seqid, name, [0, 0, 0, 10], 12, DGI_RESULT,
      VStruct([VString(sid), card], [false, false]), VStruct([VString(sid), Stamp(BANK_CARD, card)], [true, true]),
        body, rest);
  }

  /** DeleteCardByNumber in bytes: what the client writes, what the handler is called with, and what the server
      writes. */
  lemma DeleteCardByNumberInBytes<S(!new)>(handler: Handler<S>, st: S, seqid: i32, sid: Bytes, number: Bytes,
      rest: Bytes)
    requires Typed(handler) && |sid| < 0x1_0000_0000 && |number| < 0x1_0000_0000
    ensures HasType(ArgsOf(DeleteCardByNumber), VStruct([VString(sid), VString(number)], [false, false]))
    ensures Request(DeleteCardByNumber, seqid, VStruct([VString(sid), VString(number)], [false, false]))
         == [0x80, 1, 0, 1] + [0, 0, 0, 18] + [68, 101, 108, 101, 116, 101, 67, 97, 114, 100, 66, 121, 78, 117, 109,
           98, 101, 114] + I32Bytes(seqid)
            + ([11, 0, 1] + SizeBytes(|sid|) + sid + [11, 0, 2] + SizeBytes(|number|) + number + [0])
    ensures var (st', o) := handler(st, DeleteCardByNumber, [VString(sid), VString(number)]);
      ServeOne(handler, st,
        [0x80, 1, 0, 1] + [0, 0, 0, 18] + [68, 101, 108, 101, 116, 101, 67, 97, 114, 100, 66, 121, 78, 117, 109, 98,
          101, 114] + I32Bytes(seqid)
        + ([11, 0, 1] + SizeBytes(|sid|) + sid + [11, 0, 2] + SizeBytes(|number|) + number + [0])
        + rest)
      == Served(st',
           if o.Returned? then
             [0x80, 1, 0, 2] + [0, 0, 0, 18] + [68, 101, 108, 101, 116, 101, 67, 97, 114, 100, 66, 121, 78, 117, 109,
               98, 101, 114] + I32Bytes(seqid)
             + [12, 0, 0] + Write(DGI_RESULT, o.val) + [0]
           else
             [0x80, 1, 0, 3] + [0, 0, 0, 18] + [68, 101, 108, 101, 116, 101, 67, 97, 114, 100, 66, 121, 78, 117, 109,
               98, 101, 114] + I32Bytes(seqid)
             + [11, 0, 1] + SizeBytes(|o.what|) + o.what + [8, 0, 2] + [0, 0, 0, 0] + [0],
           rest)
  {
    var name: Bytes := [68, 101, 108, 101, 116, 101, 67, 97, 114, 100, 66, 121, 78, 117, 109, 98, 101, 114];
    var body := [11, 0, 1] + SizeBytes(|sid|) + sid + [11, 0, 2] + SizeBytes(|number|) + number + [0];
    assert NameOf(DeleteCardByNumber) == name by { NamesInBytes(); }
    assert SizeBytes(|name|) == [0, 0, 0, 18] by { SizeInBytes(18); }
    NumberArgsInBytes(sid, number, [false, false]);
    NumberArgsFromBytes(Default(NUMBER_ARGS), sid, number, rest);
    assert HasType(NUMBER_ARGS, VStruct([VString(sid), VString(number)], [false, false]))
      && HasType(NUMBER_ARGS, VStruct([VString(sid), VString(number)], [true, true]));
    hide Write, ReadVal, SizeBytes, I32Bytes, NameOf, ServeOne, Default, Writable, HasType, Request, Stamp;
    CallInBytes(handler, st, DeleteCardByNumber, seqid, name, [0, 0, 0, 18], 12, DGI_RESULT,
      VStruct([VString(sid), VString(number)], [false, false]),
        VStruct([VString(sid), VString(number)], [true, true]), body, rest);
  }

  /** GetCards in bytes: what the client writes, what the handler is called with, and what the server writes. */
  lemma GetCardsInBytes<S(!new)>(handler: Handler<S>, st: S, seqid: i32, sid: Bytes, rest: Bytes)
    requires Typed(handler) && |sid| < 0x1_0000_0000
    ensures HasType(ArgsOf(GetCards), VStruct([VString(sid)], [false]))
    ensures Request(GetCards, seqid, VStruct([VString(sid)], [false]))
         == [0x80, 1, 0, 1] + [0, 0, 0, 8] + [71, 101, 116, 67, 97, 114, 100, 115] + I32Bytes(seqid)
            + ([11, 0, 1] + SizeBytes(|sid|) + sid + [0])
    ensures var (st', o) := handler(st, GetCards, [VString(sid)]);
      ServeOne(handler, st,
        [0x80, 1, 0, 1] + [0, 0, 0, 8] + [71, 101, 116, 67, 97, 114, 100, 115] + I32Bytes(seqid)
        + ([11, 0, 1] + SizeBytes(|sid|) + sid + [0])
        + rest)
      == Served(st',
           if o.Returned? then
             [0x80, 1, 0, 2] + [0, 0, 0, 8] + [71, 101, 116, 67, 97, 114, 100, 115] + I32Bytes(seqid)
             + [15, 0, 0] + Write(TList(BANK_CARD), o.val) + [0]
           else
             [0x80, 1, 0, 3] + [0, 0, 0, 8] + [71, 101, 116, 67, 97, 114, 100, 115] + I32Bytes(seqid)
             + [11, 0, 1] + SizeBytes(|o.what|) + o.what + [8, 0, 2] + [0, 0, 0, 0] + [0],
           rest)
  {
    var name: Bytes := [71, 101, 116, 67, 97, 114, 100, 115];
    var body := [11, 0, 1] + SizeBytes(|sid|) + sid + [0];
    assert NameOf(GetCards) == name by { NamesInBytes(); }
    assert SizeBytes(|name|) == [0, 0, 0, 8] by { SizeInBytes(8); }
    SidArgsInBytes(sid, [false]);
    SidArgsFromBytes(Default(SID_ARGS), sid, rest);
    assert HasType(SID_ARGS, VStruct([VString(sid)], [false])) && HasType(SID_ARGS, VStruct([VString(sid)], [true]));
    hide Write, ReadVal, SizeBytes, I32Bytes, NameOf, ServeOne, Default, Writable, HasType, Request, Stamp;
    CallInBytes(handler, st, GetCards, seqid, name, [0, 0, 0, 8], 15, TList(BANK_CARD),
      VStruct([VString(sid)], [false]), VStruct([VString(sid)], [true]), body, rest);
  }

  /** GetCard in bytes: what the client writes, what the handler is called with, and what the server writes. */
  lemma GetCardInBytes<S(!new)>(handler: Handler<S>, st: S, seqid: i32, sid: Bytes, number: Bytes, rest: Bytes)
    requires Typed(handler) && |sid| < 0x1_0000_0000 && |number| < 0x1_0000_0000
    ensures HasType(ArgsOf(GetCard), VStruct([VString(sid), VString(number)], [false, false]))
    ensures Request(GetCard, seqid, VStruct([VString(sid), VString(number)], [false, false]))
         == [0x80, 1, 0, 1] + [0, 0, 0, 7] + [71, 101, 116, 67, 97, 114, 100] + I32Bytes(seqid)
            + ([11, 0, 1] + SizeBytes(|sid|) + sid + [11, 0, 2] + SizeBytes(|number|) + number + [0])
    ensures var (st', o) := handler(st, GetCard, [VString(sid), VString(number)]);
      ServeOne(handler, st,
        [0x80, 1, 0, 1] + [0, 0, 0, 7] + [71, 101, 116, 67, 97, 114, 100] + I32Bytes(seqid)
        + ([11, 0, 1] + SizeBytes(|sid|) + sid + [11, 0, 2] + SizeBytes(|number|) + number + [0])
        + rest)
      == Served(st',
           if o.Returned? then
             [0x80, 1, 0, 2] + [0, 0, 0, 7] + [71, 101, 116, 67, 97, 114, 100] + I32Bytes(seqid)
             + [12, 0, 0] + Write(RESP_BANK_CARD, o.val) + [0]
           else
             [0x80, 1, 0, 3] + [0, 0, 0, 7] + [71, 101, 116, 67, 97, 114, 100] + I32Bytes(seqid)
             + [11, 0, 1] + SizeBytes(|o.what|) + o.what + [8, 0, 2] + [0, 0, 0, 0] + [0],
           rest)
  {
    var name: Bytes := [71, 101, 116, 67, 97, 114, 100];
    var body := [11, 0, 1] + SizeBytes(|sid|) + sid + [11, 0, 2] + SizeBytes(|number|) + number + [0];
    assert NameOf(GetCard) == name by { NamesInBytes(); }
    assert SizeBytes(|name|) == [0, 0, 0, 7] by { SizeInBytes(7); }
    NumberArgsInBytes(sid, number, [false, false]);
    NumberArgsFromBytes(Default(NUMBER_ARGS), sid, number, rest);
    assert HasType(NUMBER_ARGS, VStruct([VString(sid), VString(number)], [false, false]))
      && HasType(NUMBER_ARGS, VStruct([VString(sid), VString(number)], [true, true]));
    hide Write, ReadVal, SizeBytes, I32Bytes, NameOf, ServeOne, Default, Writable, HasType, Request, Stamp;
    CallInBytes(handler, st, GetCard, seqid, name, [0, 0, 0, 7], 12, RESP_BANK_CARD,
      VStruct([VString(sid), VString(number)], [false, false]),
        VStruct([VString(sid), VString(number)], [true, true]), body, rest);
  }

  lemma NoCallInBytes<S(!new)>(handler: Handler<S>, st: S, name: Bytes, seqid: i32, body: Wire, rest: Bytes)
    requires Typed(handler) && |name| < 0x1_0000_0000 && body.Struct? && WellFormed(body) && Lookup(name) == None
    ensures var text := InvalidName(name);
      ServeOne(handler, st, [0x80, 1, 0, 1] + SizeBytes(|name|) + name + I32Bytes(seqid) + Encode(body) + rest)
      == Served(st,
           [0x80, 1, 0, 3] + SizeBytes(|name|) + name + I32Bytes(seqid)
           + [11, 0, 1] + SizeBytes(|text|) + text + [8, 0, 2] + [0, 0, 0, 1] + [0],
           rest)
  {
    assert I32Bytes(1) == [0, 0, 0, 1] by { NumberInBytes(1); }
    hide Lookup, Encode, SizeBytes, I32Bytes, NameOf, ReadMessageBegin, Skip, Write, InvalidName, ReadVal;
    MessageInBytes(name, T_CALL, seqid);
    hide MessageBegin, ExceptionMessage;
    ExceptionMessageInBytes(name, seqid, InvalidName(name), UNKNOWN_METHOD);
    HeaderRoundTrip(name, T_CALL, seqid, Encode(body) + rest);
    SkipEncode(body, rest);
    var header := [0x80, 1, 0, 1] + SizeBytes(|name|) + name + I32Bytes(seqid);
    assert header + Encode(body) + rest == header + (Encode(body) + rest);
  }

  /** A call under any other name, in bytes: nothing is called, and the answer is an exception under that name. */
  lemma UnknownNameInBytes<S(!new)>(handler: Handler<S>, st: S, name: Bytes, seqid: i32, body: Wire, rest: Bytes)
    requires Typed(handler) && |name| < 0x1_0000_0000 && body.Struct? && WellFormed(body)
    requires name != [65, 100, 100, 67, 97, 114, 100]
    requires name != [68, 101, 108, 101, 116, 101, 67, 97, 114, 100]
    requires name != [68, 101, 108, 101, 116, 101, 67, 97, 114, 100, 66, 121, 78, 117, 109, 98, 101, 114]
    requires name != [71, 101, 116, 67, 97, 114, 100, 115]
    requires name != [71, 101, 116, 67, 97, 114, 100]
    ensures var text := [73, 110, 118, 97, 108, 105, 100, 32, 109, 101, 116, 104, 111, 100, 32, 110, 97, 109, 101, 58,
      32, 39] + name + [39];
      ServeOne(handler, st, [0x80, 1, 0, 1] + SizeBytes(|name|) + name + I32Bytes(seqid) + Encode(body) + rest)
      == Served(st,
           [0x80, 1, 0, 3] + SizeBytes(|name|) + name + I32Bytes(seqid)
           + [11, 0, 1] + SizeBytes(|text|) + text + [8, 0, 2] + [0, 0, 0, 1] + [0],
           rest)
  {
    assert Lookup(name) == None by { NamesInBytes(); }
    assert InvalidName(name)
      == [73, 110, 118, 97, 108, 105, 100, 32, 109, 101, 116, 104, 111, 100, 32, 110, 97, 109, 101, 58, 32,
        39] + name + [39] by { TextsInBytes(name, AddCard); }
    hide Lookup, InvalidName, ServeOne, Encode, SizeBytes, I32Bytes;
    NoCallInBytes(handler, st, name, seqid, body, rest);
  }

  /** A reply without a result, in bytes: recv throws an application exception of kind 5 that names the call. */
  lemma MissingResultInBytes(call: Call, was: Val, seqid: i32, rest: Bytes)
    requires HasType(SuccessOf(call), was)
    ensures Recv(call, was, [0x80, 1, 0, 2] + SizeBytes(|NameOf(call)|) + NameOf(call) + I32Bytes(seqid) + [0] + rest)
         == Exception(NameOf(call) + [32, 102, 97, 105, 108, 101, 100, 58, 32, 117, 110, 107, 110, 111, 119, 110, 32,
           114, 101, 115, 117, 108, 116], 5, rest)
  {
    TextsInBytes([], call);
    hide SizeBytes, I32Bytes, NameOf, ReadMessageBegin, ReadVal, SuccessOf, UnknownResult;
    MessageInBytes(NameOf(call), T_REPLY, seqid);
    hide MessageBegin;
    HeaderRoundTrip(NameOf(call), T_REPLY, seqid, [0] + rest);
    EmptyResultFromBytes(SuccessOf(call), was, false, rest);
    var header := [0x80, 1, 0, 2] + SizeBytes(|NameOf(call)|) + NameOf(call) + I32Bytes(seqid);
    assert header + [0] + rest == header + ([0] + rest);
  }

  /** Every request that a client can write is one that the server can be sent. */
  lemma RequestIsAcceptable(call: Call, seqid: i32, args: Val)
    requires HasType(ArgsOf(call), args) && Writable(ArgsOf(call), args)
    ensures var m := Message(NameOf(call), T_CALL, seqid, ToWire(ArgsOf(call), args));
      Acceptable(m) && EncodeMessage(m) == Request(call, seqid, args)
  {
    CallSchemas(call);
    NamesInBytes();
    hide NameOf, ArgsOf, ToWire, WellFormed, MessageBegin, Writable, HasType, Encode;
    LookupName(call);
    WrittenFits(ArgsOf(call), args);
  }
}
