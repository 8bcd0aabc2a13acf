/** The concurrent client: many callers share one connection; one that reads somebody else's header parks it.

  The recv loop is a transition system.  What it uses of the library's sync_ object is stated as the steps below and
  is an assumption of the model: a generated sequence id is not in use by a call in flight; the write mutex is held
  for the whole send; the read mutex is held from entering recv to leaving it, except inside waitForWork, which may
  return at any moment at which the mutex is free, or without having let go of it; the parked header is one slot.

  Both directions of the connection are flat streams of headers and bodies, so that a loop that read a header where
  a body stands would do so here too, and end in the phase Broken.
*/
module ConcurrentClient {
  import opened Wrappers

  datatype MessageType = CALL | REPLY | EXCEPTION

  datatype Header = Header(fname: string, mtype: MessageType, seqid: int)

  /** What the server makes of a request: a result, sent as a reply, or a fault, sent as an exception. */
  datatype Answer<+V> = Result(result: V) | Fault(fault: V)

  /** Bodies are tagged with the caller they come from or are meant for; the client never looks at the tag. */
  datatype ReplyBody<+V> = ReplyBody(who: int, answer: Answer<V>)

  datatype Item<+B> = Head(header: Header) | Body(body: B)

  datatype Message<+B> = Message(header: Header, body: B)

  datatype Phase<+V> =
    | Idle
    | Numbered(seqid: int)               // has its sequence id, wants the write mutex
    | Writing(seqid: int)                // holds the write mutex, header written
    | Sent(seqid: int)                   // send committed, wants the read mutex for the first time
    | Looking(seqid: int)                // holds the read mutex, at the top of the loop
    | Holding(seqid: int, held: Header)  // holds the read mutex and has a header in its hand
    | Parked(seqid: int)                 // holds the read mutex, has parked a header, about to wait
    | Waiting(seqid: int)                // inside waitForWork, without the mutex
    | Finished(answer: Answer<V>)        // returned its result or threw its application exception
    | Broken                             // threw without committing

  datatype Caller<+V> = Caller(fname: string, phase: Phase<V>)

  datatype Accepted = Accepted(fname: string, who: int)

  datatype State<V> = State(
    callers: map<int, Caller<V>>,
    registered: set<int>,                        // sync_: sequence ids of calls in flight
    pending: Option<Header>,                     // sync_: the parked header
    readLock: Option<int>,
    writeLock: Option<int>,
    toServer: seq<Item<int>>,
    accepted: map<int, Accepted>,                // read by the server and not yet answered
    fromServer: seq<Item<ReplyBody<V>>>,
    // History: what happened, for stating properties; no step depends on it.
    requests: seq<Message<int>>,                 // whole requests on the way to the server
    unread: seq<Message<ReplyBody<V>>>,          // replies whose body has not been consumed
    answers: map<int, Answer<V>>,                // what the server answered to each caller
    headersRead: nat,
    bodiesRead: nat)

  predicate Init<V>(s: State<V>) {
    && (forall c <- s.callers :: s.callers[c].phase == Idle)
    && s.registered == {} && s.pending == None && s.readLock == None && s.writeLock == None
    && s.toServer == [] && s.accepted == map[] && s.fromServer == []
    && s.requests == [] && s.unread == [] && s.answers == map[] && s.headersRead == 0 && s.bodiesRead == 0
  }

  datatype Step<V> =
    | GenerateSeqId(c: int, seqid: int)
    | WriteHeader(c: int)
    | WriteBody(c: int)
    | ServerAccept
    | ServerReply(seqid: int, answer: Answer<V>)
    | EnterRecv(c: int)
    | GetPending(c: int)
    | ReadHeader(c: int)
    | Consume(c: int)
    | Park(c: int)
    | LetGo(c: int)
    | StayAwake(c: int)
    | Wake(c: int)

  function Move<V>(s: State<V>, c: int, phase: Phase<V>): State<V>
    requires c in s.callers
  {
    s.(callers := s.callers[c := s.callers[c].(phase := phase)])
  }

  /** Leaving recv: the sentry's destructor unregisters the id and releases the read mutex. */
  function Leave<V>(s: State<V>, c: int, seqid: int, phase: Phase<V>): State<V>
    requires c in s.callers
  {
    Move(s, c, phase).(registered := s.registered - {seqid}, readLock := None)
  }

  /** The end of the loop body when the header in the caller's hand is its own. */
  function ConsumeBody<V>(s: State<V>, c: int): State<V>
    requires c in s.callers && s.callers[c].phase.Holding? && |s.fromServer| > 0
  {
    var seqid, header := s.callers[c].phase.seqid, s.callers[c].phase.held;
    if header.mtype != EXCEPTION && (header.mtype != REPLY || header.fname != s.callers[c].fname) then
      Leave(s, c, seqid, Broken)
    else
      match s.fromServer[0]
      case Head(_) => Leave(s, c, seqid, Broken)
      case Body(body) =>
        if header.mtype.EXCEPTION? != body.answer.Fault? then Leave(s, c, seqid, Broken)
        else
          Leave(s, c, seqid, Finished(body.answer)).(
            fromServer := s.fromServer[1..],
            unread := if |s.unread| > 0 then s.unread[1..] else [],
            bodiesRead := s.bodiesRead + 1)
  }

  predicate Enabled<V>(s: State<V>, step: Step<V>) {
    match step
    case GenerateSeqId(c, seqid) => c in s.callers && s.callers[c].phase.Idle? && seqid !in s.registered
    case WriteHeader(c) => c in s.callers && s.callers[c].phase.Numbered? && s.writeLock == None
    case WriteBody(c) => c in s.callers && s.callers[c].phase.Writing?
    case ServerAccept => |s.toServer| >= 2 && s.toServer[0].Head? && s.toServer[1].Body?
    case ServerReply(seqid, _) => seqid in s.accepted
    case EnterRecv(c) => c in s.callers && s.callers[c].phase.Sent? && s.readLock == None
    case GetPending(c) => c in s.callers && s.callers[c].phase.Looking? && s.pending.Some?
    case ReadHeader(c) => c in s.callers && s.callers[c].phase.Looking? && s.pending.None? && |s.fromServer| > 0
    case Consume(c) =>
      c in s.callers && s.callers[c].phase.Holding? && s.callers[c].phase.seqid == s.callers[c].phase.held.seqid
      && |s.fromServer| > 0
    case Park(c) => c in s.callers && s.callers[c].phase.Holding?
      && s.callers[c].phase.seqid != s.callers[c].phase.held.seqid
    case LetGo(c) => c in s.callers && s.callers[c].phase.Parked?
    case StayAwake(c) => c in s.callers && s.callers[c].phase.Parked?
    case Wake(c) => c in s.callers && s.callers[c].phase.Waiting? && s.readLock == None
  }

  function Do<V>(s: State<V>, step: Step<V>): State<V>
    requires Enabled(s, step)
  {
    match step
    case GenerateSeqId(c, seqid) => Move(s, c, Numbered(seqid)).(registered := s.registered + {seqid})
    case WriteHeader(c) =>
      var seqid := s.callers[c].phase.seqid;
      Move(s, c, Writing(seqid)).(writeLock := Some(c),
        toServer := s.toServer + [Head(Header(s.callers[c].fname, CALL, seqid))])
    case WriteBody(c) =>
      var seqid := s.callers[c].phase.seqid;
      Move(s, c, Sent(seqid)).(
        writeLock := None, toServer := s.toServer + [Body(c)],
        requests := s.requests + [Message(Header(s.callers[c].fname, CALL, seqid), c)])
    case ServerAccept =>
      var h, who := s.toServer[0].header, s.toServer[1].body;
      s.(toServer := s.toServer[2..], accepted := s.accepted[h.seqid := Accepted(h.fname, who)],
         requests := if |s.requests| > 0 then s.requests[1..] else [])
    case ServerReply(seqid, answer) =>
      var a := s.accepted[seqid];
      var h := Header(a.fname, if answer.Result? then REPLY else EXCEPTION, seqid);
      s.(accepted := s.accepted - {seqid}, fromServer := s.fromServer + [Head(h), Body(ReplyBody(a.who, answer))],
         unread := s.unread + [Message(h, ReplyBody(a.who, answer))], answers := s.answers[a.who := answer])
    case EnterRecv(c) => Move(s, c, Looking(s.callers[c].phase.seqid)).(readLock := Some(c))
    case GetPending(c) => Move(s, c, Holding(s.callers[c].phase.seqid, s.pending.value)).(pending := None)
    case ReadHeader(c) =>
      (match s.fromServer[0]
       case Body(_) => Leave(s, c, s.callers[c].phase.seqid, Broken)
       case Head(h) =>
         Move(s, c, Holding(s.callers[c].phase.seqid, h)).(fromServer := s.fromServer[1..],
           headersRead := s.headersRead + 1))
    case Consume(c) => ConsumeBody(s, c)
    case Park(c) =>
      var seqid, h := s.callers[c].phase.seqid, s.callers[c].phase.held;
      if h.seqid !in s.registered then Leave(s, c, seqid, Broken) else Move(s, c, Parked(seqid)).(pending := Some(h))
    case LetGo(c) => Move(s, c, Waiting(s.callers[c].phase.seqid)).(readLock := None)
    case StayAwake(c) => Move(s, c, Looking(s.callers[c].phase.seqid))
    case Wake(c) => Move(s, c, Looking(s.callers[c].phase.seqid)).(readLock := Some(c))
  }

  ghost predicate Next<V(!new)>(s: State<V>, t: State<V>) {
    exists step :: Enabled(s, step) && t == Do(s, step)
  }

  /** A run: any interleaving of any number of callers and the server, of any length. */
  ghost predicate IsRun<V(!new)>(run: seq<State<V>>) {
    && |run| > 0 && Init(run[0])
    && forall i | 0 <= i < |run| - 1 :: Next(run[i], run[i + 1])
  }

  // -------------------------------------------------------------------------------------------------------------
  // The invariant
  // -------------------------------------------------------------------------------------------------------------

  predicate InFlight<V>(p: Phase<V>) {
    !p.Idle? && !p.Finished? && !p.Broken?
  }

  predicate AwaitsReply<V>(p: Phase<V>) {
    p.Sent? || p.Looking? || p.Holding? || p.Parked? || p.Waiting?
  }

  predicate HasReadLock<V>(p: Phase<V>) {
    p.Looking? || p.Holding? || p.Parked?
  }

  function Flatten<B>(ms: seq<Message<B>>): seq<Item<B>> {
    if |ms| == 0 then [] else [Head(ms[0].header), Body(ms[0].body)] + Flatten(ms[1..])
  }

  lemma {:induction false} FlattenAppend<B>(ms: seq<Message<B>>, m: Message<B>)
    ensures Flatten(ms + [m]) == Flatten(ms) + [Head(m.header), Body(m.body)]
  {
    if |ms| == 0 {
      assert ms + [m] == [m];
    } else {
      assert (ms + [m])[1..] == ms[1..] + [m];
      FlattenAppend(ms[1..], m);
    }
  }

  /** The header that has been read and whose body has not been consumed: parked, or in a caller's hand. */
  function InHand<V>(s: State<V>): Option<Header> {
    if s.readLock.Some? && s.readLock.value in s.callers && s.callers[s.readLock.value].phase.Holding?
    then Some(s.callers[s.readLock.value].phase.held)
    else s.pending
  }

  /** A message or a server record belongs to the call in flight that has its sequence id and its name. */
  predicate Belongs<V>(s: State<V>, who: int, seqid: int, fname: string) {
    who in s.callers && AwaitsReply(s.callers[who].phase) && s.callers[who].phase.seqid == seqid
      && s.callers[who].fname == fname
  }

  ghost predicate Locks<V>(s: State<V>) {
    && (forall c <- s.callers :: HasReadLock(s.callers[c].phase) <==> s.readLock == Some(c))
    && (forall c <- s.callers :: s.callers[c].phase.Writing? <==> s.writeLock == Some(c))
    && (s.readLock.Some? ==> s.readLock.value in s.callers)
    && (s.writeLock.Some? ==> s.writeLock.value in s.callers)
    && (forall c <- s.callers :: s.callers[c].phase.Holding? ==> s.pending.None?)
    && (forall c <- s.callers :: !s.callers[c].phase.Broken?)
  }

  ghost predicate Ids<V>(s: State<V>) {
    && (forall c <- s.callers :: InFlight(s.callers[c].phase) ==> s.callers[c].phase.seqid in s.registered)
    && (forall c, d | c in s.callers && d in s.callers && c != d && InFlight(s.callers[c].phase)
       && InFlight(s.callers[d].phase) ::
          s.callers[c].phase.seqid != s.callers[d].phase.seqid)
  }

  /** The stream to the server is whole requests, and the header of the one being written. */
  ghost predicate Outgoing<V>(s: State<V>) {
    s.toServer == Flatten(s.requests)
      + (if s.writeLock.Some? && s.writeLock.value in s.callers && s.callers[s.writeLock.value].phase.Writing?
         then [Head(Header(s.callers[s.writeLock.value].fname, CALL, s.callers[s.writeLock.value].phase.seqid))]
         else [])
  }

  ghost predicate Requests<V>(s: State<V>) {
    forall i | 0 <= i < |s.requests| ::
      Belongs(s, s.requests[i].body, s.requests[i].header.seqid, s.requests[i].header.fname)
  }

  ghost predicate AtServer<V>(s: State<V>) {
    forall q <- s.accepted :: Belongs(s, s.accepted[q].who, q, s.accepted[q].fname)
  }

  /** The stream from the server is whole replies, less the header in hand. */
  ghost predicate Incoming<V>(s: State<V>) {
    match InHand(s)
    case None => s.fromServer == Flatten(s.unread)
    case Some(h) =>
      && |s.unread| > 0 && s.unread[0].header == h
      && s.fromServer == [Body(s.unread[0].body)] + Flatten(s.unread[1..])
  }

  ghost predicate Replies<V>(s: State<V>) {
    forall i | 0 <= i < |s.unread| :: IsReply(s, s.unread[i])
  }

  ghost predicate IsReply<V>(s: State<V>, m: Message<ReplyBody<V>>) {
    && Belongs(s, m.body.who, m.header.seqid, m.header.fname)
    && m.header.mtype == (if m.body.answer.Result? then REPLY else EXCEPTION)
    && m.body.who in s.answers && s.answers[m.body.who] == m.body.answer
  }

  /** Every call is in one place only: on the way to the server, at the server, or on the way back. */
  ghost predicate OnePlace<V>(s: State<V>) {
    && (forall i, j | 0 <= i < j < |s.requests| :: s.requests[i].header.seqid != s.requests[j].header.seqid)
    && (forall i, j | 0 <= i < j < |s.unread| :: s.unread[i].header.seqid != s.unread[j].header.seqid)
    && (forall i | 0 <= i < |s.requests| :: s.requests[i].header.seqid !in s.accepted)
    && (forall i | 0 <= i < |s.unread| :: s.unread[i].header.seqid !in s.accepted)
    && (forall i, j | 0 <= i < |s.requests| && 0 <= j < |s.unread| ::
       s.requests[i].header.seqid != s.unread[j].header.seqid)
  }

  ghost predicate Counts<V>(s: State<V>) {
    s.headersRead == s.bodiesRead + (if InHand(s).Some? then 1 else 0)
  }

  ghost predicate Results<V>(s: State<V>) {
    forall c <- s.callers ::
      s.callers[c].phase.Finished? ==> c in s.answers && s.answers[c] == s.callers[c].phase.answer
  }

  ghost predicate Inv<V>(s: State<V>) {
    && Locks(s) && Ids(s)
    && Outgoing(s) && Requests(s) && AtServer(s)
    && Incoming(s) && Replies(s)
    && OnePlace(s) && Counts(s) && Results(s)
  }

  // -------------------------------------------------------------------------------------------------------------
  // Steps that only move one caller that awaits its reply from one phase of waiting to another
  // -------------------------------------------------------------------------------------------------------------

  /** Nothing that concerns ids, requests, the server or answers has changed. */
  predicate SameCalls<V(==)>(s: State<V>, t: State<V>, c: int) {
    && c in s.callers && c in t.callers
    && AwaitsReply(s.callers[c].phase) && AwaitsReply(t.callers[c].phase)
    && s.callers[c].phase.seqid == t.callers[c].phase.seqid
    && t.callers == s.callers[c := s.callers[c].(phase := t.callers[c].phase)]
    && t.registered == s.registered && t.writeLock == s.writeLock && t.toServer == s.toServer
       && t.accepted == s.accepted
    && t.requests == s.requests && t.unread == s.unread && t.answers == s.answers
  }

  lemma SameCallsBelong<V>(s: State<V>, t: State<V>, c: int)
    requires SameCalls(s, t, c)
    ensures forall who, seqid, fname :: Belongs(s, who, seqid, fname) ==> Belongs(t, who, seqid, fname)
  {
  }

  lemma SameCallsKeepIds<V>(s: State<V>, t: State<V>, c: int)
    requires SameCalls(s, t, c) && Ids(s)
    ensures Ids(t)
  {
  }

  lemma SameCallsKeepOutgoing<V>(s: State<V>, t: State<V>, c: int)
    requires SameCalls(s, t, c) && Outgoing(s)
    ensures Outgoing(t)
  {
  }

  lemma SameCallsKeep<V>(s: State<V>, t: State<V>, c: int)
    requires SameCalls(s, t, c) && Ids(s) && Outgoing(s) && Requests(s) && AtServer(s) && Replies(s) && OnePlace(s)
      && Results(s)
    ensures Ids(t) && Outgoing(t) && Requests(t) && AtServer(t) && Replies(t) && OnePlace(t) && Results(t)
  {
    SameCallsKeepIds(s, t, c);
    SameCallsKeepOutgoing(s, t, c);
    SameCallsBelong(s, t, c);
    hide Ids, Outgoing, Belongs;
    forall i | 0 <= i < |t.unread| ensures IsReply(t, t.unread[i]) {
      assert IsReply(s, s.unread[i]);
    }
  }

  // Who holds the read mutex, and which header is in hand.

  lemma EnterRecvCore<V>(s: State<V>, c: int)
    requires Locks(s) && Incoming(s) && Counts(s) && Enabled(s, EnterRecv(c))
    ensures var t := Do(s, EnterRecv(c)); Locks(t) && Incoming(t) && Counts(t)
  {
  }

  lemma WakeCore<V>(s: State<V>, c: int)
    requires Locks(s) && Incoming(s) && Counts(s) && Enabled(s, Wake(c))
    ensures var t := Do(s, Wake(c)); Locks(t) && Incoming(t) && Counts(t)
  {
  }

  lemma LetGoCore<V>(s: State<V>, c: int)
    requires Locks(s) && Incoming(s) && Counts(s) && Enabled(s, LetGo(c))
    ensures var t := Do(s, LetGo(c)); Locks(t) && Incoming(t) && Counts(t)
  {
  }

  lemma StayAwakeCore<V>(s: State<V>, c: int)
    requires Locks(s) && Incoming(s) && Counts(s) && Enabled(s, StayAwake(c))
    ensures var t := Do(s, StayAwake(c)); Locks(t) && Incoming(t) && Counts(t)
  {
  }

  lemma GetPendingCore<V>(s: State<V>, c: int)
    requires Locks(s) && Incoming(s) && Counts(s) && Enabled(s, GetPending(c))
    ensures var t := Do(s, GetPending(c)); Locks(t) && Incoming(t) && Counts(t)
  {
  }

  /** A caller that reads from the stream finds a header there. */
  lemma HeaderIsNext<V>(s: State<V>, c: int)
    requires Locks(s) && Incoming(s) && Enabled(s, ReadHeader(c))
    ensures InHand(s) == None && |s.unread| > 0 && s.fromServer[0] == Head(s.unread[0].header)
    ensures s.fromServer[1..] == [Body(s.unread[0].body)] + Flatten(s.unread[1..])
  {
    assert s.fromServer == Flatten(s.unread);
    assert s.fromServer == [Head(s.unread[0].header), Body(s.unread[0].body)] + Flatten(s.unread[1..]);
  }

  lemma ReadHeaderCore<V>(s: State<V>, c: int)
    requires Locks(s) && Incoming(s) && Counts(s) && Enabled(s, ReadHeader(c))
    ensures var t := Do(s, ReadHeader(c)); SameCalls(s, t, c) && Locks(t) && Incoming(t) && Counts(t)
  {
    HeaderIsNext(s, c);
  }

  /** The header in hand is that of the first unread reply, which belongs to a call in flight. */
  lemma HeaderInHand<V>(s: State<V>)
    requires Ids(s) && Incoming(s) && Replies(s) && InHand(s).Some?
    ensures |s.unread| > 0 && s.unread[0].header == InHand(s).value && IsReply(s, s.unread[0])
    ensures InHand(s).value.seqid in s.registered
    ensures s.fromServer == [Body(s.unread[0].body)] + Flatten(s.unread[1..])
  {
  }

  lemma ParkCore<V>(s: State<V>, c: int)
    requires Locks(s) && Incoming(s) && Counts(s) && Enabled(s, Park(c))
    requires s.callers[c].phase.held.seqid in s.registered
    ensures var t := Do(s, Park(c)); SameCalls(s, t, c) && Locks(t) && Incoming(t) && Counts(t)
  {
  }

  lemma HeldIsInHand<V>(s: State<V>, c: int)
    requires Locks(s) && c in s.callers && s.callers[c].phase.Holding?
    ensures InHand(s) == Some(s.callers[c].phase.held)
  {
  }

  lemma EnterRecvKeeps<V>(s: State<V>, c: int)
    requires Inv(s) && Enabled(s, EnterRecv(c))
    ensures Inv(Do(s, EnterRecv(c)))
  {
    hide Locks, Ids, Outgoing, Requests, AtServer, Incoming, Replies, OnePlace, Counts, Results;
    EnterRecvCore(s, c);
    SameCallsKeep(s, Do(s, EnterRecv(c)), c);
  }

  lemma WakeKeeps<V>(s: State<V>, c: int)
    requires Inv(s) && Enabled(s, Wake(c))
    ensures Inv(Do(s, Wake(c)))
  {
    hide Locks, Ids, Outgoing, Requests, AtServer, Incoming, Replies, OnePlace, Counts, Results;
    WakeCore(s, c);
    SameCallsKeep(s, Do(s, Wake(c)), c);
  }

  lemma LetGoKeeps<V>(s: State<V>, c: int)
    requires Inv(s) && Enabled(s, LetGo(c))
    ensures Inv(Do(s, LetGo(c)))
  {
    hide Locks, Ids, Outgoing, Requests, AtServer, Incoming, Replies, OnePlace, Counts, Results;
    LetGoCore(s, c);
    SameCallsKeep(s, Do(s, LetGo(c)), c);
  }

  lemma StayAwakeKeeps<V>(s: State<V>, c: int)
    requires Inv(s) && Enabled(s, StayAwake(c))
    ensures Inv(Do(s, StayAwake(c)))
  {
    hide Locks, Ids, Outgoing, Requests, AtServer, Incoming, Replies, OnePlace, Counts, Results;
    StayAwakeCore(s, c);
    SameCallsKeep(s, Do(s, StayAwake(c)), c);
  }

  lemma GetPendingKeeps<V>(s: State<V>, c: int)
    requires Inv(s) && Enabled(s, GetPending(c))
    ensures Inv(Do(s, GetPending(c)))
  {
    hide Locks, Ids, Outgoing, Requests, AtServer, Incoming, Replies, OnePlace, Counts, Results;
    GetPendingCore(s, c);
    SameCallsKeep(s, Do(s, GetPending(c)), c);
  }

  lemma ReadHeaderKeeps<V>(s: State<V>, c: int)
    requires Inv(s) && Enabled(s, ReadHeader(c))
    ensures Inv(Do(s, ReadHeader(c)))
  {
    hide Locks, Ids, Outgoing, Requests, AtServer, Incoming, Replies, OnePlace, Counts, Results;
    ReadHeaderCore(s, c);
    SameCallsKeep(s, Do(s, ReadHeader(c)), c);
  }

  lemma ParkKeeps<V>(s: State<V>, c: int)
    requires Inv(s) && Enabled(s, Park(c))
    ensures Inv(Do(s, Park(c)))
  {
    hide Locks, Ids, Outgoing, Requests, AtServer, Incoming, Replies, OnePlace, Counts, Results;
    HeldIsInHand(s, c);
    HeaderInHand(s);
    ParkCore(s, c);
    SameCallsKeep(s, Do(s, Park(c)), c);
  }

  // -------------------------------------------------------------------------------------------------------------
  // Consuming a body
  // -------------------------------------------------------------------------------------------------------------

  /** A caller whose own header is in its hand finds its own answer next on the stream. */
  lemma ConsumeOwn<V>(s: State<V>, c: int)
    requires Inv(s) && Enabled(s, Consume(c))
    ensures |s.unread| > 0 && s.unread[0].body.who == c && c in s.answers && s.answers[c] == s.unread[0].body.answer
    ensures s.fromServer == [Body(s.unread[0].body)] + Flatten(s.unread[1..])
    ensures Do(s, Consume(c)) == Leave(s, c, s.callers[c].phase.seqid, Finished(s.answers[c])).(
      fromServer := Flatten(s.unread[1..]), unread := s.unread[1..], bodiesRead := s.bodiesRead + 1)
  {
    HeaderInHand(s);
    assert InHand(s) == Some(s.callers[c].phase.held);
    assert s.unread[0].body.who == c by {
      assert Belongs(s, s.unread[0].body.who, s.callers[c].phase.seqid, s.unread[0].header.fname);
    }
    assert s.fromServer[0] == Body(s.unread[0].body) && s.fromServer[1..] == Flatten(s.unread[1..]);
  }

  /** Whatever has another sequence id still belongs to its call after c has left. */
  lemma LeaveBelongs<V>(s: State<V>, t: State<V>, c: int, who: int, seqid: int, fname: string)
    requires c in s.callers && AwaitsReply(s.callers[c].phase) && c in t.callers
    requires t.callers == s.callers[c := s.callers[c].(phase := t.callers[c].phase)]
    requires Belongs(s, who, seqid, fname) && seqid != s.callers[c].phase.seqid
    ensures Belongs(t, who, seqid, fname) && who != c
  {
  }

  lemma ConsumeKeepsPlaces<V>(s: State<V>, c: int)
    requires Inv(s) && Enabled(s, Consume(c))
    ensures var t := Do(s, Consume(c)); Requests(t) && AtServer(t) && Replies(t) && OnePlace(t)
  {
    ConsumeOwn(s, c);
    var t := Do(s, Consume(c));
    var q := s.callers[c].phase.seqid;
    assert s.unread[0].header.seqid == q by { assert IsReply(s, s.unread[0]); }
    forall i | 0 <= i < |t.requests|
      ensures Belongs(t, t.requests[i].body, t.requests[i].header.seqid, t.requests[i].header.fname)
    {
      LeaveBelongs(s, t, c, s.requests[i].body, s.requests[i].header.seqid, s.requests[i].header.fname);
    }
    forall p | p in t.accepted ensures Belongs(t, t.accepted[p].who, p, t.accepted[p].fname) {
      LeaveBelongs(s, t, c, s.accepted[p].who, p, s.accepted[p].fname);
    }
    forall i | 0 <= i < |t.unread| ensures IsReply(t, t.unread[i]) {
      assert IsReply(s, s.unread[i + 1]);
      LeaveBelongs(s, t, c, s.unread[i + 1].body.who, s.unread[i + 1].header.seqid, s.unread[i + 1].header.fname);
    }
    assert forall i | 0 <= i < |t.unread| :: t.unread[i] == s.unread[i + 1];
  }

  lemma ConsumeKeepsLocks<V>(s: State<V>, c: int)
    requires Inv(s) && Enabled(s, Consume(c))
    ensures var t := Do(s, Consume(c)); Locks(t) && Ids(t) && Outgoing(t) && Incoming(t) && Counts(t) && Results(t)
  {
    ConsumeOwn(s, c);
    assert InHand(s) == Some(s.callers[c].phase.held);
    hide Replies, Requests, AtServer, OnePlace, IsReply;
  }

  lemma ConsumeKeeps<V>(s: State<V>, c: int)
    requires Inv(s) && Enabled(s, Consume(c))
    ensures Inv(Do(s, Consume(c)))
  {
    ConsumeKeepsPlaces(s, c);
    ConsumeKeepsLocks(s, c);
    hide Locks, Ids, Outgoing, Requests, AtServer, Incoming, Replies, OnePlace, Counts, Results;
  }

  // -------------------------------------------------------------------------------------------------------------
  // Sending
  // -------------------------------------------------------------------------------------------------------------

  /** A caller that is not yet waiting for a reply owns nothing, so its moves take nothing away from anybody. */
  lemma SenderBelongs<V>(s: State<V>, t: State<V>, c: int)
    requires c in s.callers && !AwaitsReply(s.callers[c].phase) && c in t.callers
    requires t.callers == s.callers[c := s.callers[c].(phase := t.callers[c].phase)]
    ensures forall who, seqid, fname :: Belongs(s, who, seqid, fname) ==> Belongs(t, who, seqid, fname)
  {
  }

  /** A sender leaves the incoming side, the server and all messages as they are. */
  predicate SenderStep<V(==)>(s: State<V>, t: State<V>, c: int) {
    && c in s.callers && c in t.callers
    && (s.callers[c].phase.Idle? || s.callers[c].phase.Numbered? || s.callers[c].phase.Writing?)
    && (t.callers[c].phase.Numbered? || t.callers[c].phase.Writing? || t.callers[c].phase.Sent?)
    && t.callers == s.callers[c := s.callers[c].(phase := t.callers[c].phase)]
    && t.pending == s.pending && t.readLock == s.readLock && t.accepted == s.accepted && t.fromServer == s.fromServer
    && t.unread == s.unread && t.answers == s.answers && t.headersRead == s.headersRead && t.bodiesRead == s.bodiesRead
  }

  lemma SenderKeepsHand<V>(s: State<V>, t: State<V>, c: int)
    requires SenderStep(s, t, c) && Locks(s) && Incoming(s) && Counts(s) && Results(s)
    ensures Incoming(t) && Counts(t) && Results(t)
  {
    assert InHand(t) == InHand(s);
  }

  lemma SenderKeeps<V>(s: State<V>, t: State<V>, c: int)
    requires SenderStep(s, t, c) && Locks(s) && AtServer(s) && Incoming(s) && Replies(s) && Counts(s) && Results(s)
    ensures AtServer(t) && Incoming(t) && Replies(t) && Counts(t) && Results(t)
  {
    SenderKeepsHand(s, t, c);
    SenderBelongs(s, t, c);
    hide Locks, Incoming, Counts, Results, Belongs;
    forall i | 0 <= i < |t.unread| ensures IsReply(t, t.unread[i]) {
      assert IsReply(s, s.unread[i]);
    }
  }

  lemma RequestsStayWith<V>(s: State<V>, t: State<V>)
    requires Requests(s) && OnePlace(s) && t.requests == s.requests && t.unread == s.unread && t.accepted == s.accepted
    requires forall who, seqid, fname :: Belongs(s, who, seqid, fname) ==> Belongs(t, who, seqid, fname)
    ensures Requests(t) && OnePlace(t)
  {
    hide Belongs;
  }

  lemma GenerateSeqIdCore<V>(s: State<V>, c: int, seqid: int)
    requires Locks(s) && Ids(s) && Outgoing(s) && Enabled(s, GenerateSeqId(c, seqid))
    ensures var t := Do(s, GenerateSeqId(c, seqid)); SenderStep(s, t, c) && Locks(t) && Ids(t) && Outgoing(t)
  {
  }

  lemma GenerateSeqIdKeeps<V>(s: State<V>, c: int, seqid: int)
    requires Inv(s) && Enabled(s, GenerateSeqId(c, seqid))
    ensures Inv(Do(s, GenerateSeqId(c, seqid)))
  {
    hide Locks, Ids, Outgoing, Requests, AtServer, Incoming, Replies, OnePlace, Counts, Results, Belongs;
    var t := Do(s, GenerateSeqId(c, seqid));
    GenerateSeqIdCore(s, c, seqid);
    SenderKeeps(s, t, c);
    SenderBelongs(s, t, c);
    RequestsStayWith(s, t);
  }

  lemma WriteHeaderCore<V>(s: State<V>, c: int)
    requires Locks(s) && Ids(s) && Outgoing(s) && Enabled(s, WriteHeader(c))
    ensures var t := Do(s, WriteHeader(c)); SenderStep(s, t, c) && Locks(t) && Ids(t) && Outgoing(t)
  {
    assert s.toServer == Flatten(s.requests);
  }

  lemma WriteHeaderKeeps<V>(s: State<V>, c: int)
    requires Inv(s) && Enabled(s, WriteHeader(c))
    ensures Inv(Do(s, WriteHeader(c)))
  {
    hide Locks, Ids, Outgoing, Requests, AtServer, Incoming, Replies, OnePlace, Counts, Results, Belongs;
    var t := Do(s, WriteHeader(c));
    WriteHeaderCore(s, c);
    SenderKeeps(s, t, c);
    SenderBelongs(s, t, c);
    RequestsStayWith(s, t);
  }

  lemma WriteBodyLocks<V>(s: State<V>, c: int)
    requires Locks(s) && Ids(s) && Enabled(s, WriteBody(c))
    ensures var t := Do(s, WriteBody(c)); SenderStep(s, t, c) && Locks(t) && Ids(t)
  {
  }

  lemma WriteBodyOutgoing<V>(s: State<V>, c: int)
    requires Locks(s) && Outgoing(s) && Enabled(s, WriteBody(c))
    ensures Outgoing(Do(s, WriteBody(c)))
  {
    var header := Header(s.callers[c].fname, CALL, s.callers[c].phase.seqid);
    assert s.writeLock == Some(c);
    FlattenAppend(s.requests, Message(header, c));
    assert Flatten(s.requests) + [Head(header)] + [Body(c)] == Flatten(s.requests) + [Head(header), Body(c)];
  }

  lemma WriteBodyPlaces<V>(s: State<V>, c: int)
    requires Ids(s) && Requests(s) && AtServer(s) && Replies(s) && OnePlace(s) && Enabled(s, WriteBody(c))
    ensures var t := Do(s, WriteBody(c)); Requests(t) && OnePlace(t)
  {
    var t := Do(s, WriteBody(c));
    var q := s.callers[c].phase.seqid;
    SenderBelongs(s, t, c);
    assert forall who, seqid, fname :: Belongs(s, who, seqid, fname) ==> seqid != q;
    forall i | 0 <= i < |s.unread| ensures s.unread[i].header.seqid != q {
      assert IsReply(s, s.unread[i]);
    }
    assert Belongs(t, c, q, s.callers[c].fname);
    hide Belongs, IsReply, Ids;
  }

  lemma WriteBodyKeeps<V>(s: State<V>, c: int)
    requires Inv(s) && Enabled(s, WriteBody(c))
    ensures Inv(Do(s, WriteBody(c)))
  {
    hide Locks, Ids, Outgoing, Requests, AtServer, Incoming, Replies, OnePlace, Counts, Results, Belongs;
    WriteBodyLocks(s, c);
    WriteBodyOutgoing(s, c);
    WriteBodyPlaces(s, c);
    SenderKeeps(s, Do(s, WriteBody(c)), c);
  }

  // -------------------------------------------------------------------------------------------------------------
  // The server
  // -------------------------------------------------------------------------------------------------------------

  /** The server finds a whole request at the front of its stream. */
  lemma RequestIsNext<V>(s: State<V>)
    requires Outgoing(s) && Enabled(s, ServerAccept)
    ensures |s.requests| > 0 && s.toServer[0] == Head(s.requests[0].header) && s.toServer[1] == Body(s.requests[0].body)
    ensures Outgoing(Do(s, ServerAccept))
  {
    var rest := s.toServer[|Flatten(s.requests)|..];
    assert s.toServer == Flatten(s.requests) + rest && |rest| <= 1;
    assert |s.requests| > 0;
    assert s.toServer == [Head(s.requests[0].header), Body(s.requests[0].body)] + (Flatten(s.requests[1..]) + rest);
    assert s.toServer[2..] == Flatten(s.requests[1..]) + rest;
  }

  /** The server's steps leave the callers and the locks as they are. */
  predicate ServerStep<V(==)>(s: State<V>, t: State<V>) {
    t.callers == s.callers && t.registered == s.registered && t.pending == s.pending && t.readLock == s.readLock
    && t.writeLock == s.writeLock && t.headersRead == s.headersRead && t.bodiesRead == s.bodiesRead
  }

  lemma ServerKeepsLocks<V>(s: State<V>, t: State<V>)
    requires ServerStep(s, t) && Locks(s) && Ids(s) && Counts(s)
    ensures Locks(t) && Ids(t) && Counts(t) && InHand(t) == InHand(s)
    ensures forall who, seqid, fname :: Belongs(s, who, seqid, fname) <==> Belongs(t, who, seqid, fname)
  {
  }

  lemma ServerAcceptPlaces<V>(s: State<V>)
    requires Requests(s) && AtServer(s) && OnePlace(s) && Enabled(s, ServerAccept) && |s.requests| > 0
    requires s.toServer[0] == Head(s.requests[0].header) && s.toServer[1] == Body(s.requests[0].body)
    requires forall who, seqid, fname ::
      Belongs(s, who, seqid, fname) <==> Belongs(Do(s, ServerAccept), who, seqid, fname)
    ensures var t := Do(s, ServerAccept); Requests(t) && AtServer(t) && OnePlace(t)
  {
    hide Belongs;
    var t := Do(s, ServerAccept);
    assert forall i | 0 <= i < |t.requests| :: t.requests[i] == s.requests[i + 1];
    assert Belongs(s, s.requests[0].body, s.requests[0].header.seqid, s.requests[0].header.fname);
  }

  lemma ServerAcceptReplies<V>(s: State<V>, t: State<V>)
    requires ServerStep(s, t) && Incoming(s) && Replies(s) && Results(s)
    requires t.unread == s.unread && t.fromServer == s.fromServer && t.answers == s.answers
    ensures Incoming(t) && Replies(t) && Results(t)
  {
    assert InHand(t) == InHand(s);
    forall i | 0 <= i < |t.unread| ensures IsReply(t, t.unread[i]) {
      assert IsReply(s, s.unread[i]);
    }
  }

  lemma ServerAcceptKeeps<V>(s: State<V>)
    requires Inv(s) && Enabled(s, ServerAccept)
    ensures Inv(Do(s, ServerAccept))
  {
    hide Locks, Ids, Outgoing, Requests, AtServer, Incoming, Replies, OnePlace, Counts, Results, Belongs;
    RequestIsNext(s);
    ServerKeepsLocks(s, Do(s, ServerAccept));
    ServerAcceptPlaces(s);
    ServerAcceptReplies(s, Do(s, ServerAccept));
  }

  lemma ServerReplyStream<V>(s: State<V>, seqid: int, answer: Answer<V>)
    requires Incoming(s) && Outgoing(s) && Enabled(s, ServerReply(seqid, answer))
    ensures var t := Do(s, ServerReply(seqid, answer)); Incoming(t) && Outgoing(t)
  {
    var t := Do(s, ServerReply(seqid, answer));
    var m := t.unread[|s.unread|];
    assert InHand(t) == InHand(s);
    match InHand(s)
    case None => FlattenAppend(s.unread, m);
    case Some(h) =>
      FlattenAppend(s.unread[1..], m);
      assert t.unread[1..] == s.unread[1..] + [m];
  }

  /** The reply goes to a caller that has no other message anywhere and has not finished. */
  lemma ServerReplyPlaces<V>(s: State<V>, seqid: int, answer: Answer<V>)
    requires Requests(s) && AtServer(s) && Replies(s) && OnePlace(s) && Results(s)
      && Enabled(s, ServerReply(seqid, answer))
    ensures var t := Do(s, ServerReply(seqid, answer));
      Requests(t) && AtServer(t) && Replies(t) && OnePlace(t) && Results(t)
  {
    var t := Do(s, ServerReply(seqid, answer));
    var who := s.accepted[seqid].who;
    assert Belongs(s, who, seqid, s.accepted[seqid].fname);
    forall i | 0 <= i < |t.unread| ensures IsReply(t, t.unread[i]) {
      if i < |s.unread| {
        assert IsReply(s, s.unread[i]);
        assert s.unread[i].header.seqid != seqid;
      }
    }
  }

  lemma ServerReplyKeeps<V>(s: State<V>, seqid: int, answer: Answer<V>)
    requires Inv(s) && Enabled(s, ServerReply(seqid, answer))
    ensures Inv(Do(s, ServerReply(seqid, answer)))
  {
    hide Locks, Ids, Outgoing, Requests, AtServer, Incoming, Replies, OnePlace, Counts, Results, Belongs;
    ServerReplyStream(s, seqid, answer);
    ServerReplyPlaces(s, seqid, answer);
    ServerKeepsLocks(s, Do(s, ServerReply(seqid, answer)));
  }

  // -------------------------------------------------------------------------------------------------------------
  // Whole runs
  // -------------------------------------------------------------------------------------------------------------

  lemma InitHolds<V>(s: State<V>)
    requires Init(s)
    ensures Inv(s)
  {
  }

  lemma StepKeeps<V>(s: State<V>, step: Step<V>)
    requires Inv(s) && Enabled(s, step)
    ensures Inv(Do(s, step))
  {
    hide Inv, Enabled, Do;
    match step
    case GenerateSeqId(c, seqid) => GenerateSeqIdKeeps(s, c, seqid);
    case WriteHeader(c) => WriteHeaderKeeps(s, c);
    case WriteBody(c) => WriteBodyKeeps(s, c);
    case ServerAccept => ServerAcceptKeeps(s);
    case ServerReply(seqid, answer) => ServerReplyKeeps(s, seqid, answer);
    case EnterRecv(c) => EnterRecvKeeps(s, c);
    case GetPending(c) => GetPendingKeeps(s, c);
    case ReadHeader(c) => ReadHeaderKeeps(s, c);
    case Consume(c) => ConsumeKeeps(s, c);
    case Park(c) => ParkKeeps(s, c);
    case LetGo(c) => LetGoKeeps(s, c);
    case StayAwake(c) => StayAwakeKeeps(s, c);
    case Wake(c) => WakeKeeps(s, c);
  }

  /** Every state of every run satisfies the invariant. */
  lemma {:induction false} RunKeeps<V(!new)>(run: seq<State<V>>, i: nat)
    requires IsRun(run) && i < |run|
    ensures Inv(run[i])
  {
    hide Inv, Enabled, Do, Init;
    if i == 0 {
      InitHolds(run[0]);
    } else {
      RunKeeps(run, i - 1);
      assert Next(run[i - 1], run[i - 1 + 1]);
      var step :| Enabled(run[i - 1], step) && run[i] == Do(run[i - 1], step);
      StepKeeps(run[i - 1], step);
    }
  }

  /** Each caller that has finished returned what the server answered to its own request, and no caller ever ends in
      a bad state: none finds a body where a header should be, a wrong name, or an unknown id. */
  lemma OwnResult<V(!new)>(run: seq<State<V>>, i: nat, c: int)
    requires IsRun(run) && i < |run| && c in run[i].callers
    ensures run[i].callers[c].phase.Finished? ==>
      c in run[i].answers && run[i].callers[c].phase.answer == run[i].answers[c]
    ensures !run[i].callers[c].phase.Broken?
  {
    RunKeeps(run, i);
  }

  /** Header conservation: headers read are bodies consumed plus the header parked or in a hand, of which there is
      at most one; and whoever is it for is still waiting, so it is never orphaned. */
  lemma HeaderConservation<V(!new)>(run: seq<State<V>>, i: nat)
    requires IsRun(run) && i < |run|
    ensures var s := run[i];
      && s.headersRead == s.bodiesRead + (if InHand(s).Some? then 1 else 0)
      && (forall c <- s.callers ::
         s.callers[c].phase.Holding? ==> s.pending.None? && InHand(s) == Some(s.callers[c].phase.held))
      && (forall c, d | c in s.callers && d in s.callers && s.callers[c].phase.Holding?
         && s.callers[d].phase.Holding? :: c == d)
      && (InHand(s).Some? ==> exists c :: Belongs(s, c, InHand(s).value.seqid, InHand(s).value.fname))
  {
    RunKeeps(run, i);
    var s := run[i];
    if InHand(s).Some? {
      HeaderInHand(s);
      assert Belongs(s, s.unread[0].body.who, InHand(s).value.seqid, InHand(s).value.fname);
    }
  }

  /** What one step does to the replies.  A header is read only when none is parked or in a hand; a body is taken
      off the stream only by the caller it is meant for, which holds the header with its own sequence id, and that
      caller then finishes with it; a caller that has finished stays as it is. */
  ghost predicate Delivers<V>(s: State<V>, t: State<V>) {
    && (t.headersRead != s.headersRead ==>
       InHand(s).None? && t.headersRead == s.headersRead + 1 && t.bodiesRead == s.bodiesRead)
    && (t.bodiesRead != s.bodiesRead ==> TakesOwn(s, t))
    && (t.bodiesRead == s.bodiesRead ==> s.unread <= t.unread)
    && (forall c <- s.callers :: s.callers[c].phase.Finished? ==> c in t.callers && t.callers[c] == s.callers[c])
  }

  ghost predicate TakesOwn<V>(s: State<V>, t: State<V>) {
    && t.bodiesRead == s.bodiesRead + 1 && |s.unread| > 0 && t.unread == s.unread[1..]
    && var c := s.unread[0].body.who;
    && c in s.callers && c in t.callers && s.callers[c].phase.Holding?
    && s.callers[c].phase.seqid == s.callers[c].phase.held.seqid == s.unread[0].header.seqid
    && t.callers[c].phase == Finished(s.unread[0].body.answer)
  }

  lemma ConsumeDelivers<V>(s: State<V>, c: int)
    requires Inv(s) && Enabled(s, Consume(c))
    ensures Delivers(s, Do(s, Consume(c)))
  {
    ConsumeOwn(s, c);
    HeldIsInHand(s, c);
    assert s.unread[0].header == s.callers[c].phase.held;
    hide Inv;
  }

  lemma OtherStepDelivers<V>(s: State<V>, step: Step<V>)
    requires Enabled(s, step) && !step.Consume? && (step.ReadHeader? ==> InHand(s).None?)
    ensures Delivers(s, Do(s, step))
  {
  }

  lemma StepDeliversOne<V>(s: State<V>, step: Step<V>)
    requires Inv(s) && Enabled(s, step)
    ensures Delivers(s, Do(s, step))
  {
    match step
    case Consume(c) =>
      hide Inv, Do, Delivers;
      ConsumeDelivers(s, c);
    case ReadHeader(c) =>
      hide Do, Delivers;
      HeaderIsNext(s, c);
      OtherStepDelivers(s, step);
    case _ =>
      hide Inv, Do, Delivers;
      OtherStepDelivers(s, step);
  }

  /** The caller c holds the header of the next reply, under its own sequence id, and finishes with the answer in it. */
  ghost predicate IsTakenBy<V>(s: State<V>, t: State<V>, c: int): (yes: bool)
    ensures yes ==> |s.unread| > 0 && c in s.callers && s.callers[c].phase.Holding?
    ensures yes ==> s.callers[c].phase.seqid == s.callers[c].phase.held.seqid == s.unread[0].header.seqid
    ensures yes ==> c in t.callers && t.callers[c].phase == Finished(s.unread[0].body.answer)
  {
    && |s.unread| > 0 && c in s.callers && c in t.callers && s.callers[c].phase.Holding?
    && s.callers[c].phase.seqid == s.callers[c].phase.held.seqid == s.unread[0].header.seqid
    && t.callers[c].phase == Finished(s.unread[0].body.answer)
  }

  /** Delivery along a run, step by step. */
  lemma StepDelivers<V(!new)>(run: seq<State<V>>, i: nat)
    requires IsRun(run) && i + 1 < |run|
    ensures run[i + 1].headersRead != run[i].headersRead ==>
      && InHand(run[i]).None?
      && run[i + 1].headersRead == run[i].headersRead + 1 && run[i + 1].bodiesRead == run[i].bodiesRead
    ensures run[i + 1].bodiesRead == run[i].bodiesRead ==> run[i].unread <= run[i + 1].unread
    ensures run[i + 1].bodiesRead != run[i].bodiesRead ==>
      && run[i + 1].bodiesRead == run[i].bodiesRead + 1
      && |run[i].unread| > 0 && run[i + 1].unread == run[i].unread[1..]
      && IsTakenBy(run[i], run[i + 1], run[i].unread[0].body.who)
    ensures forall c <- run[i].callers ::
      run[i].callers[c].phase.Finished? ==> c in run[i + 1].callers && run[i + 1].callers[c] == run[i].callers[c]
  {
    hide Inv, Do, Enabled;
    RunKeeps(run, i);
    var s, t := run[i], run[i + 1];
    assert Next(s, t);
    var step :| Enabled(s, step) && t == Do(s, step);
    StepDeliversOne(s, step);
  }

  ghost predicate IsUnread<V>(s: State<V>, c: int): (yes: bool)
    ensures !yes ==> forall i | 0 <= i < |s.unread| :: s.unread[i].body.who != c
  {
    exists i :: 0 <= i < |s.unread| && s.unread[i].body.who == c
  }

  /** Every answer the server has made is still on the stream or has been returned to its caller. */
  ghost predicate NothingLost<V>(s: State<V>) {
    forall c <- s.answers :: c in s.callers && (s.callers[c].phase.Finished? || IsUnread(s, c))
  }

  lemma ServerReplyLosesNothing<V>(s: State<V>, seqid: int, answer: Answer<V>)
    requires Inv(s) && NothingLost(s) && Enabled(s, ServerReply(seqid, answer))
    ensures NothingLost(Do(s, ServerReply(seqid, answer)))
  {
    var t := Do(s, ServerReply(seqid, answer));
    var who := s.accepted[seqid].who;
    assert Belongs(s, who, seqid, s.accepted[seqid].fname);
    assert t.unread[|s.unread|].body.who == who;
    hide Inv;
    forall c | c in t.answers ensures c in t.callers && (t.callers[c].phase.Finished? || IsUnread(t, c)) {
      if c != who && IsUnread(s, c) {
        var j :| 0 <= j < |s.unread| && s.unread[j].body.who == c;
        assert t.unread[j].body.who == c;
      }
    }
  }

  lemma ConsumeLosesNothing<V>(s: State<V>, c: int)
    requires Inv(s) && NothingLost(s) && Enabled(s, Consume(c))
    ensures NothingLost(Do(s, Consume(c)))
  {
    ConsumeOwn(s, c);
    hide Inv;
    var t := Do(s, Consume(c));
    forall d | d in t.answers ensures d in t.callers && (t.callers[d].phase.Finished? || IsUnread(t, d)) {
      if d != c && IsUnread(s, d) {
        var j :| 0 <= j < |s.unread| && s.unread[j].body.who == d;
        assert t.unread[j - 1].body.who == d;
      }
    }
  }

  lemma OtherStepLosesNothing<V>(s: State<V>, t: State<V>)
    requires NothingLost(s) && t.answers == s.answers && s.unread <= t.unread && t.callers.Keys == s.callers.Keys
    requires forall c <- s.callers :: s.callers[c].phase.Finished? ==> t.callers[c] == s.callers[c]
    ensures NothingLost(t)
  {
    forall d | d in t.answers ensures d in t.callers && (t.callers[d].phase.Finished? || IsUnread(t, d)) {
      if IsUnread(s, d) {
        var j :| 0 <= j < |s.unread| && s.unread[j].body.who == d;
        assert t.unread[j].body.who == d;
      } else {
        assert s.callers[d].phase.Finished?;
      }
    }
  }

  lemma StepLosesNothing<V>(s: State<V>, step: Step<V>)
    requires Inv(s) && NothingLost(s) && Enabled(s, step)
    ensures NothingLost(Do(s, step))
  {
    hide Inv, NothingLost, Do, Delivers, Enabled;
    match step
    case ServerReply(seqid, answer) => ServerReplyLosesNothing(s, seqid, answer);
    case Consume(c) => ConsumeLosesNothing(s, c);
    case _ =>
      StepDeliversOne(s, step);
      OtherStepSame(s, step);
      OtherStepLosesNothing(s, Do(s, step));
  }

  lemma OtherStepSame<V>(s: State<V>, step: Step<V>)
    requires Enabled(s, step) && !step.Consume? && !step.ServerReply?
    requires Delivers(s, Do(s, step))
    ensures var t := Do(s, step);
      t.answers == s.answers && s.unread <= t.unread && t.callers.Keys == s.callers.Keys
      && forall c <- s.callers :: s.callers[c].phase.Finished? ==> t.callers[c] == s.callers[c]
  {
  }

  /** No reply is lost: in every state of every run, each answer the server has made is on the stream, for a caller that
      still awaits it, or has been returned to its caller, and never both. */
  lemma EachAnswerOnce<V(!new)>(run: seq<State<V>>, i: nat)
    requires IsRun(run) && i < |run|
    ensures forall c <- run[i].answers ::
      && c in run[i].callers
      && (run[i].callers[c].phase.Finished? || IsUnread(run[i], c))
      && !(run[i].callers[c].phase.Finished? && IsUnread(run[i], c))
  {
    NothingIsLost(run, i);
    hide Inv;
  }

  lemma {:induction false} NothingIsLost<V(!new)>(run: seq<State<V>>, i: nat)
    requires IsRun(run) && i < |run|
    ensures NothingLost(run[i])
    ensures forall c <- run[i].callers :: !(run[i].callers[c].phase.Finished? && IsUnread(run[i], c))
  {
    hide Enabled, Do, NothingLost, Inv;
    RunKeeps(run, i);
    UnreadIsAwaited(run[i]);
    if i == 0 {
      NothingAtStart(run[0]);
    } else {
      NothingIsLost(run, i - 1);
      RunKeeps(run, i - 1);
      assert Next(run[i - 1], run[i - 1 + 1]);
      var step :| Enabled(run[i - 1], step) && run[i] == Do(run[i - 1], step);
      StepLosesNothing(run[i - 1], step);
    }
  }

  lemma NothingAtStart<V>(s: State<V>)
    requires Init(s)
    ensures NothingLost(s)
  {
  }

  lemma UnreadIsAwaited<V>(s: State<V>)
    requires Inv(s)
    ensures forall c <- s.callers :: !(s.callers[c].phase.Finished? && IsUnread(s, c))
  {
    forall c | c in s.callers && IsUnread(s, c) ensures !s.callers[c].phase.Finished? {
      var j :| 0 <= j < |s.unread| && s.unread[j].body.who == c;
      assert IsReply(s, s.unread[j]);
    }
  }

  /** The step by which a caller that is not holding the read mutex gets it. */
  function TakeLock<V>(s: State<V>, c: int): Step<V>
    requires c in s.callers
  {
    if s.callers[c].phase.Sent? then EnterRecv(c) else Wake(c)
  }

  /** A parked header is never stranded: whenever one is parked and the read mutex is free, the caller it is for can
      take the mutex, find the header in the slot, consume the body behind it and finish, without anybody else
      moving. */
  lemma ParkedCanFinish<V(!new)>(run: seq<State<V>>, i: nat) returns (c: int)
    requires IsRun(run) && i < |run| && run[i].pending.Some? && run[i].readLock.None?
    ensures var s := run[i];
      && c in s.callers && Enabled(s, TakeLock(s, c))
      && var s1 := Do(s, TakeLock(s, c));
      && Enabled(s1, GetPending(c))
      && var s2 := Do(s1, GetPending(c));
      && Enabled(s2, Consume(c))
      && c in s.answers && c in Do(s2, Consume(c)).callers
      && Do(s2, Consume(c)).callers[c].phase == Finished(s.answers[c])
  {
    RunKeeps(run, i);
    var s := run[i];
    HeaderInHand(s);
    c := s.unread[0].body.who;
    OwnerIsFree(s, c);
    var s1 := Do(s, TakeLock(s, c));
    StepKeeps(s, TakeLock(s, c));
    StepKeeps(s1, GetPending(c));
    ConsumeOwn(Do(s1, GetPending(c)), c);
  }

  lemma OwnerIsFree<V>(s: State<V>, c: int)
    requires Locks(s) && |s.unread| > 0 && s.unread[0].body.who == c && IsReply(s, s.unread[0]) && s.readLock.None?
    ensures c in s.callers && (s.callers[c].phase.Sent? || s.callers[c].phase.Waiting?)
    ensures s.callers[c].phase.seqid == s.unread[0].header.seqid
  {
  }
}
