/** What the recv loop can always still do: from every state of every run, whatever the callers were in the middle
  of, the run can go on so that every caller returns the answer to its own request.
*/
module ConcurrentProgress {
  import opened Wrappers
  import opened ConcurrentClient

  /** The steps can be taken one after the other. */
  ghost predicate Can<V>(s: State<V>, steps: seq<Step<V>>)
    decreases |steps|
  {
    |steps| == 0 || (Enabled(s, steps[0]) && Can(Do(s, steps[0]), steps[1..]))
  }

  ghost function After<V>(s: State<V>, steps: seq<Step<V>>): State<V>
    requires Can(s, steps)
    decreases |steps|
  {
    if |steps| == 0 then s else After(Do(s, steps[0]), steps[1..])
  }

  lemma {:induction false} OneMore<V>(s: State<V>, steps: seq<Step<V>>, step: Step<V>)
    requires Can(s, steps) && Enabled(After(s, steps), step)
    ensures Can(s, steps + [step]) && After(s, steps + [step]) == Do(After(s, steps), step)
    decreases |steps|
  {
    hide Enabled, Do;
    if |steps| == 0 {
      assert steps + [step] == [step];
      assert [step][1..] == [];
      assert Can(Do(s, step), []);
      assert After(s, [step]) == After(Do(s, step), []);
    } else {
      assert (steps + [step])[1..] == steps[1..] + [step];
      OneMore(Do(s, steps[0]), steps[1..], step);
    }
  }

  /** A run can be prolonged by any steps that can be taken from its last state. */
  lemma {:induction false} Prolong<V(!new)>(run: seq<State<V>>, steps: seq<Step<V>>) returns (longer: seq<State<V>>)
    requires IsRun(run) && Can(run[|run| - 1], steps)
    ensures IsRun(longer) && run <= longer && longer[|longer| - 1] == After(run[|run| - 1], steps)
    decreases |steps|
  {
    hide Enabled, Do, Init;
    longer := run;
    if |steps| > 0 {
      var s, t := run[|run| - 1], Do(run[|run| - 1], steps[0]);
      assert Next(s, t);
      forall i | 0 <= i < |run| ensures Next((run + [t])[i], (run + [t])[i + 1]) {
        if i < |run| - 1 {
          assert Next(run[i], run[i + 1]);
        }
      }
      longer := Prolong(run + [t], steps[1..]);
    }
  }

  // -------------------------------------------------------------------------------------------------------------
  // No call is lost
  // -------------------------------------------------------------------------------------------------------------

  ghost predicate IsRequested<V>(s: State<V>, c: int) {
    exists i :: 0 <= i < |s.requests| && s.requests[i].body == c
  }

  ghost predicate IsAccepted<V>(s: State<V>, c: int) {
    exists q :: q in s.accepted && s.accepted[q].who == c
  }

  /** Every call that awaits its reply is on the way to the server, at the server, or on the way back. */
  ghost predicate Placed<V>(s: State<V>) {
    forall c <- s.callers :: AwaitsReply(s.callers[c].phase) ==> IsRequested(s, c) || IsAccepted(s, c) || IsUnread(s, c)
  }

  lemma AcceptKeepsPlaced<V>(s: State<V>)
    requires Inv(s) && Placed(s) && Enabled(s, ServerAccept)
    ensures Placed(Do(s, ServerAccept))
  {
    RequestIsNext(s);
    var t := Do(s, ServerAccept);
    var q := s.requests[0].header.seqid;
    assert t.accepted[q].who == s.requests[0].body;
    forall c | c in t.callers && AwaitsReply(t.callers[c].phase)
      ensures IsRequested(t, c) || IsAccepted(t, c) || IsUnread(t, c)
    {
      if IsRequested(s, c) {
        var i :| 0 <= i < |s.requests| && s.requests[i].body == c;
        if i > 0 {
          assert t.requests[i - 1].body == c;
        }
      } else if IsAccepted(s, c) {
        var p :| p in s.accepted && s.accepted[p].who == c;
        assert p != q;
        assert t.accepted[p].who == c;
      } else {
        var i :| 0 <= i < |s.unread| && s.unread[i].body.who == c;
        assert t.unread[i].body.who == c;
      }
    }
  }

  lemma ReplyKeepsPlaced<V>(s: State<V>, q: int, answer: Answer<V>)
    requires Placed(s) && Enabled(s, ServerReply(q, answer))
    ensures Placed(Do(s, ServerReply(q, answer)))
  {
    var t := Do(s, ServerReply(q, answer));
    assert t.unread[|s.unread|].body.who == s.accepted[q].who;
    forall c | c in t.callers && AwaitsReply(t.callers[c].phase)
      ensures IsRequested(t, c) || IsAccepted(t, c) || IsUnread(t, c)
    {
      if IsRequested(s, c) {
        var i :| 0 <= i < |s.requests| && s.requests[i].body == c;
        assert t.requests[i].body == c;
      } else if IsAccepted(s, c) {
        var p :| p in s.accepted && s.accepted[p].who == c;
        if p != q {
          assert t.accepted[p].who == c;
        }
      } else {
        var i :| 0 <= i < |s.unread| && s.unread[i].body.who == c;
        assert t.unread[i].body.who == c;
      }
    }
  }

  lemma ConsumeKeepsPlaced<V>(s: State<V>, c: int)
    requires Inv(s) && Placed(s) && Enabled(s, Consume(c))
    ensures Placed(Do(s, Consume(c)))
  {
    ConsumeOwn(s, c);
    hide Inv;
    var t := Do(s, Consume(c));
    forall d | d in t.callers && AwaitsReply(t.callers[d].phase)
      ensures IsRequested(t, d) || IsAccepted(t, d) || IsUnread(t, d)
    {
      if IsRequested(s, d) {
        var i :| 0 <= i < |s.requests| && s.requests[i].body == d;
        assert t.requests[i].body == d;
      } else if IsAccepted(s, d) {
        var p :| p in s.accepted && s.accepted[p].who == d;
        assert t.accepted[p].who == d;
      } else {
        var i :| 0 <= i < |s.unread| && s.unread[i].body.who == d;
        assert t.unread[i - 1].body.who == d;
      }
    }
  }

  lemma WriteBodyKeepsPlaced<V>(s: State<V>, c: int)
    requires Placed(s) && Enabled(s, WriteBody(c))
    ensures Placed(Do(s, WriteBody(c)))
  {
    var t := Do(s, WriteBody(c));
    assert t.requests[|s.requests|].body == c;
    forall d | d in t.callers && AwaitsReply(t.callers[d].phase)
      ensures IsRequested(t, d) || IsAccepted(t, d) || IsUnread(t, d)
    {
      if d != c && IsRequested(s, d) {
        var i :| 0 <= i < |s.requests| && s.requests[i].body == d;
        assert t.requests[i].body == d;
      }
    }
  }

  /** The other steps move no message and make no new call wait. */
  lemma OtherKeepsPlaced<V>(s: State<V>, t: State<V>)
    requires Placed(s) && t.requests == s.requests && t.accepted == s.accepted && t.unread == s.unread
    requires t.callers.Keys == s.callers.Keys
    requires forall c <- s.callers :: AwaitsReply(t.callers[c].phase) ==> AwaitsReply(s.callers[c].phase)
    ensures Placed(t)
  {
    forall c | c in t.callers && AwaitsReply(t.callers[c].phase)
      ensures IsRequested(t, c) || IsAccepted(t, c) || IsUnread(t, c)
    {
      assert IsRequested(s, c) || IsAccepted(s, c) || IsUnread(s, c);
      assert IsRequested(t, c) == IsRequested(s, c) && IsAccepted(t, c) == IsAccepted(s, c);
      assert IsUnread(t, c) == IsUnread(s, c);
    }
  }

  lemma OtherStepFrame<V>(s: State<V>, step: Step<V>)
    requires Inv(s) && Enabled(s, step)
    requires !step.Consume? && !step.ServerReply? && !step.ServerAccept? && !step.WriteBody?
    ensures var t := Do(s, step);
      && t.requests == s.requests && t.accepted == s.accepted && t.unread == s.unread
         && t.callers.Keys == s.callers.Keys
      && forall c <- s.callers :: AwaitsReply(t.callers[c].phase) ==> AwaitsReply(s.callers[c].phase)
  {
    hide Inv;
  }

  lemma StepKeepsPlaced<V>(s: State<V>, step: Step<V>)
    requires Inv(s) && Placed(s) && Enabled(s, step)
    ensures Placed(Do(s, step))
  {
    hide Inv, Placed, Do, Enabled;
    match step
    case ServerAccept => AcceptKeepsPlaced(s);
    case ServerReply(q, answer) => ReplyKeepsPlaced(s, q, answer);
    case Consume(c) => ConsumeKeepsPlaced(s, c);
    case WriteBody(c) => WriteBodyKeepsPlaced(s, c);
    case _ =>
      OtherStepFrame(s, step);
      OtherKeepsPlaced(s, Do(s, step));
  }

  /** What holds in every state of every run. */
  ghost predicate Good<V>(s: State<V>) {
    Inv(s) && NothingLost(s) && Placed(s)
  }

  lemma GoodStep<V>(s: State<V>, step: Step<V>)
    requires Good(s) && Enabled(s, step)
    ensures Good(Do(s, step))
  {
    hide Inv, NothingLost, Placed, Do, Enabled;
    StepKeeps(s, step);
    StepLosesNothing(s, step);
    StepKeepsPlaced(s, step);
  }

  lemma GoodStart<V>(s: State<V>)
    requires Init(s)
    ensures Good(s)
  {
    InitHolds(s);
    NothingAtStart(s);
  }

  lemma {:induction false} RunIsGood<V(!new)>(run: seq<State<V>>, i: nat)
    requires IsRun(run) && i < |run|
    ensures Good(run[i])
  {
    hide Good, Enabled, Do, Init;
    if i == 0 {
      GoodStart(run[0]);
    } else {
      RunIsGood(run, i - 1);
      assert Next(run[i - 1], run[i - 1 + 1]);
      var step :| Enabled(run[i - 1], step) && run[i] == Do(run[i - 1], step);
      GoodStep(run[i - 1], step);
    }
  }

  /** No call is lost: in every state of every run, a call that has been sent and has not returned is in one of three
      places, on the way to the server, at the server, or on the way back. */
  lemma NoCallLost<V(!new)>(run: seq<State<V>>, i: nat, c: int)
    requires IsRun(run) && i < |run| && c in run[i].callers && AwaitsReply(run[i].callers[c].phase)
    ensures var s := run[i];
      || (exists k :: 0 <= k < |s.requests| && s.requests[k].body == c)
      || (exists q :: q in s.accepted && s.accepted[q].who == c)
      || (exists k :: 0 <= k < |s.unread| && s.unread[k].body.who == c)
  {
    RunIsGood(run, i);
    hide Inv, NothingLost;
    var s := run[i];
    assert IsRequested(s, c) || IsAccepted(s, c) || IsUnread(s, c);
  }

  // -------------------------------------------------------------------------------------------------------------
  // Delivering what is on the stream
  // -------------------------------------------------------------------------------------------------------------

  /** Every call has been sent. */
  predicate AllSent<V>(s: State<V>) {
    forall c <- s.callers :: AwaitsReply(s.callers[c].phase) || s.callers[c].phase.Finished?
  }

  /** The caller that the next body on the stream is for. */
  function Owner<V>(s: State<V>): int
    requires |s.unread| > 0
  {
    s.unread[0].body.who
  }

  /** A step that brings the next body closer to its owner. */
  ghost function Plan<V>(s: State<V>): Step<V>
    requires Good(s) && |s.unread| > 0
  {
    if s.readLock.None? then TakeLock(s, Owner(s))
    else
      var c := s.readLock.value;
      match s.callers[c].phase
      case Looking(_) => if s.pending.Some? then GetPending(c) else ReadHeader(c)
      case Holding(seqid, held) => if seqid == held.seqid then Consume(c) else Park(c)
      case _ => LetGo(c)
  }

  /** How many steps of the plan are left before the next body is consumed. */
  ghost function Distance<V>(s: State<V>): nat
    requires Good(s) && |s.unread| > 0
  {
    if s.readLock.None? then 3
    else
      var c := s.readLock.value;
      match s.callers[c].phase
      case Looking(_) => if c == Owner(s) then 2 else 6
      case Holding(seqid, held) => if seqid == held.seqid then 1 else 5
      case _ => 4
  }

  lemma TakeLockIsEnabled<V>(s: State<V>)
    requires Good(s) && |s.unread| > 0 && s.readLock.None?
    ensures Owner(s) in s.callers && Enabled(s, TakeLock(s, Owner(s)))
  {
    assert IsReply(s, s.unread[0]);
    OwnerIsFree(s, Owner(s));
  }

  lemma FirstOnStream<V>(s: State<V>)
    requires Inv(s) && |s.unread| > 0 && InHand(s).None?
    ensures |s.fromServer| > 0 && s.fromServer[0] == Head(s.unread[0].header)
  {
    assert s.fromServer == Flatten(s.unread);
  }

  lemma PlanIsEnabled<V>(s: State<V>)
    requires Good(s) && |s.unread| > 0
    ensures Enabled(s, Plan(s))
  {
    if s.readLock.None? {
      TakeLockIsEnabled(s);
    } else {
      var c := s.readLock.value;
      match s.callers[c].phase
      case Looking(_) =>
        if s.pending.None? {
          FirstOnStream(s);
        }
      case Holding(_, _) => HeaderInHand(s);
      case _ =>
    }
  }

  /** Delivering touches neither requests nor the server nor any call that is not awaiting its reply. */
  ghost predicate Quiet<V>(s: State<V>, t: State<V>) {
    && t.requests == s.requests && t.accepted == s.accepted && t.answers == s.answers
    && t.callers.Keys == s.callers.Keys
    && (AllSent(s) ==> AllSent(t))
  }

  lemma TakeLockMoves<V>(s: State<V>)
    requires Good(s) && |s.unread| > 0 && s.readLock.None? && Enabled(s, Plan(s)) && Good(Do(s, Plan(s)))
    ensures var t := Do(s, Plan(s)); Quiet(s, t) && t.unread == s.unread && Distance(t) < Distance(s)
  {
    hide Good;
  }

  lemma SameCallsQuiet<V>(s: State<V>, t: State<V>, c: int)
    requires SameCalls(s, t, c)
    ensures Quiet(s, t)
  {
  }

  lemma Distances<V>(s: State<V>)
    requires Good(s) && |s.unread| > 0
    ensures s.readLock.None? ==> Distance(s) == 3
    ensures s.readLock.Some? ==>
      var c := s.readLock.value;
      && c in s.callers
      && (s.callers[c].phase.Looking? ==> Distance(s) == if c == Owner(s) then 2 else 6)
      && (s.callers[c].phase.Holding? ==>
         Distance(s) == if s.callers[c].phase.seqid == s.callers[c].phase.held.seqid then 1 else 5)
      && (s.callers[c].phase.Parked? ==> Distance(s) == 4)
  {
  }

  lemma ParkMoves<V>(s: State<V>, c: int)
    requires Good(s) && |s.unread| > 0 && Enabled(s, Park(c)) && s.readLock == Some(c) && Good(Do(s, Park(c)))
    ensures var t := Do(s, Park(c)); Quiet(s, t) && t.unread == s.unread && Distance(t) == 4 && Distance(s) == 5
  {
    HeldIsInHand(s, c);
    HeaderInHand(s);
    Distances(s);
    Distances(Do(s, Park(c)));
    hide Good, Inv, Distance, Quiet;
    SameCallsQuiet(s, Do(s, Park(c)), c);
  }

  lemma LetGoMoves<V>(s: State<V>, c: int)
    requires Good(s) && |s.unread| > 0 && Enabled(s, LetGo(c)) && s.readLock == Some(c) && Good(Do(s, LetGo(c)))
    ensures var t := Do(s, LetGo(c)); Quiet(s, t) && t.unread == s.unread && Distance(t) == 3 && Distance(s) == 4
  {
    Distances(s);
    Distances(Do(s, LetGo(c)));
    hide Good, Distance, Quiet;
    SameCallsQuiet(s, Do(s, LetGo(c)), c);
  }

  /** A caller that has taken up a header has that of the next body in its hand. */
  lemma HeldIsNext<V>(s: State<V>, c: int)
    requires Inv(s) && c in s.callers && s.callers[c].phase.Holding?
    ensures |s.unread| > 0
    ensures c == Owner(s) ==> s.callers[c].phase.seqid == s.callers[c].phase.held.seqid
  {
    HeldIsInHand(s, c);
    HeaderInHand(s);
    if c == Owner(s) {
      assert Belongs(s, c, s.unread[0].header.seqid, s.unread[0].header.fname);
    }
  }

  lemma HeaderFirst<V>(s: State<V>, c: int)
    requires Good(s) && |s.unread| > 0 && Enabled(s, ReadHeader(c)) && s.readLock == Some(c)
    ensures s.fromServer[0].Head?
  {
    FirstOnStream(s);
  }

  lemma TakeUpMoves<V>(s: State<V>, step: Step<V>, c: int)
    requires Good(s) && |s.unread| > 0 && Enabled(s, step) && s.readLock == Some(c) && Good(Do(s, step))
    requires step == GetPending(c) || (step == ReadHeader(c) && s.fromServer[0].Head?)
    ensures var t := Do(s, step); Quiet(s, t) && t.unread == s.unread && Distance(t) < Distance(s)
  {
    var t := Do(s, step);
    assert Inv(t);
    hide Inv, Good, Distance, Quiet;
    assert t.callers[c].phase.Holding?;
    HeldIsNext(t, c);
    Distances(s);
    Distances(t);
    SameCallsQuiet(s, t, c);
  }

  lemma ConsumeMoves<V>(s: State<V>, c: int)
    requires Good(s) && |s.unread| > 0 && Enabled(s, Consume(c))
    ensures var t := Do(s, Consume(c)); Quiet(s, t) && t.unread == s.unread[1..]
  {
    ConsumeOwn(s, c);
    hide Good;
  }

  lemma PlanShape<V>(s: State<V>)
    requires Good(s) && |s.unread| > 0 && s.readLock.Some?
    ensures var c, step := s.readLock.value, Plan(s);
      step == Consume(c) || step == Park(c) || step == LetGo(c) || step == GetPending(c) || step == ReadHeader(c)
  {
  }

  lemma PlanMoves<V>(s: State<V>)
    requires Good(s) && |s.unread| > 0
    ensures Enabled(s, Plan(s)) && Good(Do(s, Plan(s)))
    ensures var t := Do(s, Plan(s));
      && Quiet(s, t)
      && (t.unread == s.unread[1..] || (t.unread == s.unread && Distance(t) < Distance(s)))
  {
    PlanIsEnabled(s);
    GoodStep(s, Plan(s));
    hide Good, Do, Quiet, Distance, Enabled;
    if s.readLock.None? {
      TakeLockMoves(s);
    } else {
      PlanShape(s);
      hide Plan;
      match Plan(s)
      case Consume(c) => ConsumeMoves(s, c);
      case Park(c) => ParkMoves(s, c);
      case LetGo(c) => LetGoMoves(s, c);
      case GetPending(c) => TakeUpMoves(s, GetPending(c), c);
      case ReadHeader(c) =>
        HeaderFirst(s, c);
        TakeUpMoves(s, ReadHeader(c), c);
      case _ =>
    }
  }

  /** Everything on the stream can be delivered. */
  lemma {:induction false} DeliverAll<V>(s: State<V>) returns (steps: seq<Step<V>>)
    requires Good(s)
    ensures Can(s, steps)
    ensures var t := After(s, steps); Good(t) && Quiet(s, t) && t.unread == []
    decreases |s.unread|, if Good(s) && |s.unread| > 0 then Distance(s) else 0
  {
    hide Good, Do, Enabled, Distance, AllSent;
    steps := [];
    if |s.unread| > 0 {
      PlanMoves(s);
      var t := Do(s, Plan(s));
      var more := DeliverAll(t);
      steps := [Plan(s)] + more;
      assert steps[1..] == more;
    }
  }

  /** Once nothing is on the stream, whoever the server has answered has returned that answer. */
  lemma Delivered<V>(s: State<V>, c: int)
    requires Good(s) && s.unread == [] && c in s.answers
    ensures c in s.callers && s.callers[c].phase == Finished(s.answers[c])
  {
    hide Locks, Ids, Outgoing, Requests, AtServer, Incoming, Replies, OnePlace, Counts, Placed;
    assert !IsUnread(s, c);
  }

  /** Every answer the server has given can be delivered, from any state of any run, whoever holds the read mutex and
      whatever is parked: the run goes on so that every caller that has been answered returns its own answer. */
  lemma AnswersCanArrive<V(!new)>(run: seq<State<V>>, i: nat) returns (steps: seq<Step<V>>)
    requires IsRun(run) && i < |run|
    ensures Can(run[i], steps)
    ensures var s, t := run[i], After(run[i], steps);
      && t.answers == s.answers
      && forall c <- s.answers :: c in t.callers && t.callers[c].phase == Finished(s.answers[c])
  {
    RunIsGood(run, i);
    hide Good, Can, After, IsRun;
    steps := DeliverAll(run[i]);
    var t := After(run[i], steps);
    forall c | c in run[i].answers ensures c in t.callers && t.callers[c].phase == Finished(run[i].answers[c]) {
      Delivered(t, c);
    }
  }

  lemma ReadAndConsume<V>(s: State<V>, c: int)
    requires Inv(s) && |s.unread| > 0 && c == Owner(s) && s.pending.None? && s.readLock == Some(c)
    requires c in s.callers && s.callers[c].phase.Looking?
    ensures Enabled(s, ReadHeader(c))
    ensures var t := Do(s, ReadHeader(c));
      && Enabled(t, Consume(c)) && c in s.answers && c in Do(t, Consume(c)).callers
      && Do(t, Consume(c)).callers[c].phase == Finished(s.answers[c])
  {
    FirstOnStream(s);
    var t := Do(s, ReadHeader(c));
    StepKeeps(s, ReadHeader(c));
    HeaderIsNext(s, c);
    HeldIsNext(t, c);
    ConsumeIsNext(t, c);
  }

  lemma ConsumeIsNext<V>(s: State<V>, c: int)
    requires Inv(s) && c in s.callers && s.callers[c].phase.Holding?
    requires s.callers[c].phase.seqid == s.callers[c].phase.held.seqid
    ensures Enabled(s, Consume(c)) && c in s.answers && c in Do(s, Consume(c)).callers
    ensures Do(s, Consume(c)).callers[c].phase == Finished(s.answers[c])
  {
    HeldIsInHand(s, c);
    HeaderInHand(s);
    ConsumeOwn(s, c);
  }

  /** The same without anything parked: whenever the read mutex is free and a reply is on the stream whose header nobody
      has read, the caller it is for can take the mutex, read the header and the body, and return, without anybody else
      moving. */
  lemma NextCanFinish<V(!new)>(run: seq<State<V>>, i: nat) returns (c: int)
    requires IsRun(run) && i < |run| && run[i].pending.None? && run[i].readLock.None? && |run[i].unread| > 0
    ensures var s := run[i];
      && c == s.unread[0].body.who && c in s.callers && Enabled(s, TakeLock(s, c))
      && var s1 := Do(s, TakeLock(s, c));
      && Enabled(s1, ReadHeader(c))
      && var s2 := Do(s1, ReadHeader(c));
      && Enabled(s2, Consume(c))
      && c in s.answers && c in Do(s2, Consume(c)).callers
      && Do(s2, Consume(c)).callers[c].phase == Finished(s.answers[c])
  {
    RunKeeps(run, i);
    var s := run[i];
    assert IsReply(s, s.unread[0]);
    c := s.unread[0].body.who;
    OwnerIsFree(s, c);
    var s1 := Do(s, TakeLock(s, c));
    StepKeeps(s, TakeLock(s, c));
    hide Inv;
    ReadAndConsume(s1, c);
  }

  // -------------------------------------------------------------------------------------------------------------
  // Sending what has not been sent
  // -------------------------------------------------------------------------------------------------------------

  predicate Unsent<V>(p: Phase<V>) {
    p.Idle? || p.Numbered? || p.Writing?
  }

  /** A sequence id that is above all in use. */
  lemma {:induction false} FreshId(ids: set<int>) returns (q: int)
    ensures forall x <- ids :: x < q
    decreases |ids|
  {
    q := 0;
    if x :| x in ids {
      assert forall y <- ids :: y == x || y in ids - {x};
      q := FreshId(ids - {x});
      q := if q <= x then x + 1 else q;
    }
  }

  /** Sending takes callers that have not sent further, and touches no answer and no other caller. */
  ghost predicate Sends<V>(s: State<V>, t: State<V>) {
    && t.answers == s.answers && t.callers.Keys == s.callers.Keys
    && forall c <- s.callers :: !Unsent(s.callers[c].phase) ==> t.callers[c] == s.callers[c]
  }

  lemma NumberStep<V>(s: State<V>, c: int, q: int)
    requires Good(s) && Enabled(s, GenerateSeqId(c, q))
    ensures var t := Do(s, GenerateSeqId(c, q));
      Good(t) && Sends(s, t) && t.callers[c].phase.Numbered? && t.writeLock == s.writeLock
  {
    GoodStep(s, GenerateSeqId(c, q));
    hide Good;
  }

  lemma HeaderStep<V>(s: State<V>, c: int)
    requires Good(s) && Enabled(s, WriteHeader(c))
    ensures var t := Do(s, WriteHeader(c));
      Good(t) && Sends(s, t) && t.callers[c].phase.Writing?
  {
    GoodStep(s, WriteHeader(c));
    hide Good;
  }

  lemma BodyStep<V>(s: State<V>, c: int)
    requires Good(s) && Enabled(s, WriteBody(c))
    ensures var t := Do(s, WriteBody(c));
      Good(t) && Sends(s, t) && t.callers[c].phase.Sent? && t.writeLock == None
  {
    GoodStep(s, WriteBody(c));
    hide Good;
  }

  /** Once nobody holds the write mutex, a caller that has not sent can send, by itself. */
  lemma SendAlone<V>(s: State<V>, c: int) returns (steps: seq<Step<V>>)
    requires Good(s) && c in s.callers && Unsent(s.callers[c].phase) && s.writeLock.None?
    ensures Can(s, steps)
    ensures var t := After(s, steps); Good(t) && Sends(s, t) && t.callers[c].phase.Sent?
  {
    hide Inv, NothingLost, Placed, Do;
    var t := s;
    steps := [];
    assert !s.callers[c].phase.Writing? by { NobodyWrites(s, c); }
    if t.callers[c].phase.Idle? {
      var q := FreshId(s.registered);
      NumberStep(t, c, q);
      OneMore(s, steps, GenerateSeqId(c, q));
      steps, t := steps + [GenerateSeqId(c, q)], Do(t, GenerateSeqId(c, q));
    }
    HeaderStep(t, c);
    OneMore(s, steps, WriteHeader(c));
    steps, t := steps + [WriteHeader(c)], Do(t, WriteHeader(c));
    BodyStep(t, c);
    OneMore(s, steps, WriteBody(c));
    steps := steps + [WriteBody(c)];
  }

  lemma NobodyWrites<V>(s: State<V>, c: int)
    requires Good(s) && c in s.callers && s.writeLock.None?
    ensures !s.callers[c].phase.Writing?
  {
  }

  lemma WriterIsKnown<V>(s: State<V>)
    requires Good(s) && s.writeLock.Some?
    ensures s.writeLock.value in s.callers && Enabled(s, WriteBody(s.writeLock.value))
  {
  }

  /** A caller that has not sent can send, after whoever is in the middle of sending. */
  lemma SendOne<V>(s: State<V>, c: int) returns (steps: seq<Step<V>>)
    requires Good(s) && c in s.callers
    ensures Can(s, steps)
    ensures var t := After(s, steps); Good(t) && Sends(s, t) && !Unsent(t.callers[c].phase)
  {
    hide Good, Do, Enabled;
    steps := [];
    if Unsent(s.callers[c].phase) {
      if s.writeLock.Some? {
        WriterIsKnown(s);
        var step := WriteBody(s.writeLock.value);
        BodyStep(s, s.writeLock.value);
        var t := Do(s, step);
        var more := SendAfter(t, c);
        steps := [step] + more;
        assert steps[1..] == more;
      } else {
        steps := SendAlone(s, c);
      }
    }
  }

  lemma SendAfter<V>(s: State<V>, c: int) returns (steps: seq<Step<V>>)
    requires Good(s) && c in s.callers && s.writeLock.None?
    ensures Can(s, steps)
    ensures var t := After(s, steps); Good(t) && Sends(s, t) && !Unsent(t.callers[c].phase)
  {
    hide Good;
    steps := [];
    if Unsent(s.callers[c].phase) {
      steps := SendAlone(s, c);
    }
  }

  lemma {:induction false} CanAppend<V>(s: State<V>, a: seq<Step<V>>, b: seq<Step<V>>)
    requires Can(s, a) && Can(After(s, a), b)
    ensures Can(s, a + b) && After(s, a + b) == After(After(s, a), b)
    decreases |a|
  {
    hide Enabled, Do;
    if |a| == 0 {
      assert a + b == b;
    } else {
      assert (a + b)[1..] == a[1..] + b;
      CanAppend(Do(s, a[0]), a[1..], b);
    }
  }

  /** All calls can be sent. */
  lemma {:induction false} SendAll<V>(s: State<V>, todo: set<int>) returns (steps: seq<Step<V>>)
    requires Good(s) && forall c <- s.callers :: Unsent(s.callers[c].phase) ==> c in todo
    ensures Can(s, steps)
    ensures var t := After(s, steps); Good(t) && Sends(s, t) && forall c <- t.callers :: !Unsent(t.callers[c].phase)
    decreases |todo|
  {
    hide Good;
    steps := [];
    if c :| c in todo {
      if c in s.callers {
        var a := SendOne(s, c);
        var t := After(s, a);
        var b := SendAll(t, todo - {c});
        hide Can, After;
        CanAppend(s, a, b);
        steps := a + b;
      } else {
        steps := SendAll(s, todo - {c});
      }
    }
  }

  // -------------------------------------------------------------------------------------------------------------
  // The server's part
  // -------------------------------------------------------------------------------------------------------------

  lemma AcceptIsEnabled<V>(s: State<V>)
    requires Inv(s) && |s.requests| > 0
    ensures Enabled(s, ServerAccept)
  {
    assert Flatten(s.requests) == [Head(s.requests[0].header), Body(s.requests[0].body)] + Flatten(s.requests[1..]);
  }

  lemma AcceptMoves<V>(s: State<V>)
    requires Good(s) && |s.requests| > 0
    ensures Enabled(s, ServerAccept)
    ensures var t := Do(s, ServerAccept);
      Good(t) && t.callers == s.callers && t.answers == s.answers && t.requests == s.requests[1..]
  {
    AcceptIsEnabled(s);
    GoodStep(s, ServerAccept);
    hide Inv, NothingLost, Placed;
  }

  /** The server can read all requests. */
  lemma {:induction false} AcceptAll<V>(s: State<V>) returns (steps: seq<Step<V>>)
    requires Good(s)
    ensures Can(s, steps)
    ensures var t := After(s, steps); Good(t) && t.callers == s.callers && t.answers == s.answers && t.requests == []
    decreases |s.requests|
  {
    hide Good, Do, Enabled;
    steps := [];
    if |s.requests| > 0 {
      AcceptMoves(s);
      var more := AcceptAll(Do(s, ServerAccept));
      steps := [ServerAccept] + more;
      assert steps[1..] == more;
    }
  }

  /** What the server has accepted and not answered, it has not answered before. */
  lemma NotAnswered<V>(s: State<V>, q: int)
    requires Good(s) && q in s.accepted
    ensures s.accepted[q].who !in s.answers
  {
    var c := s.accepted[q].who;
    hide Locks, Ids, Outgoing, Requests, Incoming, Counts, Placed;
    assert Belongs(s, c, q, s.accepted[q].fname);
    forall j | 0 <= j < |s.unread| ensures s.unread[j].body.who != c {
      assert IsReply(s, s.unread[j]);
    }
  }

  /** New answers are those the server chose, and old ones stay. */
  ghost predicate AnsweredBy<V>(s: State<V>, t: State<V>, f: int -> Answer<V>) {
    && t.callers == s.callers && t.requests == s.requests
    && (forall c <- s.answers :: c in t.answers && t.answers[c] == s.answers[c])
    && (forall c <- t.answers :: c in s.answers || t.answers[c] == f(c))
  }

  lemma ReplyMoves<V>(s: State<V>, q: int, f: int -> Answer<V>)
    requires Good(s) && q in s.accepted
    ensures var step := ServerReply(q, f(s.accepted[q].who));
      && Enabled(s, step)
      && var t := Do(s, step);
      Good(t) && AnsweredBy(s, t, f) && t.accepted == s.accepted - {q}
  {
    var step := ServerReply(q, f(s.accepted[q].who));
    NotAnswered(s, q);
    GoodStep(s, step);
    hide Good;
  }

  /** The server can answer all it has accepted, as it likes. */
  lemma {:induction false} ReplyAll<V>(s: State<V>, f: int -> Answer<V>) returns (steps: seq<Step<V>>)
    requires Good(s)
    ensures Can(s, steps)
    ensures var t := After(s, steps); Good(t) && AnsweredBy(s, t, f) && t.accepted == map[]
    decreases |s.accepted|
  {
    hide Good, Do, Enabled;
    steps := [];
    if s.accepted.Keys != {} {
      var q := Pick(s.accepted.Keys);
      var step := ServerReply(q, f(s.accepted[q].who));
      ReplyMoves(s, q, f);
      assert |s.accepted - {q}| < |s.accepted| by { Fewer(s.accepted, q); }
      var more := ReplyAll(Do(s, step), f);
      steps := [step] + more;
      assert steps[1..] == more;
    }
  }

  lemma Pick<T>(s: set<T>) returns (x: T)
    requires s != {}
    ensures x in s
  {
    x :| x in s;
  }

  lemma Fewer<T>(m: map<int, T>, q: int)
    requires q in m
    ensures |m - {q}| < |m|
  {
    assert (m - {q}).Keys == m.Keys - {q};
    assert |(m - {q}).Keys| < |m.Keys|;
  }

  // -------------------------------------------------------------------------------------------------------------
  // Everybody
  // -------------------------------------------------------------------------------------------------------------

  /** With nothing under way, every call that was sent has returned. */
  lemma NothingUnderWay<V>(s: State<V>, c: int)
    requires Good(s) && AllSent(s) && s.requests == [] && s.accepted == map[] && s.unread == [] && c in s.callers
    ensures s.callers[c].phase.Finished? && c in s.answers && s.answers[c] == s.callers[c].phase.answer
  {
    hide Locks, Ids, Outgoing, Requests, AtServer, Incoming, Replies, OnePlace, Counts, NothingLost;
    assert !IsRequested(s, c) && !IsAccepted(s, c) && !IsUnread(s, c);
  }

  lemma SentMeansAwaiting<V>(s: State<V>)
    requires Good(s) && forall c <- s.callers :: !Unsent(s.callers[c].phase)
    ensures AllSent(s)
  {
  }

  /** From any state of any run, whatever every caller was in the middle of, the run can go on so that every caller has
      returned: the answer the server had given it, or, where it had given none, the one the server then chooses. */
  lemma EveryCallCanFinish<V(!new)>(run: seq<State<V>>, i: nat, f: int -> Answer<V>) returns (steps: seq<Step<V>>)
    requires IsRun(run) && i < |run|
    ensures Can(run[i], steps)
    ensures var s, t := run[i], After(run[i], steps);
      && t.callers.Keys == s.callers.Keys
      && forall c <- s.callers :: t.callers[c].phase == Finished(if c in s.answers then s.answers[c] else f(c))
  {
    RunIsGood(run, i);
    hide Good, Can, After, AllSent, IsRun;
    var s := run[i];
    steps := SendAll(s, s.callers.Keys);
    var t := After(s, steps);
    SentMeansAwaiting(t);
    var more := AcceptAll(t);
    CanAppend(s, steps, more);
    steps, t := steps + more, After(t, more);
    SentMeansAwaiting(t);
    ghost var u := t;
    more := ReplyAll(t, f);
    CanAppend(s, steps, more);
    steps, t := steps + more, After(t, more);
    SentMeansAwaiting(t);
    more := DeliverAll(t);
    CanAppend(s, steps, more);
    steps, t := steps + more, After(t, more);
    forall c | c in s.callers
      ensures t.callers[c].phase == Finished(if c in s.answers then s.answers[c] else f(c))
    {
      NothingUnderWay(t, c);
    }
  }

  /** Any number of callers, with any method names, can start and all get the answers the server chooses for them. */
  lemma AnyCallersCanFinish<V(!new)>(names: map<int, string>, f: int -> Answer<V>)
    returns (run: seq<State<V>>)
    ensures IsRun(run) && run[0].callers.Keys == names.Keys
    ensures forall c <- names :: run[0].callers[c] == Caller(names[c], Idle)
    ensures var t := run[|run| - 1];
      t.callers.Keys == names.Keys && forall c <- names :: t.callers[c].phase == Finished(f(c))
  {
    var callers := map c | c in names :: Caller(names[c], Idle);
    var s: State<V> := State(callers, {}, None, None, None, [], map[], [], [], [], map[], 0, 0);
    assert Init(s);
    var steps := EveryCallCanFinish([s], 0, f);
    hide Can, After;
    run := Prolong([s], steps);
    assert run[0] == [s][0];
  }
}
