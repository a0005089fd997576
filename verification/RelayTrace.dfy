/** What a bridge hears and does, event by event: the order of half-close and data decides
    whether the pump breaks off, and a bridge only ever adds to its legs. */
module RelayTrace {
  import opened Limits
  import opened StreamEngine
  import opened Relay

  // ---- what was heard --------------------------------------------------------

  /** The events taken from one leg: data before its half-close, whether the half-close
      came, and whether data came after it. */
  datatype Hearing = Hearing(bytes: Bytes, fin: bool, late: bool)

  function Hear(h: Hearing, e: Event): Hearing
  {
    match e
    case GotData(bytes) => if h.fin then h.(late := true) else h.(bytes := h.bytes + bytes)
    case GotFin(_) => h.(fin := true)
    case _ => h
  }

  function Listen(events: seq<Event>): Hearing
  {
    if events == [] then Hearing([], false, false)
    else Hear(Listen(events[..|events| - 1]), events[|events| - 1])
  }

  lemma ListenAppend(events: seq<Event>, e: Event)
    ensures Listen(events + [e]) == Hear(Listen(events), e)
  {
    assert (events + [e])[..|events|] == events;
  }

  /** Some data event comes after a half-close. */
  predicate Late(events: seq<Event>)
  {
    exists i, j :: 0 <= i < j < |events| && events[i].GotFin? && events[j].GotData?
  }

  predicate Closed(events: seq<Event>) { exists i :: 0 <= i < |events| && events[i].GotFin? }

  lemma LateMore(events: seq<Event>, e: Event)
    ensures Late(events + [e]) <==> Late(events) || (Closed(events) && e.GotData?)
    ensures Closed(events + [e]) <==> Closed(events) || e.GotFin?
  {
    var all := events + [e];
    assert all[|events|] == e;
    assert forall i :: 0 <= i < |events| ==> all[i] == events[i];
  }

  lemma {:induction false} ListenIsLate(events: seq<Event>)
    ensures Listen(events).fin <==> Closed(events)
    ensures Listen(events).late <==> Late(events)
  {
    if events != [] {
      var n := |events| - 1;
      ListenIsLate(events[..n]);
      LateMore(events[..n], events[n]);
      assert events == events[..n] + [events[n]];
    }
  }

  /** What was taken is a prefix of all the data heard. */
  lemma {:induction false} ListenIsPrefix(events: seq<Event>)
    ensures Listen(events).bytes <= Queued(events)
    ensures !Listen(events).late ==> Listen(events).bytes == Queued(events)
    ensures Listen(events).late ==> Listen(events).fin
  {
    if events != [] {
      var n := |events| - 1;
      ListenIsPrefix(events[..n]);
      assert events == events[..n] + [events[n]];
      QueuedConcat(events[..n], [events[n]]);
      assert [events[n]][1..] == [];
    }
  }

  // ---- what a bridge does to its legs ----------------------------------------

  lemma PushStill(l: Leg, buf: Bytes)
    ensures Still(l, PushSpec(l, buf).leg)
  {
    var take := Min(Minus(l.sendLimit, l.sendOffset), |buf|);
    SendDataStill(l, buf[..take]);
  }

  lemma SettleStill(src: Leg, buf: Bytes, p: Pushed, c: Carried)
    requires c == Settle(src, buf, p)
    ensures Still(src, c.src) && c.dst == p.leg
  {
    if p.ok && |buf| > |p.pending| {
      var n := |buf| - |p.pending|;
      ConsumeStill(src, n);
      var s := Consume(src, n);
      assert c.src == if s.Sent? then s.leg else s.after;
    } else {
      assert c.src == src;
    }
  }

  lemma CarryStill(src: Leg, dst: Leg, buf: Bytes)
    ensures Still(src, Carry(src, dst, buf).src) && Still(dst, Carry(src, dst, buf).dst)
  {
    PushStill(dst, buf);
    SettleStill(src, buf, PushSpec(dst, buf), Carry(src, dst, buf));
  }

  lemma HalfCloseStill(dst: Leg, seen: bool, sent: bool, buf: Bytes)
    ensures Still(dst, HalfClose(dst, seen, sent, buf).leg)
  {
    SendFinStill(dst);
  }

  /** A stretch of the pump without an event: it may end, but not over what it heard. */
  predicate Runs(b: Bridge, b': Bridge)
  {
    && Still(b.caller, b'.caller) && Still(b.publisher, b'.publisher)
    && b'.heardCaller == b.heardCaller && b'.heardPublisher == b.heardPublisher
    && b'.fromCaller == b.fromCaller && b'.fromPublisher == b.fromPublisher
    && b'.callerFin == b.callerFin && b'.publisherFin == b.publisherFin
    && ((b'.phase == b.phase && b'.closing == b.closing)
        || (b'.phase.Ended? && (b'.closing == Some(Unreachable_) || b'.closing == Some(Canceled))))
  }

  lemma RunsOn(a: Bridge, b: Bridge, c: Bridge)
    requires Runs(a, b) && Runs(b, c)
    ensures Runs(a, c)
  {
    ActsTrans(a.caller, b.caller, c.caller);
    ActsTrans(a.publisher, b.publisher, c.publisher);
  }

  lemma TearDownRuns(b: Bridge, callerDone: bool, publisherDone: bool, reason: ResetReason)
    requires reason == Unreachable_ || reason == Canceled
    ensures Runs(b, TearDown(b, callerDone, publisherDone, reason))
  {
    ResetStill(b.caller, reason);
    ResetStill(b.publisher, reason);
  }

  lemma FinishSecondRuns(b1: Bridge, r: Bridge)
    requires var c := HalfClose(b1.caller, b1.publisherFin, b1.callerFinSent, b1.toCaller);
             var b2 := b1.(caller := c.leg, callerFinSent := c.sent);
             r == if !c.ok then TearDown(b2, false, false, Unreachable_)
                  else if b2.callerFinSent && b2.publisherFinSent then TearDown(b2, true, true, Canceled)
                  else b2
    ensures Runs(b1, r)
  {
    HalfCloseStill(b1.caller, b1.publisherFin, b1.callerFinSent, b1.toCaller);
    var c := HalfClose(b1.caller, b1.publisherFin, b1.callerFinSent, b1.toCaller);
    var b2 := b1.(caller := c.leg, callerFinSent := c.sent);
    TearDownRuns(b2, false, false, Unreachable_);
    TearDownRuns(b2, true, true, Canceled);
    RunsOn(b1, b2, r);
  }

  lemma FinishRuns(b: Bridge)
    ensures Runs(b, FinishTurn(b))
  {
    HalfCloseStill(b.publisher, b.callerFin, b.publisherFinSent, b.toPublisher);
    var p := HalfClose(b.publisher, b.callerFin, b.publisherFinSent, b.toPublisher);
    var b1 := b.(publisher := p.leg, publisherFinSent := p.sent);
    if !p.ok {
      TearDownRuns(b1, false, false, Unreachable_);
      RunsOn(b, b1, TearDown(b1, false, false, Unreachable_));
    } else {
      FinishSecondRuns(b1, FinishTurn(b));
      RunsOn(b, b1, FinishTurn(b));
    }
  }

  lemma TurnBackRuns(b1: Bridge, r: Bridge)
    requires var back := Carry(b1.publisher, b1.caller, b1.toCaller);
             var b2 := b1.(publisher := back.src, caller := back.dst, toCaller := back.buf);
             r == if !back.ok then TearDown(b2, false, false, Unreachable_) else FinishTurn(b2)
    ensures Runs(b1, r)
  {
    CarryStill(b1.publisher, b1.caller, b1.toCaller);
    var back := Carry(b1.publisher, b1.caller, b1.toCaller);
    var b2 := b1.(publisher := back.src, caller := back.dst, toCaller := back.buf);
    TearDownRuns(b2, false, false, Unreachable_);
    FinishRuns(b2);
    RunsOn(b1, b2, r);
  }

  lemma TurnRuns(b: Bridge)
    ensures Runs(b, Turn(b))
  {
    CarryStill(b.caller, b.publisher, b.toPublisher);
    var there := Carry(b.caller, b.publisher, b.toPublisher);
    var b1 := b.(caller := there.src, publisher := there.dst, toPublisher := there.buf);
    if !there.ok {
      TearDownRuns(b1, false, false, Unreachable_);
    } else {
      TurnBackRuns(b1, Turn(b));
    }
    RunsOn(b, b1, Turn(b));
  }

  // ---- what a bridge has heard -----------------------------------------------

  /** A leg that was told why, as far as its session could still seal. */
  predicate Told(l: Leg, reason: ResetReason)
  {
    l.left == Some(0) || (l.wire != [] && l.wire[|l.wire| - 1] == Reset(reason))
  }

  /** One side of a live bridge: its queue and its flags agree with what was heard. */
  predicate Ear(l: Leg, heard: seq<Event>, taken: Bytes, fin: bool)
  {
    l.log == heard + l.inbox && Listen(heard) == Hearing(taken, fin, false)
  }

  /** One side of an ended bridge. */
  predicate PastEar(l: Leg, heard: seq<Event>, taken: Bytes)
  {
    l.log == heard + l.inbox && taken <= Listen(heard).bytes
  }

  predicate Ears(b: Bridge)
  {
    if b.phase.Ended? then
      && PastEar(b.caller, b.heardCaller, b.fromCaller) && PastEar(b.publisher, b.heardPublisher, b.fromPublisher)
      && (b.closing == Some(ProtocolError) <==> Listen(b.heardCaller).late || Listen(b.heardPublisher).late)
      && (b.closing == Some(ProtocolError) ==> Told(b.caller, ProtocolError) && Told(b.publisher, ProtocolError))
    else
      && Ear(b.caller, b.heardCaller, b.fromCaller, b.callerFin)
      && Ear(b.publisher, b.heardPublisher, b.fromPublisher, b.publisherFin)
      && b.closing == None
  }

  lemma RunsKeepsEars(b: Bridge, b': Bridge)
    requires Runs(b, b') && Ears(b) && !b.phase.Ended?
    ensures Ears(b')
  {
  }

  lemma TurnEars(b: Bridge)
    requires Ears(b) && !b.phase.Ended?
    ensures Ears(Turn(b))
  {
    TurnRuns(b);
    RunsKeepsEars(b, Turn(b));
  }

  /** Breaking off over late data tells both legs. */
  lemma BreakOffTells(b: Bridge)
    ensures var e := TearDown(b, false, false, ProtocolError);
            Told(e.caller, ProtocolError) && Told(e.publisher, ProtocolError)
            && Still(b.caller, e.caller) && Still(b.publisher, e.publisher)
  {
    ResetStill(b.caller, ProtocolError);
    ResetStill(b.publisher, ProtocolError);
  }

  /** What the bridge heard is what its leg's queue held, in order. */
  lemma HearMore(l: Leg, heard: seq<Event>)
    requires l.inbox != [] && l.log == heard + l.inbox
    ensures l.log == (heard + [l.inbox[0]]) + l.inbox[1..]
  {
    assert l.inbox == [l.inbox[0]] + l.inbox[1..];
  }

  lemma CallerEventEars(b: Bridge, e: Event, heard: seq<Event>, r: Bridge)
    requires b.phase.Pumping? && b.closing == None && b.heardCaller == heard + [e]
    requires Listen(heard) == Hearing(b.fromCaller, b.callerFin, false) && b.caller.log == b.heardCaller + b.caller.inbox
    requires Ear(b.publisher, b.heardPublisher, b.fromPublisher, b.publisherFin)
    requires r == OnCallerEvent(b, e)
    ensures Ears(r)
  {
    ListenAppend(heard, e);
    match e {
      case GotData(bytes) =>
        if b.callerFin {
          BreakOffTells(b);
        } else {
          TurnEars(b.(toPublisher := b.toPublisher + bytes, fromCaller := b.fromCaller + bytes));
        }
      case GotFin(_) => TurnEars(b.(callerFin := true));
      case GotReset(why) =>
        ResetStill(b.publisher, why);
        TearDownRuns(b.(publisher := SendReset(b.publisher, why)), true, true, Canceled);
      case _ => TurnEars(b);
    }
  }

  lemma PublisherEventEars(b: Bridge, e: Event, heard: seq<Event>, r: Bridge)
    requires b.phase.Pumping? && b.closing == None && b.heardPublisher == heard + [e]
    requires Listen(heard) == Hearing(b.fromPublisher, b.publisherFin, false) && b.publisher.log == b.heardPublisher + b.publisher.inbox
    requires Ear(b.caller, b.heardCaller, b.fromCaller, b.callerFin)
    requires r == OnPublisherEvent(b, e)
    ensures Ears(r)
  {
    ListenAppend(heard, e);
    match e {
      case GotData(bytes) =>
        if b.publisherFin {
          BreakOffTells(b);
        } else {
          TurnEars(b.(toCaller := b.toCaller + bytes, fromPublisher := b.fromPublisher + bytes));
        }
      case GotFin(_) => TurnEars(b.(publisherFin := true));
      case GotReset(why) =>
        ResetStill(b.caller, why);
        TearDownRuns(b.(caller := SendReset(b.caller, why)), true, true, Canceled);
      case _ => TurnEars(b);
    }
  }

  // ---- the handshake ---------------------------------------------------------

  lemma AbandonRuns(b: Bridge, status: OpenStatus)
    requires status != Ok
    ensures var e := Abandon(b, status);
            Still(b.caller, e.caller) && Still(b.publisher, e.publisher)
  {
    SendOpenResultStill(b.caller, status);
    ResetStill(b.publisher, Canceled);
    ResetStill(RefuseCaller(b.caller, status), Canceled);
  }

  lemma WithdrawRuns(b: Bridge)
    ensures Still(b.caller, Withdraw(b).caller) && Still(b.publisher, Withdraw(b).publisher)
  {
    ResetStill(b.caller, Canceled);
    ResetStill(b.publisher, Canceled);
  }

  lemma AnswerEars(b: Bridge, r: Bridge)
    requires b.phase.Opening? && Ears(b) && r == AnswerCaller(b)
    ensures Ears(r)
  {
    SendOpenResultStill(b.caller, Ok);
    WithdrawRuns(b);
    if b.caller.installed {
      match SendOpenResult(b.caller, Ok) {
        case Sent(l) => TurnEars(b.(phase := Pumping, caller := l));
        case Broken(l) => WithdrawRuns(b.(caller := l));
        case CreditExceeded =>
      }
    }
  }

  lemma OpeningEars(b: Bridge, e: Event, heard: seq<Event>, r: Bridge)
    requires b.phase.Opening? && b.closing == None && b.heardPublisher == heard + [e]
    requires Listen(heard) == Hearing([], false, false) && b.fromPublisher == [] && !b.publisherFin
    requires b.publisher.log == b.heardPublisher + b.publisher.inbox
    requires Ear(b.caller, b.heardCaller, b.fromCaller, b.callerFin)
    requires r == OnOpeningEvent(b, e)
    ensures Ears(r)
  {
    ListenAppend(heard, e);
    if e.GotReady? && b.phase.accepted {
      AnswerEars(b, r);
    } else {
      AbandonRuns(b, Unreachable);
      if e.GotOpenResult? && e.openStatus != Ok { AbandonRuns(b, e.openStatus); }
    }
  }

  // ---- whole lives -----------------------------------------------------------

  lemma TakeCallerEars(b: Bridge, r: Bridge)
    requires Ears(b) && b.phase.Pumping? && b.caller.inbox != [] && r == OnCallerEvent(HearCaller(b), b.caller.inbox[0])
    ensures Ears(r)
  {
    HearMore(b.caller, b.heardCaller);
    CallerEventEars(HearCaller(b), b.caller.inbox[0], b.heardCaller, r);
  }

  lemma TakePublisherEars(b: Bridge, r: Bridge)
    requires Ears(b) && b.publisher.inbox != []
    requires (b.phase.Pumping? && r == OnPublisherEvent(HearPublisher(b), b.publisher.inbox[0]))
             || (b.phase.Opening? && b.fromPublisher == [] && !b.publisherFin
                 && r == OnOpeningEvent(HearPublisher(b), b.publisher.inbox[0]))
    ensures Ears(r)
  {
    HearMore(b.publisher, b.heardPublisher);
    if b.phase.Pumping? {
      PublisherEventEars(HearPublisher(b), b.publisher.inbox[0], b.heardPublisher, r);
    } else {
      OpeningEars(HearPublisher(b), b.publisher.inbox[0], b.heardPublisher, r);
    }
  }

  lemma ArriveEars(b: Bridge, side: Side, m: Inbound)
    requires Orderly(b) && Ears(b) && !b.phase.Ended?
    ensures Ears(Step(b, Arrive(side, m)))
  {
    match side {
      case Caller =>
        var news := DispatchKeeps(b.caller, m);
        Assoc(b.heardCaller, b.caller.inbox, news);
      case Publisher =>
        var news := DispatchKeeps(b.publisher, m);
        Assoc(b.heardPublisher, b.publisher.inbox, news);
    }
  }

  lemma TakeAnyPublisherEars(b: Bridge)
    requires Orderly(b) && Ears(b) && !b.phase.Ended?
    ensures Ears(Step(b, Take(Publisher)))
  {
    if b.publisher.inbox != [] {
      TakePublisherEars(b, Step(b, Take(Publisher)));
    } else if b.phase.Pumping? {
      TearDownRuns(b, false, true, Canceled);
    } else {
      AbandonRuns(b, Unreachable);
    }
  }

  lemma StepEars(b: Bridge, m: Move)
    requires Orderly(b) && Ears(b)
    ensures Ears(Step(b, m))
  {
    if b.phase.Ended? { return; }
    match m {
      case Arrive(side, inbound) => ArriveEars(b, side, inbound);
      case Deadline => AbandonRuns(b, Timeout);
      case Take(Caller) =>
        if b.phase.Pumping? {
          TearDownRuns(b, true, false, Canceled);
          if b.caller.inbox != [] { TakeCallerEars(b, Step(b, m)); }
        }
      case Take(Publisher) => TakeAnyPublisherEars(b);
    }
  }

  lemma {:induction false} LifeEars(b: Bridge, moves: seq<Move>)
    requires Orderly(b) && Ears(b)
    ensures Orderly(Life(b, moves)) && Ears(Life(b, moves))
    decreases |moves|
  {
    if moves != [] {
      StepKeeps(b, moves[0]);
      StepEars(b, moves[0]);
      LifeEars(Step(b, moves[0]), moves[1..]);
    }
  }

  lemma BeginEars(callerWindow: nat, publisherWindow: nat)
    ensures var b := Begin(callerWindow, publisherWindow, Opened);
            AtOpening(b) && Ears(b)
  {
    assert Listen([]) == Hearing([], false, false);
  }

  /** In every run and on both sides: the pump breaks off with `ProtocolError` exactly when
      a leg's data was queued behind that leg's half-close and taken, whether or not the
      half-close counted it; both legs are told. */
  lemma BreaksOffExactlyOnLateData(callerWindow: nat, publisherWindow: nat, moves: seq<Move>)
    ensures var b := Life(Begin(callerWindow, publisherWindow, Opened), moves);
            && b.heardCaller <= b.caller.log && b.heardPublisher <= b.publisher.log
            && (b.closing == Some(ProtocolError) <==> Late(b.heardCaller) || Late(b.heardPublisher))
            && (b.closing == Some(ProtocolError) ==>
                  b.phase.Ended? && Told(b.caller, ProtocolError) && Told(b.publisher, ProtocolError))
  {
    BeginEars(callerWindow, publisherWindow);
    LifeEars(Begin(callerWindow, publisherWindow, Opened), moves);
    var b := Life(Begin(callerWindow, publisherWindow, Opened), moves);
    ListenIsLate(b.heardCaller);
    ListenIsLate(b.heardPublisher);
  }

  lemma CallerEventHeard(b: Bridge, e: Event)
    ensures OnCallerEvent(b, e).heardCaller == b.heardCaller
  {
    match e {
      case GotData(bytes) =>
        if !b.callerFin { TurnRuns(b.(toPublisher := b.toPublisher + bytes, fromCaller := b.fromCaller + bytes)); }
      case GotFin(_) => TurnRuns(b.(callerFin := true));
      case GotReset(why) =>
      case _ => TurnRuns(b);
    }
  }

  lemma PublisherEventHeard(b: Bridge, e: Event)
    ensures OnPublisherEvent(b, e).heardPublisher == b.heardPublisher
  {
    match e {
      case GotData(bytes) =>
        if !b.publisherFin { TurnRuns(b.(toCaller := b.toCaller + bytes, fromPublisher := b.fromPublisher + bytes)); }
      case GotFin(_) => TurnRuns(b.(publisherFin := true));
      case GotReset(why) =>
      case _ => TurnRuns(b);
    }
  }

  // ---- a bridge only adds to its legs ----------------------------------------

  predicate Adds(b: Bridge, b': Bridge) { Acts(b.caller, b'.caller) && Acts(b.publisher, b'.publisher) }

  lemma TurnAdds(b: Bridge)
    ensures Adds(b, Turn(b))
  {
    TurnRuns(b);
  }

  lemma CallerEventAdds(b: Bridge, e: Event)
    ensures Adds(b, OnCallerEvent(b, e))
  {
    match e {
      case GotData(bytes) =>
        BreakOffTells(b);
        TurnAdds(b.(toPublisher := b.toPublisher + bytes, fromCaller := b.fromCaller + bytes));
      case GotFin(_) => TurnAdds(b.(callerFin := true));
      case GotReset(why) =>
        ResetStill(b.publisher, why);
        ResetStill(b.caller, why);
      case _ => TurnAdds(b);
    }
  }

  lemma PublisherEventAdds(b: Bridge, e: Event)
    ensures Adds(b, OnPublisherEvent(b, e))
  {
    match e {
      case GotData(bytes) =>
        BreakOffTells(b);
        TurnAdds(b.(toCaller := b.toCaller + bytes, fromPublisher := b.fromPublisher + bytes));
      case GotFin(_) => TurnAdds(b.(publisherFin := true));
      case GotReset(why) =>
        ResetStill(b.publisher, why);
        ResetStill(b.caller, why);
      case _ => TurnAdds(b);
    }
  }

  lemma AnswerAdds(b: Bridge)
    ensures Adds(b, AnswerCaller(b))
  {
    SendOpenResultStill(b.caller, Ok);
    WithdrawRuns(b);
    if b.caller.installed {
      match SendOpenResult(b.caller, Ok) {
        case Sent(l) =>
          TurnAdds(b.(phase := Pumping, caller := l));
          ActsTrans(b.caller, l, AnswerCaller(b).caller);
        case Broken(l) =>
          WithdrawRuns(b.(caller := l));
          ActsTrans(b.caller, l, AnswerCaller(b).caller);
        case CreditExceeded =>
      }
    }
  }

  lemma OpeningEventAdds(b: Bridge, e: Event)
    requires b.phase.Opening?
    ensures Adds(b, OnOpeningEvent(b, e))
  {
    AnswerAdds(b);
    AbandonRuns(b, Unreachable);
    if e.GotOpenResult? && e.openStatus != Ok { AbandonRuns(b, e.openStatus); }
  }

  lemma TakePublisherAdds(b: Bridge)
    requires !b.phase.Ended? && b.publisher.inbox != []
    ensures Adds(b, Step(b, Take(Publisher)))
  {
    if b.phase.Opening? {
      OpeningEventAdds(HearPublisher(b), b.publisher.inbox[0]);
    } else {
      PublisherEventAdds(HearPublisher(b), b.publisher.inbox[0]);
    }
  }

  lemma TakeAdds(b: Bridge, from: Side)
    requires !b.phase.Ended?
    ensures Adds(b, Step(b, Take(from)))
  {
    match from {
      case Caller =>
        TearDownRuns(b, true, false, Canceled);
        if b.caller.inbox != [] { CallerEventAdds(HearCaller(b), b.caller.inbox[0]); }
      case Publisher =>
        TearDownRuns(b, false, true, Canceled);
        AbandonRuns(b, Unreachable);
        if b.publisher.inbox != [] { TakePublisherAdds(b); }
    }
  }

  /** Whatever a bridge does on its own, it only adds records and credit to its legs. */
  lemma StepAdds(b: Bridge, m: Move)
    requires !m.Arrive?
    ensures Adds(b, Step(b, m))
  {
    if b.phase.Ended? { return; }
    match m {
      case Take(from) => TakeAdds(b, from);
      case Deadline => AbandonRuns(b, Timeout);
    }
  }

  // ---- such a run ------------------------------------------------------------

  lemma OneStep(b: Bridge, m: Move, rest: seq<Move>)
    ensures Life(b, [m] + rest) == Life(Step(b, m), rest)
  {
    assert ([m] + rest)[1..] == rest;
  }

  lemma FourSteps(b: Bridge, m1: Move, m2: Move, m3: Move, m4: Move, rest: seq<Move>)
    ensures Life(b, [m1] + ([m2] + ([m3] + ([m4] + rest)))) == Life(Step(Step(Step(Step(b, m1), m2), m3), m4), rest)
  {
    OneStep(b, m1, [m2] + ([m3] + ([m4] + rest)));
    OneStep(Step(b, m1), m2, [m3] + ([m4] + rest));
    OneStep(Step(Step(b, m1), m2), m3, [m4] + rest);
    OneStep(Step(Step(Step(b, m1), m2), m3), m4, rest);
  }

  /** With nothing buffered and no half-close seen a turn changes nothing. */
  lemma IdleTurn(b: Bridge)
    requires b.toPublisher == [] && b.toCaller == [] && !b.callerFin && !b.publisherFin
    requires !b.callerFinSent && !b.publisherFinSent
    ensures Turn(b) == b
  {
  }

  /** A bridge that has just been opened and has carried nothing. */
  predicate Idle(b: Bridge)
  {
    && b.phase.Pumping? && b.toPublisher == [] && b.toCaller == [] && !b.callerFin && !b.publisherFin
    && !b.callerFinSent && !b.publisherFinSent && b.heardCaller == []
    && b.publisher.installed && b.publisher.left.None? && !b.publisher.finSent
    && b.caller.installed && b.caller.sink && b.caller.inbox == []
    && b.caller.received == 0 && b.caller.granted == STREAM_INITIAL_CREDIT
  }

  lemma Opens()
    ensures var b := Begin(STREAM_INITIAL_CREDIT, STREAM_INITIAL_CREDIT, Opened);
            Idle(Step(Step(Step(Step(b, Arrive(Publisher, InOpenResult(Ok))), Arrive(Publisher, InReady)),
                           Take(Publisher)), Take(Publisher)))
  {
    var b := Begin(STREAM_INITIAL_CREDIT, STREAM_INITIAL_CREDIT, Opened);
    var b2 := Step(Step(b, Arrive(Publisher, InOpenResult(Ok))), Arrive(Publisher, InReady));
    assert b2.publisher.inbox == [GotOpenResult(Ok), GotReady];
    var b3 := Step(b2, Take(Publisher));
    assert b3.publisher.inbox == [GotReady] && b3.phase == Opening(true);
    var l := SendOpenResult(b3.caller, Ok).leg;
    IdleTurn(HearPublisher(b3).(phase := Pumping, caller := l));
  }

  lemma FinFirst(b: Bridge, bytes: Bytes)
    requires Idle(b) && 0 < |bytes| <= STREAM_INITIAL_CREDIT
    ensures var b2 := Step(Step(b, Arrive(Caller, InFin(|bytes|))), Arrive(Caller, InData([Reorder.Block(0, bytes)])));
            b2 == b.(caller := b2.caller) && b2.caller.inbox == [GotFin(|bytes|), GotData(bytes)]
  {
    var block := Reorder.Block(0, bytes);
    assert [block][1..] == [] && Events([block]) == [GotData(bytes)];
    assert Charge(|bytes|, STREAM_INITIAL_CREDIT, []) == Charged(|bytes|, true);
    assert Charge(0, STREAM_INITIAL_CREDIT, [block]) == Charged(|bytes|, true);
  }

  lemma FinTaken(b: Bridge, n: nat, bytes: Bytes)
    requires Idle(b.(caller := b.caller.(inbox := [], received := 0)))
    requires b.caller.inbox == [GotFin(n), GotData(bytes)]
    ensures var b1 := Step(b, Take(Caller));
            && b1.phase.Pumping? && b1.callerFin && b1.heardCaller == [GotFin(n)] && b1.caller.inbox == [GotData(bytes)]
  {
    var b0 := HearCaller(b).(callerFin := true);
    assert b0.heardCaller == [GotFin(n)] && b0.caller.inbox == [GotData(bytes)];
    assert FinishTurn(b0).phase.Pumping?;
    TurnRuns(b0);
  }

  lemma LateTaken(b: Bridge, n: nat, bytes: Bytes)
    requires b.phase.Pumping? && b.callerFin && b.heardCaller == [GotFin(n)] && b.caller.inbox == [GotData(bytes)]
    ensures var e := Step(b, Take(Caller));
            e.closing == Some(ProtocolError) && e.heardCaller == [GotFin(n), GotData(bytes)]
  {
  }

  lemma Overtakes(b: Bridge, bytes: Bytes, e: Bridge)
    requires Idle(b) && 0 < |bytes| <= STREAM_INITIAL_CREDIT
    requires e == Step(Step(Step(Step(b, Arrive(Caller, InFin(|bytes|))), Arrive(Caller, InData([Reorder.Block(0, bytes)]))),
                            Take(Caller)), Take(Caller))
    ensures e.closing == Some(ProtocolError) && e.heardCaller == [GotFin(|bytes|), GotData(bytes)]
  {
    FinFirst(b, bytes);
    var b2 := Step(Step(b, Arrive(Caller, InFin(|bytes|))), Arrive(Caller, InData([Reorder.Block(0, bytes)])));
    FinTaken(b2, |bytes|, bytes);
    LateTaken(Step(b2, Take(Caller)), |bytes|, bytes);
  }

  /** The publisher accepts; then the caller's `Fin` arrives before the bytes it counts. */
  function Overtaking(bytes: Bytes): seq<Move>
  {
    [Arrive(Publisher, InOpenResult(Ok))] + ([Arrive(Publisher, InReady)] + ([Take(Publisher)] + ([Take(Publisher)]
      + ([Arrive(Caller, InFin(|bytes|))] + ([Arrive(Caller, InData([Reorder.Block(0, bytes)]))] + ([Take(Caller)] + ([Take(Caller)] + [])))))))
  }

  /** The code as it stands: a caller sends `bytes` and then `Fin` at their end, the two
      records arrive the other way round, and the bridge breaks off, the bytes unsent. */
  lemma OvertakenDataBreaksOff(bytes: Bytes)
    requires 0 < |bytes| <= STREAM_INITIAL_CREDIT
    ensures var b := Life(Begin(STREAM_INITIAL_CREDIT, STREAM_INITIAL_CREDIT, Opened), Overtaking(bytes));
            b.closing == Some(ProtocolError) && b.heardCaller == [GotFin(|bytes|), GotData(bytes)]
  {
    var b0 := Begin(STREAM_INITIAL_CREDIT, STREAM_INITIAL_CREDIT, Opened);
    var a1, a2 := Arrive(Publisher, InOpenResult(Ok)), Arrive(Publisher, InReady);
    var c1, c2 := Arrive(Caller, InFin(|bytes|)), Arrive(Caller, InData([Reorder.Block(0, bytes)]));
    FourSteps(b0, a1, a2, Take(Publisher), Take(Publisher), [c1] + ([c2] + ([Take(Caller)] + ([Take(Caller)] + []))));
    Opens();
    var b := Step(Step(Step(Step(b0, a1), a2), Take(Publisher)), Take(Publisher));
    FourSteps(b, c1, c2, Take(Caller), Take(Caller), []);
    Overtakes(b, bytes, Step(Step(Step(Step(b, c1), c2), Take(Caller)), Take(Caller)));
  }
}
