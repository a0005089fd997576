/** How a bridge ends, and who is told: a reset is passed on, a leg whose peer is gone leaves the
    other one canceled, and an open that comes to nothing is answered. */
module Farewell {
  import opened Limits
  import opened StreamEngine
  import opened Relay
  import opened RelayTrace

  // ---- legs that cannot carry on ---------------------------------------------

  predicate Halting(l: Leg) { !l.installed || l.left.Some? }

  /** The peer ended the stream: with a reset, or by refusing to open it. */
  predicate PeerEnded(log: seq<Event>)
  {
    exists e <- log :: e.GotReset? || (e.GotOpenResult? && e.openStatus != Ok)
  }

  /** What a leg in use has lost, it lost to its peer or to its session. */
  predicate Sane(l: Leg)
  {
    (!l.sink ==> l.left == Some(0)) && (!l.installed ==> l.left == Some(0) || PeerEnded(l.log))
  }

  predicate Impaired(l: Leg) { l.left.Some? || PeerEnded(l.log) }

  lemma EndedMore(log: seq<Event>, news: seq<Event>)
    requires PeerEnded(log)
    ensures PeerEnded(log + news)
  {
    var e :| e in log && (e.GotReset? || (e.GotOpenResult? && e.openStatus != Ok));
    assert e in log + news;
  }

  lemma DispatchSane(l: Leg, m: Inbound)
    requires Sane(l) && l.received <= l.granted
    ensures Sane(Dispatch(l, m))
  {
    var news := DispatchKeeps(l, m);
    if PeerEnded(l.log) { EndedMore(l.log, news); }
    if l.sink && (m.InReset? || (m.InOpenResult? && m.inStatus != Ok)) {
      var l' := Dispatch(l, m);
      assert l'.log[|l.log|] in l'.log;
    }
  }

  /** A leg that was used, but not let go. */
  predicate Used(l: Leg, l': Leg)
  {
    && l'.installed == l.installed && l'.sink == l.sink && l'.log == l.log
    && (l'.left.Some? <==> l.left.Some?) && (l.left == Some(0) ==> l'.left == Some(0))
  }

  lemma PushUses(l: Leg, buf: Bytes)
    ensures Used(l, PushSpec(l, buf).leg)
    ensures !PushSpec(l, buf).ok ==> Halting(l)
  {
  }

  lemma ConsumeUses(l: Leg, n: nat)
    requires l.consumed + n <= l.received
    ensures var s := Consume(l, n);
            && !s.CreditExceeded? && (s.Sent? ==> Used(l, s.leg)) && (s.Broken? ==> Used(l, s.after) && Halting(l))
  {
  }

  lemma CarryUses(src: Leg, dst: Leg, buf: Bytes, taken: Bytes, seen: bool, sent: bool)
    requires Quiet(src) && Quiet(dst) && Lane(src, dst, buf, taken, seen, sent)
    ensures var c := Carry(src, dst, buf);
            && Used(src, c.src) && Used(dst, c.dst) && (!c.ok ==> Halting(src) || Halting(dst))
  {
    PushUses(dst, buf);
    PushKeeps(dst, buf);
    var p := PushSpec(dst, buf);
    var n := |buf| - |p.pending|;
    if p.ok && n > 0 {
      assert |Payload(dst.wire)| + |buf| == |taken|;
      ConsumeUses(src, n);
    }
  }

  lemma HalfCloseUses(dst: Leg, seen: bool, sent: bool, buf: Bytes)
    ensures var h := HalfClose(dst, seen, sent, buf);
            Used(dst, h.leg) && (!h.ok ==> Halting(dst))
  {
  }

  // ---- a turn that ends ------------------------------------------------------

  /** Neither leg can be left in the dark: both are told, as far as their sessions still seal. */
  predicate BothTold(b: Bridge, reason: ResetReason) { Told(b.caller, reason) && Told(b.publisher, reason) }

  lemma TearDownTells(b: Bridge, callerDone: bool, publisherDone: bool, reason: ResetReason)
    ensures var e := TearDown(b, callerDone, publisherDone, reason);
            && e.closing == Some(reason) && (!callerDone ==> Told(e.caller, reason)) && (!publisherDone ==> Told(e.publisher, reason))
            && (callerDone ==> e.caller.wire == b.caller.wire) && (publisherDone ==> e.publisher.wire == b.publisher.wire)
            && (b.caller.left == Some(0) ==> e.caller.left == Some(0)) && (b.publisher.left == Some(0) ==> e.publisher.left == Some(0))
  {
  }

  /** A turn ends a bridge in two ways only: a leg cannot carry on, or both are half-closed. */
  predicate TurnEnds(b: Bridge, e: Bridge)
  {
    || (e.closing == Some(Unreachable_) && BothTold(e, Unreachable_) && (Halting(b.caller) || Halting(b.publisher)))
    || (e.closing == Some(Canceled) && e.callerFinSent && e.publisherFinSent)
  }

  predicate TurnLasts(b: Bridge, e: Bridge) { e.phase == b.phase && Used(b.caller, e.caller) && Used(b.publisher, e.publisher) }

  predicate Turned(b: Bridge, e: Bridge) { if e.phase.Ended? then TurnEnds(b, e) else TurnLasts(b, e) }

  lemma FinishTurns(b: Bridge)
    requires b.phase.Pumping?
    ensures Turned(b, FinishTurn(b))
  {
    var p := HalfClose(b.publisher, b.callerFin, b.publisherFinSent, b.toPublisher);
    HalfCloseUses(b.publisher, b.callerFin, b.publisherFinSent, b.toPublisher);
    var b1 := b.(publisher := p.leg, publisherFinSent := p.sent);
    if !p.ok {
      TearDownTells(b1, false, false, Unreachable_);
    } else {
      var c := HalfClose(b1.caller, b1.publisherFin, b1.callerFinSent, b1.toCaller);
      HalfCloseUses(b1.caller, b1.publisherFin, b1.callerFinSent, b1.toCaller);
      var b2 := b1.(caller := c.leg, callerFinSent := c.sent);
      TearDownTells(b2, false, false, Unreachable_);
    }
  }

  lemma TurnsThrough(b: Bridge, b1: Bridge, e: Bridge)
    requires Turned(b1, e) && b1.phase == b.phase && Used(b.caller, b1.caller) && Used(b.publisher, b1.publisher)
    ensures Turned(b, e)
  {
  }

  lemma BackTurns(b: Bridge)
    requires b.phase.Pumping? && Running(b)
    ensures var back := Carry(b.publisher, b.caller, b.toCaller);
            var b2 := b.(publisher := back.src, caller := back.dst, toCaller := back.buf);
            Turned(b, if !back.ok then TearDown(b2, false, false, Unreachable_) else FinishTurn(b2))
  {
    CarryUses(b.publisher, b.caller, b.toCaller, b.fromPublisher, b.publisherFin, b.callerFinSent);
    var back := Carry(b.publisher, b.caller, b.toCaller);
    var b2 := b.(publisher := back.src, caller := back.dst, toCaller := back.buf);
    TearDownTells(b2, false, false, Unreachable_);
    FinishTurns(b2);
    if back.ok { TurnsThrough(b, b2, FinishTurn(b2)); }
  }

  lemma TurnTurns(b: Bridge)
    requires b.phase.Pumping? && Running(b) && Answered(b) && HalfOpen(b)
    ensures Turned(b, Turn(b))
  {
    CarryUses(b.caller, b.publisher, b.toPublisher, b.fromCaller, b.callerFin, b.publisherFinSent);
    CarryThere(b);
    var there := Carry(b.caller, b.publisher, b.toPublisher);
    var b1 := b.(caller := there.src, publisher := there.dst, toPublisher := there.buf);
    TearDownTells(b1, false, false, Unreachable_);
    if there.ok {
      BackTurns(b1);
      TurnsThrough(b, b1, Turn(b));
    }
  }

  // ---- every way out of the pump ---------------------------------------------

  predicate NoReset(heard: seq<Event>) { forall e <- heard :: !e.GotReset? }

  /** The last thing heard was a reset. */
  predicate HeardReset(heard: seq<Event>, why: ResetReason)
  {
    heard != [] && heard[|heard| - 1] == GotReset(why) && NoReset(heard[..|heard| - 1])
  }

  /** A peer's reset is passed to the other leg with its reason, and not answered. */
  predicate PassedOn(heard: seq<Event>, own: Leg, other: Leg)
  {
    exists why :: HeardReset(heard, why) && Told(other, why) && !HasReset(own.wire)
  }

  /** Without a reset from either peer: late data, both half-closes, a session gone, or a leg
      that cannot carry on. */
  predicate PartsItself(b: Bridge)
  {
    || (b.closing == Some(ProtocolError) && BothTold(b, ProtocolError))
    || (b.closing == Some(Canceled) && HasFin(b.caller.wire) && HasFin(b.publisher.wire))
    || (b.closing == Some(Canceled) && b.caller.left == Some(0) && Told(b.publisher, Canceled) && !HasReset(b.caller.wire))
    || (b.closing == Some(Canceled) && b.publisher.left == Some(0) && Told(b.caller, Canceled) && !HasReset(b.publisher.wire))
    || (b.closing == Some(Unreachable_) && BothTold(b, Unreachable_) && (Impaired(b.caller) || Impaired(b.publisher)))
  }

  predicate Parting(b: Bridge)
  {
    || (PassedOn(b.heardCaller, b.caller, b.publisher) && NoReset(b.heardPublisher))
    || (PassedOn(b.heardPublisher, b.publisher, b.caller) && NoReset(b.heardCaller))
    || (NoReset(b.heardCaller) && NoReset(b.heardPublisher) && PartsItself(b))
  }

  predicate Alive(b: Bridge)
  {
    NoReset(b.heardCaller) && NoReset(b.heardPublisher) && Sane(b.caller) && Sane(b.publisher)
  }

  predicate Parted(b: Bridge)
  {
    if b.phase.Ended? then b.closing.Some? ==> Parting(b) else Alive(b)
  }

  lemma ImpairedStays(l: Leg, l': Leg)
    requires Impaired(l) && Still(l, l')
    ensures Impaired(l')
  {
  }

  lemma TurnParts(b: Bridge)
    requires b.phase.Pumping? && Running(b) && Answered(b) && HalfOpen(b) && Alive(b)
    ensures Parted(Turn(b))
  {
    TurnTurns(b);
    TurnRuns(b);
    TurnKeeps(b);
    var e := Turn(b);
    if Impaired(b.caller) { ImpairedStays(b.caller, e.caller); }
    if Impaired(b.publisher) { ImpairedStays(b.publisher, e.publisher); }
  }

  lemma NoResetMore(heard: seq<Event>, e: Event)
    requires NoReset(heard) && !e.GotReset?
    ensures NoReset(heard + [e])
  {
  }

  lemma ResetHeard(heard: seq<Event>, why: ResetReason)
    requires NoReset(heard)
    ensures HeardReset(heard + [GotReset(why)], why)
  {
    assert (heard + [GotReset(why)])[..|heard|] == heard;
  }

  /** What was just heard, the rest being as at the wait. */
  predicate JustHeard(b: Bridge)
  {
    b.phase.Pumping? && Running(b) && Answered(b) && HalfOpen(b) && Sane(b.caller) && Sane(b.publisher)
  }

  lemma CallerResetParts(b: Bridge, why: ResetReason, heard: seq<Event>)
    requires JustHeard(b) && b.heardCaller == heard + [GotReset(why)] && NoReset(heard) && NoReset(b.heardPublisher)
    ensures Parting(OnCallerEvent(b, GotReset(why)))
  {
    ResetHeard(heard, why);
    var e := OnCallerEvent(b, GotReset(why));
    assert HeardReset(e.heardCaller, why) && Told(e.publisher, why) && !HasReset(e.caller.wire);
  }

  lemma PublisherResetParts(b: Bridge, why: ResetReason, heard: seq<Event>)
    requires JustHeard(b) && b.heardPublisher == heard + [GotReset(why)] && NoReset(heard) && NoReset(b.heardCaller)
    ensures Parting(OnPublisherEvent(b, GotReset(why)))
  {
    ResetHeard(heard, why);
    var e := OnPublisherEvent(b, GotReset(why));
    assert HeardReset(e.heardPublisher, why) && Told(e.caller, why) && !HasReset(e.publisher.wire);
  }

  lemma CallerEventParts(b: Bridge, e: Event, heard: seq<Event>, r: Bridge)
    requires JustHeard(b) && Relay.Charged(b.caller, b.fromCaller, e) && b.heardCaller == heard + [e] && NoReset(heard) && NoReset(b.heardPublisher)
    requires r == OnCallerEvent(b, e)
    ensures Parted(r)
  {
    if !e.GotReset? { NoResetMore(heard, e); }
    match e {
      case GotData(bytes) =>
        if b.callerFin {
          BreakOffTells(b);
        } else {
          Assoc(Payload(b.publisher.wire), b.toPublisher, bytes);
          TurnParts(b.(toPublisher := b.toPublisher + bytes, fromCaller := b.fromCaller + bytes));
        }
      case GotFin(_) => TurnParts(b.(callerFin := true));
      case GotReset(why) => CallerResetParts(b, why, heard);
      case _ => TurnParts(b);
    }
  }

  lemma PublisherEventParts(b: Bridge, e: Event, heard: seq<Event>, r: Bridge)
    requires JustHeard(b) && Relay.Charged(b.publisher, b.fromPublisher, e) && b.heardPublisher == heard + [e] && NoReset(heard) && NoReset(b.heardCaller)
    requires r == OnPublisherEvent(b, e)
    ensures Parted(r)
  {
    if !e.GotReset? { NoResetMore(heard, e); }
    match e {
      case GotData(bytes) =>
        if b.publisherFin {
          BreakOffTells(b);
        } else {
          Assoc(Payload(b.caller.wire), b.toCaller, bytes);
          TurnParts(b.(toCaller := b.toCaller + bytes, fromPublisher := b.fromPublisher + bytes));
        }
      case GotFin(_) => TurnParts(b.(publisherFin := true));
      case GotReset(why) => PublisherResetParts(b, why, heard);
      case _ => TurnParts(b);
    }
  }

  lemma TakeCallerParts(b: Bridge)
    requires AtWait(b) && Alive(b)
    ensures Parted(Step(b, Take(Caller)))
  {
    if b.caller.inbox != [] {
      CallerHeard(b);
      CallerEventParts(HearCaller(b), b.caller.inbox[0], b.heardCaller, Step(b, Take(Caller)));
    } else {
      TearDownTells(b, true, false, Canceled);
    }
  }

  lemma TakePublisherParts(b: Bridge)
    requires AtWait(b) && Alive(b)
    ensures Parted(Step(b, Take(Publisher)))
  {
    if b.publisher.inbox != [] {
      PublisherHeard(b);
      PublisherEventParts(HearPublisher(b), b.publisher.inbox[0], b.heardPublisher, Step(b, Take(Publisher)));
    } else {
      TearDownTells(b, false, true, Canceled);
    }
  }

  // ---- the handshake ---------------------------------------------------------

  /** How the caller's open was answered, as far as there was still a way to answer. */
  predicate AnsweredWith(l: Leg, status: OpenStatus)
  {
    l.wire == [OpenResult(status)] || (l.wire == [] && (l.left == Some(0) || PeerEnded(l.log)))
  }

  /** A publisher that has not ended the stream itself is told. */
  predicate LetGo(l: Leg)
  {
    Told(l, Canceled) || (l.wire == [] && PeerEnded(l.log))
  }

  function StatusFor(e: Event): OpenStatus { if e.GotOpenResult? then e.openStatus else Unreachable }

  predicate AllHarmless(heard: seq<Event>) { forall e <- heard :: Harmless(e) }

  /** The publisher said no, and how: the first thing heard that is not harmless decides. */
  predicate SaidNo(heard: seq<Event>, status: OpenStatus)
  {
    heard != [] && AllHarmless(heard[..|heard| - 1]) && !Harmless(heard[|heard| - 1]) && status == StatusFor(heard[|heard| - 1])
  }

  /** The caller could not be told `Ok` and `Ready`. */
  predicate Unanswerable(l: Leg)
  {
    (l.wire == [] && Impaired(l)) || (l.wire == [OpenResult(Ok)] && l.left == Some(0))
  }

  /** An open that never reached the pump: refused by the publisher, `timed` out, left by the
      publisher's session, or answered too late. */
  predicate Declined(b: Bridge, timed: bool)
  {
    && LetGo(b.publisher)
    && ((exists status :: SaidNo(b.heardPublisher, status) && AnsweredWith(b.caller, status))
        || (timed && AllHarmless(b.heardPublisher) && AnsweredWith(b.caller, Timeout))
        || (AllHarmless(b.heardPublisher) && b.publisher.left == Some(0) && AnsweredWith(b.caller, Unreachable))
        || (AllHarmless(b.heardPublisher) && Accepted(b.heardPublisher) && Unanswerable(b.caller)))
  }

  predicate Greeted(l: Leg) { [OpenResult(Ok), Ready] <= l.wire }

  /** Where an open stands. */
  predicate Stands(b: Bridge, timed: bool)
  {
    match b.phase
    case Opening(accepted) =>
      b.caller.wire == [] && b.publisher.wire == [] && AllHarmless(b.heardPublisher) && !Accepted(b.heardPublisher) && b.closing == None
    case Pumping => Greeted(b.caller) && b.closing == None
    case Ended => if b.closing.None? then Declined(b, timed) else Greeted(b.caller)
  }

  lemma RefusedIsAnswered(l: Leg, status: OpenStatus)
    requires Sane(l) && l.wire == [] && status != Ok
    ensures AnsweredWith(Release(RefuseCaller(l, status)), status)
  {
  }

  lemma PublisherLetGo(l: Leg)
    requires Sane(l) && l.wire == []
    ensures LetGo(ReleasePublisher(l))
  {
  }

  lemma AbandonDeclines(b: Bridge, status: OpenStatus)
    requires Sane(b.caller) && Sane(b.publisher) && b.caller.wire == [] && b.publisher.wire == [] && status != Ok && b.closing == None
    ensures var e := Abandon(b, status);
            e.phase.Ended? && e.closing == None && LetGo(e.publisher) && AnsweredWith(e.caller, status)
            && e.heardPublisher == b.heardPublisher && (e.publisher.left == Some(0) <== b.publisher.left == Some(0))
  {
    RefusedIsAnswered(b.caller, status);
    PublisherLetGo(b.publisher);
  }

  lemma WithdrawDeclines(b: Bridge, timed: bool)
    requires Sane(b.publisher) && b.publisher.wire == [] && b.closing == None && AllHarmless(b.heardPublisher) && Accepted(b.heardPublisher)
    requires Unanswerable(b.caller)
    ensures Stands(Withdraw(b), timed)
  {
    PublisherLetGo(b.publisher);
  }

  lemma GreetedStays(l: Leg, l': Leg)
    requires Greeted(l) && Still(l, l')
    ensures Greeted(l')
  {
  }

  lemma FirstTurnStands(b: Bridge, l: Leg, timed: bool)
    requires b.phase.Opening? && b.closing == None && Greeted(l)
    ensures Stands(Turn(b.(phase := Pumping, caller := l)), timed)
  {
    var b1 := b.(phase := Pumping, caller := l);
    TurnRuns(b1);
    GreetedStays(l, Turn(b1).caller);
  }

  lemma AnswerStands(b: Bridge, timed: bool)
    requires b.phase.Opening? && Sane(b.caller) && Sane(b.publisher) && b.caller.wire == [] && b.publisher.wire == []
    requires AllHarmless(b.heardPublisher) && Accepted(b.heardPublisher) && b.closing == None
    ensures Stands(AnswerCaller(b), timed)
  {
    if !b.caller.installed {
      WithdrawDeclines(b, timed);
    } else {
      match SendOpenResult(b.caller, Ok) {
        case Sent(l) =>
          assert l.wire == [OpenResult(Ok), Ready];
          FirstTurnStands(b, l, timed);
        case Broken(l) => WithdrawDeclines(b.(caller := l), timed);
        case CreditExceeded =>
      }
    }
  }

  lemma AcceptedLater(heard: seq<Event>, e: Event)
    ensures Accepted(heard + [e]) <==> Accepted(heard) || (e == GotReady && GotOpenResult(Ok) in heard)
  {
    var all := heard + [e];
    assert all[|heard|] == e && forall i :: 0 <= i < |heard| ==> all[i] == heard[i];
    if GotOpenResult(Ok) in heard && e == GotReady {
      var i :| 0 <= i < |heard| && heard[i] == GotOpenResult(Ok);
      assert all[i] == GotOpenResult(Ok) && all[|heard|] == GotReady;
    }
    if Accepted(heard) { StillAccepted(heard, e); }
    if Accepted(all) && !Accepted(heard) {
      var i, j :| 0 <= i < j < |all| && all[i] == GotOpenResult(Ok) && all[j] == GotReady;
      assert j == |heard| && heard[i] == GotOpenResult(Ok);
    }
  }

  lemma HarmlessMore(heard: seq<Event>, e: Event)
    requires AllHarmless(heard)
    ensures Harmless(e) ==> AllHarmless(heard + [e])
    ensures !Harmless(e) ==> SaidNo(heard + [e], StatusFor(e))
  {
    assert (heard + [e])[..|heard|] == heard;
  }

  lemma OpeningEventStands(b: Bridge, e: Event, heard: seq<Event>, timed: bool)
    requires b.phase.Opening? && b.heardPublisher == heard + [e] && AllHarmless(heard) && !Accepted(heard)
    requires b.phase.accepted <==> GotOpenResult(Ok) in heard
    requires Sane(b.caller) && Sane(b.publisher) && b.caller.wire == [] && b.publisher.wire == [] && b.closing == None
    ensures Stands(OnOpeningEvent(b, e), timed)
  {
    HarmlessMore(heard, e);
    AcceptedLater(heard, e);
    if !Harmless(e) {
      AbandonDeclines(b, StatusFor(e));
    } else if e.GotReady? && b.phase.accepted {
      AnswerStands(b, timed);
    }
  }

  lemma TakeOpeningStands(b: Bridge, timed: bool)
    requires AtOpening(b) && Alive(b) && Stands(b, timed) && b.publisher.inbox != []
    ensures Stands(Step(b, Take(Publisher)), timed)
  {
    OpeningEventStands(HearPublisher(b), b.publisher.inbox[0], b.heardPublisher, timed);
  }

  lemma CallerEventCloses(b: Bridge, e: Event)
    requires b.phase.Pumping? && b.closing == None
    ensures var r := OnCallerEvent(b, e);
            !r.phase.Opening? && (r.phase.Ended? <==> r.closing.Some?)
  {
    match e {
      case GotData(bytes) =>
        if !b.callerFin { TurnRuns(b.(toPublisher := b.toPublisher + bytes, fromCaller := b.fromCaller + bytes)); }
      case GotFin(_) => TurnRuns(b.(callerFin := true));
      case GotReset(why) =>
      case _ => TurnRuns(b);
    }
  }

  lemma PublisherEventCloses(b: Bridge, e: Event)
    requires b.phase.Pumping? && b.closing == None
    ensures var r := OnPublisherEvent(b, e);
            !r.phase.Opening? && (r.phase.Ended? <==> r.closing.Some?)
  {
    match e {
      case GotData(bytes) =>
        if !b.publisherFin { TurnRuns(b.(toCaller := b.toCaller + bytes, fromPublisher := b.fromPublisher + bytes)); }
      case GotFin(_) => TurnRuns(b.(publisherFin := true));
      case GotReset(why) =>
      case _ => TurnRuns(b);
    }
  }

  /** The pump never ends without a reason. */
  lemma PumpCloses(b: Bridge, m: Move)
    requires b.phase.Pumping? && b.closing == None && m.Take?
    ensures var e := Step(b, m);
            !e.phase.Opening? && (e.phase.Ended? <==> e.closing.Some?)
  {
    match m.from {
      case Caller =>
        if b.caller.inbox != [] { CallerEventCloses(HearCaller(b), b.caller.inbox[0]); }
      case Publisher =>
        if b.publisher.inbox != [] { PublisherEventCloses(HearPublisher(b), b.publisher.inbox[0]); }
    }
  }

  lemma PumpStands(b: Bridge, m: Move, timed: bool)
    requires b.phase.Pumping? && Stands(b, timed) && Ears(b) && Orderly(b) && m.Take?
    ensures Stands(Step(b, m), timed) && (Step(b, m).phase.Ended? <==> Step(b, m).closing.Some?)
  {
    StepAdds(b, m);
    StepEars(b, m);
    PumpCloses(b, m);
  }

  // ---- whole lives -----------------------------------------------------------

  ghost predicate Whole(b: Bridge, timed: bool) { Orderly(b) && Ears(b) && Parted(b) && Stands(b, timed) }

  lemma ArriveWhole(b: Bridge, side: Side, m: Inbound, timed: bool)
    requires Whole(b, timed) && !b.phase.Ended?
    ensures Parted(Step(b, Arrive(side, m))) && Stands(Step(b, Arrive(side, m)), timed)
  {
    match side {
      case Caller =>
        var news := DispatchKeeps(b.caller, m);
        DispatchSane(b.caller, m);
      case Publisher =>
        var news := DispatchKeeps(b.publisher, m);
        DispatchSane(b.publisher, m);
    }
  }

  lemma AnswerLeaves(b: Bridge)
    ensures !AnswerCaller(b).phase.Opening?
  {
    if b.caller.installed {
      match SendOpenResult(b.caller, Ok) {
        case Sent(l) => TurnRuns(b.(phase := Pumping, caller := l));
        case _ =>
      }
    }
  }

  lemma OpeningStays(b: Bridge, e: Event)
    requires b.phase.Opening? && Alive(b)
    ensures var r := OnOpeningEvent(b, e);
            r.phase.Opening? ==> Alive(r) && r.closing == b.closing
  {
    if e.GotReady? && b.phase.accepted { AnswerLeaves(b); }
  }

  /** The first turn, on a caller just answered. */
  lemma AnswerParts(b: Bridge)
    requires AtOpening(b) && Accepted(b.heardPublisher) && Alive(b) && b.closing == None
    ensures Parted(AnswerCaller(b))
  {
    if b.caller.installed {
      AcceptKeeps(b.caller, SendOpenResult(b.caller, Ok));
      match SendOpenResult(b.caller, Ok) {
        case Sent(l) => TurnParts(b.(phase := Pumping, caller := l));
        case _ =>
      }
    }
  }

  lemma OpeningEventParts(b: Bridge)
    requires AtOpening(b) && Alive(b) && b.closing == None && b.publisher.inbox != []
    ensures Parted(Step(b, Take(Publisher)))
  {
    var e := b.publisher.inbox[0];
    var b1 := HearPublisher(b);
    if Harmless(e) {
      NoResetMore(b.heardPublisher, e);
      if e.GotReady? && b.phase.accepted {
        AcceptedLater(b.heardPublisher, e);
        AnswerParts(b1);
      }
    }
  }

  lemma TakeWhole(b: Bridge, from: Side, timed: bool)
    requires Whole(b, timed) && !b.phase.Ended?
    ensures Parted(Step(b, Take(from))) && Stands(Step(b, Take(from)), timed)
  {
    if b.phase.Pumping? {
      PumpStands(b, Take(from), timed);
      match from {
        case Caller => TakeCallerParts(b);
        case Publisher => TakePublisherParts(b);
      }
    } else if from.Publisher? {
      if b.publisher.inbox != [] {
        OpeningEventParts(b);
        TakeOpeningStands(b, timed);
      } else {
        AbandonDeclines(b, Unreachable);
      }
    }
  }

  lemma StepWhole(b: Bridge, m: Move, timed: bool)
    requires Whole(b, timed) && (m.Deadline? ==> timed)
    ensures Whole(Step(b, m), timed)
  {
    StepKeeps(b, m);
    StepEars(b, m);
    if b.phase.Ended? { return; }
    match m {
      case Arrive(side, inbound) => ArriveWhole(b, side, inbound, timed);
      case Take(from) => TakeWhole(b, from, timed);
      case Deadline => if b.phase.Opening? { AbandonDeclines(b, Timeout); }
    }
  }

  lemma {:induction false} LifeWhole(b: Bridge, moves: seq<Move>, timed: bool)
    requires Whole(b, timed) && (Deadline in moves ==> timed)
    ensures Whole(Life(b, moves), timed)
    decreases |moves|
  {
    if moves != [] {
      StepWhole(b, moves[0], timed);
      LifeWhole(Step(b, moves[0]), moves[1..], timed);
    }
  }

  lemma BeginWhole(callerWindow: nat, publisherWindow: nat, timed: bool)
    ensures Whole(Begin(callerWindow, publisherWindow, Opened), timed)
  {
    BeginEars(callerWindow, publisherWindow);
  }

  lemma ResetIsPassed(heard: seq<Event>, own: Leg, other: Leg, why: ResetReason)
    requires PassedOn(heard, own, other) && GotReset(why) in heard
    ensures Told(other, why) && !HasReset(own.wire)
  {
    var w :| HeardReset(heard, w) && Told(other, w) && !HasReset(own.wire);
    assert heard == heard[..|heard| - 1] + [heard[|heard| - 1]];
  }

  /** What became of a bridge, in every run. Before the caller was told `Ok` and `Ready`: the open
      was answered as the publisher, its session or the deadline decided, and the publisher was
      told to stop. After that: a reset from either peer reached the other leg with its reason and
      was not answered; without one the bridge ended for late data, with both half-closes, because
      a session was gone, or because a leg could not carry on, and every leg that did not end it
      itself was told why. */
  lemma EveryoneIsTold(callerWindow: nat, publisherWindow: nat, moves: seq<Move>)
    ensures var b := Life(Begin(callerWindow, publisherWindow, Opened), moves);
            && (b.phase.Pumping? ==> Greeted(b.caller) && NoReset(b.heardCaller) && NoReset(b.heardPublisher))
            && (b.phase.Ended? && !Greeted(b.caller) ==> Declined(b, Deadline in moves))
            && (b.phase.Ended? && Greeted(b.caller) ==>
                  && (forall why :: GotReset(why) in b.heardCaller ==> Told(b.publisher, why) && !HasReset(b.caller.wire))
                  && (forall why :: GotReset(why) in b.heardPublisher ==> Told(b.caller, why) && !HasReset(b.publisher.wire))
                  && (NoReset(b.heardCaller) && NoReset(b.heardPublisher) ==> PartsItself(b)))
  {
    var timed := Deadline in moves;
    BeginWhole(callerWindow, publisherWindow, timed);
    LifeWhole(Begin(callerWindow, publisherWindow, Opened), moves, timed);
    var b := Life(Begin(callerWindow, publisherWindow, Opened), moves);
    if b.phase.Ended? && Greeted(b.caller) {
      forall why | GotReset(why) in b.heardCaller ensures Told(b.publisher, why) && !HasReset(b.caller.wire) {
        ResetIsPassed(b.heardCaller, b.caller, b.publisher, why);
      }
      forall why | GotReset(why) in b.heardPublisher ensures Told(b.caller, why) && !HasReset(b.publisher.wire) {
        ResetIsPassed(b.heardPublisher, b.publisher, b.caller, why);
      }
    }
  }

  lemma PartingTells(b: Bridge)
    requires Parting(b) && !(HasFin(b.caller.wire) && HasFin(b.publisher.wire))
    ensures (exists why :: Told(b.caller, why)) || !NoReset(b.heardCaller)
    ensures (exists why :: Told(b.publisher, why)) || !NoReset(b.heardPublisher)
  {
    if PassedOn(b.heardCaller, b.caller, b.publisher) {
      var why :| HeardReset(b.heardCaller, why) && Told(b.publisher, why);
      assert b.heardCaller[|b.heardCaller| - 1] in b.heardCaller;
    } else if PassedOn(b.heardPublisher, b.publisher, b.caller) {
      var why :| HeardReset(b.heardPublisher, why) && Told(b.caller, why);
      assert b.heardPublisher[|b.heardPublisher| - 1] in b.heardPublisher;
    } else {
      assert Told(b.caller, ProtocolError) || Told(b.caller, Canceled) || Told(b.caller, Unreachable_);
      assert Told(b.publisher, ProtocolError) || Told(b.publisher, Canceled) || Told(b.publisher, Unreachable_);
    }
  }

  /** A leg that ends is never left in the dark: unless both directions were half-closed, it was
      told, or its own peer reset it, or its session is gone. */
  lemma NoLegInTheDark(callerWindow: nat, publisherWindow: nat, moves: seq<Move>)
    ensures var b := Life(Begin(callerWindow, publisherWindow, Opened), moves);
            b.phase.Ended? && Greeted(b.caller) && !(HasFin(b.caller.wire) && HasFin(b.publisher.wire)) ==>
              && ((exists why :: Told(b.caller, why)) || !NoReset(b.heardCaller))
              && ((exists why :: Told(b.publisher, why)) || !NoReset(b.heardPublisher))
  {
    var timed := Deadline in moves;
    BeginWhole(callerWindow, publisherWindow, timed);
    LifeWhole(Begin(callerWindow, publisherWindow, Opened), moves, timed);
    var b := Life(Begin(callerWindow, publisherWindow, Opened), moves);
    if b.phase.Ended? && b.closing.Some? && !(HasFin(b.caller.wire) && HasFin(b.publisher.wire)) { PartingTells(b); }
  }

  /** An open that could not even be passed on is refused, and a publisher's stream that was
      opened under a taken id is reset. */
  lemma RefusedAtOnceIsAnswered(callerWindow: nat, publisherWindow: nat, attempt: OpenAttempt)
    requires !attempt.Opened?
    ensures var b := Begin(callerWindow, publisherWindow, attempt);
            && b.caller.wire == [OpenResult(Refused)] && !b.caller.installed && !b.caller.sink
            && b.publisher.wire == if attempt.IdTaken? then [Reset(Canceled)] else []
  {
  }
}
