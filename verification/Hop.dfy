/** A hop of a chain (crates/wsnet-node/src/inbound.rs, `relay_leg`): two `SessionStream`s
    (crates/wsnet-node/src/stream.rs) joined by a copy loop in each direction. */
module Hop {
  import opened Limits
  import opened StreamEngine

  /** The copy loop's buffer per direction, as the runtime's library fixes it. */
  const COPY_BUFFER: nat := 8 * 1024

  /** One direction: what the source stream has absorbed, what the copy loop holds, and what
      the target stream has accepted without credit for it. */
  datatype Pipe = Pipe(
    readBuf: Bytes,
    copyBuf: Bytes,
    writeBuf: Bytes,
    delivered: nat,
    finAt: Option<nat>,
    reset: bool,
    closed: bool,
    heard: seq<Event>)

  const EMPTY: Pipe := Pipe([], [], [], 0, None, false, false, [])

  /** A direction with its two legs; `ok` turns false when the copy loop fails. */
  datatype Flow = Flow(src: Leg, dst: Leg, pipe: Pipe, ok: bool)

  datatype Hop = Hop(over: bool, inbound: Leg, next: Leg, onward: Pipe, back: Pipe)

  datatype Act = Absorb | Copy(n: nat) | Offer | Flush | Finish | ReadFails | WriteFails

  datatype Side = Inbound_ | Next_

  datatype Move = Arrive(side: Side, inbound: Inbound) | Onward(act: Act) | Back(act: Act)

  // ---- one direction ---------------------------------------------------------

  function Heard(p: Pipe, e: Event): Pipe
  {
    var p' := p.(heard := p.heard + [e]);
    match e
    case GotData(bytes) => p'.(readBuf := p.readBuf + bytes)
    case GotFin(at) => p'.(finAt := Some(if p.finAt.Some? then Max(p.finAt.value, at) else at))
    case GotReset(_) => p'.(reset := true)
    case _ => p'
  }

  /** Whoever's call it was, the leg is what the call left. */
  function Outcome(s: Sending, l: Leg): Leg
  {
    match s
    case Sent(l') => l'
    case Broken(l') => l'
    case CreditExceeded => l
  }

  predicate AtEof(src: Leg, p: Pipe)
  {
    && p.readBuf == [] && p.copyBuf == [] && p.writeBuf == []
    && ((p.finAt.Some? && p.delivered >= p.finAt.value) || (src.inbox == [] && !src.sink))
  }

  /** One step of a direction; a step that is not possible changes nothing. A reset shows to the
      copy loop once all data before it was read; a target stream whose session is gone refuses
      what is still to be written. */
  function Flows(src: Leg, dst: Leg, p: Pipe, act: Act): Flow
  {
    match act
    case Absorb =>
      if src.inbox == [] then Flow(src, dst, p, true)
      else Flow(src.(inbox := src.inbox[1..]), dst, Heard(p, src.inbox[0]), true)
    case Copy(n) =>
      if p.closed || n == 0 || n > |p.readBuf| || |p.copyBuf| + n > COPY_BUFFER then Flow(src, dst, p, true)
      else
        Flow(Outcome(Consume(src, n), src), dst,
             p.(readBuf := p.readBuf[n..], copyBuf := p.copyBuf + p.readBuf[..n], delivered := p.delivered + n), true)
    case Offer =>
      if p.closed || p.copyBuf == [] || p.writeBuf != [] then Flow(src, dst, p, true)
      else
        var s := SendData(dst, p.copyBuf);
        Flow(src, Outcome(s, dst), p.(copyBuf := [], writeBuf := if s.Sent? then [] else p.copyBuf), !s.Broken?)
    case Flush =>
      if p.closed || p.writeBuf == [] then Flow(src, dst, p, true)
      else
        var s := SendData(dst, p.writeBuf);
        Flow(src, Outcome(s, dst), p.(writeBuf := if s.Sent? then [] else p.writeBuf), !s.Broken?)
    case Finish =>
      if p.closed || !AtEof(src, p) then Flow(src, dst, p, true)
      else
        var s := SendFin(dst);
        Flow(src, Outcome(s, dst), p.(closed := true), s.Sent? || !dst.installed)
    case ReadFails => Flow(src, dst, p, p.closed || p.readBuf != [] || !p.reset)
    case WriteFails =>
      Flow(src, dst, p, p.closed || (p.copyBuf == [] && p.writeBuf == []) || dst.sink || dst.inbox != [])
  }

  // ---- both ------------------------------------------------------------------

  function Drop(h: Hop): Hop { h.(over := true, inbound := Release(h.inbound), next := Release(h.next)) }

  function Abort(h: Hop): Hop { Drop(h.(inbound := SendReset(h.inbound, Unreachable_))) }

  function GoOn(h: Hop, ok: bool): Hop
  {
    if !ok then Abort(h) else if h.onward.closed && h.back.closed then Drop(h) else h
  }

  function Step(h: Hop, m: Move): Hop
  {
    if h.over then h
    else
      match m
      case Arrive(Inbound_, inbound) => h.(inbound := Dispatch(h.inbound, inbound))
      case Arrive(Next_, inbound) => h.(next := Dispatch(h.next, inbound))
      case Onward(act) =>
        var f := Flows(h.inbound, h.next, h.onward, act);
        GoOn(h.(inbound := f.src, next := f.dst, onward := f.pipe), f.ok)
      case Back(act) =>
        var f := Flows(h.next, h.inbound, h.back, act);
        GoOn(h.(next := f.src, inbound := f.dst, back := f.pipe), f.ok)
  }

  /** A hop that has just answered its inbound leg. */
  function Opened(inboundWindow: nat, nextWindow: nat): Hop
  {
    Hop(false, SendOpenResult(Fresh(inboundWindow), Ok).leg, Fresh(nextWindow), EMPTY, EMPTY)
  }

  // ---- invariants ------------------------------------------------------------

  /** What is under way in the pipe, in order. */
  function Under(p: Pipe): Bytes { p.writeBuf + (p.copyBuf + p.readBuf) }

  /** The direction forwards a prefix of what it heard and is at most two buffers ahead with
      its credit. */
  predicate Carries(src: Leg, dst: Leg, p: Pipe)
  {
    && src.log == p.heard + src.inbox
    && Payload(dst.wire) <= Queued(p.heard)
    && src.consumed <= |Payload(dst.wire)| + 2 * COPY_BUFFER && src.consumed <= |Queued(p.heard)|
  }

  /** A half-close was heard for no more than has been delivered. */
  predicate FinReached(p: Pipe) { exists e <- p.heard :: e.GotFin? && e.upTo <= p.delivered }

  /** While the source is installed its credit follows the copy loop, and a direction is closed
      only with nothing on the way, after a half-close that was reached or with the session. */
  predicate Counts(src: Leg, dst: Leg, p: Pipe)
  {
    && (src.installed ==> src.consumed == |Payload(dst.wire)| + |p.writeBuf| + |p.copyBuf|)
    && p.delivered + |p.readBuf| == |Queued(p.heard)|
    && (p.finAt.Some? ==> GotFin(p.finAt.value) in p.heard)
    && (forall e <- p.heard :: e.GotFin? ==> p.finAt.Some? && e.upTo <= p.finAt.value)
    && (p.closed ==> p.writeBuf == [] && p.copyBuf == [] && (FinReached(p) || !src.sink))
  }

  /** While the copy loop runs, nothing is lost on the way. */
  predicate FlowOk(src: Leg, dst: Leg, p: Pipe)
  {
    && src.log == p.heard + src.inbox
    && Payload(dst.wire) + Under(p) == Queued(p.heard)
    && |p.copyBuf| <= COPY_BUFFER && |p.writeBuf| <= COPY_BUFFER
    && src.consumed <= |Payload(dst.wire)| + |p.writeBuf| + |p.copyBuf|
    && (HasFin(dst.wire) ==> p.closed) && (dst.finSent ==> p.closed)
    && |Queued(src.log)| <= src.received && Counts(src, dst, p)
  }

  predicate HopOk(h: Hop)
  {
    if h.over then
      && WireOk(h.inbound) && WireOk(h.next) && !h.inbound.sink && !h.next.sink
      && Carries(h.inbound, h.next, h.onward) && Carries(h.next, h.inbound, h.back)
    else
      && Quiet(h.inbound) && Quiet(h.next)
      && FlowOk(h.inbound, h.next, h.onward) && FlowOk(h.next, h.inbound, h.back)
  }

  lemma FlowCarries(src: Leg, dst: Leg, p: Pipe)
    requires FlowOk(src, dst, p)
    ensures Carries(src, dst, p)
  {
    assert Payload(dst.wire) <= Payload(dst.wire) + Under(p);
  }

  // ---- one direction keeps going ---------------------------------------------

  /** What a step of a direction leaves alone, for the other direction's sake. */
  predicate Leaves(src: Leg, dst: Leg, f: Flow)
  {
    && Quiet(f.src) && Quiet(f.dst) && Acts(src, f.src) && Acts(dst, f.dst)
    && Payload(f.src.wire) == Payload(src.wire) && HasFin(f.src.wire) == HasFin(src.wire) && f.src.finSent == src.finSent
    && f.dst.inbox == dst.inbox && f.dst.consumed == dst.consumed
  }

  lemma OtherKept(src: Leg, dst: Leg, f: Flow, q: Pipe)
    requires Leaves(src, dst, f) && FlowOk(dst, src, q)
    ensures FlowOk(f.dst, f.src, q)
  {
  }

  lemma HeardCarries(p: Pipe, e: Event, sent: Bytes)
    requires sent + Under(p) == Queued(p.heard)
    ensures sent + Under(Heard(p, e)) == Queued(p.heard + [e])
  {
    QueuedConcat(p.heard, [e]);
    assert [e][1..] == [];
    var data := if e.GotData? then e.bytes else [];
    assert Under(Heard(p, e)) == Under(p) + data;
    Assoc(sent, Under(p), data);
  }

  lemma HeardCounts(src: Leg, dst: Leg, p: Pipe, e: Event, rest: seq<Event>)
    requires Counts(src, dst, p) && |Payload(dst.wire)| + |Under(p)| == |Queued(p.heard)|
    ensures Counts(src.(inbox := rest), dst, Heard(p, e))
  {
    QueuedConcat(p.heard, [e]);
    assert [e][1..] == [];
    var p' := Heard(p, e);
    assert e in p'.heard && forall v <- p.heard :: v in p'.heard;
    if FinReached(p) {
      var v :| v in p.heard && v.GotFin? && v.upTo <= p.delivered;
      assert v in p'.heard;
    }
  }

  lemma AbsorbFlows(src: Leg, dst: Leg, p: Pipe, e: Event, rest: seq<Event>)
    requires FlowOk(src, dst, p) && src.inbox == [e] + rest
    ensures FlowOk(src.(inbox := rest), dst, Heard(p, e))
  {
    HeardCarries(p, e, Payload(dst.wire));
    assert |Payload(dst.wire) + Under(p)| == |Queued(p.heard)|;
    HeardCounts(src, dst, p, e, rest);
    Assoc(p.heard, [e], rest);
  }

  lemma PopLeaves(src: Leg, dst: Leg, f: Flow)
    requires Quiet(src) && Quiet(dst) && f.src == src.(inbox := f.src.inbox) && f.dst == dst
    ensures Leaves(src, dst, f)
  {
  }

  lemma AbsorbKeeps(src: Leg, dst: Leg, p: Pipe, f: Flow)
    requires Quiet(src) && Quiet(dst) && FlowOk(src, dst, p) && f == Flows(src, dst, p, Absorb)
    ensures Leaves(src, dst, f) && f.ok && FlowOk(f.src, f.dst, f.pipe)
  {
    PopLeaves(src, dst, f);
    if src.inbox != [] {
      assert src.inbox == [src.inbox[0]] + src.inbox[1..];
      AbsorbFlows(src, dst, p, src.inbox[0], src.inbox[1..]);
    }
  }

  lemma CopyKeeps(src: Leg, dst: Leg, p: Pipe, n: nat, f: Flow)
    requires Quiet(src) && Quiet(dst) && FlowOk(src, dst, p) && f == Flows(src, dst, p, Copy(n))
    ensures Leaves(src, dst, f) && f.ok && FlowOk(f.src, f.dst, f.pipe)
  {
    if !(p.closed || n == 0 || n > |p.readBuf| || |p.copyBuf| + n > COPY_BUFFER) {
      var s := Consume(src, n);
      QueuedConcat(p.heard, src.inbox);
      assert |Payload(dst.wire) + Under(p)| == |Queued(p.heard)|;
      ConsumeKeeps(src, n, s);
      ConsumeStill(src, n);
      Splice(p.copyBuf, p.readBuf, n);
    }
  }

  lemma PartlySent(src: Leg, dst: Leg, p: Pipe, out: Bytes, rest: Bytes, k: nat, l: Leg)
    requires FlowOk(src, dst, p) && Under(p) == out + rest && k <= |out| && Sends(dst, out[..k], l)
    ensures Payload(l.wire) <= Queued(p.heard) && |Payload(dst.wire)| <= |Payload(l.wire)|
  {
    assert Payload(dst.wire) + out[..k] <= Payload(dst.wire) + (out + rest);
  }

  /** A buffer offered to the target stream: sent, kept, or sent in part and then over. */
  lemma SentKeeps(src: Leg, dst: Leg, p: Pipe, out: Bytes, rest: Bytes, s: Sending, f: Flow)
    requires Quiet(src) && Quiet(dst) && FlowOk(src, dst, p) && Under(p) == out + rest && out != []
    requires s == SendData(dst, out) && f.src == src && f.dst == Outcome(s, dst) && f.ok == !s.Broken?
    requires f.pipe == p.(writeBuf := f.pipe.writeBuf, copyBuf := f.pipe.copyBuf)
    requires s.Sent? ==> Under(f.pipe) == rest && |f.pipe.writeBuf| + |f.pipe.copyBuf| + |out| == |p.writeBuf| + |p.copyBuf|
    requires s.CreditExceeded? ==> Under(f.pipe) == Under(p) && |f.pipe.writeBuf| + |f.pipe.copyBuf| == |p.writeBuf| + |p.copyBuf|
    requires |f.pipe.copyBuf| <= COPY_BUFFER && |f.pipe.writeBuf| <= COPY_BUFFER
    requires match s
             case Sent(l') => Sends(dst, out, l') && Still(dst, l')
             case Broken(l') => Still(dst, l') && exists k :: 0 <= k < |out| && Sends(dst, out[..k], l')
             case CreditExceeded => true
    ensures Leaves(src, dst, f) && Carries(f.src, f.dst, f.pipe) && (f.ok ==> FlowOk(f.src, f.dst, f.pipe))
  {
    match s {
      case Sent(l) =>
        Assoc(Payload(dst.wire), out, rest);
        FlowCarries(f.src, f.dst, f.pipe);
      case CreditExceeded => FlowCarries(f.src, f.dst, f.pipe);
      case Broken(l) =>
        var k :| 0 <= k < |out| && Sends(dst, out[..k], l);
        PartlySent(src, dst, p, out, rest, k, l);
    }
  }

  lemma OfferKeeps(src: Leg, dst: Leg, p: Pipe, f: Flow)
    requires Quiet(src) && Quiet(dst) && FlowOk(src, dst, p) && f == Flows(src, dst, p, Offer)
    ensures Leaves(src, dst, f) && Carries(f.src, f.dst, f.pipe) && (f.ok ==> FlowOk(f.src, f.dst, f.pipe))
  {
    FlowCarries(src, dst, p);
    if !(p.closed || p.copyBuf == [] || p.writeBuf != []) {
      SendDataKeeps(dst, p.copyBuf);
      SendDataStill(dst, p.copyBuf);
      assert [] + (p.copyBuf + p.readBuf) == p.copyBuf + p.readBuf == p.copyBuf + ([] + p.readBuf);
      SentKeeps(src, dst, p, p.copyBuf, p.readBuf, SendData(dst, p.copyBuf), f);
    }
  }

  lemma FlushKeeps(src: Leg, dst: Leg, p: Pipe, f: Flow)
    requires Quiet(src) && Quiet(dst) && FlowOk(src, dst, p) && f == Flows(src, dst, p, Flush)
    ensures Leaves(src, dst, f) && Carries(f.src, f.dst, f.pipe) && (f.ok ==> FlowOk(f.src, f.dst, f.pipe))
  {
    FlowCarries(src, dst, p);
    if !(p.closed || p.writeBuf == []) {
      SendDataKeeps(dst, p.writeBuf);
      SendDataStill(dst, p.writeBuf);
      assert [] + (p.copyBuf + p.readBuf) == p.copyBuf + p.readBuf;
      SentKeeps(src, dst, p, p.writeBuf, p.copyBuf + p.readBuf, SendData(dst, p.writeBuf), f);
    }
  }

  lemma FinishKeeps(src: Leg, dst: Leg, p: Pipe, f: Flow)
    requires Quiet(src) && Quiet(dst) && FlowOk(src, dst, p) && f == Flows(src, dst, p, Finish)
    ensures Leaves(src, dst, f) && FlowOk(f.src, f.dst, f.pipe)
  {
    if !(p.closed || !AtEof(src, p)) {
      SendFinKeeps(dst);
      SendFinStill(dst);
    }
  }

  lemma BrokenKeeps(src: Leg, dst: Leg, p: Pipe, f: Flow)
    requires Quiet(src) && Quiet(dst) && FlowOk(src, dst, p) && f.src == src && f.dst == dst && f.pipe == p
    ensures Leaves(src, dst, f) && Carries(f.src, f.dst, f.pipe) && FlowOk(f.src, f.dst, f.pipe)
  {
    PopLeaves(src, dst, f);
    FlowCarries(src, dst, p);
  }

  lemma FlowsKeeps(src: Leg, dst: Leg, p: Pipe, act: Act, f: Flow)
    requires Quiet(src) && Quiet(dst) && FlowOk(src, dst, p) && f == Flows(src, dst, p, act)
    ensures Leaves(src, dst, f) && Carries(f.src, f.dst, f.pipe) && (f.ok ==> FlowOk(f.src, f.dst, f.pipe))
  {
    match act {
      case Absorb =>
        AbsorbKeeps(src, dst, p, f);
        FlowCarries(f.src, f.dst, f.pipe);
      case Copy(n) =>
        CopyKeeps(src, dst, p, n, f);
        FlowCarries(f.src, f.dst, f.pipe);
      case Offer => OfferKeeps(src, dst, p, f);
      case Flush => FlushKeeps(src, dst, p, f);
      case Finish =>
        FinishKeeps(src, dst, p, f);
        FlowCarries(f.src, f.dst, f.pipe);
      case ReadFails => BrokenKeeps(src, dst, p, f);
      case WriteFails => BrokenKeeps(src, dst, p, f);
    }
  }

  // ---- the hop ---------------------------------------------------------------

  /** Both legs after a drop, with or without a reset. */
  lemma DropKeeps(h: Hop, l: Leg)
    requires !h.over && WireOk(h.inbound) && WireOk(h.next)
    requires Carries(h.inbound, h.next, h.onward) && Carries(h.next, h.inbound, h.back)
    requires l == h.inbound.(wire := l.wire, left := l.left, installed := l.installed)
    requires Read(l.wire) == Read(h.inbound.wire).(resets := Read(l.wire).resets)
    ensures HopOk(Drop(h.(inbound := l)))
  {
  }

  lemma GoOnKeeps(h: Hop, ok: bool)
    requires !h.over && Quiet(h.inbound) && Quiet(h.next)
    requires Carries(h.inbound, h.next, h.onward) && Carries(h.next, h.inbound, h.back)
    requires ok ==> FlowOk(h.inbound, h.next, h.onward) && FlowOk(h.next, h.inbound, h.back)
    ensures HopOk(GoOn(h, ok))
  {
    SendResetKeeps(h.inbound, Unreachable_);
    DropKeeps(h, h.inbound);
    DropKeeps(h, SendReset(h.inbound, Unreachable_));
  }

  lemma OnwardKeeps(h: Hop, act: Act, f: Flow)
    requires HopOk(h) && !h.over && f == Flows(h.inbound, h.next, h.onward, act)
    ensures HopOk(GoOn(h.(inbound := f.src, next := f.dst, onward := f.pipe), f.ok))
  {
    FlowsKeeps(h.inbound, h.next, h.onward, act, f);
    OtherKept(h.inbound, h.next, f, h.back);
    FlowCarries(f.dst, f.src, h.back);
    GoOnKeeps(h.(inbound := f.src, next := f.dst, onward := f.pipe), f.ok);
  }

  lemma BackKeeps(h: Hop, act: Act, f: Flow)
    requires HopOk(h) && !h.over && f == Flows(h.next, h.inbound, h.back, act)
    ensures HopOk(GoOn(h.(next := f.src, inbound := f.dst, back := f.pipe), f.ok))
  {
    FlowsKeeps(h.next, h.inbound, h.back, act, f);
    OtherKept(h.next, h.inbound, f, h.onward);
    FlowCarries(f.dst, f.src, h.onward);
    GoOnKeeps(h.(next := f.src, inbound := f.dst, back := f.pipe), f.ok);
  }

  lemma FlowReceives(src: Leg, dst: Leg, p: Pipe, src': Leg, news: seq<Event>)
    requires FlowOk(src, dst, p) && Receives(src, src', news)
    ensures FlowOk(src', dst, p)
  {
    Assoc(p.heard, src.inbox, news);
    QueuedConcat(src.log, news);
  }

  lemma ArriveKeeps(h: Hop, side: Side, m: Inbound)
    requires HopOk(h) && !h.over
    ensures HopOk(Step(h, Arrive(side, m)))
  {
    match side {
      case Inbound_ =>
        var news := DispatchKeeps(h.inbound, m);
        ReceivesSound(h.inbound, Dispatch(h.inbound, m), news);
        FlowReceives(h.inbound, h.next, h.onward, Dispatch(h.inbound, m), news);
      case Next_ =>
        var news := DispatchKeeps(h.next, m);
        ReceivesSound(h.next, Dispatch(h.next, m), news);
        FlowReceives(h.next, h.inbound, h.back, Dispatch(h.next, m), news);
    }
  }

  lemma StepKeeps(h: Hop, m: Move)
    requires HopOk(h)
    ensures HopOk(Step(h, m))
  {
    if h.over { return; }
    match m {
      case Arrive(side, inbound) => ArriveKeeps(h, side, inbound);
      case Onward(act) => OnwardKeeps(h, act, Flows(h.inbound, h.next, h.onward, act));
      case Back(act) => BackKeeps(h, act, Flows(h.next, h.inbound, h.back, act));
    }
  }

  lemma EmptyFlows(src: Leg, dst: Leg)
    requires src.log == [] && src.inbox == [] && src.consumed == 0 && Payload(dst.wire) == [] && !HasFin(dst.wire) && !dst.finSent
    ensures FlowOk(src, dst, EMPTY)
  {
    assert Queued([]) == [];
  }

  lemma AnsweredIsQuiet(window: nat)
    ensures var l := SendOpenResult(Fresh(window), Ok).leg;
            && Quiet(l) && Payload(l.wire) == [] && !HasFin(l.wire) && l == Fresh(window).(wire := [OpenResult(Ok), Ready])
  {
    var l := Fresh(window);
    Append([], OpenResult(Ok));
    Append([OpenResult(Ok)], Ready);
    assert [] + [OpenResult(Ok)] == [OpenResult(Ok)] && [OpenResult(Ok)] + [Ready] == [OpenResult(Ok), Ready];
    assert Read([]) == Tally([], 0, 0, 0, 0, 0, true);
  }

  lemma FreshIsQuiet(window: nat)
    ensures Quiet(Fresh(window)) && Payload(Fresh(window).wire) == [] && !HasFin(Fresh(window).wire)
  {
  }

  lemma OpenedOk(inboundWindow: nat, nextWindow: nat)
    ensures HopOk(Opened(inboundWindow, nextWindow))
  {
    AnsweredIsQuiet(inboundWindow);
    FreshIsQuiet(nextWindow);
    var h := Opened(inboundWindow, nextWindow);
    EmptyFlows(h.inbound, h.next);
    EmptyFlows(h.next, h.inbound);
  }

  lemma GoOnActs(h: Hop, ok: bool, inbound: Leg, next: Leg)
    requires Acts(inbound, h.inbound) && Acts(next, h.next)
    ensures Acts(inbound, GoOn(h, ok).inbound) && Acts(next, GoOn(h, ok).next)
  {
    ResetStill(h.inbound, Unreachable_);
    ResetStill(h.next, Unreachable_);
    ActsTrans(inbound, h.inbound, GoOn(h, ok).inbound);
    ActsTrans(next, h.next, GoOn(h, ok).next);
  }

  /** Whatever the hop does on its own, it only adds to its legs. */
  lemma StepActs(h: Hop, m: Move)
    requires HopOk(h) && !m.Arrive?
    ensures Acts(h.inbound, Step(h, m).inbound) && Acts(h.next, Step(h, m).next)
  {
    if h.over { return; }
    match m {
      case Onward(act) =>
        var f := Flows(h.inbound, h.next, h.onward, act);
        FlowsKeeps(h.inbound, h.next, h.onward, act, f);
        GoOnActs(h.(inbound := f.src, next := f.dst, onward := f.pipe), f.ok, h.inbound, h.next);
      case Back(act) =>
        var f := Flows(h.next, h.inbound, h.back, act);
        FlowsKeeps(h.next, h.inbound, h.back, act, f);
        GoOnActs(h.(next := f.src, inbound := f.dst, back := f.pipe), f.ok, h.inbound, h.next);
    }
  }
}
