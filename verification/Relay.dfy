/** Bridging a caller's stream to a Hub-initiated stream on another node
    (crates/wsnet-hub/src/relay.rs): the open handshake, the pump and the ways out. */
module Relay {
  import opened Limits
  import opened StreamEngine

  datatype Side = Caller | Publisher

  datatype Phase = Opening(accepted: bool) | Pumping | Ended

  /** One scheduling choice of the environment: a record arrives on a leg, the bridge
      task takes the next event of a leg, or the open deadline passes. */
  datatype Move = Arrive(side: Side, inbound: Inbound) | Take(from: Side) | Deadline

  datatype Bridge = Bridge(
    phase: Phase,
    caller: Leg,
    publisher: Leg,
    toPublisher: Bytes,
    toCaller: Bytes,
    callerFin: bool,
    publisherFin: bool,
    callerFinSent: bool,
    publisherFinSent: bool,
    closing: Option<ResetReason>,   // the reason the pump broke off with
    // What the bridge has taken into its buffers, and every event it has taken off a queue.
    fromCaller: Bytes,
    fromPublisher: Bytes,
    heardCaller: seq<Event>,
    heardPublisher: seq<Event>)

  // ---- pushing a buffer into a leg -------------------------------------------

  datatype Pushed = Pushed(leg: Leg, pending: Bytes, ok: bool)

  /** What `push` achieves: the longest prefix the leg's credit admits goes out. When
      sealing fails nothing is drained, whatever part of it is on the wire by then. */
  function PushSpec(l: Leg, pending: Bytes): Pushed
  {
    var take := Min(Minus(l.sendLimit, l.sendOffset), |pending|);
    if pending == [] then Pushed(l, [], true)
    else if !l.installed then Pushed(l, pending, false)
    else if take == 0 then Pushed(l, pending, true)
    else
      match SendData(l, pending[..take])
      case Sent(l') => Pushed(l', pending[take..], true)
      case Broken(l') => Pushed(l', pending, false)
      case CreditExceeded => Pushed(l, pending, true)
  }

  method Push(leg: Leg, buffer: Bytes) returns (r: Pushed)
    ensures r == PushSpec(leg, buffer)
  {
    var l, pending := leg, buffer;
    while pending != []
      invariant PushSpec(l, pending) == PushSpec(leg, buffer)
      decreases |pending|
    {
      match SendData(l, pending) {
        case Sent(l') =>
          assert pending[..|pending|] == pending;
          l, pending := l', [];
        case CreditExceeded =>
          var room := Minus(l.sendLimit, l.sendOffset);
          if room == 0 { return Pushed(l, pending, true); }
          var take := Min(room, |pending|);
          var part := SendData(l, pending[..take]);
          if !part.Sent? { return Pushed(part.after, pending, false); }
          l, pending := part.leg, pending[take..];
        case Broken(l') =>
          assert pending[..|pending|] == pending;
          return Pushed(l', pending, false);
      }
    }
    return Pushed(l, pending, true);
  }

  // ---- one direction of a pump turn ------------------------------------------

  datatype Carried = Carried(src: Leg, dst: Leg, buf: Bytes, ok: bool)

  function Settle(src: Leg, buf: Bytes, p: Pushed): Carried
  {
    var sent := |buf| - |p.pending|;
    if !p.ok then Carried(src, p.leg, p.pending, false)
    else if sent <= 0 then Carried(src, p.leg, p.pending, true)
    else
      match Consume(src, sent)
      case Sent(src') => Carried(src', p.leg, p.pending, true)
      case Broken(src') => Carried(src', p.leg, p.pending, false)
      case CreditExceeded => Carried(src, p.leg, p.pending, false)
  }

  /** Hands `buf` to `dst`, then grants `src` the credit it earned. */
  function Carry(src: Leg, dst: Leg, buf: Bytes): Carried { Settle(src, buf, PushSpec(dst, buf)) }

  datatype HalfClosed = HalfClosed(leg: Leg, sent: bool, ok: bool)

  function HalfClose(dst: Leg, seen: bool, sent: bool, buf: Bytes): HalfClosed
  {
    if seen && !sent && buf == [] then
      match SendFin(dst)
      case Sent(l) => HalfClosed(l, true, true)
      case Broken(l) => HalfClosed(l, false, false)
      case CreditExceeded => HalfClosed(dst, false, false)
    else HalfClosed(dst, sent, true)
  }

  /** The invariant of one direction: what `dst` was sent plus what is buffered is what
      was taken from `src`, and `src` was credited for exactly what was sent. */
  predicate Lane(src: Leg, dst: Leg, buf: Bytes, taken: Bytes, seen: bool, sent: bool)
  {
    && Payload(dst.wire) + buf == taken
    && src.consumed == |Payload(dst.wire)|
    && |taken| + |Queued(src.inbox)| <= src.received
    && (sent <==> HasFin(dst.wire))
    && dst.finSent == sent
    && (sent ==> seen && buf == [])
  }

  /** No byte waits for credit that is already there, unless a wake-up is queued. */
  predicate Prompt(dst: Leg, buf: Bytes)
  {
    buf == [] || dst.sendLimit <= dst.sendOffset || GotProgress in dst.inbox || !dst.sink
  }

  /** What `push` promises about the leg and about the bytes it did not send. */
  predicate PushOutcome(l: Leg, buf: Bytes, p: Pushed)
  {
    && Quiet(p.leg)
    && Read(p.leg.wire) == Read(l.wire).(payload := Payload(p.leg.wire))
    && p.leg == l.(wire := p.leg.wire, sendOffset := |Payload(p.leg.wire)|, left := p.leg.left)
    && |Payload(l.wire)| <= |Payload(p.leg.wire)|
    && (p.ok ==> Payload(p.leg.wire) + p.pending == Payload(l.wire) + buf && |p.pending| <= |buf|)
    && (!p.ok ==> p.pending == buf && Payload(p.leg.wire) <= Payload(l.wire) + buf)
    && (p.ok && p.pending != [] ==> p.leg.sendOffset == p.leg.sendLimit)
  }

  lemma PartlyPushed(l: Leg, buf: Bytes, take: nat, k: nat, l': Leg)
    requires Quiet(l) && k <= take <= |buf| && Sends(l, buf[..take][..k], l')
    ensures PushOutcome(l, buf, Pushed(l', buf, false))
  {
    assert buf[..take][..k] == buf[..k];
    assert Payload(l.wire) + buf[..k] <= Payload(l.wire) + buf;
  }

  lemma PushKeeps(l: Leg, buf: Bytes)
    requires Quiet(l) && (HasFin(l.wire) ==> buf == [])
    ensures PushOutcome(l, buf, PushSpec(l, buf))
  {
    var take := Min(Minus(l.sendLimit, l.sendOffset), |buf|);
    if buf != [] && take > 0 && l.installed {
      SendDataKeeps(l, buf[..take]);
      match SendData(l, buf[..take]) {
        case Sent(l') => Splice(Payload(l.wire), buf, take);
        case Broken(l') =>
          var k :| 0 <= k < |buf[..take]| && Sends(l, buf[..take][..k], l');
          PartlyPushed(l, buf, take, k, l');
      }
    }
  }

  /** What holds of a direction after it was carried, even when carrying failed. */
  predicate CarryOutcome(src: Leg, dst: Leg, taken: Bytes, c: Carried)
  {
    && Quiet(c.src) && Quiet(c.dst)
    && Payload(c.dst.wire) <= taken && c.src.consumed <= |Payload(c.dst.wire)|
    && Read(c.dst.wire) == Read(dst.wire).(payload := Payload(c.dst.wire))
    && Read(c.src.wire) == Read(src.wire).(promised := Read(c.src.wire).promised)
    && (HasFin(c.dst.wire) ==> Payload(c.dst.wire) == taken)
    && c.dst == dst.(wire := c.dst.wire, sendOffset := c.dst.sendOffset, left := c.dst.left)
    && c.src == src.(wire := c.src.wire, consumed := c.src.consumed, granted := c.src.granted, left := c.src.left)
  }

  lemma PushedLane(src: Leg, dst: Leg, buf: Bytes, taken: Bytes, seen: bool, sent: bool, p: Pushed)
    requires Quiet(src) && Quiet(dst) && Lane(src, dst, buf, taken, seen, sent)
    requires PushOutcome(dst, buf, p)
    ensures CarryOutcome(src, dst, taken, Carried(src, p.leg, p.pending, p.ok))
    ensures p.ok && |buf| == |p.pending| ==> Lane(src, p.leg, p.pending, taken, seen, sent)
    ensures p.ok ==> Prompt(p.leg, p.pending)
  {
  }

  lemma GrantedLane(src: Leg, dst: Leg, buf: Bytes, taken: Bytes, seen: bool, sent: bool, p: Pushed, src': Leg)
    requires Quiet(src) && Quiet(dst) && Lane(src, dst, buf, taken, seen, sent)
    requires PushOutcome(dst, buf, p) && p.ok && |buf| > |p.pending| && Grants(src, |buf| - |p.pending|, src')
    ensures CarryOutcome(src, dst, taken, Carried(src', p.leg, p.pending, p.ok))
    ensures src'.consumed == src.consumed + (|buf| - |p.pending|) ==> Lane(src', p.leg, p.pending, taken, seen, sent)
  {
  }

  lemma SettleKeeps(src: Leg, dst: Leg, buf: Bytes, taken: Bytes, seen: bool, sent: bool, p: Pushed, c: Carried)
    requires Quiet(src) && Quiet(dst) && Lane(src, dst, buf, taken, seen, sent)
    requires PushOutcome(dst, buf, p) && c == Settle(src, buf, p)
    ensures CarryOutcome(src, dst, taken, c)
    ensures c.ok ==> Lane(c.src, c.dst, c.buf, taken, seen, sent) && Prompt(c.dst, c.buf)
  {
    PushedLane(src, dst, buf, taken, seen, sent, p);
    if p.ok && |buf| > |p.pending| {
      var n := |buf| - |p.pending|;
      ConsumeKeeps(src, n, Consume(src, n));
      GrantedLane(src, dst, buf, taken, seen, sent, p, c.src);
    }
  }

  /** One direction of a turn keeps the direction's invariant, whether or not it fails,
      and on success leaves nothing waiting that the far leg would accept. */
  lemma CarryKeeps(src: Leg, dst: Leg, buf: Bytes, taken: Bytes, seen: bool, sent: bool)
    requires Quiet(src) && Quiet(dst) && Lane(src, dst, buf, taken, seen, sent)
    ensures var c := Carry(src, dst, buf);
            && CarryOutcome(src, dst, taken, c)
            && (c.ok ==> Lane(c.src, c.dst, c.buf, taken, seen, sent) && Prompt(c.dst, c.buf))
  {
    PushKeeps(dst, buf);
    SettleKeeps(src, dst, buf, taken, seen, sent, PushSpec(dst, buf), Carry(src, dst, buf));
  }

  lemma HalfCloseKeeps(dst: Leg, seen: bool, sent: bool, buf: Bytes)
    requires Quiet(dst) && dst.finSent == sent && (sent <==> HasFin(dst.wire))
    ensures var h := HalfClose(dst, seen, sent, buf);
            && HalfCloses(dst, h.leg)
            && (h.ok ==> h.leg.finSent == h.sent && (h.sent <==> HasFin(h.leg.wire)))
            && (h.ok ==> (h.sent <==> sent || (seen && buf == [])))
            && (!h.ok ==> !HasFin(h.leg.wire))
  {
    if !sent { SendFinKeeps(dst); }
  }

  // ---- the pump --------------------------------------------------------------

  /** Resets whichever leg is not done yet and releases both local mappings. */
  function TearDown(b: Bridge, callerDone: bool, publisherDone: bool, reason: ResetReason): Bridge
  {
    b.(phase := Ended, closing := Some(reason),
       publisher := Release(if publisherDone then b.publisher else SendReset(b.publisher, reason)),
       caller := Release(if callerDone then b.caller else SendReset(b.caller, reason)))
  }

  /** The half-closes of a turn, once both buffers were carried. */
  function FinishTurn(b: Bridge): Bridge
  {
    var p := HalfClose(b.publisher, b.callerFin, b.publisherFinSent, b.toPublisher);
    var b1 := b.(publisher := p.leg, publisherFinSent := p.sent);
    if !p.ok then TearDown(b1, false, false, Unreachable_)
    else
      var c := HalfClose(b1.caller, b1.publisherFin, b1.callerFinSent, b1.toCaller);
      var b2 := b1.(caller := c.leg, callerFinSent := c.sent);
      if !c.ok then TearDown(b2, false, false, Unreachable_)
      else if b2.callerFinSent && b2.publisherFinSent then TearDown(b2, true, true, Canceled)
      else b2
  }

  /** One pass of the loop body up to the wait. */
  function Turn(b: Bridge): Bridge
  {
    var there := Carry(b.caller, b.publisher, b.toPublisher);
    var b1 := b.(caller := there.src, publisher := there.dst, toPublisher := there.buf);
    if !there.ok then TearDown(b1, false, false, Unreachable_)
    else
      var back := Carry(b1.publisher, b1.caller, b1.toCaller);
      var b2 := b1.(publisher := back.src, caller := back.dst, toCaller := back.buf);
      if !back.ok then TearDown(b2, false, false, Unreachable_)
      else FinishTurn(b2)
  }

  function OnCallerEvent(b: Bridge, e: Event): Bridge
  {
    match e
    case GotData(bytes) =>
      if b.callerFin then TearDown(b, false, false, ProtocolError)
      else Turn(b.(toPublisher := b.toPublisher + bytes, fromCaller := b.fromCaller + bytes))
    case GotFin(_) => Turn(b.(callerFin := true))
    case GotReset(why) =>
      TearDown(b.(publisher := SendReset(b.publisher, why)), true, true, Canceled)
    case _ => Turn(b)
  }

  function OnPublisherEvent(b: Bridge, e: Event): Bridge
  {
    match e
    case GotData(bytes) =>
      if b.publisherFin then TearDown(b, false, false, ProtocolError)
      else Turn(b.(toCaller := b.toCaller + bytes, fromPublisher := b.fromPublisher + bytes))
    case GotFin(_) => Turn(b.(publisherFin := true))
    case GotReset(why) =>
      TearDown(b.(caller := SendReset(b.caller, why)), true, true, Canceled)
    case _ => Turn(b)
  }

  // ---- the handshake ---------------------------------------------------------

  /** `refuse_caller` then `release_caller` and, once it was opened, the publisher leg. */
  function RefuseCaller(l: Leg, status: OpenStatus): Leg
  {
    if !l.installed then l
    else
      match SendOpenResult(l, status)
      case Sent(l') => l'
      case _ => l
  }

  function ReleasePublisher(l: Leg): Leg
  {
    Release(if l.installed then SendReset(l, Canceled) else l)
  }

  function Abandon(b: Bridge, status: OpenStatus): Bridge
    requires status != Ok
  {
    b.(phase := Ended,
       caller := Release(RefuseCaller(b.caller, status)),
       publisher := ReleasePublisher(b.publisher))
  }

  function Withdraw(b: Bridge): Bridge
  {
    b.(phase := Ended, publisher := ReleasePublisher(b.publisher), caller := Release(b.caller))
  }

  /** `answer_caller`, and the first turn of the pump when the answer went out. */
  function AnswerCaller(b: Bridge): Bridge
  {
    if !b.caller.installed then Withdraw(b)
    else
      match SendOpenResult(b.caller, Ok)
      case Sent(l) => Turn(b.(phase := Pumping, caller := l))
      case Broken(l) => Withdraw(b.(caller := l))
      case CreditExceeded => Withdraw(b)
  }

  function OnOpeningEvent(b: Bridge, e: Event): Bridge
    requires b.phase.Opening?
  {
    match e
    case GotOpenResult(status) =>
      if status != Ok then Abandon(b, status) else b.(phase := Opening(true))
    case GotReady => if b.phase.accepted then AnswerCaller(b) else b
    case GotReset(_) => Abandon(b, Unreachable)
    case GotFin(_) => Abandon(b, Unreachable)
    case GotData(_) => Abandon(b, Unreachable)
    case _ => b
  }

  // ---- whole lives -----------------------------------------------------------

  datatype OpenAttempt = TooManyStreams | SessionDead | IdTaken | Opened

  function RefuseAtOnce(b: Bridge): Bridge
  {
    b.(phase := Ended, caller := Release(RefuseCaller(b.caller, Refused)))
  }

  /** `open_on_publisher` on a caller stream this task owns. A dead session leaves the
      entry `open` had inserted behind; a taken id is reset and refused. */
  function Begin(callerWindow: nat, publisherWindow: nat, attempt: OpenAttempt): Bridge
  {
    var b := Bridge(Opening(false), Fresh(callerWindow), Fresh(publisherWindow),
                    [], [], false, false, false, false, None, [], [], [], []);
    match attempt
    case Opened => b
    case TooManyStreams => RefuseAtOnce(b.(publisher := Release(b.publisher)))
    case SessionDead => RefuseAtOnce(b.(publisher := b.publisher.(left := Some(0), sink := false)))
    case IdTaken => RefuseAtOnce(b.(publisher := SendReset(b.publisher.(sink := false), Canceled)))
  }

  /** Takes the next event off a leg's queue. */
  function HearCaller(b: Bridge): Bridge
    requires b.caller.inbox != []
  {
    b.(caller := b.caller.(inbox := b.caller.inbox[1..]), heardCaller := b.heardCaller + [b.caller.inbox[0]])
  }

  function HearPublisher(b: Bridge): Bridge
    requires b.publisher.inbox != []
  {
    b.(publisher := b.publisher.(inbox := b.publisher.inbox[1..]),
       heardPublisher := b.heardPublisher + [b.publisher.inbox[0]])
  }

  function Step(b: Bridge, m: Move): Bridge
  {
    if b.phase.Ended? then b
    else
      match m
      case Arrive(Caller, inbound) => b.(caller := Dispatch(b.caller, inbound))
      case Arrive(Publisher, inbound) => b.(publisher := Dispatch(b.publisher, inbound))
      case Deadline => if b.phase.Opening? then Abandon(b, Timeout) else b
      case Take(Caller) =>
        if b.phase.Opening? then b
        else if b.caller.inbox != [] then
          OnCallerEvent(HearCaller(b), b.caller.inbox[0])
        else if !b.caller.sink then TearDown(b, true, false, Canceled)
        else b
      case Take(Publisher) =>
        if b.publisher.inbox != [] then
          var e := b.publisher.inbox[0];
          if b.phase.Opening? then OnOpeningEvent(HearPublisher(b), e) else OnPublisherEvent(HearPublisher(b), e)
        else if b.publisher.sink then b
        else if b.phase.Opening? then Abandon(b, Unreachable)
        else TearDown(b, false, true, Canceled)
  }

  function Life(b: Bridge, moves: seq<Move>): Bridge
    decreases |moves|
  {
    if moves == [] then b else Life(Step(b, moves[0]), moves[1..])
  }

  // ---- invariants ------------------------------------------------------------

  predicate Harmless(e: Event)
  {
    e == GotOpenResult(Ok) || e.GotReady? || e.GotProgress? || e.GotOther?
  }

  /** What must have been heard before the caller may be told `Ok`: nothing but harmless
      events, an accepting `OpenResult` and, after it, a `Ready`. */
  predicate Accepted(heard: seq<Event>)
  {
    exists i, j :: 0 <= i < j < |heard| && heard[i] == GotOpenResult(Ok) && heard[j] == GotReady
  }

  /** Both directions carry on and nothing has been torn down. */
  predicate Running(b: Bridge)
  {
    && Quiet(b.caller) && Quiet(b.publisher)
    && Lane(b.caller, b.publisher, b.toPublisher, b.fromCaller, b.callerFin, b.publisherFinSent)
    && Lane(b.publisher, b.caller, b.toCaller, b.fromPublisher, b.publisherFin, b.callerFinSent)
    && Read(b.publisher.wire).answers == 0
  }

  predicate AtOpening(b: Bridge)
  {
    && b.phase.Opening? && Running(b)
    && Read(b.caller.wire).answers == 0 && Read(b.caller.wire).accepts == 0
    && b.fromCaller == b.fromPublisher == [] && !b.callerFin && !b.publisherFin
    && (forall e <- b.heardPublisher :: Harmless(e))
    && (b.phase.accepted <==> GotOpenResult(Ok) in b.heardPublisher)
  }

  /** The state in which the pump waits for its next event. */
  predicate AtWait(b: Bridge)
  {
    && b.phase.Pumping? && Running(b)
    && Read(b.caller.wire).answers == Read(b.caller.wire).accepts == 1 && Accepted(b.heardPublisher)
    && Prompt(b.publisher, b.toPublisher) && Prompt(b.caller, b.toCaller)
    && (b.callerFin && b.toPublisher == [] ==> b.publisherFinSent)
    && (b.publisherFin && b.toCaller == [] ==> b.callerFinSent)
    && !(b.callerFinSent && b.publisherFinSent)
  }

  /** One direction after the end: an in-order prefix arrived, a half-close only after every
      byte taken, at most one reset, and no more credit than was forwarded. */
  predicate Settled(src: Leg, dst: Leg, taken: Bytes, seen: bool)
  {
    && WireOk(dst) && Read(dst.wire).resets <= 1
    && Payload(dst.wire) <= taken && src.consumed <= |Payload(dst.wire)|
    && (HasFin(dst.wire) ==> seen && Payload(dst.wire) == taken)
  }

  predicate AtEnd(b: Bridge)
  {
    && b.phase.Ended?
    && Settled(b.caller, b.publisher, b.fromCaller, b.callerFin)
    && Settled(b.publisher, b.caller, b.fromPublisher, b.publisherFin)
    && Read(b.publisher.wire).answers == 0
    && Read(b.caller.wire).answers <= 1
    && (Read(b.caller.wire).accepts > 0 ==> Accepted(b.heardPublisher))
    && (b.callerFinSent ==> HasFin(b.caller.wire)) && (b.publisherFinSent ==> HasFin(b.publisher.wire))
    && (HasFin(b.caller.wire) && HasFin(b.publisher.wire) ==>
          !HasReset(b.caller.wire) && !HasReset(b.publisher.wire))
    && !b.caller.sink && !b.caller.installed && !b.publisher.sink
  }

  // ---- proofs ----------------------------------------------------------------

  /** What a running bridge must satisfy for a tear-down to leave it in order. */
  predicate Stoppable(b: Bridge)
  {
    && Quiet(b.caller) && Quiet(b.publisher)
    && Settled(b.caller, b.publisher, b.fromCaller, b.callerFin)
    && Settled(b.publisher, b.caller, b.fromPublisher, b.publisherFin)
    && Read(b.publisher.wire).answers == 0
    && Read(b.caller.wire).answers <= 1
    && (Read(b.caller.wire).accepts > 0 ==> Accepted(b.heardPublisher))
    && (b.callerFinSent ==> HasFin(b.caller.wire)) && (b.publisherFinSent ==> HasFin(b.publisher.wire))
  }

  predicate HalfOpen(b: Bridge) { !(HasFin(b.caller.wire) && HasFin(b.publisher.wire)) }

  /** A leg that was let go: nothing but a reset was added, and at most one. */
  predicate Dropped(l: Leg, l': Leg)
  {
    && !l'.sink && !l'.installed
    && l'.consumed == l.consumed && l'.granted == l.granted && l'.window == l.window && l'.sendLimit == l.sendLimit
    && Read(l'.wire) == Read(l.wire).(resets := Read(l'.wire).resets) && Read(l'.wire).resets <= 1
  }

  lemma ResetDrops(l: Leg, reason: ResetReason)
    requires Quiet(l)
    ensures Dropped(l, Release(SendReset(l, reason))) && Dropped(l, Release(l))
    ensures !HasReset(Release(l).wire)
  {
    SendResetKeeps(l, reason);
  }

  lemma DroppedIsEnd(b: Bridge, e: Bridge)
    requires Stoppable(b) && Dropped(b.caller, e.caller) && Dropped(b.publisher, e.publisher)
    requires e == b.(phase := Ended, closing := e.closing, caller := e.caller, publisher := e.publisher)
    requires HalfOpen(b) || (!HasReset(e.caller.wire) && !HasReset(e.publisher.wire))
    ensures AtEnd(e) && !e.publisher.installed
  {
  }

  lemma TearDownEnds(b: Bridge, callerDone: bool, publisherDone: bool, reason: ResetReason)
    requires Stoppable(b) && (HalfOpen(b) || (callerDone && publisherDone))
    ensures AtEnd(TearDown(b, callerDone, publisherDone, reason))
    ensures !TearDown(b, callerDone, publisherDone, reason).publisher.installed
  {
    ResetDrops(b.publisher, reason);
    ResetDrops(b.caller, reason);
    DroppedIsEnd(b, TearDown(b, callerDone, publisherDone, reason));
  }

  predicate Answered(b: Bridge)
  {
    Read(b.caller.wire).answers == Read(b.caller.wire).accepts == 1 && Accepted(b.heardPublisher)
  }

  lemma CarryThere(b: Bridge)
    requires Running(b) && Answered(b) && HalfOpen(b)
    ensures var c := Carry(b.caller, b.publisher, b.toPublisher);
            var b1 := b.(caller := c.src, publisher := c.dst, toPublisher := c.buf);
            && Stoppable(b1) && HalfOpen(b1)
            && (c.ok ==> Running(b1) && Answered(b1) && Prompt(b1.publisher, b1.toPublisher))
  {
    CarryKeeps(b.caller, b.publisher, b.toPublisher, b.fromCaller, b.callerFin, b.publisherFinSent);
  }

  lemma CarryBack(b: Bridge)
    requires Running(b) && Answered(b) && HalfOpen(b) && Prompt(b.publisher, b.toPublisher)
    ensures var c := Carry(b.publisher, b.caller, b.toCaller);
            var b2 := b.(publisher := c.src, caller := c.dst, toCaller := c.buf);
            && Stoppable(b2) && HalfOpen(b2)
            && (c.ok ==>
                  && Running(b2) && Answered(b2)
                  && Prompt(b2.publisher, b2.toPublisher) && Prompt(b2.caller, b2.toCaller))
  {
    CarryKeeps(b.publisher, b.caller, b.toCaller, b.fromPublisher, b.publisherFin, b.callerFinSent);
  }

  /** A bridge is either waiting for its next event or fully ended. */
  predicate Orderly(b: Bridge)
  {
    AtOpening(b) || AtWait(b) || (AtEnd(b) && !b.publisher.installed)
  }

  /** After both half-close attempts of a turn; `ok` when the second went through. */
  lemma BothHalfCloses(b: Bridge, b2: Bridge, ok: bool)
    requires b.phase.Pumping? && Running(b) && Answered(b)
    requires Prompt(b.publisher, b.toPublisher) && Prompt(b.caller, b.toCaller)
    requires HalfCloses(b.publisher, b2.publisher) && HalfCloses(b.caller, b2.caller)
    requires b2 == b.(publisher := b2.publisher, publisherFinSent := b2.publisherFinSent,
                      caller := b2.caller, callerFinSent := b2.callerFinSent)
    requires b2.publisher.finSent == b2.publisherFinSent && (b2.publisherFinSent <==> HasFin(b2.publisher.wire))
    requires b2.publisherFinSent <==> b.publisherFinSent || (b.callerFin && b.toPublisher == [])
    requires ok ==> b2.caller.finSent == b2.callerFinSent && (b2.callerFinSent <==> HasFin(b2.caller.wire))
    requires ok ==> (b2.callerFinSent <==> b.callerFinSent || (b.publisherFin && b.toCaller == []))
    requires !ok ==> !HasFin(b2.caller.wire) && !b2.callerFinSent
    ensures Stoppable(b2) && (!ok ==> HalfOpen(b2))
    ensures ok && !(b2.callerFinSent && b2.publisherFinSent) ==> AtWait(b2)
  {
  }

  lemma FinishSecond(b: Bridge, b1: Bridge)
    requires b.phase.Pumping? && Running(b) && Answered(b) && HalfOpen(b)
    requires Prompt(b.publisher, b.toPublisher) && Prompt(b.caller, b.toCaller)
    requires b1 == b.(publisher := b1.publisher, publisherFinSent := b1.publisherFinSent)
    requires HalfCloses(b.publisher, b1.publisher)
    requires b1.publisher.finSent == b1.publisherFinSent
    requires b1.publisherFinSent <==> HasFin(b1.publisher.wire)
    requires b1.publisherFinSent <==> b.publisherFinSent || (b.callerFin && b.toPublisher == [])
    ensures var c := HalfClose(b1.caller, b1.publisherFin, b1.callerFinSent, b1.toCaller);
            var b2 := b1.(caller := c.leg, callerFinSent := c.sent);
            && (!c.ok ==> Orderly(TearDown(b2, false, false, Unreachable_)))
            && (c.ok && b2.callerFinSent && b2.publisherFinSent ==> Orderly(TearDown(b2, true, true, Canceled)))
            && (c.ok && !(b2.callerFinSent && b2.publisherFinSent) ==> Orderly(b2))
  {
    var c := HalfClose(b1.caller, b1.publisherFin, b1.callerFinSent, b1.toCaller);
    HalfCloseKeeps(b1.caller, b1.publisherFin, b1.callerFinSent, b1.toCaller);
    var b2 := b1.(caller := c.leg, callerFinSent := c.sent);
    BothHalfCloses(b, b2, c.ok);
    if !c.ok {
      TearDownEnds(b2, false, false, Unreachable_);
    } else if b2.callerFinSent && b2.publisherFinSent {
      TearDownEnds(b2, true, true, Canceled);
    }
  }

  lemma FinishTurnKeeps(b: Bridge)
    requires b.phase.Pumping? && Running(b) && Answered(b) && HalfOpen(b)
    requires Prompt(b.publisher, b.toPublisher) && Prompt(b.caller, b.toCaller)
    ensures Orderly(FinishTurn(b))
  {
    var p := HalfClose(b.publisher, b.callerFin, b.publisherFinSent, b.toPublisher);
    HalfCloseKeeps(b.publisher, b.callerFin, b.publisherFinSent, b.toPublisher);
    var b1 := b.(publisher := p.leg, publisherFinSent := p.sent);
    if !p.ok {
      TearDownEnds(b1, false, false, Unreachable_);
    } else {
      FinishSecond(b, b1);
    }
  }

  lemma TurnBack(b1: Bridge)
    requires b1.phase.Pumping? && Running(b1) && Answered(b1) && HalfOpen(b1) && Prompt(b1.publisher, b1.toPublisher)
    ensures var back := Carry(b1.publisher, b1.caller, b1.toCaller);
            var b2 := b1.(publisher := back.src, caller := back.dst, toCaller := back.buf);
            Orderly(if !back.ok then TearDown(b2, false, false, Unreachable_) else FinishTurn(b2))
  {
    CarryBack(b1);
    var back := Carry(b1.publisher, b1.caller, b1.toCaller);
    var b2 := b1.(publisher := back.src, caller := back.dst, toCaller := back.buf);
    if !back.ok {
      TearDownEnds(b2, false, false, Unreachable_);
    } else {
      FinishTurnKeeps(b2);
    }
  }

  lemma TurnKeeps(b: Bridge)
    requires b.phase.Pumping? && Running(b) && Answered(b) && HalfOpen(b)
    ensures Orderly(Turn(b))
  {
    CarryThere(b);
    var there := Carry(b.caller, b.publisher, b.toPublisher);
    var b1 := b.(caller := there.src, publisher := there.dst, toPublisher := there.buf);
    if !there.ok {
      TearDownEnds(b1, false, false, Unreachable_);
    } else {
      TurnBack(b1);
    }
  }

  /** A queued block fits the credit the source leg has been charged for. */
  predicate Charged(src: Leg, taken: Bytes, e: Event)
  {
    e.GotData? ==> |taken| + |e.bytes| + |Queued(src.inbox)| <= src.received
  }

  lemma CallerResetEnds(b: Bridge, why: ResetReason)
    requires Stoppable(b) && HalfOpen(b)
    ensures Orderly(TearDown(b.(publisher := SendReset(b.publisher, why)), true, true, Canceled))
  {
    ResetDrops(b.publisher, why);
    ResetDrops(b.caller, why);
    DroppedIsEnd(b, TearDown(b.(publisher := SendReset(b.publisher, why)), true, true, Canceled));
  }

  lemma PublisherResetEnds(b: Bridge, why: ResetReason)
    requires Stoppable(b) && HalfOpen(b)
    ensures Orderly(TearDown(b.(caller := SendReset(b.caller, why)), true, true, Canceled))
  {
    ResetDrops(b.publisher, why);
    ResetDrops(b.caller, why);
    DroppedIsEnd(b, TearDown(b.(caller := SendReset(b.caller, why)), true, true, Canceled));
  }

  lemma CallerDataKeeps(b: Bridge, bytes: Bytes, r: Bridge)
    requires b.phase.Pumping? && Running(b) && Answered(b) && HalfOpen(b) && Charged(b.caller, b.fromCaller, GotData(bytes))
    requires r == if b.callerFin then TearDown(b, false, false, ProtocolError)
                  else Turn(b.(toPublisher := b.toPublisher + bytes, fromCaller := b.fromCaller + bytes))
    ensures Orderly(r)
  {
    if b.callerFin {
      TearDownEnds(b, false, false, ProtocolError);
    } else {
      Assoc(Payload(b.publisher.wire), b.toPublisher, bytes);
      TurnKeeps(b.(toPublisher := b.toPublisher + bytes, fromCaller := b.fromCaller + bytes));
    }
  }

  lemma CallerEventKeeps(b: Bridge, e: Event)
    requires b.phase.Pumping? && Running(b) && Answered(b) && HalfOpen(b) && Charged(b.caller, b.fromCaller, e)
    ensures Orderly(OnCallerEvent(b, e))
  {
    assert Stoppable(b);
    match e {
      case GotData(bytes) =>
        CallerDataKeeps(b, bytes, OnCallerEvent(b, e));
      case GotFin(_) => TurnKeeps(b.(callerFin := true));
      case GotReset(why) => CallerResetEnds(b, why);
      case _ => TurnKeeps(b);
    }
  }

  lemma PublisherDataKeeps(b: Bridge, bytes: Bytes, r: Bridge)
    requires b.phase.Pumping? && Running(b) && Answered(b) && HalfOpen(b) && Charged(b.publisher, b.fromPublisher, GotData(bytes))
    requires r == if b.publisherFin then TearDown(b, false, false, ProtocolError)
                  else Turn(b.(toCaller := b.toCaller + bytes, fromPublisher := b.fromPublisher + bytes))
    ensures Orderly(r)
  {
    if b.publisherFin {
      TearDownEnds(b, false, false, ProtocolError);
    } else {
      Assoc(Payload(b.caller.wire), b.toCaller, bytes);
      TurnKeeps(b.(toCaller := b.toCaller + bytes, fromPublisher := b.fromPublisher + bytes));
    }
  }

  lemma PublisherEventKeeps(b: Bridge, e: Event)
    requires b.phase.Pumping? && Running(b) && Answered(b) && HalfOpen(b) && Charged(b.publisher, b.fromPublisher, e)
    ensures Orderly(OnPublisherEvent(b, e))
  {
    assert Stoppable(b);
    match e {
      case GotData(bytes) =>
        PublisherDataKeeps(b, bytes, OnPublisherEvent(b, e));
      case GotFin(_) => TurnKeeps(b.(publisherFin := true));
      case GotReset(why) => PublisherResetEnds(b, why);
      case _ => TurnKeeps(b);
    }
  }

  /** More events keep an accepted opening accepted. */
  lemma StillAccepted(heard: seq<Event>, e: Event)
    requires Accepted(heard)
    ensures Accepted(heard + [e])
  {
    var i, j :| 0 <= i < j < |heard| && heard[i] == GotOpenResult(Ok) && heard[j] == GotReady;
    assert (heard + [e])[i] == GotOpenResult(Ok) && (heard + [e])[j] == GotReady;
  }

  lemma CallerHeard(b: Bridge)
    requires AtWait(b) && b.caller.inbox != []
    ensures var b1 := HearCaller(b);
            Running(b1) && Answered(b1) && HalfOpen(b1) && Charged(b1.caller, b1.fromCaller, b.caller.inbox[0])
  {
  }

  lemma PublisherHeard(b: Bridge)
    requires AtWait(b) && b.publisher.inbox != []
    ensures var b1 := HearPublisher(b);
            Running(b1) && Answered(b1) && HalfOpen(b1) && Charged(b1.publisher, b1.fromPublisher, b.publisher.inbox[0])
  {
    StillAccepted(b.heardPublisher, b.publisher.inbox[0]);
  }

  lemma TakeCallerKeeps(b: Bridge, r: Bridge)
    requires AtWait(b) && b.caller.inbox != [] && r == OnCallerEvent(HearCaller(b), b.caller.inbox[0])
    ensures Orderly(r)
  {
    CallerHeard(b);
    CallerEventKeeps(HearCaller(b), b.caller.inbox[0]);
  }

  lemma TakePublisherKeeps(b: Bridge, r: Bridge)
    requires AtWait(b) && b.publisher.inbox != [] && r == OnPublisherEvent(HearPublisher(b), b.publisher.inbox[0])
    ensures Orderly(r)
  {
    PublisherHeard(b);
    PublisherEventKeeps(HearPublisher(b), b.publisher.inbox[0]);
  }

  /** A leg that was answered: one more `OpenResult`, and perhaps `Ready`. */
  predicate Answers(l: Leg, l': Leg, more: nat, accepting: nat)
  {
    && l'.consumed == l.consumed && l'.granted == l.granted && l'.window == l.window && l'.sendLimit == l.sendLimit
    && Read(l'.wire) == Read(l.wire).(answers := Read(l.wire).answers + more, accepts := Read(l.wire).accepts + accepting)
  }

  lemma RefuseKeeps(l: Leg, status: OpenStatus, l': Leg)
    requires Quiet(l) && status != Ok && l' == RefuseCaller(l, status)
    ensures Answers(l, l', 0, 0) || Answers(l, l', 1, 0)
  {
    Append(l.wire, OpenResult(status));
  }

  lemma PublisherDrops(l: Leg)
    requires Quiet(l)
    ensures Dropped(l, ReleasePublisher(l))
  {
    ResetDrops(l, Canceled);
  }

  /** An opening that ends: the caller got at most one answer, `Ok` only if it was earned. */
  lemma OpeningEnds(b: Bridge, e: Bridge, more: nat, accepting: nat)
    requires AtOpening(b) && Dropped(b.publisher, e.publisher) && Answers(b.caller, e.caller, more, accepting)
    requires e == b.(phase := Ended, caller := e.caller, publisher := e.publisher, heardPublisher := e.heardPublisher)
    requires !e.caller.sink && !e.caller.installed && accepting <= more <= 1
    requires accepting > 0 ==> Accepted(e.heardPublisher)
    ensures AtEnd(e) && !e.publisher.installed
  {
  }

  lemma AbandonEnds(b: Bridge, status: OpenStatus)
    requires AtOpening(b) && status != Ok
    ensures Orderly(Abandon(b, status))
  {
    var e := Abandon(b, status);
    RefuseKeeps(b.caller, status, RefuseCaller(b.caller, status));
    PublisherDrops(b.publisher);
    if Answers(b.caller, e.caller, 0, 0) { OpeningEnds(b, e, 0, 0); } else { OpeningEnds(b, e, 1, 0); }
  }

  lemma ControlNoted(w: seq<Record>, r: Record)
    requires r == OpenResult(Ok) || r == Ready
    ensures Read(w + [r]) == Note(Read(w), r) && Payload(w + [r]) == Payload(w) && HasFin(w + [r]) == HasFin(w) && HasReset(w + [r]) == HasReset(w)
    ensures !HasReset(w) && Disciplined(w) ==> Disciplined(w + [r])
    ensures Read(w + [r]).promised == Read(w).promised
  {
    Append(w, r);
  }

  lemma PutKeeps(l: Leg, r: Record, l': Leg)
    requires Quiet(l) && (r == OpenResult(Ok) || r == Ready) && l' == Put(l, r)
    ensures Quiet(l') && l' == l.(wire := l'.wire, left := l'.left) && Read(l'.wire) == Note(Read(l.wire), r)
  {
    ControlNoted(l.wire, r);
    assert l'.wire == l.wire + [r];
  }

  lemma OkOnWire(l: Leg, l1: Leg)
    requires Quiet(l) && l1 == Put(l, OpenResult(Ok))
    ensures Quiet(l1) && l1 == l.(wire := l1.wire, left := l1.left) && Answers(l, l1, 1, 1)
  {
    PutKeeps(l, OpenResult(Ok), l1);
  }

  lemma ReadyOnWire(l: Leg, l1: Leg, l2: Leg)
    requires Quiet(l1) && l1 == l.(wire := l1.wire, left := l1.left) && Answers(l, l1, 1, 1) && l2 == Put(l1, Ready)
    ensures Quiet(l2) && l2 == l.(wire := l2.wire, left := l2.left) && Answers(l, l2, 1, 1)
  {
    PutKeeps(l1, Ready, l2);
  }

  /** What telling the caller `Ok` puts on the wire, even when `Ready` no longer goes out. */
  lemma AcceptKeeps(l: Leg, s: Sending)
    requires Quiet(l) && s == SendOpenResult(l, Ok)
    ensures s.Sent? ==> Quiet(s.leg) && s.leg == l.(wire := s.leg.wire, left := s.leg.left) && Answers(l, s.leg, 1, 1)
    ensures s.Broken? ==> Answers(l, s.after, 0, 0) || Answers(l, s.after, 1, 1)
    ensures s.Broken? ==> s.after == l.(wire := s.after.wire, left := s.after.left)
    ensures !s.CreditExceeded?
  {
    var l1 := Put(l, OpenResult(Ok));
    OkOnWire(l, l1);
    ReadyOnWire(l, l1, Put(l1, Ready));
  }

  lemma WithdrawEnds(b: Bridge, l: Leg)
    requires AtOpening(b) && Accepted(b.heardPublisher) && l == b.caller.(wire := l.wire, left := l.left)
    requires Answers(b.caller, l, 0, 0) || Answers(b.caller, l, 1, 1)
    ensures Orderly(Withdraw(b.(caller := l)))
  {
    var e := Withdraw(b.(caller := l));
    PublisherDrops(b.publisher);
    if Answers(b.caller, l, 0, 0) { OpeningEnds(b, e, 0, 0); } else { OpeningEnds(b, e, 1, 1); }
  }

  lemma AnsweredTurns(b: Bridge, l: Leg)
    requires AtOpening(b) && Accepted(b.heardPublisher) && Quiet(l) && l == b.caller.(wire := l.wire, left := l.left)
    requires Answers(b.caller, l, 1, 1)
    ensures Orderly(Turn(b.(phase := Pumping, caller := l)))
  {
    TurnKeeps(b.(phase := Pumping, caller := l));
  }

  lemma AnswerKeeps(b: Bridge)
    requires AtOpening(b) && Accepted(b.heardPublisher)
    ensures Orderly(AnswerCaller(b))
  {
    if !b.caller.installed {
      WithdrawEnds(b, b.caller);
    } else {
      var s := SendOpenResult(b.caller, Ok);
      AcceptKeeps(b.caller, s);
      match s {
        case Sent(l) => AnsweredTurns(b, l);
        case Broken(l) => WithdrawEnds(b, l);
      }
    }
  }

  lemma HeardKeeps(b: Bridge, e: Event)
    requires AtOpening(b)
    ensures Orderly(OnOpeningEvent(b.(heardPublisher := b.heardPublisher + [e]), e))
  {
    var b1 := b.(heardPublisher := b.heardPublisher + [e]);
    if !Harmless(e) {
      var status := if e.GotOpenResult? then e.openStatus else Unreachable;
      AbandonEnds(b, status);
      assert OnOpeningEvent(b1, e) == Abandon(b, status).(heardPublisher := b1.heardPublisher);
    } else if e.GotReady? && b.phase.accepted {
      var i :| 0 <= i < |b.heardPublisher| && b.heardPublisher[i] == GotOpenResult(Ok);
      assert b1.heardPublisher[i] == GotOpenResult(Ok) && b1.heardPublisher[|b.heardPublisher|] == GotReady;
      AnswerKeeps(b1);
    }
  }

  lemma OpeningEventKeeps(b: Bridge)
    requires AtOpening(b) && b.publisher.inbox != []
    ensures Orderly(Step(b, Take(Publisher)))
  {
    HeardKeeps(b.(publisher := b.publisher.(inbox := b.publisher.inbox[1..])), b.publisher.inbox[0]);
  }

  lemma LaneReceives(src: Leg, dst: Leg, buf: Bytes, taken: Bytes, seen: bool, sent: bool, src': Leg, news: seq<Event>)
    requires Lane(src, dst, buf, taken, seen, sent) && Receives(src, src', news)
    ensures Lane(src', dst, buf, taken, seen, sent)
  {
    QueuedConcat(src.inbox, news);
  }

  lemma CallerReceives(b: Bridge, l: Leg, news: seq<Event>)
    requires (AtOpening(b) || AtWait(b)) && Receives(b.caller, l, news) && (Prompt(b.caller, b.toCaller) ==> Prompt(l, b.toCaller))
    ensures Orderly(b.(caller := l))
  {
    ReceivesSound(b.caller, l, news);
    LaneReceives(b.caller, b.publisher, b.toPublisher, b.fromCaller, b.callerFin, b.publisherFinSent, l, news);
  }

  lemma PublisherReceives(b: Bridge, l: Leg, news: seq<Event>)
    requires (AtOpening(b) || AtWait(b)) && Receives(b.publisher, l, news) && (Prompt(b.publisher, b.toPublisher) ==> Prompt(l, b.toPublisher))
    ensures Orderly(b.(publisher := l))
  {
    ReceivesSound(b.publisher, l, news);
    LaneReceives(b.publisher, b.caller, b.toCaller, b.fromPublisher, b.publisherFin, b.callerFinSent, l, news);
  }

  /** Credit that arrives for waiting bytes always leaves a wake-up behind. */
  lemma DispatchPrompt(l: Leg, m: Inbound, buf: Bytes)
    ensures Prompt(l, buf) ==> Prompt(Dispatch(l, m), buf)
  {
  }

  lemma ArriveKeeps(b: Bridge, side: Side, m: Inbound)
    requires AtOpening(b) || AtWait(b)
    ensures Orderly(Step(b, Arrive(side, m)))
  {
    match side {
      case Caller =>
        var news := DispatchKeeps(b.caller, m);
        DispatchPrompt(b.caller, m, b.toCaller);
        CallerReceives(b, Dispatch(b.caller, m), news);
      case Publisher =>
        var news := DispatchKeeps(b.publisher, m);
        DispatchPrompt(b.publisher, m, b.toPublisher);
        PublisherReceives(b, Dispatch(b.publisher, m), news);
    }
  }

  lemma StepKeeps(b: Bridge, m: Move)
    requires Orderly(b)
    ensures Orderly(Step(b, m))
  {
    if b.phase.Ended? { return; }
    match m {
      case Arrive(side, inbound) => ArriveKeeps(b, side, inbound);
      case Deadline => if b.phase.Opening? { AbandonEnds(b, Timeout); }
      case Take(Caller) =>
        if b.phase.Pumping? {
          if b.caller.inbox != [] { TakeCallerKeeps(b, Step(b, m)); }
          else { TearDownEnds(b, true, false, Canceled); }
        }
      case Take(Publisher) =>
        if b.phase.Opening? {
          if b.publisher.inbox != [] { OpeningEventKeeps(b); }
          else { AbandonEnds(b, Unreachable); }
        } else {
          if b.publisher.inbox != [] { TakePublisherKeeps(b, Step(b, m)); }
          else { TearDownEnds(b, false, true, Canceled); }
        }
    }
  }

  lemma {:induction false} LifeKeeps(b: Bridge, moves: seq<Move>)
    requires Orderly(b)
    ensures Orderly(Life(b, moves))
    decreases |moves|
  {
    if moves != [] {
      StepKeeps(b, moves[0]);
      LifeKeeps(Step(b, moves[0]), moves[1..]);
    }
  }

  // ---- theorems --------------------------------------------------------------

  /** At every wait of every run, in each direction: nothing is lost, repeated or
      reordered, credit granted to the source is exactly what was forwarded, what the
      bridge holds and what is queued for it fit the granted window together, no send
      passed the far leg's limit, and no byte waits beside usable credit. */
  lemma BridgeConserves(callerWindow: nat, publisherWindow: nat, moves: seq<Move>)
    ensures var b := Life(Begin(callerWindow, publisherWindow, Opened), moves);
            b.phase.Pumping? ==>
              && Payload(b.publisher.wire) + b.toPublisher == b.fromCaller
              && Payload(b.caller.wire) + b.toCaller == b.fromPublisher
              && b.caller.consumed == |Payload(b.publisher.wire)| <= b.publisher.sendLimit
              && b.publisher.consumed == |Payload(b.caller.wire)| <= b.caller.sendLimit
              && |b.toPublisher| + |Queued(b.caller.inbox)| <= b.caller.window
              && |b.toCaller| + |Queued(b.publisher.inbox)| <= b.publisher.window
              && Prompt(b.publisher, b.toPublisher) && Prompt(b.caller, b.toCaller)
  {
    var b0 := Begin(callerWindow, publisherWindow, Opened);
    assert AtOpening(b0);
    LifeKeeps(b0, moves);
    var b := Life(b0, moves);
    if b.phase.Pumping? {
      assert |b.fromCaller| == |Payload(b.publisher.wire)| + |b.toPublisher|;
      assert |b.fromPublisher| == |Payload(b.caller.wire)| + |b.toCaller|;
    }
  }

  lemma BlankEnds(c: Leg, p: Leg, e: Bridge)
    requires Quiet(c) && Quiet(p) && c.wire == [] && p.wire == [] && c.consumed == 0 && p.consumed == 0
    requires (Answers(c, e.caller, 0, 0) || Answers(c, e.caller, 1, 0)) && !e.caller.sink && !e.caller.installed
    requires WireOk(e.publisher) && e.publisher.consumed == 0 && !e.publisher.sink
    requires Read(e.publisher.wire) == Read([]).(resets := Read(e.publisher.wire).resets) && Read(e.publisher.wire).resets <= 1
    requires e.phase.Ended? && e.fromCaller == [] && e.fromPublisher == [] && !e.callerFinSent && !e.publisherFinSent
    ensures AtEnd(e) && Read(e.caller.wire).accepts == 0
  {
    assert Read([]) == Tally([], 0, 0, 0, 0, 0, true);
  }

  lemma RefusedAtOnce(callerWindow: nat, publisherWindow: nat, attempt: OpenAttempt)
    requires !attempt.Opened?
    ensures var b := Begin(callerWindow, publisherWindow, attempt);
            && AtEnd(b) && (b.publisher.installed <==> attempt.SessionDead?)
            && Read(b.caller.wire).accepts == 0
  {
    var c, p := Fresh(callerWindow), Fresh(publisherWindow);
    RefuseKeeps(c, Refused, RefuseCaller(c, Refused));
    SendResetKeeps(p.(sink := false), Canceled);
    var e := Begin(callerWindow, publisherWindow, attempt);
    BlankEnds(c, p, e);
  }

  lemma {:induction false} EndedStays(b: Bridge, moves: seq<Move>)
    requires b.phase.Ended?
    ensures Life(b, moves) == b
    decreases |moves|
  {
    if moves != [] {
      EndedStays(b, moves[1..]);
    }
  }

  /** On every way out, whatever the open attempt did: the caller's open got at most one
      answer and `Ok` only after the publisher's accepting `OpenResult` and then `Ready`;
      each leg got disciplined records, at most one reset, and a half-close only after
      every byte taken; two half-closes mean no reset; and both mappings are released,
      save the engine entry of an open that died while its record was being sent. */
  lemma BridgeEnds(callerWindow: nat, publisherWindow: nat, attempt: OpenAttempt, moves: seq<Move>)
    ensures var b := Life(Begin(callerWindow, publisherWindow, attempt), moves);
            && Read(b.caller.wire).answers <= 1
            && (Read(b.caller.wire).accepts > 0 ==> attempt.Opened? && Accepted(b.heardPublisher))
            && Disciplined(b.caller.wire) && Disciplined(b.publisher.wire)
            && (b.phase.Ended? ==>
                  AtEnd(b) && (b.publisher.installed <==> attempt.SessionDead?))
  {
    var b0 := Begin(callerWindow, publisherWindow, attempt);
    if attempt.Opened? {
      assert AtOpening(b0);
      LifeKeeps(b0, moves);
    } else {
      RefusedAtOnce(callerWindow, publisherWindow, attempt);
      EndedStays(b0, moves);
    }
  }

  // ---- the imperative pump ---------------------------------------------------

  method HandOver(source: Leg, target: Leg, buffer: Bytes) returns (c: Carried)
    ensures c == Carry(source, target, buffer)
  {
    var pushed := Push(target, buffer);
    if !pushed.ok { return Carried(source, pushed.leg, pushed.pending, false); }
    var sent := |buffer| - |pushed.pending|;
    if sent <= 0 { return Carried(source, pushed.leg, pushed.pending, true); }
    match Consume(source, sent) {
      case Sent(l) => c := Carried(l, pushed.leg, pushed.pending, true);
      case Broken(l) => c := Carried(l, pushed.leg, pushed.pending, false);
      case CreditExceeded => c := Carried(source, pushed.leg, pushed.pending, false);
    }
  }

  method PumpTurn(start: Bridge) returns (b: Bridge)
    requires start.phase.Pumping?
    ensures b == Turn(start) && !b.phase.Opening?
  {
    b := start;
    var there := HandOver(b.caller, b.publisher, b.toPublisher);
    b := b.(caller := there.src, publisher := there.dst, toPublisher := there.buf);
    if !there.ok { return TearDown(b, false, false, Unreachable_); }
    var back := HandOver(b.publisher, b.caller, b.toCaller);
    b := b.(publisher := back.src, caller := back.dst, toCaller := back.buf);
    if !back.ok { return TearDown(b, false, false, Unreachable_); }
    b := FinishTurn(b);
  }

  /** Whether the wait returns with this move: records that arrive only queue up. */
  predicate Wakes(b: Bridge, m: Move)
  {
    && m.Take?
    && (m.from.Caller? ==> b.caller.inbox != [] || !b.caller.sink)
    && (m.from.Publisher? ==> b.publisher.inbox != [] || !b.publisher.sink)
  }

  lemma LifeStep(b: Bridge, moves: seq<Move>, i: nat)
    requires i < |moves|
    ensures Life(b, moves[i..]) == Life(Step(b, moves[i]), moves[i + 1..])
  {
    assert moves[i..][1..] == moves[i + 1..];
  }

  /** Waits for an event to take; meanwhile records arrive on either leg. */
  method AwaitEvent(start: Bridge, moves: seq<Move>, from: nat) returns (b: Bridge, i: nat)
    requires start.phase.Pumping? && from <= |moves|
    ensures from <= i <= |moves| && b.phase.Pumping?
    ensures Life(b, moves[i..]) == Life(start, moves[from..])
    ensures i < |moves| ==> Wakes(b, moves[i])
  {
    b, i := start, from;
    while i < |moves| && !Wakes(b, moves[i])
      invariant from <= i <= |moves| && b.phase.Pumping?
      invariant Life(b, moves[i..]) == Life(start, moves[from..])
    {
      LifeStep(b, moves, i);
      if moves[i].Arrive? {
        match moves[i].side {
          case Caller => b := b.(caller := Dispatch(b.caller, moves[i].inbound));
          case Publisher => b := b.(publisher := Dispatch(b.publisher, moves[i].inbound));
        }
      }
      i := i + 1;
    }
  }

  /** The caller arm of the wait: the state to run the next turn on, or the final one. */
  method HandleCaller(start: Bridge) returns (b: Bridge, over: bool)
    requires start.phase.Pumping? && Wakes(start, Take(Caller))
    ensures over ==> b == Step(start, Take(Caller)) && b.phase.Ended?
    ensures !over ==> Turn(b) == Step(start, Take(Caller)) && b.phase.Pumping?
  {
    if start.caller.inbox == [] {
      return TearDown(start, true, false, Canceled), true;
    }
    b := HearCaller(start);
    match start.caller.inbox[0] {
      case GotData(bytes) =>
        if b.callerFin { return TearDown(b, false, false, ProtocolError), true; }
        b := b.(toPublisher := b.toPublisher + bytes, fromCaller := b.fromCaller + bytes);
      case GotFin(_) => b := b.(callerFin := true);
      case GotReset(why) =>
        b := b.(publisher := SendReset(b.publisher, why));
        return TearDown(b, true, true, Canceled), true;
      case _ =>
    }
    over := false;
  }

  method HandlePublisher(start: Bridge) returns (b: Bridge, over: bool)
    requires start.phase.Pumping? && Wakes(start, Take(Publisher))
    ensures over ==> b == Step(start, Take(Publisher)) && b.phase.Ended?
    ensures !over ==> Turn(b) == Step(start, Take(Publisher)) && b.phase.Pumping?
  {
    if start.publisher.inbox == [] {
      return TearDown(start, false, true, Canceled), true;
    }
    b := HearPublisher(start);
    match start.publisher.inbox[0] {
      case GotData(bytes) =>
        if b.publisherFin { return TearDown(b, false, false, ProtocolError), true; }
        b := b.(toCaller := b.toCaller + bytes, fromPublisher := b.fromPublisher + bytes);
      case GotFin(_) => b := b.(publisherFin := true);
      case GotReset(why) =>
        b := b.(caller := SendReset(b.caller, why));
        return TearDown(b, true, true, Canceled), true;
      case _ =>
    }
    over := false;
  }

  /** From one wait to the state the next turn starts on, or to the final state. */
  method TakeNext(start: Bridge, moves: seq<Move>, from: nat) returns (b: Bridge, i: nat, over: bool)
    requires start.phase.Pumping? && from <= |moves|
    ensures i <= |moves|
    ensures over ==> b == Life(start, moves[from..])
    ensures !over ==>
      from < i <= |moves| && b.phase.Pumping? && Life(Turn(b), moves[i..]) == Life(start, moves[from..])
  {
    b, i := AwaitEvent(start, moves, from);
    if i == |moves| { return b, i, true; }
    LifeStep(b, moves, i);
    if moves[i].from.Caller? {
      b, over := HandleCaller(b);
    } else {
      b, over := HandlePublisher(b);
    }
    i := i + 1;
    if over { EndedStays(b, moves[i..]); }
  }

  method Pump(start: Bridge, moves: seq<Move>) returns (b: Bridge)
    requires start.phase.Pumping?
    ensures b == Life(Turn(start), moves)
  {
    b := start;
    var i, over := 0, false;
    assert moves[0..] == moves;
    while !over
      invariant 0 <= i <= |moves|
      invariant !over ==> b.phase.Pumping? && Life(Turn(b), moves[i..]) == Life(Turn(start), moves)
      invariant over ==> b == Life(Turn(start), moves)
      decreases !over, |moves| - i
    {
      b := PumpTurn(b);
      if b.phase.Ended? {
        EndedStays(b, moves[i..]);
        return;
      }
      b, i, over := TakeNext(b, moves, i);
    }
  }
}
