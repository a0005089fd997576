/** The two pumps between one stream and one socket: the Hub's own exit
    (crates/wsnet-hub/src/dataplane.rs) and a node's (crates/wsnet-node/src/inbound.rs). They
    differ in how they send and in which errors end them. */
module ExitPump {
  import opened Limits
  import opened StreamEngine
  import Relay

  const READ_CHUNK: nat := MAX_TCP_PAYLOAD

  datatype Kind = AtHub | AtNode

  datatype Exit = Exit(
    kind: Kind,
    over: bool,
    leg: Leg,
    pending: Bytes,
    targetEof: bool,
    finSent: bool,
    finalOffset: Option<nat>,
    written: nat,
    shut: Option<nat>,     // the offset the write half was shut down at
    // What crossed the socket, and every event taken off the queue.
    read: Bytes,
    wrote: Bytes,
    heard: seq<Event>)

  datatype SocketRead = Chunk(bytes: Bytes) | Eof | Failed

  /** A record arrives, the socket read returns, or the owner takes its next event, where a
      write to the socket may fail. */
  datatype Move = Arrive(inbound: Inbound) | Readable(result: SocketRead) | Take(writeOk: bool)

  // ---- the loop body ---------------------------------------------------------

  function Close(e: Exit): Exit
  {
    e.(over := true, leg := if e.kind.AtHub? then Release(e.leg) else e.leg.(sink := false))
  }

  function Abort(e: Exit, why: ResetReason): Exit { Close(e.(leg := SendReset(e.leg, why))) }

  /** The node offers everything that is pending at once and shrugs off any refusal. */
  function OfferAll(l: Leg, pending: Bytes): Relay.Pushed
  {
    match SendData(l, pending)
    case Sent(l') => Relay.Pushed(l', [], true)
    case Broken(l') => Relay.Pushed(l', pending, true)
    case CreditExceeded => Relay.Pushed(l, pending, true)
  }

  function Deliver(e: Exit): Relay.Pushed
  {
    if e.kind.AtHub? then Relay.PushSpec(e.leg, e.pending) else OfferAll(e.leg, e.pending)
  }

  function ShutDown(e: Exit): Exit
  {
    var reached := e.finalOffset.Some? && e.shut.None? && e.written >= e.finalOffset.value;
    var e1 := if reached then e.(shut := e.finalOffset) else e;
    if e1.finSent && e1.shut.Some? then Close(e1) else e1
  }

  function HalfClose(e: Exit): Exit
  {
    if e.targetEof && e.pending == [] && !e.finSent then
      match SendFin(e.leg)
      case Sent(l) => ShutDown(e.(leg := l, finSent := true))
      case Broken(l) => Close(e.(leg := l))
      case CreditExceeded => Close(e)
    else ShutDown(e)
  }

  function AfterDeliver(e: Exit, p: Relay.Pushed): Exit
  {
    var e1 := e.(leg := p.leg, pending := p.pending);
    if !p.ok then Abort(e1, Unreachable_) else HalfClose(e1)
  }

  /** From the top of the loop to the wait. */
  function Turn(e: Exit): Exit { AfterDeliver(e, Deliver(e)) }

  function OnRead(e: Exit, r: SocketRead): Exit
  {
    if e.targetEof || e.pending != [] then e
    else
      match r
      case Chunk(bytes) => if 0 < |bytes| <= READ_CHUNK then Turn(e.(pending := bytes, read := e.read + bytes)) else e
      case Eof => Turn(e.(targetEof := true))
      case Failed => Abort(e, Unreachable_)
  }

  function Written(e: Exit, bytes: Bytes): Exit
  {
    e.(written := e.written + |bytes|, wrote := e.wrote + bytes)
  }

  /** The Hub gives the stream up when credit cannot be granted; the node goes on. */
  function AfterConsume(e: Exit, s: Sending): Exit
  {
    match s
    case Sent(l) => Turn(e.(leg := l))
    case Broken(l) => if e.kind.AtHub? then Abort(e.(leg := l), ProtocolError) else Turn(e.(leg := l))
    case CreditExceeded => Abort(e, ProtocolError)
  }

  function OnData(e: Exit, bytes: Bytes, writeOk: bool): Exit
  {
    if !writeOk then Abort(e, Unreachable_)
    else AfterConsume(Written(e, bytes), Consume(e.leg, |bytes|))
  }

  function OnEvent(e: Exit, v: Event, writeOk: bool): Exit
  {
    match v
    case GotData(bytes) => OnData(e, bytes, writeOk)
    case GotFin(offset) => Turn(e.(finalOffset := Some(offset)))
    case GotReset(_) => Close(e)
    case _ => Turn(e)
  }

  /** Takes the next event off the queue. */
  function Popped(e: Exit): Exit
    requires e.leg.inbox != []
  {
    e.(leg := e.leg.(inbox := e.leg.inbox[1..]), heard := e.heard + [e.leg.inbox[0]])
  }

  function Step(e: Exit, m: Move): Exit
  {
    if e.over then e
    else
      match m
      case Arrive(inbound) => e.(leg := Dispatch(e.leg, inbound))
      case Readable(r) => OnRead(e, r)
      case Take(writeOk) =>
        if e.leg.inbox != [] then OnEvent(Popped(e), e.leg.inbox[0], writeOk)
        else if e.leg.sink then e
        else Close(e)
  }

  function Life(e: Exit, moves: seq<Move>): Exit
    decreases |moves|
  {
    if moves == [] then e else Life(Step(e, moves[0]), moves[1..])
  }

  /** The pump on a stream just answered `Ok`, before its first turn. */
  function Opened(kind: Kind, window: nat): Exit
  {
    Exit(kind, false, SendOpenResult(Fresh(window), Ok).leg, [], false, false, None, 0, None, [], [], [])
  }

  // ---- invariants ------------------------------------------------------------

  /** Target to peer: what went out is a prefix of what was read, and a half-close only
      after everything. */
  predicate Downlink(e: Exit)
  {
    && WireOk(e.leg) && Payload(e.leg.wire) <= e.read && |e.pending| <= READ_CHUNK
    && (HasFin(e.leg.wire) ==> e.targetEof && e.pending == [] && Payload(e.leg.wire) == e.read)
  }

  /** Nothing is lost or repeated on the way down. */
  predicate Whole(e: Exit) { Payload(e.leg.wire) + e.pending == e.read }

  /** Peer to target: the socket saw a prefix of what arrived, and was shut only with
      everything below an announced final offset written. */
  predicate Uplink(e: Exit)
  {
    && |e.wrote| == e.written && e.wrote <= Queued(e.heard)
    && e.leg.log == e.heard + e.leg.inbox && e.leg.consumed <= e.written
    && (e.shut.Some? ==> e.shut.value <= e.written && GotFin(e.shut.value) in e.heard)
    && (e.finalOffset.Some? ==> GotFin(e.finalOffset.value) in e.heard)
  }

  /** In the loop: everything taken was written, and credit follows what was written. */
  predicate Running(e: Exit)
  {
    && !e.over && Quiet(e.leg)
    && Downlink(e) && Whole(e) && (e.finSent <==> HasFin(e.leg.wire)) && e.leg.finSent == e.finSent
    && Uplink(e) && (e.kind.AtHub? || e.leg.installed ==> e.leg.consumed == e.written)
    && e.wrote == Queued(e.heard) && e.written + |Queued(e.leg.inbox)| <= e.leg.received
  }

  predicate Open(e: Exit) { !(e.finSent && e.shut.Some?) }

  /** The Hub holds back no byte it has credit for; the node none that fits as a whole. */
  predicate Prompt(e: Exit)
  {
    if e.kind.AtHub? then Relay.Prompt(e.leg, e.pending)
    else
      || e.pending == [] || e.leg.sendOffset + |e.pending| > e.leg.sendLimit
      || GotProgress in e.leg.inbox || !e.leg.sink || !e.leg.installed || !CanSeal(e.leg, 1)
  }

  /** At the wait, besides: what can go out has gone out. */
  predicate AtWait(e: Exit)
  {
    && Running(e) && Prompt(e) && Open(e)
    && (e.targetEof && e.pending == [] ==> e.finSent)
    && (e.finalOffset.Some? && e.written >= e.finalOffset.value ==> e.shut.Some?)
  }

  predicate AtEnd(e: Exit)
  {
    && e.over && Downlink(e) && Uplink(e) && Read(e.leg.wire).resets <= 1
    && (HasFin(e.leg.wire) && e.shut.Some? ==> !HasReset(e.leg.wire))
    && !e.leg.sink && (e.kind.AtHub? ==> !e.leg.installed)
  }

  predicate Orderly(e: Exit) { AtWait(e) || AtEnd(e) }

  // ---- ending ----------------------------------------------------------------

  /** What an exit must satisfy for an end to leave it in order. */
  predicate Stoppable(e: Exit)
  {
    Downlink(e) && Uplink(e) && !HasReset(e.leg.wire)
  }

  lemma CloseEnds(e: Exit)
    requires Stoppable(e)
    ensures AtEnd(Close(e))
  {
  }

  lemma ResetEnds(e: Exit, l: Leg)
    requires Stoppable(e) && !(HasFin(e.leg.wire) && e.shut.Some?)
    requires Read(l.wire) == Read(e.leg.wire).(resets := Read(l.wire).resets) && Read(l.wire).resets <= 1
    requires l == e.leg.(wire := l.wire, left := l.left, installed := l.installed)
    ensures AtEnd(Close(e.(leg := l)))
  {
  }

  lemma AbortEnds(e: Exit, why: ResetReason)
    requires Stoppable(e) && !(HasFin(e.leg.wire) && e.shut.Some?)
    ensures AtEnd(Abort(e, why))
  {
    SendResetKeeps(e.leg, why);
    ResetEnds(e, SendReset(e.leg, why));
  }

  // ---- delivering ------------------------------------------------------------

  /** What either way of sending promises. */
  predicate Delivered(e: Exit, p: Relay.Pushed)
  {
    && Quiet(p.leg)
    && Read(p.leg.wire) == Read(e.leg.wire).(payload := Payload(p.leg.wire))
    && p.leg == e.leg.(wire := p.leg.wire, sendOffset := |Payload(p.leg.wire)|, left := p.leg.left)
    && |p.pending| <= |e.pending| && Payload(p.leg.wire) <= e.read && (HasFin(e.leg.wire) ==> p.pending == [] && Payload(p.leg.wire) == e.read)
    && (p.ok ==> Whole(e.(leg := p.leg, pending := p.pending)) && Prompt(e.(leg := p.leg, pending := p.pending)))
  }

  lemma HubDelivers(e: Exit, p: Relay.Pushed)
    requires Running(e) && e.kind.AtHub? && p == Relay.PushSpec(e.leg, e.pending)
    ensures Delivered(e, p)
  {
    Relay.PushKeeps(e.leg, e.pending);
  }

  /** A chunk is one record, so a send that breaks has put nothing of it on the wire. */
  lemma NodeBreaks(e: Exit, l: Leg)
    requires Running(e) && e.kind.AtNode? && e.pending != [] && SendData(e.leg, e.pending) == Broken(l)
    ensures l == e.leg && (e.leg.installed ==> e.leg.left == Some(0))
  {
    assert Chunks(e.leg.sendOffset, []) == [] && e.pending[..0] == [] && e.leg.wire + [] == e.leg.wire;
  }

  lemma NodeDelivers(e: Exit, p: Relay.Pushed)
    requires Running(e) && e.kind.AtNode? && p == OfferAll(e.leg, e.pending)
    ensures Delivered(e, p)
  {
    if e.pending == [] {
      assert Payload(e.leg.wire) + [] == e.read;
    } else {
      SendDataKeeps(e.leg, e.pending);
      match SendData(e.leg, e.pending) {
        case Sent(l) => assert Payload(l.wire) + [] == e.read;
        case Broken(l) => NodeBreaks(e, l);
        case CreditExceeded =>
      }
    }
  }

  lemma DeliverKeeps(e: Exit, p: Relay.Pushed)
    requires Running(e) && p == Deliver(e)
    ensures Delivered(e, p)
  {
    if e.kind.AtHub? { HubDelivers(e, p); } else { NodeDelivers(e, p); }
  }

  // ---- a turn ----------------------------------------------------------------

  lemma ShutDownKeeps(e: Exit)
    requires Running(e) && Prompt(e) && (e.targetEof && e.pending == [] ==> e.finSent)
    ensures Orderly(ShutDown(e))
  {
  }

  lemma FinishedKeeps(e: Exit, l: Leg)
    requires Running(e) && e.targetEof && e.pending == [] && Payload(e.leg.wire) == e.read
    requires HalfCloses(e.leg, l) && l.finSent && HasFin(l.wire)
    ensures Orderly(ShutDown(e.(leg := l, finSent := true)))
  {
    ShutDownKeeps(e.(leg := l, finSent := true));
  }

  lemma HalfCloseKeeps(e: Exit)
    requires Running(e) && Prompt(e)
    ensures Orderly(HalfClose(e))
  {
    if e.targetEof && e.pending == [] && !e.finSent {
      assert Payload(e.leg.wire) + [] == e.read;
      SendFinKeeps(e.leg);
      match SendFin(e.leg) {
        case Sent(l) => FinishedKeeps(e, l);
        case Broken(l) => CloseEnds(e.(leg := l));
      }
    } else {
      ShutDownKeeps(e);
    }
  }

  lemma DeliveredKeeps(e: Exit, p: Relay.Pushed)
    requires Running(e) && Open(e) && Delivered(e, p)
    ensures Orderly(AfterDeliver(e, p))
  {
    var e1 := e.(leg := p.leg, pending := p.pending);
    if p.ok { HalfCloseKeeps(e1); } else { AbortEnds(e1, Unreachable_); }
  }

  lemma TurnKeeps(e: Exit)
    requires Running(e) && Open(e)
    ensures Orderly(Turn(e))
  {
    DeliverKeeps(e, Deliver(e));
    DeliveredKeeps(e, Deliver(e));
  }

  lemma ReadKeeps(e: Exit, r: SocketRead)
    requires AtWait(e)
    ensures Orderly(OnRead(e, r))
  {
    if !e.targetEof && e.pending == [] {
      assert Payload(e.leg.wire) + [] == e.read;
      match r {
        case Chunk(bytes) =>
          if 0 < |bytes| <= READ_CHUNK { TurnKeeps(e.(pending := bytes, read := e.read + bytes)); }
        case Eof => TurnKeeps(e.(targetEof := true));
        case Failed => AbortEnds(e, Unreachable_);
      }
    }
  }

  // ---- an event --------------------------------------------------------------

  /** The state between taking an event with `bytes` off the queue and acting on it. */
  predicate Holding(e: Exit, bytes: Bytes)
  {
    && !e.over && Quiet(e.leg) && Open(e)
    && Downlink(e) && Whole(e) && (e.finSent <==> HasFin(e.leg.wire)) && e.leg.finSent == e.finSent
    && Uplink(e) && (e.kind.AtHub? || e.leg.installed ==> e.leg.consumed == e.written)
    && e.wrote + bytes == Queued(e.heard) && e.written + |bytes| + |Queued(e.leg.inbox)| <= e.leg.received
  }

  function DataOf(v: Event): Bytes { if v.GotData? then v.bytes else [] }

  lemma HearMore(heard: seq<Event>, inbox: seq<Event>)
    requires inbox != []
    ensures heard + inbox == (heard + [inbox[0]]) + inbox[1..]
    ensures Queued(heard + [inbox[0]]) == Queued(heard) + DataOf(inbox[0])
    ensures Queued(inbox) == DataOf(inbox[0]) + Queued(inbox[1..])
  {
    assert inbox == [inbox[0]] + inbox[1..];
    QueuedConcat(heard, [inbox[0]]);
    assert [inbox[0]][1..] == [];
  }

  lemma PoppedHolds(e: Exit)
    requires AtWait(e) && e.leg.inbox != []
    ensures Holding(Popped(e), DataOf(e.leg.inbox[0]))
  {
    HearMore(e.heard, e.leg.inbox);
    assert Queued(e.heard) <= Queued(e.heard) + DataOf(e.leg.inbox[0]);
  }

  /** After a write, with the credit granted or, at a node, lost with the stream. */
  lemma CreditedKeeps(e: Exit, bytes: Bytes, l: Leg, r: Exit)
    requires Holding(e, bytes) && Grants(e.leg, |bytes|, l) && r == Turn(Written(e, bytes).(leg := l))
    requires e.kind.AtHub? || l.installed ==> l.consumed == e.leg.consumed + |bytes|
    ensures Orderly(r)
  {
    TurnKeeps(Written(e, bytes).(leg := l));
  }

  lemma CreditLost(e: Exit, bytes: Bytes, l: Leg, r: Exit)
    requires Holding(e, bytes) && Grants(e.leg, |bytes|, l) && r == Abort(Written(e, bytes).(leg := l), ProtocolError)
    ensures Orderly(r)
  {
    AbortEnds(Written(e, bytes).(leg := l), ProtocolError);
  }

  lemma WriteKeeps(e: Exit, bytes: Bytes, s: Sending, r: Exit)
    requires Holding(e, bytes) && s == Consume(e.leg, |bytes|) && r == AfterConsume(Written(e, bytes), s)
    ensures Orderly(r)
  {
    ConsumeKeeps(e.leg, |bytes|, s);
    match s {
      case Sent(l) => CreditedKeeps(e, bytes, l, r);
      case Broken(l) => if e.kind.AtNode? { CreditedKeeps(e, bytes, l, r); } else { CreditLost(e, bytes, l, r); }
    }
  }

  lemma WriteFails(e: Exit, bytes: Bytes, r: Exit)
    requires Holding(e, bytes) && r == Abort(e, Unreachable_)
    ensures Orderly(r)
  {
    AbortEnds(e, Unreachable_);
  }

  lemma SignalKeeps(e: Exit, v: Event, writeOk: bool, r: Exit)
    requires Holding(e, []) && !v.GotData? && v in e.heard && r == OnEvent(e, v, writeOk)
    ensures Orderly(r)
  {
    assert e.wrote + [] == e.wrote;
    if v.GotFin? {
      TurnKeeps(e.(finalOffset := Some(v.upTo)));
    } else if v.GotReset? {
      CloseEnds(e);
    } else {
      TurnKeeps(e);
    }
  }

  lemma TakeKeeps(e: Exit, writeOk: bool, r: Exit)
    requires AtWait(e) && e.leg.inbox != [] && r == OnEvent(Popped(e), e.leg.inbox[0], writeOk)
    ensures Orderly(r)
  {
    PoppedHolds(e);
    var v := e.leg.inbox[0];
    if !v.GotData? {
      SignalKeeps(Popped(e), v, writeOk, r);
    } else if writeOk {
      WriteKeeps(Popped(e), v.bytes, Consume(Popped(e).leg, |v.bytes|), r);
    } else {
      WriteFails(Popped(e), v.bytes, r);
    }
  }

  // ---- an arrival ------------------------------------------------------------

  lemma DispatchPrompt(e: Exit, m: Inbound)
    requires Prompt(e)
    ensures Prompt(e.(leg := Dispatch(e.leg, m)))
  {
    Relay.DispatchPrompt(e.leg, m, e.pending);
  }

  lemma ReceivesKeeps(e: Exit, l: Leg, news: seq<Event>)
    requires AtWait(e) && Receives(e.leg, l, news) && Prompt(e.(leg := l)) && (e.leg.left == Some(0) ==> l.left == Some(0))
    ensures AtWait(e.(leg := l))
  {
    ReceivesSound(e.leg, l, news);
    QueuedConcat(e.leg.inbox, news);
    Assoc(e.heard, e.leg.inbox, news);
  }

  lemma ArriveKeeps(e: Exit, m: Inbound)
    requires AtWait(e)
    ensures AtWait(Step(e, Arrive(m)))
  {
    var news := DispatchKeeps(e.leg, m);
    DispatchPrompt(e, m);
    ReceivesKeeps(e, Dispatch(e.leg, m), news);
  }

  // ---- whole lives -----------------------------------------------------------

  lemma StepKeeps(e: Exit, m: Move)
    requires Orderly(e)
    ensures Orderly(Step(e, m))
  {
    if e.over { return; }
    match m {
      case Arrive(inbound) => ArriveKeeps(e, inbound);
      case Readable(r) => ReadKeeps(e, r);
      case Take(writeOk) =>
        if e.leg.inbox != [] {
          TakeKeeps(e, writeOk, Step(e, m));
        } else {
          CloseEnds(e);
        }
    }
  }

  lemma {:induction false} LifeKeeps(e: Exit, moves: seq<Move>)
    requires Orderly(e)
    ensures Orderly(Life(e, moves))
    decreases |moves|
  {
    if moves != [] {
      StepKeeps(e, moves[0]);
      LifeKeeps(Step(e, moves[0]), moves[1..]);
    }
  }

  lemma OpenedRuns(kind: Kind, window: nat)
    ensures Running(Opened(kind, window)) && Orderly(Turn(Opened(kind, window)))
  {
    Relay.AcceptKeeps(Fresh(window), SendOpenResult(Fresh(window), Ok));
    assert Queued([]) == [] && Read([]).payload == [];
    TurnKeeps(Opened(kind, window));
  }

  // ---- what a pump does to its leg -------------------------------------------

  /** A stretch of the pump without an event. */
  predicate Runs(e: Exit, e': Exit) { Still(e.leg, e'.leg) && e'.kind == e.kind && e'.heard == e.heard }

  lemma CloseRuns(e: Exit, why: ResetReason)
    ensures Runs(e, Close(e)) && Runs(e, Abort(e, why))
  {
    ResetStill(e.leg, why);
  }

  lemma ShutDownRuns(e: Exit)
    ensures Runs(e, ShutDown(e))
  {
    CloseRuns(e, Canceled);
  }

  lemma HalfCloseRuns(e: Exit)
    ensures Runs(e, HalfClose(e))
  {
    if e.targetEof && e.pending == [] && !e.finSent {
      SendFinStill(e.leg);
      match SendFin(e.leg) {
        case Sent(l) =>
          ShutDownRuns(e.(leg := l, finSent := true));
          ActsTrans(e.leg, l, ShutDown(e.(leg := l, finSent := true)).leg);
        case Broken(l) => CloseRuns(e.(leg := l), Canceled);
        case CreditExceeded => CloseRuns(e, Canceled);
      }
    } else {
      ShutDownRuns(e);
    }
  }

  lemma DeliverRuns(e: Exit)
    ensures Still(e.leg, Deliver(e).leg)
  {
    SendDataStill(e.leg, e.pending);
    var take := Min(Minus(e.leg.sendLimit, e.leg.sendOffset), |e.pending|);
    SendDataStill(e.leg, e.pending[..take]);
  }

  lemma AfterDeliverRuns(e: Exit, p: Relay.Pushed)
    requires Still(e.leg, p.leg)
    ensures Runs(e, AfterDeliver(e, p))
  {
    var e1 := e.(leg := p.leg, pending := p.pending);
    CloseRuns(e1, Unreachable_);
    HalfCloseRuns(e1);
    ActsTrans(e.leg, p.leg, AfterDeliver(e, p).leg);
  }

  lemma TurnRuns(e: Exit)
    ensures Runs(e, Turn(e))
  {
    DeliverRuns(e);
    AfterDeliverRuns(e, Deliver(e));
  }

  lemma ReadRuns(e: Exit, r: SocketRead)
    ensures Runs(e, OnRead(e, r))
  {
    match r {
      case Chunk(bytes) => TurnRuns(e.(pending := bytes, read := e.read + bytes));
      case Eof => TurnRuns(e.(targetEof := true));
      case Failed => CloseRuns(e, Unreachable_);
    }
  }

  lemma AfterConsumeRuns(e: Exit, e1: Exit, s: Sending)
    requires Runs(e, e1) && (s.Sent? ==> Still(e.leg, s.leg)) && (s.Broken? ==> Still(e.leg, s.after))
    ensures Runs(e, AfterConsume(e1, s))
  {
    match s {
      case Sent(l) => TurnRuns(e1.(leg := l));
      case Broken(l) =>
        TurnRuns(e1.(leg := l));
        CloseRuns(e1.(leg := l), ProtocolError);
      case CreditExceeded => CloseRuns(e1, ProtocolError);
    }
  }

  lemma DataRuns(e: Exit, bytes: Bytes, writeOk: bool)
    ensures Runs(e, OnData(e, bytes, writeOk))
  {
    CloseRuns(e, Unreachable_);
    if writeOk {
      ConsumeStill(e.leg, |bytes|);
      AfterConsumeRuns(e, Written(e, bytes), Consume(e.leg, |bytes|));
    }
  }

  lemma EventRuns(e: Exit, v: Event, writeOk: bool)
    ensures Runs(e, OnEvent(e, v, writeOk))
  {
    match v {
      case GotData(bytes) => DataRuns(e, bytes, writeOk);
      case GotFin(offset) => TurnRuns(e.(finalOffset := Some(offset)));
      case GotReset(_) => CloseRuns(e, Canceled);
      case _ => TurnRuns(e);
    }
  }

  /** Whatever the pump does on its own, it only adds to its leg. */
  lemma StepActs(e: Exit, m: Move)
    requires !m.Arrive?
    ensures Acts(e.leg, Step(e, m).leg) && Step(e, m).kind == e.kind
  {
    if e.over { return; }
    match m {
      case Readable(r) => ReadRuns(e, r);
      case Take(writeOk) =>
        CloseRuns(e, Canceled);
        if e.leg.inbox != [] { EventRuns(Popped(e), e.leg.inbox[0], writeOk); }
    }
  }

  lemma {:induction false} KindStays(e: Exit, moves: seq<Move>)
    ensures Life(e, moves).kind == e.kind
    decreases |moves|
  {
    if moves != [] {
      if !moves[0].Arrive? { StepActs(e, moves[0]); }
      KindStays(Step(e, moves[0]), moves[1..]);
    }
  }

  // ---- theorems --------------------------------------------------------------

  /** In every run of either pump. Downwards: what was sent is a prefix of what was read from
      the target, `Fin` went out only at end of file with everything sent, and no send passed
      the peer's limit. Upwards: the target got a prefix of what the peer sent, and the write
      half was shut only with everything below an announced final offset written, whether the
      `Fin` came before or after its data. */
  lemma ExitConserves(kind: Kind, window: nat, moves: seq<Move>)
    ensures var e := Life(Turn(Opened(kind, window)), moves);
            && Payload(e.leg.wire) <= e.read && |Payload(e.leg.wire)| <= e.leg.sendLimit
            && Disciplined(e.leg.wire) && Read(e.leg.wire).resets <= 1
            && (HasFin(e.leg.wire) ==> e.targetEof && e.pending == [] && Payload(e.leg.wire) == e.read)
            && |e.wrote| == e.written && e.wrote <= Queued(e.heard) && e.heard <= e.leg.log
            && (e.shut.Some? ==> e.shut.value <= e.written && GotFin(e.shut.value) in e.heard)
            && (HasFin(e.leg.wire) && e.shut.Some? ==> e.over && !HasReset(e.leg.wire))
            && (e.over ==> !e.leg.sink && (kind.AtHub? ==> !e.leg.installed))
  {
    OpenedRuns(kind, window);
    LifeKeeps(Turn(Opened(kind, window)), moves);
    TurnRuns(Opened(kind, window));
    KindStays(Turn(Opened(kind, window)), moves);
  }

  /** At every wait, besides: nothing is lost or repeated downwards, credit granted equals
      bytes written, what is queued fits the window, and neither half-close nor shutdown is
      held back. */
  lemma ExitWaitsOnlyWhenItMust(kind: Kind, window: nat, moves: seq<Move>)
    ensures var e := Life(Turn(Opened(kind, window)), moves);
            !e.over ==>
              && Payload(e.leg.wire) + e.pending == e.read
              && (kind.AtHub? || e.leg.installed ==> e.leg.consumed == e.written)
              && e.wrote == Queued(e.heard) && e.leg.log == e.heard + e.leg.inbox
              && |Queued(e.leg.inbox)| <= e.leg.received - e.leg.consumed <= e.leg.window
              && Prompt(e)
              && (e.targetEof && e.pending == [] ==> e.finSent)
              && (e.finalOffset.Some? && e.written >= e.finalOffset.value ==> e.shut.Some?)
  {
    OpenedRuns(kind, window);
    LifeKeeps(Turn(Opened(kind, window)), moves);
    TurnRuns(Opened(kind, window));
    KindStays(Turn(Opened(kind, window)), moves);
  }

  lemma AfterDeliverPends(e: Exit, p: Relay.Pushed)
    requires p.ok
    ensures AfterDeliver(e, p).pending == p.pending
  {
  }

  lemma PendingTurnSendsNothing(e: Exit, p: Relay.Pushed)
    requires p == Relay.Pushed(e.leg, e.pending, true) && e.pending != []
    ensures AfterDeliver(e, p).leg.wire == e.leg.wire
  {
  }

  /** A node sends a chunk exactly when the credit covers all of it: with some room, but less
      than the chunk, the bytes wait beside usable credit. */
  lemma NodeStallsExactlyWhenCreditIsShort(e: Exit)
    requires Running(e) && Open(e) && e.kind.AtNode? && e.leg.installed && e.leg.left.None?
    ensures var room := e.leg.sendLimit - e.leg.sendOffset;
            && (Turn(e).pending == [] <==> |e.pending| <= room)
            && (Turn(e).pending != [] ==> Turn(e).pending == e.pending && Payload(Turn(e).leg.wire) == Payload(e.leg.wire))
  {
    var p := OfferAll(e.leg, e.pending);
    if e.pending == [] || |e.pending| <= e.leg.sendLimit - e.leg.sendOffset {
      AfterDeliverPends(e, p);
    } else {
      AfterDeliverPends(e, p);
      PendingTurnSendsNothing(e, p);
    }
  }

  /** While it can send, a node waits with nothing pending as soon as it has heard of a limit
      one read buffer beyond what it sent. */
  lemma CoveredChunkIsOut(e: Exit)
    requires AtWait(e) && e.kind.AtNode? && e.leg.installed && e.leg.sink && CanSeal(e.leg, 1) && GotProgress !in e.leg.inbox
    ensures e.leg.sendLimit >= e.leg.sendOffset + READ_CHUNK ==> e.pending == []
    ensures e.pending != [] <==> e.leg.sendLimit < e.leg.sendOffset + |e.pending|
  {
  }

  /** A chunk that the credit does not cover as a whole. */
  predicate Stalled(e: Exit)
  {
    e.kind.AtNode? && e.pending != [] && e.leg.sendOffset + |e.pending| > e.leg.sendLimit
  }

  /** Nothing more goes down. */
  predicate SamePending(e: Exit, e': Exit)
  {
    e'.kind == e.kind && e'.pending == e.pending && Payload(e'.leg.wire) == Payload(e.leg.wire)
  }

  lemma AbortSamePending(e: Exit, why: ResetReason)
    requires Stoppable(e)
    ensures SamePending(e, Close(e)) && SamePending(e, Abort(e, why))
  {
    SendResetKeeps(e.leg, why);
  }

  lemma StalledTurn(e: Exit)
    requires Stalled(e)
    ensures SamePending(e, Turn(e))
  {
    assert OfferAll(e.leg, e.pending) == Relay.Pushed(e.leg, e.pending, true);
    AfterDeliverPends(e, OfferAll(e.leg, e.pending));
    PendingTurnSendsNothing(e, OfferAll(e.leg, e.pending));
    TurnRuns(e);
  }

  lemma StalledWrite(e: Exit, bytes: Bytes, s: Sending, r: Exit)
    requires Holding(e, bytes) && Stalled(e) && s == Consume(e.leg, |bytes|) && r == AfterConsume(Written(e, bytes), s)
    ensures SamePending(e, r)
  {
    ConsumeKeeps(e.leg, |bytes|, s);
    match s {
      case Sent(l) => StalledTurn(Written(e, bytes).(leg := l));
      case Broken(l) => StalledTurn(Written(e, bytes).(leg := l));
    }
  }

  lemma StalledEvent(e: Exit, v: Event, writeOk: bool, r: Exit)
    requires Holding(e, DataOf(v)) && Stalled(e) && r == OnEvent(e, v, writeOk)
    ensures SamePending(e, r)
  {
    AbortSamePending(e, Unreachable_);
    match v {
      case GotData(bytes) => if writeOk { StalledWrite(e, bytes, Consume(e.leg, |bytes|), r); }
      case GotFin(offset) => StalledTurn(e.(finalOffset := Some(offset)));
      case GotReset(_) =>
      case _ => StalledTurn(e);
    }
  }

  /** As long as the credit stays short, whatever happens sends nothing of the chunk. */
  lemma StalledStep(e: Exit, m: Move)
    requires Orderly(e) && (e.over || Stalled(e) || m.Arrive?)
    ensures SamePending(e, Step(e, m))
  {
    if e.over { return; }
    match m {
      case Arrive(inbound) => var _ := DispatchKeeps(e.leg, inbound);
      case Readable(r) =>
      case Take(writeOk) =>
        if e.leg.inbox != [] {
          PoppedHolds(e);
          StalledEvent(Popped(e), e.leg.inbox[0], writeOk, Step(e, m));
        } else {
          AbortSamePending(e, Canceled);
        }
    }
  }

  // ---- the imperative pump ---------------------------------------------------

  /** The pump's local variables, and the stream and socket it drives. */
  class Pump {
    var state: Exit

    constructor (kind: Kind, window: nat)
      ensures state == Opened(kind, window)
    {
      state := Opened(kind, window);
    }

    /** The node's send loop: a send takes all of what is pending or nothing. */
    method SendAll() returns (goOn: bool)
      requires state.kind.AtNode?
      modifies this
      ensures var p := OfferAll(old(state).leg, old(state).pending);
              goOn && state == old(state).(leg := p.leg, pending := p.pending)
    {
      goOn := true;
      while state.pending != []
        invariant OfferAll(state.leg, state.pending) == OfferAll(old(state).leg, old(state).pending)
        invariant state == old(state).(leg := state.leg, pending := state.pending)
        decreases |state.pending|
      {
        match SendData(state.leg, state.pending) {
          case Sent(l) => state := state.(leg := l, pending := []);
          case Broken(l) => state := state.(leg := l); return;
          case CreditExceeded => return;
        }
      }
    }

    /** Drains the pending bytes as far as credit allows; terminates, and never sends past
        the limit. */
    method SendSome() returns (goOn: bool)
      modifies this
      ensures var p := Deliver(old(state));
              goOn == p.ok && state == old(state).(leg := p.leg, pending := p.pending)
    {
      if state.kind.AtNode? {
        goOn := SendAll();
      } else {
        var r := Relay.Push(state.leg, state.pending);
        state := state.(leg := r.leg, pending := r.pending);
        goOn := r.ok;
      }
    }

    /** One pass of the loop up to the wait. */
    method Pass()
      requires !state.over
      modifies this
      ensures state == Turn(old(state))
    {
      var goOn := SendSome();
      if !goOn {
        state := Abort(state, Unreachable_);
        return;
      }
      if state.targetEof && state.pending == [] && !state.finSent {
        var fin := SendFin(state.leg);
        if !fin.Sent? {
          state := Close(state.(leg := fin.after));
          return;
        }
        state := state.(leg := fin.leg, finSent := true);
      }
      if state.finalOffset.Some? {
        if state.shut.None? && state.written >= state.finalOffset.value {
          state := state.(shut := state.finalOffset);
        }
      }
      if state.finSent && state.shut.Some? { state := Close(state); }
    }

    method HandleRead(r: SocketRead)
      requires !state.over && !state.targetEof && state.pending == []
      requires r.Chunk? ==> 0 < |r.bytes| <= READ_CHUNK
      modifies this
      ensures state == OnRead(old(state), r)
    {
      match r {
        case Chunk(bytes) => state := state.(pending := bytes, read := state.read + bytes);
        case Eof => state := state.(targetEof := true);
        case Failed => state := Abort(state, Unreachable_); return;
      }
      Pass();
    }

    /** After a write: the Hub gives up when its credit call fails, the node does not. */
    method GoOn(consumed: Sending)
      requires !state.over && !consumed.CreditExceeded?
      modifies this
      ensures state == AfterConsume(old(state), consumed)
    {
      if consumed.Broken? && state.kind.AtHub? {
        state := Abort(state.(leg := consumed.after), ProtocolError);
        return;
      }
      state := state.(leg := if consumed.Sent? then consumed.leg else consumed.after);
      Pass();
    }

    method HandleData(bytes: Bytes, writeOk: bool)
      requires !state.over
      modifies this
      ensures state == OnData(old(state), bytes, writeOk)
    {
      if !writeOk {
        state := Abort(state, Unreachable_);
        return;
      }
      var consumed := Consume(state.leg, |bytes|);
      state := Written(state, bytes);
      GoOn(consumed);
    }

    method HandleEvent(writeOk: bool)
      requires !state.over && state.leg.inbox != []
      modifies this
      ensures state == Step(old(state), Take(writeOk))
    {
      var event := state.leg.inbox[0];
      state := Popped(state);
      match event {
        case GotData(bytes) => HandleData(bytes, writeOk); return;
        case GotReset(_) => state := Close(state); return;
        case GotFin(offset) => state := state.(finalOffset := Some(offset));
        case _ =>
      }
      Pass();
    }

    /** One wake-up of the owner, or a record that only queues up. */
    method Wake(m: Move)
      requires !state.over
      modifies this
      ensures state == Step(old(state), m)
    {
      match m {
        case Arrive(inbound) => state := state.(leg := Dispatch(state.leg, inbound));
        case Readable(r) =>
          if !state.targetEof && state.pending == [] && (r.Chunk? ==> 0 < |r.bytes| <= READ_CHUNK) { HandleRead(r); }
        case Take(writeOk) =>
          if state.leg.inbox != [] { HandleEvent(writeOk); } else if !state.leg.sink { state := Close(state); }
      }
    }

    /** The loop, over everything its environment does. */
    method Drive(moves: seq<Move>)
      requires !state.over
      modifies this
      ensures state == Life(Turn(old(state)), moves)
    {
      Pass();
      assert moves[0..] == moves;
      for i := 0 to |moves|
        invariant Life(state, moves[i..]) == Life(Turn(old(state)), moves)
      {
        assert moves[i..][1..] == moves[i + 1..];
        if !state.over { Wake(moves[i]); }
      }
    }
  }
}
