/** How an exit ends, and whether its peer is told. */
module ExitFarewell {
  import opened Limits
  import opened StreamEngine
  import opened ExitPump
  import opened Farewell
  import Relay
  import RelayTrace

  /** The socket failed at some point. */
  predicate SocketTrouble(moves: seq<Move>) { Readable(SocketRead.Failed) in moves || Take(false) in moves }

  function LastReset(heard: seq<Event>): ResetReason
  {
    if heard != [] && heard[|heard| - 1].GotReset? then heard[|heard| - 1].why else Canceled
  }

  predicate EndedItself(e: Exit, trouble: bool)
  {
    || (!HasReset(e.leg.wire) && e.finSent && e.shut.Some?)
    || (!HasReset(e.leg.wire) && e.leg.left == Some(0))
    || (!HasReset(e.leg.wire) && e.targetEof && e.pending == [] && Impaired(e.leg))
    || (RelayTrace.Told(e.leg, Unreachable_) && (trouble || (e.kind.AtHub? && Impaired(e.leg))))
    || (RelayTrace.Told(e.leg, ProtocolError) && e.kind.AtHub? && Impaired(e.leg))
  }

  /** Why an exit may be over: its peer reset it; both directions are done; the session is gone;
      the half-close could not be sent; the socket failed or data could not be sent, and the peer
      is told so; or, at the Hub, credit could not be granted. `trouble`: the socket failed. */
  predicate Ended(e: Exit, trouble: bool)
  {
    || (HeardReset(e.heard, LastReset(e.heard)) && !HasReset(e.leg.wire))
    || (NoReset(e.heard) && EndedItself(e, trouble))
  }

  predicate Going(e: Exit) { NoReset(e.heard) && Sane(e.leg) }

  predicate Parted(e: Exit, trouble: bool) { if e.over then Ended(e, trouble) else Going(e) }

  lemma ShutDownParts(e: Exit, trouble: bool)
    requires Running(e) && Going(e)
    ensures Parted(ShutDown(e), trouble)
  {
  }

  lemma HalfCloseParts(e: Exit, trouble: bool)
    requires Running(e) && Going(e)
    ensures Parted(HalfClose(e), trouble)
  {
    if e.targetEof && e.pending == [] && !e.finSent {
      SendFinKeeps(e.leg);
      match SendFin(e.leg) {
        case Sent(l) =>
        case Broken(l) =>
          assert Impaired(l) && !HasReset(l.wire);
      }
    }
  }

  lemma DeliverSane(e: Exit)
    requires Running(e) && Sane(e.leg)
    ensures var p := Deliver(e);
            && Sane(p.leg) && p.leg.log == e.leg.log && (Impaired(e.leg) ==> Impaired(p.leg))
            && (!p.ok ==> e.kind.AtHub? && Impaired(p.leg))
  {
    DeliverKeeps(e, Deliver(e));
    PushUses(e.leg, e.pending);
  }

  lemma TurnParts(e: Exit, trouble: bool)
    requires Running(e) && Open(e) && Going(e)
    ensures Parted(Turn(e), trouble)
  {
    var p := Deliver(e);
    DeliverKeeps(e, p);
    DeliverSane(e);
    var e1 := e.(leg := p.leg, pending := p.pending);
    if p.ok { HalfCloseParts(e1, trouble); }
  }

  lemma ReadParts(e: Exit, r: SocketRead, trouble: bool)
    requires AtWait(e) && Going(e) && (r.Failed? ==> trouble)
    ensures Parted(OnRead(e, r), trouble)
  {
    if !e.targetEof && e.pending == [] {
      match r {
        case Chunk(bytes) =>
          if 0 < |bytes| <= READ_CHUNK {
            assert Payload(e.leg.wire) + [] == e.read;
            TurnParts(e.(pending := bytes, read := e.read + bytes), trouble);
          }
        case Eof => TurnParts(e.(targetEof := true), trouble);
        case Failed =>
      }
    }
  }

  /** Just after an event was taken off the queue. */
  predicate JustPopped(e: Exit, v: Event)
  {
    && !e.over && Quiet(e.leg) && Sane(e.leg) && e.heard != [] && e.heard[|e.heard| - 1] == v
    && NoReset(e.heard[..|e.heard| - 1])
  }

  lemma StillNoReset(heard: seq<Event>, v: Event)
    requires heard != [] && heard[|heard| - 1] == v && NoReset(heard[..|heard| - 1]) && !v.GotReset?
    ensures NoReset(heard)
  {
    assert heard == heard[..|heard| - 1] + [v];
  }

  lemma WrittenRuns(e: Exit, bytes: Bytes, l: Leg, went: bool)
    requires AtWait(e) && e.leg.inbox != [] && e.leg.inbox[0] == GotData(bytes)
    requires var s := Consume(Popped(e).leg, |bytes|);
             if went then s == Sent(l) else s == Broken(l) && e.kind.AtNode?
    ensures Running(Written(Popped(e), bytes).(leg := l)) && Open(Written(Popped(e), bytes).(leg := l))
  {
    PoppedHolds(e);
    ConsumeKeeps(Popped(e).leg, |bytes|, Consume(Popped(e).leg, |bytes|));
  }

  lemma CreditGoesOn(e: Exit, bytes: Bytes, l: Leg, went: bool)
    requires AtWait(e) && Going(e) && e.leg.inbox != [] && e.leg.inbox[0] == GotData(bytes)
    requires var s := Consume(Popped(e).leg, |bytes|);
             if went then s == Sent(l) else s == Broken(l) && e.kind.AtNode?
    requires Popped(e).leg.consumed + |bytes| <= Popped(e).leg.received && NoReset(Popped(e).heard)
    ensures var e2 := Written(Popped(e), bytes).(leg := l);
            Running(e2) && Open(e2) && Going(e2)
  {
    ConsumeUses(Popped(e).leg, |bytes|);
    WrittenRuns(e, bytes, l, went);
  }

  /** The write went through and its credit was dealt with. */
  lemma CreditParts(e: Exit, bytes: Bytes, s: Sending, trouble: bool)
    requires AtWait(e) && Going(e) && e.leg.inbox != [] && e.leg.inbox[0] == GotData(bytes)
    requires s == Consume(Popped(e).leg, |bytes|) && Popped(e).leg.consumed + |bytes| <= Popped(e).leg.received && NoReset(Popped(e).heard)
    ensures Parted(AfterConsume(Written(Popped(e), bytes), s), trouble)
  {
    match s {
      case Sent(l) =>
        CreditGoesOn(e, bytes, l, true);
        TurnParts(Written(Popped(e), bytes).(leg := l), trouble);
      case Broken(l) =>
        if e.kind.AtNode? {
          CreditGoesOn(e, bytes, l, false);
          TurnParts(Written(Popped(e), bytes).(leg := l), trouble);
        } else {
          ConsumeUses(Popped(e).leg, |bytes|);
        }
    }
  }

  lemma DataParts(e: Exit, bytes: Bytes, writeOk: bool, trouble: bool)
    requires AtWait(e) && Going(e) && e.leg.inbox != [] && e.leg.inbox[0] == GotData(bytes) && (!writeOk ==> trouble)
    ensures Parted(OnData(Popped(e), bytes, writeOk), trouble)
  {
    NoResetMore(e.heard, e.leg.inbox[0]);
    PoppedHolds(e);
    if writeOk { CreditParts(e, bytes, Consume(Popped(e).leg, |bytes|), trouble); }
  }

  lemma SignalParts(e: Exit, v: Event, writeOk: bool, trouble: bool)
    requires AtWait(e) && Going(e) && e.leg.inbox != [] && e.leg.inbox[0] == v && !v.GotData?
    ensures Parted(OnEvent(Popped(e), v, writeOk), trouble)
  {
    var e1 := Popped(e);
    PoppedHolds(e);
    match v {
      case GotFin(offset) =>
        NoResetMore(e.heard, v);
        TurnParts(e1.(finalOffset := Some(offset)), trouble);
      case GotReset(why) => ResetHeard(e.heard, why);
      case _ =>
        NoResetMore(e.heard, v);
        TurnParts(e1, trouble);
    }
  }

  lemma StepParts(e: Exit, m: Move, trouble: bool)
    requires Orderly(e) && Parted(e, trouble) && (m in {Readable(SocketRead.Failed), Take(false)} ==> trouble)
    ensures Parted(Step(e, m), trouble)
  {
    if e.over { return; }
    match m {
      case Arrive(inbound) => DispatchSane(e.leg, inbound);
      case Readable(r) => ReadParts(e, r, trouble);
      case Take(writeOk) =>
        if e.leg.inbox != [] {
          var v := e.leg.inbox[0];
          if v.GotData? { DataParts(e, v.bytes, writeOk, trouble); } else { SignalParts(e, v, writeOk, trouble); }
        }
    }
  }

  lemma {:induction false} LifeParts(e: Exit, moves: seq<Move>, trouble: bool)
    requires Orderly(e) && Parted(e, trouble) && (SocketTrouble(moves) ==> trouble)
    ensures Orderly(Life(e, moves)) && Parted(Life(e, moves), trouble)
    decreases |moves|
  {
    if moves != [] {
      StepKeeps(e, moves[0]);
      StepParts(e, moves[0], trouble);
      LifeParts(Step(e, moves[0]), moves[1..], trouble);
    }
  }

  /** In every run of either pump: as long as it runs, no peer has reset it; and when it is over,
      it is so for one of the causes, and the peer was told whenever it could not know. */
  lemma ExitEndsForACause(kind: Kind, window: nat, moves: seq<Move>)
    ensures var e := Life(Turn(Opened(kind, window)), moves);
            Parted(e, SocketTrouble(moves))
  {
    OpenedRuns(kind, window);
    var e0 := Opened(kind, window);
    assert Turn(e0) == e0;
    LifeParts(e0, moves, SocketTrouble(moves));
  }

  /** A failing socket ends a running exit and tells the peer, and nothing more is written. */
  lemma ReadFailureTells(e: Exit)
    requires !e.over && !e.targetEof && e.pending == []
    ensures var e' := Step(e, Readable(SocketRead.Failed));
            e'.over && RelayTrace.Told(e'.leg, Unreachable_)
  {
  }

  lemma WriteFailureTells(e: Exit)
    requires !e.over && e.leg.inbox != [] && e.leg.inbox[0].GotData?
    ensures var e' := Step(e, Take(false));
            e'.over && e'.wrote == e.wrote && RelayTrace.Told(e'.leg, Unreachable_)
  {
  }

  /** A reset or a lost session ends it without a word. */
  lemma PartingIsQuiet(e: Exit, ok: bool)
    requires !e.over
    ensures e.leg.inbox != [] && e.leg.inbox[0].GotReset? ==> Step(e, Take(ok)).over && Step(e, Take(ok)).leg.wire == e.leg.wire
    ensures e.leg.inbox == [] && !e.leg.sink ==> Step(e, Take(ok)).over && Step(e, Take(ok)).leg.wire == e.leg.wire
  {
  }
}
