/** How a hop ends, and who is told: the caller's side is, the far side is not. */
module HopFarewell {
  import opened Limits
  import opened StreamEngine
  import opened Hop
  import opened Farewell
  import RelayTrace

  function Run(h: Hop, moves: seq<Move>): Hop
    decreases |moves|
  {
    if moves == [] then h else Run(Step(h, moves[0]), moves[1..])
  }

  /** A pipe knows of a reset what it heard. */
  predicate Listens(p: Pipe) { p.reset <==> !NoReset(p.heard) }

  predicate Going(h: Hop)
  {
    && Sane(h.inbound) && Sane(h.next) && Listens(h.onward) && Listens(h.back)
    && !(h.onward.closed && h.back.closed)
  }

  /** Something went wrong: a peer reset its stream, or a leg could carry no more. */
  predicate Cause(h: Hop)
  {
    !NoReset(h.onward.heard) || !NoReset(h.back.heard) || Impaired(h.inbound) || Impaired(h.next)
  }

  /** Both directions half-closed and nobody reset; or something went wrong, and the inbound
      peer is told, the next one not. */
  predicate Ended(h: Hop)
  {
    && !HasReset(h.next.wire)
    && ((h.onward.closed && h.back.closed && !HasReset(h.inbound.wire))
        || (Cause(h) && RelayTrace.Told(h.inbound, Unreachable_)))
  }

  predicate Parted(h: Hop) { if h.over then Ended(h) else Going(h) }

  /** A step of a direction fails only for a cause, and leaves its legs sane otherwise. */
  predicate Keeps(src: Leg, dst: Leg, p: Pipe, f: Flow)
  {
    && Listens(f.pipe) && (NoReset(f.pipe.heard) ==> NoReset(p.heard))
    && f.src.log == src.log && f.dst.log == dst.log
    && (Impaired(src) ==> Impaired(f.src)) && (Impaired(dst) ==> Impaired(f.dst))
    && (f.ok ==> Sane(f.src) && Sane(f.dst))
    && (!f.ok ==> !NoReset(f.pipe.heard) || Impaired(f.src) || Impaired(f.dst))
  }

  lemma ConsumeSane(l: Leg, n: nat)
    requires Sane(l)
    ensures Sane(Outcome(Consume(l, n), l)) && Outcome(Consume(l, n), l).log == l.log
    ensures Impaired(l) ==> Impaired(Outcome(Consume(l, n), l))
  {
  }

  lemma SendSane(l: Leg, bytes: Bytes)
    requires Sane(l)
    ensures var s := SendData(l, bytes);
            && Sane(Outcome(s, l)) && Outcome(s, l).log == l.log && (s.Broken? ==> Impaired(Outcome(s, l)))
            && (Impaired(l) ==> Impaired(Outcome(s, l)))
  {
  }

  lemma FinSane(l: Leg)
    requires Sane(l)
    ensures var s := SendFin(l);
            && Sane(Outcome(s, l)) && Outcome(s, l).log == l.log && (!s.Sent? ==> Impaired(Outcome(s, l)))
            && (Impaired(l) ==> Impaired(Outcome(s, l)))
  {
  }

  lemma AbsorbListens(p: Pipe, e: Event)
    requires Listens(p)
    ensures Listens(Heard(p, e)) && (NoReset(Heard(p, e).heard) ==> NoReset(p.heard))
  {
    assert forall v <- p.heard :: v in Heard(p, e).heard;
    assert e in Heard(p, e).heard;
  }

  lemma FlowsKeepGoing(src: Leg, dst: Leg, p: Pipe, act: Act, f: Flow)
    requires Sane(src) && Sane(dst) && Listens(p) && f == Flows(src, dst, p, act)
    ensures Keeps(src, dst, p, f)
  {
    match act {
      case Absorb => if src.inbox != [] { AbsorbListens(p, src.inbox[0]); }
      case Copy(n) => ConsumeSane(src, n);
      case Offer => SendSane(dst, p.copyBuf);
      case Flush => SendSane(dst, p.writeBuf);
      case Finish => FinSane(dst);
      case ReadFails =>
      case WriteFails =>
    }
  }

  lemma GoOnParts(h: Hop, ok: bool)
    requires Quiet(h.inbound) && Quiet(h.next) && !h.over && Listens(h.onward) && Listens(h.back)
    requires ok ==> Sane(h.inbound) && Sane(h.next)
    requires !ok ==> Cause(h)
    ensures Parted(GoOn(h, ok))
  {
  }

  lemma OnwardParts(h: Hop, act: Act)
    requires HopOk(h) && !h.over && Going(h)
    ensures Parted(Step(h, Onward(act)))
  {
    var f := Flows(h.inbound, h.next, h.onward, act);
    FlowsKeeps(h.inbound, h.next, h.onward, act, f);
    FlowsKeepGoing(h.inbound, h.next, h.onward, act, f);
    GoOnParts(h.(inbound := f.src, next := f.dst, onward := f.pipe), f.ok);
  }

  lemma BackParts(h: Hop, act: Act)
    requires HopOk(h) && !h.over && Going(h)
    ensures Parted(Step(h, Back(act)))
  {
    var f := Flows(h.next, h.inbound, h.back, act);
    FlowsKeeps(h.next, h.inbound, h.back, act, f);
    FlowsKeepGoing(h.next, h.inbound, h.back, act, f);
    GoOnParts(h.(next := f.src, inbound := f.dst, back := f.pipe), f.ok);
  }

  lemma StepParts(h: Hop, m: Move)
    requires HopOk(h) && Parted(h)
    ensures Parted(Step(h, m))
  {
    if h.over { return; }
    match m {
      case Arrive(Inbound_, inbound) => DispatchSane(h.inbound, inbound);
      case Arrive(Next_, inbound) => DispatchSane(h.next, inbound);
      case Onward(act) => OnwardParts(h, act);
      case Back(act) => BackParts(h, act);
    }
  }

  lemma {:induction false} RunParts(h: Hop, moves: seq<Move>)
    requires HopOk(h) && Parted(h)
    ensures HopOk(Run(h, moves)) && Parted(Run(h, moves))
    decreases |moves|
  {
    if moves != [] {
      StepKeeps(h, moves[0]);
      StepParts(h, moves[0]);
      RunParts(Step(h, moves[0]), moves[1..]);
    }
  }

  /** In every run a hop ends in one of two ways: both directions were half-closed and nobody is
      reset; or a peer reset its stream or a leg could carry no more, and then the peer it serves
      is told, as far as the session still seals. */
  lemma HopEndsForACause(inboundWindow: nat, nextWindow: nat, moves: seq<Move>)
    ensures var h := Run(Opened(inboundWindow, nextWindow), moves);
            if h.over then Ended(h) else !(h.onward.closed && h.back.closed)
  {
    OpenedOk(inboundWindow, nextWindow);
    RunParts(Opened(inboundWindow, nextWindow), moves);
  }

  /** A reset ends the hop once the data before it was read; and a half-close whose offset was
      reached is passed on when nothing is under way. */
  lemma ResetIsFatal(h: Hop)
    requires HopOk(h) && !h.over && Going(h)
    ensures !h.onward.closed && h.onward.readBuf == [] && !NoReset(h.onward.heard) ==>
              Step(h, Onward(ReadFails)).over && RelayTrace.Told(Step(h, Onward(ReadFails)).inbound, Unreachable_)
    ensures !h.back.closed && h.back.readBuf == [] && !NoReset(h.back.heard) ==>
              Step(h, Back(ReadFails)).over && RelayTrace.Told(Step(h, Back(ReadFails)).inbound, Unreachable_)
  {
  }

  /** Everything announced has been read by the copy loop. */
  predicate AllRead(p: Pipe)
  {
    (exists e <- p.heard :: e.GotFin?) && forall e <- p.heard :: e.GotFin? ==> e.upTo <= |Queued(p.heard)|
  }

  /** A direction is half-closed exactly when nothing is under way and every final offset heard
      was reached, or the source's session is gone. */
  lemma HalfClosesExactly(src: Leg, dst: Leg, p: Pipe)
    requires FlowOk(src, dst, p) && !p.closed
    ensures Flows(src, dst, p, Finish).pipe.closed <==>
            Under(p) == [] && (AllRead(p) || (src.inbox == [] && !src.sink))
  {
    if AllRead(p) { var e :| e in p.heard && e.GotFin?; }
    assert Payload(dst.wire) + [] == Payload(dst.wire);
    assert Under(p) == [] <==> p.readBuf == [] && p.copyBuf == [] && p.writeBuf == [];
  }

  /** And then the other side is told, with the offset of everything forwarded. */
  lemma HalfClosePasses(src: Leg, dst: Leg, p: Pipe)
    requires Quiet(dst) && FlowOk(src, dst, p) && !p.closed && Flows(src, dst, p, Finish).pipe.closed && dst.installed && CanSeal(dst, 1)
    ensures var f := Flows(src, dst, p, Finish);
            f.ok && f.dst.wire == dst.wire + [Fin(|Queued(p.heard)|)]
  {
    assert Payload(dst.wire) + [] == Payload(dst.wire);
  }

  // ---- the far side is never told --------------------------------------------

  lemma OneMove(h: Hop, m: Move, rest: seq<Move>)
    ensures Run(h, [m] + rest) == Run(Step(h, m), rest)
  {
    assert ([m] + rest)[1..] == rest;
  }

  /** The inbound peer resets its stream at once; the hop notices. */
  function ResetAtOnce(why: ResetReason): seq<Move>
  {
    [Arrive(Inbound_, InReset(why))] + ([Onward(Absorb)] + ([Onward(ReadFails)] + []))
  }

  lemma ResetNoticed(inboundWindow: nat, nextWindow: nat, why: ResetReason) returns (h: Hop)
    ensures h == Step(Step(Opened(inboundWindow, nextWindow), Arrive(Inbound_, InReset(why))), Onward(Absorb))
    ensures !h.over && h.onward.reset && h.onward.readBuf == [] && !h.onward.closed && h.next == Fresh(nextWindow)
    ensures h.inbound.left.None? && h.inbound.wire == [OpenResult(Ok), Ready]
  {
    var h0 := Opened(inboundWindow, nextWindow);
    assert h0.inbound.wire == [OpenResult(Ok), Ready];
    var h1 := Step(h0, Arrive(Inbound_, InReset(why)));
    assert h1.inbound.inbox == [GotReset(why)];
    h := Step(h1, Onward(Absorb));
  }

  /** As the code stands: a hop whose caller resets answers the reset, and drops the stream it
      opened onward without a word, although that session is as good as new. */
  lemma FarSideLeftInTheDark(inboundWindow: nat, nextWindow: nat, why: ResetReason)
    ensures var h := Run(Opened(inboundWindow, nextWindow), ResetAtOnce(why));
            && h.over && h.inbound.wire == [OpenResult(Ok), Ready, Reset(Unreachable_)]
            && h.next.wire == [] && h.next.left.None? && !h.next.installed
  {
    var h0 := Opened(inboundWindow, nextWindow);
    var a, b, c := Arrive(Inbound_, InReset(why)), Onward(Absorb), Onward(ReadFails);
    OneMove(h0, a, [b] + ([c] + []));
    OneMove(Step(h0, a), b, [c] + []);
    OneMove(Step(Step(h0, a), b), c, []);
    var h := ResetNoticed(inboundWindow, nextWindow, why);
    assert Step(h, c) == Abort(h);
  }
}
