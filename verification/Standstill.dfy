/** Paths at rest: every limit has been heard of and no node has anything left to do. */
module Standstill {
  import opened Limits
  import opened StreamEngine
  import opened Link
  import opened Path
  import opened Journey
  import opened Keeping
  import Wiring
  import Relay
  import RelayTrace
  import Hop
  import ExitPump

  // ---- nodes at rest ---------------------------------------------------------

  predicate Live(l: Leg) { l.left.None? && l.installed && l.sink }

  /** Neither over nor about to be. */
  predicate Healthy(n: Node)
  {
    && Live(LeftLeg(n)) && Live(RightLeg(n))
    && match n
       case AtClient(c) => !c.over
       case AtBridge(b) => b.phase.Pumping?
       case AtHop(h) => !h.over
       case AtExit(e) => !e.over
  }

  /** What a node does without being asked: take its next event, or move on what it holds. */
  predicate Unasked(m: NodeMove)
  {
    match m
    case ByClient(act) => act.TakeEvent?
    case ByBridge(move) => move.Take?
    case ByHop(move) => move.Onward? || move.Back?
    case ByExit(move) => move == ExitPump.Take(true)
  }

  ghost predicate AtRest(n: Node) { forall m :: Unasked(m) ==> Acting(n, m) == n }

  /** Taking an event shows. */
  lemma ClientMoves(c: Client)
    requires !c.over && c.leg.inbox != []
    ensures ClientStep(c, TakeEvent) != c
  {
    assert |ClientStep(c, TakeEvent).heard| == |c.heard| + 1;
  }

  lemma CallerMoves(b: Relay.Bridge)
    requires b.phase.Pumping? && b.caller.inbox != []
    ensures Relay.Step(b, Relay.Take(Relay.Caller)) != b
  {
    RelayTrace.CallerEventHeard(Relay.HearCaller(b), b.caller.inbox[0]);
    assert |Relay.Step(b, Relay.Take(Relay.Caller)).heardCaller| == |b.heardCaller| + 1;
  }

  lemma PublisherMoves(b: Relay.Bridge)
    requires b.phase.Pumping? && b.publisher.inbox != []
    ensures Relay.Step(b, Relay.Take(Relay.Publisher)) != b
  {
    RelayTrace.PublisherEventHeard(Relay.HearPublisher(b), b.publisher.inbox[0]);
    assert |Relay.Step(b, Relay.Take(Relay.Publisher)).heardPublisher| == |b.heardPublisher| + 1;
  }

  lemma ExitMoves(e: ExitPump.Exit)
    requires !e.over && e.leg.inbox != []
    ensures ExitPump.Step(e, ExitPump.Take(true)) != e
  {
    ExitPump.EventRuns(ExitPump.Popped(e), e.leg.inbox[0], true);
    assert |ExitPump.Step(e, ExitPump.Take(true)).heard| == |e.heard| + 1;
  }

  lemma ClientRests(c: Client)
    requires AtRest(AtClient(c)) && !c.over
    ensures c.leg.inbox == []
  {
    assert Acting(AtClient(c), ByClient(TakeEvent)) == AtClient(c);
    if c.leg.inbox != [] { ClientMoves(c); }
  }

  lemma BridgeRests(b: Relay.Bridge)
    requires AtRest(AtBridge(b)) && b.phase.Pumping?
    ensures b.caller.inbox == [] && b.publisher.inbox == []
  {
    assert Acting(AtBridge(b), ByBridge(Relay.Take(Relay.Caller))) == AtBridge(b);
    assert Acting(AtBridge(b), ByBridge(Relay.Take(Relay.Publisher))) == AtBridge(b);
    if b.caller.inbox != [] { CallerMoves(b); }
    if b.publisher.inbox != [] { PublisherMoves(b); }
  }

  lemma ExitRests(e: ExitPump.Exit)
    requires AtRest(AtExit(e)) && !e.over
    ensures e.leg.inbox == []
  {
    assert Acting(AtExit(e), ByExit(ExitPump.Take(true))) == AtExit(e);
    if e.leg.inbox != [] { ExitMoves(e); }
  }

  /** A direction of a hop that no step changes. */
  predicate FlowRests(src: Leg, dst: Leg, p: Hop.Pipe)
  {
    && Hop.Flows(src, dst, p, Hop.Absorb).pipe == p && Hop.Flows(src, dst, p, Hop.Copy(1)).pipe == p
    && Hop.Flows(src, dst, p, Hop.Offer).pipe == p && Hop.Flows(src, dst, p, Hop.Flush).pipe == p
  }

  lemma HopRests(h: Hop.Hop)
    requires AtRest(AtHop(h)) && !h.over
    ensures FlowRests(h.inbound, h.next, h.onward) && FlowRests(h.next, h.inbound, h.back)
  {
    forall act ensures Hop.Flows(h.inbound, h.next, h.onward, act).pipe == h.onward {
      assert Acting(AtHop(h), ByHop(Hop.Onward(act))) == AtHop(h);
    }
    forall act ensures Hop.Flows(h.next, h.inbound, h.back, act).pipe == h.back {
      assert Acting(AtHop(h), ByHop(Hop.Back(act))) == AtHop(h);
    }
  }

  // ---- with room ahead, nothing is held --------------------------------------

  /** The leg has credit for any chunk. */
  predicate Roomy(l: Leg) { l.sendLimit >= |Payload(l.wire)| + ExitPump.READ_CHUNK }

  /** One direction through a node is empty: all that came has gone on, and is credited. */
  predicate Passed(src: Leg, dst: Leg)
  {
    Payload(dst.wire) == Queued(src.log) && src.consumed == |Payload(dst.wire)|
  }

  lemma LaneEmpties(src: Leg, dst: Leg, buf: Bytes, taken: Bytes, heard: seq<Event>, seen: bool, sent: bool)
    requires Relay.Lane(src, dst, buf, taken, seen, sent) && Relay.Prompt(dst, buf) && Sound(dst)
    requires RelayTrace.Ear(src, heard, taken, seen) && src.inbox == [] && dst.inbox == [] && Live(dst) && Roomy(dst)
    ensures buf == [] && Passed(src, dst)
  {
    RelayTrace.ListenIsPrefix(heard);
    assert heard + [] == heard;
    assert Payload(dst.wire) + [] == Payload(dst.wire);
  }

  lemma BridgeEmpties(b: Relay.Bridge)
    requires NodeOk(AtBridge(b)) && Healthy(AtBridge(b)) && AtRest(AtBridge(b))
    ensures Roomy(b.publisher) ==> b.toPublisher == [] && Passed(b.caller, b.publisher)
    ensures Roomy(b.caller) ==> b.toCaller == [] && Passed(b.publisher, b.caller)
  {
    BridgeRests(b);
    if Roomy(b.publisher) {
      LaneEmpties(b.caller, b.publisher, b.toPublisher, b.fromCaller, b.heardCaller, b.callerFin, b.publisherFinSent);
    }
    if Roomy(b.caller) {
      LaneEmpties(b.publisher, b.caller, b.toCaller, b.fromPublisher, b.heardPublisher, b.publisherFin, b.callerFinSent);
    }
  }

  /** A half-close counts all its wire ever carries. */
  lemma {:induction false} FinAtEnd(w: seq<Record>, i: nat)
    requires Disciplined(w) && i < |w| && w[i].Fin?
    ensures HasFin(w) && w[i].finalOffset == |Payload(w)|
  {
    if i < |w| - 1 { FinAtEnd(w[..|w| - 1], i); }
  }

  /** A direction that was closed had delivered everything its source will ever send. */
  lemma ClosedIsEmpty(src: Leg, dst: Leg, p: Hop.Pipe, w: seq<Record>)
    requires Hop.FlowOk(src, dst, p) && p.closed && src.sink
    requires Disciplined(w) && Wiring.FinsSent(w, src.log) && Queued(src.log) <= Payload(w)
    ensures p.readBuf == []
  {
    var e :| e in p.heard && e.GotFin? && e.upTo <= p.delivered;
    assert e in src.log;
    var i :| 0 <= i < |w| && w[i] == Fin(e.upTo);
    FinAtEnd(w, i);
    QueuedConcat(p.heard, src.inbox);
  }

  /** Each step of a direction that is possible shows. */
  lemma FlowMoves(src: Leg, dst: Leg, p: Hop.Pipe)
    requires Hop.FlowOk(src, dst, p) && Live(dst) && Sound(dst) && Roomy(dst)
    ensures src.inbox != [] ==> Hop.Flows(src, dst, p, Hop.Absorb).pipe != p
    ensures !p.closed && p.writeBuf != [] ==> Hop.Flows(src, dst, p, Hop.Flush).pipe != p
    ensures !p.closed && p.writeBuf == [] && p.copyBuf != [] ==> Hop.Flows(src, dst, p, Hop.Offer).pipe != p
    ensures !p.closed && p.copyBuf == [] && p.readBuf != [] ==> Hop.Flows(src, dst, p, Hop.Copy(1)).pipe != p
  {
    if src.inbox != [] { assert |Hop.Flows(src, dst, p, Hop.Absorb).pipe.heard| == |p.heard| + 1; }
    if !p.closed && p.writeBuf != [] { assert SendData(dst, p.writeBuf).Sent?; }
    if !p.closed && p.copyBuf == [] && p.readBuf != [] {
      assert |Hop.Flows(src, dst, p, Hop.Copy(1)).pipe.copyBuf| == 1;
    }
  }

  lemma FlowEmpties(src: Leg, dst: Leg, p: Hop.Pipe, w: seq<Record>)
    requires Hop.FlowOk(src, dst, p) && FlowRests(src, dst, p) && Live(src) && Live(dst) && Sound(dst) && Roomy(dst)
    requires Disciplined(w) && Wiring.FinsSent(w, src.log) && Queued(src.log) <= Payload(w)
    ensures Hop.Under(p) == [] && Passed(src, dst)
  {
    FlowMoves(src, dst, p);
    if p.closed { ClosedIsEmpty(src, dst, p, w); }
    assert p.heard + [] == p.heard && Payload(dst.wire) + [] == Payload(dst.wire);
  }

  lemma HopEmpties(h: Hop.Hop, left: seq<Record>, right: seq<Record>)
    requires NodeOk(AtHop(h)) && Healthy(AtHop(h)) && AtRest(AtHop(h))
    requires Disciplined(left) && Wiring.FinsSent(left, h.inbound.log) && Queued(h.inbound.log) <= Payload(left)
    requires Disciplined(right) && Wiring.FinsSent(right, h.next.log) && Queued(h.next.log) <= Payload(right)
    ensures Roomy(h.next) ==> Hop.Under(h.onward) == [] && Passed(h.inbound, h.next)
    ensures Roomy(h.inbound) ==> Hop.Under(h.back) == [] && Passed(h.next, h.inbound)
  {
    HopRests(h);
    if Roomy(h.next) { FlowEmpties(h.inbound, h.next, h.onward, left); }
    if Roomy(h.inbound) { FlowEmpties(h.next, h.inbound, h.back, right); }
  }

  /** Something is on its way through the node in that direction. */
  predicate Holds(n: Node, toRight: bool)
  {
    match n
    case AtClient(c) => c.leg.inbox != []
    case AtBridge(b) => if toRight then b.toPublisher != [] else b.toCaller != []
    case AtHop(h) => Hop.Under(if toRight then h.onward else h.back) != []
    case AtExit(e) => if toRight then e.leg.inbox != [] else e.pending != []
  }

  /** What a peer's wire must satisfy for the leg that hears it. */
  predicate Behind(w: seq<Record>, l: Leg)
  {
    Disciplined(w) && Wiring.FinsSent(w, l.log) && Queued(l.log) <= Payload(w)
  }

  /** With room ahead, a node at rest between two wires holds nothing. */
  lemma NodeEmpties(n: Node, left: seq<Record>, right: seq<Record>)
    requires NodeOk(n) && (n.AtBridge? || n.AtHop?) && Healthy(n) && AtRest(n)
    requires Behind(left, LeftLeg(n)) && Behind(right, RightLeg(n))
    ensures Roomy(RightLeg(n)) ==> !Holds(n, true) && Passed(LeftLeg(n), RightLeg(n))
    ensures Roomy(LeftLeg(n)) ==> !Holds(n, false) && Passed(RightLeg(n), LeftLeg(n))
  {
    match n {
      case AtBridge(b) => BridgeEmpties(b);
      case AtHop(h) => HopEmpties(h, left, right);
    }
  }

  lemma ExitEmpties(e: ExitPump.Exit)
    requires NodeOk(AtExit(e)) && Healthy(AtExit(e)) && AtRest(AtExit(e))
    ensures e.wrote == Queued(e.leg.log) && e.leg.consumed == |e.wrote| && !Holds(AtExit(e), true)
    ensures Roomy(e.leg) ==> e.pending == [] && Payload(e.leg.wire) == e.read
  {
    ExitRests(e);
    assert e.heard + [] == e.heard && Payload(e.leg.wire) + [] == Payload(e.leg.wire);
  }

  lemma ClientEmpties(c: Client)
    requires NodeOk(AtClient(c)) && Healthy(AtClient(c)) && AtRest(AtClient(c))
    ensures Queued(c.heard) == Queued(c.leg.log) && c.leg.consumed == |Queued(c.heard)| && c.leg.inbox == []
  {
    ClientRests(c);
    assert c.heard + [] == c.heard;
  }

  // ---- links at rest ---------------------------------------------------------

  /** Every limit was heard of. */
  predicate Settled(s: Leg, r: Leg) { Read(r.wire).promised <= s.sendLimit }

  /** The receiver does not have some data record. */
  predicate Misses(s: Leg, buf: Buffer)
  {
    exists k :: 0 <= k < |s.wire| && s.wire[k].Data? && !Kept(buf, s.wire[k].offset)
  }

  lemma LinkDry(s: Leg, r: Leg, buf: Buffer)
    requires Wiring.Linked(s, r, buf) && Settled(s, r) && Live(r)
    ensures Behind(s.wire, r) && Queued(r.log) <= Payload(s.wire)
    ensures s.sendLimit >= r.consumed + Base(r)
    ensures Queued(r.log) == Payload(s.wire) <==> !Misses(s, buf)
  {
    WholeExactlyWhenKept(s.wire, buf);
  }

  // ---- paths at rest ---------------------------------------------------------

  /** One direction of a joint in order, and run dry. */
  ghost predicate Dry(s: Leg, r: Leg, buf: Buffer)
  {
    Wiring.Linked(s, r, buf) && Settled(s, r) && Base(r) >= ExitPump.READ_CHUNK
  }

  ghost predicate DryAt(net: Net<Node>, i: nat)
    requires Shaped(net) && i < |net.joints|
  {
    var a, j, b := net.nodes[i], net.joints[i], net.nodes[i + 1];
    Dry(RightLeg(a), LeftLeg(b), j.toRight) && Dry(LeftLeg(b), RightLeg(a), j.toLeft)
  }

  /** A node in its place, in order, healthy and with nothing left to do. */
  ghost predicate RestsAt(net: Net<Node>, i: nat)
    requires Shaped(net) && i < |net.nodes|
  {
    var n := net.nodes[i];
    && NodeOk(n) && Healthy(n) && AtRest(n)
    && (n.AtClient? <==> i == 0) && (n.AtExit? <==> i == |net.joints|)
  }

  /** The whole path has come to rest: every limit was heard of over links whose windows hold
      at least a read buffer, no session fails, and no node has anything left to do. */
  ghost predicate Rests(net: Net<Node>)
  {
    && Shaped(net) && |net.joints| > 0
    && (forall i :: 0 <= i < |net.nodes| ==> RestsAt(net, i))
    && (forall i :: 0 <= i < |net.joints| ==> DryAt(net, i))
  }

  predicate MissingAt(net: Net<Node>, i: nat, toRight: bool)
    requires Shaped(net) && i < |net.joints|
  {
    if toRight then Misses(RightLeg(net.nodes[i]), net.joints[i].toRight)
    else Misses(LeftLeg(net.nodes[i + 1]), net.joints[i].toLeft)
  }

  function ExitOf(net: Net<Node>): ExitPump.Exit
    requires Shaped(net) && net.nodes[|net.joints|].AtExit?
  {
    net.nodes[|net.joints|].exit
  }

  function ClientOf(net: Net<Node>): Client
    requires Shaped(net) && net.nodes[0].AtClient?
  {
    net.nodes[0].client
  }

  /** What one joint says, both ways. */
  lemma JointSays(net: Net<Node>, i: nat)
    requires Rests(net) && i < |net.joints|
    ensures var (s, r) := (RightLeg(net.nodes[i]), LeftLeg(net.nodes[i + 1]));
            && Behind(s.wire, r) && s.sendLimit >= r.consumed + ExitPump.READ_CHUNK
            && (Queued(r.log) == Payload(s.wire) <==> !MissingAt(net, i, true))
            && Behind(r.wire, s) && r.sendLimit >= s.consumed + ExitPump.READ_CHUNK
            && (Queued(s.log) == Payload(r.wire) <==> !MissingAt(net, i, false))
  {
    assert RestsAt(net, i) && RestsAt(net, i + 1) && DryAt(net, i);
    var (s, r) := (RightLeg(net.nodes[i]), LeftLeg(net.nodes[i + 1]));
    LinkDry(s, r, net.joints[i].toRight);
    LinkDry(r, s, net.joints[i].toLeft);
  }

  lemma AllArrivedRight(net: Net<Node>, i: nat)
    requires Rests(net) && i < |net.joints| && !MissingAt(net, i, true)
    ensures Queued(LeftLeg(net.nodes[i + 1]).log) == Payload(RightLeg(net.nodes[i]).wire)
  {
    JointSays(net, i);
  }

  lemma AllArrivedLeft(net: Net<Node>, i: nat)
    requires Rests(net) && i < |net.joints| && !MissingAt(net, i, false)
    ensures Queued(RightLeg(net.nodes[i]).log) == Payload(LeftLeg(net.nodes[i + 1]).wire)
  {
    JointSays(net, i);
  }

  lemma InnerEmpties(net: Net<Node>, i: nat)
    requires Rests(net) && 0 < i < |net.joints|
    ensures var n := net.nodes[i];
            && (Roomy(RightLeg(n)) ==> !Holds(n, true) && Passed(LeftLeg(n), RightLeg(n)))
            && (Roomy(LeftLeg(n)) ==> !Holds(n, false) && Passed(RightLeg(n), LeftLeg(n)))
  {
    assert RestsAt(net, i);
    JointSays(net, i - 1);
    JointSays(net, i);
    NodeEmpties(net.nodes[i], RightLeg(net.nodes[i - 1]).wire, LeftLeg(net.nodes[i + 1]).wire);
  }

  /** All that went over joint `i` to the right has been written by the exit and is credited,
      and the node behind the joint holds nothing of it. */
  predicate RightClear(net: Net<Node>, i: nat)
    requires Shaped(net) && i < |net.joints|
  {
    && net.nodes[|net.joints|].AtExit?
    && Payload(RightLeg(net.nodes[i]).wire) == ExitOf(net).wrote
    && LeftLeg(net.nodes[i + 1]).consumed == |Payload(RightLeg(net.nodes[i]).wire)|
    && !Holds(net.nodes[i + 1], true)
  }

  lemma RightEnd(net: Net<Node>)
    requires Rests(net) && !MissingAt(net, |net.joints| - 1, true)
    ensures RightClear(net, |net.joints| - 1)
  {
    JointSays(net, |net.joints| - 1);
    assert RestsAt(net, |net.joints|);
    ExitEmpties(ExitOf(net));
  }

  lemma RoomToTheRight(net: Net<Node>, i: nat)
    requires Rests(net) && i < |net.joints| && RightClear(net, i)
    ensures Roomy(RightLeg(net.nodes[i]))
  {
    JointSays(net, i);
  }

  lemma RightStep(net: Net<Node>, i: nat)
    requires Rests(net) && i + 1 < |net.joints| && !MissingAt(net, i, true) && RightClear(net, i + 1)
    ensures RightClear(net, i)
  {
    AllArrivedRight(net, i);
    RoomToTheRight(net, i + 1);
    InnerEmpties(net, i + 1);
  }

  /** From a joint on which nothing is missing, nor to the right of it, everything has reached
      the exit. */
  lemma {:induction false} RightDry(net: Net<Node>, i: nat)
    requires Rests(net) && i < |net.joints| && forall k :: i <= k < |net.joints| ==> !MissingAt(net, k, true)
    ensures RightClear(net, i)
    decreases |net.joints| - i
  {
    assert !MissingAt(net, i, true);
    if i + 1 == |net.joints| {
      RightEnd(net);
    } else {
      RightDry(net, i + 1);
      RightStep(net, i);
    }
  }

  predicate LeftClear(net: Net<Node>, i: nat)
    requires Shaped(net) && i < |net.joints|
  {
    && net.nodes[0].AtClient?
    && Payload(LeftLeg(net.nodes[i + 1]).wire) == Queued(ClientOf(net).heard)
    && RightLeg(net.nodes[i]).consumed == |Payload(LeftLeg(net.nodes[i + 1]).wire)|
    && !Holds(net.nodes[i], false)
  }

  lemma LeftEnd(net: Net<Node>)
    requires Rests(net) && !MissingAt(net, 0, false)
    ensures LeftClear(net, 0)
  {
    JointSays(net, 0);
    assert RestsAt(net, 0);
    ClientEmpties(ClientOf(net));
  }

  lemma RoomToTheLeft(net: Net<Node>, i: nat)
    requires Rests(net) && i < |net.joints| && LeftClear(net, i)
    ensures Roomy(LeftLeg(net.nodes[i + 1]))
  {
    JointSays(net, i);
  }

  lemma LeftStep(net: Net<Node>, i: nat)
    requires Rests(net) && 0 < i < |net.joints| && !MissingAt(net, i, false) && LeftClear(net, i - 1)
    ensures LeftClear(net, i)
  {
    AllArrivedLeft(net, i);
    RoomToTheLeft(net, i - 1);
    InnerEmpties(net, i);
  }

  lemma {:induction false} LeftDry(net: Net<Node>, i: nat)
    requires Rests(net) && i < |net.joints| && forall k :: 0 <= k <= i ==> !MissingAt(net, k, false)
    ensures LeftClear(net, i)
  {
    assert !MissingAt(net, i, false);
    if i == 0 {
      LeftEnd(net);
    } else {
      LeftDry(net, i - 1);
      LeftStep(net, i);
    }
  }

  // ---- what a missing record costs -------------------------------------------

  function SentRight(net: Net<Node>, i: nat): nat
    requires Shaped(net) && i < |net.joints|
  {
    |Payload(RightLeg(net.nodes[i]).wire)|
  }

  function GotRight(net: Net<Node>, i: nat): nat
    requires Shaped(net) && i < |net.joints|
  {
    |Queued(LeftLeg(net.nodes[i + 1]).log)|
  }

  function SentLeft(net: Net<Node>, i: nat): nat
    requires Shaped(net) && i < |net.joints|
  {
    |Payload(LeftLeg(net.nodes[i + 1]).wire)|
  }

  function GotLeft(net: Net<Node>, i: nat): nat
    requires Shaped(net) && i < |net.joints|
  {
    |Queued(RightLeg(net.nodes[i]).log)|
  }

  lemma OverJoint(net: Net<Node>, i: nat)
    requires Rests(net) && i < |net.joints|
    ensures GotRight(net, i) <= SentRight(net, i) && (MissingAt(net, i, true) ==> GotRight(net, i) < SentRight(net, i))
    ensures GotLeft(net, i) <= SentLeft(net, i) && (MissingAt(net, i, false) ==> GotLeft(net, i) < SentLeft(net, i))
  {
    JointSays(net, i);
  }

  lemma OverInner(net: Net<Node>, i: nat)
    requires Rests(net) && 0 < i < |net.joints|
    ensures SentRight(net, i) <= GotRight(net, i - 1) && SentLeft(net, i - 1) <= GotLeft(net, i)
  {
    assert RestsAt(net, i);
    NodePasses(net.nodes[i]);
  }

  /** The further from the client, the less has been sent. */
  lemma {:induction false} RightShrinks(net: Net<Node>, i: nat)
    requires Rests(net) && i < |net.joints|
    ensures SentRight(net, i) <= SentRight(net, 0)
  {
    if i > 0 {
      RightShrinks(net, i - 1);
      OverJoint(net, i - 1);
      OverInner(net, i);
    }
  }

  lemma WrittenWasGot(net: Net<Node>)
    requires Rests(net)
    ensures net.nodes[|net.joints|].AtExit? && |ExitOf(net).wrote| <= GotRight(net, |net.joints| - 1)
  {
    assert RestsAt(net, |net.joints|);
    ExitHolds(ExitOf(net));
  }

  /** What the exit wrote had come over every joint. */
  lemma {:induction false} WrittenCameOver(net: Net<Node>, i: nat)
    requires Rests(net) && i < |net.joints|
    ensures net.nodes[|net.joints|].AtExit? && |ExitOf(net).wrote| <= GotRight(net, i)
    decreases |net.joints| - i
  {
    if i + 1 == |net.joints| {
      WrittenWasGot(net);
    } else {
      WrittenCameOver(net, i + 1);
      OverJoint(net, i + 1);
      OverInner(net, i + 1);
    }
  }

  lemma {:induction false} LeftShrinks(net: Net<Node>, i: nat)
    requires Rests(net) && i < |net.joints|
    ensures SentLeft(net, i) <= SentLeft(net, |net.joints| - 1)
    decreases |net.joints| - i
  {
    if i + 1 < |net.joints| {
      LeftShrinks(net, i + 1);
      OverJoint(net, i + 1);
      OverInner(net, i + 1);
    }
  }

  lemma HeardWasGot(net: Net<Node>)
    requires Rests(net)
    ensures net.nodes[0].AtClient? && |Queued(ClientOf(net).heard)| <= GotLeft(net, 0)
  {
    assert RestsAt(net, 0);
    ClientEmpties(ClientOf(net));
  }

  lemma {:induction false} HeardCameOver(net: Net<Node>, i: nat)
    requires Rests(net) && i < |net.joints|
    ensures net.nodes[0].AtClient? && |Queued(ClientOf(net).heard)| <= GotLeft(net, i)
  {
    if i == 0 {
      HeardWasGot(net);
    } else {
      HeardCameOver(net, i - 1);
      OverJoint(net, i - 1);
      OverInner(net, i);
    }
  }

  /** At rest the exit has written all that the client sent, exactly if nothing is missing on
      any joint. */
  lemma RightRest(net: Net<Node>)
    requires Rests(net)
    ensures net.nodes[0].AtClient? && net.nodes[|net.joints|].AtExit?
    ensures ExitOf(net).wrote == Payload(ClientOf(net).leg.wire) <==> forall i :: 0 <= i < |net.joints| ==> !MissingAt(net, i, true)
  {
    assert RestsAt(net, 0) && RestsAt(net, |net.joints|);
    if i :| 0 <= i < |net.joints| && MissingAt(net, i, true) {
      OverJoint(net, i);
      WrittenCameOver(net, i);
      RightShrinks(net, i);
    } else {
      RightDry(net, 0);
    }
  }

  /** Then no node but the client holds anything on its way to the exit. */
  lemma RightEmpty(net: Net<Node>, i: nat)
    requires Rests(net) && 0 < i < |net.nodes| && forall k :: 0 <= k < |net.joints| ==> !MissingAt(net, k, true)
    ensures !Holds(net.nodes[i], true)
  {
    RightDry(net, i - 1);
  }

  lemma ReadIsSent(net: Net<Node>)
    requires Rests(net) && LeftClear(net, |net.joints| - 1)
    ensures net.nodes[|net.joints|].AtExit? && Payload(ExitOf(net).leg.wire) == ExitOf(net).read && ExitOf(net).pending == []
  {
    JointSays(net, |net.joints| - 1);
    assert RestsAt(net, |net.joints|);
    ExitEmpties(ExitOf(net));
  }

  lemma LeftEmpty(net: Net<Node>, i: nat)
    requires Rests(net) && i < |net.nodes| && forall k :: 0 <= k < |net.joints| ==> !MissingAt(net, k, false)
    ensures !Holds(net.nodes[i], false)
  {
    if i < |net.joints| {
      LeftDry(net, i);
    } else {
      LeftDry(net, i - 1);
      ReadIsSent(net);
    }
  }

  lemma ReadIsMore(net: Net<Node>)
    requires Rests(net)
    ensures net.nodes[|net.joints|].AtExit? && Payload(ExitOf(net).leg.wire) <= ExitOf(net).read
  {
    assert RestsAt(net, |net.joints|);
    ExitHolds(ExitOf(net));
  }

  /** And the client has received all that was read from the target. */
  lemma LeftRest(net: Net<Node>)
    requires Rests(net)
    ensures net.nodes[0].AtClient? && net.nodes[|net.joints|].AtExit?
    ensures Queued(ClientOf(net).heard) == ExitOf(net).read <==> forall i :: 0 <= i < |net.joints| ==> !MissingAt(net, i, false)
  {
    assert RestsAt(net, 0) && RestsAt(net, |net.joints|);
    ReadIsMore(net);
    if i :| 0 <= i < |net.joints| && MissingAt(net, i, false) {
      OverJoint(net, i);
      HeardCameOver(net, i);
      LeftShrinks(net, i);
    } else {
      LeftDry(net, |net.joints| - 1);
      ReadIsSent(net);
    }
  }

  // ---- every run -------------------------------------------------------------

  /** Nothing is left to happen but what someone outside starts. */
  ghost predicate CameToRest(net: Net<Node>)
    requires Shaped(net)
  {
    && (forall i :: 0 <= i < |net.nodes| ==> Healthy(net.nodes[i]) && AtRest(net.nodes[i]))
    && (forall i :: 0 <= i < |net.joints| ==>
          && Settled(RightLeg(net.nodes[i]), LeftLeg(net.nodes[i + 1]))
          && Settled(LeftLeg(net.nodes[i + 1]), RightLeg(net.nodes[i])))
  }

  /** All windows hold a read buffer. */
  predicate Wide(windows: seq<nat>) { forall w <- windows :: w >= ExitPump.READ_CHUNK }

  lemma WideBase(l: Leg, w: nat)
    requires w >= ExitPump.READ_CHUNK && l.window == Fresh(w).window
    ensures Base(l) >= ExitPump.READ_CHUNK
  {
  }

  lemma NodePlaced(windows: seq<nat>, relayers: seq<Relayer>, kind: ExitPump.Kind, nodes: seq<Node>, i: nat)
    requires |windows| == |relayers| + 1 && i <= |windows| && SameSizes(Stations(), Start(windows, relayers, kind).nodes, nodes)
    ensures |nodes| == |windows| + 1 && (nodes[i].AtClient? <==> i == 0) && (nodes[i].AtExit? <==> i == |windows|)
    ensures i > 0 ==> LeftLeg(nodes[i]).window == Fresh(windows[i - 1]).window
    ensures i < |windows| ==> RightLeg(nodes[i]).window == Fresh(windows[i]).window
  {
    StartSizes(windows, relayers, kind, i);
    assert SameSize(Stations(), Start(windows, relayers, kind).nodes[i], nodes[i]);
  }

  lemma JointDry(net: Net<Node>, i: nat)
    requires NetOk(Stations(), net) && CameToRest(net) && i < |net.joints|
    requires Base(LeftLeg(net.nodes[i + 1])) >= ExitPump.READ_CHUNK && Base(RightLeg(net.nodes[i])) >= ExitPump.READ_CHUNK
    ensures DryAt(net, i)
  {
    assert JoinedAt(Stations(), net, i);
  }

  lemma NodeInOrder(net: Net<Node>, i: nat)
    requires NetOk(Stations(), net) && i < |net.nodes|
    ensures NodeOk(net.nodes[i])
  {
    assert Stations().ok(net.nodes[i]);
  }

  lemma NodeReachedRest(windows: seq<nat>, relayers: seq<Relayer>, kind: ExitPump.Kind, net: Net<Node>, i: nat)
    requires |windows| == |relayers| + 1 && NetOk(Stations(), net) && i < |net.nodes| && Healthy(net.nodes[i]) && AtRest(net.nodes[i])
    requires SameSizes(Stations(), Start(windows, relayers, kind).nodes, net.nodes)
    ensures RestsAt(net, i)
  {
    NodePlaced(windows, relayers, kind, net.nodes, i);
    NodeInOrder(net, i);
  }

  lemma PlacedWindows(windows: seq<nat>, relayers: seq<Relayer>, kind: ExitPump.Kind, nodes: seq<Node>, i: nat)
    requires |windows| == |relayers| + 1 && i < |windows| && SameSizes(Stations(), Start(windows, relayers, kind).nodes, nodes)
    ensures |nodes| == |windows| + 1
    ensures LeftLeg(nodes[i + 1]).window == Fresh(windows[i]).window && RightLeg(nodes[i]).window == Fresh(windows[i]).window
  {
    NodePlaced(windows, relayers, kind, nodes, i);
    NodePlaced(windows, relayers, kind, nodes, i + 1);
  }

  lemma WideJoint(windows: seq<nat>, relayers: seq<Relayer>, kind: ExitPump.Kind, nodes: seq<Node>, i: nat)
    requires |windows| == |relayers| + 1 && Wide(windows) && i < |windows|
    requires SameSizes(Stations(), Start(windows, relayers, kind).nodes, nodes)
    ensures |nodes| == |windows| + 1
    ensures Base(LeftLeg(nodes[i + 1])) >= ExitPump.READ_CHUNK && Base(RightLeg(nodes[i])) >= ExitPump.READ_CHUNK
  {
    PlacedWindows(windows, relayers, kind, nodes, i);
    assert windows[i] in windows;
    WideBase(LeftLeg(nodes[i + 1]), windows[i]);
    WideBase(RightLeg(nodes[i]), windows[i]);
  }

  lemma JointReachedRest(windows: seq<nat>, relayers: seq<Relayer>, kind: ExitPump.Kind, net: Net<Node>, i: nat)
    requires |windows| == |relayers| + 1 && Wide(windows) && NetOk(Stations(), net)
    requires SameSizes(Stations(), Start(windows, relayers, kind).nodes, net.nodes) && CameToRest(net) && i < |net.joints|
    ensures DryAt(net, i)
  {
    WideJoint(windows, relayers, kind, net.nodes, i);
    JointDry(net, i);
  }

  lemma ReachedRest(windows: seq<nat>, relayers: seq<Relayer>, kind: ExitPump.Kind, net: Net<Node>)
    requires |windows| == |relayers| + 1 && Wide(windows) && NetOk(Stations(), net)
    requires SameSizes(Stations(), Start(windows, relayers, kind).nodes, net.nodes) && CameToRest(net)
    ensures Rests(net)
  {
    forall i | 0 <= i < |net.nodes| ensures RestsAt(net, i) { NodeReachedRest(windows, relayers, kind, net, i); }
    forall i | 0 <= i < |net.joints| ensures DryAt(net, i) { JointReachedRest(windows, relayers, kind, net, i); }
  }

  lemma RunSettles(windows: seq<nat>, relayers: seq<Relayer>, kind: ExitPump.Kind, steps: seq<Step<NodeMove>>, net: Net<Node>)
    requires |windows| == |relayers| + 1 && Wide(windows) && net == Run(Stations(), Start(windows, relayers, kind), steps) && CameToRest(net)
    ensures Rests(net)
  {
    var start := Start(windows, relayers, kind);
    Laws();
    StartOk(windows, relayers, kind);
    RunKeeps(Stations(), start, steps);
    RunSizes(Stations(), start, steps);
    ReachedRest(windows, relayers, kind, net);
  }

  /** A path that has come to rest has delivered everything, both ways, exactly if no receiver
      misses a record, and then holds nothing. */
  lemma RestsExactlyWhenNothingIsMissing(windows: seq<nat>, relayers: seq<Relayer>, kind: ExitPump.Kind, steps: seq<Step<NodeMove>>)
    returns (net: Net<Node>, c: Client, e: ExitPump.Exit)
    requires |windows| == |relayers| + 1 && Wide(windows) && CameToRest(Run(Stations(), Start(windows, relayers, kind), steps))
    ensures net == Run(Stations(), Start(windows, relayers, kind), steps) && Ends(net, c, e)
    ensures e.wrote == Payload(c.leg.wire) <==> forall i :: 0 <= i < |net.joints| ==> !MissingAt(net, i, true)
    ensures Queued(c.heard) == e.read <==> forall i :: 0 <= i < |net.joints| ==> !MissingAt(net, i, false)
    ensures e.wrote == Payload(c.leg.wire) ==> forall i :: 0 < i < |net.nodes| ==> !Holds(net.nodes[i], true)
    ensures Queued(c.heard) == e.read ==> forall i :: 0 <= i < |net.nodes| ==> !Holds(net.nodes[i], false)
  {
    net := Run(Stations(), Start(windows, relayers, kind), steps);
    RunSettles(windows, relayers, kind, steps, net);
    RightRest(net);
    LeftRest(net);
    c, e := ClientOf(net), ExitOf(net);
    if e.wrote == Payload(c.leg.wire) {
      forall i | 0 < i < |net.nodes| ensures !Holds(net.nodes[i], true) { RightEmpty(net, i); }
    }
    if Queued(c.heard) == e.read {
      forall i | 0 <= i < |net.nodes| ensures !Holds(net.nodes[i], false) { LeftEmpty(net, i); }
    }
  }
}
