/** The real nodes of a path: a client, any number of Hub bridges and hops, and the exit of the
    Hub or of a node, each its own state machine. */
module Journey {
  import opened Limits
  import opened StreamEngine
  import opened Path
  import Link
  import Wiring
  import Reorder
  import Relay
  import RelayTrace
  import Hop
  import ExitPump

  /** The caller's end: any owner that sends within credit, half-closes once, and credits
      what it takes. */
  datatype Client = Client(over: bool, leg: Leg, heard: seq<Event>)

  datatype ClientAct = Send(bytes: Bytes) | Finish | TakeEvent | GiveUp

  datatype Node =
    | AtClient(client: Client)
    | AtBridge(bridge: Relay.Bridge)
    | AtHop(hop: Hop.Hop)
    | AtExit(exit: ExitPump.Exit)

  datatype NodeMove =
    | ByClient(act: ClientAct)
    | ByBridge(move: Relay.Move)
    | ByHop(hopMove: Hop.Move)
    | ByExit(exitMove: ExitPump.Move)

  function LeftLeg(n: Node): Leg
  {
    match n
    case AtClient(c) => c.leg
    case AtBridge(b) => b.caller
    case AtHop(h) => h.inbound
    case AtExit(e) => e.leg
  }

  function RightLeg(n: Node): Leg
  {
    match n
    case AtClient(c) => c.leg
    case AtBridge(b) => b.publisher
    case AtHop(h) => h.next
    case AtExit(e) => e.leg
  }

  /** A send that breaks ends the client. */
  function Settle(c: Client, s: Sending): Client
  {
    match s
    case Sent(l) => c.(leg := l)
    case Broken(l) => c.(over := true, leg := l.(sink := false))
    case CreditExceeded => c
  }

  function ClientStep(c: Client, act: ClientAct): Client
  {
    if c.over then c
    else
      match act
      case Send(bytes) =>
        if c.leg.finSent then c
        else
          Settle(c, SendData(c.leg, bytes))
      case Finish =>
        if c.leg.finSent then c
        else
          Settle(c, SendFin(c.leg))
      case TakeEvent =>
        if c.leg.inbox == [] then c
        else
          var v := c.leg.inbox[0];
          var l := c.leg.(inbox := c.leg.inbox[1..]);
          c.(leg := if v.GotData? then Hop.Outcome(Consume(l, |v.bytes|), l) else l, heard := c.heard + [v])
      case GiveUp => c.(over := true, leg := Release(SendReset(c.leg, Canceled)))
  }

  /** What a node does of its own accord. */
  function Acting(n: Node, m: NodeMove): Node
  {
    match (n, m)
    case (AtClient(c), ByClient(act)) => AtClient(ClientStep(c, act))
    case (AtBridge(b), ByBridge(move)) => if move.Arrive? then n else AtBridge(Relay.Step(b, move))
    case (AtHop(h), ByHop(move)) => if move.Arrive? then n else AtHop(Hop.Step(h, move))
    case (AtExit(e), ByExit(move)) => if move.Arrive? then n else AtExit(ExitPump.Step(e, move))
    case _ => n
  }

  /** What arrives at a node's left or right leg. */
  function Heard(n: Node, atLeft: bool, m: Inbound): Node
  {
    match n
    case AtClient(c) => if c.over then n else AtClient(c.(leg := Dispatch(c.leg, m)))
    case AtBridge(b) => AtBridge(Relay.Step(b, Relay.Arrive(if atLeft then Relay.Caller else Relay.Publisher, m)))
    case AtHop(h) => AtHop(Hop.Step(h, Hop.Arrive(if atLeft then Hop.Inbound_ else Hop.Next_, m)))
    case AtExit(e) => AtExit(ExitPump.Step(e, ExitPump.Arrive(m)))
  }

  /** The client's own account. */
  predicate ClientOk(c: Client)
  {
    && WireOk(c.leg) && c.leg.log == c.heard + c.leg.inbox && c.leg.consumed <= |Queued(c.heard)|
    && (!c.over ==> Quiet(c.leg) && (HasFin(c.leg.wire) ==> c.leg.finSent) && |Queued(c.leg.log)| <= c.leg.received)
    && (!c.over && c.leg.installed ==> c.leg.consumed == |Queued(c.heard)|)
    && (c.over ==> !c.leg.sink)
  }

  predicate NodeOk(n: Node)
  {
    match n
    case AtClient(c) => ClientOk(c)
    case AtBridge(b) => Relay.Orderly(b) && RelayTrace.Ears(b)
    case AtHop(h) => Hop.HopOk(h)
    case AtExit(e) => ExitPump.Orderly(e)
  }

  /** How far a node's credit may run ahead of what it has passed on. */
  function Slack(n: Node): nat { if n.AtHop? then 2 * Hop.COPY_BUFFER else 0 }

  lemma LanePasses(src: Leg, dst: Leg, taken: Bytes, heard: seq<Event>)
    requires src.log == heard + src.inbox && taken <= RelayTrace.Listen(heard).bytes
    requires Payload(dst.wire) <= taken && src.consumed <= |Payload(dst.wire)|
    ensures Passes(src, dst, 0)
  {
    RelayTrace.ListenIsPrefix(heard);
    QueuedConcat(heard, src.inbox);
    assert Queued(heard) <= Queued(heard) + Queued(src.inbox);
  }

  lemma LaneIsPrefix(src: Leg, dst: Leg, buf: Bytes, taken: Bytes, seen: bool, sent: bool)
    requires Relay.Lane(src, dst, buf, taken, seen, sent)
    ensures Payload(dst.wire) <= taken && src.consumed <= |Payload(dst.wire)|
  {
    assert Payload(dst.wire) <= Payload(dst.wire) + buf;
  }

  lemma BridgePasses(b: Relay.Bridge)
    requires Relay.Orderly(b) && RelayTrace.Ears(b)
    ensures Passes(b.caller, b.publisher, 0) && Passes(b.publisher, b.caller, 0)
    ensures WireOk(b.caller) && WireOk(b.publisher)
  {
    if !b.phase.Ended? {
      LaneIsPrefix(b.caller, b.publisher, b.toPublisher, b.fromCaller, b.callerFin, b.publisherFinSent);
      LaneIsPrefix(b.publisher, b.caller, b.toCaller, b.fromPublisher, b.publisherFin, b.callerFinSent);
    }
    LanePasses(b.caller, b.publisher, b.fromCaller, b.heardCaller);
    LanePasses(b.publisher, b.caller, b.fromPublisher, b.heardPublisher);
  }

  lemma FlowPasses(src: Leg, dst: Leg, p: Hop.Pipe)
    requires Hop.Carries(src, dst, p)
    ensures Passes(src, dst, 2 * Hop.COPY_BUFFER) && Modest(src)
  {
    QueuedConcat(p.heard, src.inbox);
    assert Queued(p.heard) <= Queued(p.heard) + Queued(src.inbox);
  }

  lemma HopPasses(h: Hop.Hop)
    requires Hop.HopOk(h)
    ensures Passes(h.inbound, h.next, 2 * Hop.COPY_BUFFER) && Passes(h.next, h.inbound, 2 * Hop.COPY_BUFFER)
    ensures WireOk(h.inbound) && WireOk(h.next) && Modest(h.inbound) && Modest(h.next)
  {
    if !h.over {
      Hop.FlowCarries(h.inbound, h.next, h.onward);
      Hop.FlowCarries(h.next, h.inbound, h.back);
    }
    FlowPasses(h.inbound, h.next, h.onward);
    FlowPasses(h.next, h.inbound, h.back);
  }

  lemma NodePasses(n: Node)
    requires NodeOk(n)
    ensures WireOk(LeftLeg(n)) && WireOk(RightLeg(n)) && Modest(LeftLeg(n)) && Modest(RightLeg(n))
    ensures n.AtBridge? || n.AtHop? ==>
              Passes(LeftLeg(n), RightLeg(n), Slack(n)) && Passes(RightLeg(n), LeftLeg(n), Slack(n))
  {
    match n {
      case AtClient(c) => QueuedConcat(c.heard, c.leg.inbox);
      case AtBridge(b) => BridgePasses(b);
      case AtHop(h) => HopPasses(h);
      case AtExit(e) => QueuedConcat(e.heard, e.leg.inbox);
    }
  }

  // ---- what a node does ------------------------------------------------------

  lemma SettleKeeps(c: Client, s: Sending)
    requires ClientOk(c) && !c.over
    requires s.Sent? ==> Quiet(s.leg) && Still(c.leg, s.leg) && s.leg.consumed == c.leg.consumed
    requires s.Broken? ==> Quiet(s.after) && Still(c.leg, s.after) && s.after.consumed == c.leg.consumed
    ensures ClientOk(Settle(c, s)) && Acts(c.leg, Settle(c, s).leg)
  {
  }

  lemma ClientSends(c: Client, bytes: Bytes)
    requires ClientOk(c) && !c.over && !c.leg.finSent
    ensures ClientOk(Settle(c, SendData(c.leg, bytes))) && Acts(c.leg, Settle(c, SendData(c.leg, bytes)).leg)
  {
    if bytes != [] {
      SendDataKeeps(c.leg, bytes);
      SendDataStill(c.leg, bytes);
      SettleKeeps(c, SendData(c.leg, bytes));
    }
  }

  lemma ClientFinishes(c: Client)
    requires ClientOk(c) && !c.over && !c.leg.finSent
    ensures ClientOk(Settle(c, SendFin(c.leg))) && Acts(c.leg, Settle(c, SendFin(c.leg)).leg)
  {
    SendFinKeeps(c.leg);
    SendFinStill(c.leg);
    SettleKeeps(c, SendFin(c.leg));
  }

  lemma ClientTakes(c: Client)
    requires ClientOk(c) && !c.over && c.leg.inbox != []
    ensures var c' := ClientStep(c, TakeEvent);
            ClientOk(c') && Acts(c.leg, c'.leg)
  {
    ExitPump.HearMore(c.heard, c.leg.inbox);
    QueuedConcat(c.heard, c.leg.inbox);
    var v := c.leg.inbox[0];
    var l := c.leg.(inbox := c.leg.inbox[1..]);
    if v.GotData? {
      ConsumeKeeps(l, |v.bytes|, Consume(l, |v.bytes|));
      ConsumeStill(l, |v.bytes|);
    }
  }

  lemma ClientGivesUp(c: Client)
    requires ClientOk(c) && !c.over
    ensures var c' := ClientStep(c, GiveUp);
            ClientOk(c') && Acts(c.leg, c'.leg)
  {
    SendResetKeeps(c.leg, Canceled);
    ResetStill(c.leg, Canceled);
  }

  lemma ClientKeeps(c: Client, act: ClientAct)
    requires ClientOk(c)
    ensures ClientOk(ClientStep(c, act)) && Acts(c.leg, ClientStep(c, act).leg)
  {
    if c.over { return; }
    match act {
      case Send(bytes) => if !c.leg.finSent { ClientSends(c, bytes); }
      case Finish => if !c.leg.finSent { ClientFinishes(c); }
      case TakeEvent => if c.leg.inbox != [] { ClientTakes(c); }
      case GiveUp => ClientGivesUp(c);
    }
  }

  function Role(n: Node): nat { if n.AtClient? then 0 else if n.AtExit? then 2 else 1 }

  /** The nodes as a path sees them. */
  ghost function Stations(): Machine<Node, NodeMove>
  {
    Machine((n: Node) => NodeOk(n), (n: Node) => n.AtBridge? || n.AtHop?, (n: Node) => LeftLeg(n), (n: Node) => RightLeg(n),
            (n: Node) => Slack(n), (n: Node) => Role(n), (n: Node, m: NodeMove) => Acting(n, m),
            (n: Node, left: bool, m: Inbound) => Heard(n, left, m))
  }

  /** Whatever a node does of its own accord keeps it in order and only adds to its legs. */
  lemma ActingKeeps(n: Node, m: NodeMove)
    requires NodeOk(n)
    ensures NodeOk(Acting(n, m)) && Acts(LeftLeg(n), LeftLeg(Acting(n, m))) && Acts(RightLeg(n), RightLeg(Acting(n, m)))
  {
    match (n, m) {
      case (AtClient(c), ByClient(act)) => ClientKeeps(c, act);
      case (AtBridge(b), ByBridge(move)) =>
        if !move.Arrive? {
          Relay.StepKeeps(b, move);
          RelayTrace.StepEars(b, move);
          RelayTrace.StepAdds(b, move);
        }
      case (AtHop(h), ByHop(move)) =>
        if !move.Arrive? {
          Hop.StepKeeps(h, move);
          Hop.StepActs(h, move);
        }
      case (AtExit(e), ByExit(move)) =>
        if !move.Arrive? {
          ExitPump.StepKeeps(e, move);
          ExitPump.StepActs(e, move);
        }
      case _ =>
    }
  }

  lemma ClientHears(c: Client, m: Inbound)
    requires ClientOk(c) && !c.over && c.leg.received <= c.leg.granted
    ensures ClientOk(c.(leg := Dispatch(c.leg, m)))
  {
    var news := DispatchKeeps(c.leg, m);
    ReceivesSound(c.leg, Dispatch(c.leg, m), news);
    Assoc(c.heard, c.leg.inbox, news);
    QueuedConcat(c.leg.log, news);
  }

  lemma BridgeHears(b: Relay.Bridge, left: bool, m: Inbound)
    requires NodeOk(AtBridge(b))
    ensures Hears(Stations(), AtBridge(b), left, m, Heard(AtBridge(b), left, m))
  {
    var move := Relay.Arrive(if left then Relay.Caller else Relay.Publisher, m);
    Relay.StepKeeps(b, move);
    RelayTrace.StepEars(b, move);
  }

  lemma HopHears(h: Hop.Hop, left: bool, m: Inbound)
    requires NodeOk(AtHop(h))
    ensures Hears(Stations(), AtHop(h), left, m, Heard(AtHop(h), left, m))
  {
    Hop.StepKeeps(h, Hop.Arrive(if left then Hop.Inbound_ else Hop.Next_, m));
  }

  lemma ExitHears(e: ExitPump.Exit, left: bool, m: Inbound)
    requires NodeOk(AtExit(e))
    ensures Hears(Stations(), AtExit(e), left, m, Heard(AtExit(e), left, m))
  {
    ExitPump.StepKeeps(e, ExitPump.Arrive(m));
  }

  lemma HearingKeeps(n: Node, left: bool, m: Inbound)
    requires NodeOk(n)
    ensures Hears(Stations(), n, left, m, Heard(n, left, m))
  {
    match n {
      case AtClient(c) => if !c.over { ClientHears(c, m); }
      case AtBridge(b) => BridgeHears(b, left, m);
      case AtHop(h) => HopHears(h, left, m);
      case AtExit(e) => ExitHears(e, left, m);
    }
  }

  lemma NodesAreSound()
    ensures SoundNodes(Stations())
  {
    var mc := Stations();
    forall n | mc.ok(n)
      ensures WireOk(mc.left(n)) && WireOk(mc.right(n)) && Modest(mc.left(n)) && Modest(mc.right(n))
      ensures mc.inner(n) ==> Passes(mc.left(n), mc.right(n), mc.slack(n)) && Passes(mc.right(n), mc.left(n), mc.slack(n))
      ensures !mc.inner(n) ==> mc.left(n) == mc.right(n)
    {
      NodePasses(n);
    }
  }

  lemma ActsAreOrderly()
    ensures OrderlyActs(Stations())
  {
    var mc := Stations();
    forall n, m | mc.ok(n)
      ensures mc.ok(mc.act(n, m)) && mc.inner(mc.act(n, m)) == mc.inner(n) && mc.slack(mc.act(n, m)) == mc.slack(n)
      ensures mc.role(mc.act(n, m)) == mc.role(n)
      ensures Acts(mc.left(n), mc.left(mc.act(n, m))) && Acts(mc.right(n), mc.right(mc.act(n, m)))
    {
      ActingKeeps(n, m);
    }
  }

  lemma HearingIsOrderly()
    ensures OrderlyHearing(Stations())
  {
    var mc := Stations();
    forall n, left, m | mc.ok(n) ensures Hears(mc, n, left, m, mc.hear(n, left, m)) {
      HearingKeeps(n, left, m);
    }
  }

  /** Clients, bridges, hops and exits are nodes a path can be made of. */
  lemma Laws()
    ensures Lawful(Stations())
  {
    NodesAreSound();
    ActsAreOrderly();
    HearingIsOrderly();
  }

  // ---- a path at its start ---------------------------------------------------

  datatype Relayer = HubBridge | NodeHop

  /** Node `i` of a path whose link `k` runs with flow window `windows[k]`. */
  function Starting(windows: seq<nat>, relayers: seq<Relayer>, kind: ExitPump.Kind, i: nat): Node
    requires |windows| == |relayers| + 1 && i <= |windows|
  {
    if i == 0 then AtClient(Client(false, Fresh(windows[0]), []))
    else if i == |windows| then AtExit(ExitPump.Turn(ExitPump.Opened(kind, windows[i - 1])))
    else if relayers[i - 1].HubBridge? then AtBridge(Relay.Begin(windows[i - 1], windows[i], Relay.Opened))
    else AtHop(Hop.Opened(windows[i - 1], windows[i]))
  }

  function EmptyJoint(): Joint
  {
    var b := Reorder.New(REORDER_MAX_OUT_OF_ORDER_BYTES);
    Joint(b, b)
  }

  function Start(windows: seq<nat>, relayers: seq<Relayer>, kind: ExitPump.Kind): Net<Node>
    requires |windows| == |relayers| + 1
  {
    Net(seq(|windows| + 1, i requires 0 <= i <= |windows| => Starting(windows, relayers, kind, i)),
        seq(|windows|, _ => EmptyJoint()))
  }

  /** A leg that has neither received nor sent data, with the credit of its window. */
  predicate Blank(l: Leg, window: nat)
  {
    && WireOk(l) && Payload(l.wire) == [] && l.log == [] && l.received == 0 && l.consumed == 0
    && l.sendLimit == Initial(window) && l.granted == Initial(window) && l.window == Fresh(window).window
  }

  lemma FreshBlank(w: nat)
    ensures Blank(Fresh(w), w) && Quiet(Fresh(w))
  {
  }

  lemma AnsweredBlank(w: nat)
    ensures Blank(SendOpenResult(Fresh(w), Ok).leg, w)
  {
    Relay.AcceptKeeps(Fresh(w), SendOpenResult(Fresh(w), Ok));
  }

  lemma ExitStarts(kind: ExitPump.Kind, w: nat)
    ensures var e := ExitPump.Turn(ExitPump.Opened(kind, w));
            NodeOk(AtExit(e)) && Blank(e.leg, w) && e.kind == kind && !e.over && e == ExitPump.Opened(kind, w)
  {
    ExitPump.OpenedRuns(kind, w);
    AnsweredBlank(w);
  }

  lemma StartingOk(windows: seq<nat>, relayers: seq<Relayer>, kind: ExitPump.Kind, i: nat)
    requires |windows| == |relayers| + 1 && i <= |windows|
    ensures var n := Starting(windows, relayers, kind, i);
            && NodeOk(n) && (n.AtBridge? || n.AtHop? <==> 0 < i < |windows|)
            && (i > 0 ==> Blank(LeftLeg(n), windows[i - 1])) && (i < |windows| ==> Blank(RightLeg(n), windows[i]))
  {
    if i < |windows| { FreshBlank(windows[i]); }
    if i > 0 { FreshBlank(windows[i - 1]); }
    if i == |windows| {
      ExitStarts(kind, windows[i - 1]);
    } else if i > 0 && relayers[i - 1].HubBridge? {
      RelayTrace.BeginEars(windows[i - 1], windows[i]);
    } else if i > 0 {
      Hop.OpenedOk(windows[i - 1], windows[i]);
      AnsweredBlank(windows[i - 1]);
    }
  }

  lemma BlankLinks(s: Leg, r: Leg, w: nat)
    requires Blank(s, w) && Blank(r, w)
    ensures Wiring.Linked(s, r, Reorder.New(REORDER_MAX_OUT_OF_ORDER_BYTES))
  {
  }

  lemma StartJoined(windows: seq<nat>, relayers: seq<Relayer>, kind: ExitPump.Kind, i: nat)
    requires |windows| == |relayers| + 1 && i < |windows|
    ensures var (a, b) := (Starting(windows, relayers, kind, i), Starting(windows, relayers, kind, i + 1));
            Joined(Stations(), a, EmptyJoint(), b)
  {
    StartingOk(windows, relayers, kind, i);
    StartingOk(windows, relayers, kind, i + 1);
    var a, b := Starting(windows, relayers, kind, i), Starting(windows, relayers, kind, i + 1);
    BlankLinks(RightLeg(a), LeftLeg(b), windows[i]);
    BlankLinks(LeftLeg(b), RightLeg(a), windows[i]);
  }

  lemma StartNode(windows: seq<nat>, relayers: seq<Relayer>, kind: ExitPump.Kind, i: nat)
    requires |windows| == |relayers| + 1 && i <= |windows|
    ensures var n := Starting(windows, relayers, kind, i);
            Stations().ok(n) && (Stations().inner(n) <==> 0 < i < |windows|)
  {
    StartingOk(windows, relayers, kind, i);
  }

  lemma Assembled(mc: Machine<Node, NodeMove>, windows: seq<nat>, relayers: seq<Relayer>, kind: ExitPump.Kind, at: nat --> Node)
    requires |windows| == |relayers| + 1 && forall i: nat :: i <= |windows| ==> at.requires(i)
    requires forall i: nat :: i <= |windows| ==> at(i) == Starting(windows, relayers, kind, i)
    requires forall i: nat :: i <= |windows| ==> mc.ok(at(i)) && (mc.inner(at(i)) <==> 0 < i < |windows|)
    requires forall i: nat :: i < |windows| ==> Joined(mc, at(i), EmptyJoint(), at(i + 1))
    ensures NetOk(mc, Start(windows, relayers, kind))
  {
    var net := Start(windows, relayers, kind);
    forall i | 0 <= i < |net.joints| ensures JoinedAt(mc, net, i) {
      assert net.nodes[i] == at(i) && net.nodes[i + 1] == at(i + 1);
    }
    forall i | 0 <= i < |net.nodes| ensures mc.ok(net.nodes[i]) && (mc.inner(net.nodes[i]) <==> 0 < i < |net.nodes| - 1) {
      assert net.nodes[i] == at(i);
    }
  }

  lemma StartOk(windows: seq<nat>, relayers: seq<Relayer>, kind: ExitPump.Kind)
    requires |windows| == |relayers| + 1
    ensures NetOk(Stations(), Start(windows, relayers, kind))
  {
    forall i | 0 <= i <= |windows|
      ensures var n := Starting(windows, relayers, kind, i);
              Stations().ok(n) && (Stations().inner(n) <==> 0 < i < |windows|)
    {
      StartNode(windows, relayers, kind, i);
    }
    forall i | 0 <= i < |windows|
      ensures Joined(Stations(), Starting(windows, relayers, kind, i), EmptyJoint(), Starting(windows, relayers, kind, i + 1))
    {
      StartJoined(windows, relayers, kind, i);
    }
    Assembled(Stations(), windows, relayers, kind, (i: nat) requires i <= |windows| => Starting(windows, relayers, kind, i));
  }

  // ---- what fits on the way --------------------------------------------------

  function SlackOf(r: Relayer): nat { if r.NodeHop? then 2 * Hop.COPY_BUFFER else 0 }

  /** The windows of the first `n` links and the slack of the relayers between them. */
  function Room(windows: seq<nat>, relayers: seq<Relayer>, n: nat): nat
    requires |windows| == |relayers| + 1 && n <= |windows|
  {
    if n == 0 then 0
    else Room(windows, relayers, n - 1) + Fresh(windows[n - 1]).window + if n > 1 then SlackOf(relayers[n - 2]) else 0
  }

  lemma StartSizes(windows: seq<nat>, relayers: seq<Relayer>, kind: ExitPump.Kind, i: nat)
    requires |windows| == |relayers| + 1 && i <= |windows|
    ensures var n := Start(windows, relayers, kind).nodes[i];
            && (i > 0 ==> LeftLeg(n).window == Fresh(windows[i - 1]).window)
            && (i < |windows| ==> RightLeg(n).window == Fresh(windows[i]).window)
            && (0 < i < |windows| ==> Slack(n) == SlackOf(relayers[i - 1]))
            && Role(n) == (if i == 0 then 0 else if i == |windows| then 2 else 1)
  {
    StartingOk(windows, relayers, kind, i);
  }

  lemma {:induction false} LeftRoom(windows: seq<nat>, relayers: seq<Relayer>, kind: ExitPump.Kind, i: nat)
    requires |windows| == |relayers| + 1 && i < |windows|
    ensures LeftBudget(Stations(), Start(windows, relayers, kind).nodes, i) == Room(windows, relayers, i + 1)
  {
    StartSizes(windows, relayers, kind, i);
    if i > 0 { LeftRoom(windows, relayers, kind, i - 1); }
  }

  lemma {:induction false} RightRoom(windows: seq<nat>, relayers: seq<Relayer>, kind: ExitPump.Kind, i: nat)
    requires |windows| == |relayers| + 1 && i < |windows|
    ensures RightBudget(Stations(), Start(windows, relayers, kind).nodes, i) + Room(windows, relayers, i)
              + (if i > 0 then SlackOf(relayers[i - 1]) else 0) == Room(windows, relayers, |windows|)
    decreases |windows| - i
  {
    StartSizes(windows, relayers, kind, i + 1);
    if i + 1 < |windows| { RightRoom(windows, relayers, kind, i + 1); }
  }

  // ---- end to end ------------------------------------------------------------

  /** The two ends of a path after a run. */
  ghost predicate Ends(net: Net<Node>, c: Client, e: ExitPump.Exit)
  {
    |net.nodes| > 1 && net.nodes[0] == AtClient(c) && net.nodes[|net.nodes| - 1] == AtExit(e)
  }

  lemma ExitHolds(e: ExitPump.Exit)
    requires ExitPump.Orderly(e)
    ensures e.wrote <= Queued(e.leg.log) && e.leg.consumed <= e.written && Payload(e.leg.wire) <= e.read
  {
    QueuedConcat(e.heard, e.leg.inbox);
    assert Queued(e.heard) <= Queued(e.heard) + Queued(e.leg.inbox);
  }

  lemma ClientHolds(c: Client)
    requires ClientOk(c)
    ensures c.leg.consumed <= |Queued(c.heard)|
  {
  }

  lemma StartMeets(windows: seq<nat>, relayers: seq<Relayer>, kind: ExitPump.Kind, steps: seq<Step<NodeMove>>)
    requires |windows| == |relayers| + 1
    ensures var net := Start(windows, relayers, kind);
            Met(Stations(), net.nodes, Run(Stations(), net, steps).nodes)
  {
    Laws();
    StartOk(windows, relayers, kind);
    EndsMeet(Stations(), Start(windows, relayers, kind), steps);
  }

  /** The two end nodes of a run, in the system's own terms. */
  predicate Close(a: Node, b: Node, room: nat)
  {
    && NodeOk(a) && NodeOk(b)
    && Queued(LeftLeg(b).log) <= Payload(RightLeg(a).wire) && |Payload(RightLeg(a).wire)| <= LeftLeg(b).consumed + room
    && Queued(RightLeg(a).log) <= Payload(LeftLeg(b).wire) && |Payload(LeftLeg(b).wire)| <= RightLeg(a).consumed + room
  }

  lemma MetIsClose(nodes: seq<Node>, last: seq<Node>, room: nat)
    requires |nodes| > 1 && Met(Stations(), nodes, last)
    requires RightBudget(Stations(), nodes, 0) == room && LeftBudget(Stations(), nodes, |nodes| - 2) == room
    ensures |last| == |nodes| && Close(last[0], last[|nodes| - 1], room)
  {
  }

  lemma EndRoles(windows: seq<nat>, relayers: seq<Relayer>, kind: ExitPump.Kind, nodes: seq<Node>)
    requires |windows| == |relayers| + 1 && SameSizes(Stations(), Start(windows, relayers, kind).nodes, nodes)
    ensures |nodes| == |windows| + 1 && Role(nodes[0]) == 0 && Role(nodes[|windows|]) == 2
  {
    var net, n := Start(windows, relayers, kind), |windows|;
    StartSizes(windows, relayers, kind, 0);
    StartSizes(windows, relayers, kind, n);
    assert SameSize(Stations(), net.nodes[0], nodes[0]) && SameSize(Stations(), net.nodes[n], nodes[n]);
  }

  lemma EndNodes(windows: seq<nat>, relayers: seq<Relayer>, kind: ExitPump.Kind, last: seq<Node>)
    requires |windows| == |relayers| + 1 && Met(Stations(), Start(windows, relayers, kind).nodes, last)
    ensures |last| == |windows| + 1 && Role(last[0]) == 0 && Role(last[|windows|]) == 2
    ensures Close(last[0], last[|windows|], Room(windows, relayers, |windows|))
  {
    LeftRoom(windows, relayers, kind, |windows| - 1);
    RightRoom(windows, relayers, kind, 0);
    MetIsClose(Start(windows, relayers, kind).nodes, last, Room(windows, relayers, |windows|));
    EndRoles(windows, relayers, kind, last);
  }

  /** Over any number of Hub bridges and hops, with every record reordered, repeated or lost
      and sessions failing at will: what the exit wrote to the target is a prefix of what the
      client sent, what the client received is a prefix of what was read from the target, and
      either way what is under way fits the windows of the links and the hops' copy buffers. */
  lemma EndToEnd(windows: seq<nat>, relayers: seq<Relayer>, kind: ExitPump.Kind, steps: seq<Step<NodeMove>>)
    returns (c: Client, e: ExitPump.Exit)
    requires |windows| == |relayers| + 1
    ensures Ends(Run(Stations(), Start(windows, relayers, kind), steps), c, e)
    ensures e.wrote <= Payload(c.leg.wire)
    ensures |Payload(c.leg.wire)| <= e.written + Room(windows, relayers, |windows|)
    ensures Queued(c.leg.log) <= Payload(e.leg.wire) <= e.read
    ensures |Payload(e.leg.wire)| <= |Queued(c.heard)| + Room(windows, relayers, |windows|)
  {
    var last := Run(Stations(), Start(windows, relayers, kind), steps).nodes;
    StartMeets(windows, relayers, kind, steps);
    EndNodes(windows, relayers, kind, last);
    c, e := last[0].client, last[|windows|].exit;
    ExitHolds(e);
    ClientHolds(c);
  }

  // ---- a chunk larger than the window ----------------------------------------

  /** The exit of a path with a chunk pending that its link's window can never cover. */
  ghost predicate Oversized(net: Net<Node>, e: ExitPump.Exit)
  {
    && NetOk(Stations(), net) && net.nodes[|net.joints|] == AtExit(e) && e.kind.AtNode?
    && |e.pending| > RightLeg(net.nodes[|net.joints| - 1]).window
  }

  lemma OversizedStalls(net: Net<Node>, e: ExitPump.Exit)
    requires Oversized(net, e) && !e.over
    ensures ExitPump.Orderly(e) && ExitPump.Stalled(e)
  {
    var n := |net.joints|;
    var mc := Stations();
    NodesAreSound();
    assert mc.ok(net.nodes[n]) && mc.ok(net.nodes[n - 1]);
    assert JoinedAt(mc, net, n - 1);
    var r := RightLeg(net.nodes[n - 1]);
    assert mc.right(net.nodes[n - 1]) == r && Modest(r);
    Link.CreditWithinWindow(e.leg, r, net.joints[n - 1].toLeft);
  }

  /** What a step does to the last node: nothing, its own doing, or an arrival. */
  lemma LastNode(net: Net<Node>, s: Step<NodeMove>)
    requires NetOk(Stations(), net)
    ensures var n, n' := net.nodes[|net.joints|], Next(Stations(), net, s).nodes[|net.joints|];
            n' == n || (exists m :: n' == Acting(n, m)) || (exists left, m :: n' == Heard(n, left, m))
  {
    var mc, last := Stations(), |net.joints|;
    match s {
      case Act(node, move) => if node == last { assert Next(mc, net, s).nodes[last] == Acting(net.nodes[last], move); }
      case Trouble(node, left, seals) =>
        if node == last {
          var m := if seals.Some? then Failing(seals.value) else SessionClosed;
          assert Next(mc, net, s).nodes[last] == Heard(net.nodes[last], left, m);
        }
      case Carry(i, toRight, k) =>
        if i < last && k < |Sender(mc, net, i, toRight).wire| && toRight && i + 1 == last {
          var m := Link.Through(BufferAt(net.joints[i], toRight), Sender(mc, net, i, toRight).wire[k]).1;
          if m.Some? { assert Next(mc, net, s).nodes[last] == Heard(net.nodes[last], true, m.value); }
        }
    }
  }

  lemma StalledExitStays(e: ExitPump.Exit, n: Node)
    requires ExitPump.Orderly(e) && (e.over || ExitPump.Stalled(e))
    requires n == AtExit(e) || (exists m :: n == Acting(AtExit(e), m)) || (exists left, m :: n == Heard(AtExit(e), left, m))
    ensures n.AtExit? && ExitPump.SamePending(e, n.exit)
  {
    if exists m :: n == Acting(AtExit(e), m) {
      var m :| n == Acting(AtExit(e), m);
      if m.ByExit? && !m.exitMove.Arrive? { ExitPump.StalledStep(e, m.exitMove); }
    } else if exists left, m :: n == Heard(AtExit(e), left, m) {
      var left, m :| n == Heard(AtExit(e), left, m);
      ExitPump.StalledStep(e, ExitPump.Arrive(m));
    }
  }

  lemma LastExitOk(net: Net<Node>, e: ExitPump.Exit)
    requires Oversized(net, e)
    ensures ExitPump.Orderly(e)
  {
    assert Stations().ok(net.nodes[|net.joints|]);
  }

  lemma WindowsStay(net: Net<Node>, s: Step<NodeMove>)
    requires NetOk(Stations(), net)
    ensures var net' := Next(Stations(), net, s);
            && NetOk(Stations(), net') && |net'.joints| == |net.joints|
            && RightLeg(net'.nodes[|net.joints| - 1]).window == RightLeg(net.nodes[|net.joints| - 1]).window
  {
    Laws();
    NextKeeps(Stations(), net, s);
    NextSizes(Stations(), net, s);
    var n, net' := |net.joints|, Next(Stations(), net, s);
    assert SameSize(Stations(), net.nodes[n - 1], net'.nodes[n - 1]);
  }

  lemma OversizedSteps(net: Net<Node>, s: Step<NodeMove>, e: ExitPump.Exit, n: Node)
    requires Oversized(net, e) && n == Next(Stations(), net, s).nodes[|net.joints|]
    ensures n.AtExit? && ExitPump.SamePending(e, n.exit)
  {
    LastExitOk(net, e);
    if !e.over { OversizedStalls(net, e); }
    LastNode(net, s);
    StalledExitStays(e, n);
  }

  lemma StillOversized(net: Net<Node>, e: ExitPump.Exit, net': Net<Node>, e': ExitPump.Exit)
    requires NetOk(Stations(), net') && |net'.joints| == |net.joints| > 0 && Shaped(net)
    requires RightLeg(net'.nodes[|net.joints| - 1]).window == RightLeg(net.nodes[|net.joints| - 1]).window
    requires net'.nodes[|net.joints|] == AtExit(e') && ExitPump.SamePending(e, e') && e.kind.AtNode?
    requires |e.pending| > RightLeg(net.nodes[|net.joints| - 1]).window
    ensures Oversized(net', e')
  {
  }

  lemma OversizedStays(net: Net<Node>, s: Step<NodeMove>, e: ExitPump.Exit, net': Net<Node>) returns (e': ExitPump.Exit)
    requires Oversized(net, e) && net' == Next(Stations(), net, s)
    ensures Oversized(net', e') && ExitPump.SamePending(e, e')
  {
    WindowsStay(net, s);
    OversizedSteps(net, s, e, net'.nodes[|net.joints|]);
    e' := net'.nodes[|net.joints|].exit;
    StillOversized(net, e, net', e');
  }

  /** A node that has read a chunk larger than its link's window waits for ever: no run sends
      any of it, whatever credit comes. */
  lemma {:induction false} OversizedChunkWaitsForever(net: Net<Node>, e: ExitPump.Exit, steps: seq<Step<NodeMove>>)
    returns (e': ExitPump.Exit)
    requires Oversized(net, e)
    ensures Oversized(Run(Stations(), net, steps), e') && ExitPump.SamePending(e, e')
    decreases |steps|
  {
    if steps == [] {
      e' := e;
    } else {
      var e1 := OversizedStays(net, steps[0], e, Next(Stations(), net, steps[0]));
      e' := OversizedChunkWaitsForever(Next(Stations(), net, steps[0]), e1, steps[1..]);
    }
  }

  lemma ChunkStalls(e: ExitPump.Exit, bytes: Bytes, window: nat)
    requires e == ExitPump.Opened(ExitPump.AtNode, window) && Initial(window) < |bytes| <= MAX_TCP_PAYLOAD
    ensures ExitPump.OnRead(e, ExitPump.Chunk(bytes)).pending == bytes
    ensures ExitPump.OnRead(e, ExitPump.Chunk(bytes)).kind == ExitPump.AtNode
  {
    var e1 := e.(pending := bytes, read := e.read + bytes);
    assert ExitPump.Stalled(e1);
    ExitPump.StalledTurn(e1);
  }

  lemma ReadsChunk(net: Net<Node>, e: ExitPump.Exit, bytes: Bytes)
    requires Shaped(net) && net.nodes[|net.joints|] == AtExit(e) && !e.over
    ensures Next(Stations(), net, Act(|net.joints|, ByExit(ExitPump.Readable(ExitPump.Chunk(bytes))))).nodes[|net.joints|]
            == AtExit(ExitPump.OnRead(e, ExitPump.Chunk(bytes)))
  {
  }

  lemma FirstChunk(windows: seq<nat>, relayers: seq<Relayer>, bytes: Bytes, e: ExitPump.Exit)
    requires |windows| == |relayers| + 1
    requires e == ExitPump.OnRead(ExitPump.Opened(ExitPump.AtNode, windows[|windows| - 1]), ExitPump.Chunk(bytes))
    ensures var net := Start(windows, relayers, ExitPump.AtNode);
            var net' := Next(Stations(), net, Act(|windows|, ByExit(ExitPump.Readable(ExitPump.Chunk(bytes)))));
            && NetOk(Stations(), net') && |net'.joints| == |windows| && net'.nodes[|windows|] == AtExit(e)
            && RightLeg(net'.nodes[|windows| - 1]).window == Fresh(windows[|windows| - 1]).window
  {
    var net, n := Start(windows, relayers, ExitPump.AtNode), |windows|;
    StartOk(windows, relayers, ExitPump.AtNode);
    WindowsStay(net, Act(n, ByExit(ExitPump.Readable(ExitPump.Chunk(bytes)))));
    ExitStarts(ExitPump.AtNode, windows[n - 1]);
    StartSizes(windows, relayers, ExitPump.AtNode, n - 1);
    ReadsChunk(net, ExitPump.Opened(ExitPump.AtNode, windows[n - 1]), bytes);
  }

  /** Behind any path whose last window is below the read buffer, such a chunk is read as soon
      as the target sends one. */
  lemma OversizedChunkIsRead(windows: seq<nat>, relayers: seq<Relayer>, bytes: Bytes) returns (e: ExitPump.Exit)
    requires |windows| == |relayers| + 1 && Fresh(windows[|windows| - 1]).window < |bytes| <= MAX_TCP_PAYLOAD
    ensures var net := Start(windows, relayers, ExitPump.AtNode);
            && Oversized(Next(Stations(), net, Act(|windows|, ByExit(ExitPump.Readable(ExitPump.Chunk(bytes))))), e)
            && e.pending == bytes
  {
    var n := |windows|;
    e := ExitPump.OnRead(ExitPump.Opened(ExitPump.AtNode, windows[n - 1]), ExitPump.Chunk(bytes));
    ChunkStalls(ExitPump.Opened(ExitPump.AtNode, windows[n - 1]), bytes, windows[n - 1]);
    FirstChunk(windows, relayers, bytes, e);
  }

  lemma WideWindowNeverOversized(windows: seq<nat>, relayers: seq<Relayer>, steps: seq<Step<NodeMove>>, e: ExitPump.Exit)
    requires |windows| == |relayers| + 1 && Fresh(windows[|windows| - 1]).window >= ExitPump.READ_CHUNK
    ensures !Oversized(Run(Stations(), Start(windows, relayers, ExitPump.AtNode), steps), e)
  {
    var net, n := Start(windows, relayers, ExitPump.AtNode), |windows|;
    Laws();
    StartOk(windows, relayers, ExitPump.AtNode);
    RunSizes(Stations(), net, steps);
    var last := Run(Stations(), net, steps);
    StartSizes(windows, relayers, ExitPump.AtNode, n - 1);
    assert SameSize(Stations(), net.nodes[n - 1], last.nodes[n - 1]);
    if Oversized(last, e) { LastExitOk(last, e); }
  }

  lemma OneStep(net: Net<Node>, s: Step<NodeMove>)
    requires Shaped(net)
    ensures Run(Stations(), net, [s]) == Next(Stations(), net, s)
  {
    assert [s][1..] == [];
  }

  /** No run leaves a node's exit with a chunk it can never send, exactly when the window of its
      link is at least the read buffer. */
  lemma EveryChunkFitsExactly(windows: seq<nat>, relayers: seq<Relayer>)
    requires |windows| == |relayers| + 1
    ensures Fresh(windows[|windows| - 1]).window >= ExitPump.READ_CHUNK <==>
            forall steps, e :: !Oversized(Run(Stations(), Start(windows, relayers, ExitPump.AtNode), steps), e)
  {
    var net, n := Start(windows, relayers, ExitPump.AtNode), |windows|;
    if Fresh(windows[n - 1]).window >= ExitPump.READ_CHUNK {
      forall steps, e ensures !Oversized(Run(Stations(), net, steps), e) {
        WideWindowNeverOversized(windows, relayers, steps, e);
      }
    } else {
      var bytes: Bytes := seq(ExitPump.READ_CHUNK, _ => 0);
      var s := Act(n, ByExit(ExitPump.Readable(ExitPump.Chunk(bytes))));
      var e := OversizedChunkIsRead(windows, relayers, bytes);
      OneStep(net, s);
      assert Oversized(Run(Stations(), net, [s]), e);
    }
  }

  /** So it is with the window every session is built with. */
  lemma BuiltWindowFitsEveryChunk(relayers: seq<Relayer>, steps: seq<Step<NodeMove>>, e: ExitPump.Exit)
    ensures var windows := seq(|relayers| + 1, _ => FLOW_WINDOW_BYTES);
            !Oversized(Run(Stations(), Start(windows, relayers, ExitPump.AtNode), steps), e)
  {
    WideWindowNeverOversized(seq(|relayers| + 1, _ => FLOW_WINDOW_BYTES), relayers, steps, e);
  }
}
