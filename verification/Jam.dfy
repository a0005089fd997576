/** Paths on which a record is overtaken: what the reorder budgets then cost. */
module Jam {
  import opened Limits
  import opened StreamEngine
  import opened Link
  import opened Path
  import opened Journey
  import opened Keeping
  import opened Arrivals
  import opened Standstill
  import opened Delivery
  import Reorder
  import Wiring
  import ExitPump

  // ---- a full reorder buffer is final ----------------------------------------

  predicate Full(buf: Buffer) { buf.buffered == buf.limitBytes }

  /** No run changes a full buffer. */
  lemma {:induction false} FullForGood<N, M>(mc: Machine<N, M>, net: Net<N>, steps: seq<Step<M>>, i: nat, toRight: bool)
    requires Shaped(net) && i < |net.joints| && Full(BufferAt(net.joints[i], toRight))
    ensures |Run(mc, net, steps).joints| == |net.joints| && BufferAt(Run(mc, net, steps).joints[i], toRight) == BufferAt(net.joints[i], toRight)
    decreases |steps|
  {
    if steps != [] {
      var s := steps[0];
      NextBuffer(mc, net, s, i, toRight);
      if s.Carry? && s.joint == i && s.toRight == toRight && OnWire(mc, net, i, toRight, s.record) {
        var r := Sender(mc, net, i, toRight).wire[s.record];
        Reorder.FullBufferStands(BufferAt(net.joints[i], toRight), r.offset, r.payload);
      }
      FullForGood(mc, Next(mc, net, s), steps[1..], i, toRight);
    }
  }

  /** Over a joint with a full buffer no run brings another byte, in either direction, on any
      path: nothing ever comes out past what the buffer is waiting for. */
  lemma StuckForGood(net: Net<Node>, c: Client, e: ExitPump.Exit, i: nat, toRight: bool, more: seq<Step<NodeMove>>)
    returns (c': Client, e': ExitPump.Exit)
    requires NetOk(Stations(), net) && Ends(net, c, e) && i < |net.joints| && Full(BufferAt(net.joints[i], toRight))
    ensures Ends(Run(Stations(), net, more), c', e') && |CameOut(c', e', toRight)| <= BufferAt(net.joints[i], toRight).next
  {
    c', e' := EndsStay(net, c, e, more);
    FullForGood(Stations(), net, more, i, toRight);
    NothingPastBuffer(Run(Stations(), net, more), c', e', i, toRight);
  }

  // ---- a client that sends piece by piece ------------------------------------

  predicate Sendable(pieces: seq<Bytes>, window: nat)
  {
    (forall p <- pieces :: 0 < |p| <= MAX_TCP_PAYLOAD) && Reorder.Cut(pieces, |pieces|) <= Initial(window)
  }

  /** The client's leg after `k` pieces. */
  function Emitted(window: nat, pieces: seq<Bytes>, k: nat): Leg
    requires k <= |pieces|
  {
    if k == 0 then Fresh(window) else Emit(Emitted(window, pieces, k - 1), pieces[k - 1])
  }

  /** A piece is one record. */
  lemma EmitOne(l: Leg, p: Bytes)
    requires l.left.None? && 0 < |p| <= MAX_TCP_PAYLOAD
    ensures Emit(l, p) == l.(wire := l.wire + [Data(l.sendOffset, p)], sendOffset := l.sendOffset + |p|)
  {
    assert p[..|p|] == p && p[|p|..] == [];
    assert Chunks(l.sendOffset, p) == [Data(l.sendOffset, p)];
  }

  /** Record `k` of the wire is piece `k`. */
  predicate IsPiece(w: seq<Record>, pieces: seq<Bytes>, k: nat)
    requires k < |pieces|
  {
    k < |w| && w[k] == Data(Reorder.Cut(pieces, k), pieces[k])
  }

  lemma {:induction false} EmittedIs(window: nat, pieces: seq<Bytes>, k: nat)
    requires k <= |pieces| && forall p <- pieces :: 0 < |p| <= MAX_TCP_PAYLOAD
    ensures var l := Emitted(window, pieces, k);
            && l == Fresh(window).(wire := l.wire, sendOffset := Reorder.Cut(pieces, k))
            && |l.wire| == k && forall j :: 0 <= j < k ==> IsPiece(l.wire, pieces, j)
  {
    if k > 0 {
      EmittedIs(window, pieces, k - 1);
      assert pieces[k - 1] in pieces;
      var l, l' := Emitted(window, pieces, k - 1), Emitted(window, pieces, k);
      EmitOne(l, pieces[k - 1]);
      forall j: nat | j < k ensures IsPiece(l'.wire, pieces, j) {
        if j < k - 1 { assert IsPiece(l.wire, pieces, j); }
      }
    }
  }

  function Sends(pieces: seq<Bytes>, k: nat): seq<Step<NodeMove>>
    requires k <= |pieces|
  {
    if k == 0 then [] else Sends(pieces, k - 1) + [Act(0, ByClient(Send(pieces[k - 1])))]
  }

  lemma ClientSendsPiece(window: nat, pieces: seq<Bytes>, k: nat)
    requires 0 < k <= |pieces| && Sendable(pieces, window)
    ensures ClientStep(Client(false, Emitted(window, pieces, k - 1), []), Send(pieces[k - 1])) == Client(false, Emitted(window, pieces, k), [])
  {
    EmittedIs(window, pieces, k - 1);
    assert pieces[k - 1] in pieces;
    Reorder.CutGrows(pieces, k, |pieces|);
  }

  function WithClient(net: Net<Node>, c: Client): (r: Net<Node>)
    requires Shaped(net)
    ensures Shaped(r) && r.nodes[0] == AtClient(c)
  {
    net.(nodes := net.nodes[0 := AtClient(c)])
  }

  lemma OneSend(net: Net<Node>, c: Client, p: Bytes)
    requires Shaped(net)
    ensures Next(Stations(), WithClient(net, c), Act(0, ByClient(Send(p)))) == WithClient(net, ClientStep(c, Send(p)))
  {
    assert net.nodes[0 := AtClient(c)][0 := AtClient(ClientStep(c, Send(p)))] == net.nodes[0 := AtClient(ClientStep(c, Send(p)))];
  }

  ghost function AfterSending(mc: Machine<Node, NodeMove>, start: Net<Node>, pieces: seq<Bytes>, k: nat): (net: Net<Node>)
    requires Shaped(start) && k <= |pieces|
    ensures Shaped(net)
  {
    if k == 0 then start else Next(mc, AfterSending(mc, start, pieces, k - 1), Act(0, ByClient(Send(pieces[k - 1]))))
  }

  lemma {:induction false} SendsAre(mc: Machine<Node, NodeMove>, start: Net<Node>, pieces: seq<Bytes>, k: nat)
    requires Shaped(start) && k <= |pieces|
    ensures Run(mc, start, Sends(pieces, k)) == AfterSending(mc, start, pieces, k)
  {
    if k > 0 {
      SendsAre(mc, start, pieces, k - 1);
      RunOneMore(mc, start, Sends(pieces, k - 1), Act(0, ByClient(Send(pieces[k - 1]))));
    }
  }

  lemma SendsNext(start: Net<Node>, window: nat, pieces: seq<Bytes>, k: nat)
    requires Shaped(start) && 0 < k <= |pieces| && Sendable(pieces, window)
    ensures Next(Stations(), WithClient(start, Client(false, Emitted(window, pieces, k - 1), [])), Act(0, ByClient(Send(pieces[k - 1]))))
         == WithClient(start, Client(false, Emitted(window, pieces, k), []))
  {
    OneSend(start, Client(false, Emitted(window, pieces, k - 1), []), pieces[k - 1]);
    ClientSendsPiece(window, pieces, k);
  }

  lemma {:induction false} SendsThrough(mc: Machine<Node, NodeMove>, start: Net<Node>, pieces: seq<Bytes>, clients: seq<Client>, k: nat)
    requires Shaped(start) && k <= |pieces| < |clients| && start == WithClient(start, clients[0])
    requires forall j :: 0 < j <= k ==>
               Next(mc, WithClient(start, clients[j - 1]), Act(0, ByClient(Send(pieces[j - 1])))) == WithClient(start, clients[j])
    ensures AfterSending(mc, start, pieces, k) == WithClient(start, clients[k])
  {
    if k > 0 { SendsThrough(mc, start, pieces, clients, k - 1); }
  }

  /** The client after each piece. */
  function Clients(window: nat, pieces: seq<Bytes>): (clients: seq<Client>)
    ensures |clients| == |pieces| + 1
  {
    seq(|pieces| + 1, k requires 0 <= k <= |pieces| => Client(false, Emitted(window, pieces, k), []))
  }

  lemma EachSends(start: Net<Node>, window: nat, pieces: seq<Bytes>, k: nat)
    requires Shaped(start) && 0 < k <= |pieces| && Sendable(pieces, window)
    ensures var clients := Clients(window, pieces);
            Next(Stations(), WithClient(start, clients[k - 1]), Act(0, ByClient(Send(pieces[k - 1])))) == WithClient(start, clients[k])
  {
    SendsNext(start, window, pieces, k);
  }

  lemma AllSend(start: Net<Node>, window: nat, pieces: seq<Bytes>, clients: seq<Client>)
    requires Shaped(start) && Sendable(pieces, window) && clients == Clients(window, pieces) && start == WithClient(start, clients[0])
    ensures AfterSending(Stations(), start, pieces, |pieces|) == WithClient(start, clients[|pieces|])
  {
    forall j | 0 < j <= |pieces|
      ensures Next(Stations(), WithClient(start, clients[j - 1]), Act(0, ByClient(Send(pieces[j - 1])))) == WithClient(start, clients[j])
    {
      EachSends(start, window, pieces, j);
    }
    SendsThrough(Stations(), start, pieces, clients, |pieces|);
  }

  lemma SendsRun(start: Net<Node>, window: nat, pieces: seq<Bytes>)
    requires Shaped(start) && Sendable(pieces, window) && start == WithClient(start, Client(false, Fresh(window), []))
    ensures AfterSending(Stations(), start, pieces, |pieces|) == WithClient(start, Client(false, Emitted(window, pieces, |pieces|), []))
  {
    AllSend(start, window, pieces, Clients(window, pieces));
  }

  // ---- records overtake the first --------------------------------------------

  /** All pieces are sent, and records `1..n` overtake the first. */
  function Overtaking(pieces: seq<Bytes>, n: nat): seq<Step<NodeMove>>
  {
    if n == 0 then Sends(pieces, |pieces|) else Overtaking(pieces, n - 1) + [Carry(0, true, n)]
  }

  /** What the first joint looks like while they do: the pieces are on the wire to it. */
  ghost predicate Overtaken<N, M>(mc: Machine<N, M>, net: Net<N>, pieces: seq<Bytes>, buf: Buffer)
  {
    && NetOk(mc, net) && |net.joints| > 0 && net.joints[0].toRight == buf
    && forall k :: 0 <= k < |pieces| ==> IsPiece(mc.right(net.nodes[0]).wire, pieces, k)
  }

  lemma OneOvertakes<N(!new), M(!new)>(mc: Machine<N, M>, net: Net<N>, pieces: seq<Bytes>, buf: Buffer, k: nat)
    requires Lawful(mc) && Overtaken(mc, net, pieces, buf) && k < |pieces|
    ensures Overtaken(mc, Next(mc, net, Carry(0, true, k)), pieces, Reorder.Insert(buf, Reorder.Cut(pieces, k), pieces[k]).0)
  {
    NextKeeps(mc, net, Carry(0, true, k));
    NextBuffer(mc, net, Carry(0, true, k), 0, true);
    NextGrowsWires(mc, net, Carry(0, true, k), 0, true);
    assert IsPiece(Sender(mc, net, 0, true).wire, pieces, k);
  }

  ghost function AfterOvertaking(mc: Machine<Node, NodeMove>, sent: Net<Node>, n: nat): (net: Net<Node>)
    requires Shaped(sent)
    ensures Shaped(net)
  {
    if n == 0 then sent else Next(mc, AfterOvertaking(mc, sent, n - 1), Carry(0, true, n))
  }

  lemma {:induction false} OvertakingIs(mc: Machine<Node, NodeMove>, start: Net<Node>, pieces: seq<Bytes>, n: nat)
    requires Shaped(start)
    ensures Run(mc, start, Overtaking(pieces, n)) == AfterOvertaking(mc, Run(mc, start, Sends(pieces, |pieces|)), n)
  {
    if n > 0 {
      OvertakingIs(mc, start, pieces, n - 1);
      RunOneMore(mc, start, Overtaking(pieces, n - 1), Carry(0, true, n));
    }
  }

  lemma {:induction false} OvertakingFrom(mc: Machine<Node, NodeMove>, sent: Net<Node>, pieces: seq<Bytes>, n: nat)
    requires Lawful(mc) && n < |pieces| && Overtaken(mc, sent, pieces, Reorder.Late(pieces, 0))
    ensures Overtaken(mc, AfterOvertaking(mc, sent, n), pieces, Reorder.Late(pieces, n))
  {
    if n > 0 {
      OvertakingFrom(mc, sent, pieces, n - 1);
      OneOvertakes(mc, AfterOvertaking(mc, sent, n - 1), pieces, Reorder.Late(pieces, n - 1), n);
    }
  }

  lemma AllSent(windows: seq<nat>, relayers: seq<Relayer>, kind: ExitPump.Kind, pieces: seq<Bytes>)
    requires |windows| == |relayers| + 1 && Sendable(pieces, windows[0]) && pieces != []
    ensures var net := Run(Stations(), Start(windows, relayers, kind), Sends(pieces, |pieces|));
            && net == WithClient(Start(windows, relayers, kind), Client(false, Emitted(windows[0], pieces, |pieces|), []))
            && Overtaken(Stations(), net, pieces, Reorder.Late(pieces, 0))
  {
    var start := Start(windows, relayers, kind);
    assert start.nodes[0 := start.nodes[0]] == start.nodes;
    SendsAre(Stations(), start, pieces, |pieces|);
    SendsRun(start, windows[0], pieces);
    EmittedIs(windows[0], pieces, |pieces|);
    RunReaches(windows, relayers, kind, Sends(pieces, |pieces|), Run(Stations(), start, Sends(pieces, |pieces|)));
  }

  /** Behind the first joint of any path the buffer fills as in isolation. */
  lemma OvertakingRuns(windows: seq<nat>, relayers: seq<Relayer>, kind: ExitPump.Kind, pieces: seq<Bytes>, n: nat)
    requires |windows| == |relayers| + 1 && Sendable(pieces, windows[0]) && n < |pieces|
    ensures Overtaken(Stations(), Run(Stations(), Start(windows, relayers, kind), Overtaking(pieces, n)), pieces, Reorder.Late(pieces, n))
  {
    var start := Start(windows, relayers, kind);
    AllSent(windows, relayers, kind, pieces);
    Laws();
    OvertakingFrom(Stations(), Run(Stations(), start, Sends(pieces, |pieces|)), pieces, n);
    OvertakingIs(Stations(), start, pieces, n);
  }

  /** The exit has written at most so many bytes. */
  predicate WroteAtMost(net: Net<Node>, n: nat)
  {
    |net.nodes| > 1 && net.nodes[|net.nodes| - 1].AtExit? && |net.nodes[|net.nodes| - 1].exit.wrote| <= n
  }

  lemma StuckWrites(net: Net<Node>, c: Client, e: ExitPump.Exit, more: seq<Step<NodeMove>>)
    requires NetOk(Stations(), net) && Ends(net, c, e) && |net.joints| > 0 && Full(net.joints[0].toRight) && net.joints[0].toRight.next == 0
    ensures WroteAtMost(Run(Stations(), net, more), 0)
  {
    var c', e' := StuckForGood(net, c, e, 0, true, more);
  }

  lemma PathEnds(windows: seq<nat>, relayers: seq<Relayer>, kind: ExitPump.Kind, steps: seq<Step<NodeMove>>) returns (c: Client, e: ExitPump.Exit)
    requires |windows| == |relayers| + 1
    ensures Ends(Run(Stations(), Start(windows, relayers, kind), steps), c, e)
  {
    var net := Run(Stations(), Start(windows, relayers, kind), steps);
    RunReaches(windows, relayers, kind, steps, net);
    NodePlaced(windows, relayers, kind, net.nodes, 0);
    NodePlaced(windows, relayers, kind, net.nodes, |windows|);
    c, e := ClientOf(net), ExitOf(net);
  }

  /** On any path: when the records that overtake the first fill the byte budget, the exit
      writes nothing, whatever happens then. */
  lemma OvertakenRecordJamsPath(windows: seq<nat>, relayers: seq<Relayer>, kind: ExitPump.Kind, pieces: seq<Bytes>, n: nat)
    requires |windows| == |relayers| + 1 && Sendable(pieces, windows[0]) && Reorder.FillsBehind(pieces, n)
    ensures var net := Run(Stations(), Start(windows, relayers, kind), Overtaking(pieces, n));
            forall more :: WroteAtMost(Run(Stations(), net, more), 0)
  {
    var net := Run(Stations(), Start(windows, relayers, kind), Overtaking(pieces, n));
    OvertakingRuns(windows, relayers, kind, pieces, n);
    Reorder.LateHolds(pieces, n);
    var c, e := PathEnds(windows, relayers, kind, Overtaking(pieces, n));
    forall more ensures WroteAtMost(Run(Stations(), net, more), 0) { StuckWrites(net, c, e, more); }
  }

  // ---- and at rest -----------------------------------------------------------

  /** A record that is only held leaves the nodes as they are. */
  lemma HeldIsSilent<N, M>(mc: Machine<N, M>, net: Net<N>, k: nat)
    requires Shaped(net) && |net.joints| > 0 && k < |mc.right(net.nodes[0]).wire|
    requires Through(net.joints[0].toRight, mc.right(net.nodes[0]).wire[k]).1 == Some(InData([]))
    requires mc.hear(net.nodes[1], true, InData([])) == net.nodes[1]
    ensures Next(mc, net, Carry(0, true, k)).nodes == net.nodes
  {
  }

  lemma NextIsSilent<N(!new), M(!new)>(mc: Machine<N, M>, net: Net<N>, pieces: seq<Bytes>, buf: Buffer, n: nat)
    requires n > 0 && Reorder.FitsBehind(pieces, n) && Overtaken(mc, net, pieces, buf) && Reorder.HoldsUpTo(buf, pieces, n - 1)
    requires mc.hear(net.nodes[1], true, InData([])) == net.nodes[1]
    ensures Next(mc, net, Carry(0, true, n)).nodes == net.nodes
  {
    Reorder.HeldSilently(buf, pieces, n);
    assert IsPiece(mc.right(net.nodes[0]).wire, pieces, n);
    HeldIsSilent(mc, net, n);
  }

  lemma StaysSilent(mc: Machine<Node, NodeMove>, net: Net<Node>, pieces: seq<Bytes>, buf: Buffer, n: nat) returns (next: Net<Node>, held: Buffer)
    requires Lawful(mc) && n > 0 && Reorder.FitsBehind(pieces, n) && Overtaken(mc, net, pieces, buf) && Reorder.HoldsUpTo(buf, pieces, n - 1)
    requires mc.hear(net.nodes[1], true, InData([])) == net.nodes[1]
    ensures next == Next(mc, net, Carry(0, true, n)) && next.nodes == net.nodes
    ensures Overtaken(mc, next, pieces, held) && Reorder.HoldsUpTo(held, pieces, n)
  {
    NextIsSilent(mc, net, pieces, buf, n);
    OneOvertakes(mc, net, pieces, buf, n);
    Reorder.HoldOneMore(buf, pieces, n);
    next, held := Next(mc, net, Carry(0, true, n)), Reorder.Insert(buf, Reorder.Cut(pieces, n), pieces[n]).0;
  }

  lemma {:induction false} OvertakingIsSilent(mc: Machine<Node, NodeMove>, sent: Net<Node>, pieces: seq<Bytes>, first: Buffer, n: nat)
    returns (net: Net<Node>, held: Buffer)
    requires Lawful(mc) && Reorder.FitsBehind(pieces, n) && Overtaken(mc, sent, pieces, first) && Reorder.HoldsUpTo(first, pieces, 0)
    requires mc.hear(sent.nodes[1], true, InData([])) == sent.nodes[1]
    ensures net == AfterOvertaking(mc, sent, n) && net.nodes == sent.nodes
    ensures Overtaken(mc, net, pieces, held) && Reorder.HoldsUpTo(held, pieces, n)
  {
    if n == 0 {
      net, held := sent, first;
    } else {
      Reorder.FitsLess(pieces, n);
      net, held := OvertakingIsSilent(mc, sent, pieces, first, n - 1);
      net, held := StaysSilent(mc, net, pieces, held, n);
    }
  }

  lemma ExitIsSilent(kind: ExitPump.Kind, window: nat)
    ensures Heard(AtExit(ExitPump.Opened(kind, window)), true, InData([])) == AtExit(ExitPump.Opened(kind, window))
  {
    var l := ExitPump.Opened(kind, window).leg;
    assert Events([]) == [] && l.log + [] == l.log && l.inbox + [] == l.inbox;
  }

  lemma ClientIdle(c: Client)
    requires c.leg.inbox == []
    ensures AtRest(AtClient(c))
  {
  }

  lemma ExitIdle(kind: ExitPump.Kind, window: nat)
    ensures AtRest(AtExit(ExitPump.Opened(kind, window))) && Healthy(AtExit(ExitPump.Opened(kind, window)))
  {
  }

  lemma {:induction false} NoPromise(w: seq<Record>)
    requires forall r <- w :: r.Data?
    ensures Read(w).promised == 0
  {
    if w != [] { NoPromise(w[..|w| - 1]); }
  }

  lemma BothSettled(kind: ExitPump.Kind, window: nat, pieces: seq<Bytes>)
    requires Sendable(pieces, window)
    ensures var (s, r) := (Emitted(window, pieces, |pieces|), ExitPump.Opened(kind, window).leg);
            Settled(s, r) && Settled(r, s) && Live(s) && s.inbox == []
  {
    EmittedIs(window, pieces, |pieces|);
    AnsweredBlank(window);
    var w := Emitted(window, pieces, |pieces|).wire;
    forall r <- w ensures r.Data? {
      var j :| 0 <= j < |w| && w[j] == r;
      assert IsPiece(w, pieces, j);
    }
    NoPromise(w);
  }

  lemma TwoAtStart(kind: ExitPump.Kind, window: nat, c: Client)
    ensures WithClient(Start([window], [], kind), c).nodes == [AtClient(c), AtExit(ExitPump.Opened(kind, window))]
  {
    ExitStarts(kind, window);
  }

  lemma TwoNodes(start: Net<Node>, sent: Net<Node>, kind: ExitPump.Kind, window: nat, c: Client, pieces: seq<Bytes>, n: nat)
    requires Shaped(start) && sent == Run(Stations(), start, Sends(pieces, |pieces|)) && Reorder.FitsBehind(pieces, n)
    requires sent.nodes == [AtClient(c), AtExit(ExitPump.Opened(kind, window))] && Overtaken(Stations(), sent, pieces, Reorder.Late(pieces, 0))
    ensures Run(Stations(), start, Overtaking(pieces, n)).nodes == sent.nodes
  {
    ExitIsSilent(kind, window);
    Laws();
    Reorder.NewHolds(pieces);
    var _, _ := OvertakingIsSilent(Stations(), sent, pieces, Reorder.Late(pieces, 0), n);
    OvertakingIs(Stations(), start, pieces, n);
  }

  lemma TwoNodesJam(kind: ExitPump.Kind, window: nat, pieces: seq<Bytes>, n: nat)
    requires Sendable(pieces, window) && Reorder.FillsBehind(pieces, n)
    ensures var net := Run(Stations(), Start([window], [], kind), Overtaking(pieces, n));
            && net.nodes == [AtClient(Client(false, Emitted(window, pieces, |pieces|), [])), AtExit(ExitPump.Opened(kind, window))]
            && Overtaken(Stations(), net, pieces, Reorder.Late(pieces, n))
  {
    var start, c := Start([window], [], kind), Client(false, Emitted(window, pieces, |pieces|), []);
    AllSent([window], [], kind, pieces);
    TwoAtStart(kind, window, c);
    TwoNodes(start, Run(Stations(), start, Sends(pieces, |pieces|)), kind, window, c, pieces, n);
    OvertakingRuns([window], [], kind, pieces, n);
  }

  lemma LateJams(net: Net<Node>, pieces: seq<Bytes>, n: nat)
    requires Reorder.FillsBehind(pieces, n) && Overtaken(Stations(), net, pieces, Reorder.Late(pieces, n))
    ensures JammedAt(net, 0, true)
  {
    Reorder.LateHolds(pieces, n);
    var w := Sender(Stations(), net, 0, true).wire;
    assert IsPiece(w, pieces, 0) && pieces[0] in pieces;
    assert Wiring.IsRecord(w, 0, pieces[0]);
  }

  lemma TwoRest(net: Net<Node>, kind: ExitPump.Kind, window: nat, pieces: seq<Bytes>)
    requires Sendable(pieces, window) && Shaped(net)
    requires net.nodes == [AtClient(Client(false, Emitted(window, pieces, |pieces|), [])), AtExit(ExitPump.Opened(kind, window))]
    ensures |net.joints| == 1 && CameToRest(net)
  {
    BothSettled(kind, window, pieces);
    ClientIdle(Client(false, Emitted(window, pieces, |pieces|), []));
    ExitIdle(kind, window);
  }

  /** A client next to its exit comes to rest jammed: every limit heard, every session sound,
      nothing left to do, and nothing delivered. */
  lemma JammedPathRests(kind: ExitPump.Kind, window: nat, pieces: seq<Bytes>, n: nat)
    requires Sendable(pieces, window) && Reorder.FillsBehind(pieces, n)
    ensures var net := Run(Stations(), Start([window], [], kind), Overtaking(pieces, n));
            |net.joints| == 1 && CameToRest(net) && JammedAt(net, 0, true)
  {
    var net := Run(Stations(), Start([window], [], kind), Overtaking(pieces, n));
    TwoNodesJam(kind, window, pieces, n);
    TwoRest(net, kind, window, pieces);
    LateJams(net, pieces, n);
  }

  // ---- a later record is lost ------------------------------------------------

  /** Records `1..n` overtake the first, `n + 1` does too, and then the first arrives. */
  function Losing(pieces: seq<Bytes>, n: nat): seq<Step<NodeMove>>
  {
    Overtaking(pieces, n) + [Carry(0, true, n + 1)] + [Carry(0, true, 0)]
  }

  lemma LosingRuns(windows: seq<nat>, relayers: seq<Relayer>, kind: ExitPump.Kind, pieces: seq<Bytes>, n: nat)
    requires |windows| == |relayers| + 1 && Sendable(pieces, windows[0]) && Reorder.OverrunsBehind(pieces, n)
    ensures var net := Run(Stations(), Start(windows, relayers, kind), Losing(pieces, n));
            Overtaken(Stations(), net, pieces, Reorder.Insert(Reorder.Late(pieces, n), 0, pieces[0]).0)
  {
    var start := Start(windows, relayers, kind);
    var steps := Overtaking(pieces, n);
    OvertakingRuns(windows, relayers, kind, pieces, n);
    Reorder.OverrunRecordIsLost(pieces, n);
    RunOneMore(Stations(), start, steps, Carry(0, true, n + 1));
    Laws();
    OneOvertakes(Stations(), Run(Stations(), start, steps), pieces, Reorder.Late(pieces, n), n + 1);
    RunOneMore(Stations(), start, steps + [Carry(0, true, n + 1)], Carry(0, true, 0));
    OneOvertakes(Stations(), Run(Stations(), start, steps + [Carry(0, true, n + 1)]), pieces, Reorder.Late(pieces, n), 0);
  }

  lemma {:induction false} NotCarriedNotTaken<N, M>(mc: Machine<N, M>, net: Net<N>, steps: seq<Step<M>>, i: nat, toRight: bool, k: nat)
    requires Shaped(net) && Carry(i, toRight, k) !in steps
    ensures !Took(mc, net, steps, i, toRight, k)
    decreases |steps|
  {
    if steps != [] { NotCarriedNotTaken(mc, Next(mc, net, steps[0]), steps[1..], i, toRight, k); }
  }

  /** A record that the receiver does not have stays away until it is carried again, and
      nothing comes out past it. */
  lemma NothingPastUncarried(net: Net<Node>, c: Client, e: ExitPump.Exit, i: nat, toRight: bool, k: nat, more: seq<Step<NodeMove>>)
    returns (c': Client, e': ExitPump.Exit)
    requires NetOk(Stations(), net) && Ends(net, c, e) && OnWire(Stations(), net, i, toRight, k) && !KeptAt(Stations(), net, i, toRight, k)
    requires Carry(i, toRight, k) !in more
    ensures Ends(Run(Stations(), net, more), c', e')
    ensures |CameOut(c', e', toRight)| <= Sender(Stations(), net, i, toRight).wire[k].offset
  {
    Laws();
    c', e' := EndsStay(net, c, e, more);
    RunKept(Stations(), net, more, i, toRight, k);
    RunGrowsWires(Stations(), net, more, i, toRight);
    NotCarriedNotTaken(Stations(), net, more, i, toRight, k);
    NothingPastBuffer(Run(Stations(), net, more), c', e', i, toRight);
  }

  /** What the loss leaves behind: nothing is jammed, the lost record would fit. */
  ghost predicate Lost(net: Net<Node>, pieces: seq<Bytes>, n: nat)
    requires n + 1 < |pieces|
  {
    && Shaped(net) && |net.joints| > 0
    && net.joints[0].toRight.pending == map[] && net.joints[0].toRight.next == Reorder.Cut(pieces, n + 1)
    && !Overruns(net.joints[0].toRight, Reorder.Cut(pieces, n + 1), pieces[n + 1])
    && OnWire(Stations(), net, 0, true, n + 1) && !KeptAt(Stations(), net, 0, true, n + 1)
    && RightLeg(net.nodes[0]).wire[n + 1] == Data(Reorder.Cut(pieces, n + 1), pieces[n + 1])
  }

  lemma JointStandard(net: Net<Node>, i: nat)
    requires NetOk(Stations(), net) && i < |net.joints|
    ensures Wiring.Standard(net.joints[i].toRight)
  {
    assert JoinedAt(Stations(), net, i);
  }

  lemma LosingLoses(net: Net<Node>, pieces: seq<Bytes>, n: nat)
    requires Reorder.OverrunsBehind(pieces, n) && |pieces[n + 1]| <= MAX_TCP_PAYLOAD
    requires Overtaken(Stations(), net, pieces, Reorder.Insert(Reorder.Late(pieces, n), 0, pieces[0]).0)
    ensures Lost(net, pieces, n)
  {
    Reorder.OverrunRecordIsLost(pieces, n);
    JointStandard(net, 0);
    assert IsPiece(Sender(Stations(), net, 0, true).wire, pieces, n + 1);
  }

  lemma LostForGood(net: Net<Node>, c: Client, e: ExitPump.Exit, pieces: seq<Bytes>, n: nat, more: seq<Step<NodeMove>>)
    requires n + 1 < |pieces| && NetOk(Stations(), net) && Ends(net, c, e) && Lost(net, pieces, n) && Carry(0, true, n + 1) !in more
    ensures WroteAtMost(Run(Stations(), net, more), Reorder.Cut(pieces, n + 1))
  {
    var c', e' := NothingPastUncarried(net, c, e, 0, true, n + 1, more);
  }

  /** On any path: a record that overruns a budget on its only arrival is lost, although the
      overtaken record then arrives and nothing is jammed. In no continuation that does not
      carry it again does the exit write past it. */
  lemma RefusedOnceIsLost(windows: seq<nat>, relayers: seq<Relayer>, kind: ExitPump.Kind, pieces: seq<Bytes>, n: nat)
    requires |windows| == |relayers| + 1 && Sendable(pieces, windows[0]) && Reorder.OverrunsBehind(pieces, n)
    ensures var net := Run(Stations(), Start(windows, relayers, kind), Losing(pieces, n));
            && Lost(net, pieces, n) && Reorder.Cut(pieces, n + 1) < Reorder.Cut(pieces, |pieces|)
            && forall more :: Carry(0, true, n + 1) !in more ==> WroteAtMost(Run(Stations(), net, more), Reorder.Cut(pieces, n + 1))
  {
    var net := Run(Stations(), Start(windows, relayers, kind), Losing(pieces, n));
    LosingRuns(windows, relayers, kind, pieces, n);
    assert pieces[n + 1] in pieces;
    LosingLoses(net, pieces, n);
    Reorder.OverrunRecordIsLost(pieces, n);
    var c, e := PathEnds(windows, relayers, kind, Losing(pieces, n));
    forall more | Carry(0, true, n + 1) !in more ensures WroteAtMost(Run(Stations(), net, more), Reorder.Cut(pieces, n + 1)) {
      LostForGood(net, c, e, pieces, n, more);
    }
  }
}
