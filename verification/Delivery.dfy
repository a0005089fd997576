/** What a path delivers: everything, exactly if every record was taken when it arrived. */
module Delivery {
  import opened Limits
  import opened StreamEngine
  import opened Path
  import opened Journey
  import opened Keeping
  import opened Arrivals
  import opened Standstill
  import Link
  import Wiring
  import ExitPump

  lemma StartKeepsNothing(windows: seq<nat>, relayers: seq<Relayer>, kind: ExitPump.Kind, i: nat, toRight: bool, k: nat)
    requires |windows| == |relayers| + 1
    ensures !KeptAt(Stations(), Start(windows, relayers, kind), i, toRight, k)
  {
    var net := Start(windows, relayers, kind);
    if i < |net.joints| { assert net.joints[i] == EmptyJoint(); }
  }

  /** In every run a receiver has exactly the records of which an arrival was taken. */
  lemma KeptExactlyWhenTaken(windows: seq<nat>, relayers: seq<Relayer>, kind: ExitPump.Kind, steps: seq<Step<NodeMove>>, i: nat, toRight: bool, k: nat)
    requires |windows| == |relayers| + 1 && i < |windows|
    ensures var start := Start(windows, relayers, kind);
            KeptAt(Stations(), Run(Stations(), start, steps), i, toRight, k) <==> Took(Stations(), start, steps, i, toRight, k)
  {
    Laws();
    StartOk(windows, relayers, kind);
    StartKeepsNothing(windows, relayers, kind, i, toRight, k);
    RunKept(Stations(), Start(windows, relayers, kind), steps, i, toRight, k);
  }

  /** Every data record that went over a joint in that direction was taken. */
  ghost predicate AllTaken(start: Net<Node>, steps: seq<Step<NodeMove>>, toRight: bool)
    requires Shaped(start)
  {
    forall i, k :: OnWire(Stations(), Run(Stations(), start, steps), i, toRight, k) ==> Took(Stations(), start, steps, i, toRight, k)
  }

  lemma MissingIsNotKept(net: Net<Node>, i: nat, toRight: bool)
    requires Shaped(net) && i < |net.joints|
    ensures MissingAt(net, i, toRight) <==> exists k :: OnWire(Stations(), net, i, toRight, k) && !KeptAt(Stations(), net, i, toRight, k)
  {
    var s, buf := Sender(Stations(), net, i, toRight), BufferAt(net.joints[i], toRight);
    assert MissingAt(net, i, toRight) <==> Misses(s, buf);
    if k :| 0 <= k < |s.wire| && s.wire[k].Data? && !Kept(buf, s.wire[k].offset) {
      assert OnWire(Stations(), net, i, toRight, k) && !KeptAt(Stations(), net, i, toRight, k);
    }
  }

  lemma MissingIsUntaken(start: Net<Node>, steps: seq<Step<NodeMove>>, net: Net<Node>, toRight: bool)
    requires Shaped(start) && net == Run(Stations(), start, steps)
    requires forall i: nat, k: nat :: i < |net.joints| ==> (KeptAt(Stations(), net, i, toRight, k) <==> Took(Stations(), start, steps, i, toRight, k))
    ensures (forall i :: 0 <= i < |net.joints| ==> !MissingAt(net, i, toRight)) <==> AllTaken(start, steps, toRight)
  {
    if i :| 0 <= i < |net.joints| && MissingAt(net, i, toRight) {
      MissingIsNotKept(net, i, toRight);
      var k :| OnWire(Stations(), net, i, toRight, k) && !KeptAt(Stations(), net, i, toRight, k);
      assert !Took(Stations(), start, steps, i, toRight, k);
    } else {
      forall i, k | OnWire(Stations(), net, i, toRight, k) ensures Took(Stations(), start, steps, i, toRight, k) {
        MissingIsNotKept(net, i, toRight);
        assert !MissingAt(net, i, toRight);
      }
    }
  }

  lemma NothingMissingWhenTaken(windows: seq<nat>, relayers: seq<Relayer>, kind: ExitPump.Kind, steps: seq<Step<NodeMove>>, toRight: bool, net: Net<Node>)
    requires |windows| == |relayers| + 1 && net == Run(Stations(), Start(windows, relayers, kind), steps) && |net.joints| == |windows|
    ensures (forall i :: 0 <= i < |net.joints| ==> !MissingAt(net, i, toRight)) <==> AllTaken(Start(windows, relayers, kind), steps, toRight)
  {
    forall i: nat, k: nat | i < |net.joints|
      ensures KeptAt(Stations(), net, i, toRight, k) <==> Took(Stations(), Start(windows, relayers, kind), steps, i, toRight, k)
    {
      KeptExactlyWhenTaken(windows, relayers, kind, steps, i, toRight, k);
    }
    MissingIsUntaken(Start(windows, relayers, kind), steps, net, toRight);
  }

  lemma RunReaches(windows: seq<nat>, relayers: seq<Relayer>, kind: ExitPump.Kind, steps: seq<Step<NodeMove>>, net: Net<Node>)
    requires |windows| == |relayers| + 1 && net == Run(Stations(), Start(windows, relayers, kind), steps)
    ensures NetOk(Stations(), net) && SameSizes(Stations(), Start(windows, relayers, kind).nodes, net.nodes)
  {
    Laws();
    StartOk(windows, relayers, kind);
    RunKeeps(Stations(), Start(windows, relayers, kind), steps);
    RunSizes(Stations(), Start(windows, relayers, kind), steps);
  }

  /** A path that has come to rest has delivered everything, both ways, exactly if every record
      was taken at some arrival, and then holds nothing: in every run over any bridges and hops,
      whatever was reordered, repeated or lost, nothing else can make it stand still. */
  lemma DeliveredExactlyWhenTaken(windows: seq<nat>, relayers: seq<Relayer>, kind: ExitPump.Kind, steps: seq<Step<NodeMove>>)
    returns (net: Net<Node>, c: Client, e: ExitPump.Exit)
    requires |windows| == |relayers| + 1 && Wide(windows) && CameToRest(Run(Stations(), Start(windows, relayers, kind), steps))
    ensures net == Run(Stations(), Start(windows, relayers, kind), steps) && Ends(net, c, e)
    ensures e.wrote == Payload(c.leg.wire) <==> AllTaken(Start(windows, relayers, kind), steps, true)
    ensures Queued(c.heard) == e.read <==> AllTaken(Start(windows, relayers, kind), steps, false)
    ensures e.wrote == Payload(c.leg.wire) ==> forall i :: 0 < i < |net.nodes| ==> !Holds(net.nodes[i], true)
    ensures Queued(c.heard) == e.read ==> forall i :: 0 <= i < |net.nodes| ==> !Holds(net.nodes[i], false)
  {
    net, c, e := RestsExactlyWhenNothingIsMissing(windows, relayers, kind, steps);
    RunReaches(windows, relayers, kind, steps, net);
    NothingMissingWhenTaken(windows, relayers, kind, steps, true, net);
    NothingMissingWhenTaken(windows, relayers, kind, steps, false, net);
  }

  // ---- records that arrive once ----------------------------------------------

  /** The replay window lets no record in twice. */
  ghost predicate AtMostOnce(start: Net<Node>, steps: seq<Step<NodeMove>>)
    requires Shaped(start)
  {
    forall i, toRight, k :: Times(Stations(), start, steps, i, toRight, k) <= 1
  }

  /** Every data record sent in that direction arrived, and none was refused. */
  ghost predicate NoneLost(start: Net<Node>, steps: seq<Step<NodeMove>>, toRight: bool)
    requires Shaped(start)
  {
    forall i, k :: OnWire(Stations(), Run(Stations(), start, steps), i, toRight, k) ==>
      Times(Stations(), start, steps, i, toRight, k) == 1 && !TurnedAway(Stations(), start, steps, i, toRight, k)
  }

  lemma TakenIsNotLost(start: Net<Node>, steps: seq<Step<NodeMove>>, toRight: bool)
    requires Shaped(start) && AtMostOnce(start, steps)
    ensures AllTaken(start, steps, toRight) <==> NoneLost(start, steps, toRight)
  {
    forall i, k
      ensures Took(Stations(), start, steps, i, toRight, k) <==>
              Times(Stations(), start, steps, i, toRight, k) == 1 && !TurnedAway(Stations(), start, steps, i, toRight, k)
    {
      OnceDecides(Stations(), start, steps, i, toRight, k);
    }
  }

  /** As the sessions have it, each record arrives at most once: then a path at rest has
      delivered everything exactly if every record arrived and none was refused. */
  lemma DeliveredExactlyWhenNoneRefused(windows: seq<nat>, relayers: seq<Relayer>, kind: ExitPump.Kind, steps: seq<Step<NodeMove>>)
    returns (net: Net<Node>, c: Client, e: ExitPump.Exit)
    requires |windows| == |relayers| + 1 && Wide(windows) && CameToRest(Run(Stations(), Start(windows, relayers, kind), steps))
    requires AtMostOnce(Start(windows, relayers, kind), steps)
    ensures net == Run(Stations(), Start(windows, relayers, kind), steps) && Ends(net, c, e)
    ensures e.wrote == Payload(c.leg.wire) <==> NoneLost(Start(windows, relayers, kind), steps, true)
    ensures Queued(c.heard) == e.read <==> NoneLost(Start(windows, relayers, kind), steps, false)
  {
    net, c, e := DeliveredExactlyWhenTaken(windows, relayers, kind, steps);
    TakenIsNotLost(Start(windows, relayers, kind), steps, true);
    TakenIsNotLost(Start(windows, relayers, kind), steps, false);
  }

  // ---- what a record costs that was not taken --------------------------------

  lemma JointHolds(net: Net<Node>, i: nat)
    requires NetOk(Stations(), net) && i < |net.joints|
    ensures |Queued(LeftLeg(net.nodes[i + 1]).log)| <= net.joints[i].toRight.next
    ensures |Queued(RightLeg(net.nodes[i]).log)| <= net.joints[i].toLeft.next
  {
    assert JoinedAt(Stations(), net, i);
  }

  /** What came out at the end of the direction: written by the exit, or taken by the client. */
  function CameOut(c: Client, e: ExitPump.Exit, toRight: bool): Bytes { if toRight then e.wrote else Queued(c.heard) }

  lemma OutWasHeard(c: Client, e: ExitPump.Exit)
    requires NodeOk(AtClient(c)) && NodeOk(AtExit(e))
    ensures |e.wrote| <= |Queued(e.leg.log)| && |Queued(c.heard)| <= |Queued(c.leg.log)|
  {
    ExitHolds(e);
    QueuedConcat(c.heard, c.leg.inbox);
  }

  /** Nothing comes out past what a receiver on the way is waiting for. */
  lemma NothingPastBuffer(net: Net<Node>, c: Client, e: ExitPump.Exit, i: nat, toRight: bool)
    requires NetOk(Stations(), net) && Ends(net, c, e) && i < |net.joints|
    ensures |CameOut(c, e, toRight)| <= BufferAt(net.joints[i], toRight).next
  {
    NodeInOrder(net, 0);
    NodeInOrder(net, |net.joints|);
    OutWasHeard(c, e);
    Laws();
    CameRight(Stations(), net, i);
    CameLeft(Stations(), net, i);
    JointHolds(net, i);
  }

  /** A path keeps its ends. */
  lemma EndsStay(net: Net<Node>, c: Client, e: ExitPump.Exit, steps: seq<Step<NodeMove>>) returns (c': Client, e': ExitPump.Exit)
    requires NetOk(Stations(), net) && Ends(net, c, e)
    ensures NetOk(Stations(), Run(Stations(), net, steps)) && Ends(Run(Stations(), net, steps), c', e')
  {
    Laws();
    RunKeeps(Stations(), net, steps);
    RunSizes(Stations(), net, steps);
    var last := Run(Stations(), net, steps);
    assert SameSize(Stations(), net.nodes[0], last.nodes[0]) && SameSize(Stations(), net.nodes[|net.joints|], last.nodes[|net.joints|]);
    c', e' := ClientOf(last), ExitOf(last);
  }

  /** In every run, at rest or not: nothing comes out past a record that was not taken. */
  lemma NothingPastUntaken(windows: seq<nat>, relayers: seq<Relayer>, kind: ExitPump.Kind, steps: seq<Step<NodeMove>>, i: nat, toRight: bool, k: nat)
    returns (net: Net<Node>, c: Client, e: ExitPump.Exit)
    requires |windows| == |relayers| + 1 && OnWire(Stations(), Run(Stations(), Start(windows, relayers, kind), steps), i, toRight, k)
    requires !Took(Stations(), Start(windows, relayers, kind), steps, i, toRight, k)
    ensures net == Run(Stations(), Start(windows, relayers, kind), steps) && Ends(net, c, e)
    ensures |CameOut(c, e, toRight)| <= Sender(Stations(), net, i, toRight).wire[k].offset
  {
    net := Run(Stations(), Start(windows, relayers, kind), steps);
    RunReaches(windows, relayers, kind, steps, net);
    NodePlaced(windows, relayers, kind, net.nodes, 0);
    NodePlaced(windows, relayers, kind, net.nodes, |windows|);
    KeptExactlyWhenTaken(windows, relayers, kind, steps, i, toRight, k);
    c, e := ClientOf(net), ExitOf(net);
    NothingPastBuffer(net, c, e, i, toRight);
  }

  // ---- what refuses a record -------------------------------------------------

  /** The byte budget and the block budget. */
  predicate OverBudget(buf: Link.Buffer, offset: nat, data: Bytes)
  {
    buf.buffered + |data| > REORDER_MAX_OUT_OF_ORDER_BYTES || (offset != buf.next && |buf.pending| >= REORDER_MAX_BLOCKS)
  }

  /** Credit keeps a record within the look-ahead. */
  lemma WithinLookAhead(s: Leg, r: Leg, buf: Link.Buffer, k: nat)
    requires Wiring.Linked(s, r, buf) && r.consumed <= |Queued(r.log)| && r.window <= REORDER_BUFFER_BYTES && k < |s.wire| && s.wire[k].Data?
    ensures Overruns(buf, s.wire[k].offset, s.wire[k].payload) <==> OverBudget(buf, s.wire[k].offset, s.wire[k].payload)
  {
    OverLink(s, r, buf);
    DataIsHonest(s.wire, k);
  }

  lemma JointWithinLookAhead(net: Net<Node>, i: nat, toRight: bool, k: nat)
    requires NetOk(Stations(), net) && OnWire(Stations(), net, i, toRight, k)
    requires LeftLeg(net.nodes[i + 1]).window <= REORDER_BUFFER_BYTES && RightLeg(net.nodes[i]).window <= REORDER_BUFFER_BYTES
    ensures var buf, r := BufferAt(net.joints[i], toRight), Sender(Stations(), net, i, toRight).wire[k];
            Overruns(buf, r.offset, r.payload) <==> OverBudget(buf, r.offset, r.payload)
  {
    assert JoinedAt(Stations(), net, i);
    NodeInOrder(net, i);
    NodeInOrder(net, i + 1);
    NodePasses(net.nodes[i]);
    NodePasses(net.nodes[i + 1]);
    if toRight {
      WithinLookAhead(RightLeg(net.nodes[i]), LeftLeg(net.nodes[i + 1]), net.joints[i].toRight, k);
    } else {
      WithinLookAhead(LeftLeg(net.nodes[i + 1]), RightLeg(net.nodes[i]), net.joints[i].toLeft, k);
    }
  }

  /** With windows up to the look-ahead, as all sessions have, only the two budgets ever refuse
      a record. */
  lemma OnlyBudgetsRefuse(windows: seq<nat>, relayers: seq<Relayer>, kind: ExitPump.Kind, steps: seq<Step<NodeMove>>, net: Net<Node>, i: nat, toRight: bool, k: nat)
    requires |windows| == |relayers| + 1 && net == Run(Stations(), Start(windows, relayers, kind), steps)
    requires i < |windows| && windows[i] <= REORDER_BUFFER_BYTES && OnWire(Stations(), net, i, toRight, k)
    ensures var buf, r := BufferAt(net.joints[i], toRight), Sender(Stations(), net, i, toRight).wire[k];
            Refuses(Stations(), net, i, toRight, k) <==> !Kept(buf, r.offset) && OverBudget(buf, r.offset, r.payload)
  {
    RunReaches(windows, relayers, kind, steps, net);
    PlacedWindows(windows, relayers, kind, net.nodes, i);
    JointWithinLookAhead(net, i, toRight, k);
  }

  // ---- were records carried again --------------------------------------------

  ghost predicate JammedAt(net: Net<Node>, i: nat, toRight: bool)
    requires Shaped(net) && i < |net.joints|
  {
    Wiring.Jammed(Sender(Stations(), net, i, toRight), BufferAt(net.joints[i], toRight))
  }

  /** Carrying any record again, over any joint, changes nothing. */
  ghost predicate Resent(net: Net<Node>, toRight: bool)
    requires Shaped(net)
  {
    forall i :: 0 <= i < |net.joints| ==> Wiring.Carried(Sender(Stations(), net, i, toRight), BufferAt(net.joints[i], toRight))
  }

  lemma ResentMissesOnlyJammed(net: Net<Node>, i: nat, toRight: bool)
    requires NetOk(Stations(), net) && i < |net.joints| && Resent(net, toRight)
    ensures MissingAt(net, i, toRight) <==> JammedAt(net, i, toRight)
  {
    JointTidy(Stations(), net, i, toRight);
    var s, buf := Sender(Stations(), net, i, toRight), BufferAt(net.joints[i], toRight);
    WholeExactlyWhenKept(s.wire, buf);
    Wiring.CarriedExactlyUnlessJammed(s, buf);
    assert MissingAt(net, i, toRight) <==> Misses(s, buf);
  }

  /** If a carrier did send records again until that changes nothing, a path at rest would
      stand still only where the awaited record is shut out by the byte budget. */
  lemma StandsStillOnlyWhenJammed(windows: seq<nat>, relayers: seq<Relayer>, kind: ExitPump.Kind, steps: seq<Step<NodeMove>>)
    returns (net: Net<Node>, c: Client, e: ExitPump.Exit)
    requires |windows| == |relayers| + 1 && Wide(windows) && CameToRest(Run(Stations(), Start(windows, relayers, kind), steps))
    ensures net == Run(Stations(), Start(windows, relayers, kind), steps) && Ends(net, c, e)
    ensures Resent(net, true) ==> (e.wrote == Payload(c.leg.wire) <==> forall i :: 0 <= i < |net.joints| ==> !JammedAt(net, i, true))
    ensures Resent(net, false) ==> (Queued(c.heard) == e.read <==> forall i :: 0 <= i < |net.joints| ==> !JammedAt(net, i, false))
  {
    net, c, e := RestsExactlyWhenNothingIsMissing(windows, relayers, kind, steps);
    RunReaches(windows, relayers, kind, steps, net);
    forall i, toRight | 0 <= i < |net.joints| && Resent(net, toRight) ensures MissingAt(net, i, toRight) <==> JammedAt(net, i, toRight) {
      ResentMissesOnlyJammed(net, i, toRight);
    }
  }
}
