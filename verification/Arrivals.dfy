/** What becomes of each record over a whole run: when it arrived, whether it was refused, and
    whether the receiver has it in the end. */
module Arrivals {
  import opened Limits
  import opened StreamEngine
  import opened Link
  import opened Path
  import opened Keeping

  /** Record `k` that goes over joint `i` is a data record. */
  predicate OnWire<N, M>(mc: Machine<N, M>, net: Net<N>, i: nat, toRight: bool, k: nat)
  {
    Shaped(net) && i < |net.joints| && k < |Sender(mc, net, i, toRight).wire| && Sender(mc, net, i, toRight).wire[k].Data?
  }

  /** The receiver has it. */
  predicate KeptAt<N, M>(mc: Machine<N, M>, net: Net<N>, i: nat, toRight: bool, k: nat)
  {
    OnWire(mc, net, i, toRight, k) && Kept(BufferAt(net.joints[i], toRight), Sender(mc, net, i, toRight).wire[k].offset)
  }

  /** The step carries it. */
  predicate Arrives<N, M(==)>(mc: Machine<N, M>, net: Net<N>, s: Step<M>, i: nat, toRight: bool, k: nat)
  {
    s == Carry(i, toRight, k) && OnWire(mc, net, i, toRight, k)
  }

  /** Carried now, it would be refused: the receiver does not have it, and it overruns the
      look-ahead, the byte budget or the block budget. */
  predicate Refuses<N, M>(mc: Machine<N, M>, net: Net<N>, i: nat, toRight: bool, k: nat)
    requires OnWire(mc, net, i, toRight, k)
  {
    var buf, r := BufferAt(net.joints[i], toRight), Sender(mc, net, i, toRight).wire[k];
    !Kept(buf, r.offset) && Overruns(buf, r.offset, r.payload)
  }

  // ---- one step --------------------------------------------------------------

  lemma DispatchKeepsWire(l: Leg, m: Inbound)
    ensures Dispatch(l, m).wire == l.wire
  {
  }

  lemma TellKeepsWires<N(!new), M(!new)>(mc: Machine<N, M>, net: Net<N>, node: nat, atLeft: bool, m: Inbound, i: nat, toRight: bool)
    requires Lawful(mc) && Shaped(net) && NodesOk(mc, net.nodes) && node < |net.nodes| && i < |net.joints|
    ensures Sender(mc, Tell(mc, net, node, atLeft, m), i, toRight).wire == Sender(mc, net, i, toRight).wire
  {
    var n := net.nodes[node];
    var n' := mc.hear(n, atLeft, m);
    assert Hears(mc, n, atLeft, m, n');
    DispatchKeepsWire(LegOf(mc, n, atLeft), m);
  }

  lemma ActGrowsWires<N(!new), M(!new)>(mc: Machine<N, M>, net: Net<N>, node: nat, move: M, i: nat, toRight: bool)
    requires Lawful(mc) && NetOk(mc, net) && i < |net.joints|
    ensures Sender(mc, net, i, toRight).wire <= Sender(mc, Next(mc, net, Act(node, move)), i, toRight).wire
  {
  }

  /** A step leaves the wires as they are, unless a node acts; then they grow. */
  lemma NextGrowsWires<N(!new), M(!new)>(mc: Machine<N, M>, net: Net<N>, s: Step<M>, i: nat, toRight: bool)
    requires Lawful(mc) && NetOk(mc, net) && i < |net.joints|
    ensures |Next(mc, net, s).joints| == |net.joints|
    ensures Sender(mc, net, i, toRight).wire <= Sender(mc, Next(mc, net, s), i, toRight).wire
    ensures !s.Act? ==> Sender(mc, Next(mc, net, s), i, toRight).wire == Sender(mc, net, i, toRight).wire
  {
    match s {
      case Act(node, move) => ActGrowsWires(mc, net, node, move, i, toRight);
      case Trouble(node, atLeft, seals) =>
        if node < |net.nodes| {
          TellKeepsWires(mc, net, node, atLeft, if seals.Some? then Failing(seals.value) else SessionClosed, i, toRight);
        }
      case Carry(j, right, k) =>
        if j < |net.joints| && k < |Sender(mc, net, j, right).wire| {
          var (buf, m) := Through(BufferAt(net.joints[j], right), Sender(mc, net, j, right).wire[k]);
          var net1 := net.(joints := net.joints[j := WithBuffer(net.joints[j], right, buf)]);
          if m.Some? { TellKeepsWires(mc, net1, if right then j + 1 else j, right, m.value, i, toRight); }
        }
    }
  }

  /** Only the record that is carried over a joint changes the buffer behind it. */
  lemma NextBuffer<N, M>(mc: Machine<N, M>, net: Net<N>, s: Step<M>, i: nat, toRight: bool)
    requires Shaped(net) && i < |net.joints|
    ensures var buf := BufferAt(net.joints[i], toRight);
            && |Next(mc, net, s).joints| == |net.joints|
            && BufferAt(Next(mc, net, s).joints[i], toRight) ==
               if s.Carry? && s.joint == i && s.toRight == toRight && OnWire(mc, net, i, toRight, s.record)
               then Through(buf, Sender(mc, net, i, toRight).wire[s.record]).0 else buf
  {
  }

  lemma JointTidy<N, M>(mc: Machine<N, M>, net: Net<N>, i: nat, toRight: bool)
    requires NetOk(mc, net) && i < |net.joints|
    ensures Tidy(Sender(mc, net, i, toRight).wire, BufferAt(net.joints[i], toRight))
  {
    assert JoinedAt(mc, net, i);
  }

  /** After a step the receiver has a record exactly if it had it before, or the step carried
      it and it was not refused. */
  lemma NextKept<N(!new), M(!new)>(mc: Machine<N, M>, net: Net<N>, s: Step<M>, i: nat, toRight: bool, k: nat)
    requires Lawful(mc) && NetOk(mc, net) && i < |net.joints|
    ensures KeptAt(mc, Next(mc, net, s), i, toRight, k) <==>
            KeptAt(mc, net, i, toRight, k) || (Arrives(mc, net, s, i, toRight, k) && !Refuses(mc, net, i, toRight, k))
  {
    var net' := Next(mc, net, s);
    NextKeeps(mc, net, s);
    NextGrowsWires(mc, net, s, i, toRight);
    NextBuffer(mc, net, s, i, toRight);
    JointTidy(mc, net, i, toRight);
    JointTidy(mc, net', i, toRight);
    var w, w', buf := Sender(mc, net, i, toRight).wire, Sender(mc, net', i, toRight).wire, BufferAt(net.joints[i], toRight);
    if !OnWire(mc, net', i, toRight, k) {
    } else if k >= |w| {
      UnsentIsNotKept(w, w', buf, k);
    } else if s.Carry? && s.joint == i && s.toRight == toRight && OnWire(mc, net, i, toRight, s.record) {
      RefusedExactly(w, buf, s.record);
      ArrivalKeeps(w, buf, s.record, k);
    }
  }

  lemma {:induction false} RunGrowsWires<N(!new), M(!new)>(mc: Machine<N, M>, net: Net<N>, steps: seq<Step<M>>, i: nat, toRight: bool)
    requires Lawful(mc) && NetOk(mc, net) && i < |net.joints|
    ensures |Run(mc, net, steps).joints| == |net.joints|
    ensures Sender(mc, net, i, toRight).wire <= Sender(mc, Run(mc, net, steps), i, toRight).wire
    decreases |steps|
  {
    if steps != [] {
      NextKeeps(mc, net, steps[0]);
      NextGrowsWires(mc, net, steps[0], i, toRight);
      RunGrowsWires(mc, Next(mc, net, steps[0]), steps[1..], i, toRight);
    }
  }

  // ---- whole runs ------------------------------------------------------------

  /** Some arrival of the record was taken. */
  ghost predicate Took<N, M>(mc: Machine<N, M>, net: Net<N>, steps: seq<Step<M>>, i: nat, toRight: bool, k: nat)
    requires Shaped(net)
    decreases |steps|
  {
    steps != [] &&
    ((Arrives(mc, net, steps[0], i, toRight, k) && !Refuses(mc, net, i, toRight, k))
     || Took(mc, Next(mc, net, steps[0]), steps[1..], i, toRight, k))
  }

  /** Some arrival of the record was refused. */
  ghost predicate TurnedAway<N, M>(mc: Machine<N, M>, net: Net<N>, steps: seq<Step<M>>, i: nat, toRight: bool, k: nat)
    requires Shaped(net)
    decreases |steps|
  {
    steps != [] &&
    ((Arrives(mc, net, steps[0], i, toRight, k) && Refuses(mc, net, i, toRight, k))
     || TurnedAway(mc, Next(mc, net, steps[0]), steps[1..], i, toRight, k))
  }

  /** How often the record arrived. */
  ghost function Times<N, M>(mc: Machine<N, M>, net: Net<N>, steps: seq<Step<M>>, i: nat, toRight: bool, k: nat): nat
    requires Shaped(net)
    decreases |steps|
  {
    if steps == [] then 0
    else
      (if Arrives(mc, net, steps[0], i, toRight, k) then 1 else 0) + Times(mc, Next(mc, net, steps[0]), steps[1..], i, toRight, k)
  }

  /** In every run the receiver ends up with exactly those records of which an arrival was
      taken. */
  lemma {:induction false} RunKept<N(!new), M(!new)>(mc: Machine<N, M>, net: Net<N>, steps: seq<Step<M>>, i: nat, toRight: bool, k: nat)
    requires Lawful(mc) && NetOk(mc, net) && i < |net.joints|
    ensures KeptAt(mc, Run(mc, net, steps), i, toRight, k) <==> KeptAt(mc, net, i, toRight, k) || Took(mc, net, steps, i, toRight, k)
    decreases |steps|
  {
    if steps != [] {
      NextKept(mc, net, steps[0], i, toRight, k);
      NextKeeps(mc, net, steps[0]);
      NextGrowsWires(mc, net, steps[0], i, toRight);
      RunKept(mc, Next(mc, net, steps[0]), steps[1..], i, toRight, k);
    }
  }

  lemma {:induction false} NeverCame<N, M>(mc: Machine<N, M>, net: Net<N>, steps: seq<Step<M>>, i: nat, toRight: bool, k: nat)
    requires Shaped(net)
    ensures Times(mc, net, steps, i, toRight, k) == 0 <==> !Took(mc, net, steps, i, toRight, k) && !TurnedAway(mc, net, steps, i, toRight, k)
    decreases |steps|
  {
    if steps != [] { NeverCame(mc, Next(mc, net, steps[0]), steps[1..], i, toRight, k); }
  }

  /** A record that arrives at most once is taken exactly when it came and was not refused. */
  lemma {:induction false} OnceDecides<N, M>(mc: Machine<N, M>, net: Net<N>, steps: seq<Step<M>>, i: nat, toRight: bool, k: nat)
    requires Shaped(net) && Times(mc, net, steps, i, toRight, k) <= 1
    ensures Took(mc, net, steps, i, toRight, k) <==>
            Times(mc, net, steps, i, toRight, k) == 1 && !TurnedAway(mc, net, steps, i, toRight, k)
    decreases |steps|
  {
    if steps != [] {
      NeverCame(mc, Next(mc, net, steps[0]), steps[1..], i, toRight, k);
      OnceDecides(mc, Next(mc, net, steps[0]), steps[1..], i, toRight, k);
    }
  }
}
