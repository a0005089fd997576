/** A row of nodes joined by links, for any kind of node that keeps its own order, only adds
    to its legs, and passes on in order what it was sent. */
module Path {
  import opened Limits
  import opened StreamEngine
  import opened Link
  import Wiring

  /** What a path needs to know of its nodes. An end node has one leg, on both sides; a
      node's role never changes. */
  datatype Machine<!N, !M> = Machine(
    ok: N -> bool,
    inner: N -> bool,
    left: N -> Leg,
    right: N -> Leg,
    slack: N -> nat,
    role: N -> nat,
    act: (N, M) -> N,
    hear: (N, bool, Inbound) -> N)

  function LegOf<N, M>(mc: Machine<N, M>, n: N, left: bool): Leg { if left then mc.left(n) else mc.right(n) }

  /** A node passes on a prefix of what it was sent, and credits at most its slack more than
      it has passed on. */
  predicate Passes(src: Leg, dst: Leg, slack: nat)
  {
    Payload(dst.wire) <= Queued(src.log) && src.consumed <= |Payload(dst.wire)| + slack
  }

  /** No leg credits more than was queued on it. */
  predicate Modest(l: Leg) { l.consumed <= |Queued(l.log)| }

  ghost predicate SoundNodes<N(!new), M(!new)>(mc: Machine<N, M>)
  {
    forall n :: mc.ok(n) ==>
      && WireOk(mc.left(n)) && WireOk(mc.right(n)) && Modest(mc.left(n)) && Modest(mc.right(n))
      && (mc.inner(n) ==> Passes(mc.left(n), mc.right(n), mc.slack(n)) && Passes(mc.right(n), mc.left(n), mc.slack(n)))
      && (!mc.inner(n) ==> mc.left(n) == mc.right(n))
  }

  ghost predicate OrderlyActs<N(!new), M(!new)>(mc: Machine<N, M>)
  {
    forall n, m :: mc.ok(n) ==>
      && mc.ok(mc.act(n, m)) && mc.inner(mc.act(n, m)) == mc.inner(n) && mc.slack(mc.act(n, m)) == mc.slack(n)
      && mc.role(mc.act(n, m)) == mc.role(n)
      && Acts(mc.left(n), mc.left(mc.act(n, m))) && Acts(mc.right(n), mc.right(mc.act(n, m)))
  }

  /** An arrival reaches the one leg, unless the node is over and has let it go. */
  ghost predicate Hears<N(!new), M(!new)>(mc: Machine<N, M>, n: N, left: bool, m: Inbound, n': N)
  {
    && mc.ok(n') && mc.inner(n') == mc.inner(n) && mc.slack(n') == mc.slack(n) && mc.role(n') == mc.role(n)
    && (LegOf(mc, n', left) == Dispatch(LegOf(mc, n, left), m) || (LegOf(mc, n', left) == LegOf(mc, n, left) && !LegOf(mc, n, left).sink))
    && (mc.inner(n) ==> LegOf(mc, n', !left) == LegOf(mc, n, !left))
  }

  ghost predicate OrderlyHearing<N(!new), M(!new)>(mc: Machine<N, M>)
  {
    forall n, left, m :: mc.ok(n) ==> Hears(mc, n, left, m, mc.hear(n, left, m))
  }

  ghost predicate Lawful<N(!new), M(!new)>(mc: Machine<N, M>)
  {
    SoundNodes(mc) && OrderlyActs(mc) && OrderlyHearing(mc)
  }

  // ---- the row ---------------------------------------------------------------

  /** The reorder buffers at the two ends of a link. */
  datatype Joint = Joint(toRight: Buffer, toLeft: Buffer)

  /** Joint `i` joins the right leg of node `i` to the left leg of node `i + 1`. */
  datatype Net<N> = Net(nodes: seq<N>, joints: seq<Joint>)

  /** A node acts; a record that some wire holds is carried over its joint, once more or for
      the first time; or the session under a leg starts to fail or closes. */
  datatype Step<M> =
    | Act(node: nat, move: M)
    | Carry(joint: nat, toRight: bool, record: nat)
    | Trouble(node: nat, atLeft: bool, seals: Option<nat>)

  predicate Shaped<N>(net: Net<N>) { |net.nodes| == |net.joints| + 1 }

  function Sender<N, M>(mc: Machine<N, M>, net: Net<N>, i: nat, toRight: bool): Leg
    requires Shaped(net) && i < |net.joints|
  {
    if toRight then mc.right(net.nodes[i]) else mc.left(net.nodes[i + 1])
  }

  function BufferAt(j: Joint, toRight: bool): Buffer { if toRight then j.toRight else j.toLeft }

  function WithBuffer(j: Joint, toRight: bool, b: Buffer): Joint
  {
    if toRight then j.(toRight := b) else j.(toLeft := b)
  }

  function Tell<N, M>(mc: Machine<N, M>, net: Net<N>, node: nat, atLeft: bool, m: Inbound): Net<N>
    requires node < |net.nodes|
  {
    net.(nodes := net.nodes[node := mc.hear(net.nodes[node], atLeft, m)])
  }

  ghost function Next<N, M>(mc: Machine<N, M>, net: Net<N>, s: Step<M>): (next: Net<N>)
    requires Shaped(net)
    ensures Shaped(next)
  {
    match s
    case Act(node, move) =>
      if node >= |net.nodes| then net else net.(nodes := net.nodes[node := mc.act(net.nodes[node], move)])
    case Trouble(node, atLeft, seals) =>
      if node >= |net.nodes| then net
      else Tell(mc, net, node, atLeft, if seals.Some? then Failing(seals.value) else SessionClosed)
    case Carry(i, toRight, k) =>
      if i >= |net.joints| || k >= |Sender(mc, net, i, toRight).wire| then net
      else
        var (buf, m) := Through(BufferAt(net.joints[i], toRight), Sender(mc, net, i, toRight).wire[k]);
        var net1 := net.(joints := net.joints[i := WithBuffer(net.joints[i], toRight, buf)]);
        if m.None? then net1 else Tell(mc, net1, if toRight then i + 1 else i, toRight, m.value)
  }

  ghost function Run<N, M>(mc: Machine<N, M>, net: Net<N>, steps: seq<Step<M>>): (last: Net<N>)
    requires Shaped(net)
    ensures Shaped(last)
    decreases |steps|
  {
    if steps == [] then net else Run(mc, Next(mc, net, steps[0]), steps[1..])
  }

  lemma {:induction false} RunOneMore<N, M>(mc: Machine<N, M>, net: Net<N>, steps: seq<Step<M>>, s: Step<M>)
    requires Shaped(net)
    ensures Run(mc, net, steps + [s]) == Next(mc, Run(mc, net, steps), s)
    decreases |steps|
  {
    if steps == [] {
      assert ([] + [s])[1..] == [];
    } else {
      assert (steps + [s])[1..] == steps[1..] + [s];
      RunOneMore(mc, Next(mc, net, steps[0]), steps[1..], s);
    }
  }

  // ---- every step ------------------------------------------------------------

  /** Both directions between two nodes. */
  ghost predicate Joined<N, M>(mc: Machine<N, M>, a: N, j: Joint, b: N)
  {
    Wiring.Linked(mc.right(a), mc.left(b), j.toRight) && Wiring.Linked(mc.left(b), mc.right(a), j.toLeft)
  }

  ghost predicate JoinedAt<N, M>(mc: Machine<N, M>, net: Net<N>, i: nat)
    requires Shaped(net) && i < |net.joints|
  {
    Joined(mc, net.nodes[i], net.joints[i], net.nodes[i + 1])
  }

  ghost predicate NodesOk<N, M>(mc: Machine<N, M>, nodes: seq<N>)
  {
    && |nodes| > 1
    && (forall i :: 0 <= i < |nodes| ==> mc.ok(nodes[i]) && (mc.inner(nodes[i]) <==> 0 < i < |nodes| - 1))
  }

  ghost predicate NetOk<N, M>(mc: Machine<N, M>, net: Net<N>)
  {
    && Shaped(net) && NodesOk(mc, net.nodes)
    && (forall i :: 0 <= i < |net.joints| ==> JoinedAt(mc, net, i))
  }

  /** The neighbours of node `j` are joined to `n` as well. */
  ghost predicate Fits<N, M>(mc: Machine<N, M>, net: Net<N>, j: nat, n: N)
    requires Shaped(net) && j < |net.nodes|
  {
    && (j > 0 ==> Joined(mc, net.nodes[j - 1], net.joints[j - 1], n))
    && (j < |net.joints| ==> Joined(mc, n, net.joints[j], net.nodes[j + 1]))
  }

  /** Of a row in which one node was replaced, neighbours are the old ones or the new one's. */
  lemma Neighbours<N, J>(joined: (N, J, N) -> bool, nodes: seq<N>, joints: seq<J>, j: nat, n: N, i: nat)
    requires |nodes| == |joints| + 1 && j < |nodes| && i < |joints| && joined(nodes[i], joints[i], nodes[i + 1])
    requires j > 0 ==> joined(nodes[j - 1], joints[j - 1], n)
    requires j < |joints| ==> joined(n, joints[j], nodes[j + 1])
    ensures joined(nodes[j := n][i], joints[i], nodes[j := n][i + 1])
  {
  }

  lemma JointStays<N, M>(mc: Machine<N, M>, net: Net<N>, j: nat, n: N, i: nat)
    requires Shaped(net) && j < |net.nodes| && i < |net.joints|
    requires Joined(mc, net.nodes[i], net.joints[i], net.nodes[i + 1]) && Fits(mc, net, j, n)
    ensures Joined(mc, net.nodes[j := n][i], net.joints[i], net.nodes[j := n][i + 1])
  {
    Neighbours((a, k, b) => Joined(mc, a, k, b), net.nodes, net.joints, j, n, i);
  }

  lemma RolesStay<N, M>(mc: Machine<N, M>, nodes: seq<N>, j: nat, n: N)
    requires NodesOk(mc, nodes) && j < |nodes| && mc.ok(n) && mc.inner(n) == mc.inner(nodes[j])
    ensures NodesOk(mc, nodes[j := n])
  {
  }

  lemma PutNode<N, M>(mc: Machine<N, M>, net: Net<N>, j: nat, n: N)
    requires NetOk(mc, net) && j < |net.nodes| && Fits(mc, net, j, n)
    requires mc.ok(n) && mc.inner(n) == mc.inner(net.nodes[j])
    ensures NetOk(mc, net.(nodes := net.nodes[j := n]))
  {
    var net' := net.(nodes := net.nodes[j := n]);
    RolesStay(mc, net.nodes, j, n);
    forall i | 0 <= i < |net'.joints| ensures JoinedAt(mc, net', i) {
      assert JoinedAt(mc, net, i);
      JointStays(mc, net, j, n, i);
    }
  }

  lemma ActFits<N, M>(mc: Machine<N, M>, net: Net<N>, j: nat, n: N)
    requires NetOk(mc, net) && j < |net.nodes| && WireOk(mc.left(n)) && WireOk(mc.right(n))
    requires Acts(mc.left(net.nodes[j]), mc.left(n)) && Acts(mc.right(net.nodes[j]), mc.right(n))
    ensures Fits(mc, net, j, n)
  {
    if j > 0 {
      assert JoinedAt(mc, net, j - 1);
      Wiring.EndActs(mc.left(net.nodes[j]), mc.right(net.nodes[j - 1]), net.joints[j - 1].toRight, net.joints[j - 1].toLeft, mc.left(n));
    }
    if j < |net.joints| {
      assert JoinedAt(mc, net, j);
      Wiring.EndActs(mc.right(net.nodes[j]), mc.left(net.nodes[j + 1]), net.joints[j].toLeft, net.joints[j].toRight, mc.right(n));
    }
  }

  lemma ActKeeps<N(!new), M(!new)>(mc: Machine<N, M>, net: Net<N>, j: nat, move: M)
    requires Lawful(mc) && NetOk(mc, net) && j < |net.nodes|
    ensures NetOk(mc, Next(mc, net, Act(j, move)))
  {
    var n := mc.act(net.nodes[j], move);
    assert mc.ok(net.nodes[j]) && mc.ok(n);
    ActFits(mc, net, j, n);
    PutNode(mc, net, j, n);
  }

  // ---- hearing ---------------------------------------------------------------

  /** A joint cares for nothing but the legs it joins. */
  lemma SameLegs<N, M>(mc: Machine<N, M>, a: N, j: Joint, b: N, a': N, b': N)
    requires Joined(mc, a, j, b) && mc.right(a') == mc.right(a) && mc.left(b') == mc.left(b)
    ensures Joined(mc, a', j, b')
  {
  }

  /** Node `n`, heard on its left, is still joined to the node left of it. */
  lemma LeftHears<N, M>(mc: Machine<N, M>, a: N, j: Joint, n: N, m: Inbound, n': N)
    requires Joined(mc, a, j, n) && (m.Failing? || m.SessionClosed?)
    requires mc.left(n') == mc.left(n) || mc.left(n') == Dispatch(mc.left(n), m)
    ensures Joined(mc, a, j, n')
  {
    Wiring.EndHears(mc.left(n), mc.right(a), j.toRight, j.toLeft, m);
  }

  lemma RightHears<N, M>(mc: Machine<N, M>, n: N, j: Joint, b: N, m: Inbound, n': N)
    requires Joined(mc, n, j, b) && (m.Failing? || m.SessionClosed?)
    requires mc.right(n') == mc.right(n) || mc.right(n') == Dispatch(mc.right(n), m)
    ensures Joined(mc, n', j, b)
  {
    Wiring.EndHears(mc.right(n), mc.left(b), j.toLeft, j.toRight, m);
  }

  /** Trouble reaches one leg of a node or, at an end, its only one. */
  lemma TroubleFits<N, M>(mc: Machine<N, M>, net: Net<N>, j: nat, m: Inbound, n': N)
    requires NetOk(mc, net) && j < |net.nodes| && (m.Failing? || m.SessionClosed?)
    requires j > 0 ==> mc.left(n') == mc.left(net.nodes[j]) || mc.left(n') == Dispatch(mc.left(net.nodes[j]), m)
    requires j < |net.joints| ==> mc.right(n') == mc.right(net.nodes[j]) || mc.right(n') == Dispatch(mc.right(net.nodes[j]), m)
    ensures Fits(mc, net, j, n')
  {
    if j > 0 {
      assert JoinedAt(mc, net, j - 1);
      LeftHears(mc, net.nodes[j - 1], net.joints[j - 1], net.nodes[j], m, n');
    }
    if j < |net.joints| {
      assert JoinedAt(mc, net, j);
      RightHears(mc, net.nodes[j], net.joints[j], net.nodes[j + 1], m, n');
    }
  }

  /** What the laws say of one arrival. */
  lemma ArrivalHeard<N(!new), M(!new)>(mc: Machine<N, M>, n: N, left: bool, m: Inbound)
    requires Lawful(mc) && mc.ok(n)
    ensures var n' := mc.hear(n, left, m);
            && mc.ok(n') && mc.inner(n') == mc.inner(n)
            && (mc.inner(n) || left ==> mc.left(n') == mc.left(n) || mc.left(n') == Dispatch(mc.left(n), m))
            && (mc.inner(n) || !left ==> mc.right(n') == mc.right(n) || mc.right(n') == Dispatch(mc.right(n), m))
            && (!mc.inner(n) ==> mc.left(n) == mc.right(n) && mc.left(n') == mc.right(n'))
  {
    var n' := mc.hear(n, left, m);
    assert Hears(mc, n, left, m, n');
  }

  lemma TroublePut<N, M>(mc: Machine<N, M>, net: Net<N>, j: nat, m: Inbound, n': N)
    requires NetOk(mc, net) && j < |net.nodes| && (m.Failing? || m.SessionClosed?)
    requires mc.ok(n') && mc.inner(n') == mc.inner(net.nodes[j])
    requires j > 0 ==> mc.left(n') == mc.left(net.nodes[j]) || mc.left(n') == Dispatch(mc.left(net.nodes[j]), m)
    requires j < |net.joints| ==> mc.right(n') == mc.right(net.nodes[j]) || mc.right(n') == Dispatch(mc.right(net.nodes[j]), m)
    ensures NetOk(mc, net.(nodes := net.nodes[j := n']))
  {
    TroubleFits(mc, net, j, m, n');
    PutNode(mc, net, j, n');
  }

  lemma TroubleKeeps<N(!new), M(!new)>(mc: Machine<N, M>, net: Net<N>, j: nat, left: bool, seals: Option<nat>)
    requires Lawful(mc) && NetOk(mc, net) && j < |net.nodes|
    ensures NetOk(mc, Next(mc, net, Trouble(j, left, seals)))
  {
    var m := if seals.Some? then Failing(seals.value) else SessionClosed;
    var n' := mc.hear(net.nodes[j], left, m);
    ArrivalHeard(mc, net.nodes[j], left, m);
    TroublePut(mc, net, j, m, n');
  }

  lemma OtherLegs<N, M>(mc: Machine<N, M>, net: Net<N>, j: nat, n: N, k: nat)
    requires Shaped(net) && j < |net.nodes| && k < |net.joints|
    requires k == j ==> mc.right(n) == mc.right(net.nodes[j])
    requires k + 1 == j ==> mc.left(n) == mc.left(net.nodes[j])
    ensures mc.right(net.nodes[j := n][k]) == mc.right(net.nodes[k])
    ensures mc.left(net.nodes[j := n][k + 1]) == mc.left(net.nodes[k + 1])
  {
  }

  /** One joint and the node at its one end change together. */
  lemma PutJoint<N, M>(mc: Machine<N, M>, net: Net<N>, i: nat, joint: Joint, j: nat, n: N, net': Net<N>)
    requires NetOk(mc, net) && i < |net.joints| && i <= j <= i + 1
    requires net' == Net(net.nodes[j := n], net.joints[i := joint])
    requires mc.ok(n) && mc.inner(n) == mc.inner(net.nodes[j])
    requires Joined(mc, net'.nodes[i], joint, net'.nodes[i + 1])
    requires j == i + 1 && j < |net.joints| ==> mc.right(n) == mc.right(net.nodes[j])
    requires j == i && j > 0 ==> mc.left(n) == mc.left(net.nodes[j])
    ensures NetOk(mc, net')
  {
    forall k | 0 <= k < |net'.joints| ensures JoinedAt(mc, net', k) {
      if k != i {
        assert JoinedAt(mc, net, k);
        OtherLegs(mc, net, j, n, k);
        SameLegs(mc, net.nodes[k], net.joints[k], net.nodes[k + 1], net'.nodes[k], net'.nodes[k + 1]);
      }
    }
  }

  /** Record `k` of `a`'s right wire reaches `b`, unless it is held back or `b` is over. */
  lemma RightCarried<N, M>(mc: Machine<N, M>, a: N, j: Joint, b: N, k: nat, b': N)
    requires Joined(mc, a, j, b) && k < |mc.right(a).wire|
    requires var m := Through(j.toRight, mc.right(a).wire[k]).1;
             (mc.left(b') == mc.left(b) && (m.None? || !mc.left(b).sink)) || (m.Some? && mc.left(b') == Dispatch(mc.left(b), m.value))
    ensures Joined(mc, a, j.(toRight := Through(j.toRight, mc.right(a).wire[k]).0), b')
  {
    Wiring.EndTakes(mc.right(a), mc.left(b), j.toRight, j.toLeft, k, mc.left(b'));
  }

  lemma LeftCarried<N, M>(mc: Machine<N, M>, a: N, j: Joint, b: N, k: nat, a': N)
    requires Joined(mc, a, j, b) && k < |mc.left(b).wire|
    requires var m := Through(j.toLeft, mc.left(b).wire[k]).1;
             (mc.right(a') == mc.right(a) && (m.None? || !mc.right(a).sink)) || (m.Some? && mc.right(a') == Dispatch(mc.right(a), m.value))
    ensures Joined(mc, a', j.(toLeft := Through(j.toLeft, mc.left(b).wire[k]).0), b)
  {
    Wiring.EndTakes(mc.left(b), mc.right(a), j.toLeft, j.toRight, k, mc.right(a'));
  }

  /** What the laws say of a record that is carried to a node, or held back before it. */
  lemma CarriedTo<N(!new), M(!new)>(mc: Machine<N, M>, n: N, left: bool, m: Option<Inbound>, n': N)
    requires Lawful(mc) && mc.ok(n) && n' == if m.Some? then mc.hear(n, left, m.value) else n
    ensures mc.ok(n') && mc.inner(n') == mc.inner(n)
    ensures (LegOf(mc, n', left) == LegOf(mc, n, left) && (m.None? || !LegOf(mc, n, left).sink))
            || (m.Some? && LegOf(mc, n', left) == Dispatch(LegOf(mc, n, left), m.value))
    ensures mc.inner(n) ==> LegOf(mc, n', !left) == LegOf(mc, n, !left)
  {
    if m.Some? { assert Hears(mc, n, left, m.value, n'); }
  }

  /** The node and the joint that a carried record changes, as the step has them. */
  lemma CarriedNet<N, M>(mc: Machine<N, M>, net: Net<N>, i: nat, toRight: bool, k: nat, n: N)
    requires Shaped(net) && i < |net.joints| && k < |Sender(mc, net, i, toRight).wire|
    requires var m := Through(BufferAt(net.joints[i], toRight), Sender(mc, net, i, toRight).wire[k]).1;
             var j := if toRight then i + 1 else i;
             n == if m.Some? then mc.hear(net.nodes[j], toRight, m.value) else net.nodes[j]
    ensures var buf := Through(BufferAt(net.joints[i], toRight), Sender(mc, net, i, toRight).wire[k]).0;
            Next(mc, net, Carry(i, toRight, k))
              == Net(net.nodes[(if toRight then i + 1 else i) := n], net.joints[i := WithBuffer(net.joints[i], toRight, buf)])
  {
    assert net.nodes[i := net.nodes[i]] == net.nodes && net.nodes[i + 1 := net.nodes[i + 1]] == net.nodes;
  }

  /** A record goes over a joint to the right. */
  lemma CarryRight<N(!new), M(!new)>(mc: Machine<N, M>, net: Net<N>, i: nat, k: nat, net': Net<N>)
    requires Lawful(mc) && NetOk(mc, net) && i < |net.joints| && k < |mc.right(net.nodes[i]).wire|
    requires net' == Next(mc, net, Carry(i, true, k))
    ensures NetOk(mc, net')
  {
    var a, j, b := net.nodes[i], net.joints[i], net.nodes[i + 1];
    assert JoinedAt(mc, net, i) && mc.ok(b);
    var (buf, m) := Through(j.toRight, mc.right(a).wire[k]);
    var b' := if m.Some? then mc.hear(b, true, m.value) else b;
    CarriedTo(mc, b, true, m, b');
    RightCarried(mc, a, j, b, k, b');
    CarriedNet(mc, net, i, true, k, b');
    PutJoint(mc, net, i, j.(toRight := buf), i + 1, b', net');
  }

  /** And one to the left. */
  lemma CarryLeft<N(!new), M(!new)>(mc: Machine<N, M>, net: Net<N>, i: nat, k: nat, net': Net<N>)
    requires Lawful(mc) && NetOk(mc, net) && i < |net.joints| && k < |mc.left(net.nodes[i + 1]).wire|
    requires net' == Next(mc, net, Carry(i, false, k))
    ensures NetOk(mc, net')
  {
    var a, j, b := net.nodes[i], net.joints[i], net.nodes[i + 1];
    assert JoinedAt(mc, net, i) && mc.ok(a);
    var (buf, m) := Through(j.toLeft, mc.left(b).wire[k]);
    var a' := if m.Some? then mc.hear(a, false, m.value) else a;
    CarriedTo(mc, a, false, m, a');
    LeftCarried(mc, a, j, b, k, a');
    CarriedNet(mc, net, i, false, k, a');
    PutJoint(mc, net, i, j.(toLeft := buf), i, a', net');
  }

  lemma NextKeeps<N(!new), M(!new)>(mc: Machine<N, M>, net: Net<N>, s: Step<M>)
    requires Lawful(mc) && NetOk(mc, net)
    ensures NetOk(mc, Next(mc, net, s))
  {
    match s {
      case Act(node, move) => if node < |net.nodes| { ActKeeps(mc, net, node, move); }
      case Trouble(node, left, seals) => if node < |net.nodes| { TroubleKeeps(mc, net, node, left, seals); }
      case Carry(i, toRight, k) =>
        if i < |net.joints| && k < |Sender(mc, net, i, toRight).wire| {
          if toRight { CarryRight(mc, net, i, k, Next(mc, net, s)); } else { CarryLeft(mc, net, i, k, Next(mc, net, s)); }
        }
    }
  }

  lemma {:induction false} RunKeeps<N(!new), M(!new)>(mc: Machine<N, M>, net: Net<N>, steps: seq<Step<M>>)
    requires Lawful(mc) && NetOk(mc, net)
    ensures NetOk(mc, Run(mc, net, steps))
    decreases |steps|
  {
    if steps != [] {
      NextKeeps(mc, net, steps[0]);
      RunKeeps(mc, Next(mc, net, steps[0]), steps[1..]);
    }
  }

  // ---- from end to end -------------------------------------------------------

  /** How much can be under way to the right from joint `i` on: the windows of the receiving
      legs and the slack of the nodes between them. */
  ghost function RightBudget<N, M>(mc: Machine<N, M>, nodes: seq<N>, i: nat): nat
    requires i + 1 < |nodes|
    decreases |nodes| - i
  {
    mc.left(nodes[i + 1]).window
      + if i + 2 < |nodes| then mc.slack(nodes[i + 1]) + RightBudget(mc, nodes, i + 1) else 0
  }

  ghost function LeftBudget<N, M>(mc: Machine<N, M>, nodes: seq<N>, i: nat): nat
    requires i + 1 < |nodes|
  {
    mc.right(nodes[i]).window + if i > 0 then mc.slack(nodes[i]) + LeftBudget(mc, nodes, i - 1) else 0
  }

  /** What a link adds: the receiver has a prefix, and the rest fits its window. */
  lemma OverLink(s: Leg, r: Leg, buf: Buffer)
    requires LinkOk(s, r, buf)
    ensures Queued(r.log) <= Payload(s.wire) && |Payload(s.wire)| <= r.consumed + r.window
  {
  }

  lemma OverJoint<N, M>(mc: Machine<N, M>, net: Net<N>, i: nat)
    requires NetOk(mc, net) && i < |net.joints|
    ensures var (a, b) := (mc.right(net.nodes[i]), mc.left(net.nodes[i + 1]));
            && Queued(b.log) <= Payload(a.wire) && |Payload(a.wire)| <= b.consumed + b.window
            && Queued(a.log) <= Payload(b.wire) && |Payload(b.wire)| <= a.consumed + a.window
  {
    assert JoinedAt(mc, net, i);
    OverLink(mc.right(net.nodes[i]), mc.left(net.nodes[i + 1]), net.joints[i].toRight);
    OverLink(mc.left(net.nodes[i + 1]), mc.right(net.nodes[i]), net.joints[i].toLeft);
  }

  /** What a node adds. */
  lemma OverNode<N(!new), M(!new)>(mc: Machine<N, M>, n: N)
    requires Lawful(mc) && mc.ok(n) && mc.inner(n)
    ensures Passes(mc.left(n), mc.right(n), mc.slack(n)) && Passes(mc.right(n), mc.left(n), mc.slack(n))
  {
  }

  lemma {:induction false} ToTheRight<N(!new), M(!new)>(mc: Machine<N, M>, net: Net<N>, i: nat)
    requires Lawful(mc) && NetOk(mc, net) && i < |net.joints|
    ensures var first, last := Payload(mc.right(net.nodes[i]).wire), mc.left(net.nodes[|net.joints|]);
            Queued(last.log) <= first && |first| <= last.consumed + RightBudget(mc, net.nodes, i)
    decreases |net.joints| - i
  {
    OverJoint(mc, net, i);
    if i + 1 < |net.joints| {
      OverNode(mc, net.nodes[i + 1]);
      ToTheRight(mc, net, i + 1);
    }
  }

  lemma {:induction false} ToTheLeft<N(!new), M(!new)>(mc: Machine<N, M>, net: Net<N>, i: nat)
    requires Lawful(mc) && NetOk(mc, net) && i < |net.joints|
    ensures var first, last := Payload(mc.left(net.nodes[i + 1]).wire), mc.right(net.nodes[0]);
            Queued(last.log) <= first && |first| <= last.consumed + LeftBudget(mc, net.nodes, i)
  {
    OverJoint(mc, net, i);
    if i > 0 {
      OverNode(mc, net.nodes[i]);
      ToTheLeft(mc, net, i - 1);
    }
  }

  /** What the end of a row was told came over every joint. */
  lemma CameRight<N(!new), M(!new)>(mc: Machine<N, M>, net: Net<N>, i: nat)
    requires Lawful(mc) && NetOk(mc, net) && i < |net.joints|
    ensures |Queued(mc.left(net.nodes[|net.joints|]).log)| <= |Queued(mc.left(net.nodes[i + 1]).log)|
  {
    if i + 1 < |net.joints| {
      ToTheRight(mc, net, i + 1);
      OverNode(mc, net.nodes[i + 1]);
    }
  }

  lemma CameLeft<N(!new), M(!new)>(mc: Machine<N, M>, net: Net<N>, i: nat)
    requires Lawful(mc) && NetOk(mc, net) && i < |net.joints|
    ensures |Queued(mc.right(net.nodes[0]).log)| <= |Queued(mc.right(net.nodes[i]).log)|
  {
    if i > 0 {
      ToTheLeft(mc, net, i - 1);
      OverNode(mc, net.nodes[i]);
    }
  }

  // ---- budgets do not change -------------------------------------------------

  ghost predicate SameSize<N, M>(mc: Machine<N, M>, a: N, b: N)
  {
    && mc.left(a).window == mc.left(b).window && mc.right(a).window == mc.right(b).window
    && mc.slack(a) == mc.slack(b) && mc.role(a) == mc.role(b)
  }

  ghost predicate SameSizes<N, M>(mc: Machine<N, M>, a: seq<N>, b: seq<N>)
  {
    |a| == |b| && forall i :: 0 <= i < |a| ==> SameSize(mc, a[i], b[i])
  }

  lemma DispatchSize(l: Leg, m: Inbound)
    ensures Dispatch(l, m).window == l.window
  {
  }

  lemma HearSize<N(!new), M(!new)>(mc: Machine<N, M>, n: N, left: bool, m: Inbound)
    requires Lawful(mc) && mc.ok(n)
    ensures SameSize(mc, n, mc.hear(n, left, m))
  {
    ArrivalHeard(mc, n, left, m);
    DispatchSize(mc.left(n), m);
    DispatchSize(mc.right(n), m);
    assert Hears(mc, n, left, m, mc.hear(n, left, m));
  }

  lemma ActSize<N(!new), M(!new)>(mc: Machine<N, M>, n: N, m: M)
    requires Lawful(mc) && mc.ok(n)
    ensures SameSize(mc, n, mc.act(n, m))
  {
    assert mc.ok(mc.act(n, m));
  }

  lemma PutSizes<N, M>(mc: Machine<N, M>, nodes: seq<N>, j: nat, n: N)
    requires j < |nodes| && SameSize(mc, nodes[j], n)
    ensures SameSizes(mc, nodes, nodes[j := n])
  {
  }

  lemma TellSizes<N(!new), M(!new)>(mc: Machine<N, M>, net: Net<N>, j: nat, left: bool, m: Inbound)
    requires Lawful(mc) && j < |net.nodes| && mc.ok(net.nodes[j])
    ensures SameSizes(mc, net.nodes, Tell(mc, net, j, left, m).nodes)
  {
    HearSize(mc, net.nodes[j], left, m);
    PutSizes(mc, net.nodes, j, mc.hear(net.nodes[j], left, m));
  }

  lemma CarrySizes<N(!new), M(!new)>(mc: Machine<N, M>, net: Net<N>, i: nat, toRight: bool, k: nat)
    requires Lawful(mc) && Shaped(net) && NodesOk(mc, net.nodes) && i < |net.joints| && k < |Sender(mc, net, i, toRight).wire|
    ensures SameSizes(mc, net.nodes, Next(mc, net, Carry(i, toRight, k)).nodes)
  {
    var (buf, m) := Through(BufferAt(net.joints[i], toRight), Sender(mc, net, i, toRight).wire[k]);
    var net1 := net.(joints := net.joints[i := WithBuffer(net.joints[i], toRight, buf)]);
    if m.Some? { TellSizes(mc, net1, if toRight then i + 1 else i, toRight, m.value); }
  }

  lemma NextSizes<N(!new), M(!new)>(mc: Machine<N, M>, net: Net<N>, s: Step<M>)
    requires Lawful(mc) && NetOk(mc, net)
    ensures SameSizes(mc, net.nodes, Next(mc, net, s).nodes)
  {
    match s {
      case Act(node, move) =>
        if node < |net.nodes| {
          ActSize(mc, net.nodes[node], move);
          PutSizes(mc, net.nodes, node, mc.act(net.nodes[node], move));
        }
      case Trouble(node, left, seals) =>
        if node < |net.nodes| {
          TellSizes(mc, net, node, left, if seals.Some? then Failing(seals.value) else SessionClosed);
        }
      case Carry(i, toRight, k) =>
        if i < |net.joints| && k < |Sender(mc, net, i, toRight).wire| { CarrySizes(mc, net, i, toRight, k); }
    }
  }

  lemma {:induction false} RunSizes<N(!new), M(!new)>(mc: Machine<N, M>, net: Net<N>, steps: seq<Step<M>>)
    requires Lawful(mc) && NetOk(mc, net)
    ensures SameSizes(mc, net.nodes, Run(mc, net, steps).nodes)
    decreases |steps|
  {
    if steps != [] {
      NextKeeps(mc, net, steps[0]);
      NextSizes(mc, net, steps[0]);
      RunSizes(mc, Next(mc, net, steps[0]), steps[1..]);
    }
  }

  lemma {:induction false} RightBudgetStays<N, M>(mc: Machine<N, M>, a: seq<N>, b: seq<N>, i: nat)
    requires SameSizes(mc, a, b) && i + 1 < |a|
    ensures RightBudget(mc, a, i) == RightBudget(mc, b, i)
    decreases |a| - i
  {
    assert SameSize(mc, a[i + 1], b[i + 1]);
    if i + 2 < |a| { RightBudgetStays(mc, a, b, i + 1); }
  }

  lemma {:induction false} LeftBudgetStays<N, M>(mc: Machine<N, M>, a: seq<N>, b: seq<N>, i: nat)
    requires SameSizes(mc, a, b) && i + 1 < |a|
    ensures LeftBudget(mc, a, i) == LeftBudget(mc, b, i)
  {
    assert SameSize(mc, a[i], b[i]);
    if i > 0 { LeftBudgetStays(mc, a, b, i - 1); }
  }

  /** What holds between the two ends: what has arrived at one end is a prefix of what the
      other end sent, and what is under way fits the windows and the nodes' slack. */
  ghost predicate Met<N, M>(mc: Machine<N, M>, nodes: seq<N>, last: seq<N>)
    requires |nodes| > 1
  {
    && SameSizes(mc, nodes, last)
    && var n := |nodes| - 1;
       var (a, b) := (mc.right(last[0]), mc.left(last[n]));
       && mc.ok(last[0]) && mc.ok(last[n])
       && Queued(b.log) <= Payload(a.wire) && |Payload(a.wire)| <= b.consumed + RightBudget(mc, nodes, 0)
       && Queued(a.log) <= Payload(b.wire) && |Payload(b.wire)| <= a.consumed + LeftBudget(mc, nodes, n - 1)
  }

  /** In every run of a row of lawful nodes the ends meet. */
  lemma EndsMeet<N(!new), M(!new)>(mc: Machine<N, M>, net: Net<N>, steps: seq<Step<M>>)
    requires Lawful(mc) && NetOk(mc, net)
    ensures Met(mc, net.nodes, Run(mc, net, steps).nodes)
  {
    RunKeeps(mc, net, steps);
    RunSizes(mc, net, steps);
    var last := Run(mc, net, steps);
    ToTheRight(mc, last, 0);
    ToTheLeft(mc, last, |last.joints| - 1);
    RightBudgetStays(mc, net.nodes, last.nodes, 0);
    LeftBudgetStays(mc, net.nodes, last.nodes, |last.joints| - 1);
  }
}
