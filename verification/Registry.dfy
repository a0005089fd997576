/** The Hub's directory of node and service leases (crates/wsnet-registry/src/lib.rs). */
module Registry {
  import opened Limits
  import opened Routing

  type Id = seq<byte>

  datatype Lease = Lease(nodeId: string, proto: Proto, revision: nat, target: string)

  datatype NodeLease = NodeLease(session: Id, epoch: Id, services: map<string, Lease>)

  type Directory = map<string, NodeLease>

  /** A service as a node announces it; `usable` is whether its target can be split. */
  datatype Offer = Offer(name: string, proto: Proto, target: string, usable: bool)

  datatype Publication = Published(leaseRevision: nat) | StaleSession | BadServiceName | BadTarget

  datatype Call =
    | Register(node: string, session: Id, epoch: Id)
    | Unregister(node: string, session: Id, epoch: Id)
    | Publish(node: string, session: Id, epoch: Id, offer: Offer)
    | Withdraw(node: string, session: Id, epoch: Id, name: string)

  predicate FiledUnder(node: string, services: map<string, Lease>)
  {
    forall s <- services.Keys :: services[s].nodeId == node && services[s].revision >= 1 && IsSlug(s)
  }

  /** Every service lease is filed under the node and name it belongs to. */
  predicate WellFiled(d: Directory) { forall n <- d.Keys :: FiledUnder(n, d[n].services) }

  predicate Owns(d: Directory, node: string, session: Id, epoch: Id)
  {
    node in d && d[node].session == session && d[node].epoch == epoch
  }

  function LeaseAt(d: Directory, node: string, name: string): Option<Lease>
  {
    if node in d && name in d[node].services then Some(d[node].services[name]) else None
  }

  /** The lease a publication makes of an earlier one: the revision is kept for the same
      target and protocol, and raised for another. */
  function Renewed(was: Option<Lease>, node: string, o: Offer): Lease
  {
    var revision :=
      if was.None? then 1
      else if was.value.target == o.target && was.value.proto == o.proto then was.value.revision
      else was.value.revision + 1;
    Lease(node, o.proto, revision, o.target)
  }

  function After(d: Directory, c: Call): Directory
  {
    match c
    case Register(node, session, epoch) => d[node := NodeLease(session, epoch, map[])]
    case Unregister(node, session, epoch) => if Owns(d, node, session, epoch) then d - {node} else d
    case Publish(node, session, epoch, o) =>
      if Owns(d, node, session, epoch) && IsSlug(o.name) && o.usable then
        d[node := d[node].(services := d[node].services[o.name := Renewed(LeaseAt(d, node, o.name), node, o)])]
      else d
    case Withdraw(node, session, epoch, name) =>
      if Owns(d, node, session, epoch) && name in d[node].services then
        d[node := d[node].(services := d[node].services - {name})]
      else d
  }

  function Run(d: Directory, calls: seq<Call>): Directory
    decreases |calls|
  {
    if calls == [] then d else Run(After(d, calls[0]), calls[1..])
  }

  lemma AfterFiled(d: Directory, c: Call)
    requires WellFiled(d)
    ensures WellFiled(After(d, c))
  {
    var d' := After(d, c);
    forall n <- d'.Keys ensures FiledUnder(n, d'[n].services) {
      if n in d.Keys { assert FiledUnder(n, d[n].services); }
    }
  }

  // ---- the registry in place -------------------------------------------------

  class Registry {
    var nodes: Directory
    var revision: nat

    ghost predicate Valid() reads this { WellFiled(nodes) }

    constructor ()
      ensures Valid() && nodes == map[] && revision == 0
    {
      nodes, revision := map[], 0;
    }

    method RegisterReady(node: string, session: Id, epoch: Id) returns (replaced: bool)
      requires Valid()
      modifies this
      ensures Valid() && nodes == After(old(nodes), Register(node, session, epoch)) && revision == old(revision) + 1
      ensures replaced <==> node in old(nodes) && !Owns(old(nodes), node, session, epoch)
    {
      AfterFiled(nodes, Register(node, session, epoch));
      replaced := node in nodes && (nodes[node].session != session || nodes[node].epoch != epoch);
      nodes := nodes[node := NodeLease(session, epoch, map[])];
      revision := revision + 1;
    }

    method Unregister(node: string, session: Id, epoch: Id) returns (r: Option<bool>)
      requires Valid()
      modifies this
      ensures Valid() && nodes == After(old(nodes), Call.Unregister(node, session, epoch))
      ensures r == if node !in old(nodes) then None else Some(Owns(old(nodes), node, session, epoch))
      ensures revision == if r == Some(true) then old(revision) + 1 else old(revision)
    {
      AfterFiled(nodes, Call.Unregister(node, session, epoch));
      if node !in nodes { return None; }
      if !Owns(nodes, node, session, epoch) { return Some(false); }
      nodes := nodes - {node};
      revision := revision + 1;
      r := Some(true);
    }

    method Publish(node: string, session: Id, epoch: Id, o: Offer) returns (r: Publication)
      requires Valid()
      modifies this
      ensures Valid() && nodes == After(old(nodes), Call.Publish(node, session, epoch, o))
      ensures r.StaleSession? <==> !Owns(old(nodes), node, session, epoch)
      ensures r.BadServiceName? <==> Owns(old(nodes), node, session, epoch) && !IsSlug(o.name)
      ensures r.BadTarget? <==> Owns(old(nodes), node, session, epoch) && IsSlug(o.name) && !o.usable
      ensures r.Published? ==> LeaseAt(nodes, node, o.name) == Some(Lease(node, o.proto, r.leaseRevision, o.target))
      ensures r.Published? ==>
                match LeaseAt(old(nodes), node, o.name)
                case None => r.leaseRevision == 1
                case Some(was) => r.leaseRevision == was.revision + if was.target == o.target && was.proto == o.proto then 0 else 1
      ensures revision == if r.Published? then old(revision) + 1 else old(revision)
    {
      AfterFiled(nodes, Call.Publish(node, session, epoch, o));
      if !Owns(nodes, node, session, epoch) { return StaleSession; }
      if !IsSlug(o.name) { return BadServiceName; }
      if !o.usable { return BadTarget; }
      var services := nodes[node].services;
      var rev := 1;
      if o.name in services {
        var existing := services[o.name];
        rev := if existing.target == o.target && existing.proto == o.proto then existing.revision else existing.revision + 1;
      }
      nodes := nodes[node := nodes[node].(services := services[o.name := Lease(node, o.proto, rev, o.target)])];
      revision := revision + 1;
      r := Published(rev);
    }

    method Withdraw(node: string, session: Id, epoch: Id, name: string) returns (removed: bool)
      requires Valid()
      modifies this
      ensures Valid() && nodes == After(old(nodes), Call.Withdraw(node, session, epoch, name))
      ensures removed <==> Owns(old(nodes), node, session, epoch) && name in old(nodes)[node].services
      ensures revision == if removed then old(revision) + 1 else old(revision)
    {
      AfterFiled(nodes, Call.Withdraw(node, session, epoch, name));
      removed := Owns(nodes, node, session, epoch) && name in nodes[node].services;
      if removed {
        nodes := nodes[node := nodes[node].(services := nodes[node].services - {name})];
        revision := revision + 1;
      }
    }
  }

  // ---- whole runs ------------------------------------------------------------

  lemma {:induction false} RunFiled(d: Directory, calls: seq<Call>)
    requires WellFiled(d)
    ensures WellFiled(Run(d, calls))
    decreases |calls|
  {
    if calls != [] {
      AfterFiled(d, calls[0]);
      RunFiled(After(d, calls[0]), calls[1..]);
    }
  }

  /** The call is about this node and does not come from the session that holds it. */
  predicate Stale(d: Directory, c: Call, node: string)
  {
    c.node == node ==> !c.Register? && !Owns(d, node, c.session, c.epoch)
  }

  /** Once a session holds a node, whatever superseded sessions call, in any order and among
      any calls about other nodes, leaves the node and all its services as they are. */
  lemma {:induction false} SupersededIsPowerless(d: Directory, calls: seq<Call>, node: string)
    requires node in d && forall c <- calls :: Stale(d, c, node)
    ensures node in Run(d, calls) && Run(d, calls)[node] == d[node]
    decreases |calls|
  {
    if calls != [] {
      var d' := After(d, calls[0]);
      assert Stale(d, calls[0], node);
      forall c <- calls[1..] ensures Stale(d', c, node) { assert Stale(d, c, node); }
      SupersededIsPowerless(d', calls[1..], node);
    }
  }

  // ---- does a revision identify a target? ------------------------------------

  /** The call will end the service's lease: a re-registration by anyone, a departure or a
      withdrawal by the session that holds the node. */
  predicate Breaks(d: Directory, c: Call, node: string, name: string)
  {
    c.node == node
    && (c.Register? || (Owns(d, node, c.session, c.epoch) && (c.Unregister? || (c.Withdraw? && c.name == name))))
  }

  /** The guard says what happens. */
  lemma BreaksEndsLease(d: Directory, c: Call, node: string, name: string)
    requires LeaseAt(d, node, name).Some?
    ensures Breaks(d, c, node, name) <==> LeaseAt(After(d, c), node, name).None?
  {
  }

  predicate Unbroken(d: Directory, calls: seq<Call>, node: string, name: string)
    decreases |calls|
  {
    calls != [] ==>
      && (LeaseAt(d, node, name).Some? ==> !Breaks(d, calls[0], node, name))
      && Unbroken(After(d, calls[0]), calls[1..], node, name)
  }

  /** Whoever is pinned to the revision of `l` would reach the target of `l`. */
  predicate Identifies(l: Lease, d: Directory, node: string, name: string)
  {
    var now := LeaseAt(d, node, name);
    now.Some? && now.value.revision == l.revision ==> now.value.target == l.target && now.value.proto == l.proto
  }

  /** The lease is still there, and has changed only if its revision has grown. */
  predicate Ahead(l: Lease, d: Directory, node: string, name: string)
  {
    var now := LeaseAt(d, node, name);
    now.Some? && now.value.revision >= l.revision && Identifies(l, d, node, name)
  }

  lemma StaysAhead(l: Lease, d: Directory, c: Call, node: string, name: string)
    requires Ahead(l, d, node, name) && !Breaks(d, c, node, name)
    ensures Ahead(l, After(d, c), node, name)
  {
  }

  lemma {:induction false} RunStaysAhead(l: Lease, d: Directory, calls: seq<Call>, node: string, name: string)
    requires Ahead(l, d, node, name) && Unbroken(d, calls, node, name)
    ensures Ahead(l, Run(d, calls), node, name)
    decreases |calls|
  {
    if calls != [] {
      StaysAhead(l, d, calls[0], node, name);
      RunStaysAhead(l, After(d, calls[0]), calls[1..], node, name);
    }
  }

  /** A lease's revision can be raised to any number, one publication at a time, by changing
      the protocol to and fro. */
  lemma {:induction false} Climb(d: Directory, node: string, name: string, want: nat) returns (calls: seq<Call>)
    requires IsSlug(name) && node in d && LeaseAt(d, node, name).Some? && LeaseAt(d, node, name).value.revision <= want
    ensures Unbroken(d, calls, node, name)
    ensures var (was, now) := (LeaseAt(d, node, name).value, LeaseAt(Run(d, calls), node, name));
            now.Some? && now.value.revision == want && now.value.target == was.target
    decreases want - LeaseAt(d, node, name).value.revision
  {
    var was := LeaseAt(d, node, name).value;
    if was.revision == want {
      calls := [];
    } else {
      var c := Call.Publish(node, d[node].session, d[node].epoch, Offer(name, if was.proto.Tcp? then Udp else Tcp, was.target, true));
      var rest := Climb(After(d, c), node, name, want);
      calls := [c] + rest;
      assert calls[1..] == rest;
    }
  }

  /** Once the lease was ended, some run gives its revision to another target. */
  lemma Reused(l: Lease, d: Directory, node: string, name: string, other: string) returns (calls: seq<Call>)
    requires IsSlug(name) && LeaseAt(d, node, name).None? && l.revision >= 1 && other != l.target
    ensures Unbroken(d, calls, node, name) && !Identifies(l, Run(d, calls), node, name)
  {
    var c1 := Register(node, [], []);
    var d1 := After(d, c1);
    var c2 := Call.Publish(node, [], [], Offer(name, Tcp, other, true));
    var d2 := After(d1, c2);
    assert LeaseAt(d1, node, name).None? && LeaseAt(d2, node, name) == Some(Lease(node, Tcp, 1, other));
    var rest := Climb(d2, node, name, l.revision);
    calls := [c1] + ([c2] + rest);
    assert calls[1..] == [c2] + rest && ([c2] + rest)[1..] == rest;
    assert Unbroken(d1, [c2] + rest, node, name);
    assert Run(d1, [c2] + rest) == Run(d2, rest);
  }

  /** A revision goes on identifying its target, in every run that does not end the lease,
      after exactly those calls that do not end the lease themselves. */
  lemma RevisionIdentifiesExactly(d: Directory, c: Call, node: string, name: string, other: string)
    requires WellFiled(d) && LeaseAt(d, node, name).Some? && other != LeaseAt(d, node, name).value.target
    ensures var l := LeaseAt(d, node, name).value;
            !Breaks(d, c, node, name) <==>
            forall more :: Unbroken(After(d, c), more, node, name) ==> Identifies(l, Run(After(d, c), more), node, name)
  {
    var l := LeaseAt(d, node, name).value;
    BreaksEndsLease(d, c, node, name);
    if Breaks(d, c, node, name) {
      assert FiledUnder(node, d[node].services);
      var more := Reused(l, After(d, c), node, name, other);
      assert Unbroken(After(d, c), more, node, name);
    } else {
      StaysAhead(l, d, c, node, name);
      forall more | Unbroken(After(d, c), more, node, name) ensures Identifies(l, Run(After(d, c), more), node, name) {
        RunStaysAhead(l, After(d, c), more, node, name);
      }
    }
  }

  lemma TwoCalls(d: Directory, a: Call, b: Call)
    ensures Run(d, [a, b]) == After(After(d, a), b)
  {
    assert [a, b][1..] == [b] && [b][1..] == [];
    assert Run(After(After(d, a), b), []) == After(After(d, a), b);
  }

  /** `on_hello`: a registration, then every announced service in turn. */
  function Hello(d: Directory, node: string, session: Id, epoch: Id, offers: seq<Offer>): Directory
  {
    if offers == [] then After(d, Register(node, session, epoch))
    else
      var n := |offers| - 1;
      After(Hello(d, node, session, epoch, offers[..n]), Call.Publish(node, session, epoch, offers[n]))
  }

  lemma HelloOnce(d: Directory, node: string, session: Id, epoch: Id, o: Offer)
    requires IsSlug(o.name) && o.usable
    ensures LeaseAt(Hello(d, node, session, epoch, [o]), node, o.name) == Some(Lease(node, o.proto, 1, o.target))
  {
    assert [o][..0] == [];
    assert Hello(d, node, session, epoch, []) == After(d, Register(node, session, epoch));
  }

  /** The run the Hub does see: a node comes back with its service moved, and the revision is
      1 both times. */
  lemma SecondHelloReusesRevision(node: string, s1: Id, e1: Id, s2: Id, e2: Id, first: Offer, second: Offer)
    requires IsSlug(first.name) && first.usable && second.usable && second.name == first.name
    ensures var d1 := Hello(map[], node, s1, e1, [first]);
            var d2 := Hello(d1, node, s2, e2, [second]);
            && LeaseAt(d1, node, first.name) == Some(Lease(node, first.proto, 1, first.target))
            && LeaseAt(d2, node, first.name) == Some(Lease(node, second.proto, 1, second.target))
  {
    HelloOnce(map[], node, s1, e1, first);
    HelloOnce(Hello(map[], node, s1, e1, [first]), node, s2, e2, second);
  }

  /** Another such run: a service withdrawn and published again for
      another target has revision 1 both times. */
  lemma WithdrawnRevisionComesBack(node: string, session: Id, epoch: Id, first: Offer, second: Offer)
    requires IsSlug(first.name) && first.usable && second.usable && second.name == first.name
    ensures var d1 := Run(map[], [Register(node, session, epoch), Call.Publish(node, session, epoch, first)]);
            var d2 := Run(d1, [Call.Withdraw(node, session, epoch, first.name), Call.Publish(node, session, epoch, second)]);
            && LeaseAt(d1, node, first.name) == Some(Lease(node, first.proto, 1, first.target))
            && LeaseAt(d2, node, first.name) == Some(Lease(node, second.proto, 1, second.target))
  {
    var r, p, w, q := Register(node, session, epoch), Call.Publish(node, session, epoch, first),
                      Call.Withdraw(node, session, epoch, first.name), Call.Publish(node, session, epoch, second);
    TwoCalls(map[], r, p);
    TwoCalls(After(After(map[], r), p), w, q);
  }

  // ---- a Hello ---------------------------------------------------------------

  predicate Taken(o: Offer, name: string) { o.name == name && IsSlug(name) && o.usable }

  /** Everything announced under the name agrees. */
  predicate Agree(offers: seq<Offer>, name: string)
  {
    forall i, j :: 0 <= i < |offers| && 0 <= j < |offers| && Taken(offers[i], name) && Taken(offers[j], name) ==>
      offers[i].target == offers[j].target && offers[i].proto == offers[j].proto
  }

  lemma {:induction false} HelloOwns(d: Directory, node: string, session: Id, epoch: Id, offers: seq<Offer>)
    ensures Owns(Hello(d, node, session, epoch, offers), node, session, epoch)
  {
    if offers != [] { HelloOwns(d, node, session, epoch, offers[..|offers| - 1]); }
  }

  lemma PublishedLease(d: Directory, node: string, session: Id, epoch: Id, o: Offer, name: string)
    requires Owns(d, node, session, epoch)
    ensures LeaseAt(After(d, Call.Publish(node, session, epoch, o)), node, name) ==
            if Taken(o, name) then Some(Renewed(LeaseAt(d, node, name), node, o)) else LeaseAt(d, node, name)
  {
  }

  /** The lease is what `offers` made of it. */
  predicate Made(l: Option<Lease>, node: string, offers: seq<Offer>, name: string)
  {
    && (l.Some? <==> exists o <- offers :: Taken(o, name))
    && (l.Some? ==> l.value.nodeId == node && l.value.revision >= 1 && (l.value.revision == 1 <==> Agree(offers, name)))
    && (l.Some? ==> exists o <- offers :: Taken(o, name) && o.target == l.value.target && o.proto == l.value.proto)
  }

  lemma AgreeMore(was: Option<Lease>, before: seq<Offer>, o: Offer, node: string, name: string)
    requires Made(was, node, before, name)
    ensures Agree(before + [o], name) <==>
            Agree(before, name) && (Taken(o, name) && was.Some? ==> was.value.target == o.target && was.value.proto == o.proto)
  {
    var all := before + [o];
    assert all[|before|] == o && forall i :: 0 <= i < |before| ==> all[i] == before[i] && before[i] in before;
    if was.Some? {
      var p :| p in before && Taken(p, name) && p.target == was.value.target && p.proto == was.value.proto;
      var k :| 0 <= k < |before| && before[k] == p;
      assert all[k] == p;
    }
  }

  lemma MadeMore(was: Option<Lease>, before: seq<Offer>, o: Offer, node: string, name: string)
    requires Made(was, node, before, name)
    ensures Made(if Taken(o, name) then Some(Renewed(was, node, o)) else was, node, before + [o], name)
  {
    var all := before + [o];
    assert all[|before|] == o && forall i :: 0 <= i < |before| ==> all[i] == before[i] && before[i] in before;
    if exists p <- before :: Taken(p, name) {
      var p :| p in before && Taken(p, name);
      assert p in all;
    }
    AgreeMore(was, before, o, node, name);
  }

  /** After a Hello a service's lease comes from one of the offers of its name, and its
      revision is 1 exactly when all of them agree. */
  lemma {:induction false} HelloRevision(d: Directory, node: string, session: Id, epoch: Id, offers: seq<Offer>, name: string)
    ensures Made(LeaseAt(Hello(d, node, session, epoch, offers), node, name), node, offers, name)
  {
    if offers != [] {
      var n := |offers| - 1;
      var before, o := offers[..n], offers[n];
      HelloRevision(d, node, session, epoch, before, name);
      HelloOwns(d, node, session, epoch, before);
      PublishedLease(Hello(d, node, session, epoch, before), node, session, epoch, o, name);
      assert offers == before + [o];
      MadeMore(LeaseAt(Hello(d, node, session, epoch, before), node, name), before, o, node, name);
    }
  }

  /** Offer `i` is the last that is taken under the name. */
  predicate LastTaken(offers: seq<Offer>, name: string, i: nat)
  {
    i < |offers| && Taken(offers[i], name) && forall j :: i < j < |offers| ==> !Taken(offers[j], name)
  }

  /** After a Hello it is the last good offer of a name that counts, for the node that sent it. */
  lemma {:induction false} HelloKeepsLast(d: Directory, node: string, session: Id, epoch: Id, offers: seq<Offer>, name: string, i: nat)
    requires LastTaken(offers, name, i)
    ensures var l := LeaseAt(Hello(d, node, session, epoch, offers), node, name);
            l.Some? && l.value.nodeId == node && l.value.target == offers[i].target && l.value.proto == offers[i].proto
  {
    var n := |offers| - 1;
    HelloOwns(d, node, session, epoch, offers[..n]);
    PublishedLease(Hello(d, node, session, epoch, offers[..n]), node, session, epoch, offers[n], name);
    if i < n { HelloKeepsLast(d, node, session, epoch, offers[..n], name, i); }
  }

  lemma {:induction false} HelloLeavesOthers(d: Directory, node: string, session: Id, epoch: Id, offers: seq<Offer>, other: string)
    requires other != node
    ensures var d' := Hello(d, node, session, epoch, offers);
            (other in d' <==> other in d) && (other in d ==> d'[other] == d[other])
  {
    if offers != [] { HelloLeavesOthers(d, node, session, epoch, offers[..|offers| - 1], other); }
  }
}
