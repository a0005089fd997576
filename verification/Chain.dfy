/** The multi-hop open: the Hub's authorisation (crates/wsnet-hub/src/hub.rs), the leg it
    opens (relay.rs), the hop's decision (crates/wsnet-node/src/inbound.rs) and the leg the
    hop opens back (crates/wsnet-node/src/hub.rs), composed into whole trips. */
module Chain {
  import opened Limits
  import opened Routing
  import Registry

  datatype OpenFields = OpenFields(proto: Proto, destination: Destination, via: seq<string>)

  datatype Hub = Hub(
    acl: seq<Rule>,
    relayAllow: seq<string>,
    leases: Registry.Directory,
    live: set<string>)

  datatype Target = Target(host: string, port: nat)

  /** A published service; its configured `host:port` is already split, `None` when unusable. */
  datatype Registration = Registration(name: string, target: Option<Target>)

  datatype Node = Node(services: seq<Registration>, allow: seq<Net>, relayForward: bool)

  /** Configuration held fixed during one open. `ip` reads an address literal. */
  datatype World = World(hub: Hub, node: string -> Node, ip: string -> Option<nat>)

  datatype Status = Denied | Offline | Refused | Unreachable

  datatype Detail =
    | InvalidDestination
    | BadChain(error: RouteError)
    | AclDenied
    | RelayNotAllowed
    | RelayAclDenied
    | ServiceOffline
    | ServiceProto
    | ServiceStale
    | PublisherOffline
    | NodeRefused

  datatype ExitPlan =
    | HubExit(host: string, port: nat)
    | ServiceExit(nodeId: string)
    | NodeExit(nodeId: string)
    | RelayPlan(hops: seq<string>)
    | Refuse(status: Status, detail: Detail)

  // ---- the Hub's decision ----------------------------------------------------

  function TargetQuery(w: World, caller: string, f: OpenFields): Query
  {
    match f.destination
    case Address(host, port) => Query(caller, ConnectAddress, None, None, w.ip(host), Some(port), f.proto)
    case Service(node, name, _) => Query(caller, ConnectService, Some(node), Some(name), None, None, f.proto)
    case NodeAddress(node, host, port) =>
      Query(caller, ConnectNodeAddress, Some(node), None, w.ip(host), Some(port), f.proto)
  }

  function RelayQuery(caller: string, hop: string, proto: Proto): Query
  {
    Query(caller, RelayHop, Some(hop), None, None, None, proto)
  }

  // ---- what a rule must say --------------------------------------------------

  predicate InNet(net: Option<Net>, ip: Option<nat>) { net.Some? ==> ip.Some? && net.value.first <= ip.value <= net.value.last }

  predicate States<T(==)>(stated: Option<T>, value: T) { stated.Some? ==> stated.value == value }

  predicate OnPort(ports: Option<seq<nat>>, port: nat) { ports.Some? ==> port in ports.value }

  /** The rule is about this caller's access to this destination: a service by its names, an
      address by its port and network. What a destination has not, no rule may state. */
  predicate CoversTarget(w: World, caller: string, f: OpenFields, r: Rule)
  {
    && r.caller == caller && States(r.proto, f.proto)
    && match f.destination
       case Address(host, port) =>
         r.action == ConnectAddress && r.node.None? && r.service.None? && OnPort(r.ports, port) && InNet(r.net, w.ip(host))
       case Service(node, name, _) =>
         r.action == ConnectService && States(r.node, node) && States(r.service, name) && r.ports.None? && r.net.None?
       case NodeAddress(node, host, port) =>
         r.action == ConnectNodeAddress && States(r.node, node) && r.service.None?
         && OnPort(r.ports, port) && InNet(r.net, w.ip(host))
  }

  predicate CoversHop(caller: string, hop: string, proto: Proto, r: Rule)
  {
    && r.caller == caller && States(r.proto, proto) && r.action == RelayHop
    && States(r.node, hop) && r.service.None? && r.ports.None? && r.net.None?
  }

  ghost predicate TargetGranted(w: World, caller: string, f: OpenFields)
  {
    Granted(w.hub.acl, (r: Rule) => CoversTarget(w, caller, f, r))
  }

  ghost predicate HopGranted(h: Hub, caller: string, hop: string, proto: Proto)
  {
    Granted(h.acl, (r: Rule) => CoversHop(caller, hop, proto, r))
  }

  lemma SameCover(rules: seq<Rule>, q: Query, covers: Rule -> bool)
    requires forall r :: Matches(r, q) == covers(r)
    ensures Allowed(rules, q) <==> Granted(rules, covers)
  {
    FirstMatchDecides(rules, q);
    var matching := (r: Rule) => Matches(r, q);
    assert forall r :: matching(r) == covers(r);
  }

  /** The queries the Hub puts to its table ask for just that. */
  lemma TargetAsked(w: World, caller: string, f: OpenFields)
    ensures Allowed(w.hub.acl, TargetQuery(w, caller, f)) <==> TargetGranted(w, caller, f)
  {
    var q := TargetQuery(w, caller, f);
    forall r ensures Matches(r, q) == CoversTarget(w, caller, f, r) {
      match f.destination {
        case Address(host, port) =>
        case Service(node, name, _) =>
        case NodeAddress(node, host, port) =>
      }
    }
    SameCover(w.hub.acl, q, (r: Rule) => CoversTarget(w, caller, f, r));
  }

  lemma HopAsked(h: Hub, caller: string, hop: string, proto: Proto)
    ensures Allowed(h.acl, RelayQuery(caller, hop, proto)) <==> HopGranted(h, caller, hop, proto)
  {
    SameCover(h.acl, RelayQuery(caller, hop, proto), (r: Rule) => CoversHop(caller, hop, proto, r));
  }

  // ---- the gates -------------------------------------------------------------

  /** The loop over the hops: the first gate that fails names the refusal. */
  function RelayGate(h: Hub, caller: string, via: seq<string>, proto: Proto): Option<Detail>
  {
    if via == [] then None
    else if via[0] !in h.relayAllow then Some(RelayNotAllowed)
    else if !Allowed(h.acl, RelayQuery(caller, via[0], proto)) then Some(RelayAclDenied)
    else RelayGate(h, caller, via[1..], proto)
  }

  lemma {:induction false} GateOpens(h: Hub, caller: string, via: seq<string>, proto: Proto)
    ensures RelayGate(h, caller, via, proto).None? <==>
            forall hop <- via :: hop in h.relayAllow && HopGranted(h, caller, hop, proto)
  {
    if via != [] {
      GateOpens(h, caller, via[1..], proto);
      HopAsked(h, caller, via[0], proto);
      assert forall hop :: hop in via <==> hop == via[0] || hop in via[1..];
    }
  }

  /** The same loop, hop by hop. */
  method CheckHops(h: Hub, caller: string, via: seq<string>, proto: Proto) returns (gate: Option<Detail>)
    ensures gate == RelayGate(h, caller, via, proto)
    ensures gate.None? <==> forall hop <- via :: hop in h.relayAllow && HopGranted(h, caller, hop, proto)
  {
    GateOpens(h, caller, via, proto);
    assert via[0..] == via;
    for i := 0 to |via|
      invariant RelayGate(h, caller, via[i..], proto) == RelayGate(h, caller, via, proto)
    {
      assert via[i..][1..] == via[i + 1..];
      if via[i] !in h.relayAllow { return Some(RelayNotAllowed); }
      var allowed := CheckAcl(h.acl, RelayQuery(caller, via[i], proto));
      if !allowed { return Some(RelayAclDenied); }
    }
    gate := None;
  }

  function AuthorizeOpen(w: World, caller: string, f: OpenFields): ExitPlan
  {
    if !ValidDestination(f.destination) then Refuse(Denied, InvalidDestination)
    else if ValidateChain(caller, f.via, f.destination).Some? then
      Refuse(Denied, BadChain(ValidateChain(caller, f.via, f.destination).value))
    else if !Allowed(w.hub.acl, TargetQuery(w, caller, f)) then Refuse(Denied, AclDenied)
    else if f.via != [] then
      var gate := RelayGate(w.hub, caller, f.via, f.proto);
      if gate.Some? then Refuse(Denied, gate.value) else RelayPlan(f.via)
    else
      match f.destination
      case Address(host, port) => HubExit(host, port)
      case NodeAddress(node, _, _) =>
        if node in w.hub.leases then NodeExit(node) else Refuse(Offline, ServiceOffline)
      case Service(node, name, revision) =>
        if node !in w.hub.leases || name !in w.hub.leases[node].services then Refuse(Offline, ServiceOffline)
        else
          var lease := w.hub.leases[node].services[name];
          if lease.proto != f.proto then Refuse(Refused, ServiceProto)
          else if revision.Some? && revision.value != lease.revision then Refuse(Refused, ServiceStale)
          else ServiceExit(lease.nodeId)
  }

  // ---- the node's decision ---------------------------------------------------

  datatype InboundPlan = Dial(target: Target) | Forward | Decline(status: Status)

  predicate Permits(w: World, n: Node, host: string)
  {
    w.ip(host).Some? && exists net <- n.allow :: Contains(net, w.ip(host).value)
  }

  function FindService(services: seq<Registration>, name: string): Option<Registration>
  {
    if services == [] then None
    else if services[0].name == name then Some(services[0])
    else FindService(services[1..], name)
  }

  function ResolveInbound(w: World, id: string, f: OpenFields): InboundPlan
  {
    var n := w.node(id);
    match f.destination
    case Service(node, name, revision) =>
      var service := FindService(n.services, name);
      if node != id then Decline(Denied)
      else if service.None? then Decline(Offline)
      else if revision.Some? && revision.value != 1 then Decline(Offline)
      else if service.value.target.None? then Decline(Unreachable)
      else Dial(service.value.target.value)
    case NodeAddress(node, host, port) =>
      if node != id || port == 0 || !Permits(w, n, host) then Decline(Denied) else Dial(Target(host, port))
    case Address(_, _) => Decline(Denied)
  }

  function PlanInbound(w: World, id: string, f: OpenFields): InboundPlan
  {
    var n := w.node(id);
    var onward := if n.relayForward then Forward else Decline(Denied);
    if f.via != [] then onward
    else
      match f.destination
      case Address(host, port) =>
        if port == 0 || !Permits(w, n, host) then Decline(Denied) else Dial(Target(host, port))
      case _ => if f.destination.node != id then onward else ResolveInbound(w, id, f)
  }

  // ---- the trip --------------------------------------------------------------

  datatype Exit = ByHub | ByNode(node: string)

  datatype Place =
    | AtHub(caller: string, open: OpenFields)
    | AtNode(node: string, open: OpenFields)
    | Dialed(exit: Exit, target: Target)
    | Turned(status: Status, detail: Detail)

  /** `spawn_relay_with_via`: the leg carries the destination unchanged and what is left. */
  function OpenLeg(w: World, node: string, f: OpenFields, rest: seq<string>): Place
  {
    if node in w.hub.leases && node in w.hub.live then AtNode(node, f.(via := rest))
    else Turned(Offline, PublisherOffline)
  }

  function HubStep(w: World, caller: string, f: OpenFields): Place
  {
    match AuthorizeOpen(w, caller, f)
    case HubExit(host, port) => Dialed(ByHub, Target(host, port))
    case ServiceExit(id) => OpenLeg(w, id, f, [])
    case NodeExit(id) => OpenLeg(w, id, f, [])
    case RelayPlan(hops) => if hops == [] then Turned(Refused, NodeRefused) else OpenLeg(w, hops[0], f, hops[1..])
    case Refuse(status, detail) => Turned(status, detail)
  }

  /** `on_inbound_open`: a hop opens the next leg as the new caller with the same fields. */
  function NodeStep(w: World, id: string, f: OpenFields): Place
  {
    match PlanInbound(w, id, f)
    case Dial(target) => Dialed(ByNode(id), target)
    case Forward => AtHub(id, f)
    case Decline(status) => Turned(status, NodeRefused)
  }

  /** A lease is always filed under the node it belongs to, as the registry keeps it. */
  predicate RegistryOk(h: Hub) { Registry.WellFiled(h.leases) }

  function Rank(p: Place): nat
  {
    match p
    case AtHub(_, f) => 2 * |f.via| + 1
    case AtNode(id, f) =>
      if f.via == [] && NamedNode(f.destination) in {None, Some(id)} then 0 else 2 * |f.via| + 2
    case _ => 0
  }

  datatype Trip = Trip(end: Place, visited: seq<string>, legs: seq<OpenFields>)

  /** The whole trip. It always ends: the chain shrinks by one hop per visit. */
  function Travel(w: World, p: Place): Trip
    requires RegistryOk(w.hub)
    decreases Rank(p)
  {
    match p
    case AtHub(caller, f) =>
      var q := HubStep(w, caller, f);
      Travel(w, q)
    case AtNode(id, f) =>
      var q := NodeStep(w, id, f);
      var t := if q.AtHub? then Travel(w, q) else Trip(q, [], []);
      Trip(t.end, [id] + t.visited, [f] + t.legs)
    case _ => Trip(p, [], [])
  }

  // ---- where a trip goes -----------------------------------------------------

  function Route(f: OpenFields): seq<string>
  {
    if NamedNode(f.destination).Some? then f.via + [NamedNode(f.destination).value] else f.via
  }

  /** Who alone may dial: the named node, the last hop, or the Hub itself. */
  function RightExit(f: OpenFields): Exit
  {
    if NamedNode(f.destination).Some? then ByNode(NamedNode(f.destination).value)
    else if f.via != [] then ByNode(f.via[|f.via| - 1])
    else ByHub
  }

  predicate IsPrefix(a: seq<string>, b: seq<string>) { |a| <= |b| && a == b[..|a|] }

  /** The legs of the trip of `f` so far carry exactly the hops still to run. */
  predicate LegsOk(f: OpenFields, legs: seq<OpenFields>)
  {
    forall i :: 0 <= i < |legs| ==> legs[i] == f.(via := if i < |f.via| then f.via[i + 1..] else [])
  }

  /** A trip stays on its route, carries the same request all along with exactly the hops
      still to run, and dials only at the route's end and by the right exit. */
  predicate OnRoute(f: OpenFields, t: Trip)
  {
    && IsPrefix(t.visited, Route(f))
    && |t.legs| == |t.visited|
    && LegsOk(f, t.legs)
    && (t.end.Dialed? || t.end.Turned?)
    && (t.end.Dialed? ==> t.visited == Route(f) && t.end.exit == RightExit(f))
  }

  lemma NodeArrives(w: World, id: string, f: OpenFields)
    requires RegistryOk(w.hub) && f.via == [] && NamedNode(f.destination) in {None, Some(id)}
    ensures var t := Travel(w, AtNode(id, f));
            t.visited == [id] && t.legs == [f] && (t.end.Dialed? || t.end.Turned?)
            && (t.end.Dialed? ==> t.end.exit == ByNode(id))
  {
  }

  /** The Hub either settles the open or hands it to the next node of the route. */
  lemma HubStepShape(w: World, caller: string, f: OpenFields)
    requires RegistryOk(w.hub)
    ensures var q := HubStep(w, caller, f);
            && !q.AtHub?
            && (q.AtNode? && f.via == [] ==>
                  NamedNode(f.destination) == Some(q.node) && q.open == f)
            && (q.AtNode? && f.via != [] ==> q.node == f.via[0] && q.open == f.(via := f.via[1..]))
            && (q.Dialed? ==> f.via == [] && NamedNode(f.destination).None? && q.exit == ByHub)
  {
  }

  /** One round of a trip: Hub, node, and back to the Hub if the node forwards. */
  lemma TripUnfolds(w: World, caller: string, f: OpenFields)
    requires RegistryOk(w.hub)
    ensures var q := HubStep(w, caller, f);
            var t := Travel(w, AtHub(caller, f));
            if !q.AtNode? then t == Trip(q, [], [])
            else
              var r := NodeStep(w, q.node, q.open);
              && Rank(AtNode(q.node, q.open)) < Rank(AtHub(caller, f))
              && (!r.AtHub? ==> t == Trip(r, [q.node], [q.open]))
              && (r.AtHub? ==>
                    var u := Travel(w, r);
                    r == AtHub(q.node, q.open)
                    && t == Trip(u.end, [q.node] + u.visited, [q.open] + u.legs))
  {
    HubStepShape(w, caller, f);
    var q := HubStep(w, caller, f);
    assert Travel(w, AtHub(caller, f)) == Travel(w, q);
  }

  lemma LegsExtend(f: OpenFields, g: OpenFields, legs: seq<OpenFields>)
    requires f.via != [] && g == f.(via := f.via[1..]) && LegsOk(g, legs)
    ensures LegsOk(f, [g] + legs)
  {
    var all := [g] + legs;
    forall i | 0 <= i < |all| ensures all[i] == f.(via := if i < |f.via| then f.via[i + 1..] else []) {
      if i > 0 {
        assert all[i] == legs[i - 1];
        if i < |f.via| { assert g.via[i..] == f.via[i + 1..]; }
      }
    }
  }

  lemma RouteExtends(f: OpenFields, t: Trip)
    requires f.via != [] && (f.via[1..] != [] || NamedNode(f.destination).Some?)
    requires OnRoute(f.(via := f.via[1..]), t)
    ensures OnRoute(f, Trip(t.end, [f.via[0]] + t.visited, [f.(via := f.via[1..])] + t.legs))
  {
    var g := f.(via := f.via[1..]);
    assert Route(f) == [f.via[0]] + Route(g);
    LegsExtend(f, g, t.legs);
  }

  /** A trip that ends at the first node, or at the Hub. */
  lemma ShortTrip(w: World, caller: string, f: OpenFields, t: Trip)
    requires RegistryOk(w.hub) && t == Travel(w, AtHub(caller, f))
    requires !HubStep(w, caller, f).AtNode? || !NodeStep(w, HubStep(w, caller, f).node, HubStep(w, caller, f).open).AtHub?
    ensures OnRoute(f, t)
  {
    TripUnfolds(w, caller, f);
    HubStepShape(w, caller, f);
    var q := HubStep(w, caller, f);
    if q.AtNode? && q.open.via == [] && NamedNode(f.destination) in {None, Some(q.node)} {
      NodeArrives(w, q.node, q.open);
    }
  }

  /** A trip that goes on from its first node. */
  lemma LongTrip(w: World, caller: string, f: OpenFields)
    requires RegistryOk(w.hub) && HubStep(w, caller, f).AtNode?
    requires NodeStep(w, HubStep(w, caller, f).node, HubStep(w, caller, f).open).AtHub?
    ensures f.via != [] && (f.via[1..] != [] || NamedNode(f.destination).Some?)
    ensures var g := f.(via := f.via[1..]);
            var u := Travel(w, AtHub(f.via[0], g));
            Travel(w, AtHub(caller, f)) == Trip(u.end, [f.via[0]] + u.visited, [g] + u.legs)
  {
    TripUnfolds(w, caller, f);
    HubStepShape(w, caller, f);
  }

  /** Every open, whatever its chain and whatever the configuration. */
  lemma {:induction false} TripStaysOnRoute(w: World, caller: string, f: OpenFields)
    requires RegistryOk(w.hub)
    ensures OnRoute(f, Travel(w, AtHub(caller, f)))
    decreases |f.via|
  {
    var q := HubStep(w, caller, f);
    if q.AtNode? && NodeStep(w, q.node, q.open).AtHub? {
      LongTrip(w, caller, f);
      var g := f.(via := f.via[1..]);
      TripStaysOnRoute(w, f.via[0], g);
      RouteExtends(f, Travel(w, AtHub(f.via[0], g)));
    } else {
      ShortTrip(w, caller, f, Travel(w, AtHub(caller, f)));
    }
  }

  /** No node is visited twice on any trip. */
  lemma NoHopTwice(w: World, caller: string, f: OpenFields)
    requires RegistryOk(w.hub)
    ensures Distinct(Travel(w, AtHub(caller, f)).visited)
  {
    TripStaysOnRoute(w, caller, f);
    if HubStep(w, caller, f).AtNode? {
      ChainAccepted(caller, f.via, f.destination);
      assert Distinct(Route(f));
    }
  }

  lemma {:induction false} GateDetails(h: Hub, caller: string, via: seq<string>, proto: Proto)
    ensures RelayGate(h, caller, via, proto) in {None, Some(RelayNotAllowed), Some(RelayAclDenied)}
  {
    if via != [] { GateDetails(h, caller, via[1..], proto); }
  }

  lemma FirstShape(w: World, caller: string, f: OpenFields)
    requires ValidDestination(f.destination) && WellShaped(caller, f.via, f.destination)
    ensures var q := HubStep(w, caller, f);
            q.Turned? ==> !q.detail.BadChain? && !q.detail.InvalidDestination?
  {
    ChainAccepted(caller, f.via, f.destination);
    GateDetails(w.hub, caller, f.via, f.proto);
  }

  lemma {:induction false} ShapeHolds(w: World, caller: string, f: OpenFields)
    requires RegistryOk(w.hub) && ValidDestination(f.destination) && WellShaped(caller, f.via, f.destination)
    ensures var end := Travel(w, AtHub(caller, f)).end;
            end.Turned? ==> !end.detail.BadChain? && !end.detail.InvalidDestination?
    decreases |f.via|
  {
    TripUnfolds(w, caller, f);
    FirstShape(w, caller, f);
    HubStepShape(w, caller, f);
    var q := HubStep(w, caller, f);
    if q.AtNode? && NodeStep(w, q.node, q.open).AtHub? && f.via != [] {
      TailWellShaped(caller, f.via, f.destination);
      ShapeHolds(w, f.via[0], f.(via := f.via[1..]));
    }
  }

  /** An open that is turned away for its chain's shape is turned away at the first edge:
      a chain accepted there is never refused for its shape later. */
  lemma ShapeRefusedAtOnce(w: World, caller: string, f: OpenFields)
    requires RegistryOk(w.hub)
    ensures var t := Travel(w, AtHub(caller, f));
            t.end.Turned? && (t.end.detail.BadChain? || t.end.detail.InvalidDestination?) ==>
              t.visited == [] && (!ValidDestination(f.destination) || !WellShaped(caller, f.via, f.destination))
  {
    ChainAccepted(caller, f.via, f.destination);
    if ValidDestination(f.destination) && WellShaped(caller, f.via, f.destination) {
      ShapeHolds(w, caller, f);
    }
  }

  // ---- exactly when a trip dials ---------------------------------------------

  predicate Up(w: World, node: string) { node in w.hub.leases && node in w.hub.live }

  /** The Hub's ACL and relay switch for one edge, all remaining hops at once. */
  ghost predicate EdgeAllowed(w: World, caller: string, f: OpenFields)
  {
    && TargetGranted(w, caller, f)
    && forall hop <- f.via :: hop in w.hub.relayAllow && HopGranted(w.hub, caller, hop, f.proto)
  }

  predicate LeaseOk(w: World, f: OpenFields)
  {
    match f.destination
    case Service(node, name, revision) =>
      && node in w.hub.leases && name in w.hub.leases[node].services
      && w.hub.leases[node].services[name].proto == f.proto
      && (revision.Some? ==> revision.value == w.hub.leases[node].services[name].revision)
    case NodeAddress(node, _, _) => node in w.hub.leases
    case Address(_, _) => true
  }

  /** Whoever opens the `k`-th edge: the caller, then each hop in turn. */
  function Opener(caller: string, via: seq<string>, k: nat): string
    requires k <= |via|
  {
    if k == 0 then caller else via[k - 1]
  }

  function After(f: OpenFields, k: nat): OpenFields
    requires k <= |f.via|
  {
    f.(via := f.via[k..])
  }

  predicate Named(f: OpenFields) { NamedNode(f.destination).Some? }

  /** Edge `k` is authorised for the node before it, its hop is online, and the hop agrees
      to relay unless it is the exit. */
  ghost predicate HopReady(w: World, caller: string, f: OpenFields, k: nat)
    requires k < |f.via|
  {
    && EdgeAllowed(w, Opener(caller, f.via, k), After(f, k))
    && Up(w, f.via[k])
    && (k + 1 < |f.via| || Named(f) ==> w.node(f.via[k]).relayForward)
  }

  /** `target` is the configured one of the first service of that name. */
  predicate Publishes(services: seq<Registration>, name: string, target: Target)
  {
    exists i :: 0 <= i < |services| && services[i].name == name && services[i].target == Some(target)
                && forall j :: 0 <= j < i ==> services[j].name != name
  }

  /** What the node, asked as the exit for `d`, is ready to dial: its own service, unpinned or
      pinned to 1, or the very address, inside a network it allows. */
  predicate Serves(w: World, id: string, d: Destination, target: Target)
  {
    match d
    case Service(_, name, revision) => revision in {None, Some(1)} && Publishes(w.node(id).services, name, target)
    case _ =>
      && target == Target(d.host, d.port) && d.port != 0 && w.ip(d.host).Some?
      && exists net <- w.node(id).allow :: net.first <= w.ip(d.host).value <= net.last
  }

  /** What the end of the chain asks for. */
  ghost predicate EndReady(w: World, caller: string, f: OpenFields)
  {
    var last := Opener(caller, f.via, |f.via|);
    var bare := f.(via := []);
    if Named(f) then
      var node := NamedNode(f.destination).value;
      && EdgeAllowed(w, last, bare) && LeaseOk(w, f)
      && Up(w, node) && exists target :: Serves(w, node, f.destination, target)
    else if f.via == [] then EdgeAllowed(w, caller, bare)
    else exists target :: Serves(w, last, f.destination, target)
  }

  ghost predicate Permitted(w: World, caller: string, f: OpenFields)
  {
    && ValidDestination(f.destination) && WellShaped(caller, f.via, f.destination)
    && (forall k :: 0 <= k < |f.via| ==> HopReady(w, caller, f, k))
    && EndReady(w, caller, f)
  }

  /** The Hub's decision on one edge, both ways. */
  lemma EdgeDecided(w: World, caller: string, f: OpenFields)
    requires ValidDestination(f.destination) && WellShaped(caller, f.via, f.destination)
    ensures f.via != [] ==>
              (HubStep(w, caller, f).AtNode? <==> EdgeAllowed(w, caller, f) && Up(w, f.via[0]))
    ensures f.via == [] && !Named(f) ==> (HubStep(w, caller, f).Dialed? <==> EdgeAllowed(w, caller, f))
    ensures f.via == [] && Named(f) && RegistryOk(w.hub) ==>
              (HubStep(w, caller, f).AtNode? <==>
                 EdgeAllowed(w, caller, f) && LeaseOk(w, f) && Up(w, NamedNode(f.destination).value))
  {
    ChainAccepted(caller, f.via, f.destination);
    TargetAsked(w, caller, f);
    GateOpens(w.hub, caller, f.via, f.proto);
  }

  /** What being permitted means hop by hop. */
  lemma PermittedTail(w: World, caller: string, f: OpenFields)
    requires f.via != [] && (f.via[1..] != [] || Named(f))
    requires ValidDestination(f.destination) && WellShaped(caller, f.via, f.destination)
    ensures Permitted(w, caller, f) <==> HopReady(w, caller, f, 0) && Permitted(w, f.via[0], After(f, 1))
  {
    var g := After(f, 1);
    TailWellShaped(caller, f.via, f.destination);
    forall k | 0 <= k < |g.via|
      ensures HopReady(w, f.via[0], g, k) <==> HopReady(w, caller, f, k + 1)
    {
      assert After(g, k) == After(f, k + 1);
      assert Opener(f.via[0], g.via, k) == Opener(caller, f.via, k + 1);
    }
    if forall k :: 0 <= k < |g.via| ==> HopReady(w, f.via[0], g, k) {
      forall k | 1 <= k < |f.via| ensures HopReady(w, caller, f, k) {
        assert HopReady(w, f.via[0], g, k - 1);
      }
    }
    assert Opener(f.via[0], g.via, |g.via|) == Opener(caller, f.via, |f.via|);
    assert g.(via := []) == f.(via := []);
    assert EndReady(w, f.via[0], g) <==> EndReady(w, caller, f);
  }

  lemma {:induction false} FindIsFirst(services: seq<Registration>, name: string) returns (i: nat)
    ensures FindService(services, name).None? <==> forall r <- services :: r.name != name
    ensures FindService(services, name).Some? ==>
              && i < |services| && FindService(services, name) == Some(services[i]) && services[i].name == name
              && forall j :: 0 <= j < i ==> services[j].name != name
  {
    i := 0;
    if services != [] && services[0].name != name {
      var k := FindIsFirst(services[1..], name);
      i := k + 1;
      forall j | 0 <= j < i && j < |services| && FindService(services, name).Some? ensures services[j].name != name {
        if j > 0 { assert services[1..][j - 1] == services[j]; }
      }
    }
  }

  lemma FoundIsPublished(services: seq<Registration>, name: string, target: Target)
    ensures Publishes(services, name, target) <==>
            FindService(services, name).Some? && FindService(services, name).value.target == Some(target)
  {
    var i := FindIsFirst(services, name);
    if k :| 0 <= k < |services| && services[k].name == name && services[k].target == Some(target)
            && forall j :: 0 <= j < k ==> services[j].name != name {
      assert services[k] in services;
      assert i == k;
    }
  }

  /** The exit's decision, both ways, and what it dials. */
  lemma ExitDecides(w: World, id: string, f: OpenFields, target: Target)
    requires f.via == [] && NamedNode(f.destination) in {None, Some(id)}
    ensures PlanInbound(w, id, f) == Dial(target) <==> Serves(w, id, f.destination, target)
    ensures !PlanInbound(w, id, f).Forward?
  {
    if f.destination.Service? { FoundIsPublished(w.node(id).services, f.destination.name, target); }
  }

  lemma ExitDials(w: World, id: string, f: OpenFields)
    requires f.via == [] && NamedNode(f.destination) in {None, Some(id)}
    ensures PlanInbound(w, id, f).Dial? <==> exists target :: Serves(w, id, f.destination, target)
  {
    if PlanInbound(w, id, f).Dial? { ExitDecides(w, id, f, PlanInbound(w, id, f).target); }
    if target :| Serves(w, id, f.destination, target) { ExitDecides(w, id, f, target); }
  }

  /** A trip without a hop to a named node. */
  lemma NamedStretch(w: World, caller: string, f: OpenFields)
    requires RegistryOk(w.hub) && ValidDestination(f.destination) && WellShaped(caller, f.via, f.destination)
    requires f.via == [] && Named(f)
    ensures Travel(w, AtHub(caller, f)).end.Dialed? <==> EndReady(w, caller, f)
  {
    TripUnfolds(w, caller, f);
    HubStepShape(w, caller, f);
    EdgeDecided(w, caller, f);
    assert f.(via := []) == f;
    ExitDials(w, NamedNode(f.destination).value, f);
  }

  /** One whose only hop is the exit of a plain address. */
  lemma HopStretch(w: World, caller: string, f: OpenFields)
    requires RegistryOk(w.hub) && ValidDestination(f.destination) && WellShaped(caller, f.via, f.destination)
    requires |f.via| == 1 && !Named(f)
    ensures Travel(w, AtHub(caller, f)).end.Dialed? <==> HopReady(w, caller, f, 0) && EndReady(w, caller, f)
  {
    TripUnfolds(w, caller, f);
    HubStepShape(w, caller, f);
    EdgeDecided(w, caller, f);
    assert After(f, 0) == f && f.via[1..] == [] && Opener(caller, f.via, 1) == f.via[0];
    ExitDials(w, f.via[0], f.(via := []));
    assert HopReady(w, caller, f, 0) <==> HubStep(w, caller, f).AtNode?;
  }

  lemma LastStretch(w: World, caller: string, f: OpenFields)
    requires RegistryOk(w.hub) && ValidDestination(f.destination) && WellShaped(caller, f.via, f.destination)
    requires f.via == [] || (|f.via| == 1 && !Named(f))
    ensures Travel(w, AtHub(caller, f)).end.Dialed? <==> Permitted(w, caller, f)
  {
    if f.via != [] {
      HopStretch(w, caller, f);
    } else if Named(f) {
      NamedStretch(w, caller, f);
    } else {
      TripUnfolds(w, caller, f);
      EdgeDecided(w, caller, f);
      assert f.(via := []) == f;
    }
  }

  lemma RelayStretch(w: World, caller: string, f: OpenFields)
    requires RegistryOk(w.hub) && ValidDestination(f.destination) && WellShaped(caller, f.via, f.destination)
    requires f.via != [] && (f.via[1..] != [] || Named(f))
    ensures Travel(w, AtHub(caller, f)).end.Dialed? <==>
            HopReady(w, caller, f, 0) && Travel(w, AtHub(f.via[0], After(f, 1))).end.Dialed?
  {
    TripUnfolds(w, caller, f);
    HubStepShape(w, caller, f);
    EdgeDecided(w, caller, f);
    assert After(f, 0) == f;
    var g := After(f, 1);
    assert NodeStep(w, f.via[0], g) == if w.node(f.via[0]).relayForward then AtHub(f.via[0], g) else Turned(Denied, NodeRefused);
  }

  /** A trip reaches its dial exactly when the Hub authorises every edge for the node before
      it, every hop is online, every intermediate hop agrees to relay, and the exit's own
      policy resolves the target. */
  lemma {:induction false} DialsExactlyWhenPermitted(w: World, caller: string, f: OpenFields)
    requires RegistryOk(w.hub)
    ensures Travel(w, AtHub(caller, f)).end.Dialed? <==> Permitted(w, caller, f)
    decreases |f.via|
  {
    if !ValidDestination(f.destination) || !WellShaped(caller, f.via, f.destination) {
      TripUnfolds(w, caller, f);
      ChainAccepted(caller, f.via, f.destination);
    } else if f.via == [] || (|f.via| == 1 && !Named(f)) {
      LastStretch(w, caller, f);
    } else {
      DialsExactlyWhenPermitted(w, f.via[0], After(f, 1));
      RelayStretch(w, caller, f);
      PermittedTail(w, caller, f);
    }
  }

  // ---- what a trip dials -----------------------------------------------------

  /** What the destination stands for: the very address, or what the named node publishes
      first under that name. */
  predicate Wanted(w: World, d: Destination, target: Target)
  {
    match d
    case Service(node, name, _) => Publishes(w.node(node).services, name, target)
    case _ => target == Target(d.host, d.port)
  }

  lemma OneIsWanted(w: World, d: Destination, a: Target, b: Target)
    requires Wanted(w, d, a) && Wanted(w, d, b)
    ensures a == b
  {
    if d.Service? {
      FoundIsPublished(w.node(d.node).services, d.name, a);
      FoundIsPublished(w.node(d.node).services, d.name, b);
    }
  }

  lemma {:induction false} DialsWhatWasAsked(w: World, caller: string, f: OpenFields)
    requires RegistryOk(w.hub)
    ensures var end := Travel(w, AtHub(caller, f)).end;
            end.Dialed? ==> Wanted(w, f.destination, end.target)
    decreases |f.via|
  {
    var q := HubStep(w, caller, f);
    HubStepShape(w, caller, f);
    if q.AtNode? && NodeStep(w, q.node, q.open).AtHub? {
      LongTrip(w, caller, f);
      DialsWhatWasAsked(w, f.via[0], f.(via := f.via[1..]));
    } else {
      TripUnfolds(w, caller, f);
      if q.AtNode? && PlanInbound(w, q.node, q.open).Dial? {
        ExitDecides(w, q.node, q.open, PlanInbound(w, q.node, q.open).target);
      }
    }
  }

  /** A trip ends in this dial exactly when it is permitted, this is the right exit, and this
      is what the destination stands for. */
  lemma DialsExactly(w: World, caller: string, f: OpenFields, exit: Exit, target: Target)
    requires RegistryOk(w.hub)
    ensures Travel(w, AtHub(caller, f)).end == Dialed(exit, target) <==>
            Permitted(w, caller, f) && exit == RightExit(f) && Wanted(w, f.destination, target)
  {
    var end := Travel(w, AtHub(caller, f)).end;
    DialsExactlyWhenPermitted(w, caller, f);
    TripStaysOnRoute(w, caller, f);
    DialsWhatWasAsked(w, caller, f);
    if end.Dialed? && Wanted(w, f.destination, target) { OneIsWanted(w, f.destination, end.target, target); }
  }

  // ---- how an open is turned away --------------------------------------------

  ghost predicate HopPasses(w: World, caller: string, hop: string, proto: Proto)
  {
    hop in w.hub.relayAllow && HopGranted(w.hub, caller, hop, proto)
  }

  /** The first hop that does not pass. */
  ghost predicate StopsAt(w: World, caller: string, f: OpenFields, i: nat)
    requires i < |f.via|
  {
    !HopPasses(w, caller, f.via[i], f.proto) && forall j :: 0 <= j < i ==> HopPasses(w, caller, f.via[j], f.proto)
  }

  lemma {:induction false} GateStops(w: World, caller: string, via: seq<string>, proto: Proto) returns (i: nat)
    requires RelayGate(w.hub, caller, via, proto).Some?
    ensures i < |via| && !HopPasses(w, caller, via[i], proto) && forall j :: 0 <= j < i ==> HopPasses(w, caller, via[j], proto)
    ensures RelayGate(w.hub, caller, via, proto) == Some(if via[i] in w.hub.relayAllow then RelayAclDenied else RelayNotAllowed)
  {
    HopAsked(w.hub, caller, via[0], proto);
    if !HopPasses(w, caller, via[0], proto) {
      i := 0;
    } else {
      var k := GateStops(w, caller, via[1..], proto);
      i := k + 1;
      forall j | 0 <= j < i ensures HopPasses(w, caller, via[j], proto) {
        if j > 0 { assert via[j] == via[1..][j - 1]; }
      }
    }
  }

  /** The open passed every check before the last one. */
  ghost predicate Passes(w: World, caller: string, f: OpenFields)
  {
    && ValidDestination(f.destination) && WellShaped(caller, f.via, f.destination) && EdgeAllowed(w, caller, f)
  }

  ghost predicate Asks(w: World, caller: string, f: OpenFields)
  {
    ValidDestination(f.destination) && WellShaped(caller, f.via, f.destination) && TargetGranted(w, caller, f)
  }

  /** The relay gate's two refusals, each at the first hop that does not pass. */
  lemma RelayRefused(w: World, caller: string, f: OpenFields)
    requires Asks(w, caller, f)
    ensures RelayGate(w.hub, caller, f.via, f.proto) == Some(RelayNotAllowed) <==>
            exists i: nat :: i < |f.via| && StopsAt(w, caller, f, i) && f.via[i] !in w.hub.relayAllow
    ensures RelayGate(w.hub, caller, f.via, f.proto) == Some(RelayAclDenied) <==>
            exists i: nat :: i < |f.via| && StopsAt(w, caller, f, i) && f.via[i] in w.hub.relayAllow
  {
    GateOpens(w.hub, caller, f.via, f.proto);
    if RelayGate(w.hub, caller, f.via, f.proto).Some? {
      var i := GateStops(w, caller, f.via, f.proto);
      assert StopsAt(w, caller, f, i);
      forall j: nat | j < |f.via| && StopsAt(w, caller, f, j) ensures j == i {}
    } else {
      forall j: nat | j < |f.via| ensures !StopsAt(w, caller, f, j) { assert f.via[j] in f.via; }
    }
  }

  /** Which checks the Hub names when it turns an open away, each exactly when it is the first
      to fail. */
  lemma HubRefusesExactly(w: World, caller: string, f: OpenFields)
    requires RegistryOk(w.hub)
    ensures var q := HubStep(w, caller, f);
            && (q == Turned(Denied, InvalidDestination) <==> !ValidDestination(f.destination))
            && (forall e :: q == Turned(Denied, BadChain(e)) <==>
                  ValidDestination(f.destination) && ValidateChain(caller, f.via, f.destination) == Some(e))
            && (q == Turned(Denied, AclDenied) <==>
                  ValidDestination(f.destination) && WellShaped(caller, f.via, f.destination) && !TargetGranted(w, caller, f))
            && (q == Turned(Denied, RelayNotAllowed) <==>
                  Asks(w, caller, f) && exists i: nat :: i < |f.via| && StopsAt(w, caller, f, i) && f.via[i] !in w.hub.relayAllow)
            && (q == Turned(Denied, RelayAclDenied) <==>
                  Asks(w, caller, f) && exists i: nat :: i < |f.via| && StopsAt(w, caller, f, i) && f.via[i] in w.hub.relayAllow)
  {
    ChainAccepted(caller, f.via, f.destination);
    TargetAsked(w, caller, f);
    if Asks(w, caller, f) { RelayRefused(w, caller, f); }
    GateDetails(w.hub, caller, f.via, f.proto);
  }

  /** And the last checks, on an open that passed those: the lease, and whether the next node is
      online. */
  lemma LastChecksRefuseExactly(w: World, caller: string, f: OpenFields)
    requires RegistryOk(w.hub) && Passes(w, caller, f)
    ensures var q, d := HubStep(w, caller, f), f.destination;
            var lease := if d.Service? then Registry.LeaseAt(w.hub.leases, d.node, d.name) else None;
            var bare := f.via == [];
            && (q == Turned(Offline, ServiceOffline) <==>
                  bare && ((d.Service? && lease.None?) || (d.NodeAddress? && d.node !in w.hub.leases)))
            && (q == Turned(Refused, ServiceProto) <==> bare && lease.Some? && lease.value.proto != f.proto)
            && (q == Turned(Refused, ServiceStale) <==>
                  bare && lease.Some? && lease.value.proto == f.proto && !States(d.revision, lease.value.revision))
            && (q == Turned(Offline, PublisherOffline) <==>
                  if bare then Named(f) && LeaseOk(w, f) && !Up(w, NamedNode(d).value) else !Up(w, f.via[0]))
            && (q.Turned? ==> q.detail in {ServiceOffline, ServiceProto, ServiceStale, PublisherOffline})
  {
    ChainAccepted(caller, f.via, f.destination);
    TargetAsked(w, caller, f);
    GateOpens(w.hub, caller, f.via, f.proto);
    if f.destination.Service? && f.destination.node in w.hub.leases {
      assert Registry.FiledUnder(f.destination.node, w.hub.leases[f.destination.node].services);
    }
  }

  /** The node is asked to be the exit. */
  predicate AsExit(id: string, f: OpenFields) { f.via == [] && NamedNode(f.destination) in {None, Some(id)} }

  /** What a node answers: on a hop's behalf it goes on exactly if it consents; as the exit it
      names what is missing. */
  lemma NodeAnswersExactly(w: World, id: string, f: OpenFields)
    ensures var q, d := NodeStep(w, id, f), f.destination;
            && (q == AtHub(id, f) <==> !AsExit(id, f) && w.node(id).relayForward)
            && (q == Turned(Denied, NodeRefused) <==>
                  if AsExit(id, f) then !d.Service? && !Serves(w, id, d, Target(d.host, d.port)) else !w.node(id).relayForward)
            && (q == Turned(Offline, NodeRefused) <==>
                  AsExit(id, f) && d.Service? && (d.revision !in {None, Some(1)} || forall r <- w.node(id).services :: r.name != d.name))
            && (q == Turned(Unreachable, NodeRefused) <==>
                  AsExit(id, f) && d.Service? && d.revision in {None, Some(1)} && (exists r <- w.node(id).services :: r.name == d.name)
                  && forall target :: !Publishes(w.node(id).services, d.name, target))
            && (q.Dialed? ==> q.exit == ByNode(id))
            && !q.AtNode?
  {
    if f.destination.Service? {
      var services, name := w.node(id).services, f.destination.name;
      var i := FindIsFirst(services, name);
      forall target ensures Publishes(services, name, target) <==>
            FindService(services, name).Some? && FindService(services, name).value.target == Some(target) {
        FoundIsPublished(services, name, target);
      }
      assert FindService(services, name).Some? ==> services[i] in services;
    }
  }

  // ---- pinned revisions ------------------------------------------------------

  function Unpinned(f: OpenFields): OpenFields
    requires f.destination.Service?
  {
    f.(destination := f.destination.(revision := None))
  }

  /** The service's lease is at its first revision. */
  predicate NeverRaised(h: Hub, d: Destination)
    requires d.Service?
  {
    var l := Registry.LeaseAt(h.leases, d.node, d.name);
    l.Some? && l.value.revision == 1
  }

  lemma PinAffectsEdge(w: World, caller: string, f: OpenFields)
    requires f.destination.Service?
    ensures EdgeAllowed(w, caller, f) <==> EdgeAllowed(w, caller, Unpinned(f))
  {
  }

  /** A pin matters only at the end: to the Hub's lease and to the node. */
  lemma PinAffectsEnd(w: World, caller: string, f: OpenFields)
    requires f.destination.Service? && f.destination.revision.Some?
    ensures EndReady(w, caller, f) <==>
            && EndReady(w, caller, Unpinned(f)) && f.destination.revision == Some(1)
            && NeverRaised(w.hub, f.destination)
  {
    var node, d, bare := f.destination.node, f.destination, Unpinned(f).destination;
    PinAffectsEdge(w, Opener(caller, f.via, |f.via|), f.(via := []));
    assert Unpinned(f.(via := [])) == Unpinned(f).(via := []);
    if target :| Serves(w, node, d, target) { assert Serves(w, node, bare, target); }
    if target :| Serves(w, node, bare, target) { assert d.revision == Some(1) ==> Serves(w, node, d, target); }
  }

  lemma PinAffectsHop(w: World, caller: string, f: OpenFields, k: nat)
    requires f.destination.Service? && k < |f.via|
    ensures HopReady(w, caller, f, k) <==> HopReady(w, caller, Unpinned(f), k)
  {
    PinAffectsEdge(w, Opener(caller, f.via, k), After(f, k));
    assert Unpinned(After(f, k)) == After(Unpinned(f), k);
  }

  lemma PinAffectsPermission(w: World, caller: string, f: OpenFields)
    requires f.destination.Service? && f.destination.revision.Some?
    ensures Permitted(w, caller, f) <==>
            && Permitted(w, caller, Unpinned(f)) && f.destination.revision == Some(1)
            && NeverRaised(w.hub, f.destination)
  {
    PinAffectsEnd(w, caller, f);
    forall k | 0 <= k < |f.via| ensures HopReady(w, caller, f, k) <==> HopReady(w, caller, Unpinned(f), k) {
      PinAffectsHop(w, caller, f, k);
    }
  }

  /** The Hub pins an open to its lease's revision, the node only ever honours revision 1: a
      pinned open dials exactly when the same open without a pin would, the pin is 1, and the
      lease has never been raised. */
  lemma PinnedDialsExactlyAtRevisionOne(w: World, caller: string, f: OpenFields)
    requires RegistryOk(w.hub) && f.destination.Service? && f.destination.revision.Some?
    ensures Travel(w, AtHub(caller, f)).end.Dialed? <==>
            && Travel(w, AtHub(caller, Unpinned(f))).end.Dialed? && f.destination.revision == Some(1)
            && NeverRaised(w.hub, f.destination)
  {
    DialsExactlyWhenPermitted(w, caller, f);
    DialsExactlyWhenPermitted(w, caller, Unpinned(f));
    PinAffectsPermission(w, caller, f);
  }

  /** A Hub whose node `b` announced one service twice, for two targets, in one Hello; the
      node serves the list it announced. `split` reads a `host:port`. */
  ghost function RaisedWorld(first: Registry.Offer, second: Registry.Offer, split: string -> Target): World
  {
    var allow := Rule("a", ConnectService, true, None, None, None, None, None);
    World(Hub([allow], [], Registry.Hello(map[], "b", [], [], [first, second]), {"b"}),
          _ => Node([Registration(first.name, Some(split(first.target))), Registration(second.name, Some(split(second.target)))], [], false),
          _ => None)
  }

  lemma RaisedLease(first: Registry.Offer, second: Registry.Offer)
    requires first.name == second.name == "web" && first.usable && second.usable && first.target != second.target
    ensures var d := Registry.Hello(map[], "b", [], [], [first, second]);
            d == map["b" := Registry.NodeLease([], [], map["web" := Registry.Lease("b", second.proto, 2, second.target)])]
  {
    assert IsSlug("web");
    var d0 := Registry.Hello(map[], "b", [], [], []);
    assert d0 == map["b" := Registry.NodeLease([], [], map[])];
    assert [first, second][..1] == [first] && [first][..0] == [];
    var d1 := Registry.Hello(map[], "b", [], [], [first]);
    assert d1 == Registry.After(d0, Registry.Call.Publish("b", [], [], first));
    assert d1 == map["b" := Registry.NodeLease([], [], map["web" := Registry.Lease("b", first.proto, 1, first.target)])];
    var d2 := Registry.After(d1, Registry.Call.Publish("b", [], [], second));
    assert Registry.Hello(map[], "b", [], [], [first, second]) == d2;
    assert d2["b"].services == map["web" := Registry.Lease("b", second.proto, 2, second.target)];
  }

  /** Such a lease is at revision 2: the Hub sends an open pinned to 2 to the node, which
      declines it; it refuses one pinned to 1 itself; and one without a pin dials, but not
      what the Hub's lease names: the lease is for the second target, the node takes the
      first. */
  lemma RaisedRevisionIsUnreachable(first: Registry.Offer, second: Registry.Offer, split: string -> Target)
    requires first.name == second.name == "web" && first.usable && second.usable && first.target != second.target
    ensures var w := RaisedWorld(first, second, split);
            var open := (pin: Option<nat>) => OpenFields(second.proto, Service("b", "web", pin), []);
            && Registry.LeaseAt(w.hub.leases, "b", "web") == Some(Registry.Lease("b", second.proto, 2, second.target))
            && AuthorizeOpen(w, "a", open(Some(2))) == ServiceExit("b")
            && PlanInbound(w, "b", open(Some(2))) == Decline(Offline)
            && AuthorizeOpen(w, "a", open(Some(1))) == Refuse(Refused, ServiceStale)
            && AuthorizeOpen(w, "a", open(None)) == ServiceExit("b")
            && PlanInbound(w, "b", open(None)) == Dial(split(first.target))
  {
    RaisedLease(first, second);
    assert IsSlug("web") && IsSlug("b");
  }
}
