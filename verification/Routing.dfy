/** Destinations, chain shape and the default-deny ACL (crates/wsnet-routing). */
module Routing {
  import opened Limits

  datatype Proto = Tcp | Udp

  datatype Destination =
    | Address(host: string, port: nat)
    | Service(node: string, name: string, revision: Option<nat>)
    | NodeAddress(node: string, host: string, port: nat)

  function NamedNode(d: Destination): Option<string>
  {
    if d.Address? then None else Some(d.node)
  }

  predicate Alphanumeric(c: char) { 'a' <= c <= 'z' || 'A' <= c <= 'Z' || '0' <= c <= '9' }

  predicate IsSlug(s: string)
  {
    && 0 < |s| <= 64 && Alphanumeric(s[0])
    && forall i :: 0 <= i < |s| ==> Alphanumeric(s[i]) || s[i] in {'.', '_', '-'}
  }

  predicate ValidDestination(d: Destination)
  {
    match d
    case Address(host, port) => host != [] && port != 0
    case Service(node, name, _) => IsSlug(node) && IsSlug(name)
    case NodeAddress(node, host, port) => IsSlug(node) && host != [] && port != 0
  }

  /** What makes a destination unusable. */
  lemma InvalidExactly(d: Destination)
    ensures !ValidDestination(d) <==>
            || (!d.Address? && !IsSlug(d.node)) || (d.Service? && !IsSlug(d.name))
            || (!d.Service? && (|d.host| == 0 || d.port == 0))
  {
  }

  /** Slugs have one to 64 characters; no separator of a path, a port or a query is in one. */
  lemma SlugLimits(n: nat, s: string)
    ensures IsSlug(seq(n, _ => 'a')) <==> 1 <= n <= 64
    ensures IsSlug(s) ==> forall c <- s :: c !in {' ', '/', ':', '?', '*', '\\'}
    ensures IsSlug(s) ==> s[0] !in {'.', '_', '-'}
    ensures IsSlug("client-a") && IsSlug("web") && IsSlug("a.b_c") && IsSlug("A1") && IsSlug("0zZ9")
    ensures !IsSlug("") && !IsSlug("..") && !IsSlug("_a")
  {
    assert n > 0 ==> seq(n, _ => 'a')[0] == 'a';
  }

  // ---- chain shape -----------------------------------------------------------

  datatype RouteError = TooManyHops | NotASlug | SelfLoop | DuplicateHop | DestinationInPath

  predicate Distinct(s: seq<string>) { forall i, j :: 0 <= i < j < |s| ==> s[i] != s[j] }

  /** What a chain must look like, said without an order of checks. */
  predicate WellShaped(caller: string, via: seq<string>, d: Destination)
  {
    && |via| <= MAX_CHAIN_HOPS
    && (forall hop <- via :: IsSlug(hop))
    && caller !in via && Distinct(via)
    && (NamedNode(d).Some? ==> NamedNode(d).value !in via)
  }

  function FirstBadHop(caller: string, via: seq<string>): Option<RouteError>
  {
    if via == [] then None
    else if !IsSlug(via[0]) then Some(NotASlug)
    else if via[0] == caller then Some(SelfLoop)
    else FirstBadHop(caller, via[1..])
  }

  predicate Repeats(seen: seq<string>, via: seq<string>)
    decreases |via|
  {
    via != [] && (via[0] in seen || Repeats(seen + [via[0]], via[1..]))
  }

  function ValidateChain(caller: string, via: seq<string>, d: Destination): Option<RouteError>
  {
    if |via| > MAX_CHAIN_HOPS then Some(TooManyHops)
    else if FirstBadHop(caller, via).Some? then FirstBadHop(caller, via)
    else if Repeats([caller], via) then Some(DuplicateHop)
    else if NamedNode(d).Some? && NamedNode(d).value in via then Some(DestinationInPath)
    else None
  }

  /** `validate_chain` as it runs, with its list of nodes seen so far. */
  method CheckChain(caller: string, via: seq<string>, d: Destination) returns (r: Option<RouteError>)
    ensures r == ValidateChain(caller, via, d)
  {
    if |via| > MAX_CHAIN_HOPS { return Some(TooManyHops); }
    assert via[0..] == via;
    for i := 0 to |via|
      invariant FirstBadHop(caller, via) == FirstBadHop(caller, via[i..])
    {
      assert via[i..][1..] == via[i + 1..];
      if !IsSlug(via[i]) { return Some(NotASlug); }
      if via[i] == caller { return Some(SelfLoop); }
    }
    var seen := [caller];
    for i := 0 to |via|
      invariant Repeats([caller], via) <==> Repeats(seen, via[i..])
    {
      assert via[i..][1..] == via[i + 1..];
      if via[i] in seen { return Some(DuplicateHop); }
      seen := seen + [via[i]];
    }
    if NamedNode(d).Some? && NamedNode(d).value in via { return Some(DestinationInPath); }
    return None;
  }

  lemma {:induction false} GoodHops(caller: string, via: seq<string>)
    ensures FirstBadHop(caller, via).None? <==> caller !in via && forall hop <- via :: IsSlug(hop)
  {
    if via != [] {
      GoodHops(caller, via[1..]);
      assert via == [via[0]] + via[1..];
    }
  }

  lemma DistinctTail(via: seq<string>)
    requires via != []
    ensures Distinct(via) <==> Distinct(via[1..]) && via[0] !in via[1..]
  {
    assert forall i :: 0 <= i < |via| - 1 ==> via[1..][i] == via[i + 1];
    if Distinct(via[1..]) && via[0] !in via[1..] {
      forall i, j | 0 <= i < j < |via| ensures via[i] != via[j] {
        assert via[j] == via[1..][j - 1];
        if i > 0 { assert via[i] == via[1..][i - 1]; }
      }
    }
  }

  lemma {:induction false} NoRepeats(seen: seq<string>, via: seq<string>)
    ensures !Repeats(seen, via) <==> Distinct(via) && forall hop <- via :: hop !in seen
    decreases |via|
  {
    if via != [] {
      NoRepeats(seen + [via[0]], via[1..]);
      DistinctTail(via);
      assert forall hop :: hop in via <==> hop == via[0] || hop in via[1..];
    }
  }

  /** The ordered checks accept exactly the well-shaped chains. */
  lemma ChainAccepted(caller: string, via: seq<string>, d: Destination)
    ensures ValidateChain(caller, via, d).None? <==> WellShaped(caller, via, d)
  {
    GoodHops(caller, via);
    NoRepeats([caller], via);
  }

  /** The first hop with a fault, and which of its two faults is named. */
  predicate FaultyAt(caller: string, via: seq<string>, i: nat)
    requires i < |via|
  {
    (!IsSlug(via[i]) || via[i] == caller) && forall j :: 0 <= j < i ==> IsSlug(via[j]) && via[j] != caller
  }

  lemma {:induction false} FirstFault(caller: string, via: seq<string>) returns (i: nat)
    requires FirstBadHop(caller, via).Some?
    ensures i < |via| && FaultyAt(caller, via, i)
    ensures FirstBadHop(caller, via) == Some(if IsSlug(via[i]) then SelfLoop else NotASlug)
  {
    if !IsSlug(via[0]) || via[0] == caller {
      i := 0;
    } else {
      var k := FirstFault(caller, via[1..]);
      i := k + 1;
      forall j | 0 <= j < i ensures IsSlug(via[j]) && via[j] != caller {
        if j > 0 { assert via[1..][j - 1] == via[j]; }
      }
    }
  }

  lemma OneFault(caller: string, via: seq<string>, i: nat, j: nat)
    requires i < |via| && j < |via| && FaultyAt(caller, via, i) && FaultyAt(caller, via, j)
    ensures i == j
  {
  }

  /** Which error a chain gets: too long, then the first faulty hop, then a repetition, then the
      destination's own node among the hops. */
  lemma ChainRefused(caller: string, via: seq<string>, d: Destination)
    ensures var e := ValidateChain(caller, via, d);
            && (e == Some(TooManyHops) <==> |via| > MAX_CHAIN_HOPS)
            && (e == Some(NotASlug) <==> |via| <= MAX_CHAIN_HOPS && exists i: nat :: i < |via| && FaultyAt(caller, via, i) && !IsSlug(via[i]))
            && (e == Some(SelfLoop) <==> |via| <= MAX_CHAIN_HOPS && exists i: nat :: i < |via| && FaultyAt(caller, via, i) && IsSlug(via[i]))
            && (e == Some(DuplicateHop) <==>
                  |via| <= MAX_CHAIN_HOPS && (forall hop <- via :: IsSlug(hop) && hop != caller) && !Distinct(via))
            && (e == Some(DestinationInPath) <==>
                  |via| <= MAX_CHAIN_HOPS && (forall hop <- via :: IsSlug(hop) && hop != caller) && Distinct(via)
                  && NamedNode(d).Some? && NamedNode(d).value in via)
  {
    GoodHops(caller, via);
    NoRepeats([caller], via);
    if FirstBadHop(caller, via).Some? {
      var i := FirstFault(caller, via);
      assert via[i] in via;
      forall j: nat | j < |via| && FaultyAt(caller, via, j) ensures j == i { OneFault(caller, via, i, j); }
    } else {
      forall j: nat | j < |via| ensures !FaultyAt(caller, via, j) { assert via[j] in via; }
    }
  }

  /** Handing a well-shaped chain to its first hop leaves a well-shaped chain. */
  lemma TailWellShaped(caller: string, via: seq<string>, d: Destination)
    requires WellShaped(caller, via, d) && via != []
    ensures WellShaped(via[0], via[1..], d)
  {
    assert forall i :: 0 <= i < |via| - 1 ==> via[1..][i] == via[i + 1];
  }

  // ---- ACL -------------------------------------------------------------------

  datatype Action = ConnectService | ConnectNodeAddress | ConnectAddress | RelayHop

  datatype Net = Net(first: nat, last: nat)

  predicate Contains(n: Net, ip: nat) { n.first <= ip <= n.last }

  datatype Rule = Rule(
    caller: string,
    action: Action,
    allow: bool,
    node: Option<string>,
    service: Option<string>,
    net: Option<Net>,
    ports: Option<seq<nat>>,
    proto: Option<Proto>)

  datatype Query = Query(
    caller: string,
    action: Action,
    node: Option<string>,
    service: Option<string>,
    ip: Option<nat>,
    port: Option<nat>,
    proto: Proto)

  predicate Matches(r: Rule, q: Query)
  {
    && r.caller == q.caller && r.action == q.action
    && (r.node.Some? ==> q.node == r.node)
    && (r.service.Some? ==> q.service == r.service)
    && (r.ports.Some? ==> q.port.Some? && q.port.value in r.ports.value)
    && (r.proto.Some? ==> r.proto.value == q.proto)
    && (r.net.Some? ==> q.ip.Some? && Contains(r.net.value, q.ip.value))
  }

  /** One rule, constraint by constraint: it is passed over exactly when it names another caller
      or action, or states something the query does not meet. */
  method RuleMatches(r: Rule, q: Query) returns (m: bool)
    ensures m == Matches(r, q)
    ensures !m <==>
            || r.caller != q.caller || r.action != q.action
            || (r.node.Some? && (q.node.None? || q.node.value != r.node.value))
            || (r.service.Some? && (q.service.None? || q.service.value != r.service.value))
            || (r.ports.Some? && (q.port.None? || q.port.value !in r.ports.value))
            || (r.proto.Some? && r.proto.value != q.proto)
            || (r.net.Some? && (q.ip.None? || q.ip.value < r.net.value.first || r.net.value.last < q.ip.value))
  {
    if r.caller != q.caller || r.action != q.action { return false; }
    if r.node.Some? && q.node != r.node { return false; }
    if r.service.Some? && q.service != r.service { return false; }
    if r.ports.Some? {
      if q.port.None? { return false; }
      if q.port.value !in r.ports.value { return false; }
    }
    if r.proto.Some? && r.proto.value != q.proto { return false; }
    if r.net.Some? {
      if q.ip.None? { return false; }
      if !Contains(r.net.value, q.ip.value) { return false; }
    }
    m := true;
  }

  /** First match decides; no match denies. */
  predicate Allowed(rules: seq<Rule>, q: Query)
  {
    rules != [] && if Matches(rules[0], q) then rules[0].allow else Allowed(rules[1..], q)
  }

  /** Some rule that covers the access allows it, and no rule before it covers it. */
  ghost predicate Granted(rules: seq<Rule>, covers: Rule -> bool)
  {
    exists i :: 0 <= i < |rules| && covers(rules[i]) && rules[i].allow && forall j :: 0 <= j < i ==> !covers(rules[j])
  }

  lemma GrantedTail(rules: seq<Rule>, covers: Rule -> bool)
    requires rules != []
    ensures Granted(rules, covers) <==> if covers(rules[0]) then rules[0].allow else Granted(rules[1..], covers)
  {
    assert forall i :: 0 <= i < |rules| - 1 ==> rules[1..][i] == rules[i + 1];
    if covers(rules[0]) {
      assert rules[0].allow ==> Granted(rules, covers);
    } else {
      if i :| 0 <= i < |rules| && covers(rules[i]) && rules[i].allow && forall j :: 0 <= j < i ==> !covers(rules[j]) {
        assert covers(rules[1..][i - 1]);
        assert forall j :: 0 <= j < i - 1 ==> !covers(rules[1..][j]);
      }
      if i :| 0 <= i < |rules| - 1 && covers(rules[1..][i]) && rules[1..][i].allow && forall j :: 0 <= j < i ==> !covers(rules[1..][j]) {
        forall j | 0 <= j < i + 1 ensures !covers(rules[j]) { if j > 0 { assert !covers(rules[1..][j - 1]); } }
        assert covers(rules[i + 1]);
      }
    }
  }

  /** The table allows exactly what its first covering rule allows. */
  lemma {:induction false} FirstMatchDecides(rules: seq<Rule>, q: Query)
    ensures Allowed(rules, q) <==> Granted(rules, (r: Rule) => Matches(r, q))
  {
    if rules != [] {
      FirstMatchDecides(rules[1..], q);
      GrantedTail(rules, (r: Rule) => Matches(r, q));
    }
  }

  /** The loop over the rules. */
  method CheckAcl(rules: seq<Rule>, q: Query) returns (allowed: bool)
    ensures allowed == Allowed(rules, q)
    ensures allowed <==> exists i :: 0 <= i < |rules| && Matches(rules[i], q) && rules[i].allow
                                     && forall j :: 0 <= j < i ==> !Matches(rules[j], q)
  {
    FirstMatchDecides(rules, q);
    for i := 0 to |rules|
      invariant forall j :: 0 <= j < i ==> !Matches(rules[j], q)
    {
      var m := RuleMatches(rules[i], q);
      if m { return rules[i].allow; }
    }
    allowed := false;
  }

  /** A narrow deny ahead of any rules takes its queries away and leaves the others alone. */
  lemma DenyAhead(deny: Rule, rules: seq<Rule>, q: Query)
    requires !deny.allow
    ensures Allowed([deny] + rules, q) <==> Allowed(rules, q) && !Matches(deny, q)
  {
    assert ([deny] + rules)[1..] == rules;
  }
}
