/** Single-use request proofs: the lazily pruned registry of used nonces
    (crates/wsnet-hub/src/bind.rs) behind `verify_binding` (crates/wsnet-hub/src/hub.rs). */
module BindRegistry {
  import opened Limits
  import opened Clocks
  import opened BindProof

  const PRUNE_INTERVAL: nat := 1024
  const BIND_NONCE_MAX: nat := 65_536

  // ---- the registry ----------------------------------------------------------

  datatype Used = Used(until: map<Bytes, nat>, sincePrune: nat)

  const NONE: Used := Used(map[], 0)

  function Unexpired(until: map<Bytes, nat>, mono: nat): map<Bytes, nat>
  {
    map n | n in until && until[n] > mono :: until[n]
  }

  predicate NeedsPrune(u: Used) { |u.until| >= BIND_NONCE_MAX || u.sincePrune >= PRUNE_INTERVAL }

  /** The records a claim is judged against. */
  function Facing(u: Used, mono: nat): map<Bytes, nat>
  {
    if NeedsPrune(u) then Unexpired(u.until, mono) else u.until
  }

  predicate Claimable(u: Used, nonce: Bytes, mono: nat)
  {
    nonce !in Facing(u, mono) && |Facing(u, mono)| < BIND_NONCE_MAX
  }

  function AfterClaim(u: Used, nonce: Bytes, expiresAt: int, now: Reading): Used
  {
    var facing := Facing(u, now.mono);
    Used(if Claimable(u, nonce, now.mono) then facing[nonce := Due(now, expiresAt)] else facing,
         if NeedsPrune(u) then 1 else u.sincePrune + 1)
  }

  lemma Fewer(until: map<Bytes, nat>, mono: nat)
    ensures |Unexpired(until, mono)| <= |until|
  {
    var (a, b) := (Unexpired(until, mono).Keys, until.Keys);
    assert b == a + (b - a);
  }

  class Registry {
    var used: map<Bytes, nat>
    var claimsSincePrune: nat

    ghost function State(): Used
      reads this
    {
      Used(used, claimsSincePrune)
    }

    constructor ()
      ensures State() == NONE
    {
      used, claimsSincePrune := map[], 0;
    }

    method Prune(now: Reading) returns (removed: nat)
      modifies this`used
      ensures used == Unexpired(old(used), now.mono)
      ensures |used| + removed == |old(used)|
    {
      var before := |used|;
      Fewer(used, now.mono);
      used := Unexpired(used, now.mono);
      removed := before - |used|;
    }

    /** Whether this caller is the first to use the nonce. */
    method Claim(nonce: Bytes, expiresAt: int, now: Reading) returns (first: bool)
      modifies this
      ensures first == Claimable(old(State()), nonce, now.mono)
      ensures State() == AfterClaim(old(State()), nonce, expiresAt, now)
    {
      if |used| >= BIND_NONCE_MAX || claimsSincePrune >= PRUNE_INTERVAL {
        var _ := Prune(now);
        claimsSincePrune := 0;
      }
      claimsSincePrune := claimsSincePrune + 1;
      if nonce in used { return false; }
      if |used| >= BIND_NONCE_MAX { return false; }
      used := used[nonce := Later(now.mono, expiresAt + 1 - now.wall)];
      first := true;
    }
  }

  // ---- verification ----------------------------------------------------------

  datatype Session = Session(epoch: Bytes, bindKey: Bytes, expiresAt: int, closed: bool)

  /** The Hub as one request meets it; `macOk` is the MAC verification. */
  datatype Hub = Hub(hubId: Bytes, sessions: map<Bytes, Session>, macOk: (Bytes, Bytes, Bytes) -> bool)

  datatype Request = Request(method_: Bytes, path: Bytes, header: string, bodyHash: Bytes)

  datatype Outcome = Accepted(proof: Proof) | Malformed(error: Error) | UnknownSession | Expired | BadMac | Replayed

  function TargetOf(hub: Hub, r: Request, p: Proof, s: Session): Target
  {
    Target(r.method_, r.path, hub.hubId, p.sessionId, s.epoch, p.channelId, p.bindNonce, r.bodyHash, p.expiresAt)
  }

  function JudgeProof(hub: Hub, r: Request, p: Proof, s: Session, wall: int): Outcome
  {
    if s.closed then UnknownSession
    else if p.expiresAt < wall then Expired
    else if p.expiresAt > s.expiresAt then Expired
    else if p.expiresAt - wall > BIND_PROOF_TTL_SECS then Expired
    else if !hub.macOk(s.bindKey, SigningInput(TargetOf(hub, r, p, s)), p.mac) then BadMac
    else Accepted(p)
  }

  /** Everything before the claim. */
  function Judge(hub: Hub, r: Request, wall: int): Outcome
  {
    match ParseOf(r.header)
    case Err(e) => Malformed(e)
    case Ok(p) => if p.sessionId !in hub.sessions then UnknownSession else JudgeProof(hub, r, p, hub.sessions[p.sessionId], wall)
  }

  function Verify(hub: Hub, u: Used, r: Request, now: Reading): Outcome
  {
    match Judge(hub, r, now.wall)
    case Accepted(p) => if Claimable(u, p.bindNonce, now.mono) then Accepted(p) else Replayed
    case refused => refused
  }

  function AfterVerify(hub: Hub, u: Used, r: Request, now: Reading): Used
  {
    match Judge(hub, r, now.wall)
    case Accepted(p) => AfterClaim(u, p.bindNonce, p.expiresAt, now)
    case _ => u
  }

  method VerifyBinding(hub: Hub, binds: Registry, r: Request, now: Reading) returns (o: Outcome)
    modifies binds
    ensures o == Verify(hub, old(binds.State()), r, now)
    ensures binds.State() == AfterVerify(hub, old(binds.State()), r, now)
  {
    var parsed := Parse(r.header);
    if parsed.Err? { return Malformed(parsed.error); }
    var p := parsed.proof;
    if p.sessionId !in hub.sessions { return UnknownSession; }
    var entry := hub.sessions[p.sessionId];
    if entry.closed { return UnknownSession; }
    if p.expiresAt < now.wall { return Expired; }
    if p.expiresAt > entry.expiresAt { return Expired; }
    if p.expiresAt - now.wall > BIND_PROOF_TTL_SECS { return Expired; }
    ParsedIsValid(r.header, p);
    var input := BuildSigningInput(TargetOf(hub, r, p, entry));
    if !hub.macOk(entry.bindKey, input, p.mac) { return BadMac; }
    var first := binds.Claim(p.bindNonce, p.expiresAt, now);
    o := if first then Accepted(p) else Replayed;
  }

  // ---- exactly when a request is accepted ------------------------------------

  /** The nonce is new to the registry, or was dropped by the prune this claim comes with, and
      there is room for it. */
  predicate Free(u: Used, nonce: Bytes, mono: nat)
  {
    var pruned := |u.until| >= BIND_NONCE_MAX || u.sincePrune >= PRUNE_INTERVAL;
    && (nonce in u.until ==> pruned && u.until[nonce] <= mono)
    && (|u.until| < BIND_NONCE_MAX || exists n <- u.until.Keys :: u.until[n] <= mono)
  }

  lemma FreeIsClaimable(u: Used, nonce: Bytes, mono: nat)
    requires |u.until| <= BIND_NONCE_MAX
    ensures Free(u, nonce, mono) <==> Claimable(u, nonce, mono)
  {
    var (a, b) := (Unexpired(u.until, mono).Keys, u.until.Keys);
    assert b == a + (b - a) && |a| == |Unexpired(u.until, mono)|;
    if n :| n in u.until && u.until[n] <= mono {
      assert n in b - a;
    } else {
      assert b - a == {};
    }
  }

  /** The header says a proof of an open session whose expiry has come neither too late nor too
      early: not past, not after the session's own, at most 30 seconds ahead. */
  ghost predicate InOrder(hub: Hub, r: Request, p: Proof, wall: int)
  {
    && ParseOf(r.header) == Ok(p) && p.sessionId in hub.sessions && !hub.sessions[p.sessionId].closed
    && wall <= p.expiresAt <= hub.sessions[p.sessionId].expiresAt && p.expiresAt <= wall + 30
  }

  /** The MAC verifies for this method, path, body and expiry, this Hub and this session. */
  predicate Vouched(hub: Hub, r: Request, p: Proof)
    requires p.sessionId in hub.sessions
  {
    var s := hub.sessions[p.sessionId];
    hub.macOk(s.bindKey,
              SigningInput(Target(r.method_, r.path, hub.hubId, p.sessionId, s.epoch, p.channelId, p.bindNonce, r.bodyHash, p.expiresAt)),
              p.mac)
  }

  /** A request is accepted exactly when its proof is in order, vouched for, and its nonce free. */
  lemma AcceptedExactly(hub: Hub, u: Used, r: Request, now: Reading, p: Proof)
    requires |u.until| <= BIND_NONCE_MAX
    ensures Verify(hub, u, r, now) == Accepted(p) <==>
            InOrder(hub, r, p, now.wall) && Vouched(hub, r, p) && Free(u, p.bindNonce, now.mono)
  {
    FreeIsClaimable(u, p.bindNonce, now.mono);
  }

  /** And otherwise what is named is the first check that fails. */
  lemma RefusedExactly(hub: Hub, u: Used, r: Request, now: Reading)
    requires |u.until| <= BIND_NONCE_MAX
    ensures var o, wall := Verify(hub, u, r, now), now.wall;
            if ParseOf(r.header).Err? then o == Malformed(ParseOf(r.header).error)
            else
              var p := ParseOf(r.header).proof;
              var open := p.sessionId in hub.sessions && !hub.sessions[p.sessionId].closed;
              && (o == UnknownSession <==> !open)
              && (o == Expired <==> open && !InOrder(hub, r, p, wall))
              && (o == BadMac <==> InOrder(hub, r, p, wall) && !Vouched(hub, r, p))
              && (o == Replayed <==> InOrder(hub, r, p, wall) && Vouched(hub, r, p) && !Free(u, p.bindNonce, now.mono))
              && !o.Malformed?
  {
    if ParseOf(r.header).Ok? { FreeIsClaimable(u, ParseOf(r.header).proof.bindNonce, now.mono); }
  }

  /** What a claim leaves in the registry: a record dropped is past, and when a prune was due
      every past one goes; a claim that succeeds is retained until one second past its expiry. */
  lemma ClaimLeavesExactly(u: Used, nonce: Bytes, expiresAt: int, now: Reading)
    requires |u.until| <= BIND_NONCE_MAX
    ensures var after := AfterClaim(u, nonce, expiresAt, now);
            var due := |u.until| >= BIND_NONCE_MAX || u.sincePrune >= 1024;
            && (forall n <- u.until.Keys | n != nonce :: n in after.until <==> !due || u.until[n] > now.mono)
            && (forall n <- after.until.Keys | n != nonce :: n in u.until && after.until[n] == u.until[n])
            && (Free(u, nonce, now.mono) ==>
                  nonce in after.until && after.until[nonce] == Min(U64_MAX, now.mono + 1000 * Max(0, expiresAt + 1 - now.wall)))
            && (!Free(u, nonce, now.mono) ==> after.until == u.until || (due && forall n <- after.until.Keys :: n in u.until && after.until[n] == u.until[n]))
            && after.sincePrune == if due then 1 else u.sincePrune + 1
  {
    FreeIsClaimable(u, nonce, now.mono);
  }

  /** Only a request that is in order and vouched for claims. */
  lemma OnlyVouchedClaim(hub: Hub, u: Used, r: Request, now: Reading, p: Proof)
    requires ParseOf(r.header) == Ok(p)
    ensures AfterVerify(hub, u, r, now) ==
            if InOrder(hub, r, p, now.wall) && Vouched(hub, r, p) then AfterClaim(u, p.bindNonce, p.expiresAt, now) else u
  {
  }

  // ---- what acceptance means -------------------------------------------------

  /** Every tag that verifies was made by a key holder for that very input. */
  ghost predicate Unforged(hub: Hub, signed: set<(Bytes, Target)>)
  {
    && (forall s <- signed :: ValidTarget(s.1))
    && forall key, input, tag :: hub.macOk(key, input, tag) ==>
         exists s <- signed :: s.0 == key && SigningInput(s.1) == input
  }

  /** An accepted request is the one some holder of the session's key signed: same method,
      path, body, Hub, session, epoch, channel, nonce and expiry. */
  lemma AcceptedWasSigned(hub: Hub, signed: set<(Bytes, Target)>, u: Used, r: Request, now: Reading)
    requires Unforged(hub, signed) && Verify(hub, u, r, now).Accepted?
    requires |r.method_| < 0x1_0000_0000 && |r.path| < 0x1_0000_0000 && |hub.hubId| < 0x1_0000_0000 && |r.bodyHash| == 32
    requires forall id <- hub.sessions.Keys :: |hub.sessions[id].epoch| == 16
    ensures var p := Verify(hub, u, r, now).proof;
            && p.sessionId in hub.sessions
            && var s := hub.sessions[p.sessionId];
               exists t <- signed :: t.0 == s.bindKey && Signed(t.1) == Signed(TargetOf(hub, r, p, s))
  {
    var p := Verify(hub, u, r, now).proof;
    var s := hub.sessions[p.sessionId];
    var here := TargetOf(hub, r, p, s);
    ParsedIsValid(r.header, p);
    var t :| t in signed && t.0 == s.bindKey && SigningInput(t.1) == SigningInput(here);
    SigningInputIsInjective(t.1, here);
  }

  // ---- whole runs ------------------------------------------------------------

  /** Sessions open, close and expire between requests, so each request brings its Hub. */
  datatype Step = Present(hub: Hub, request: Request, now: Reading) | Prune(now: Reading)

  type Ticket = (Bytes, int)

  datatype World = World(used: Used, clock: Clock, log: seq<Ticket>)

  function Fresh(start: Reading): World { World(NONE, Start(start), []) }

  function Ticketed(o: Outcome): seq<Ticket> { if o.Accepted? then [(o.proof.bindNonce, o.proof.expiresAt)] else [] }

  function Next(w: World, s: Step): World
  {
    match s
    case Prune(now) => w.(used := w.used.(until := Unexpired(w.used.until, now.mono)), clock := Tick(w.clock, now))
    case Present(hub, r, now) =>
      World(AfterVerify(hub, w.used, r, now), Tick(w.clock, now), w.log + Ticketed(Verify(hub, w.used, r, now)))
  }

  function Run(w: World, steps: seq<Step>): World
    decreases |steps|
  {
    if steps == [] then w else Run(Next(w, steps[0]), steps[1..])
  }

  predicate SteadyRun(w: World, steps: seq<Step>)
    decreases |steps|
  {
    steps != [] ==> Ticks(w.clock, steps[0].now) && SteadyRun(Next(w, steps[0]), steps[1..])
  }

  function Times(steps: seq<Step>): seq<Reading> { seq(|steps|, i requires 0 <= i < |steps| => steps[i].now) }

  /** The readings of a run, from its start. */
  function Readings(start: Reading, steps: seq<Step>): seq<Reading> { [start] + Times(steps) }

  /** A run is steady exactly when every two of its readings follow each other: the clock a
      world remembers checks each reading against all before it. */
  lemma {:induction false} SteadyIsPairwise(past: seq<Reading>, w: World, steps: seq<Step>)
    requires past != [] && Pairwise(past) && w.clock == Clocked(past)
    ensures SteadyRun(w, steps) <==> Pairwise(past + Times(steps))
    decreases |steps|
  {
    if steps == [] {
      assert past + Times(steps) == past;
    } else {
      var r, rest := steps[0].now, Times(steps[1..]);
      assert past + Times(steps) == (past + [r]) + rest;
      PairwiseTicks(past, r);
      ClockedMore(past, r);
      if Ticks(w.clock, r) {
        SteadyIsPairwise(past + [r], Next(w, steps[0]), steps[1..]);
      } else if Pairwise(past + Times(steps)) {
        PairwisePrefix(past + [r], rest);
      }
    }
  }

  lemma ReadingsSteady(start: Reading, steps: seq<Step>)
    requires Pairwise(Readings(start, steps))
    ensures start.mono < U64_MAX && SteadyRun(Fresh(start), steps)
  {
    assert start in Readings(start, steps);
    PairwisePrefix([start], Times(steps));
    SteadyIsPairwise([start], Fresh(start), steps);
  }

  /** A used ticket is past, or its nonce is retained until it is. */
  predicate Shielded(until: map<Bytes, nat>, clock: Clock, t: Ticket)
  {
    t.1 < clock.last.wall || (t.0 in until && Covers(clock, until[t.0], t.1))
  }

  predicate AllShielded(until: map<Bytes, nat>, clock: Clock, log: seq<Ticket>)
  {
    forall t <- log :: Shielded(until, clock, t)
  }

  predicate NoTwice(log: seq<Ticket>) { forall i, j :: 0 <= i < j < |log| ==> log[i] != log[j] }

  predicate WasUsed(log: seq<Ticket>, n: Bytes) { exists t <- log :: t.0 == n }

  /** Every retained nonce was used. */
  predicate Earned(until: map<Bytes, nat>, log: seq<Ticket>) { forall n <- until.Keys :: WasUsed(log, n) }

  predicate Inv(w: World)
  {
    && Going(w.clock) && AllShielded(w.used.until, w.clock, w.log) && NoTwice(w.log)
    && Earned(w.used.until, w.log) && |w.used.until| <= BIND_NONCE_MAX
  }

  lemma UnexpiredShields(until: map<Bytes, nat>, clock: Clock, now: Reading, t: Ticket)
    requires Going(clock) && Ticks(clock, now) && Shielded(until, clock, t)
    ensures Shielded(until, Tick(clock, now), t) && Shielded(Unexpired(until, now.mono), Tick(clock, now), t)
  {
    if t.0 in until && until[t.0] <= now.mono && Covers(clock, until[t.0], t.1) {
      ForgottenIsPast(Tick(clock, now), until[t.0], t.1);
    }
  }

  /** A claim that succeeds is of a ticket never used before, and the used ones stay shielded. */
  lemma ClaimShields(u: Used, clock: Clock, now: Reading, nonce: Bytes, expiresAt: int, t: Ticket)
    requires Going(clock) && Ticks(clock, now) && Shielded(u.until, clock, t) && expiresAt >= now.wall
    ensures Shielded(AfterClaim(u, nonce, expiresAt, now).until, Tick(clock, now), t)
    ensures Claimable(u, nonce, now.mono) ==> t != (nonce, expiresAt)
  {
    UnexpiredShields(u.until, clock, now, t);
  }

  lemma EarnedMore(until: map<Bytes, nat>, log: seq<Ticket>, t: Ticket, due: nat)
    requires Earned(until, log)
    ensures Earned(until[t.0 := due], log + [t])
  {
    forall n <- until[t.0 := due].Keys ensures WasUsed(log + [t], n) {
      if n == t.0 {
        assert t in log + [t];
      } else {
        var s :| s in log && s.0 == n;
        assert s in log + [t];
      }
    }
  }

  lemma ClaimKeeps(u: Used, clock: Clock, log: seq<Ticket>, nonce: Bytes, expiresAt: int, now: Reading)
    requires Going(clock) && Ticks(clock, now) && expiresAt >= now.wall
    requires AllShielded(u.until, clock, log) && NoTwice(log) && Earned(u.until, log) && |u.until| <= BIND_NONCE_MAX
    ensures var after := AfterClaim(u, nonce, expiresAt, now).until;
            var log' := if Claimable(u, nonce, now.mono) then log + [(nonce, expiresAt)] else log;
            && AllShielded(after, Tick(clock, now), log') && NoTwice(log')
            && Earned(after, log') && |after| <= BIND_NONCE_MAX
  {
    var after := AfterClaim(u, nonce, expiresAt, now).until;
    Fewer(u.until, now.mono);
    forall t <- log
      ensures Shielded(after, Tick(clock, now), t) && (Claimable(u, nonce, now.mono) ==> t != (nonce, expiresAt))
    {
      ClaimShields(u, clock, now, nonce, expiresAt, t);
    }
    if Claimable(u, nonce, now.mono) {
      DueCovers(Tick(clock, now), now, expiresAt);
      EarnedMore(Facing(u, now.mono), log, (nonce, expiresAt), Due(now, expiresAt));
      assert forall i :: 0 <= i < |log| ==> log[i] in log;
    }
  }

  lemma PresentKeeps(w: World, hub: Hub, r: Request, now: Reading)
    requires Inv(w) && Ticks(w.clock, now)
    ensures Inv(Next(w, Present(hub, r, now)))
  {
    match Judge(hub, r, now.wall) {
      case Accepted(p) =>
        ClaimKeeps(w.used, w.clock, w.log, p.bindNonce, p.expiresAt, now);
        assert w.log + [] == w.log;
      case _ =>
        assert w.log + [] == w.log;
        forall t <- w.log ensures Shielded(w.used.until, Tick(w.clock, now), t) {
          UnexpiredShields(w.used.until, w.clock, now, t);
        }
    }
  }

  lemma NextKeeps(w: World, s: Step)
    requires Inv(w) && Ticks(w.clock, s.now)
    ensures Inv(Next(w, s))
  {
    match s {
      case Prune(now) =>
        Fewer(w.used.until, now.mono);
        forall t <- w.log ensures Shielded(Unexpired(w.used.until, now.mono), Tick(w.clock, now), t) {
          UnexpiredShields(w.used.until, w.clock, now, t);
        }
      case Present(hub, r, now) => PresentKeeps(w, hub, r, now);
    }
  }

  lemma {:induction false} RunKeeps(w: World, steps: seq<Step>)
    requires Inv(w) && SteadyRun(w, steps)
    ensures Inv(Run(w, steps))
    decreases |steps|
  {
    if steps != [] {
      NextKeeps(w, steps[0]);
      RunKeeps(Next(w, steps[0]), steps[1..]);
    }
  }

  /** In every run no ticket is accepted twice, although records are forgotten lazily, and
      at most `BIND_NONCE_MAX` records are held. */
  lemma AcceptedAtMostOnce(start: Reading, steps: seq<Step>)
    requires Pairwise(Readings(start, steps))
    ensures NoTwice(Run(Fresh(start), steps).log)
    ensures |Run(Fresh(start), steps).used.until| <= BIND_NONCE_MAX
  {
    ReadingsSteady(start, steps);
    RunKeeps(Fresh(start), steps);
  }

  /** No unexpired record is missing in `after`. */
  predicate KeepsUnexpired(until: map<Bytes, nat>, after: map<Bytes, nat>, mono: nat)
  {
    forall n <- until.Keys | until[n] > mono :: n in after && after[n] == until[n]
  }

  lemma FullMeansUnexpired(u: Used, mono: nat)
    requires |u.until| <= BIND_NONCE_MAX && |Facing(u, mono)| >= BIND_NONCE_MAX
    ensures |u.until| == BIND_NONCE_MAX && forall n <- u.until.Keys :: u.until[n] > mono
  {
    var (a, b) := (Unexpired(u.until, mono).Keys, u.until.Keys);
    assert b == a + (b - a);
  }

  lemma RefusedClaim(w: World, nonce: Bytes, expiresAt: int, now: Reading)
    requires Inv(w) && !Claimable(w.used, nonce, now.mono)
    ensures WasUsed(w.log, nonce)
            || (|w.used.until| == BIND_NONCE_MAX && forall n <- w.used.until.Keys :: w.used.until[n] > now.mono)
    ensures KeepsUnexpired(w.used.until, AfterClaim(w.used, nonce, expiresAt, now).until, now.mono)
  {
    if |Facing(w.used, now.mono)| >= BIND_NONCE_MAX { FullMeansUnexpired(w.used, now.mono); }
  }

  lemma ReplayedMeansClaimed(w: World, hub: Hub, r: Request, now: Reading)
    requires Inv(w) && Verify(hub, w.used, r, now).Replayed?
    ensures ParseOf(r.header).Ok?
    ensures WasUsed(w.log, ParseOf(r.header).proof.bindNonce)
            || (|w.used.until| == BIND_NONCE_MAX && forall n <- w.used.until.Keys :: w.used.until[n] > now.mono)
    ensures KeepsUnexpired(w.used.until, AfterVerify(hub, w.used, r, now).until, now.mono)
  {
    var p := ParseOf(r.header).proof;
    RefusedClaim(w, p.bindNonce, p.expiresAt, now);
  }

  /** A refusal for reuse is always justified: the nonce was really used, or the registry is
      full of unexpired records; and it drops no unexpired record. */
  lemma RefusalIsJustified(start: Reading, steps: seq<Step>, hub: Hub, r: Request, now: Reading)
    requires Pairwise(Readings(start, steps))
    requires Verify(hub, Run(Fresh(start), steps).used, r, now).Replayed?
    ensures var w := Run(Fresh(start), steps);
            && ParseOf(r.header).Ok?
            && (WasUsed(w.log, ParseOf(r.header).proof.bindNonce)
                || (|w.used.until| == BIND_NONCE_MAX && forall n <- w.used.until.Keys :: w.used.until[n] > now.mono))
            && KeepsUnexpired(w.used.until, AfterVerify(hub, w.used, r, now).until, now.mono)
  {
    ReadingsSteady(start, steps);
    RunKeeps(Fresh(start), steps);
    ReplayedMeansClaimed(Run(Fresh(start), steps), hub, r, now);
  }
}
