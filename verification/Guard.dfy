/** Connection and authentication budgets per source (crates/wsnet-hub/src/guard.rs), with
    tokens counted in thousandths. */
module Guard {
  import opened Limits

  const TOKEN: nat := 1000

  const FULL: nat := AUTH_BURST * TOKEN

  /** What a stretch of time refills. */
  function Refill(ms: nat): nat { ms * AUTH_RATE_PER_SEC }

  // ---- one source's bucket over all its calls --------------------------------

  /** What the bucket holds at the last of the calls, before that call spends. */
  function Level(times: seq<nat>): nat
    requires times != []
    decreases |times|, 0
  {
    var n := |times| - 1;
    if n == 0 then FULL
    else Min(FULL, Left(times[..n]) + Refill(Minus(times[n], times[n - 1])))
  }

  predicate Allowed(times: seq<nat>)
    requires times != []
    decreases |times|, 1
  {
    Level(times) >= TOKEN
  }

  function Left(times: seq<nat>): nat
    requires times != []
    decreases |times|, 2
  {
    if Allowed(times) then Level(times) - TOKEN else Level(times)
  }

  /** How many of the calls from `i` on were allowed. */
  function Spent(times: seq<nat>, i: nat): nat
  {
    var n := |times|;
    if n <= i then 0 else Spent(times[..n - 1], i) + if Allowed(times) then 1 else 0
  }

  /** How far the clock has moved forward from call `i` to the last one; steps back, which
      calls whose clock was read before the lock can show, count for nothing. */
  function Forward(times: seq<nat>, i: nat): nat
  {
    var n := |times| - 1;
    if n <= i then 0 else Forward(times[..n], i) + Minus(times[n], times[n - 1])
  }

  /** What the budget of the window that starts at call `i` still holds at the last call. */
  function Headroom(times: seq<nat>, i: nat): int
    requires i < |times|
  {
    FULL + Refill(Forward(times, i)) - TOKEN * Spent(times[..|times| - 1], i)
  }

  lemma HeadroomShifts(times: seq<nat>, i: nat)
    requires i < |times| - 1
    ensures var n := |times| - 1;
            Headroom(times, i) == Headroom(times[..n], i) + Refill(Minus(times[n], times[n - 1]))
                                  - if Allowed(times[..n]) then TOKEN else 0
  {
    var n := |times| - 1;
    assert times[..n][..n - 1] == times[..n - 1];
  }

  /** The bucket is the tightest of all window budgets. */
  lemma {:induction false} LevelIsTightest(times: seq<nat>) returns (tight: nat)
    requires times != []
    ensures forall i :: 0 <= i < |times| ==> Level(times) <= Headroom(times, i)
    ensures tight < |times| && Level(times) == Headroom(times, tight)
  {
    var n := |times| - 1;
    assert Headroom(times, n) == FULL;
    tight := n;
    if n > 0 {
      var before := LevelIsTightest(times[..n]);
      HeadroomShifts(times, before);
      forall i | 0 <= i < n ensures Level(times) <= Headroom(times, i) { HeadroomShifts(times, i); }
      if Level(times) < FULL { tight := before; }
    }
  }

  /** One more allowed call keeps the window from call `i` within the burst plus what its
      length refills. */
  predicate RoomFrom(times: seq<nat>, i: nat)
    requires i < |times|
  {
    1000 * (Spent(times[..|times| - 1], i) + 1) <= 1000 * AUTH_BURST + AUTH_RATE_PER_SEC * Forward(times, i)
  }

  lemma RoomIsHeadroom(times: seq<nat>, i: nat)
    requires i < |times|
    ensures RoomFrom(times, i) <==> Headroom(times, i) >= TOKEN
  {}

  /** A call is allowed exactly when every window ending at it has room for it: the bucket
      never refuses without need. */
  lemma AllowedExactlyWithinEveryWindow(times: seq<nat>)
    requires times != []
    ensures Allowed(times) <==> forall i :: 0 <= i < |times| ==> RoomFrom(times, i)
  {
    var tight := LevelIsTightest(times);
    RoomIsHeadroom(times, tight);
    if Allowed(times) {
      forall i | 0 <= i < |times| ensures RoomFrom(times, i) {
        assert Level(times) <= Headroom(times, i);
        RoomIsHeadroom(times, i);
      }
    }
  }

  /** Between any two calls of any sequence, at most the burst and the rate's worth of the
      forward movement of the clock are allowed. */
  lemma WindowBound(times: seq<nat>, i: nat, j: nat)
    requires i <= j < |times|
    ensures 1000 * Spent(times[..j + 1], i) <= 1000 * AUTH_BURST + AUTH_RATE_PER_SEC * Forward(times[..j + 1], i)
  {
    var upTo := times[..j + 1];
    var _ := LevelIsTightest(upTo);
    assert Level(upTo) <= Headroom(upTo, i);
  }

  predicate Nondecreasing(times: seq<nat>) { forall i, j :: 0 <= i < j < |times| ==> times[i] <= times[j] }

  lemma {:induction false} ForwardIsElapsed(times: seq<nat>, i: nat)
    requires Nondecreasing(times) && i < |times|
    ensures Forward(times, i) == times[|times| - 1] - times[i]
  {
    if i < |times| - 1 { ForwardIsElapsed(times[..|times| - 1], i); }
  }

  /** For calls in time order that movement is the time elapsed. */
  lemma OrderedWindowBound(times: seq<nat>, i: nat, j: nat)
    requires Nondecreasing(times) && i <= j < |times|
    ensures 1000 * Spent(times[..j + 1], i) <= 1000 * AUTH_BURST + AUTH_RATE_PER_SEC * (times[j] - times[i])
  {
    WindowBound(times, i, j);
    ForwardIsElapsed(times[..j + 1], i);
  }

  // ---- the guards ------------------------------------------------------------

  type Ip = Bytes

  datatype Bucket = Bucket(tokens: nat, lastMs: nat)

  predicate Holds(b: Bucket, times: seq<nat>)
    requires times != []
  {
    b == Bucket(Left(times), times[|times| - 1])
  }

  predicate AllHold(buckets: map<Ip, Bucket>, calls: map<Ip, seq<nat>>)
  {
    buckets.Keys == calls.Keys && forall ip <- buckets.Keys :: calls[ip] != [] && Holds(buckets[ip], calls[ip])
  }

  lemma HoldsMore(buckets: map<Ip, Bucket>, calls: map<Ip, seq<nat>>, ip: Ip, b: Bucket, times: seq<nat>)
    requires AllHold(buckets, calls) && times != [] && Holds(b, times)
    ensures AllHold(buckets[ip := b], calls[ip := times])
  {
  }

  lemma SpendHolds(b: Bucket, past: seq<nat>, now: nat, left: nat)
    requires if past == [] then b == Bucket(FULL, now) else Holds(b, past)
    requires var level := Min(b.tokens + Minus(now, b.lastMs) * AUTH_RATE_PER_SEC, FULL);
             left == if level >= TOKEN then level - TOKEN else level
    ensures var times := past + [now];
            Holds(Bucket(left, now), times)
            && (Allowed(times) <==> Min(b.tokens + Minus(now, b.lastMs) * AUTH_RATE_PER_SEC, FULL) >= TOKEN)
  {
    assert (past + [now])[..|past|] == past;
  }

  class DosGuards {
    var connections: map<Ip, nat>
    var buckets: map<Ip, Bucket>
    ghost var live: multiset<Ip>          // one per connection guard not yet dropped
    ghost var calls: map<Ip, seq<nat>>    // when each source tried to authenticate

    /** Charges are exactly the live guards, without empty entries, within the cap; each
        bucket is what its source's calls left. */
    ghost predicate Valid()
      reads this
    {
      && (forall ip <- connections.Keys :: connections[ip] == live[ip] > 0)
      && (forall ip <- live :: ip in connections && live[ip] <= MAX_UNAUTH_CONNECTIONS_PER_IP)
      && AllHold(buckets, calls)
    }

    constructor ()
      ensures Valid() && live == multiset{} && calls == map[]
    {
      connections, buckets, live, calls := map[], map[], multiset{}, map[];
    }

    method BeginUnauthenticated(ip: Ip) returns (charged: bool)
      requires Valid()
      modifies this`connections, this`live
      ensures Valid()
      ensures charged <==> old(live)[ip] < MAX_UNAUTH_CONNECTIONS_PER_IP
      ensures live == if charged then old(live) + multiset{ip} else old(live)
    {
      var count := if ip in connections then connections[ip] else 0;
      assert count == live[ip];
      if count >= MAX_UNAUTH_CONNECTIONS_PER_IP { return false; }
      connections := connections[ip := count + 1];
      live := live + multiset{ip};
      charged := true;
    }

    /** The guard of a connection is dropped. */
    method Release(ip: Ip)
      requires Valid() && ip in live
      modifies this`connections, this`live
      ensures Valid() && live == old(live) - multiset{ip}
    {
      if ip in connections {
        var count := Minus(connections[ip], 1);
        if count == 0 {
          connections := connections - {ip};
        } else {
          connections := connections[ip := count];
        }
      }
      live := live - multiset{ip};
    }

    method SpendAuthToken(ip: Ip, now: nat) returns (ok: bool)
      requires Valid()
      modifies this`buckets, this`calls
      ensures Valid()
      ensures calls == old(calls)[ip := (if ip in old(calls) then old(calls)[ip] else []) + [now]]
      ensures ok == Allowed(calls[ip])
    {
      var bucket := if ip in buckets then buckets[ip] else Bucket(FULL, now);
      ghost var past := if ip in calls then calls[ip] else [];
      var elapsed := Minus(now, bucket.lastMs);
      var tokens := Min(bucket.tokens + elapsed * AUTH_RATE_PER_SEC, FULL);
      ok := tokens >= TOKEN;
      if ok { tokens := tokens - TOKEN; }
      SpendHolds(bucket, past, now, tokens);
      HoldsMore(buckets, calls, ip, Bucket(tokens, now), past + [now]);
      buckets := buckets[ip := Bucket(tokens, now)];
      calls := calls[ip := past + [now]];
    }
  }
}
