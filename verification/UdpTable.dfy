/** The UDP association table (crates/wsnet-forward/src/udp.rs). */
module UdpTable {
  import opened Limits

  datatype Source = Source(ip: Bytes, port: nat)

  datatype Bounds = Bounds(maxAssociations: nat, maxDatagrams: nat, maxBytes: nat, ttl: nat, idle: nat)

  datatype Datagram = Datagram(payload: Bytes, at: nat)

  datatype Association = Association(lastSeen: nat, queue: seq<Datagram>, queuedBytes: nat, dropped: nat, expired: nat)

  datatype Disposition = Queued | AssociationLimit | QueueFull | PayloadTooLarge

  type Associations = map<Source, Association>

  datatype State = State(associations: Associations, droppedOverLimit: nat)

  // ---- one association -------------------------------------------------------

  function Total(q: seq<Datagram>): nat
  {
    if q == [] then 0 else |q[0].payload| + Total(q[1..])
  }

  /** Past its queue TTL; `duration_since` saturates at zero. */
  predicate Stale(b: Bounds, d: Datagram, now: nat) { Minus(now, d.at) > b.ttl }

  predicate Idle(b: Bounds, a: Association, now: nat) { Minus(now, a.lastSeen) > b.idle }

  predicate HasRoom(b: Bounds, a: Association, payload: Bytes)
  {
    |a.queue| < b.maxDatagrams && a.queuedBytes + |payload| <= b.maxBytes
  }

  function Offer(b: Bounds, a: Association, payload: Bytes, now: nat): Association
  {
    var seen := a.(lastSeen := now);
    if !HasRoom(b, a, payload) then seen.(dropped := a.dropped + 1)
    else seen.(queuedBytes := a.queuedBytes + |payload|, queue := a.queue + [Datagram(payload, now)])
  }

  datatype Popped = Popped(association: Association, got: Option<Datagram>)

  function Pop(b: Bounds, a: Association, now: nat): Popped
    decreases |a.queue|
  {
    if a.queue == [] then Popped(a, None)
    else
      var front := a.queue[0];
      var rest := a.(queue := a.queue[1..], queuedBytes := Minus(a.queuedBytes, |front.payload|));
      if Stale(b, front, now) then Pop(b, rest.(expired := a.expired + 1), now) else Popped(rest, Some(front))
  }

  function Keep(b: Bounds, q: seq<Datagram>, now: nat): seq<Datagram>
  {
    if q == [] then []
    else if Stale(b, q[0], now) then Keep(b, q[1..], now)
    else [q[0]] + Keep(b, q[1..], now)
  }

  function Swept(b: Bounds, a: Association, now: nat): Association
  {
    var kept := Keep(b, a.queue, now);
    if |kept| >= |a.queue| then a
    else a.(queue := kept, expired := a.expired + |a.queue| - |kept|, queuedBytes := Total(kept))
  }

  // ---- the table -------------------------------------------------------------

  function Lively(b: Bounds, m: Associations, now: nat): Associations
  {
    map s | s in m && !Idle(b, m[s], now) :: m[s]
  }

  /** The associations an arriving datagram meets: a full table reclaims first. */
  function Facing(b: Bounds, m: Associations, s: Source, now: nat): Associations
  {
    if s !in m && |m| >= b.maxAssociations then Lively(b, m, now) else m
  }

  predicate Refused(b: Bounds, m: Associations, s: Source, now: nat)
  {
    s !in m && |Facing(b, m, s, now)| >= b.maxAssociations
  }

  function Tracked(m: Associations, s: Source, now: nat): Association
  {
    if s in m then m[s] else Association(now, [], 0, 0, 0)
  }

  function Verdict(b: Bounds, t: State, s: Source, payload: Bytes, now: nat): Disposition
  {
    if |payload| > UDP_MAX_PAYLOAD_DEFAULT then PayloadTooLarge
    else if Refused(b, t.associations, s, now) then AssociationLimit
    else if HasRoom(b, Tracked(t.associations, s, now), payload) then Queued
    else QueueFull
  }

  function AfterEnqueue(b: Bounds, t: State, s: Source, payload: Bytes, now: nat): State
  {
    var facing := Facing(b, t.associations, s, now);
    if |payload| > UDP_MAX_PAYLOAD_DEFAULT then t
    else if Refused(b, t.associations, s, now) then State(facing, t.droppedOverLimit + 1)
    else t.(associations := facing[s := Offer(b, Tracked(facing, s, now), payload, now)])
  }

  function AfterPop(b: Bounds, t: State, s: Source, now: nat): State
  {
    if s !in t.associations then t
    else t.(associations := t.associations[s := Pop(b, t.associations[s].(lastSeen := now), now).association])
  }

  function SweptAll(b: Bounds, m: Associations, now: nat): Associations { map s | s in m :: Swept(b, m[s], now) }

  function AfterSweep(b: Bounds, t: State, now: nat): State
  {
    t.(associations := Lively(b, SweptAll(b, t.associations, now), now))
  }

  function AfterForget(t: State, s: Source): State { t.(associations := t.associations - {s}) }

  // ---- counts and bytes ------------------------------------------------------

  /** The byte counter is exact and both queue bounds hold. */
  predicate Counted(b: Bounds, a: Association)
  {
    a.queuedBytes == Total(a.queue) <= b.maxBytes && |a.queue| <= b.maxDatagrams
  }

  lemma {:induction false} TotalAppend(q: seq<Datagram>, d: Datagram)
    ensures Total(q + [d]) == Total(q) + |d.payload|
  {
    if q == [] {
      assert q + [d] == [d];
    } else {
      assert (q + [d])[1..] == q[1..] + [d];
      TotalAppend(q[1..], d);
    }
  }

  lemma OfferCounted(b: Bounds, a: Association, payload: Bytes, now: nat)
    requires Counted(b, a)
    ensures Counted(b, Offer(b, a, payload, now))
  {
    TotalAppend(a.queue, Datagram(payload, now));
  }

  lemma {:induction false} PopCounted(b: Bounds, a: Association, now: nat)
    requires Counted(b, a)
    ensures Counted(b, Pop(b, a, now).association) && Pop(b, a, now).association.lastSeen == a.lastSeen
    decreases |a.queue|
  {
    if a.queue != [] && Stale(b, a.queue[0], now) {
      PopCounted(b, a.(queue := a.queue[1..], queuedBytes := Minus(a.queuedBytes, |a.queue[0].payload|), expired := a.expired + 1), now);
    }
  }

  lemma {:induction false} KeepShrinks(b: Bounds, q: seq<Datagram>, now: nat)
    ensures |Keep(b, q, now)| <= |q| && Total(Keep(b, q, now)) <= Total(q)
    ensures |Keep(b, q, now)| == |q| ==> Keep(b, q, now) == q
  {
    if q != [] {
      KeepShrinks(b, q[1..], now);
      assert q == [q[0]] + q[1..];
    }
  }

  lemma SweptCounted(b: Bounds, a: Association, now: nat)
    requires Counted(b, a)
    ensures Counted(b, Swept(b, a, now)) && Swept(b, a, now).queue == Keep(b, a.queue, now)
    ensures Swept(b, a, now).lastSeen == a.lastSeen
  {
    KeepShrinks(b, a.queue, now);
  }

  // ---- exactly what the calls do ---------------------------------------------

  /** The table as an arriving datagram of a new source meets it when it is full: without the
      sources not heard of for longer than the idle limit. */
  function StillHeard(b: Bounds, m: Associations, now: nat): set<Source> { set s | s in m && now <= m[s].lastSeen + b.idle }

  lemma LivelyIsHeard(b: Bounds, m: Associations, now: nat)
    ensures Lively(b, m, now).Keys == StillHeard(b, m, now)
    ensures forall s <- StillHeard(b, m, now) :: Lively(b, m, now)[s] == m[s]
  {
  }

  /** What becomes of an arriving datagram, each answer exactly when its check is the first to
      fail: its size, room for its source, room in its source's queue. */
  lemma EnqueueAnswersExactly(b: Bounds, t: State, s: Source, payload: Bytes, now: nat)
    ensures var d, m := Verdict(b, t, s, payload, now), t.associations;
            var small := |payload| <= 61_440;
            var known := s in m || |m| < b.maxAssociations || |StillHeard(b, m, now)| < b.maxAssociations;
            var queue := if s in m then m[s].queue else [];
            var bytes := if s in m then m[s].queuedBytes else 0;
            var room := |queue| < b.maxDatagrams && bytes + |payload| <= b.maxBytes;
            && (d == PayloadTooLarge <==> !small)
            && (d == AssociationLimit <==> small && !known)
            && (d == QueueFull <==> small && known && !room)
            && (d == Queued <==> small && known && room)
  {
    LivelyIsHeard(b, t.associations, now);
    assert |Lively(b, t.associations, now)| == |Lively(b, t.associations, now).Keys|;
  }

  /** And what it leaves behind: a queued datagram at the end of its source's queue with its time;
      a refused one in the counters; every other source as it was, save that a new source at a
      full table clears away those not heard of. */
  lemma EnqueueLeavesExactly(b: Bounds, t: State, s: Source, payload: Bytes, now: nat)
    ensures var d, m, t' := Verdict(b, t, s, payload, now), t.associations, AfterEnqueue(b, t, s, payload, now);
            var a := if s in m then m[s] else Association(now, [], 0, 0, 0);
            var clears := d != PayloadTooLarge && s !in m && |m| >= b.maxAssociations;
            && (d == PayloadTooLarge ==> t' == t)
            && (d == Queued ==>
                  s in t'.associations
                  && t'.associations[s] == Association(now, a.queue + [Datagram(payload, now)], a.queuedBytes + |payload|, a.dropped, a.expired))
            && (d == QueueFull ==>
                  s in t'.associations && t'.associations[s] == Association(now, a.queue, a.queuedBytes, a.dropped + 1, a.expired))
            && (d == AssociationLimit ==> s !in t'.associations)
            && t'.droppedOverLimit == t.droppedOverLimit + (if d == AssociationLimit then 1 else 0)
            && (forall o <- m.Keys | o != s :: o in t'.associations <==> !clears || o in StillHeard(b, m, now))
            && (forall o <- t'.associations.Keys | o != s :: o in m && t'.associations[o] == m[o])
  {
    LivelyIsHeard(b, t.associations, now);
  }

  /** A pop skips the datagrams past their TTL at the front, and returns the first that is not. */
  lemma {:induction false} PopReturnsExactly(b: Bounds, a: Association, now: nat) returns (k: nat)
    ensures k <= |a.queue| && (forall i :: 0 <= i < k ==> now > a.queue[i].at + b.ttl)
    ensures k < |a.queue| ==> now <= a.queue[k].at + b.ttl
    ensures Pop(b, a, now).got == if k < |a.queue| then Some(a.queue[k]) else None
    ensures var r := Pop(b, a, now).association;
            && r.queue == (if k < |a.queue| then a.queue[k + 1..] else [])
            && r.expired == a.expired + k && r.dropped == a.dropped && r.lastSeen == a.lastSeen
    decreases |a.queue|
  {
    k := 0;
    if a.queue != [] && Stale(b, a.queue[0], now) {
      var rest := a.(queue := a.queue[1..], queuedBytes := Minus(a.queuedBytes, |a.queue[0].payload|), expired := a.expired + 1);
      var j := PopReturnsExactly(b, rest, now);
      k := j + 1;
      assert forall i :: 0 <= i < |rest.queue| ==> rest.queue[i] == a.queue[i + 1];
    }
  }

  /** A call for a source marks it as heard of, and touches no other. */
  lemma PopLeavesExactly(b: Bounds, t: State, s: Source, now: nat)
    ensures var t' := AfterPop(b, t, s, now);
            && t'.associations.Keys == t.associations.Keys && t'.droppedOverLimit == t.droppedOverLimit
            && (forall o <- t.associations.Keys | o != s :: t'.associations[o] == t.associations[o])
            && (s in t.associations ==> t'.associations[s].lastSeen == now)
  {
    if s in t.associations { var k := PopReturnsExactly(b, t.associations[s].(lastSeen := now), now); }
  }

  lemma ForgetLeavesExactly(t: State, s: Source)
    ensures var t' := AfterForget(t, s);
            t'.associations.Keys == t.associations.Keys - {s} && t'.droppedOverLimit == t.droppedOverLimit
            && forall o <- t'.associations.Keys :: t'.associations[o] == t.associations[o]
  {
  }

  /** What a sweep keeps of a queue, from its front on: each datagram exactly if it is within
      its TTL, in order. */
  lemma {:induction false} KeepsExactly(b: Bounds, q: seq<Datagram>, d: Datagram, now: nat)
    ensures Keep(b, [], now) == []
    ensures Keep(b, q + [d], now) == Keep(b, q, now) + if now <= d.at + b.ttl then [d] else []
  {
    if q == [] {
      assert [d][1..] == [] && [] + [d] == [d];
    } else {
      assert (q + [d])[1..] == q[1..] + [d];
      KeepsExactly(b, q[1..], d, now);
    }
  }

  /** After a sweep: exactly the sources heard of within the idle limit are left, each with what
      it keeps, and what it lost is counted. */
  lemma SweepLeavesExactly(b: Bounds, t: State, now: nat)
    ensures var m, t' := t.associations, AfterSweep(b, t, now);
            && t'.associations.Keys == StillHeard(b, m, now) && t'.droppedOverLimit == t.droppedOverLimit
            && forall s <- t'.associations.Keys ::
                 && t'.associations[s].queue == Keep(b, m[s].queue, now)
                 && t'.associations[s].expired == m[s].expired + |m[s].queue| - |Keep(b, m[s].queue, now)|
                 && t'.associations[s].lastSeen == m[s].lastSeen && t'.associations[s].dropped == m[s].dropped
  {
    var m, t' := t.associations, AfterSweep(b, t, now);
    forall s <- m.Keys
      ensures Swept(b, m[s], now).queue == Keep(b, m[s].queue, now) && Swept(b, m[s], now).lastSeen == m[s].lastSeen
    {
      KeepShrinks(b, m[s].queue, now);
    }
    LivelyIsHeard(b, SweptAll(b, m, now), now);
    assert StillHeard(b, SweptAll(b, m, now), now) == StillHeard(b, m, now);
  }

  // ---- the table in place ----------------------------------------------------

  class Table {
    const bounds: Bounds
    var associations: Associations
    var droppedOverLimit: nat

    ghost function Value(): State
      reads this
    {
      State(associations, droppedOverLimit)
    }

    constructor (bounds: Bounds)
      ensures this.bounds == bounds && Value() == State(map[], 0)
    {
      this.bounds := bounds;
      associations, droppedOverLimit := map[], 0;
    }

    /** Collects the idle sources, then removes them one by one. */
    method ReclaimIdle(now: nat) returns (stale: set<Source>)
      modifies this`associations
      ensures associations == Lively(bounds, old(associations), now)
      ensures stale == old(associations).Keys - associations.Keys
    {
      stale := set s | s in associations && Idle(bounds, associations[s], now);
      ghost var before := associations;
      var todo := stale;
      while todo != {}
        invariant todo <= stale && associations == before - (stale - todo)
      {
        var s :| s in todo;
        associations := associations - {s};
        todo := todo - {s};
        assert stale - todo == (stale - (todo + {s})) + {s};
      }
    }

    method Enqueue(s: Source, payload: Bytes, now: nat) returns (d: Disposition)
      modifies this
      ensures d == Verdict(bounds, old(Value()), s, payload, now)
      ensures Value() == AfterEnqueue(bounds, old(Value()), s, payload, now)
    {
      if |payload| > UDP_MAX_PAYLOAD_DEFAULT { return PayloadTooLarge; }
      if s !in associations && |associations| >= bounds.maxAssociations {
        var _ := ReclaimIdle(now);
        if |associations| >= bounds.maxAssociations {
          droppedOverLimit := droppedOverLimit + 1;
          return AssociationLimit;
        }
      }
      var a := if s in associations then associations[s] else Association(now, [], 0, 0, 0);
      a := a.(lastSeen := now);
      if |a.queue| >= bounds.maxDatagrams || a.queuedBytes + |payload| > bounds.maxBytes {
        associations := associations[s := a.(dropped := a.dropped + 1)];
        return QueueFull;
      }
      associations := associations[s := a.(queuedBytes := a.queuedBytes + |payload|, queue := a.queue + [Datagram(payload, now)])];
      d := Queued;
    }

    method PopReady(s: Source, now: nat) returns (payload: Option<Bytes>)
      modifies this
      ensures Value() == AfterPop(bounds, old(Value()), s, now)
      ensures payload == if s !in old(associations) then None
                         else match Pop(bounds, old(associations)[s].(lastSeen := now), now).got
                              case None => None
                              case Some(d) => Some(d.payload)
    {
      if s !in associations { return None; }
      var a := associations[s].(lastSeen := now);
      ghost var start := a;
      while a.queue != []
        invariant Pop(bounds, a, now) == Pop(bounds, start, now)
        decreases |a.queue|
      {
        var front := a.queue[0];
        a := a.(queue := a.queue[1..], queuedBytes := Minus(a.queuedBytes, |front.payload|));
        if Stale(bounds, front, now) {
          a := a.(expired := a.expired + 1);
        } else {
          associations := associations[s := a];
          return Some(front.payload);
        }
      }
      associations := associations[s := a];
      payload := None;
    }

    /** `retain` on one queue. */
    method Retain(q: seq<Datagram>, now: nat) returns (kept: seq<Datagram>)
      ensures kept == Keep(bounds, q, now)
    {
      kept := [];
      assert q[0..] == q;
      for i := 0 to |q|
        invariant kept + Keep(bounds, q[i..], now) == Keep(bounds, q, now)
      {
        assert q[i..][1..] == q[i + 1..];
        if !Stale(bounds, q[i], now) {
          Assoc(kept, [q[i]], Keep(bounds, q[i + 1..], now));
          kept := kept + [q[i]];
        }
      }
      assert q[|q|..] == [] && kept + [] == kept;
    }

    method Sweep(now: nat) returns (reclaimed: set<Source>)
      modifies this
      ensures Value() == AfterSweep(bounds, old(Value()), now)
      ensures reclaimed == old(associations).Keys - associations.Keys
    {
      ghost var before := associations;
      var todo := associations.Keys;
      while todo != {}
        invariant todo <= before.Keys && associations.Keys == before.Keys && droppedOverLimit == old(droppedOverLimit)
        invariant forall s <- before.Keys :: associations[s] == if s in todo then before[s] else Swept(bounds, before[s], now)
      {
        var s :| s in todo;
        var a := associations[s];
        var kept := Retain(a.queue, now);
        if |kept| < |a.queue| {
          a := a.(expired := a.expired + |a.queue| - |kept|, queuedBytes := Total(kept), queue := kept);
        }
        associations := associations[s := a];
        todo := todo - {s};
      }
      assert associations == SweptAll(bounds, before, now);
      reclaimed := ReclaimIdle(now);
    }

    method Forget(s: Source)
      modifies this
      ensures Value() == AfterForget(old(Value()), s)
    {
      associations := associations - {s};
    }
  }
}
