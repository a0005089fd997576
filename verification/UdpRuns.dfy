/** Whole runs of the UDP table: what became of every datagram it accepted. */
module UdpRuns {
  import opened Limits
  import opened UdpTable

  datatype Fate = Waiting | Delivered(when: nat) | Expired(when: nat) | Reclaimed(when: nat) | Forgotten

  datatype Record = Record(datagram: Datagram, fate: Fate)

  /** One source's accepted datagrams in order, each with its one fate so far, and what the
      calls returned, in call order. */
  datatype Ledger = Ledger(history: seq<Record>, out: seq<Datagram>)

  const BLANK: Ledger := Ledger([], [])

  function WaitingOf(h: seq<Record>): seq<Datagram>
  {
    if h == [] then []
    else if h[0].fate.Waiting? then [h[0].datagram] + WaitingOf(h[1..])
    else WaitingOf(h[1..])
  }

  function DeliveredOf(h: seq<Record>): seq<Datagram>
  {
    if h == [] then []
    else if h[0].fate.Delivered? then [h[0].datagram] + DeliveredOf(h[1..])
    else DeliveredOf(h[1..])
  }

  /** How many datagrams ended otherwise. */
  function Expirations(h: seq<Record>): nat
  {
    if h == [] then 0 else Expirations(h[1..]) + if h[0].fate.Expired? then 1 else 0
  }

  function Discards(h: seq<Record>): nat
  {
    if h == [] then 0 else Discards(h[1..]) + if h[0].fate.Reclaimed? || h[0].fate.Forgotten? then 1 else 0
  }

  // ---- how operations settle fates -------------------------------------------

  /** Settles the oldest waiting datagram. */
  function Take(h: seq<Record>, f: Fate): seq<Record>
  {
    if h == [] then []
    else if h[0].fate.Waiting? then [h[0].(fate := f)] + h[1..]
    else [h[0]] + Take(h[1..], f)
  }

  /** Settles every waiting datagram that is past its TTL. */
  function Lapse(b: Bounds, h: seq<Record>, now: nat): seq<Record>
  {
    if h == [] then []
    else
      [if h[0].fate.Waiting? && Stale(b, h[0].datagram, now) then h[0].(fate := Expired(now)) else h[0]]
        + Lapse(b, h[1..], now)
  }

  /** Settles every waiting datagram alike. */
  function Drop(h: seq<Record>, f: Fate): seq<Record>
  {
    if h == [] then []
    else [if h[0].fate.Waiting? then h[0].(fate := f) else h[0]] + Drop(h[1..], f)
  }

  function PopLedger(b: Bounds, led: Ledger, queue: seq<Datagram>, now: nat): Ledger
    decreases |queue|
  {
    if queue == [] then led
    else if Stale(b, queue[0], now) then
      PopLedger(b, led.(history := Take(led.history, Expired(now))), queue[1..], now)
    else Ledger(Take(led.history, Delivered(now)), led.out + [queue[0]])
  }

  /** What the ledger records as delivered is what the call returned. */
  lemma {:induction false} LedgerRecordsReturn(b: Bounds, a: Association, led: Ledger, now: nat)
    ensures PopLedger(b, led, a.queue, now).out == led.out + match Pop(b, a, now).got case None => [] case Some(d) => [d]
    decreases |a.queue|
  {
    if a.queue == [] {
      assert led.out + [] == led.out;
    } else if Stale(b, a.queue[0], now) {
      var rest := a.(queue := a.queue[1..], queuedBytes := Minus(a.queuedBytes, |a.queue[0].payload|), expired := a.expired + 1);
      LedgerRecordsReturn(b, rest, led.(history := Take(led.history, Expired(now))), now);
    }
  }

  // ---- what a ledger promises ------------------------------------------------

  /** No datagram is delivered before one that still waits ahead of it. */
  predicate InOrder(h: seq<Record>)
  {
    forall i, j :: 0 <= i < j < |h| && h[i].fate.Waiting? ==> !h[j].fate.Delivered?
  }

  /** Deliveries are within the TTL, expiries past it, and so are idle discards when calls
      came in time order and the TTL is no longer than the idle limit. */
  predicate Timely(b: Bounds, ordered: bool, r: Record)
  {
    match r.fate
    case Delivered(t) => !Stale(b, r.datagram, t)
    case Expired(t) => Stale(b, r.datagram, t)
    case Reclaimed(t) => ordered && b.ttl <= b.idle ==> Stale(b, r.datagram, t)
    case _ => true
  }

  predicate AllTimely(b: Bounds, ordered: bool, h: seq<Record>) { forall r <- h :: Timely(b, ordered, r) }

  predicate Book(b: Bounds, ordered: bool, queue: seq<Datagram>, led: Ledger)
  {
    && WaitingOf(led.history) == queue && DeliveredOf(led.history) == led.out
    && InOrder(led.history) && AllTimely(b, ordered, led.history)
  }

  // ---- settling keeps the book -----------------------------------------------

  lemma {:induction false} Conservation(h: seq<Record>)
    ensures |h| == |DeliveredOf(h)| + Expirations(h) + |WaitingOf(h)| + Discards(h)
  {
    if h != [] { Conservation(h[1..]); }
  }

  lemma {:induction false} AppendWaiting(h: seq<Record>, d: Datagram)
    ensures WaitingOf(h + [Record(d, Waiting)]) == WaitingOf(h) + [d]
    ensures DeliveredOf(h + [Record(d, Waiting)]) == DeliveredOf(h)
  {
    var r := Record(d, Waiting);
    if h == [] {
      assert h + [r] == [r] && [r][1..] == [];
    } else {
      assert (h + [r])[1..] == h[1..] + [r];
      AppendWaiting(h[1..], d);
    }
  }

  lemma AcceptKeeps(b: Bounds, ordered: bool, queue: seq<Datagram>, led: Ledger, d: Datagram)
    requires Book(b, ordered, queue, led)
    ensures Book(b, ordered, queue + [d], led.(history := led.history + [Record(d, Waiting)]))
  {
    AppendWaiting(led.history, d);
  }

  lemma {:induction false} NoDeliveries(h: seq<Record>)
    requires forall r <- h :: !r.fate.Delivered?
    ensures DeliveredOf(h) == []
  {
    if h != [] { NoDeliveries(h[1..]); }
  }

  /** Settling the oldest waiting datagram takes it off the queue; if it is delivered, it is
      the latest delivery of all. */
  lemma {:induction false} TakeReads(h: seq<Record>, f: Fate)
    requires WaitingOf(h) != [] && !f.Waiting? && InOrder(h)
    ensures var h' := Take(h, f);
            && WaitingOf(h') == WaitingOf(h)[1..]
            && DeliveredOf(h') == DeliveredOf(h) + if f.Delivered? then [WaitingOf(h)[0]] else []
  {
    if h[0].fate.Waiting? {
      forall r <- h[1..] ensures !r.fate.Delivered? {
        var j :| 0 <= j < |h[1..]| && h[1..][j] == r;
        assert h[j + 1] == r;
      }
      NoDeliveries(h[1..]);
      assert Take(h, f)[1..] == h[1..];
    } else {
      TakeReads(h[1..], f);
      assert Take(h, f)[1..] == Take(h[1..], f);
    }
  }

  lemma {:induction false} TakeOrdered(b: Bounds, ordered: bool, h: seq<Record>, f: Fate)
    requires WaitingOf(h) != [] && !f.Waiting? && InOrder(h) && AllTimely(b, ordered, h)
    requires Timely(b, ordered, Record(WaitingOf(h)[0], f))
    ensures InOrder(Take(h, f)) && AllTimely(b, ordered, Take(h, f)) && |Take(h, f)| == |h|
  {
    if h[0].fate.Waiting? {
      assert Take(h, f) == [h[0].(fate := f)] + h[1..];
      assert forall i :: 1 <= i < |h| ==> Take(h, f)[i] == h[i] && h[i] in h;
    } else {
      TakeOrdered(b, ordered, h[1..], f);
      assert Take(h, f) == [h[0]] + Take(h[1..], f);
    }
  }

  lemma {:induction false} PopKeeps(b: Bounds, ordered: bool, a: Association, led: Ledger, now: nat)
    requires Book(b, ordered, a.queue, led)
    ensures Book(b, ordered, Pop(b, a, now).association.queue, PopLedger(b, led, a.queue, now))
    decreases |a.queue|
  {
    if a.queue != [] {
      var front := a.queue[0];
      var f := if Stale(b, front, now) then Expired(now) else Delivered(now);
      TakeReads(led.history, f);
      TakeOrdered(b, ordered, led.history, f);
      var rest := a.(queue := a.queue[1..], queuedBytes := Minus(a.queuedBytes, |front.payload|));
      if Stale(b, front, now) {
        assert DeliveredOf(led.history) + [] == led.out;
        PopKeeps(b, ordered, rest.(expired := a.expired + 1), led.(history := Take(led.history, f)), now);
      }
    }
  }

  /** `h'` is `h` with some waiting datagrams settled, none as delivered. */
  predicate Settles(h: seq<Record>, h': seq<Record>)
  {
    |h'| == |h| && forall i :: 0 <= i < |h| ==>
      h'[i] == h[i] || (h[i].fate.Waiting? && h'[i].datagram == h[i].datagram && !h'[i].fate.Delivered? && !h'[i].fate.Waiting?)
  }

  lemma {:induction false} SettlesDelivered(h: seq<Record>, h': seq<Record>)
    requires Settles(h, h')
    ensures DeliveredOf(h') == DeliveredOf(h)
  {
    if h != [] {
      assert forall i :: 0 <= i < |h| - 1 ==> h[1..][i] == h[i + 1] && h'[1..][i] == h'[i + 1];
      SettlesDelivered(h[1..], h'[1..]);
    }
  }

  lemma SettlesOrdered(h: seq<Record>, h': seq<Record>)
    requires Settles(h, h') && InOrder(h)
    ensures InOrder(h')
  {
  }

  lemma {:induction false} LapseReads(b: Bounds, ordered: bool, h: seq<Record>, now: nat)
    requires AllTimely(b, ordered, h)
    ensures var h' := Lapse(b, h, now);
            Settles(h, h') && AllTimely(b, ordered, h') && WaitingOf(h') == Keep(b, WaitingOf(h), now)
  {
    if h != [] {
      LapseReads(b, ordered, h[1..], now);
      assert Lapse(b, h, now)[1..] == Lapse(b, h[1..], now);
      assert h[0] in h;
    }
  }

  lemma LapseKeeps(b: Bounds, ordered: bool, queue: seq<Datagram>, led: Ledger, now: nat)
    requires Book(b, ordered, queue, led)
    ensures Book(b, ordered, Keep(b, queue, now), led.(history := Lapse(b, led.history, now)))
  {
    LapseReads(b, ordered, led.history, now);
    SettlesDelivered(led.history, Lapse(b, led.history, now));
    SettlesOrdered(led.history, Lapse(b, led.history, now));
  }

  lemma {:induction false} DropReads(b: Bounds, ordered: bool, h: seq<Record>, f: Fate)
    requires AllTimely(b, ordered, h) && !f.Waiting? && !f.Delivered?
    requires forall d <- WaitingOf(h) :: Timely(b, ordered, Record(d, f))
    ensures Settles(h, Drop(h, f)) && AllTimely(b, ordered, Drop(h, f)) && WaitingOf(Drop(h, f)) == []
  {
    if h != [] {
      assert forall d <- WaitingOf(h[1..]) :: d in WaitingOf(h);
      DropReads(b, ordered, h[1..], f);
      assert Drop(h, f)[1..] == Drop(h[1..], f);
      assert h[0] in h && (h[0].fate.Waiting? ==> h[0].datagram in WaitingOf(h));
    }
  }

  lemma DropKeeps(b: Bounds, ordered: bool, queue: seq<Datagram>, led: Ledger, f: Fate)
    requires Book(b, ordered, queue, led) && !f.Waiting? && !f.Delivered?
    requires forall d <- queue :: Timely(b, ordered, Record(d, f))
    ensures Book(b, ordered, [], led.(history := Drop(led.history, f)))
  {
    DropReads(b, ordered, led.history, f);
    SettlesDelivered(led.history, Drop(led.history, f));
    SettlesOrdered(led.history, Drop(led.history, f));
  }

  // ---- whole tables ----------------------------------------------------------

  type Ledgers = map<Source, Ledger>

  datatype World = World(state: State, ledgers: Ledgers, clock: nat, ordered: bool)

  const EMPTY: World := World(State(map[], 0), map[], 0, true)

  datatype Step =
    | Enqueue(source: Source, payload: Bytes, now: nat)
    | PopReady(source: Source, now: nat)
    | Sweep(now: nat)
    | Forget(source: Source)

  function LedgerOf(ls: Ledgers, s: Source): Ledger { if s in ls then ls[s] else BLANK }

  function QueueOf(m: Associations, s: Source): seq<Datagram> { if s in m then m[s].queue else [] }

  function ReclaimBooks(b: Bounds, m: Associations, ls: Ledgers, now: nat): Ledgers
  {
    map s | s in ls ::
      if s in m && Idle(b, m[s], now) then ls[s].(history := Drop(ls[s].history, Reclaimed(now))) else ls[s]
  }

  function SweepBooks(b: Bounds, m: Associations, ls: Ledgers, now: nat): Ledgers
  {
    map s | s in ls :: if s in m then ls[s].(history := Lapse(b, ls[s].history, now)) else ls[s]
  }

  function EnqueueBooks(b: Bounds, t: State, ls: Ledgers, s: Source, payload: Bytes, now: nat): Ledgers
  {
    var m := t.associations;
    var facing := if s !in m && |m| >= b.maxAssociations then ReclaimBooks(b, m, ls, now) else ls;
    match Verdict(b, t, s, payload, now)
    case PayloadTooLarge => ls
    case AssociationLimit => facing
    case QueueFull => facing[s := LedgerOf(facing, s)]
    case Queued =>
      var led := LedgerOf(facing, s);
      facing[s := led.(history := led.history + [Record(Datagram(payload, now), Waiting)])]
  }

  function Tick(w: World, now: nat): World { w.(clock := now, ordered := w.ordered && w.clock <= now) }

  function Next(b: Bounds, w: World, step: Step): World
  {
    match step
    case Enqueue(s, payload, now) =>
      Tick(w, now).(state := AfterEnqueue(b, w.state, s, payload, now),
                    ledgers := EnqueueBooks(b, w.state, w.ledgers, s, payload, now))
    case PopReady(s, now) =>
      Tick(w, now).(state := AfterPop(b, w.state, s, now),
                    ledgers := if s !in w.state.associations then w.ledgers
                               else w.ledgers[s := PopLedger(b, LedgerOf(w.ledgers, s), w.state.associations[s].queue, now)])
    case Sweep(now) =>
      var m := w.state.associations;
      Tick(w, now).(state := AfterSweep(b, w.state, now),
                    ledgers := ReclaimBooks(b, SweptAll(b, m, now), SweepBooks(b, m, w.ledgers, now), now))
    case Forget(s) =>
      w.(state := AfterForget(w.state, s),
         ledgers := if s !in w.ledgers then w.ledgers
                    else w.ledgers[s := w.ledgers[s].(history := Drop(w.ledgers[s].history, Forgotten))])
  }

  function Run(b: Bounds, w: World, steps: seq<Step>): World
    decreases |steps|
  {
    if steps == [] then w else Run(b, Next(b, w, steps[0]), steps[1..])
  }

  predicate Fits(b: Bounds, ordered: bool, clock: nat, a: Association)
  {
    Counted(b, a) && (ordered ==> a.lastSeen <= clock && forall d <- a.queue :: d.at <= a.lastSeen)
  }

  /** Every association is counted and every ledger agrees with its queue. */
  predicate Kept(b: Bounds, ordered: bool, clock: nat, m: Associations, ls: Ledgers)
  {
    && (forall s <- m.Keys :: s in ls && Fits(b, ordered, clock, m[s]))
    && (forall s <- ls.Keys :: Book(b, ordered, QueueOf(m, s), ls[s]))
  }

  predicate Inv(b: Bounds, w: World)
  {
    Kept(b, w.ordered, w.clock, w.state.associations, w.ledgers) && |w.state.associations| <= b.maxAssociations
  }

  // ---- each step -------------------------------------------------------------

  lemma TickKeeps(b: Bounds, w: World, now: nat)
    requires Inv(b, w)
    ensures Kept(b, w.ordered && w.clock <= now, now, w.state.associations, w.ledgers)
  {
  }

  /** An idle association holds nothing that could still be delivered. */
  lemma IdleIsStale(b: Bounds, ordered: bool, a: Association, now: nat)
    requires Fits(b, ordered, now, a) && Idle(b, a, now)
    ensures forall d <- a.queue :: Timely(b, ordered, Record(d, Reclaimed(now)))
  {
  }

  lemma ReclaimKeeps(b: Bounds, ordered: bool, m: Associations, ls: Ledgers, now: nat)
    requires Kept(b, ordered, now, m, ls)
    ensures Kept(b, ordered, now, Lively(b, m, now), ReclaimBooks(b, m, ls, now))
    ensures |Lively(b, m, now)| <= |m|
  {
    var (kept, all) := (Lively(b, m, now).Keys, m.Keys);
    assert all == kept + (all - kept);
    forall s <- ls.Keys
      ensures Book(b, ordered, QueueOf(Lively(b, m, now), s), ReclaimBooks(b, m, ls, now)[s])
    {
      if s in m && Idle(b, m[s], now) {
        IdleIsStale(b, ordered, m[s], now);
        DropKeeps(b, ordered, m[s].queue, ls[s], Reclaimed(now));
      }
    }
  }

  lemma {:induction false} KeepSubset(b: Bounds, q: seq<Datagram>, now: nat)
    ensures forall d <- Keep(b, q, now) :: d in q
  {
    if q != [] { KeepSubset(b, q[1..], now); }
  }

  lemma SweepKeeps(b: Bounds, ordered: bool, m: Associations, ls: Ledgers, now: nat)
    requires Kept(b, ordered, now, m, ls)
    ensures Kept(b, ordered, now, SweptAll(b, m, now), SweepBooks(b, m, ls, now))
    ensures |SweptAll(b, m, now)| == |m|
  {
    assert SweptAll(b, m, now).Keys == m.Keys;
    forall s <- m.Keys ensures Fits(b, ordered, now, Swept(b, m[s], now)) {
      SweptCounted(b, m[s], now);
      KeepSubset(b, m[s].queue, now);
    }
    forall s <- ls.Keys ensures Book(b, ordered, QueueOf(SweptAll(b, m, now), s), SweepBooks(b, m, ls, now)[s]) {
      if s in m {
        SweptCounted(b, m[s], now);
        LapseKeeps(b, ordered, m[s].queue, ls[s], now);
      }
    }
  }

  lemma {:induction false} PopSubset(b: Bounds, a: Association, now: nat)
    ensures forall d <- Pop(b, a, now).association.queue :: d in a.queue
    decreases |a.queue|
  {
    if a.queue != [] && Stale(b, a.queue[0], now) {
      PopSubset(b, a.(queue := a.queue[1..], queuedBytes := Minus(a.queuedBytes, |a.queue[0].payload|), expired := a.expired + 1), now);
    }
  }

  /** Replacing one source's association and ledger consistently keeps the rest. */
  lemma UpdateKeeps(b: Bounds, ordered: bool, now: nat, m: Associations, ls: Ledgers, s: Source, a: Association, led: Ledger)
    requires Kept(b, ordered, now, m, ls) && Fits(b, ordered, now, a) && Book(b, ordered, a.queue, led)
    ensures Kept(b, ordered, now, m[s := a], ls[s := led])
  {
    var m', ls' := m[s := a], ls[s := led];
    forall r <- m'.Keys ensures r in ls' && Fits(b, ordered, now, m'[r]) {
      if r != s { assert r in m.Keys && m'[r] == m[r]; }
    }
    forall r <- ls'.Keys ensures Book(b, ordered, QueueOf(m', r), ls'[r]) {
      if r != s { assert r in ls.Keys && ls'[r] == ls[r] && QueueOf(m', r) == QueueOf(m, r); }
    }
  }

  lemma SizeAfterUpdate(m: Associations, s: Source, a: Association)
    ensures |m[s := a]| == |m| + if s in m then 0 else 1
  {
    assert m[s := a].Keys == m.Keys + {s};
  }

  lemma PopWorldKeeps(b: Bounds, w: World, s: Source, now: nat)
    requires Inv(b, w)
    ensures Inv(b, Next(b, w, PopReady(s, now)))
  {
    TickKeeps(b, w, now);
    var (m, ordered) := (w.state.associations, w.ordered && w.clock <= now);
    if s in m {
      var a := m[s].(lastSeen := now);
      PopCounted(b, a, now);
      PopSubset(b, a, now);
      PopKeeps(b, ordered, a, w.ledgers[s], now);
      SizeAfterUpdate(m, s, Pop(b, a, now).association);
      UpdateKeeps(b, ordered, now, m, w.ledgers, s, Pop(b, a, now).association, PopLedger(b, w.ledgers[s], m[s].queue, now));
    }
  }

  lemma OfferKeeps(b: Bounds, ordered: bool, m: Associations, ls: Ledgers, s: Source, payload: Bytes, now: nat)
    requires Kept(b, ordered, now, m, ls)
    ensures var a := Tracked(m, s, now);
            var led := LedgerOf(ls, s);
            var led' := if HasRoom(b, a, payload) then led.(history := led.history + [Record(Datagram(payload, now), Waiting)]) else led;
            Kept(b, ordered, now, m[s := Offer(b, a, payload, now)], ls[s := led'])
  {
    var a, led := Tracked(m, s, now), LedgerOf(ls, s);
    var led' := if HasRoom(b, a, payload) then led.(history := led.history + [Record(Datagram(payload, now), Waiting)]) else led;
    OfferCounted(b, a, payload, now);
    AcceptKeeps(b, ordered, a.queue, led, Datagram(payload, now));
    UpdateKeeps(b, ordered, now, m, ls, s, Offer(b, a, payload, now), led');
  }

  /** An offer to a table that has room for the source. */
  lemma RoomyKeeps(b: Bounds, ordered: bool, m: Associations, ls: Ledgers, s: Source, payload: Bytes, now: nat)
    requires Kept(b, ordered, now, m, ls) && |m| <= b.maxAssociations && (s in m || |m| < b.maxAssociations)
    ensures var a := Tracked(m, s, now);
            var led := LedgerOf(ls, s);
            var led' := if HasRoom(b, a, payload) then led.(history := led.history + [Record(Datagram(payload, now), Waiting)]) else led;
            var m' := m[s := Offer(b, a, payload, now)];
            Kept(b, ordered, now, m', ls[s := led']) && |m'| <= b.maxAssociations
  {
    OfferKeeps(b, ordered, m, ls, s, payload, now);
    SizeAfterUpdate(m, s, Offer(b, Tracked(m, s, now), payload, now));
  }

  /** What an enqueue does to a full table: refuse, or go on with what was reclaimed. */
  lemma EnqueueFull(b: Bounds, t: State, ls: Ledgers, s: Source, payload: Bytes, now: nat)
    requires s !in t.associations && |t.associations| >= b.maxAssociations && |payload| <= UDP_MAX_PAYLOAD_DEFAULT
    ensures var lively := State(Lively(b, t.associations, now), t.droppedOverLimit);
            var books := ReclaimBooks(b, t.associations, ls, now);
            if |lively.associations| < b.maxAssociations
            then AfterEnqueue(b, t, s, payload, now) == AfterEnqueue(b, lively, s, payload, now)
                 && EnqueueBooks(b, t, ls, s, payload, now) == EnqueueBooks(b, lively, books, s, payload, now)
            else AfterEnqueue(b, t, s, payload, now).associations == lively.associations
                 && EnqueueBooks(b, t, ls, s, payload, now) == books
  {
  }

  lemma EnqueueRoomyKeeps(b: Bounds, ordered: bool, t: State, ls: Ledgers, s: Source, payload: Bytes, now: nat)
    requires Kept(b, ordered, now, t.associations, ls) && |t.associations| <= b.maxAssociations
    requires (s in t.associations || |t.associations| < b.maxAssociations) && |payload| <= UDP_MAX_PAYLOAD_DEFAULT
    ensures Kept(b, ordered, now, AfterEnqueue(b, t, s, payload, now).associations, EnqueueBooks(b, t, ls, s, payload, now))
    ensures |AfterEnqueue(b, t, s, payload, now).associations| <= b.maxAssociations
  {
    RoomyKeeps(b, ordered, t.associations, ls, s, payload, now);
  }

  lemma EnqueueFullKeeps(b: Bounds, ordered: bool, t: State, ls: Ledgers, s: Source, payload: Bytes, now: nat)
    requires Kept(b, ordered, now, t.associations, ls) && |t.associations| <= b.maxAssociations
    requires s !in t.associations && |t.associations| >= b.maxAssociations && |payload| <= UDP_MAX_PAYLOAD_DEFAULT
    ensures Kept(b, ordered, now, AfterEnqueue(b, t, s, payload, now).associations, EnqueueBooks(b, t, ls, s, payload, now))
    ensures |AfterEnqueue(b, t, s, payload, now).associations| <= b.maxAssociations
  {
    ReclaimKeeps(b, ordered, t.associations, ls, now);
    EnqueueFull(b, t, ls, s, payload, now);
    var lively := State(Lively(b, t.associations, now), t.droppedOverLimit);
    if |lively.associations| < b.maxAssociations {
      EnqueueRoomyKeeps(b, ordered, lively, ReclaimBooks(b, t.associations, ls, now), s, payload, now);
    }
  }

  lemma EnqueueWorldKeeps(b: Bounds, w: World, s: Source, payload: Bytes, now: nat)
    requires Inv(b, w)
    ensures Inv(b, Next(b, w, Enqueue(s, payload, now)))
  {
    TickKeeps(b, w, now);
    var m, ordered := w.state.associations, w.ordered && w.clock <= now;
    if |payload| <= UDP_MAX_PAYLOAD_DEFAULT {
      if s !in m && |m| >= b.maxAssociations {
        EnqueueFullKeeps(b, ordered, w.state, w.ledgers, s, payload, now);
      } else {
        EnqueueRoomyKeeps(b, ordered, w.state, w.ledgers, s, payload, now);
      }
    }
  }

  lemma SweepWorldKeeps(b: Bounds, w: World, now: nat)
    requires Inv(b, w)
    ensures Inv(b, Next(b, w, Sweep(now)))
  {
    TickKeeps(b, w, now);
    var (m, ordered) := (w.state.associations, w.ordered && w.clock <= now);
    SweepKeeps(b, ordered, m, w.ledgers, now);
    ReclaimKeeps(b, ordered, SweptAll(b, m, now), SweepBooks(b, m, w.ledgers, now), now);
  }

  lemma ForgetKeeps(b: Bounds, ordered: bool, clock: nat, m: Associations, ls: Ledgers, s: Source)
    requires Kept(b, ordered, clock, m, ls) && s in ls
    ensures Kept(b, ordered, clock, m - {s}, ls[s := ls[s].(history := Drop(ls[s].history, Forgotten))])
  {
    var m', ls' := m - {s}, ls[s := ls[s].(history := Drop(ls[s].history, Forgotten))];
    DropKeeps(b, ordered, QueueOf(m, s), ls[s], Forgotten);
    forall r <- m'.Keys ensures r in ls' && Fits(b, ordered, clock, m'[r]) {
      assert r in m.Keys && m'[r] == m[r];
    }
    forall r <- ls'.Keys ensures Book(b, ordered, QueueOf(m', r), ls'[r]) {
      if r != s { assert r in ls.Keys && ls'[r] == ls[r] && QueueOf(m', r) == QueueOf(m, r); }
    }
  }

  lemma SizeAfterForget(m: Associations, s: Source)
    ensures |m - {s}| <= |m| && (s !in m ==> m - {s} == m)
  {
    assert m.Keys == (m - {s}).Keys + (m.Keys - (m - {s}).Keys);
  }

  lemma ForgetWorldKeeps(b: Bounds, w: World, s: Source)
    requires Inv(b, w)
    ensures Inv(b, Next(b, w, Forget(s)))
  {
    SizeAfterForget(w.state.associations, s);
    if s in w.ledgers { ForgetKeeps(b, w.ordered, w.clock, w.state.associations, w.ledgers, s); }
  }

  lemma NextKeeps(b: Bounds, w: World, step: Step)
    requires Inv(b, w)
    ensures Inv(b, Next(b, w, step))
  {
    match step {
      case Enqueue(s, payload, now) => EnqueueWorldKeeps(b, w, s, payload, now);
      case PopReady(s, now) => PopWorldKeeps(b, w, s, now);
      case Sweep(now) => SweepWorldKeeps(b, w, now);
      case Forget(s) => ForgetWorldKeeps(b, w, s);
    }
  }

  lemma {:induction false} RunKeeps(b: Bounds, w: World, steps: seq<Step>)
    requires Inv(b, w)
    ensures Inv(b, Run(b, w, steps))
    decreases |steps|
  {
    if steps != [] {
      NextKeeps(b, w, steps[0]);
      RunKeeps(b, Next(b, w, steps[0]), steps[1..]);
    }
  }

  /** In every reachable table: the bounds hold and the byte counters are exact; each
      source's queue is what waits of its history, its deliveries are what was delivered of
      it, in order, each datagram has one fate, and every fate came at its time. */
  lemma EveryDatagramAccounted(b: Bounds, steps: seq<Step>)
    ensures var w := Run(b, EMPTY, steps);
            && |w.state.associations| <= b.maxAssociations
            && (forall s <- w.state.associations.Keys :: s in w.ledgers && Counted(b, w.state.associations[s]))
            && (forall s <- w.ledgers.Keys ::
                  && Book(b, w.ordered, QueueOf(w.state.associations, s), w.ledgers[s])
                  && |w.ledgers[s].history| == |w.ledgers[s].out| + Expirations(w.ledgers[s].history)
                                             + |QueueOf(w.state.associations, s)| + Discards(w.ledgers[s].history))
  {
    RunKeeps(b, EMPTY, steps);
    var w := Run(b, EMPTY, steps);
    forall s <- w.ledgers.Keys
      ensures |w.ledgers[s].history| == |w.ledgers[s].out| + Expirations(w.ledgers[s].history)
                                      + |QueueOf(w.state.associations, s)| + Discards(w.ledgers[s].history)
    {
      Conservation(w.ledgers[s].history);
    }
  }

  lemma IdleSweep(b: Bounds, s: Source, d: Datagram, a: Association, w: World)
    requires b.idle < b.ttl && d.at == 0 && a.lastSeen == 0 && a.queue == [d]
    requires w.state.associations == map[s := a] && w.ledgers == map[s := Ledger([Record(d, Waiting)], [])]
    requires w.ordered && w.clock == 0
    ensures var w2 := Next(b, w, Sweep(b.idle + 1));
            w2.ordered && s in w2.ledgers && w2.ledgers[s].history == [Record(d, Reclaimed(b.idle + 1))]
  {
    var h, now := [Record(d, Waiting)], b.idle + 1;
    assert Lapse(b, h, now) == h;
    assert Drop(h, Reclaimed(now)) == [Record(d, Reclaimed(now))];
    assert Keep(b, a.queue, now) == a.queue;
    assert SweptAll(b, w.state.associations, now)[s] == a;
  }

  /** The condition on the idle limit is exact: when it is shorter than the TTL, a sweep just
      past it throws away a datagram that could still have been delivered. */
  lemma ShortIdleDiscardsLive(b: Bounds, s: Source)
    requires b.idle < b.ttl && b.maxAssociations > 0 && b.maxDatagrams > 0
    ensures var w := Run(b, EMPTY, [Enqueue(s, [], 0), Sweep(b.idle + 1)]);
            var d := Datagram([], 0);
            w.ordered && s in w.ledgers && w.ledgers[s].history == [Record(d, Reclaimed(b.idle + 1))]
            && !Stale(b, d, b.idle + 1)
  {
    var d, now := Datagram([], 0), b.idle + 1;
    var w1 := Next(b, EMPTY, Enqueue(s, [], 0));
    var a := Association(0, [d], 0, 0, 0);
    assert [] + [d] == [d] && [] + [Record(d, Waiting)] == [Record(d, Waiting)];
    assert w1 == World(State(map[s := a], 0), map[s := Ledger([Record(d, Waiting)], [])], 0, true);
    IdleSweep(b, s, d, a, w1);
    var w2 := Next(b, w1, Sweep(now));
    assert [Enqueue(s, [], 0), Sweep(now)][1..] == [Sweep(now)] && [Sweep(now)][1..] == [];
    assert Run(b, w2, []) == w2 && Run(b, w1, [Sweep(now)]) == w2;
  }
}
