/** The lock-free packet-number allocator (crates/wsnet-crypto/src/packet_no.rs), as
    interleaved steps of any number of threads. */
module PacketNumbers {
  import opened Limits

  const CEILING: nat := U64_MAX - PACKET_NO_EXHAUSTION_MARGIN

  const EXHAUSTED: nat := U64_MAX

  datatype Op = Allocate | Reserve(value: nat)

  datatype Outcome = Issued(number: nat) | Exhausted | WouldReuse(requested: nat, next: nat)

  /** A thread outside the allocator, or inside a retry loop with the value it last saw. */
  datatype Thread = Idle | Trying(op: Op, current: nat)

  datatype Entry = Entry(op: Op, outcome: Outcome)

  datatype State = State(
    next: nat,              // the shared atomic
    history: set<nat>,      // every value it has held: a load may return an old one
    threads: map<nat, Thread>,
    log: seq<Entry>)        // completed calls, in the order they took effect

  const INIT: State := State(0, {0}, map[], [])

  /** One atomic step of thread `t`. `seen` is the value its load or failed exchange returns,
      which may be stale; `spurious` lets a weak exchange fail although the value matches. */
  datatype Step =
    | Call(t: nat, op: Op, seen: nat)
    | Turn(t: nat, spurious: bool, seen: nat)

  function Of(s: State, t: nat): Thread { if t in s.threads then s.threads[t] else Idle }

  function Finish(s: State, t: nat, op: Op, o: Outcome): State
  {
    s.(threads := s.threads[t := Idle], log := s.log + [Entry(op, o)])
  }

  function Store(s: State, v: nat): State { s.(next := v, history := s.history + {v}) }

  function AllocateTurn(s: State, t: nat, current: nat, spurious: bool, seen: nat): State
  {
    if current == EXHAUSTED || current > CEILING then
      Finish(if s.next == current then Store(s, EXHAUSTED) else s, t, Allocate, Exhausted)
    else if s.next == current && !spurious then
      Finish(Store(s, current + 1), t, Allocate, Issued(current))
    else s.(threads := s.threads[t := Trying(Allocate, seen)])
  }

  function ReserveTurn(s: State, t: nat, value: nat, current: nat, spurious: bool, seen: nat): State
  {
    if current == EXHAUSTED then Finish(s, t, Reserve(value), Exhausted)
    else if value < current then Finish(s, t, Reserve(value), WouldReuse(value, current))
    else if s.next == current && !spurious then
      Finish(Store(s, value + 1), t, Reserve(value), Issued(value))
    else s.(threads := s.threads[t := Trying(Reserve(value), seen)])
  }

  /** A step whose thread is not at that point, or that claims to see a value the atomic
      never held, does not happen. */
  function Next(s: State, e: Step): State
  {
    if e.seen !in s.history then s
    else
      match e
      case Call(t, op, seen) =>
        if !Of(s, t).Idle? then s
        else if op.Reserve? && op.value > CEILING then Finish(s, t, op, Exhausted)
        else s.(threads := s.threads[t := Trying(op, seen)])
      case Turn(t, spurious, seen) =>
        match Of(s, t)
        case Idle => s
        case Trying(Allocate, current) => AllocateTurn(s, t, current, spurious, seen)
        case Trying(Reserve(value), current) => ReserveTurn(s, t, value, current, spurious, seen)
  }

  function Run(s: State, steps: seq<Step>): State
    decreases |steps|
  {
    if steps == [] then s else Run(Next(s, steps[0]), steps[1..])
  }

  // ---- invariants ------------------------------------------------------------

  function Numbers(log: seq<Entry>): seq<nat>
  {
    if log == [] then []
    else
      var last := log[|log| - 1].outcome;
      Numbers(log[..|log| - 1]) + (if last.Issued? then [last.number] else [])
  }

  predicate Spent(log: seq<Entry>) { exists i :: 0 <= i < |log| && log[i] == Entry(Allocate, Exhausted) }

  /** Once `allocate` has reported exhaustion, nothing is issued any more. */
  predicate SpentForGood(log: seq<Entry>)
  {
    forall i, j :: 0 <= i < j < |log| && log[i] == Entry(Allocate, Exhausted) ==> !log[j].outcome.Issued?
  }

  predicate Increasing(s: seq<nat>) { forall i, j :: 0 <= i < j < |s| ==> s[i] < s[j] }

  predicate Inv(s: State)
  {
    && s.next in s.history && (forall h <- s.history :: h <= s.next)
    && (s.next <= CEILING + 1 || s.next == EXHAUSTED)
    && (forall t :: t in s.threads && s.threads[t].Trying? ==>
          && s.threads[t].current in s.history
          && (s.threads[t].op.Reserve? ==> s.threads[t].op.value <= CEILING))
    && Increasing(Numbers(s.log))
    && (forall n <- Numbers(s.log) :: n < s.next && n <= CEILING)
    && (Spent(s.log) ==> s.next > CEILING)
    && SpentForGood(s.log)
  }

  lemma NumbersAppend(log: seq<Entry>, e: Entry)
    ensures Numbers(log + [e]) == Numbers(log) + if e.outcome.Issued? then [e.outcome.number] else []
  {
    assert (log + [e])[..|log|] == log;
  }

  /** Logging a refusal keeps the log in order. */
  lemma RefusalKeeps(s: State, t: nat, op: Op, o: Outcome)
    requires Inv(s) && !o.Issued? && (op.Allocate? && o.Exhausted? ==> s.next > CEILING)
    ensures Inv(Finish(s, t, op, o))
  {
    NumbersAppend(s.log, Entry(op, o));
    assert Numbers(s.log) + [] == Numbers(s.log);
  }

  lemma IncreasingMore(numbers: seq<nat>, n: nat)
    requires Increasing(numbers) && forall k <- numbers :: k < n
    ensures Increasing(numbers + [n])
  {
    assert forall i :: 0 <= i < |numbers| ==> numbers[i] in numbers;
  }

  lemma UnspentMore(log: seq<Entry>, op: Op, n: nat)
    requires !Spent(log)
    ensures !Spent(log + [Entry(op, Issued(n))]) && SpentForGood(log + [Entry(op, Issued(n))])
  {
    var all := log + [Entry(op, Issued(n))];
    assert forall i :: 0 <= i < |log| ==> all[i] == log[i];
    assert forall i :: 0 <= i < |all| ==> all[i] != Entry(Allocate, Exhausted);
  }

  lemma IssueKeeps(s: State, t: nat, op: Op, n: nat)
    requires Inv(s) && s.next <= n <= CEILING
    ensures Inv(Finish(Store(s, n + 1), t, op, Issued(n)))
  {
    NumbersAppend(s.log, Entry(op, Issued(n)));
    IncreasingMore(Numbers(s.log), n);
    UnspentMore(s.log, op, n);
  }

  lemma AllocateTurnKeeps(s: State, t: nat, current: nat, spurious: bool, seen: nat)
    requires Inv(s) && current in s.history && seen in s.history
    ensures var s' := AllocateTurn(s, t, current, spurious, seen);
            Inv(s') && s.next <= s'.next
  {
    if current == EXHAUSTED || current > CEILING {
      RefusalKeeps(if s.next == current then Store(s, EXHAUSTED) else s, t, Allocate, Exhausted);
    } else if s.next == current && !spurious {
      IssueKeeps(s, t, Allocate, current);
    }
  }

  lemma ReserveTurnKeeps(s: State, t: nat, value: nat, current: nat, spurious: bool, seen: nat)
    requires Inv(s) && current in s.history && seen in s.history && value <= CEILING
    ensures var s' := ReserveTurn(s, t, value, current, spurious, seen);
            Inv(s') && s.next <= s'.next
  {
    if current == EXHAUSTED {
      RefusalKeeps(s, t, Reserve(value), Exhausted);
    } else if value < current {
      RefusalKeeps(s, t, Reserve(value), WouldReuse(value, current));
    } else if s.next == current && !spurious {
      IssueKeeps(s, t, Reserve(value), value);
    }
  }

  /** Every single step keeps the invariant and never lowers the counter. */
  lemma NextKeeps(s: State, e: Step)
    requires Inv(s)
    ensures Inv(Next(s, e)) && s.next <= Next(s, e).next
  {
    if e.seen !in s.history { return; }
    match e {
      case Call(t, op, seen) =>
        if Of(s, t).Idle? && op.Reserve? && op.value > CEILING { RefusalKeeps(s, t, op, Exhausted); }
      case Turn(t, spurious, seen) =>
        match Of(s, t) {
          case Idle =>
          case Trying(Allocate, current) => AllocateTurnKeeps(s, t, current, spurious, seen);
          case Trying(Reserve(value), current) => ReserveTurnKeeps(s, t, value, current, spurious, seen);
        }
    }
  }

  lemma {:induction false} RunKeeps(s: State, steps: seq<Step>)
    requires Inv(s)
    ensures Inv(Run(s, steps)) && s.next <= Run(s, steps).next
    decreases |steps|
  {
    if steps != [] {
      NextKeeps(s, steps[0]);
      RunKeeps(Next(s, steps[0]), steps[1..]);
    }
  }

  /** Under every interleaving, with stale loads and spurious failures: numbers are handed
      out in strictly increasing order, hence never twice, all at or below the ceiling, and
      never again once `allocate` has reported exhaustion; the counter never wraps. */
  lemma AllocatorIsSafe(steps: seq<Step>)
    ensures var s := Run(INIT, steps);
            && Increasing(Numbers(s.log))
            && (forall n <- Numbers(s.log) :: n <= CEILING && n < s.next)
            && SpentForGood(s.log) && s.next <= U64_MAX
  {
    assert Inv(INIT);
    RunKeeps(INIT, steps);
  }

  // ---- allocation alone ------------------------------------------------------

  function Upto(k: nat): seq<nat> { seq(k, i => i) }

  predicate OnlyAllocates(steps: seq<Step>) { forall e <- steps :: e.Call? ==> e.op.Allocate? }

  /** With `allocate` alone the numbers are 0, 1, 2, ... without a gap. */
  predicate Dense(s: State)
  {
    && (forall t :: t in s.threads && s.threads[t].Trying? ==> s.threads[t].op.Allocate?)
    && Numbers(s.log) == Upto(|Numbers(s.log)|)
    && |Numbers(s.log)| == if s.next == EXHAUSTED then CEILING + 1 else s.next
  }

  lemma DenseIssue(s: State, t: nat)
    requires Inv(s) && Dense(s) && s.next <= CEILING
    ensures Dense(Finish(Store(s, s.next + 1), t, Allocate, Issued(s.next)))
  {
    NumbersAppend(s.log, Entry(Allocate, Issued(s.next)));
    assert Upto(s.next) + [s.next] == Upto(s.next + 1);
  }

  lemma DenseRefusal(s: State, s1: State, t: nat)
    requires Inv(s) && Dense(s) && (s1 == s || (s1 == Store(s, EXHAUSTED) && s.next > CEILING))
    ensures Dense(Finish(s1, t, Allocate, Exhausted))
  {
    NumbersAppend(s.log, Entry(Allocate, Exhausted));
    assert Numbers(s.log) + [] == Numbers(s.log);
  }

  lemma DenseTurn(s: State, t: nat, current: nat, spurious: bool, seen: nat)
    requires Inv(s) && Dense(s) && current in s.history
    ensures Dense(AllocateTurn(s, t, current, spurious, seen))
  {
    if current > CEILING {
      DenseRefusal(s, if s.next == current then Store(s, EXHAUSTED) else s, t);
    } else if s.next == current && !spurious {
      DenseIssue(s, t);
    }
  }

  lemma DenseNext(s: State, e: Step)
    requires Inv(s) && Dense(s) && (e.Call? ==> e.op.Allocate?)
    ensures Dense(Next(s, e))
  {
    if e.Turn? && e.seen in s.history && Of(s, e.t).Trying? {
      DenseTurn(s, e.t, Of(s, e.t).current, e.spurious, e.seen);
    }
  }

  lemma {:induction false} DenseRun(s: State, steps: seq<Step>)
    requires Inv(s) && Dense(s) && OnlyAllocates(steps)
    ensures Dense(Run(s, steps)) && Inv(Run(s, steps))
    decreases |steps|
  {
    if steps != [] {
      NextKeeps(s, steps[0]);
      DenseNext(s, steps[0]);
      DenseRun(Next(s, steps[0]), steps[1..]);
    }
  }

  lemma AllocateLeavesNoGaps(steps: seq<Step>)
    requires OnlyAllocates(steps)
    ensures var s := Run(INIT, steps);
            Numbers(s.log) == Upto(|Numbers(s.log)|) && |Numbers(s.log)| <= CEILING + 1
  {
    assert Inv(INIT) && Dense(INIT);
    DenseRun(INIT, steps);
  }

  // ---- what a call answers ---------------------------------------------------

  /** A call that meets no other thread: it loads the counter and its exchange succeeds. */
  function Alone(s: State, t: nat, op: Op): State { Next(Next(s, Call(t, op, s.next)), Turn(t, false, s.next)) }

  /** Undisturbed, `allocate` hands out the next number or reports exhaustion for good, and
      `reserve` hands out exactly the number asked for, unless it is above the ceiling, the
      counter is exhausted, or the number is behind the counter. */
  lemma AloneAnswersExactly(s: State, t: nat, op: Op)
    requires Inv(s) && Of(s, t).Idle?
    ensures var s' := Alone(s, t, op);
            && Of(s', t).Idle?
            && match op
               case Allocate =>
                 if s.next <= CEILING then s'.next == s.next + 1 && s'.log == s.log + [Entry(op, Issued(s.next))]
                 else s'.next == U64_MAX && s'.log == s.log + [Entry(op, Exhausted)]
               case Reserve(v) =>
                 if v > CEILING || s.next == U64_MAX then s'.next == s.next && s'.log == s.log + [Entry(op, Exhausted)]
                 else if v < s.next then s'.next == s.next && s'.log == s.log + [Entry(op, WouldReuse(v, s.next))]
                 else s'.next == v + 1 && s'.log == s.log + [Entry(op, Issued(v))]
  {
  }

  predicate HonestEntry(e: Entry, next: nat)
  {
    match e.op
    case Reserve(v) =>
      && (e.outcome.Issued? ==> e.outcome.number == v)
      && (e.outcome.WouldReuse? ==> e.outcome.requested == v < e.outcome.next <= next)
      && (e.outcome.Exhausted? ==> v > CEILING || next == EXHAUSTED)
    case Allocate => !e.outcome.WouldReuse? && (e.outcome.Exhausted? ==> next > CEILING)
  }

  /** Whatever other threads do: a reservation is granted its own number only, and refused for
      reuse only if the counter was past that number; exhaustion is reported only when it is so. */
  predicate Honest(s: State) { forall e <- s.log :: HonestEntry(e, s.next) }

  lemma FinishHonest(s: State, s1: State, t: nat, op: Op, o: Outcome)
    requires Honest(s) && s1.log == s.log && s.next <= s1.next && (s.next == EXHAUSTED ==> s1.next == EXHAUSTED)
    requires HonestEntry(Entry(op, o), s1.next)
    ensures Honest(Finish(s1, t, op, o))
  {
    var s' := Finish(s1, t, op, o);
    forall e <- s'.log ensures HonestEntry(e, s'.next) {
      if e in s.log { assert HonestEntry(e, s.next); }
    }
  }

  lemma AllocateHonest(s: State, t: nat, current: nat, spurious: bool, seen: nat)
    requires Inv(s) && Honest(s) && current in s.history
    ensures Honest(AllocateTurn(s, t, current, spurious, seen))
  {
    if current == EXHAUSTED || current > CEILING {
      FinishHonest(s, if s.next == current then Store(s, EXHAUSTED) else s, t, Allocate, Exhausted);
    } else if s.next == current && !spurious {
      FinishHonest(s, Store(s, current + 1), t, Allocate, Issued(current));
    }
  }

  lemma ReserveHonest(s: State, t: nat, value: nat, current: nat, spurious: bool, seen: nat)
    requires Inv(s) && Honest(s) && current in s.history && value <= CEILING
    ensures Honest(ReserveTurn(s, t, value, current, spurious, seen))
  {
    if current == EXHAUSTED {
      FinishHonest(s, s, t, Reserve(value), Exhausted);
    } else if value < current {
      FinishHonest(s, s, t, Reserve(value), WouldReuse(value, current));
    } else if s.next == current && !spurious {
      FinishHonest(s, Store(s, value + 1), t, Reserve(value), Issued(value));
    }
  }

  lemma HonestNext(s: State, e: Step)
    requires Inv(s) && Honest(s)
    ensures Honest(Next(s, e))
  {
    if e.seen !in s.history { return; }
    match e {
      case Call(t, op, seen) =>
        if Of(s, t).Idle? && op.Reserve? && op.value > CEILING { FinishHonest(s, s, t, op, Exhausted); }
      case Turn(t, spurious, seen) =>
        match Of(s, t) {
          case Idle =>
          case Trying(Allocate, current) => AllocateHonest(s, t, current, spurious, seen);
          case Trying(Reserve(value), current) => ReserveHonest(s, t, value, current, spurious, seen);
        }
    }
  }

  lemma {:induction false} HonestRun(s: State, steps: seq<Step>)
    requires Inv(s) && Honest(s)
    ensures Honest(Run(s, steps))
    decreases |steps|
  {
    if steps != [] {
      NextKeeps(s, steps[0]);
      HonestNext(s, steps[0]);
      HonestRun(Next(s, steps[0]), steps[1..]);
    }
  }

  lemma AnswersAreHonest(steps: seq<Step>)
    ensures Honest(Run(INIT, steps))
  {
    assert Inv(INIT);
    HonestRun(INIT, steps);
  }
}
