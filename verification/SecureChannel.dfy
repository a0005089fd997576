/** Allocator, unreliable channel and replay window composed: one direction of a session.
    The AEAD is ideal, so the receiver judges only records that were really sealed. */
module SecureChannel {
  import opened Limits
  import PacketNumbers
  import opened ReplayWindow

  /** A step of the sender's threads, or the arrival of some sealed record: any record, in
      any order, any number of times. Records that never arrive are lost. */
  datatype Step = Seal(step: PacketNumbers.Step) | Arrive(record: nat)

  /** `record` counts sealed records in sealing order; each carries the number at its place. */
  datatype Channel = Channel(
    sender: PacketNumbers.State,
    receiver: Ledger,
    arrived: set<nat>,
    arrivals: seq<nat>,
    verdicts: seq<Verdict>)

  const START: Channel := Channel(PacketNumbers.INIT, EMPTY, {}, [], [])

  function Sealed(c: Channel): seq<nat> { PacketNumbers.Numbers(c.sender.log) }

  function Next(c: Channel, s: Step): Channel
  {
    match s
    case Seal(step) => c.(sender := PacketNumbers.Next(c.sender, step))
    case Arrive(i) =>
      if i >= |Sealed(c)| then c
      else
        var n := Sealed(c)[i];
        Channel(c.sender, Enter(c.receiver, n), c.arrived + {i}, c.arrivals + [i], c.verdicts + [Judge(c.receiver, n)])
  }

  function Run(c: Channel, steps: seq<Step>): Channel
    decreases |steps|
  {
    if steps == [] then c else Run(Next(c, steps[0]), steps[1..])
  }

  // ---- at most once ----------------------------------------------------------

  /** A record already accepted is in the receiver's ledger, and no record twice. */
  predicate Once(c: Channel)
  {
    && |c.verdicts| == |c.arrivals|
    && (forall k :: 0 <= k < |c.arrivals| ==> c.arrivals[k] < |Sealed(c)|)
    && Bounded(c.receiver)
    && (forall k :: 0 <= k < |c.arrivals| && c.verdicts[k].Accepted? ==> Sealed(c)[c.arrivals[k]] in c.receiver.accepted)
    && (forall j, k :: 0 <= j < k < |c.arrivals| && c.verdicts[j].Accepted? && c.verdicts[k].Accepted? ==>
          c.arrivals[j] != c.arrivals[k])
  }

  /** Sealing more never renumbers what is sealed. */
  lemma SealExtends(s: PacketNumbers.State, e: PacketNumbers.Step)
    ensures var (a, b) := (PacketNumbers.Numbers(s.log), PacketNumbers.Numbers(PacketNumbers.Next(s, e).log));
            |a| <= |b| && b[..|a|] == a
  {
    var s' := PacketNumbers.Next(s, e);
    assert s'.log == s.log || (|s'.log| == |s.log| + 1 && s'.log == s.log + [s'.log[|s.log|]]);
    if s'.log != s.log {
      PacketNumbers.NumbersAppend(s.log, s'.log[|s.log|]);
    }
  }

  lemma ArriveOnce(c: Channel, i: nat)
    requires Once(c) && i < |Sealed(c)|
    ensures Once(Next(c, Arrive(i)))
  {
    var d := Next(c, Arrive(i));
    var n := Sealed(c)[i];
    assert d.arrivals[..|c.arrivals|] == c.arrivals && d.verdicts[..|c.arrivals|] == c.verdicts;
    assert Judge(c.receiver, n).Accepted? ==> n !in c.receiver.accepted;
  }

  lemma NextOnce(c: Channel, s: Step)
    requires Once(c)
    ensures Once(Next(c, s))
  {
    match s {
      case Seal(step) =>
        SealExtends(c.sender, step);
        var a, b := Sealed(c), Sealed(Next(c, s));
        assert forall i :: 0 <= i < |a| ==> b[i] == a[i];
      case Arrive(i) => if i < |Sealed(c)| { ArriveOnce(c, i); }
    }
  }

  /** Whatever the threads and the network do, each sealed record is accepted at most once. */
  lemma {:induction false} AcceptedAtMostOnce(c: Channel, steps: seq<Step>)
    requires Once(c)
    ensures Once(Run(c, steps))
    decreases |steps|
  {
    if steps != [] {
      NextOnce(c, steps[0]);
      AcceptedAtMostOnce(Next(c, steps[0]), steps[1..]);
    }
  }

  // ---- no false refusal ------------------------------------------------------

  /** The scheduler's promise: whatever is more than `k` behind the newest seal has arrived. */
  predicate Paced(c: Channel, k: nat)
  {
    forall m: nat :: m + k < |Sealed(c)| ==> m in c.arrived
  }

  predicate PacedRun(c: Channel, steps: seq<Step>, k: nat)
    decreases |steps|
  {
    Paced(c, k) && (steps != [] ==> PacedRun(Next(c, steps[0]), steps[1..], k))
  }

  predicate AllocateOnly(steps: seq<Step>)
  {
    forall s <- steps :: s.Seal? && s.step.Call? ==> s.step.op.Allocate?
  }

  /** Every first arrival so far was accepted, so the ledger is exactly what has arrived. */
  predicate Smooth(c: Channel)
  {
    && PacketNumbers.Inv(c.sender) && PacketNumbers.Dense(c.sender)
    && c.receiver.accepted == c.arrived
    && (forall m <- c.arrived :: m < |Sealed(c)|)
    && Bounded(c.receiver)
    && (c.receiver.highest.Some? ==> c.receiver.highest.value in c.arrived)
  }

  /** A first arrival within the pace is accepted; a repeat changes nothing. */
  lemma FirstArrivalAccepted(c: Channel, i: nat, k: nat)
    requires Smooth(c) && Paced(c, k) && k <= REPLAY_WINDOW && i < |Sealed(c)|
    ensures Sealed(c)[i] == i
    ensures i !in c.arrived ==> Judge(c.receiver, i).Accepted?
    ensures Smooth(Next(c, Arrive(i)))
  {
    if c.receiver.highest.Some? {
      var h := c.receiver.highest.value;
      if i > h {
        assert h + 1 !in c.arrived;
        assert !(h + 1 + k < |Sealed(c)|);
      } else if i !in c.arrived {
        assert !(i + k < |Sealed(c)|);
      }
    }
  }

  /** No first arrival is refused in any paced run without other uses of the counter. */
  lemma {:induction false} NoFirstArrivalRefused(c: Channel, steps: seq<Step>, k: nat)
    requires Smooth(c) && k <= REPLAY_WINDOW && PacedRun(c, steps, k) && AllocateOnly(steps)
    ensures Run(c, steps).receiver.accepted == Run(c, steps).arrived
    decreases |steps|
  {
    if steps != [] {
      match steps[0] {
        case Seal(step) =>
          PacketNumbers.NextKeeps(c.sender, step);
          PacketNumbers.DenseNext(c.sender, step);
          SealExtends(c.sender, step);
        case Arrive(i) =>
          if i < |Sealed(c)| { FirstArrivalAccepted(c, i, k); }
      }
      NoFirstArrivalRefused(Next(c, steps[0]), steps[1..], k);
    }
  }

  lemma StartSmooth()
    ensures Smooth(START) && Once(START) && Sealed(START) == []
  {
    assert PacketNumbers.Numbers([]) == [];
  }

  /** The configured in-flight bound is such a pace. */
  lemma InFlightBoundSuffices(steps: seq<Step>)
    requires PacedRun(START, steps, MAX_IN_FLIGHT_RECORDS) && AllocateOnly(steps)
    ensures var c := Run(START, steps);
            Once(c) && c.receiver.accepted == c.arrived
  {
    StartSmooth();
    NoFirstArrivalRefused(START, steps, MAX_IN_FLIGHT_RECORDS);
    AcceptedAtMostOnce(START, steps);
  }

  // ---- the bound is exact ----------------------------------------------------

  /** One uncontended allocation by thread 0: a load and a successful exchange. */
  function SealOne(n: nat): seq<Step>
  {
    [Seal(PacketNumbers.Call(0, PacketNumbers.Allocate, n)), Seal(PacketNumbers.Turn(0, false, n))]
  }

  /** Nothing has arrived, and thread 0 has sealed 0, 1, ... up to `n`. */
  predicate Waiting(c: Channel, n: nat)
  {
    && c.sender.next == n && n in c.sender.history && PacketNumbers.Of(c.sender, 0).Idle?
    && |Sealed(c)| == n && (forall i :: 0 <= i < n ==> Sealed(c)[i] == i)
    && c.receiver == EMPTY && c.arrived == {}
  }

  lemma SealOneMore(c: Channel, n: nat)
    requires Waiting(c, n) && n <= REPLAY_WINDOW
    ensures var (a, b) := (SealOne(n)[0], SealOne(n)[1]);
            && |Sealed(Next(c, a))| == n
            && Waiting(Next(Next(c, a), b), n + 1)
  {
    PacketNumbers.NumbersAppend(c.sender.log, PacketNumbers.Entry(PacketNumbers.Allocate, PacketNumbers.Issued(n)));
  }

  /** With nothing arrived before a whole window has been sealed, record 0 comes too late. */
  lemma ZeroTooLate(c: Channel)
    requires Waiting(c, REPLAY_WINDOW + 1)
    ensures var (d, e) := (Next(c, Arrive(REPLAY_WINDOW)), Next(Next(c, Arrive(REPLAY_WINDOW)), Arrive(0)));
            && |Sealed(d)| == |Sealed(e)| == REPLAY_WINDOW + 1
            && 0 in e.arrived && e.receiver.accepted == {REPLAY_WINDOW}
  {
    var d := Next(c, Arrive(REPLAY_WINDOW));
    assert Sealed(c)[REPLAY_WINDOW] == REPLAY_WINDOW && Sealed(c)[0] == 0;
    assert d.receiver == Ledger(Some(REPLAY_WINDOW), {REPLAY_WINDOW});
    assert Judge(d.receiver, 0).TooOld?;
  }

  lemma TwoSteps(c: Channel, a: Step, b: Step, rest: seq<Step>, k: nat) returns (steps: seq<Step>)
    requires Paced(c, k) && Paced(Next(c, a), k) && PacedRun(Next(Next(c, a), b), rest, k)
    requires AllocateOnly([a, b]) && AllocateOnly(rest)
    ensures steps == [a, b] + rest && PacedRun(c, steps, k) && AllocateOnly(steps)
    ensures Run(c, steps) == Run(Next(Next(c, a), b), rest)
  {
    steps := [a, b] + rest;
    assert steps[1..] == [b] + rest && steps[1..][1..] == rest;
  }

  lemma {:induction false} LateRun(c: Channel, n: nat, k: nat) returns (steps: seq<Step>)
    requires Waiting(c, n) && n <= REPLAY_WINDOW + 1 && k > REPLAY_WINDOW
    ensures PacedRun(c, steps, k) && AllocateOnly(steps)
    ensures 0 in Run(c, steps).arrived && 0 !in Run(c, steps).receiver.accepted
    decreases REPLAY_WINDOW + 1 - n
  {
    if n == REPLAY_WINDOW + 1 {
      ZeroTooLate(c);
      steps := TwoSteps(c, Arrive(REPLAY_WINDOW), Arrive(0), [], k);
    } else {
      SealOneMore(c, n);
      var rest := LateRun(Next(Next(c, SealOne(n)[0]), SealOne(n)[1]), n + 1, k);
      steps := TwoSteps(c, SealOne(n)[0], SealOne(n)[1], rest, k);
    }
  }

  /** A first arrival was refused in `c`. */
  predicate Refused(c: Channel) { c.receiver.accepted != c.arrived }

  /** A pace keeps first arrivals safe in every run exactly when it is within the window. */
  lemma WindowIsTheExactPace(k: nat)
    ensures k <= REPLAY_WINDOW <==>
            forall steps :: PacedRun(START, steps, k) && AllocateOnly(steps) ==> !Refused(Run(START, steps))
  {
    StartSmooth();
    if k <= REPLAY_WINDOW {
      forall steps | PacedRun(START, steps, k) && AllocateOnly(steps) ensures !Refused(Run(START, steps)) {
        NoFirstArrivalRefused(START, steps, k);
      }
    } else {
      var steps := LateRun(START, 0, k);
      assert Refused(Run(START, steps));
    }
  }
}
