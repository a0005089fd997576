/** Whole runs of the nonce store: registrations, purges, loss of storage, restarts. */
module NonceRuns {
  import opened Limits
  import opened Clocks
  import opened NonceStore

  type Pair = (Key, int)

  datatype Step =
    | Register(key: Key, ts: int, now: Reading)
    | Purge(now: Reading)
    | Lose(now: Reading)
    | Save
    | Restart(now: Reading)

  /** The store, its clock, every pair registered so far, and the last saved image with the
      number of registrations it was taken after. */
  datatype World = World(memory: Memory, clock: Clock, log: seq<Pair>, image: map<Key, int>, covered: nat)

  function Fresh(start: Reading): World { World(NEW, Start(start), [], map[], 0) }

  /** What the environment promises: steady clocks within one boot, a wall clock not moved
      back across a restart, and no image taken during a hold. */
  predicate Promised(w: World, s: Step)
  {
    match s
    case Save => !Held(w.memory, w.clock.last.mono)
    case Restart(now) => now.mono < U64_MAX && w.clock.last.wall <= now.wall
    case _ => Ticks(w.clock, s.now)
  }

  /** A restart forgets the registrations made since the image was taken. */
  function Next(c: Config, w: World, s: Step): World
  {
    match s
    case Register(key, ts, now) =>
      w.(memory := AfterRegister(c, w.memory, key, ts, now), clock := Tick(w.clock, now),
         log := if Verdict(c, w.memory, key, ts, now).Registered? then w.log + [(key, ts)] else w.log)
    case Purge(now) => w.(memory := NonceStore.Purge(w.memory, now), clock := Tick(w.clock, now))
    case Lose(now) => w.(memory := LoseStorage(c, w.memory, now), clock := Tick(w.clock, now))
    case Save => w.(image := Image(w.memory), covered := |w.log|)
    case Restart(now) =>
      w.(memory := Restored(w.image, now), clock := Start(now),
         log := if w.covered <= |w.log| then w.log[..w.covered] else w.log)
  }

  function Run(c: Config, w: World, steps: seq<Step>): World
    decreases |steps|
  {
    if steps == [] then w else Run(c, Next(c, w, steps[0]), steps[1..])
  }

  predicate KeptPromises(c: Config, w: World, steps: seq<Step>)
    decreases |steps|
  {
    steps != [] ==> Promised(w, steps[0]) && KeptPromises(c, Next(c, w, steps[0]), steps[1..])
  }

  /** The same of whole runs, in terms of the readings of the present boot: every one follows
      all before it. */
  predicate Promises(c: Config, w: World, boot: seq<Reading>, steps: seq<Step>)
    decreases |steps|
  {
    steps != [] ==>
      var s := steps[0];
      && (if s.Save? || s.Restart? then Promised(w, s) else forall r <- boot :: Follows(r, s.now))
      && Promises(c, Next(c, w, s), if s.Save? then boot else if s.Restart? then [s.now] else boot + [s.now], steps[1..])
  }

  /** The clock a world remembers checks each reading against all of its boot. */
  lemma {:induction false} PromisesAreKept(c: Config, w: World, boot: seq<Reading>, steps: seq<Step>)
    requires boot != [] && Pairwise(boot) && w.clock == Clocked(boot)
    ensures KeptPromises(c, w, steps) <==> Promises(c, w, boot, steps)
    decreases |steps|
  {
    if steps != [] {
      var s := steps[0];
      var w' := Next(c, w, s);
      if s.Save? {
        PromisesAreKept(c, w', boot, steps[1..]);
      } else if s.Restart? {
        if s.now.mono < U64_MAX { PromisesAreKept(c, w', [s.now], steps[1..]); }
      } else {
        TickComparesAll(boot, s.now);
        assert (forall r <- boot :: Follows(r, s.now)) <==> forall i :: 0 <= i < |boot| ==> Follows(boot[i], s.now);
        ClockedMore(boot, s.now);
        PairwiseTicks(boot, s.now);
        if Ticks(w.clock, s.now) { PromisesAreKept(c, w', boot + [s.now], steps[1..]); }
      }
    }
  }

  // ---- the invariant ---------------------------------------------------------

  /** A pair good up to wall second `last` cannot be registered: it is past, or its key is
      retained long enough, or a hold lasts long enough. */
  predicate Shielded(m: Memory, clock: Clock, key: Key, last: int)
  {
    || last < clock.last.wall
    || (key in m.entries && m.entries[key].last >= last && Covers(clock, m.entries[key].retainUntil, last))
    || (m.pausedUntil.Some? && Covers(clock, m.pausedUntil.value, last))
  }

  /** The image remembers a pair that may still be good. */
  predicate Imaged(image: map<Key, int>, wall: int, key: Key, last: int)
  {
    last < wall || (key in image && image[key] >= last)
  }

  predicate AllShielded(c: Config, m: Memory, clock: Clock, log: seq<Pair>)
  {
    forall p <- log :: Shielded(m, clock, p.0, p.1 + c.window) && p.1 <= clock.last.wall + c.window
  }

  predicate AllImaged(c: Config, w: World)
  {
    && w.covered <= |w.log|
    && forall p <- w.log[..w.covered] :: Imaged(w.image, w.clock.last.wall, p.0, p.1 + c.window)
  }

  predicate NoTwice(log: seq<Pair>) { forall i, j :: 0 <= i < j < |log| ==> log[i] != log[j] }

  ghost predicate Inv(c: Config, w: World)
  {
    && Going(w.clock)
    && AllShielded(c, w.memory, w.clock, w.log)
    && AllImaged(c, w)
    && NoTwice(w.log)
    && WithinCaps(c, w.memory.entries.Keys)
    && WithinCaps(c, w.image.Keys)
    && (Held(w.memory, w.clock.last.mono) ==> w.memory.entries == map[])
  }

  // ---- each step -------------------------------------------------------------

  lemma TickKeeps(clock: Clock, now: Reading)
    requires Going(clock) && Ticks(clock, now)
    ensures Going(Tick(clock, now)) && clock.last.wall <= now.wall
    ensures forall until: nat, last :: Covers(clock, until, last) ==> Covers(Tick(clock, now), until, last)
  {}

  /** What a purge forgets is past; what it leaves shields as before. */
  lemma PurgeShields(m: Memory, clock: Clock, now: Reading, key: Key, last: int)
    requires Going(clock) && Ticks(clock, now) && Shielded(m, clock, key, last)
    ensures Shielded(NonceStore.Purge(m, now), Tick(clock, now), key, last)
    ensures !Held(m, now.mono) ==> Shielded(NonceStore.Purge(m, now).(pausedUntil := None), Tick(clock, now), key, last)
  {
    TickKeeps(clock, now);
    var after := Tick(clock, now);
    if key in m.entries && m.entries[key].retainUntil <= now.mono && Covers(after, m.entries[key].retainUntil, last) {
      ForgottenIsPast(after, m.entries[key].retainUntil, last);
    }
    if m.pausedUntil.Some? && m.pausedUntil.value <= now.mono && Covers(after, m.pausedUntil.value, last) {
      ForgottenIsPast(after, m.pausedUntil.value, last);
    }
  }

  lemma TickShields(m: Memory, clock: Clock, now: Reading, key: Key, last: int)
    requires Going(clock) && Ticks(clock, now) && Shielded(m, clock, key, last)
    ensures Shielded(m, Tick(clock, now), key, last)
  {
    TickKeeps(clock, now);
  }

  /** A shielded pair is refused, and a registration leaves the others shielded. */
  lemma RegisterShields(c: Config, m: Memory, clock: Clock, key: Key, ts: int, now: Reading, k: Key, last: int)
    requires Going(clock) && Ticks(clock, now) && Shielded(m, clock, k, last)
    ensures Shielded(AfterRegister(c, m, key, ts, now), Tick(clock, now), k, last)
    ensures Verdict(c, m, key, ts, now).Registered? && k == key ==> last < now.wall
  {
    TickShields(m, clock, now, k, last);
    PurgeShields(m, clock, now, k, last);
  }

  lemma NewPairShielded(c: Config, m: Memory, clock: Clock, key: Key, ts: int, now: Reading)
    requires Verdict(c, m, key, ts, now).Registered?
    ensures Shielded(AfterRegister(c, m, key, ts, now), Tick(clock, now), key, ts + c.window)
  {
    DueCovers(Tick(clock, now), now, ts + c.window);
  }

  /** The hold after a loss outlasts every timestamp accepted before it. */
  lemma HoldShields(c: Config, m: Memory, clock: Clock, now: Reading, key: Key, ts: int)
    requires Going(clock) && Ticks(clock, now) && ts <= clock.last.wall + c.window
    ensures Shielded(LoseStorage(c, m, now), Tick(clock, now), key, ts + c.window)
  {
    TickKeeps(clock, now);
    var hold := 2 * c.window + STORAGE_RECOVERY_MARGIN_SECS;
    assert ts + c.window + 1 - now.wall <= hold;
    DueCovers(Tick(clock, now), now, ts + c.window);
    assert Due(now, ts + c.window) <= Later(now.mono, hold);
  }

  /** Outside a hold the image remembers every pair that may still be good. */
  lemma SaveImages(m: Memory, clock: Clock, key: Key, last: int)
    requires Going(clock) && Shielded(m, clock, key, last) && !Held(m, clock.last.mono)
    ensures Imaged(Image(m), clock.last.wall, key, last)
  {}

  lemma RestoreShields(image: map<Key, int>, wall: int, now: Reading, key: Key, last: int)
    requires Imaged(image, wall, key, last) && wall <= now.wall
    ensures Shielded(Restored(image, now), Start(now), key, last)
    ensures Imaged(image, now.wall, key, last)
  {
    if key in image && image[key] >= now.wall { DueCovers(Start(now), now, image[key]); }
  }

  // ---- all pairs -------------------------------------------------------------

  lemma LaterStillImaged(c: Config, w: World, wall: int)
    requires AllImaged(c, w) && w.clock.last.wall <= wall
    ensures forall p <- w.log[..w.covered] :: Imaged(w.image, wall, p.0, p.1 + c.window)
  {}

  lemma OldPairsKept(c: Config, w: World, key: Key, ts: int, now: Reading)
    requires Going(w.clock) && AllShielded(c, w.memory, w.clock, w.log) && Ticks(w.clock, now)
    ensures AllShielded(c, AfterRegister(c, w.memory, key, ts, now), Tick(w.clock, now), w.log)
    ensures Verdict(c, w.memory, key, ts, now).Registered? ==> (key, ts) !in w.log
  {
    TickKeeps(w.clock, now);
    forall p <- w.log
      ensures Shielded(AfterRegister(c, w.memory, key, ts, now), Tick(w.clock, now), p.0, p.1 + c.window)
      ensures Verdict(c, w.memory, key, ts, now).Registered? ==> p != (key, ts)
    {
      RegisterShields(c, w.memory, w.clock, key, ts, now, p.0, p.1 + c.window);
    }
  }

  lemma RegisterKeepsPairs(c: Config, w: World, key: Key, ts: int, now: Reading)
    requires Going(w.clock) && AllShielded(c, w.memory, w.clock, w.log) && NoTwice(w.log) && Ticks(w.clock, now)
    ensures var w' := Next(c, w, Register(key, ts, now));
            AllShielded(c, w'.memory, w'.clock, w'.log) && NoTwice(w'.log)
  {
    OldPairsKept(c, w, key, ts, now);
    if Verdict(c, w.memory, key, ts, now).Registered? {
      NewPairShielded(c, w.memory, w.clock, key, ts, now);
    }
  }

  lemma RegisterKeepsWorld(c: Config, w: World, key: Key, ts: int, now: Reading)
    requires Inv(c, w) && Ticks(w.clock, now)
    ensures Inv(c, Next(c, w, Register(key, ts, now)))
  {
    TickKeeps(w.clock, now);
    RegisterKeepsPairs(c, w, key, ts, now);
    RegisterKeeps(c, w.memory, key, ts, now);
    LaterStillImaged(c, w, now.wall);
    assert (w.log + [(key, ts)])[..w.covered] == w.log[..w.covered];
  }

  lemma PurgeKeepsWorld(c: Config, w: World, now: Reading)
    requires Inv(c, w) && Ticks(w.clock, now)
    ensures Inv(c, Next(c, w, Purge(now)))
  {
    TickKeeps(w.clock, now);
    LaterStillImaged(c, w, now.wall);
    SubsetWithinCaps(c, w.memory.entries.Keys, Unexpired(w.memory.entries, now.mono).Keys);
    forall p <- w.log
      ensures Shielded(NonceStore.Purge(w.memory, now), Tick(w.clock, now), p.0, p.1 + c.window)
    {
      PurgeShields(w.memory, w.clock, now, p.0, p.1 + c.window);
    }
  }

  lemma LoseKeepsWorld(c: Config, w: World, now: Reading)
    requires Inv(c, w) && Ticks(w.clock, now)
    ensures Inv(c, Next(c, w, Lose(now)))
  {
    TickKeeps(w.clock, now);
    LaterStillImaged(c, w, now.wall);
    SubsetWithinCaps(c, w.memory.entries.Keys, {});
    forall p <- w.log
      ensures Shielded(LoseStorage(c, w.memory, now), Tick(w.clock, now), p.0, p.1 + c.window)
    {
      HoldShields(c, w.memory, w.clock, now, p.0, p.1);
    }
  }

  lemma SaveKeepsWorld(c: Config, w: World)
    requires Inv(c, w) && Promised(w, Save)
    ensures Inv(c, Next(c, w, Save))
  {
    assert w.log[..|w.log|] == w.log;
    assert Image(w.memory).Keys == w.memory.entries.Keys;
    forall p <- w.log ensures Imaged(Image(w.memory), w.clock.last.wall, p.0, p.1 + c.window) {
      SaveImages(w.memory, w.clock, p.0, p.1 + c.window);
    }
  }

  lemma RestartKeepsWorld(c: Config, w: World, now: Reading)
    requires Inv(c, w) && Promised(w, Restart(now))
    ensures Inv(c, Next(c, w, Restart(now)))
  {
    var log := w.log[..w.covered];
    assert log[..w.covered] == log;
    SubsetWithinCaps(c, w.image.Keys, Restored(w.image, now).entries.Keys);
    forall p <- log
      ensures Shielded(Restored(w.image, now), Start(now), p.0, p.1 + c.window) && Imaged(w.image, now.wall, p.0, p.1 + c.window)
      ensures p.1 <= now.wall + c.window
    {
      assert p in w.log;
      RestoreShields(w.image, w.clock.last.wall, now, p.0, p.1 + c.window);
    }
  }

  lemma NextKeeps(c: Config, w: World, s: Step)
    requires Inv(c, w) && Promised(w, s)
    ensures Inv(c, Next(c, w, s))
  {
    match s {
      case Register(key, ts, now) => RegisterKeepsWorld(c, w, key, ts, now);
      case Purge(now) => PurgeKeepsWorld(c, w, now);
      case Lose(now) => LoseKeepsWorld(c, w, now);
      case Save => SaveKeepsWorld(c, w);
      case Restart(now) => RestartKeepsWorld(c, w, now);
    }
  }

  lemma {:induction false} RunKeeps(c: Config, w: World, steps: seq<Step>)
    requires Inv(c, w) && KeptPromises(c, w, steps)
    ensures Inv(c, Run(c, w, steps))
    decreases |steps|
  {
    if steps != [] {
      NextKeeps(c, w, steps[0]);
      RunKeeps(c, Next(c, w, steps[0]), steps[1..]);
    }
  }

  lemma NoneWithinCaps(c: Config)
    ensures WithinCaps(c, {})
  {
    forall n: Node ensures |Of({}, n)| <= c.perNodeMax { assert Of({}, n) == {}; }
  }

  /** In every run no pair is registered twice, although records are forgotten, storage is
      lost and the process restarts; and neither cap is ever exceeded. */
  lemma RegisteredAtMostOnce(c: Config, start: Reading, steps: seq<Step>)
    requires start.mono < U64_MAX && Promises(c, Fresh(start), [start], steps)
    ensures NoTwice(Run(c, Fresh(start), steps).log)
    ensures WithinCaps(c, Run(c, Fresh(start), steps).memory.entries.Keys)
  {
    NoneWithinCaps(c);
    PromisesAreKept(c, Fresh(start), [start], steps);
    RunKeeps(c, Fresh(start), steps);
  }

  // ---- when an image is safe to restore --------------------------------------

  /** After an image taken now and a restart at `now`, the pair is let in. */
  predicate Readmitted(c: Config, w: World, now: Reading, p: Pair)
  {
    Verdict(c, Restored(Image(w.memory), now), p.0, p.1, now).Registered?
  }

  lemma SavedPairRefused(c: Config, w: World, now: Reading, p: Pair)
    requires Inv(c, w) && Promised(w, Save) && Promised(w, Restart(now)) && p in w.log
    ensures !Readmitted(c, w, now, p)
  {
    SaveImages(w.memory, w.clock, p.0, p.1 + c.window);
    RestoreShields(Image(w.memory), w.clock.last.wall, now, p.0, p.1 + c.window);
    var m := Restored(Image(w.memory), now);
    if p.1 + c.window >= now.wall {
      assert p.0 in m.entries && m.entries[p.0].retainUntil > now.mono;
    }
  }

  /** A store in a hold has forgotten its records and its image carries no hold, so any pair
      in the window, registered before the loss or not, is let in by a restart. */
  lemma HeldImageForgets(c: Config, m: Memory, now: Reading, key: Key, ts: int)
    requires m.entries == map[] && c.perNodeMax > 0 && c.globalMax > 0 && c.rollbackTolerance >= 0
    ensures Verdict(c, Restored(Image(m), now), key, ts, now).Registered? <==> Acceptable(c, ts, now.wall)
  {
    var back := Restored(Image(m), now);
    assert Unexpired(back.entries, now.mono) == map[];
    assert Of({}, NodeOf(key)) == {};
  }

  lemma ImageSafety(c: Config, w: World)
    requires Inv(c, w) && c.perNodeMax > 0 && c.globalMax > 0 && c.rollbackTolerance >= 0
    ensures (forall now, p :: Promised(w, Restart(now)) && p in w.log ==> !Readmitted(c, w, now, p)) <==>
            !Held(w.memory, w.clock.last.mono) || forall p <- w.log :: p.1 + c.window < w.clock.last.wall
  {
    if !Held(w.memory, w.clock.last.mono) {
      forall now, p | Promised(w, Restart(now)) && p in w.log ensures !Readmitted(c, w, now, p) {
        SavedPairRefused(c, w, now, p);
      }
    } else if p: Pair :| p in w.log && p.1 + c.window >= w.clock.last.wall {
      var now := Reading(w.clock.last.wall, 0);
      HeldImageForgets(c, w.memory, now, p.0, p.1);
      assert Promised(w, Restart(now)) && Readmitted(c, w, now, p);
    }
  }

  /** In any world a run can reach: restarting from an image taken now keeps every registered
      pair out, at every later reading, exactly when there is no hold, or every pair is already
      past. */
  lemma ImageIsSafeExactlyOutsideHold(c: Config, start: Reading, steps: seq<Step>)
    requires start.mono < U64_MAX && Promises(c, Fresh(start), [start], steps)
    requires c.perNodeMax > 0 && c.globalMax > 0 && c.rollbackTolerance >= 0
    ensures var w := Run(c, Fresh(start), steps);
            (forall now, p :: Promised(w, Restart(now)) && p in w.log ==> !Readmitted(c, w, now, p)) <==>
            !Held(w.memory, w.clock.last.mono) || forall p <- w.log :: p.1 + c.window < w.clock.last.wall
  {
    NoneWithinCaps(c);
    PromisesAreKept(c, Fresh(start), [start], steps);
    RunKeeps(c, Fresh(start), steps);
    ImageSafety(c, Run(c, Fresh(start), steps));
  }

  /** And a hold does come with pairs that are not yet past: registered, lost, saved at once. */
  lemma HoldWithLivePair(c: Config, key: Key, start: Reading)
    requires c.perNodeMax > 0 && c.globalMax > 0 && start.mono + 1000 * (2 * c.window + STORAGE_RECOVERY_MARGIN_SECS) < U64_MAX
    ensures var w := Run(c, Fresh(start), [Register(key, start.wall, start), Lose(start)]);
            Held(w.memory, w.clock.last.mono) && w.log == [(key, start.wall)] && w.clock.last == start
  {
    var steps := [Register(key, start.wall, start), Lose(start)];
    assert steps[1..] == [Lose(start)] && steps[1..][1..] == [];
    assert Unexpired(NEW.entries, start.mono) == map[] && Of({}, NodeOf(key)) == {};
    var w1 := Next(c, Fresh(start), steps[0]);
    assert w1.log == [(key, start.wall)];
    assert Run(c, w1, [Lose(start)]) == Next(c, w1, Lose(start)) by { assert Run(c, Next(c, w1, Lose(start)), []) == Next(c, w1, Lose(start)); }
  }

  // ---- the wall clock it has seen --------------------------------------------

  /** The wall readings of the present boot that count: those of registrations whose timestamp
      was in the window, refused or not, and that of the restart. */
  function Shown(c: Config, seen: seq<int>, s: Step): seq<int>
  {
    match s
    case Register(_, ts, now) => if now.wall - c.window <= ts <= now.wall + c.window then seen + [now.wall] else seen
    case Restart(now) => [now.wall]
    case _ => seen
  }

  function Seen(c: Config, seen: seq<int>, steps: seq<Step>): seq<int>
    decreases |steps|
  {
    if steps == [] then seen else Seen(c, Shown(c, seen, steps[0]), steps[1..])
  }

  /** The remembered reading is the highest of those, however the clock moved. */
  predicate Remembers(lastWall: Option<int>, seen: seq<int>)
  {
    && (lastWall.None? <==> seen == [])
    && (lastWall.Some? ==> lastWall.value in seen && forall w <- seen :: w <= lastWall.value)
  }

  lemma RemembersStep(c: Config, w: World, s: Step, seen: seq<int>)
    requires Remembers(w.memory.lastWall, seen)
    ensures Remembers(Next(c, w, s).memory.lastWall, Shown(c, seen, s))
  {
    match s {
      case Register(key, ts, now) => RegisterAnswersExactly(c, w.memory, key, ts, now);
      case _ =>
    }
  }

  lemma {:induction false} RemembersRun(c: Config, w: World, steps: seq<Step>, seen: seq<int>)
    requires Remembers(w.memory.lastWall, seen)
    ensures Remembers(Run(c, w, steps).memory.lastWall, Seen(c, seen, steps))
    decreases |steps|
  {
    if steps != [] {
      RemembersStep(c, w, steps[0], seen);
      RemembersRun(c, Next(c, w, steps[0]), steps[1..], Shown(c, seen, steps[0]));
    }
  }

  /** In every run, clocks moving back included: the store remembers the highest wall reading it
      was shown in this boot, and a registration is refused for rollback exactly when its own
      reading is below some earlier one by more than the tolerance. */
  lemma RollbackSeenExactly(c: Config, start: Reading, steps: seq<Step>, key: Key, ts: int, now: Reading)
    requires c.rollbackTolerance >= 0
    ensures var (m, seen) := (Run(c, Fresh(start), steps).memory, Seen(c, [], steps));
            var o := Verdict(c, m, key, ts, now);
            && Remembers(m.lastWall, seen)
            && (o.ClockRollback? <==>
                  now.wall - c.window <= ts <= now.wall + c.window && exists w <- seen :: now.wall < w - c.rollbackTolerance)
            && (o == Registered ==> forall w <- seen :: now.wall >= w - c.rollbackTolerance)
  {
    RemembersRun(c, Fresh(start), steps, []);
    RegisterAnswersExactly(c, Run(c, Fresh(start), steps).memory, key, ts, now);
  }
}
