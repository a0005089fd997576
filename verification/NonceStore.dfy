/** The authentication-nonce registry (crates/wsnet-auth-store/src/nonce.rs). */
module NonceStore {
  import opened Limits
  import opened Clocks

  const STORAGE_RECOVERY_MARGIN_SECS: nat := 10

  datatype Key = Key(hubId: string, keyId: string, nodeId: string, nonce: Bytes)

  type Node = (string, string)

  datatype Scope = PerNode | Global

  datatype Outcome =
    | Registered
    | TimestampOutOfWindow
    | ClockRollback(last: int, now: int)
    | StorageUnavailable(resumeAt: nat)
    | Duplicate
    | CapacityExceeded(scope: Scope)

  datatype Config = Config(window: nat, perNodeMax: nat, globalMax: nat, rollbackTolerance: int)

  predicate ValidConfig(c: Config) { AUTH_WINDOW_MIN_SECS <= c.window <= AUTH_WINDOW_MAX_SECS }

  datatype Entry = Entry(retainUntil: nat, last: int)

  /** What the store remembers; the per-node index is derived from it. */
  datatype Memory = Memory(entries: map<Key, Entry>, lastWall: Option<int>, pausedUntil: Option<nat>)

  const NEW: Memory := Memory(map[], None, None)

  function NodeOf(k: Key): Node { (k.hubId, k.nodeId) }

  function Of(keys: set<Key>, n: Node): set<Key> { set k <- keys | NodeOf(k) == n }

  function Nodes(keys: set<Key>): set<Node> { set k <- keys :: NodeOf(k) }

  /** The exact number of keys of each node that has any. */
  function Census(keys: set<Key>): map<Node, nat> { map n | n in Nodes(keys) :: |Of(keys, n)| }

  // ---- the operations on values ----------------------------------------------

  predicate Acceptable(c: Config, ts: int, wall: int) { wall - c.window <= ts <= wall + c.window }

  function Unexpired(entries: map<Key, Entry>, mono: nat): map<Key, Entry>
  {
    map k | k in entries && entries[k].retainUntil > mono :: entries[k]
  }

  predicate RolledBack(c: Config, m: Memory, now: Reading)
  {
    m.lastWall.Some? && now.wall < m.lastWall.value - c.rollbackTolerance
  }

  predicate Held(m: Memory, mono: nat) { m.pausedUntil.Some? && mono < m.pausedUntil.value }

  function Highest(last: Option<int>, wall: int): int
  {
    if last.Some? then Max(last.value, wall) else wall
  }

  function Verdict(c: Config, m: Memory, key: Key, ts: int, now: Reading): Outcome
  {
    var live := Unexpired(m.entries, now.mono);
    if !Acceptable(c, ts, now.wall) then TimestampOutOfWindow
    else if RolledBack(c, m, now) then ClockRollback(m.lastWall.value, now.wall)
    else if Held(m, now.mono) then StorageUnavailable(m.pausedUntil.value)
    else if key in live then Duplicate
    else if |live| >= c.globalMax then CapacityExceeded(Global)
    else if |Of(live.Keys, NodeOf(key))| >= c.perNodeMax then CapacityExceeded(PerNode)
    else Registered
  }

  function AfterRegister(c: Config, m: Memory, key: Key, ts: int, now: Reading): Memory
  {
    var wall := Some(Highest(m.lastWall, now.wall));
    var live := Unexpired(m.entries, now.mono);
    match Verdict(c, m, key, ts, now)
    case TimestampOutOfWindow => m
    case ClockRollback(_, _) => m.(lastWall := wall)
    case StorageUnavailable(_) => m.(lastWall := wall)
    case Registered => Memory(live[key := Entry(Due(now, ts + c.window), ts + c.window)], wall, None)
    case _ => Memory(live, wall, None)
  }

  function Purge(m: Memory, now: Reading): Memory { m.(entries := Unexpired(m.entries, now.mono)) }

  function LoseStorage(c: Config, m: Memory, now: Reading): Memory
  {
    Memory(map[], m.lastWall, Some(Later(now.mono, 2 * c.window + STORAGE_RECOVERY_MARGIN_SECS)))
  }

  function Image(m: Memory): map<Key, int> { map k | k in m.entries :: m.entries[k].last }

  function Restored(image: map<Key, int>, now: Reading): Memory
  {
    Memory(map k | k in image && image[k] >= now.wall :: Entry(Due(now, image[k]), image[k]), Some(now.wall), None)
  }

  // ---- the index -------------------------------------------------------------

  lemma OfAdd(keys: set<Key>, k: Key, n: Node)
    requires k !in keys
    ensures |Of(keys + {k}, n)| == |Of(keys, n)| + if n == NodeOf(k) then 1 else 0
  {
    assert Of(keys + {k}, n) == Of(keys, n) + if n == NodeOf(k) then {k} else {};
  }

  lemma CensusAdd(keys: set<Key>, k: Key)
    requires k !in keys
    ensures var (c, n) := (Census(keys), NodeOf(k));
            Census(keys + {k}) == c[n := (if n in c then c[n] else 0) + 1]
  {
    var c, d := Census(keys), Census(keys + {k});
    assert d.Keys == c.Keys + {NodeOf(k)};
    forall n: Node | n in d ensures d[n] == (if n in c then c[n] else 0) + if n == NodeOf(k) then 1 else 0 {
      OfAdd(keys, k, n);
      if n !in c { assert Of(keys, n) == {}; }
    }
  }

  lemma CensusRemove(keys: set<Key>, k: Key)
    requires k in keys
    ensures var (c, n) := (Census(keys), NodeOf(k));
            n in c && Census(keys - {k}) == if c[n] > 1 then c[n := c[n] - 1] else c - {n}
  {
    CensusAdd(keys - {k}, k);
    assert keys - {k} + {k} == keys;
    var rest, n := Census(keys - {k}), NodeOf(k);
    assert n in rest ==> rest[n] > 0 by {
      if n in rest {
        var k' :| k' in keys - {k} && NodeOf(k') == n;
        assert k' in Of(keys - {k}, n);
      }
    }
    assert n !in rest ==> Census(keys) - {n} == rest;
  }

  // ---- single calls ----------------------------------------------------------

  /** Both caps hold. */
  ghost predicate WithinCaps(c: Config, keys: set<Key>)
  {
    |keys| <= c.globalMax && forall n: Node :: |Of(keys, n)| <= c.perNodeMax
  }

  lemma Smaller<T>(a: set<T>, b: set<T>)
    requires a <= b
    ensures |a| <= |b|
  {
    assert b == a + (b - a);
  }

  lemma SubsetWithinCaps(c: Config, keys: set<Key>, fewer: set<Key>)
    requires WithinCaps(c, keys) && fewer <= keys
    ensures WithinCaps(c, fewer)
  {
    Smaller(fewer, keys);
    forall n: Node ensures |Of(fewer, n)| <= c.perNodeMax { Smaller(Of(fewer, n), Of(keys, n)); }
  }

  lemma OneMoreWithinCaps(c: Config, live: map<Key, Entry>, key: Key, e: Entry)
    requires WithinCaps(c, live.Keys) && key !in live
    requires |live| < c.globalMax && |Of(live.Keys, NodeOf(key))| < c.perNodeMax
    ensures WithinCaps(c, live[key := e].Keys)
  {
    assert live[key := e].Keys == live.Keys + {key};
    forall n: Node ensures |Of(live.Keys + {key}, n)| <= c.perNodeMax { OfAdd(live.Keys, key, n); }
  }

  /** No call exceeds a cap, and no call, refused or not, drops an unexpired record. */
  lemma RegisterKeeps(c: Config, m: Memory, key: Key, ts: int, now: Reading)
    requires WithinCaps(c, m.entries.Keys)
    ensures var after := AfterRegister(c, m, key, ts, now).entries;
            && WithinCaps(c, after.Keys)
            && (forall k :: k in m.entries && m.entries[k].retainUntil > now.mono ==> k in after && after[k] == m.entries[k])
            && (!Verdict(c, m, key, ts, now).Registered? ==> after.Keys <= m.entries.Keys)
  {
    var live := Unexpired(m.entries, now.mono);
    SubsetWithinCaps(c, m.entries.Keys, live.Keys);
    if Verdict(c, m, key, ts, now).Registered? {
      OneMoreWithinCaps(c, live, key, Entry(Due(now, ts + c.window), ts + c.window));
    }
  }

  // ---- exactly what a registration answers -----------------------------------

  /** The records still retained, and those of the same Hub and node. */
  function Retained(m: Memory, mono: nat): set<Key> { set k | k in m.entries && m.entries[k].retainUntil > mono }

  function OfSameNode(m: Memory, key: Key, mono: nat): set<Key>
  {
    set k | k in m.entries && m.entries[k].retainUntil > mono && k.hubId == key.hubId && k.nodeId == key.nodeId
  }

  /** The answers, each exactly when its check is the first to fail: the window, the wall clock,
      the hold, the record itself, the store's cap, the node's cap. */
  lemma RegisterAnswersExactly(c: Config, m: Memory, key: Key, ts: int, now: Reading)
    ensures var o := Verdict(c, m, key, ts, now);
            var inWindow := now.wall - c.window <= ts <= now.wall + c.window;
            var steady := m.lastWall.Some? ==> m.lastWall.value - now.wall <= c.rollbackTolerance;
            var open := m.pausedUntil.Some? ==> now.mono >= m.pausedUntil.value;
            var known := key in Retained(m, now.mono);
            var full := |Retained(m, now.mono)| >= c.globalMax;
            var crowded := |OfSameNode(m, key, now.mono)| >= c.perNodeMax;
            && (o == TimestampOutOfWindow <==> !inWindow)
            && (o.ClockRollback? <==> inWindow && !steady)
            && (o.ClockRollback? ==> m.lastWall == Some(o.last) && o.now == now.wall)
            && (o.StorageUnavailable? <==> inWindow && steady && !open)
            && (o.StorageUnavailable? ==> m.pausedUntil == Some(o.resumeAt))
            && (o == Duplicate <==> inWindow && steady && open && known)
            && (o == CapacityExceeded(Global) <==> inWindow && steady && open && !known && full)
            && (o == CapacityExceeded(PerNode) <==> inWindow && steady && open && !known && !full && crowded)
            && (o == Registered <==> inWindow && steady && open && !known && !full && !crowded)
  {
    var live := Unexpired(m.entries, now.mono);
    assert live.Keys == Retained(m, now.mono);
    assert Of(live.Keys, NodeOf(key)) == OfSameNode(m, key, now.mono);
  }

  /** What a registration leaves behind: a refusal before the purge changes no record; after it,
      exactly the retained ones stay, and a registered pair is kept until one second past the
      last second its timestamp is acceptable. */
  lemma RegisterLeavesExactly(c: Config, m: Memory, key: Key, ts: int, now: Reading)
    ensures var (o, after) := (Verdict(c, m, key, ts, now), AfterRegister(c, m, key, ts, now));
            && (o == TimestampOutOfWindow ==> after == m)
            && (o.ClockRollback? || o.StorageUnavailable? ==> after.entries == m.entries && after.pausedUntil == m.pausedUntil)
            && (o == Duplicate || o.CapacityExceeded? || o == Registered ==>
                  && after.pausedUntil == None
                  && (forall k <- Retained(m, now.mono) :: k in after.entries && after.entries[k] == m.entries[k])
                  && after.entries.Keys == Retained(m, now.mono) + if o == Registered then {key} else {})
            && (o == Registered ==>
                  && after.entries[key].last == ts + c.window
                  && after.entries[key].retainUntil == Min(U64_MAX, now.mono + 1000 * (ts + c.window + 1 - now.wall)))
  {
  }

  /** What a loss leaves: nothing but a hold of twice the window and ten seconds. */
  lemma LossLeavesExactly(c: Config, m: Memory, now: Reading)
    ensures var after := LoseStorage(c, m, now);
            after.entries == map[] && after.lastWall == m.lastWall
            && after.pausedUntil == Some(Min(U64_MAX, now.mono + 1000 * (2 * c.window + 10)))
  {
  }

  /** Room for one more record of the key's node. */
  predicate HasRoom(c: Config, live: map<Key, Entry>, key: Key)
  {
    |live| < c.globalMax && |Of(live.Keys, NodeOf(key))| < c.perNodeMax
  }

  /** A second presentation of a registered pair gets in, whatever else the store holds,
      exactly when the monotonic clock has run past the retention while the wall clock has
      stayed inside the window and its tolerance, and there is room. */
  lemma ReplayAcceptedExactlyWhen(c: Config, m: Memory, key: Key, ts: int, a: Reading, b: Reading)
    requires a.mono < U64_MAX && b.mono < U64_MAX && Verdict(c, m, key, ts, a).Registered?
    ensures var after := AfterRegister(c, m, key, ts, a);
            Verdict(c, after, key, ts, b).Registered? <==>
            && b.mono - a.mono >= 1000 * (ts + c.window + 1 - a.wall)
            && b.wall - c.window <= ts <= b.wall + c.window && b.wall >= a.wall - c.rollbackTolerance
            && (m.lastWall.Some? ==> b.wall >= m.lastWall.value - c.rollbackTolerance)
            && HasRoom(c, Unexpired(after.entries, b.mono), key)
  {
    var after := AfterRegister(c, m, key, ts, a);
    assert after.entries[key] == Entry(Due(a, ts + c.window), ts + c.window);
  }

  /** A wall clock one second slow is enough: the pair registered at second 120 is
      registered again 241 s later, while the wall clock shows 240 s more. */
  lemma OneSecondLagDefeatsRetention(key: Key)
    ensures var (c, a, b) := (Config(120, 4, 4, 1), Reading(0, 0), Reading(240, 241_000));
            && Verdict(c, NEW, key, 120, a).Registered?
            && Verdict(c, AfterRegister(c, NEW, key, 120, a), key, 120, b).Registered?
  {
    var c, a, b := Config(120, 4, 4, 1), Reading(0, 0), Reading(240, 241_000);
    assert Of({}, NodeOf(key)) == {};
    assert Unexpired(NEW.entries, a.mono) == map[];
    ReplayAcceptedExactlyWhen(c, NEW, key, 120, a, b);
    var live := Unexpired(AfterRegister(c, NEW, key, 120, a).entries, b.mono);
    assert live == map[] && Of(live.Keys, NodeOf(key)) == {};
  }

  /** A snapshot knows of each record its last acceptable second, and a restore brings back
      exactly those that are not past, retained until one second past it. */
  lemma RestoreBringsBackExactly(m: Memory, now: Reading)
    ensures var back := Restored(Image(m), now);
            && back.entries.Keys == (set k | k in m.entries && m.entries[k].last >= now.wall)
            && (forall k <- back.entries.Keys :: back.entries[k]
                  == Entry(Min(U64_MAX, now.mono + 1000 * (m.entries[k].last + 1 - now.wall)), m.entries[k].last))
            && back.lastWall == Some(now.wall) && back.pausedUntil == None
  {
  }

  // ---- what restoring does not check -----------------------------------------

  function StillGood(image: map<Key, int>, wall: int): set<Key> { set k | k in image && image[k] >= wall }

  /** A restored store is within the caps exactly when the image's unexpired rows are: nothing
      is refused on the way in. */
  lemma RestoredWithinCapsExactly(c: Config, image: map<Key, int>, now: Reading)
    ensures WithinCaps(c, Restored(image, now).entries.Keys) <==> WithinCaps(c, StillGood(image, now.wall))
  {
    assert Restored(image, now).entries.Keys == StillGood(image, now.wall);
  }

  /** Two rows, restored under caps of one. */
  lemma RestoreExceedsCaps(a: Key, b: Key, window: nat, now: Reading)
    requires a != b
    ensures var c := Config(window, 1, 1, 1);
            var image := map[a := now.wall, b := now.wall];
            Restored(image, now).entries.Keys == {a, b} && !WithinCaps(c, Restored(image, now).entries.Keys)
  {
    var image := map[a := now.wall, b := now.wall];
    assert Restored(image, now).entries.Keys == {a, b};
    assert |{a, b}| == 2;
  }

  // ---- snapshots as lists ----------------------------------------------------

  predicate Distinct(rows: seq<(Key, int)>) { forall i, j :: 0 <= i < j < |rows| ==> rows[i].0 != rows[j].0 }

  /** `rows` lists the map `image`, each key once, in any order. */
  predicate Lists(rows: seq<(Key, int)>, image: map<Key, int>)
  {
    && Distinct(rows)
    && (forall r <- rows :: r.0 in image && image[r.0] == r.1)
    && (forall k <- image.Keys :: (k, image[k]) in rows)
  }

  /** What the restore loop has inserted after `rows`. */
  function Kept(rows: seq<(Key, int)>, now: Reading): map<Key, Entry>
  {
    if rows == [] then map[]
    else
      var r := rows[|rows| - 1];
      var before := Kept(rows[..|rows| - 1], now);
      if r.1 < now.wall then before else before[r.0 := Entry(Due(now, r.1), r.1)]
  }

  lemma {:induction false} KeptRows(rows: seq<(Key, int)>, now: Reading)
    requires Distinct(rows)
    ensures forall k <- Kept(rows, now).Keys :: exists r <- rows :: r.0 == k && r.1 >= now.wall
    ensures forall r <- rows | r.1 >= now.wall ::
              r.0 in Kept(rows, now) && Kept(rows, now)[r.0] == Entry(Due(now, r.1), r.1)
  {
    if rows != [] {
      var n := |rows| - 1;
      KeptRows(rows[..n], now);
      assert rows == rows[..n] + [rows[n]];
      assert forall r <- rows[..n] :: r.0 != rows[n].0;
    }
  }

  lemma KeptIsRestore(rows: seq<(Key, int)>, image: map<Key, int>, now: Reading)
    requires Lists(rows, image)
    ensures Kept(rows, now) == Restored(image, now).entries
  {
    KeptRows(rows, now);
    assert Kept(rows, now).Keys == Restored(image, now).entries.Keys;
  }

  // ---- purging ---------------------------------------------------------------

  /** The records while a purge has still to look at `todo`. */
  function Sifted(before: map<Key, Entry>, todo: set<Key>, mono: nat): map<Key, Entry>
  {
    map k | k in before && (k in todo || before[k].retainUntil > mono) :: before[k]
  }

  lemma SiftOne(before: map<Key, Entry>, todo: set<Key>, k: Key, mono: nat)
    requires todo <= before.Keys && k in todo
    ensures var (here, next) := (Sifted(before, todo, mono), Sifted(before, todo - {k}, mono));
            && k in here && here[k] == before[k]
            && next == (if before[k].retainUntil <= mono then here - {k} else here)
            && |here - {k}| == |here| - 1
  {
    var here := Sifted(before, todo, mono);
    assert (here - {k}).Keys == here.Keys - {k};
  }

  // ---- the store -------------------------------------------------------------

  lemma FreshRow(rows: seq<(Key, int)>, i: nat, now: Reading)
    requires Distinct(rows) && i < |rows|
    ensures rows[i].0 !in Kept(rows[..i], now)
  {
    KeptRows(rows[..i], now);
  }

  class Store {
    const config: Config
    var entries: map<Key, Entry>
    var perNode: map<Node, nat>
    var lastWall: Option<int>
    var pausedUntil: Option<nat>

    /** The index holds exactly the count of each node's records, and no zero. */
    ghost predicate Valid()
      reads this
    {
      ValidConfig(config) && perNode == Census(entries.Keys)
    }

    ghost function State(): Memory
      reads this
    {
      Memory(entries, lastWall, pausedUntil)
    }

    constructor (config: Config)
      requires ValidConfig(config)
      ensures Valid() && this.config == config && State() == NEW
    {
      this.config := config;
      entries, perNode, lastWall, pausedUntil := map[], map[], None, None;
    }

    static method Create(config: Config) returns (store: Option<Store>)
      ensures store.Some? <==> ValidConfig(config)
      ensures store.Some? ==> fresh(store.value) && store.value.Valid() && store.value.State() == NEW
    {
      if config.window < AUTH_WINDOW_MIN_SECS || config.window > AUTH_WINDOW_MAX_SECS { return None; }
      var s := new Store(config);
      store := Some(s);
    }

    /** Drops one record and takes it out of the index. */
    method Drop(key: Key)
      requires Valid() && key in entries
      modifies this`entries, this`perNode
      ensures Valid() && entries == old(entries) - {key}
    {
      var n := NodeOf(key);
      CensusRemove(entries.Keys, key);
      var remaining := Minus(if n in perNode then perNode[n] else 0, 1);
      if remaining == 0 { perNode := perNode - {n}; } else { perNode := perNode[n := remaining]; }
      entries := entries - {key};
      assert entries.Keys == old(entries).Keys - {key};
    }

    method PurgeExpired(now: Reading) returns (removed: nat)
      requires Valid()
      modifies this`entries, this`perNode
      ensures Valid() && State() == Purge(old(State()), now)
      ensures |entries| + removed == |old(entries)|
    {
      removed := 0;
      ghost var before := entries;
      var todo := entries.Keys;
      while todo != {}
        invariant Valid() && todo <= before.Keys && entries == Sifted(before, todo, now.mono)
        invariant |entries| + removed == |before|
      {
        var k :| k in todo;
        SiftOne(before, todo, k, now.mono);
        todo := todo - {k};
        if entries[k].retainUntil <= now.mono {
          Drop(k);
          removed := removed + 1;
        }
      }
    }

    method Register(key: Key, ts: int, now: Reading) returns (outcome: Outcome)
      requires Valid()
      modifies this
      ensures Valid()
      ensures outcome == Verdict(config, old(State()), key, ts, now)
      ensures State() == AfterRegister(config, old(State()), key, ts, now)
    {
      if !Acceptable(config, ts, now.wall) { return TimestampOutOfWindow; }
      if lastWall.Some? && now.wall < lastWall.value - config.rollbackTolerance {
        outcome := ClockRollback(lastWall.value, now.wall);
        lastWall := Some(Max(lastWall.value, now.wall));
        return;
      }
      lastWall := Some(if lastWall.Some? then Max(lastWall.value, now.wall) else now.wall);
      if pausedUntil.Some? {
        if now.mono < pausedUntil.value { return StorageUnavailable(pausedUntil.value); }
        pausedUntil := None;
      }
      var _ := PurgeExpired(now);
      outcome := Admit(key, ts, now);
    }

    /** The tail of a registration, once the expired records are gone. */
    method Admit(key: Key, ts: int, now: Reading) returns (outcome: Outcome)
      requires Valid()
      modifies this`entries, this`perNode
      ensures Valid()
      ensures outcome == (if key in old(entries) then Duplicate
                          else if |old(entries)| >= config.globalMax then CapacityExceeded(Global)
                          else if |Of(old(entries).Keys, NodeOf(key))| >= config.perNodeMax then CapacityExceeded(PerNode)
                          else Registered)
      ensures entries == if outcome.Registered?
                         then old(entries)[key := Entry(Due(now, ts + config.window), ts + config.window)]
                         else old(entries)
    {
      if key in entries { return Duplicate; }
      if |entries| >= config.globalMax { return CapacityExceeded(Global); }
      var n := NodeOf(key);
      var count := if n in perNode then perNode[n] else 0;
      assert count == |Of(entries.Keys, n)| by { if n !in perNode { assert Of(entries.Keys, n) == {}; } }
      if count >= config.perNodeMax { return CapacityExceeded(PerNode); }
      var last := ts + config.window;
      CensusAdd(entries.Keys, key);
      entries := entries[key := Entry(Later(now.mono, last + 1 - now.wall), last)];
      assert entries.Keys == old(entries).Keys + {key};
      perNode := perNode[n := count + 1];
      outcome := Registered;
    }

    method MarkStorageLost(now: Reading)
      requires Valid()
      modifies this
      ensures Valid() && State() == LoseStorage(config, old(State()), now)
    {
      entries, perNode := map[], map[];
      var hold := 2 * config.window + STORAGE_RECOVERY_MARGIN_SECS;
      pausedUntil := Some(Later(now.mono, hold));
    }

    method Snapshot() returns (rows: seq<(Key, int)>)
      requires Valid()
      ensures Lists(rows, Image(State()))
    {
      rows := [];
      var todo := entries.Keys;
      while todo != {}
        invariant todo <= entries.Keys && Distinct(rows)
        invariant forall r <- rows :: r.0 in entries.Keys - todo && entries[r.0].last == r.1
        invariant forall k <- entries.Keys - todo :: (k, entries[k].last) in rows
      {
        var k :| k in todo;
        todo := todo - {k};
        rows := rows + [(k, entries[k].last)];
      }
    }

    /** From a list without repeated keys the records, and the index, are rebuilt exactly. */
    static method Restore(config: Config, rows: seq<(Key, int)>, now: Reading) returns (store: Option<Store>)
      ensures store.Some? <==> ValidConfig(config)
      ensures store.Some? ==> fresh(store.value) && store.value.config == config
      ensures store.Some? ==> store.value.State() == Memory(Kept(rows, now), Some(now.wall), None)
      ensures store.Some? && Distinct(rows) ==> store.value.Valid()
      ensures forall image :: store.Some? && Lists(rows, image) ==>
                store.value.State() == Restored(image, now)
    {
      if config.window < AUTH_WINDOW_MIN_SECS || config.window > AUTH_WINDOW_MAX_SECS { return None; }
      var s := new Store(config);
      s.Load(rows, now);
      s.lastWall := Some(now.wall);
      forall image | Lists(rows, image) ensures s.State() == Restored(image, now) {
        KeptIsRestore(rows, image, now);
      }
      store := Some(s);
    }

    method Load(rows: seq<(Key, int)>, now: Reading)
      requires Valid() && State() == NEW
      modifies this`entries, this`perNode
      ensures entries == Kept(rows, now)
      ensures Distinct(rows) ==> Valid()
    {
      for i := 0 to |rows|
        invariant entries == Kept(rows[..i], now)
        invariant Distinct(rows) ==> perNode == Census(entries.Keys)
      {
        var (key, last) := rows[i];
        assert rows[..i + 1][..i] == rows[..i];
        if Max(last + 1 - now.wall, 0) != 0 {
          ghost var keys := entries.Keys;
          var n := NodeOf(key);
          entries := entries[key := Entry(Due(now, last), last)];
          perNode := perNode[n := (if n in perNode then perNode[n] else 0) + 1];
          if Distinct(rows) {
            FreshRow(rows, i, now);
            CensusAdd(keys, key);
            assert entries.Keys == keys + {key};
          }
        }
      }
      assert rows[..|rows|] == rows;
    }
  }
}
