/** Turning out-of-order, repeated and missing blocks into an in-order byte stream
    (crates/wsnet-stream/src/lib.rs). */
module Reorder {
  import opened Limits

  datatype Block = Block(offset: nat, data: Bytes)

  datatype Refusal = ConflictingOverlap | TooFarAhead | ReorderOverflow | TooManyBlocks

  datatype Outcome = Released(blocks: seq<Block>) | Refused(why: Refusal)

  datatype Buffer = Buffer(
    next: nat,
    pending: map<nat, Bytes>,
    buffered: nat,
    limitBytes: nat,
    limitBlocks: nat,
    lookAhead: nat)

  function New(limitBytes: nat): Buffer
  {
    Buffer(0, map[], 0, Min(limitBytes, REORDER_BUFFER_BYTES), REORDER_MAX_BLOCKS, REORDER_BUFFER_BYTES)
  }

  // ---- ordered-map neighbours ------------------------------------------------

  ghost predicate IsFloor(m: map<nat, Bytes>, x: nat, k: nat)
  {
    k in m && k <= x && forall j :: j in m && j <= x ==> j <= k
  }

  ghost predicate IsCeiling(m: map<nat, Bytes>, x: nat, k: nat)
  {
    k in m && x <= k && forall j :: j in m && x <= j ==> k <= j
  }

  /** `range(..=x).next_back()` */
  ghost function Floor(m: map<nat, Bytes>, x: nat): Option<nat>
  {
    if exists k :: IsFloor(m, x, k) then Some(var k :| IsFloor(m, x, k); k) else None
  }

  /** `range(x..).next()` */
  ghost function Ceiling(m: map<nat, Bytes>, x: nat): Option<nat>
  {
    if exists k :: IsCeiling(m, x, k) then Some(var k :| IsCeiling(m, x, k); k) else None
  }

  lemma {:induction false} Greatest(s: set<nat>) returns (k: nat)
    requires s != {}
    ensures k in s && forall j :: j in s ==> j <= k
    decreases |s|
  {
    var x :| x in s;
    if s == {x} { return x; }
    assert s - {x} != {};
    var y := Greatest(s - {x});
    k := Max(x, y);
    forall j | j in s ensures j <= k { assert j == x || j in s - {x}; }
  }

  lemma {:induction false} Least(s: set<nat>) returns (k: nat)
    requires s != {}
    ensures k in s && forall j :: j in s ==> k <= j
    decreases |s|
  {
    var x :| x in s;
    if s == {x} { return x; }
    assert s - {x} != {};
    var y := Least(s - {x});
    k := Min(x, y);
    forall j | j in s ensures k <= j { assert j == x || j in s - {x}; }
  }

  lemma FloorExists(m: map<nat, Bytes>, x: nat, j: nat)
    requires j in m && j <= x
    ensures Floor(m, x).Some? && IsFloor(m, x, Floor(m, x).value)
  {
    var below := set k | k in m && k <= x;
    assert j in below;
    var k := Greatest(below);
    forall i | i in m && i <= x ensures i <= k { assert i in below; }
    assert IsFloor(m, x, k);
  }

  lemma CeilingExists(m: map<nat, Bytes>, x: nat, j: nat)
    requires j in m && x <= j
    ensures Ceiling(m, x).Some? && IsCeiling(m, x, Ceiling(m, x).value)
  {
    var above := set k | k in m && x <= k;
    assert j in above;
    var k := Least(above);
    forall i | i in m && x <= i ensures k <= i { assert i in above; }
    assert IsCeiling(m, x, k);
  }

  // ---- inserting -------------------------------------------------------------

  datatype Neighbour = Clear | SameBlock | Conflict

  /** The two neighbour look-ups of `insert_offsets`. */
  ghost function Neighbours(m: map<nat, Bytes>, offset: nat, data: Bytes): Neighbour
  {
    var end := offset + |data|;
    var before := Floor(m, offset);
    if before.Some? && before.value in m && before.value == offset then
      if m[offset] == data then SameBlock else Conflict
    else if before.Some? && before.value in m && before.value + |m[before.value]| > offset then Conflict
    else
      var after := Ceiling(m, offset);
      if after.Some? && after.value < end then Conflict else Clear
  }

  function Drain(next: nat, pending: map<nat, Bytes>): (r: (seq<Block>, nat, map<nat, Bytes>))
    decreases |pending|
  {
    if next in pending then
      var data := pending[next];
      var rest := Drain(next + |data|, pending - {next});
      ([Block(next, data)] + rest.0, rest.1, rest.2)
    else ([], next, pending)
  }

  function Length(blocks: seq<Block>): nat
  {
    if blocks == [] then 0 else |blocks[0].data| + Length(blocks[1..])
  }

  ghost function Insert(b: Buffer, offset: nat, data: Bytes): (Buffer, Outcome)
  {
    var end := offset + |data|;
    if data == [] || end <= b.next then (b, Released([]))
    else if offset < b.next then (b, Refused(ConflictingOverlap))
    else if offset - b.next > b.lookAhead then (b, Refused(TooFarAhead))
    else
      match Neighbours(b.pending, offset, data)
      case SameBlock => (b, Released([]))
      case Conflict => (b, Refused(ConflictingOverlap))
      case Clear =>
        if b.buffered + |data| > b.limitBytes then (b, Refused(ReorderOverflow))
        else if offset != b.next && |b.pending| + 1 > b.limitBlocks then (b, Refused(TooManyBlocks))
        else
          var d := Drain(b.next, b.pending[offset := data]);
          (b.(next := d.1, pending := d.2, buffered := Minus(b.buffered + |data|, Length(d.0))), Released(d.0))
  }

  function Join(blocks: seq<Block>): Bytes
  {
    if blocks == [] then [] else blocks[0].data + Join(blocks[1..])
  }

  // ---- invariants ------------------------------------------------------------

  ghost function Total(m: map<nat, Bytes>): nat
    decreases |m|
  {
    if m == map[] then 0
    else
      var k :| k in m;
      |m[k]| + Total(m - {k})
  }

  ghost predicate Disjoint(m: map<nat, Bytes>)
  {
    && (forall k :: k in m ==> |m[k]| > 0)
    && (forall j, k :: j in m && k in m && j < k ==> j + |m[j]| <= k)
  }

  /** Held blocks are non-empty, apart from each other and ahead of the next offset, the
      byte counter is exact, and both budgets hold. */
  ghost predicate BufferOk(b: Buffer)
  {
    && Disjoint(b.pending)
    && (forall k :: k in b.pending ==> b.next < k <= b.next + b.lookAhead)
    && b.buffered == Total(b.pending) <= b.limitBytes
    && |b.pending| <= b.limitBlocks
  }

  ghost predicate Apart(m: map<nat, Bytes>, offset: nat, end: nat)
  {
    forall k :: k in m ==> k + |m[k]| <= offset || end <= k
  }

  /** Every held block is a piece of the sender's stream. */
  ghost predicate Agrees(stream: Bytes, m: map<nat, Bytes>)
  {
    forall k :: k in m ==> k + |m[k]| <= |stream| && m[k] == stream[k..k + |m[k]|]
  }

  predicate Honest(stream: Bytes, a: Block)
  {
    a.offset + |a.data| <= |stream| && a.data == stream[a.offset..a.offset + |a.data|]
  }

  /** Blocks that follow each other without gap or overlap from `start` on. */
  predicate Contiguous(blocks: seq<Block>, start: nat)
  {
    blocks != [] ==> blocks[0].offset == start && Contiguous(blocks[1..], start + |blocks[0].data|)
  }

  // ---- proofs ----------------------------------------------------------------

  lemma {:induction false} TotalRemove(m: map<nat, Bytes>, k: nat)
    requires k in m
    ensures Total(m) == |m[k]| + Total(m - {k})
    decreases |m|
  {
    var j :| j in m && Total(m) == |m[j]| + Total(m - {j});
    if j != k {
      TotalRemove(m - {j}, k);
      TotalRemove(m - {k}, j);
      assert m - {j} - {k} == m - {k} - {j};
    }
  }

  lemma TotalAdd(m: map<nat, Bytes>, k: nat, data: Bytes)
    requires k !in m
    ensures Total(m[k := data]) == Total(m) + |data|
  {
    TotalRemove(m[k := data], k);
    assert m[k := data] - {k} == m;
  }

  /** Looking at the two neighbours decides overlap against every held block. */
  lemma NeighboursDecide(m: map<nat, Bytes>, offset: nat, data: Bytes)
    requires Disjoint(m) && data != []
    ensures Neighbours(m, offset, data).SameBlock? <==> offset in m && m[offset] == data
    ensures Neighbours(m, offset, data).Clear? <==> Apart(m, offset, offset + |data|)
  {
    forall k | k in m && k <= offset ensures Floor(m, offset).Some? && IsFloor(m, offset, Floor(m, offset).value) {
      FloorExists(m, offset, k);
    }
    forall k | k in m && offset <= k ensures Ceiling(m, offset).Some? && IsCeiling(m, offset, Ceiling(m, offset).value) {
      CeilingExists(m, offset, k);
    }
  }

  /** Draining releases a contiguous run ... */
  lemma {:induction false} DrainRuns(next: nat, pending: map<nat, Bytes>)
    ensures var d := Drain(next, pending);
            Contiguous(d.0, next) && d.1 == next + Length(d.0)
    decreases |pending|
  {
    if next in pending {
      var rest := Drain(next + |pending[next]|, pending - {next});
      DrainRuns(next + |pending[next]|, pending - {next});
      assert ([Block(next, pending[next])] + rest.0)[1..] == rest.0;
    }
  }

  lemma {:induction false} DrainTotal(next: nat, pending: map<nat, Bytes>)
    ensures var d := Drain(next, pending);
            Total(pending) == Total(d.2) + Length(d.0)
    decreases |pending|
  {
    if next in pending {
      var rest := Drain(next + |pending[next]|, pending - {next});
      TotalRemove(pending, next);
      DrainTotal(next + |pending[next]|, pending - {next});
      assert ([Block(next, pending[next])] + rest.0)[1..] == rest.0;
    }
  }

  /** ... and stops exactly at the first gap. */
  lemma {:induction false} DrainStops(next: nat, pending: map<nat, Bytes>)
    requires Disjoint(pending) && forall k :: k in pending ==> k >= next
    ensures var d := Drain(next, pending);
            Disjoint(d.2) && forall k :: k in d.2 ==> k > d.1 && k in pending
    decreases |pending|
  {
    if next in pending {
      DrainStops(next + |pending[next]|, pending - {next});
    }
  }

  lemma {:induction false} DrainSize(next: nat, pending: map<nat, Bytes>)
    ensures |Drain(next, pending).2| <= if next in pending then |pending| - 1 else |pending|
    decreases |pending|
  {
    if next in pending {
      var rest := pending - {next};
      assert rest.Keys == pending.Keys - {next};
      DrainSize(next + |pending[next]|, rest);
    }
  }

  lemma {:induction false} DrainHonest(stream: Bytes, next: nat, pending: map<nat, Bytes>)
    requires Agrees(stream, pending) && next <= |stream|
    ensures var d := Drain(next, pending);
            && next <= d.1 <= |stream| && Join(d.0) == stream[next..d.1] && Agrees(stream, d.2)
    decreases |pending|
  {
    if next in pending {
      var n := |pending[next]|;
      DrainHonest(stream, next + n, pending - {next});
      var d := Drain(next, pending);
      Glue(stream, next, next + n, d.1);
    }
  }

  lemma StillDisjoint(m: map<nat, Bytes>, offset: nat, data: Bytes)
    requires Disjoint(m) && data != [] && Apart(m, offset, offset + |data|)
    ensures Disjoint(m[offset := data]) && offset !in m
  {
  }

  lemma InsertCounts(b: Buffer, offset: nat, data: Bytes)
    requires BufferOk(b) && data != [] && offset >= b.next && Apart(b.pending, offset, offset + |data|)
    ensures var d := Drain(b.next, b.pending[offset := data]);
            && Total(d.2) + Length(d.0) == b.buffered + |data|
            && |d.2| <= if offset == b.next then |b.pending| else |b.pending| + 1
  {
    StillDisjoint(b.pending, offset, data);
    TotalAdd(b.pending, offset, data);
    var m := b.pending[offset := data];
    assert m.Keys == b.pending.Keys + {offset};
    DrainTotal(b.next, m);
    DrainSize(b.next, m);
  }

  lemma InsertClear(b: Buffer, offset: nat, data: Bytes)
    requires BufferOk(b) && data != [] && offset >= b.next && Apart(b.pending, offset, offset + |data|)
    ensures var d := Drain(b.next, b.pending[offset := data]);
            && Contiguous(d.0, b.next) && d.1 == b.next + Length(d.0)
            && Disjoint(d.2) && (forall k :: k in d.2 ==> k > d.1 && (k == offset || k in b.pending))
            && Total(d.2) + Length(d.0) == b.buffered + |data|
            && |d.2| <= if offset == b.next then |b.pending| else |b.pending| + 1
  {
    var m := b.pending[offset := data];
    DrainRuns(b.next, m);
    DrainStops(b.next, m) by { StillDisjoint(b.pending, offset, data); }
    InsertCounts(b, offset, data);
  }

  /** Whatever arrives, the buffer stays within its budgets and releases a contiguous run
      that starts at the next offset; a refused block changes nothing. */
  lemma InsertKeeps(b: Buffer, offset: nat, data: Bytes)
    requires BufferOk(b)
    ensures var r := Insert(b, offset, data);
            && BufferOk(r.0)
            && (r.1.Refused? ==> r.0 == b)
            && (r.1.Released? ==> Contiguous(r.1.blocks, b.next) && r.0.next == b.next + Length(r.1.blocks))
  {
    if data == [] || offset < b.next { return; }
    NeighboursDecide(b.pending, offset, data);
    if Neighbours(b.pending, offset, data).Clear? {
      InsertClear(b, offset, data);
    }
  }

  /** Block `k` of the buffer reaches into the arriving one. */
  predicate Overlaps(m: map<nat, Bytes>, k: nat, offset: nat, data: Bytes)
    requires k in m
  {
    k < offset + |data| && offset < k + |m[k]|
  }

  /** What becomes of any block, honest or not, each answer exactly when its check is the first to
      fail: nothing new in it, a part of it already released, too far ahead, the very block held,
      an overlap with a held one, the byte budget, the block budget. */
  lemma InsertAnswersExactly(b: Buffer, offset: nat, data: Bytes)
    requires BufferOk(b)
    ensures var o := Insert(b, offset, data).1;
            var old_ := data == [] || offset + |data| <= b.next;
            var near := b.next <= offset <= b.next + b.lookAhead;
            var held := offset in b.pending && b.pending[offset] == data;
            var clash := exists k :: k in b.pending && Overlaps(b.pending, k, offset, data);
            && (o == Refused(TooFarAhead) <==> !old_ && offset > b.next + b.lookAhead)
            && (o == Refused(ConflictingOverlap) <==> !old_ && (offset < b.next || (near && !held && clash)))
            && (o == Refused(ReorderOverflow) <==> !old_ && near && !held && !clash && b.buffered + |data| > b.limitBytes)
            && (o == Refused(TooManyBlocks) <==>
                  !old_ && near && !held && !clash && b.buffered + |data| <= b.limitBytes
                  && offset != b.next && |b.pending| >= b.limitBlocks)
            && (old_ || held || o.Refused? ==> Insert(b, offset, data).0 == b)
            && ((old_ || (near && held)) ==> o == Released([]))
  {
    if data != [] && offset + |data| > b.next && offset >= b.next {
      NeighboursDecide(b.pending, offset, data);
      assert Apart(b.pending, offset, offset + |data|) <==> !exists k :: k in b.pending && Overlaps(b.pending, k, offset, data);
      if offset in b.pending && b.pending[offset] == data { assert Overlaps(b.pending, offset, offset, data); }
    }
  }

  // ---- whole runs ------------------------------------------------------------

  ghost function Run(b: Buffer, arrivals: seq<Block>): (Buffer, seq<Block>)
    decreases |arrivals|
  {
    if arrivals == [] then (b, [])
    else
      var r := Insert(b, arrivals[0].offset, arrivals[0].data);
      var rest := Run(r.0, arrivals[1..]);
      (rest.0, (if r.1.Released? then r.1.blocks else []) + rest.1)
  }

  lemma {:induction false} JoinAppend(a: seq<Block>, b: seq<Block>)
    ensures Join(a + b) == Join(a) + Join(b)
  {
    if a == [] {
      assert a + b == b;
    } else {
      assert (a + b)[1..] == a[1..] + b;
      JoinAppend(a[1..], b);
    }
  }

  lemma InsertHonest(stream: Bytes, b: Buffer, a: Block)
    requires Agrees(stream, b.pending) && b.next <= |stream| && Honest(stream, a)
    ensures var r := Insert(b, a.offset, a.data);
            && b.next <= r.0.next <= |stream| && Agrees(stream, r.0.pending)
            && Join(if r.1.Released? then r.1.blocks else []) == stream[b.next..r.0.next]
  {
    DrainHonest(stream, b.next, b.pending[a.offset := a.data]);
  }

  lemma {:induction false} RunHonest(stream: Bytes, b: Buffer, arrivals: seq<Block>)
    requires BufferOk(b) && Agrees(stream, b.pending) && b.next <= |stream|
    requires forall a <- arrivals :: Honest(stream, a)
    ensures var r := Run(b, arrivals);
            BufferOk(r.0) && b.next <= r.0.next <= |stream| && Join(r.1) == stream[b.next..r.0.next]
    decreases |arrivals|
  {
    if arrivals != [] {
      var a := arrivals[0];
      var r := Insert(b, a.offset, a.data);
      InsertKeeps(b, a.offset, a.data);
      InsertHonest(stream, b, a);
      RunHonest(stream, r.0, arrivals[1..]);
      var rest := Run(r.0, arrivals[1..]);
      JoinAppend(if r.1.Released? then r.1.blocks else [], rest.1);
      Glue(stream, b.next, r.0.next, rest.0.next);
    }
  }

  lemma {:induction false} InsertLimits(b: Buffer, arrivals: seq<Block>)
    ensures Run(b, arrivals).0.limitBytes == b.limitBytes
    decreases |arrivals|
  {
    if arrivals != [] {
      InsertLimits(Insert(b, arrivals[0].offset, arrivals[0].data).0, arrivals[1..]);
    }
  }

  /** However an honest sender's blocks are reordered, repeated or lost, what has been
      released is exactly the stream up to the next offset: each byte once, in order. */
  lemma ReleasedIsPrefix(stream: Bytes, limitBytes: nat, arrivals: seq<Block>)
    requires forall a <- arrivals :: Honest(stream, a)
    ensures var r := Run(New(limitBytes), arrivals);
            r.0.next <= |stream| && Join(r.1) == stream[..r.0.next] && r.0.buffered <= limitBytes
  {
    RunHonest(stream, New(limitBytes), arrivals);
    InsertLimits(New(limitBytes), arrivals);
  }

  /** The block the buffer is waiting for is not always taken: the byte budget counts it
      although it would never be held. It is taken exactly when it fits beside what is
      already held. */
  lemma AwaitedBlockTaken(b: Buffer, data: Bytes)
    requires BufferOk(b) && data != [] && Apart(b.pending, b.next, b.next + |data|)
    ensures var r := Insert(b, b.next, data);
            (r.1.Released? && r.0.next >= b.next + |data|) <==> b.buffered + |data| <= b.limitBytes
  {
    NeighboursDecide(b.pending, b.next, data);
    InsertClear(b, b.next, data);
    DrainRuns(b.next, b.pending[b.next := data]);
  }

  // ---- a record that is overtaken --------------------------------------------

  /** Where record `k` of a stream starts that is sent in `pieces`. */
  function Cut(pieces: seq<Bytes>, k: nat): nat
    requires k <= |pieces|
  {
    if k == 0 then 0 else Cut(pieces, k - 1) + |pieces[k - 1]|
  }

  lemma {:induction false} CutGrows(pieces: seq<Bytes>, i: nat, j: nat)
    requires i <= j <= |pieces|
    ensures Cut(pieces, i) <= Cut(pieces, j)
    ensures i < j && pieces[i] != [] ==> Cut(pieces, i) < Cut(pieces, j)
  {
    if i < j { CutGrows(pieces, i, j - 1); }
  }

  /** Pieces of one length start at its multiples. */
  lemma {:induction false} EvenCuts(pieces: seq<Bytes>, i: nat, j: nat, n: nat)
    requires i <= j <= |pieces| && forall k :: i <= k < j ==> |pieces[k]| == n
    ensures Cut(pieces, j) == Cut(pieces, i) + (j - i) * n
  {
    if i < j { EvenCuts(pieces, i, j - 1, n); }
  }

  predicate HasPiece(m: map<nat, Bytes>, pieces: seq<Bytes>, k: nat)
    requires k < |pieces|
  {
    Cut(pieces, k) in m && m[Cut(pieces, k)] == pieces[k]
  }

  /** The map holds pieces `i..j`. */
  predicate HasPieces(m: map<nat, Bytes>, pieces: seq<Bytes>, i: nat, j: nat)
    requires j < |pieces|
  {
    forall k :: i <= k <= j ==> HasPiece(m, pieces, k)
  }

  /** The state after records `1..k` arrived while record 0 is still missing. */
  ghost predicate HoldsUpTo(b: Buffer, pieces: seq<Bytes>, k: nat)
    requires k < |pieces|
  {
    && BufferOk(b) && b.next == 0 && b.buffered == Cut(pieces, k + 1) - Cut(pieces, 1) && |b.pending| == k
    && b.limitBytes == REORDER_MAX_OUT_OF_ORDER_BYTES
    && b.limitBlocks == REORDER_MAX_BLOCKS && b.lookAhead == REORDER_BUFFER_BYTES
    && (forall i :: i in b.pending ==> Cut(pieces, 1) <= i && i + |b.pending[i]| <= Cut(pieces, k + 1))
    && HasPieces(b.pending, pieces, 1, k)
  }

  /** Records `1..n` fit the budgets while record 0 is missing. */
  predicate FitsBehind(pieces: seq<Bytes>, n: nat)
  {
    && n < |pieces| && (forall p <- pieces :: p != []) && n <= REORDER_MAX_BLOCKS
    && Cut(pieces, n + 1) - Cut(pieces, 1) <= REORDER_MAX_OUT_OF_ORDER_BYTES && Cut(pieces, n) <= REORDER_BUFFER_BYTES
  }

  /** A block ahead of the gap, clear of the others and within budget, is just held. */
  lemma InsertAhead(b: Buffer, offset: nat, data: Bytes)
    requires BufferOk(b) && data != [] && Apart(b.pending, offset, offset + |data|)
    requires b.next < offset <= b.next + b.lookAhead
    requires b.buffered + |data| <= b.limitBytes && |b.pending| < b.limitBlocks
    ensures Insert(b, offset, data) ==
            (b.(pending := b.pending[offset := data], buffered := b.buffered + |data|), Released([]))
  {
    NeighboursDecide(b.pending, offset, data);
    assert Drain(b.next, b.pending[offset := data]) == ([], b.next, b.pending[offset := data]);
  }

  lemma OneMorePiece(m: map<nat, Bytes>, pieces: seq<Bytes>, i: nat, k: nat)
    requires 1 <= k < |pieces| && (forall p <- pieces :: p != []) && HasPieces(m, pieces, i, k - 1)
    ensures HasPieces(m[Cut(pieces, k) := pieces[k]], pieces, i, k)
  {
    var m' := m[Cut(pieces, k) := pieces[k]];
    forall j: nat | i <= j <= k ensures HasPiece(m', pieces, j) {
      if j < k {
        assert HasPiece(m, pieces, j) && pieces[j] in pieces;
        CutGrows(pieces, j, k);
      }
    }
  }

  lemma OnePieceLess(m: map<nat, Bytes>, pieces: seq<Bytes>, k: nat, n: nat)
    requires k <= n < |pieces| && (forall p <- pieces :: p != []) && HasPieces(m, pieces, k, n)
    ensures HasPieces(m - {Cut(pieces, k)}, pieces, k + 1, n) && |m - {Cut(pieces, k)}| == |m| - 1
  {
    assert HasPiece(m, pieces, k);
    assert (m - {Cut(pieces, k)}).Keys == m.Keys - {Cut(pieces, k)};
    assert pieces[k] in pieces;
    forall j: nat | k < j <= n ensures HasPiece(m - {Cut(pieces, k)}, pieces, j) {
      assert HasPiece(m, pieces, j);
      CutGrows(pieces, k, j);
    }
  }

  lemma OneMoreBelow(m: map<nat, Bytes>, low: nat, offset: nat, data: Bytes)
    requires low <= offset && data != [] && forall i :: i in m ==> low <= i && i + |m[i]| <= offset && m[i] != []
    ensures var m' := m[offset := data];
            |m'| == |m| + 1 && forall i :: i in m' ==> low <= i && i + |m'[i]| <= offset + |data|
  {
    assert offset !in m;
    assert m[offset := data].Keys == m.Keys + {offset};
  }

  /** It releases nothing. */
  lemma HeldSilently(b: Buffer, pieces: seq<Bytes>, k: nat)
    requires FitsBehind(pieces, k) && k > 0 && HoldsUpTo(b, pieces, k - 1)
    ensures Insert(b, Cut(pieces, k), pieces[k]).1 == Released([])
  {
    assert pieces[0] in pieces && pieces[k] in pieces;
    CutGrows(pieces, 0, k);
    InsertAhead(b, Cut(pieces, k), pieces[k]);
  }

  lemma HoldOneMore(b: Buffer, pieces: seq<Bytes>, k: nat)
    requires FitsBehind(pieces, k) && k > 0 && HoldsUpTo(b, pieces, k - 1)
    ensures HoldsUpTo(Insert(b, Cut(pieces, k), pieces[k]).0, pieces, k)
  {
    assert pieces[0] in pieces && pieces[k] in pieces;
    CutGrows(pieces, 0, k);
    InsertAhead(b, Cut(pieces, k), pieces[k]);
    InsertKeeps(b, Cut(pieces, k), pieces[k]);
    CutGrows(pieces, 1, k);
    OneMoreBelow(b.pending, Cut(pieces, 1), Cut(pieces, k), pieces[k]);
    OneMorePiece(b.pending, pieces, 1, k);
  }

  ghost function Late(pieces: seq<Bytes>, k: nat): Buffer
    requires k < |pieces|
  {
    if k == 0 then New(REORDER_MAX_OUT_OF_ORDER_BYTES) else Insert(Late(pieces, k - 1), Cut(pieces, k), pieces[k]).0
  }

  lemma FitsLess(pieces: seq<Bytes>, k: nat)
    requires FitsBehind(pieces, k) && k > 0
    ensures FitsBehind(pieces, k - 1)
  {
    CutGrows(pieces, k - 1, k);
    CutGrows(pieces, k, k + 1);
  }

  lemma NewHolds(pieces: seq<Bytes>)
    requires pieces != []
    ensures HoldsUpTo(New(REORDER_MAX_OUT_OF_ORDER_BYTES), pieces, 0)
  {
  }

  lemma {:induction false} LateHolds(pieces: seq<Bytes>, k: nat)
    requires FitsBehind(pieces, k)
    ensures HoldsUpTo(Late(pieces, k), pieces, k)
  {
    if k == 0 {
      NewHolds(pieces);
    } else {
      FitsLess(pieces, k);
      LateHolds(pieces, k - 1);
      HoldOneMore(Late(pieces, k - 1), pieces, k);
    }
  }

  // ---- and never gets in -----------------------------------------------------

  /** A buffer whose byte budget is used up never changes again, whatever arrives. */
  lemma FullBufferStands(b: Buffer, offset: nat, data: Bytes)
    requires b.buffered == b.limitBytes
    ensures Insert(b, offset, data).0 == b
  {
  }

  lemma {:induction false} FullRunStands(b: Buffer, arrivals: seq<Block>)
    requires b.buffered == b.limitBytes
    ensures Run(b, arrivals).0 == b
    decreases |arrivals|
  {
    if arrivals != [] {
      FullBufferStands(b, arrivals[0].offset, arrivals[0].data);
      FullRunStands(b, arrivals[1..]);
    }
  }

  /** Records `1..n` use up the byte budget exactly. */
  predicate FillsBehind(pieces: seq<Bytes>, n: nat)
  {
    FitsBehind(pieces, n) && Cut(pieces, n + 1) - Cut(pieces, 1) == REORDER_MAX_OUT_OF_ORDER_BYTES
  }

  /** An honest sender can fill the budget behind one delayed record; that record is then
      refused however often it comes, and the stream stands still for good. */
  lemma DelayedRecordRefused(pieces: seq<Bytes>, n: nat)
    requires FillsBehind(pieces, n)
    ensures var b := Late(pieces, n);
            && b.next == 0 && Insert(b, 0, pieces[0]).1 == Refused(ReorderOverflow)
            && forall arrivals :: Run(b, arrivals).0 == b
  {
    var b := Late(pieces, n);
    LateHolds(pieces, n);
    assert pieces[0] in pieces;
    NeighboursDecide(b.pending, 0, pieces[0]);
    forall arrivals ensures Run(b, arrivals).0 == b {
      FullRunStands(b, arrivals);
    }
  }

  /** Eight full records do. */
  lemma EightFullRecordsFill(pieces: seq<Bytes>)
    requires |pieces| >= 9 && (forall p <- pieces :: p != []) && forall k :: 1 <= k <= 8 ==> |pieces[k]| == MAX_TCP_PAYLOAD
    requires |pieces[0]| <= MAX_TCP_PAYLOAD
    ensures FillsBehind(pieces, 8)
  {
    EvenCuts(pieces, 1, 9, MAX_TCP_PAYLOAD);
    EvenCuts(pieces, 1, 8, MAX_TCP_PAYLOAD);
  }

  // ---- or gets in while a later one is lost ----------------------------------

  /** With record 0 all of `1..n` comes out. */
  lemma {:induction false} DrainsAll(pieces: seq<Bytes>, k: nat, n: nat, m: map<nat, Bytes>)
    requires k <= n + 1 <= |pieces| && (forall p <- pieces :: p != []) && |m| == n + 1 - k && HasPieces(m, pieces, k, n)
    ensures Drain(Cut(pieces, k), m).1 == Cut(pieces, n + 1) && Drain(Cut(pieces, k), m).2 == map[]
    decreases n + 1 - k
  {
    if k <= n {
      assert HasPiece(m, pieces, k);
      OnePieceLess(m, pieces, k, n);
      DrainsAll(pieces, k + 1, n, m - {Cut(pieces, k)});
    }
  }

  /** Records `1..n` fit behind record 0 and leave room for it, and one more record overruns
      the byte budget or the block budget. */
  predicate OverrunsBehind(pieces: seq<Bytes>, n: nat)
  {
    && FitsBehind(pieces, n) && n + 1 < |pieces| && Cut(pieces, n + 1) <= REORDER_MAX_OUT_OF_ORDER_BYTES
    && (Cut(pieces, n + 2) - Cut(pieces, 1) > REORDER_MAX_OUT_OF_ORDER_BYTES || n == REORDER_MAX_BLOCKS)
  }

  lemma NextIsRefused(b: Buffer, pieces: seq<Bytes>, n: nat)
    requires OverrunsBehind(pieces, n) && HoldsUpTo(b, pieces, n)
    ensures Insert(b, Cut(pieces, n + 1), pieces[n + 1]).1.Refused? && Insert(b, Cut(pieces, n + 1), pieces[n + 1]).0 == b
  {
    assert pieces[0] in pieces && pieces[n + 1] in pieces;
    CutGrows(pieces, 0, n + 1);
    NeighboursDecide(b.pending, Cut(pieces, n + 1), pieces[n + 1]);
  }

  lemma FirstPieceToo(m: map<nat, Bytes>, pieces: seq<Bytes>, n: nat)
    requires n < |pieces| && (forall p <- pieces :: p != []) && HasPieces(m, pieces, 1, n)
    ensures HasPieces(m[0 := pieces[0]], pieces, 0, n)
  {
    var m' := m[0 := pieces[0]];
    forall j: nat | j <= n ensures HasPiece(m', pieces, j) {
      if j > 0 {
        assert HasPiece(m, pieces, j) && pieces[0] in pieces;
        CutGrows(pieces, 0, j);
      }
    }
  }

  lemma FirstReleasesAll(b: Buffer, pieces: seq<Bytes>, n: nat)
    requires OverrunsBehind(pieces, n) && HoldsUpTo(b, pieces, n)
    ensures var b' := Insert(b, 0, pieces[0]).0;
            b'.next == Cut(pieces, n + 1) && b'.pending == map[] && b'.buffered == 0
  {
    assert pieces[0] in pieces;
    var m := b.pending[0 := pieces[0]];
    assert 0 !in b.pending && m.Keys == b.pending.Keys + {0};
    NeighboursDecide(b.pending, 0, pieces[0]);
    FirstPieceToo(b.pending, pieces, n);
    DrainsAll(pieces, 0, n, m);
    InsertKeeps(b, 0, pieces[0]);
  }

  /** A record that overruns a budget while record 0 is missing is refused; record 0 then
      releases everything held, and the refused record would now fit, but it came already. */
  lemma OverrunRecordIsLost(pieces: seq<Bytes>, n: nat)
    requires OverrunsBehind(pieces, n)
    ensures var b := Late(pieces, n);
            var b' := Insert(b, 0, pieces[0]).0;
            && Insert(b, Cut(pieces, n + 1), pieces[n + 1]).1.Refused? && Insert(b, Cut(pieces, n + 1), pieces[n + 1]).0 == b
            && b'.next == Cut(pieces, n + 1) < Cut(pieces, |pieces|) && b'.pending == map[] && b'.buffered == 0
  {
    LateHolds(pieces, n);
    NextIsRefused(Late(pieces, n), pieces, n);
    FirstReleasesAll(Late(pieces, n), pieces, n);
    assert pieces[n + 1] in pieces;
    CutGrows(pieces, n + 1, |pieces|);
  }

  /** The byte budget does that with ten records, the last one of two bytes. */
  lemma TwoBytesOverrun(pieces: seq<Bytes>)
    requires |pieces| == 10 && |pieces[0]| == 1 && (forall k :: 1 <= k <= 7 ==> |pieces[k]| == MAX_TCP_PAYLOAD)
    requires |pieces[8]| == MAX_TCP_PAYLOAD - 1 && |pieces[9]| == 2
    ensures OverrunsBehind(pieces, 8)
  {
    EvenCuts(pieces, 1, 8, MAX_TCP_PAYLOAD);
    assert Cut(pieces, 1) == 1 && Cut(pieces, 9) == Cut(pieces, 8) + |pieces[8]| && Cut(pieces, 10) == Cut(pieces, 9) + |pieces[9]|;
  }

  /** And the block budget with 130 records of one byte. */
  lemma ManyRecordsOverrun(pieces: seq<Bytes>)
    requires |pieces| == REORDER_MAX_BLOCKS + 2 && forall k :: 0 <= k < |pieces| ==> |pieces[k]| == 1
    ensures OverrunsBehind(pieces, REORDER_MAX_BLOCKS)
  {
    EvenCuts(pieces, 0, 1, 1);
    EvenCuts(pieces, 0, REORDER_MAX_BLOCKS, 1);
    EvenCuts(pieces, 0, REORDER_MAX_BLOCKS + 1, 1);
  }

  /** What a block that passed every check does to the buffer. */
  lemma InsertAdmitted(b: Buffer, offset: nat, data: Bytes)
    requires BufferOk(b) && data != [] && b.next <= offset <= b.next + b.lookAhead
    requires Neighbours(b.pending, offset, data).Clear?
    requires b.buffered + |data| <= b.limitBytes && (offset == b.next || |b.pending| < b.limitBlocks)
    ensures var d := Drain(b.next, b.pending[offset := data]);
            var r := Insert(b, offset, data);
            && Length(d.0) <= b.buffered + |data| && BufferOk(r.0) && r.1 == Released(d.0)
            && r.0 == b.(next := d.1, pending := d.2, buffered := b.buffered + |data| - Length(d.0))
  {
    NeighboursDecide(b.pending, offset, data);
    InsertKeeps(b, offset, data);
    InsertCounts(b, offset, data);
  }

  // ---- the buffer as the engine keeps it --------------------------------------

  /** `r` is what is left of the drain `d` once `blocks` are out. */
  ghost predicate Remaining(d: (seq<Block>, nat, map<nat, Bytes>), blocks: seq<Block>, r: (seq<Block>, nat, map<nat, Bytes>))
  {
    d.0 == blocks + r.0 && d.1 == r.1 && d.2 == r.2
  }

  lemma DrainStep(d: (seq<Block>, nat, map<nat, Bytes>), blocks: seq<Block>, next: nat, pending: map<nat, Bytes>)
    requires next in pending && Remaining(d, blocks, Drain(next, pending))
    ensures var r := Drain(next + |pending[next]|, pending - {next});
            && Remaining(d, blocks + [Block(next, pending[next])], r)
            && Length(Drain(next, pending).0) == |pending[next]| + Length(r.0)
  {
    var r := Drain(next + |pending[next]|, pending - {next});
    assert ([Block(next, pending[next])] + r.0)[1..] == r.0;
    Assoc(blocks, [Block(next, pending[next])], r.0);
  }

  lemma DrainDone(d: (seq<Block>, nat, map<nat, Bytes>), blocks: seq<Block>, next: nat, pending: map<nat, Bytes>)
    requires next !in pending && Remaining(d, blocks, Drain(next, pending))
    ensures (blocks, next, pending) == d && Length(Drain(next, pending).0) == 0
  {
    assert blocks + [] == blocks;
  }

  lemma OneLess(pending: map<nat, Bytes>, next: nat)
    requires next in pending
    ensures |pending - {next}| < |pending|
  {
    assert (pending - {next}).Keys == pending.Keys - {next};
  }

  method DrainLoop(from: nat, held: map<nat, Bytes>)
    returns (blocks: seq<Block>, bytes: nat, next: nat, pending: map<nat, Bytes>)
    ensures (blocks, next, pending) == Drain(from, held) && bytes == Length(blocks)
  {
    blocks, bytes, next, pending := [], 0, from, held;
    while next in pending
      invariant Remaining(Drain(from, held), blocks, Drain(next, pending))
      invariant bytes + Length(Drain(next, pending).0) == Length(Drain(from, held).0)
      decreases |pending|
    {
      DrainStep(Drain(from, held), blocks, next, pending);
      OneLess(pending, next);
      var block := pending[next];
      blocks, bytes := blocks + [Block(next, block)], bytes + |block|;
      pending, next := pending - {next}, next + |block|;
    }
    DrainDone(Drain(from, held), blocks, next, pending);
  }

  /** The neighbour look-ups, by walking the keys. */
  method LookAround(m: map<nat, Bytes>, offset: nat, data: Bytes) returns (n: Neighbour)
    requires Disjoint(m) && data != []
    ensures n == Neighbours(m, offset, data)
  {
    NeighboursDecide(m, offset, data);
    if offset in m {
      return if m[offset] == data then SameBlock else Conflict;
    }
    var keys := m.Keys;
    while keys != {}
      invariant keys <= m.Keys
      invariant forall k :: k in m && k !in keys ==> k + |m[k]| <= offset || offset + |data| <= k
    {
      var k: nat :| k in keys;
      if !(k + |m[k]| <= offset || offset + |data| <= k) { return Conflict; }
      keys := keys - {k};
    }
    n := Clear;
  }

  class ReorderBuffer {
    var next: nat
    var pending: map<nat, Bytes>
    var buffered: nat
    const limitBytes: nat
    const limitBlocks: nat := REORDER_MAX_BLOCKS
    const lookAhead: nat := REORDER_BUFFER_BYTES

    ghost function State(): Buffer
      reads this
    {
      Buffer(next, pending, buffered, limitBytes, limitBlocks, lookAhead)
    }

    constructor (limit: nat)
      ensures State() == New(limit) && BufferOk(State())
    {
      next, pending, buffered := 0, map[], 0;
      limitBytes := Min(limit, REORDER_BUFFER_BYTES);
    }

    method InsertOffsets(offset: nat, data: Bytes) returns (o: Outcome)
      requires BufferOk(State())
      modifies this
      ensures (State(), o) == Insert(old(State()), offset, data)
      ensures BufferOk(State())
    {
      var refusal := Judge(offset, data);
      if refusal.Some? { return refusal.value; }
      InsertAdmitted(State(), offset, data);
      var blocks := Admit(offset, data);
      o := Released(blocks);
    }

    /** Stores an admitted block and releases what is now in order. */
    method Admit(offset: nat, data: Bytes) returns (blocks: seq<Block>)
      requires Length(Drain(next, pending[offset := data]).0) <= buffered + |data|
      modifies this
      ensures var d := Drain(old(next), old(pending)[offset := data]);
              && blocks == d.0 && next == d.1 && pending == d.2
              && buffered == old(buffered) + |data| - Length(d.0)
    {
      var bytes, next', pending';
      blocks, bytes, next', pending' := DrainLoop(next, pending[offset := data]);
      next, pending, buffered := next', pending', buffered + |data| - bytes;
    }

    /** Everything `insert_offsets` checks before it touches the buffer. */
    method Judge(offset: nat, data: Bytes) returns (o: Option<Outcome>)
      requires BufferOk(State())
      ensures o.Some? ==> Insert(State(), offset, data) == (State(), o.value)
      ensures o.None? ==>
        && data != [] && next <= offset <= next + lookAhead && Neighbours(pending, offset, data).Clear?
        && buffered + |data| <= limitBytes && (offset == next || |pending| < limitBlocks)
    {
      var end := offset + |data|;
      if data == [] || end <= next { return Some(Released([])); }
      if offset < next { return Some(Refused(ConflictingOverlap)); }
      if offset - next > lookAhead { return Some(Refused(TooFarAhead)); }
      var found := LookAround(pending, offset, data);
      if found.SameBlock? { return Some(Released([])); }
      if found.Conflict? { return Some(Refused(ConflictingOverlap)); }
      if buffered + |data| > limitBytes { return Some(Refused(ReorderOverflow)); }
      if offset != next && |pending| + 1 > limitBlocks { return Some(Refused(TooManyBlocks)); }
      o := None;
    }
  }
}
