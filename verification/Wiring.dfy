/** What a link needs to run dry: the receiver waits at the start of a record, holds whole
    records only, hears half-closes as they were sent, and its credit reaches the sender. */
module Wiring {
  import opened Limits
  import opened StreamEngine
  import opened Link
  import Reorder

  // ---- records on a wire -----------------------------------------------------

  predicate IsRecord(w: seq<Record>, offset: nat, data: Bytes)
  {
    exists i :: 0 <= i < |w| && w[i] == Data(offset, data)
  }

  /** Where a record starts, or where the next one will. */
  ghost predicate Edge(w: seq<Record>, offset: nat)
  {
    offset == |Payload(w)| || exists data :: IsRecord(w, offset, data)
  }

  lemma RecordGrows(w: seq<Record>, w': seq<Record>, offset: nat, data: Bytes)
    requires w <= w' && IsRecord(w, offset, data)
    ensures IsRecord(w', offset, data)
  {
    var i :| 0 <= i < |w| && w[i] == Data(offset, data);
    assert w'[i] == w[i];
  }

  lemma {:induction false} EdgeGrows(w: seq<Record>, w': seq<Record>, offset: nat)
    requires w <= w' && Disciplined(w') && Edge(w, offset)
    ensures Edge(w', offset)
  {
    if |w| == |w'| {
      assert w == w';
    } else {
      var n := |w'| - 1;
      EdgeGrows(w, w'[..n], offset);
      if data :| IsRecord(w'[..n], offset, data) {
        RecordGrows(w'[..n], w', offset, data);
      } else if w'[n].Data? {
        assert IsRecord(w', offset, w'[n].payload);
      }
    }
  }

  lemma {:induction false} EndIsEdge(w: seq<Record>, i: nat)
    requires Disciplined(w) && i < |w| && w[i].Data?
    ensures Edge(w, w[i].offset + |w[i].payload|)
  {
    var n := |w| - 1;
    if i < n {
      EndIsEdge(w[..n], i);
      EdgeGrows(w[..n], w, w[i].offset + |w[i].payload|);
    }
  }

  lemma {:induction false} SomeData(w: seq<Record>, i: nat)
    requires Disciplined(w) && i < |w| && w[i].Data?
    ensures 0 < |w[i].payload| <= MAX_TCP_PAYLOAD
  {
    if i < |w| - 1 { SomeData(w[..|w| - 1], i); }
  }

  /** A record ends where a later one starts, or before. */
  lemma {:induction false} RecordsApart(w: seq<Record>, i: nat, j: nat)
    requires Disciplined(w) && i < j < |w| && w[i].Data? && w[j].Data?
    ensures w[i].offset + |w[i].payload| <= w[j].offset && |w[i].payload| > 0 && |w[j].payload| > 0
  {
    var n := |w| - 1;
    if j < n {
      RecordsApart(w[..n], i, j);
    } else {
      DataIsHonest(w[..n], i);
      SomeData(w, i);
    }
  }

  /** Held blocks are whole records. */
  ghost predicate Records(w: seq<Record>, m: map<nat, Bytes>) { forall k :: k in m ==> IsRecord(w, k, m[k]) }

  lemma HeldRecord(w: seq<Record>, m: map<nat, Bytes>, k: nat) returns (i: nat)
    requires Records(w, m) && k in m
    ensures i < |w| && w[i] == Data(k, m[k])
  {
    assert IsRecord(w, k, m[k]);
    i :| 0 <= i < |w| && w[i] == Data(k, m[k]);
  }

  lemma FewerRecords(w: seq<Record>, m: map<nat, Bytes>, k: nat)
    requires Records(w, m)
    ensures Records(w, m - {k})
  {
  }

  lemma {:induction false} DrainEdges(w: seq<Record>, next: nat, m: map<nat, Bytes>)
    requires Disciplined(w) && Edge(w, next) && Records(w, m)
    ensures Edge(w, Reorder.Drain(next, m).1) && Records(w, Reorder.Drain(next, m).2)
    decreases |m|
  {
    if next in m {
      var i := HeldRecord(w, m, next);
      EndIsEdge(w, i);
      FewerRecords(w, m, next);
      DrainEdges(w, next + |m[next]|, m - {next});
    }
  }

  lemma InsertEdges(w: seq<Record>, buf: Buffer, offset: nat, data: Bytes)
    requires Disciplined(w) && Edge(w, buf.next) && Records(w, buf.pending) && IsRecord(w, offset, data)
    ensures var buf' := Reorder.Insert(buf, offset, data).0;
            Edge(w, buf'.next) && Records(w, buf'.pending)
  {
    DrainEdges(w, buf.next, buf.pending[offset := data]);
  }

  // ---- when nothing more can be gained ---------------------------------------

  /** The record the receiver waits for is refused, because what is held behind it leaves no
      room for it in the byte budget. */
  ghost predicate Jammed(s: Leg, buf: Buffer)
  {
    exists data :: IsRecord(s.wire, buf.next, data) && buf.buffered + |data| > buf.limitBytes
  }

  /** Carrying any data record over the link once more changes nothing. */
  ghost predicate Carried(s: Leg, buf: Buffer)
  {
    forall i :: 0 <= i < |s.wire| && s.wire[i].Data? ==> Through(buf, s.wire[i]).0 == buf
  }

  lemma AwaitedIsApart(w: seq<Record>, buf: Buffer, i: nat)
    requires Disciplined(w) && Records(w, buf.pending) && i < |w| && w[i].Data? && w[i].offset == buf.next
    requires forall k :: k in buf.pending ==> k > buf.next
    ensures Reorder.Apart(buf.pending, buf.next, buf.next + |w[i].payload|)
  {
    forall k | k in buf.pending ensures k + |buf.pending[k]| <= buf.next || buf.next + |w[i].payload| <= k {
      var j :| 0 <= j < |w| && w[j] == Data(k, buf.pending[k]);
      if i < j { RecordsApart(w, i, j); } else if j < i { RecordsApart(w, j, i); }
    }
  }

  lemma AwaitedTaken(buf: Buffer, data: Bytes)
    requires Reorder.BufferOk(buf) && data != [] && Reorder.Apart(buf.pending, buf.next, buf.next + |data|)
    requires buf.buffered + |data| <= buf.limitBytes
    ensures Reorder.Insert(buf, buf.next, data).0 != buf
  {
    Reorder.AwaitedBlockTaken(buf, data);
  }

  /** A record that is still awaited although it was carried does not fit. */
  lemma AwaitedIsJammed(s: Leg, buf: Buffer, i: nat)
    requires Disciplined(s.wire) && Reorder.BufferOk(buf) && Records(s.wire, buf.pending)
    requires i < |s.wire| && s.wire[i].Data? && s.wire[i].offset == buf.next && Through(buf, s.wire[i]).0 == buf
    ensures buf.next < |Payload(s.wire)| && buf.buffered + |s.wire[i].payload| > buf.limitBytes
  {
    SomeData(s.wire, i);
    DataIsHonest(s.wire, i);
    AwaitedIsApart(s.wire, buf, i);
    if buf.buffered + |s.wire[i].payload| <= buf.limitBytes { AwaitedTaken(buf, s.wire[i].payload); }
  }

  /** With every record carried the receiver has it all, exactly unless it is jammed. */
  lemma CarriedExactlyUnlessJammed(s: Leg, buf: Buffer)
    requires Disciplined(s.wire) && Reorder.BufferOk(buf) && Edge(s.wire, buf.next) && Records(s.wire, buf.pending)
    requires Carried(s, buf)
    ensures buf.next == |Payload(s.wire)| <==> !Jammed(s, buf)
  {
    if data :| IsRecord(s.wire, buf.next, data) {
      var i :| 0 <= i < |s.wire| && s.wire[i] == Data(buf.next, data);
      AwaitedIsJammed(s, buf, i);
    }
  }

  // ---- the wiring of a link --------------------------------------------------

  /** Every half-close heard was sent. */
  predicate FinsSent(w: seq<Record>, log: seq<Event>) { forall e <- log :: e.GotFin? ==> Fin(e.upTo) in w }

  /** The budgets every stream is built with. */
  predicate Standard(buf: Buffer)
  {
    buf.limitBytes == REORDER_MAX_OUT_OF_ORDER_BYTES && buf.limitBlocks == REORDER_MAX_BLOCKS && buf.lookAhead == REORDER_BUFFER_BYTES
  }

  ghost predicate Wired(s: Leg, r: Leg, buf: Buffer)
  {
    && Standard(buf) && Edge(s.wire, buf.next) && Records(s.wire, buf.pending)
    && FinsSent(s.wire, r.log) && s.sendLimit >= Base(r) && Fair(r)
  }

  lemma SenderActs(s: Leg, r: Leg, buf: Buffer, s': Leg)
    requires Wired(s, r, buf) && Acts(s, s') && Disciplined(s'.wire)
    ensures Wired(s', r, buf)
  {
    EdgeGrows(s.wire, s'.wire, buf.next);
    forall k | k in buf.pending ensures IsRecord(s'.wire, k, buf.pending[k]) {
      RecordGrows(s.wire, s'.wire, k, buf.pending[k]);
    }
    forall e <- r.log | e.GotFin? ensures Fin(e.upTo) in s'.wire {
      var i :| 0 <= i < |s.wire| && s.wire[i] == Fin(e.upTo);
      assert s'.wire[i] == s.wire[i];
    }
  }

  lemma ReceiverActs(s: Leg, r: Leg, buf: Buffer, r': Leg)
    requires Wired(s, r, buf) && Acts(r, r')
    ensures Wired(s, r', buf)
  {
  }

  lemma SenderHears(s: Leg, r: Leg, buf: Buffer, m: Inbound)
    requires Wired(s, r, buf) && s.received <= s.granted
    ensures Wired(Dispatch(s, m), r, buf)
  {
    var news := DispatchKeeps(s, m);
  }

  /** What may be told to a receiver: a half-close only if it was sent. */
  predicate Truthful(s: Leg, m: Inbound) { m.InFin? ==> Fin(m.inOffset) in s.wire }

  lemma EventsHaveNoFin(m: Inbound, r: Leg, news: seq<Event>)
    requires r.received <= r.granted && Receives(r, Dispatch(r, m), news)
    ensures forall e <- news :: e.GotFin? ==> m == InFin(e.upTo)
  {
    var l := Dispatch(r, m);
    assert l.log[|r.log|..] == news;
    if m.InData? {
      EventsCarry(m.blocks);
      assert news == [] || news == Events(m.blocks);
    }
  }

  lemma FairHears(l: Leg, m: Inbound)
    ensures Fair(l) ==> Fair(Dispatch(l, m))
    ensures Dispatch(l, m).window == l.window
  {
  }

  lemma ReceiverHears(s: Leg, r: Leg, buf: Buffer, m: Inbound)
    requires Wired(s, r, buf) && r.received <= r.granted && Truthful(s, m)
    ensures Wired(s, Dispatch(r, m), buf)
  {
    var news := DispatchKeeps(r, m);
    EventsHaveNoFin(m, r, news);
    FairHears(r, m);
  }

  lemma PeerActs(x: Leg, y: Leg, toX: Buffer, toY: Buffer, x': Leg)
    requires Wired(y, x, toX) && Wired(x, y, toY) && Acts(x, x') && Disciplined(x'.wire)
    ensures Wired(y, x', toX) && Wired(x', y, toY)
  {
    ReceiverActs(y, x, toX, x');
    SenderActs(x, y, toY, x');
  }

  lemma PeerHears(x: Leg, y: Leg, toX: Buffer, toY: Buffer, m: Inbound)
    requires Wired(y, x, toX) && Wired(x, y, toY) && x.received <= x.granted && Truthful(y, m)
    ensures Wired(y, Dispatch(x, m), toX) && Wired(Dispatch(x, m), y, toY)
  {
    ReceiverHears(y, x, toX, m);
    SenderHears(x, y, toY, m);
  }

  /** Record `i` of the sender's wire goes over the link. */
  lemma RecordArrives(s: Leg, r: Leg, toR: Buffer, toS: Buffer, i: nat, r': Leg)
    requires Wired(s, r, toR) && Wired(r, s, toS) && Disciplined(s.wire) && r.received <= r.granted && i < |s.wire|
    requires var m := Through(toR, s.wire[i]).1;
             r' == r || (m.Some? && r' == Dispatch(r, m.value))
    ensures Wired(s, r', Through(toR, s.wire[i]).0) && Wired(r', s, toS)
  {
    var (buf, m) := Through(toR, s.wire[i]);
    if s.wire[i].Data? {
      assert IsRecord(s.wire, s.wire[i].offset, s.wire[i].payload);
      InsertEdges(s.wire, toR, s.wire[i].offset, s.wire[i].payload);
    }
    assert Wired(s, r, buf);
    if m.Some? { PeerHears(r, s, buf, toS, m.value); }
  }

  // ---- both accounts of a link -----------------------------------------------

  /** One direction of a link: in order, and wired. */
  ghost predicate Linked(s: Leg, r: Leg, buf: Buffer) { LinkOk(s, r, buf) && Wired(s, r, buf) }

  lemma EndActs(x: Leg, y: Leg, toX: Buffer, toY: Buffer, x': Leg)
    requires Linked(y, x, toX) && Linked(x, y, toY) && Acts(x, x') && WireOk(x')
    ensures Linked(y, x', toX) && Linked(x', y, toY)
  {
    Link.PeerActs(x, y, toX, toY, x');
    PeerActs(x, y, toX, toY, x');
  }

  /** Trouble with the session reaches one end. */
  lemma EndHears(x: Leg, y: Leg, toX: Buffer, toY: Buffer, m: Inbound)
    requires Linked(y, x, toX) && Linked(x, y, toY) && (m.Failing? || m.SessionClosed?)
    ensures Linked(y, Dispatch(x, m), toX) && Linked(Dispatch(x, m), y, toY)
  {
    Link.PeerHears(x, y, toX, toY, m);
    PeerHears(x, y, toX, toY, m);
  }

  lemma EndTakes(s: Leg, r: Leg, toR: Buffer, toS: Buffer, i: nat, r': Leg)
    requires Linked(s, r, toR) && Linked(r, s, toS) && i < |s.wire|
    requires var (buf', m) := Through(toR, s.wire[i]);
             (r' == r && (m.None? || !r.sink)) || (m.Some? && r' == Dispatch(r, m.value))
    ensures Linked(s, r', Through(toR, s.wire[i]).0) && Linked(r', s, toS)
  {
    Link.RecordArrives(s, r, toR, toS, i, r');
    RecordArrives(s, r, toR, toS, i, r');
  }
}
