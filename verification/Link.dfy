/** One link between two engines: records go over it any number of times, in any order, or
    not at all; data passes the receiver's reorder buffer first. */
module Link {
  import opened Limits
  import opened StreamEngine
  import Reorder

  /** The receiving half of a link at one end: the reorder buffer before the leg. */
  type Buffer = Reorder.Buffer

  /** One direction of a link between two engines: everything the receiver queued is a prefix
      of what the sender put on its wire, and the sender's limit was granted. */
  ghost predicate LinkOk(s: Leg, r: Leg, buf: Buffer)
  {
    && WireOk(s) && WireOk(r) && r.received <= r.granted && s.sendLimit <= r.granted
    && Reorder.BufferOk(buf) && Reorder.Agrees(Payload(s.wire), buf.pending) && buf.next <= |Payload(s.wire)|
    && Queued(r.log) <= Payload(s.wire) && |Queued(r.log)| <= buf.next
    && (r.sink && r.installed ==> buf.next == r.received == |Queued(r.log)|)
  }

  /** A record as the receiving engine reads it. */
  function AsInbound(r: Record): Inbound
  {
    match r
    case OpenResult(status) => InOpenResult(status)
    case Ready => InReady
    case Data(offset, payload) => InData([Reorder.Block(offset, payload)])
    case Fin(offset) => InFin(offset)
    case Reset(reason) => InReset(reason)
    case Progress(limit) => InProgress(limit)
  }

  /** A control record is heard as it was sent. */
  lemma HeardAsSent(status: OpenStatus, offset: nat, why: ResetReason, limit: nat)
    ensures AsInbound(OpenResult(status)) == InOpenResult(status) && AsInbound(Ready) == InReady
    ensures AsInbound(Fin(offset)) == InFin(offset) && AsInbound(Reset(why)) == InReset(why) && AsInbound(Progress(limit)) == InProgress(limit)
  {
  }

  /** What reaches the leg for record `r`, and the reorder buffer after it. */
  ghost function Through(buf: Buffer, r: Record): (Buffer, Option<Inbound>)
  {
    if !r.Data? then (buf, Some(AsInbound(r)))
    else
      var (buf', out) := Reorder.Insert(buf, r.offset, r.payload);
      (buf', if out.Released? then Some(InData(out.blocks)) else None)
  }

  lemma AgreesLonger(short: Bytes, long: Bytes, m: map<nat, Bytes>)
    requires Reorder.Agrees(short, m) && short <= long
    ensures Reorder.Agrees(long, m)
  {
    forall k | k in m ensures k + |m[k]| <= |long| && m[k] == long[k..k + |m[k]|] {
      assert long[..|short|] == short;
      assert long[k..k + |m[k]|] == short[k..k + |m[k]|];
    }
  }

  /** Whatever the sender does on its own, the link stays in order. */
  lemma SenderActs(s: Leg, r: Leg, buf: Buffer, s': Leg)
    requires LinkOk(s, r, buf) && Acts(s, s') && WireOk(s')
    ensures LinkOk(s', r, buf)
  {
    PayloadGrows(s.wire, s'.wire);
    AgreesLonger(Payload(s.wire), Payload(s'.wire), buf.pending);
  }

  lemma ReceiverActs(s: Leg, r: Leg, buf: Buffer, r': Leg)
    requires LinkOk(s, r, buf) && Acts(r, r') && WireOk(r')
    ensures LinkOk(s, r', buf)
  {
  }

  /** A control record, or trouble, at the receiving end. */
  lemma ReceiverHears(s: Leg, r: Leg, buf: Buffer, m: Inbound)
    requires LinkOk(s, r, buf) && !m.InData?
    ensures LinkOk(s, Dispatch(r, m), buf)
  {
    var news := DispatchKeeps(r, m);
    QueuedConcat(r.log, news);
    assert Queued(r.log) + [] == Queued(r.log);
  }

  /** The same at the sending end; a limit it hears of must have been granted. */
  lemma SenderHears(s: Leg, r: Leg, buf: Buffer, m: Inbound)
    requires LinkOk(s, r, buf) && s.received <= s.granted && (m.InProgress? ==> m.limit <= r.granted)
    ensures LinkOk(Dispatch(s, m), r, buf)
  {
    var news := DispatchKeeps(s, m);
  }

  lemma BlocksArrive(s: Leg, r: Leg, buf: Buffer, buf': Buffer, blocks: seq<Reorder.Block>)
    requires LinkOk(s, r, buf) && Reorder.BufferOk(buf') && Reorder.Agrees(Payload(s.wire), buf'.pending)
    requires buf.next <= buf'.next <= |Payload(s.wire)| && buf'.next == buf.next + Reorder.Length(blocks)
    requires Reorder.Contiguous(blocks, buf.next) && Reorder.Join(blocks) == Payload(s.wire)[buf.next..buf'.next]
    ensures LinkOk(s, Dispatch(r, InData(blocks)), buf')
  {
    var stream := Payload(s.wire);
    ChargeCovers(r.received, r.granted, blocks);
    if r.sink && r.installed {
      ChargeContiguous(r.received, r.granted, blocks);
      EventsCarry(blocks);
      QueuedConcat(r.log, Events(blocks));
      Glue(stream, 0, buf.next, buf'.next);
      assert stream[0..buf.next] == Queued(r.log) && stream[0..buf'.next] <= stream;
    }
  }

  lemma DataArrives(s: Leg, r: Leg, buf: Buffer, i: nat)
    requires LinkOk(s, r, buf) && i < |s.wire| && s.wire[i].Data?
    ensures !(r.sink && r.installed) ==> LinkOk(s, r, Through(buf, s.wire[i]).0)
    ensures var (buf', m) := Through(buf, s.wire[i]);
            LinkOk(s, if m.Some? then Dispatch(r, m.value) else r, buf')
  {
    DataIsHonest(s.wire, i);
    var a := Reorder.Block(s.wire[i].offset, s.wire[i].payload);
    Reorder.InsertHonest(Payload(s.wire), buf, a);
    Reorder.InsertKeeps(buf, a.offset, a.data);
    var (buf', out) := Reorder.Insert(buf, a.offset, a.data);
    if out.Released? { BlocksArrive(s, r, buf, buf', out.blocks); }
  }

  /** The leg that hears something keeps both directions of its link. */
  lemma PeerHears(x: Leg, y: Leg, toX: Buffer, toY: Buffer, m: Inbound)
    requires LinkOk(y, x, toX) && LinkOk(x, y, toY) && !m.InData? && (m.InProgress? ==> m.limit <= y.granted)
    ensures LinkOk(y, Dispatch(x, m), toX) && LinkOk(Dispatch(x, m), y, toY)
  {
    ReceiverHears(y, x, toX, m);
    SenderHears(x, y, toY, m);
  }

  /** One end of a link acts; both directions stay in order. */
  lemma PeerActs(x: Leg, y: Leg, toX: Buffer, toY: Buffer, x': Leg)
    requires LinkOk(y, x, toX) && LinkOk(x, y, toY) && Acts(x, x') && WireOk(x')
    ensures LinkOk(y, x', toX) && LinkOk(x', y, toY)
  {
    ReceiverActs(y, x, toX, x');
    SenderActs(x, y, toY, x');
  }

  /** Record `i` of the sender's wire goes over the link, and reaches a leg that is still
      owned. */
  lemma RecordArrives(s: Leg, r: Leg, toR: Buffer, toS: Buffer, i: nat, r': Leg)
    requires LinkOk(s, r, toR) && LinkOk(r, s, toS) && i < |s.wire|
    requires var (buf', m) := Through(toR, s.wire[i]);
             (r' == r && (m.None? || !r.sink)) || (m.Some? && r' == Dispatch(r, m.value))
    ensures LinkOk(s, r', Through(toR, s.wire[i]).0) && LinkOk(r', s, toS)
  {
    if s.wire[i].Data? {
      DataArrives(s, r, toR, i);
      var m := Through(toR, s.wire[i]).1;
      if m.Some? { SenderHears(r, s, toS, m.value); }
    } else {
      if s.wire[i].Progress? { PromiseCovers(s.wire, i); }
      PeerHears(r, s, toR, toS, AsInbound(s.wire[i]));
    }
  }

  /** What the receiver has granted beyond what was sent is never more than its window. */
  lemma CreditWithinWindow(s: Leg, r: Leg, buf: Buffer)
    requires LinkOk(s, r, buf) && r.consumed <= |Queued(r.log)|
    ensures s.sendLimit <= |Payload(s.wire)| + r.window
  {
  }
}
