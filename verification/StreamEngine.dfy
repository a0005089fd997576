/** One stream of a session engine, as its user sees it through `SessionHandle`
    (crates/wsnet-session/src/engine.rs). A `Leg` is the engine's entry for the stream plus
    what that stream has put on the wire and what is queued for its owner. */
module StreamEngine {
  import opened Limits
  import Reorder

  datatype OpenStatus = Ok | Refused | Denied | Offline | Unreachable | Timeout | Conflict

  datatype ResetReason = ProtocolError | TimedOut | Canceled | Overflow | Unreachable_

  /** Records this side sent on the stream, oldest first. */
  datatype Record =
    | OpenResult(status: OpenStatus)
    | Ready
    | Data(offset: nat, payload: Bytes)
    | Fin(finalOffset: nat)
    | Reset(reason: ResetReason)
    | Progress(limitOffset: nat)

  /** Events the engine queued for the stream's owner. */
  datatype Event =
    | GotOpenResult(openStatus: OpenStatus)
    | GotReady
    | GotData(bytes: Bytes)
    | GotFin(upTo: nat)
    | GotReset(why: ResetReason)
    | GotProgress
    | GotOther

  datatype Leg = Leg(
    left: Option<nat>, // how many more records the session can seal, once that is bounded
    installed: bool,   // the engine still has an entry for the stream
    sink: bool,        // someone owns the stream's events
    wire: seq<Record>,
    inbox: seq<Event>,
    log: seq<Event>,   // every event ever queued, in order
    sendOffset: nat,
    sendLimit: nat,
    finSent: bool,
    received: nat,
    consumed: nat,
    granted: nat,
    window: nat)

  function Initial(flowWindow: nat): nat { Min(STREAM_INITIAL_CREDIT, flowWindow) }

  /** Everything the proofs need to know about a stream's records so far. */
  datatype Tally = Tally(
    payload: Bytes, fins: nat, resets: nat, answers: nat, accepts: nat, promised: nat, disciplined: bool)

  /** Whether record `r` may come next: contiguous bounded data, nothing but credit
      after a half-close, nothing at all after a reset. */
  predicate MayFollow(t: Tally, r: Record)
  {
    && t.resets == 0
    && (r.Data? ==> t.fins == 0 && r.offset == |t.payload| && 0 < |r.payload| <= MAX_TCP_PAYLOAD)
    && (r.Fin? ==> t.fins == 0 && r.finalOffset == |t.payload|)
  }

  function Note(t: Tally, r: Record): Tally
  {
    var t' := t.(disciplined := t.disciplined && MayFollow(t, r));
    match r
    case OpenResult(status) =>
      t'.(answers := t.answers + 1, accepts := if status == Ok then t.accepts + 1 else t.accepts)
    case Data(_, payload) => t'.(payload := t.payload + payload)
    case Fin(_) => t'.(fins := t.fins + 1)
    case Reset(_) => t'.(resets := t.resets + 1)
    case Ready => t'
    case Progress(limit) => t'.(promised := Max(t.promised, limit))
  }

  function Read(w: seq<Record>): Tally
  {
    if w == [] then Tally([], 0, 0, 0, 0, 0, true) else Note(Read(w[..|w| - 1]), w[|w| - 1])
  }

  function Payload(w: seq<Record>): Bytes { Read(w).payload }

  predicate HasFin(w: seq<Record>) { Read(w).fins > 0 }

  predicate HasReset(w: seq<Record>) { Read(w).resets > 0 }

  predicate Disciplined(w: seq<Record>) { Read(w).disciplined }

  /** What this leg's wire owes its peer and what its peer may send it. */
  predicate WireOk(l: Leg)
  {
    && Disciplined(l.wire) && |Payload(l.wire)| <= l.sendLimit
    && Read(l.wire).promised <= l.granted <= l.consumed + l.window
  }

  /** The credit account and the wire agree with each other. */
  predicate Sound(l: Leg)
  {
    && WireOk(l)
    && l.sendOffset == |Payload(l.wire)|
    && l.consumed <= l.received <= l.granted
    && (HasReset(l.wire) ==> !l.installed)
    && (HasFin(l.wire) ==> l.finSent)
  }

  function Fresh(flowWindow: nat): (l: Leg)
    ensures Sound(l) && l.installed && l.wire == []
  {
    var initial := Initial(flowWindow);
    Leg(None, true, true, [], [], [], 0, initial, false, 0, 0, initial,
        Max(Min(flowWindow, STREAM_MAX_CREDIT), initial))
  }

  // ---- what the wire carries -------------------------------------------------

  /** The bytes of the data events among `events`. */
  function Queued(events: seq<Event>): Bytes
  {
    if events == [] then []
    else (if events[0].GotData? then events[0].bytes else []) + Queued(events[1..])
  }

  predicate Quiet(l: Leg) { Sound(l) && !HasReset(l.wire) }

  // ---- sending ---------------------------------------------------------------

  datatype Sending = Sent(leg: Leg) | CreditExceeded | Broken(after: Leg)

  /** The session can seal `n` more records. */
  predicate CanSeal(l: Leg, n: nat) { l.left.Some? ==> n <= l.left.value }

  function Sealed(l: Leg, n: nat): Leg
  {
    if l.left.None? then l else l.(left := Some(Minus(l.left.value, n)))
  }

  /** One control record. */
  function Put(l: Leg, r: Record): Leg { Sealed(l, 1).(wire := l.wire + [r]) }

  /** `send_data` splits a payload at the record limit. */
  function Chunks(offset: nat, payload: Bytes): seq<Record>
    decreases |payload|
  {
    if payload == [] then []
    else
      var n := Min(|payload|, MAX_TCP_PAYLOAD);
      [Data(offset, payload[..n])] + Chunks(offset + n, payload[n..])
  }

  function Emit(l: Leg, payload: Bytes): Leg
  {
    var chunks := Chunks(l.sendOffset, payload);
    Sealed(l, |chunks|).(wire := l.wire + chunks, sendOffset := l.sendOffset + |payload|)
  }

  /** Checks the whole payload against the credit first; when sealing fails between two
      chunks, those already sealed are on the wire. */
  function SendData(l: Leg, payload: Bytes): Sending
  {
    if payload == [] then Sent(l)
    else if !l.installed then Broken(l)
    else if l.sendOffset + |payload| > l.sendLimit then CreditExceeded
    else if l.left.Some? && l.left.value * MAX_TCP_PAYLOAD < |payload| then
      Broken(Emit(l, payload[..l.left.value * MAX_TCP_PAYLOAD]).(left := Some(0)))
    else Sent(Emit(l, payload))
  }

  function SendFin(l: Leg): Sending
  {
    if !l.installed then Broken(l)
    else if l.finSent then Sent(l)
    else if !CanSeal(l, 1) then Broken(l.(finSent := true))
    else Sent(Put(l, Fin(l.sendOffset)).(finSent := true))
  }

  function SendReset(l: Leg, reason: ResetReason): Leg
  {
    if !CanSeal(l, 1) then l else Put(l, Reset(reason)).(installed := false)
  }

  /** `Ok` is followed by `Ready` in the same call, which can fail on its own. */
  function SendOpenResult(l: Leg, status: OpenStatus): Sending
  {
    if !CanSeal(l, 1) then Broken(l)
    else
      var l1 := Put(l, OpenResult(status));
      if status != Ok then Sent(l1.(installed := false))
      else if !CanSeal(l1, 1) then Broken(l1)
      else Sent(Put(l1, Ready))
  }

  /** The account after `n` more bytes were handed on. */
  function Credited(l: Leg, n: nat): Leg
  {
    l.(consumed := l.consumed + n, granted := Max(l.granted, l.consumed + n + l.window))
  }

  /** `consume`: credit follows what the owner handed on, never what arrived. */
  function Consume(l: Leg, n: nat): Sending
  {
    if !l.installed || l.consumed + n > l.received then Broken(l)
    else
      var l' := Credited(l, n);
      if l'.granted == l.granted then Sent(l')
      else if !CanSeal(l', 1) then Broken(l')
      else Sent(Put(l', Progress(l'.granted)))
  }

  function Release(l: Leg): Leg { l.(sink := false, installed := false) }

  // ---- receiving -------------------------------------------------------------

  /** What the peer, or the end of the session, can do to the stream at any time. `InData`
      carries the blocks the reorder buffer released for one record. */
  datatype Inbound =
    | InData(blocks: seq<Reorder.Block>)
    | InFin(inOffset: nat)
    | InReset(resetWhy: ResetReason)
    | InProgress(limit: nat)
    | InOpenResult(inStatus: OpenStatus)
    | InReady
    | Failing(records: nat)   // the session will seal no more than that many records
    | SessionClosed

  datatype Charged = Charged(received: nat, ok: bool)

  /** `record_received` block by block: within the limit and exactly in order. */
  function Charge(received: nat, granted: nat, blocks: seq<Reorder.Block>): Charged
    decreases |blocks|
  {
    if blocks == [] then Charged(received, true)
    else if blocks[0].data == [] then Charge(received, granted, blocks[1..])
    else
      var end := blocks[0].offset + |blocks[0].data|;
      if end > granted || blocks[0].offset != received then Charged(received, false)
      else Charge(end, granted, blocks[1..])
  }

  function Events(blocks: seq<Reorder.Block>): seq<Event>
  {
    if blocks == [] then [] else [GotData(blocks[0].data)] + Events(blocks[1..])
  }

  function Enqueue(l: Leg, events: seq<Event>): Leg
  {
    if l.sink then l.(inbox := l.inbox + events, log := l.log + events) else l
  }

  /** `deliver_data`: one block out of place or over the limit, and the whole batch queues
      nothing, though the blocks before it were charged. */
  function DeliverBlocks(l: Leg, blocks: seq<Reorder.Block>): Leg
  {
    if !l.installed then l
    else
      var c := Charge(l.received, l.granted, blocks);
      var l' := l.(received := c.received);
      if c.ok then Enqueue(l', Events(blocks)) else l'
  }

  function Dispatch(l: Leg, m: Inbound): Leg
  {
    match m
    case InData(blocks) => DeliverBlocks(l, blocks)
    case InFin(offset) => Enqueue(l, [GotFin(offset)])
    case InReset(why) => Enqueue(l.(installed := false), [GotReset(why)])
    case InProgress(limit) => Enqueue(l.(sendLimit := Max(l.sendLimit, limit)), [GotProgress])
    case InOpenResult(status) =>
      Enqueue(if status == Ok then l else l.(installed := false), [GotOpenResult(status)])
    case InReady => Enqueue(l, [GotReady])
    case Failing(n) => l.(left := Some(if l.left.Some? then Min(l.left.value, n) else n))
    case SessionClosed => l.(left := Some(0), sink := false)
  }

  // ---- what each call answers ------------------------------------------------

  /** A new stream may send and receive up to the initial credit; its window is what the session
      was configured with, at most the largest credit and at least the initial one. */
  lemma FreshExactly(flowWindow: nat)
    ensures var l := Fresh(flowWindow);
            var initial := if flowWindow < 262_144 then flowWindow else 262_144;
            && l.sendLimit == initial && l.granted == initial && l.consumed == l.received == l.sendOffset == 0
            && l.window == (if flowWindow > 1_048_576 then 1_048_576 else flowWindow) && l.left == None && l.inbox == l.log == []
  {
  }

  /** The seals a payload needs. */
  function Seals(n: nat): nat { (n + MAX_TCP_PAYLOAD - 1) / MAX_TCP_PAYLOAD }

  /** Data is refused beyond the credit, fails without a stream or when the session cannot seal all
      of it, and is sent otherwise. */
  lemma SendDataAnswersExactly(l: Leg, payload: Bytes)
    ensures var s, n := SendData(l, payload), |payload|;
            && (s.Sent? <==> n == 0 || (l.installed && l.sendOffset + n <= l.sendLimit && CanSeal(l, Seals(n))))
            && (s.CreditExceeded? <==> n > 0 && l.installed && l.sendOffset + n > l.sendLimit)
            && (s.Sent? ==> s.leg.sendOffset == l.sendOffset + n && s.leg.sendLimit == l.sendLimit)
  {
    if l.left.Some? {
      var k, n := l.left.value, |payload|;
      assert k * MAX_TCP_PAYLOAD < n <==> k < Seals(n);
    }
  }

  /** The other calls: what they put on the wire, and when they fail. */
  lemma ControlsAnswerExactly(l: Leg, reason: ResetReason, status: OpenStatus)
    ensures var s := SendFin(l);
            && (s.Sent? <==> l.installed && (l.finSent || CanSeal(l, 1)))
            && (s.Sent? ==> s.leg.finSent && s.leg.wire == if l.finSent then l.wire else l.wire + [Fin(l.sendOffset)])
    ensures var r := SendReset(l, reason);
            if CanSeal(l, 1) then !r.installed && r.wire == l.wire + [Reset(reason)] else r == l
    ensures var o := SendOpenResult(l, status);
            && (o.Sent? <==> CanSeal(l, if status == Ok then 2 else 1))
            && (o.Sent? && status == Ok ==> o.leg.wire == (l.wire + [OpenResult(Ok)]) + [Ready] && o.leg.installed == l.installed)
            && (o.Sent? && status != Ok ==> o.leg.wire == l.wire + [OpenResult(status)] && !o.leg.installed)
  {
  }

  /** Credit is granted for what was handed on: up to a whole window ahead, and the peer is told
      whenever the limit rises. */
  lemma ConsumeAnswersExactly(l: Leg, n: nat)
    ensures var s := Consume(l, n);
            var limit := if l.consumed + n + l.window > l.granted then l.consumed + n + l.window else l.granted;
            var rises := limit > l.granted;
            && (s.Sent? <==> l.installed && l.consumed + n <= l.received && (rises ==> CanSeal(l, 1)))
            && (s.Sent? ==> s.leg.consumed == l.consumed + n && s.leg.granted == limit
                            && s.leg.wire == if rises then l.wire + [Progress(limit)] else l.wire)
  {
  }

  /** What reaches the owner of a stream, and what changes in the engine: a raised limit is taken,
      a lower one is not; a reset and a refused open end the stream; trouble only bounds what can
      still be sealed. */
  lemma DispatchTellsExactly(l: Leg, m: Inbound)
    requires l.sink
    ensures var l' := Dispatch(l, m);
            && (m.InFin? ==> l' == l.(inbox := l.inbox + [GotFin(m.inOffset)], log := l.log + [GotFin(m.inOffset)]))
            && (m.InReset? ==> l' == l.(installed := false, inbox := l.inbox + [GotReset(m.resetWhy)], log := l.log + [GotReset(m.resetWhy)]))
            && (m.InProgress? ==>
                  l' == l.(sendLimit := if m.limit > l.sendLimit then m.limit else l.sendLimit,
                           inbox := l.inbox + [GotProgress], log := l.log + [GotProgress]))
            && (m.InOpenResult? ==>
                  l' == l.(installed := l.installed && m.inStatus == Ok,
                           inbox := l.inbox + [GotOpenResult(m.inStatus)], log := l.log + [GotOpenResult(m.inStatus)]))
            && (m.InReady? ==> l' == l.(inbox := l.inbox + [GotReady], log := l.log + [GotReady]))
            && (m.SessionClosed? ==> l' == l.(left := Some(0), sink := false))
            && (m.Failing? ==> l' == l.(left := l'.left) && l'.left.Some? && l'.left.value <= m.records
                               && (l.left.Some? ==> l'.left.value <= l.left.value))
  {
  }

  /** Blocks in order are charged exactly if they stay within the limit. */
  lemma {:induction false} ChargeContiguous(received: nat, granted: nat, blocks: seq<Reorder.Block>)
    requires Reorder.Contiguous(blocks, received)
    ensures received + Reorder.Length(blocks) <= granted ==> Charge(received, granted, blocks) == Charged(received + Reorder.Length(blocks), true)
    ensures Reorder.Length(blocks) > 0 && received + Reorder.Length(blocks) > granted ==> !Charge(received, granted, blocks).ok
    decreases |blocks|
  {
    if blocks != [] { ChargeContiguous(received + |blocks[0].data|, granted, blocks[1..]); }
  }

  /** Data in order is queued whole if it stays within the limit, and not at all otherwise. */
  lemma DataQueuedExactly(l: Leg, blocks: seq<Reorder.Block>)
    requires l.sink && l.installed && Reorder.Contiguous(blocks, l.received) && Reorder.Length(blocks) > 0
    ensures var l' := Dispatch(l, InData(blocks));
            if l.received + Reorder.Length(blocks) <= l.granted then
              l' == l.(received := l.received + Reorder.Length(blocks), inbox := l.inbox + Events(blocks), log := l.log + Events(blocks))
            else l'.inbox == l.inbox && l'.log == l.log
  {
    ChargeContiguous(l.received, l.granted, blocks);
  }

  // ---- facts about the wire --------------------------------------------------

  lemma Append(w: seq<Record>, r: Record)
    ensures Read(w + [r]) == Note(Read(w), r)
  {
    var v := w + [r];
    assert v[..|v| - 1] == w && v[|v| - 1] == r;
  }

  lemma {:induction false} AppendChunks(w: seq<Record>, offset: nat, payload: Bytes)
    requires Disciplined(w) && !HasFin(w) && !HasReset(w) && offset == |Payload(w)|
    ensures Read(w + Chunks(offset, payload)) == Read(w).(payload := Payload(w) + payload)
    decreases |payload|
  {
    if payload == [] {
      assert w + Chunks(offset, payload) == w;
    } else {
      var n := Min(|payload|, MAX_TCP_PAYLOAD);
      var head := Data(offset, payload[..n]);
      var rest := Chunks(offset + n, payload[n..]);
      Append(w, head);
      AppendChunks(w + [head], offset + n, payload[n..]);
      Assoc(w, [head], rest);
      Splice(Payload(w), payload, n);
    }
  }

  lemma HonestLonger(short: Bytes, long: Bytes, a: Reorder.Block)
    requires Reorder.Honest(short, a) && short <= long
    ensures Reorder.Honest(long, a)
  {
    assert long[..|short|] == short;
    assert long[a.offset..a.offset + |a.data|] == short[a.offset..a.offset + |a.data|];
  }

  /** Every data record of a disciplined wire is a piece of that wire's payload. */
  lemma {:induction false} DataIsHonest(w: seq<Record>, i: nat)
    requires Disciplined(w) && i < |w| && w[i].Data?
    ensures Reorder.Honest(Payload(w), Reorder.Block(w[i].offset, w[i].payload))
  {
    var n := |w| - 1;
    if i < n {
      DataIsHonest(w[..n], i);
      HonestLonger(Payload(w[..n]), Payload(w), Reorder.Block(w[i].offset, w[i].payload));
    }
  }

  /** More records never take payload back. */
  lemma {:induction false} PayloadGrows(w: seq<Record>, w': seq<Record>)
    requires w <= w'
    ensures Payload(w) <= Payload(w') && Read(w).promised <= Read(w').promised
  {
    if |w| < |w'| {
      var n := |w'| - 1;
      PayloadGrows(w, w'[..n]);
    } else {
      assert w == w';
    }
  }

  /** No record promises more than the wire's promise. */
  lemma {:induction false} PromiseCovers(w: seq<Record>, i: nat)
    requires i < |w| && w[i].Progress?
    ensures w[i].limitOffset <= Read(w).promised
  {
    if i < |w| - 1 { PromiseCovers(w[..|w| - 1], i); }
  }

  // ---- facts about sending ---------------------------------------------------

  /** What a data send leaves behind: the leg as it was, and a prefix of the payload gone out. */
  predicate Sends(l: Leg, sent: Bytes, l': Leg)
  {
    && Quiet(l') && Read(l'.wire) == Read(l.wire).(payload := Payload(l.wire) + sent)
    && l' == l.(wire := l'.wire, sendOffset := l.sendOffset + |sent|, left := l'.left)
    && l.wire <= l'.wire
  }

  lemma EmitKeeps(l: Leg, payload: Bytes)
    requires Quiet(l) && !HasFin(l.wire) && l.sendOffset + |payload| <= l.sendLimit
    ensures Sends(l, payload, Emit(l, payload))
  {
    AppendChunks(l.wire, l.sendOffset, payload);
  }

  /** A send is all or nothing against the credit; it puts exactly the payload on the wire,
      or, when sealing fails, some prefix of it. */
  lemma SendDataKeeps(l: Leg, payload: Bytes)
    requires Quiet(l) && !HasFin(l.wire) && payload != []
    ensures match SendData(l, payload)
            case Sent(l') => Sends(l, payload, l')
            case Broken(l') => exists k :: 0 <= k < |payload| && Sends(l, payload[..k], l')
            case CreditExceeded => l.sendOffset + |payload| > l.sendLimit
  {
    if l.installed && l.sendOffset + |payload| <= l.sendLimit {
      if l.left.Some? && l.left.value * MAX_TCP_PAYLOAD < |payload| {
        var k := l.left.value * MAX_TCP_PAYLOAD;
        EmitKeeps(l, payload[..k]);
        assert Sends(l, payload[..k], SendData(l, payload).after);
      } else {
        EmitKeeps(l, payload);
      }
    } else if !l.installed {
      assert payload[..0] == [] && Payload(l.wire) + [] == Payload(l.wire);
      assert Sends(l, payload[..0], l);
    }
  }

  /** What granting credit changes; `n` bytes are consumed, or none when it is refused. */
  predicate Grants(l: Leg, n: nat, l': Leg)
  {
    && Quiet(l') && Read(l'.wire) == Read(l.wire).(promised := Read(l'.wire).promised)
    && l' == l.(wire := l'.wire, consumed := l'.consumed, granted := l'.granted, left := l'.left)
    && (l'.consumed == l.consumed || l'.consumed == l.consumed + n)
    && l.wire <= l'.wire && l.granted <= l'.granted && (l.left == Some(0) ==> l'.left == Some(0))
  }

  lemma CreditedKeeps(l: Leg, n: nat)
    requires Quiet(l) && l.consumed + n <= l.received
    ensures Grants(l, n, Credited(l, n))
  {
  }

  lemma PromiseKeeps(l: Leg, l1: Leg)
    requires Quiet(l) && l1 == Put(l, Progress(l.granted))
    ensures Quiet(l1) && Read(l1.wire) == Read(l.wire).(promised := Read(l1.wire).promised)
    ensures l1 == l.(wire := l1.wire, left := l1.left) && l.wire <= l1.wire
  {
    Append(l.wire, Progress(l.granted));
  }

  lemma ConsumeKeeps(l: Leg, n: nat, s: Sending)
    requires Quiet(l) && s == Consume(l, n)
    ensures match s
            case Sent(l') => Grants(l, n, l') && l'.consumed == l.consumed + n
            case Broken(l') =>
              Grants(l, n, l') && (l.installed && l.consumed + n <= l.received ==> l'.consumed == l.consumed + n)
            case CreditExceeded => false
  {
    if l.installed && l.consumed + n <= l.received {
      var l' := Credited(l, n);
      CreditedKeeps(l, n);
      PromiseKeeps(l', Put(l', Progress(l'.granted)));
    }
  }

  /** What a half-close changes. */
  predicate HalfCloses(l: Leg, l': Leg)
  {
    && Quiet(l')
    && Read(l'.wire) == Read(l.wire).(fins := Read(l'.wire).fins)
    && l' == l.(wire := l'.wire, finSent := l'.finSent, left := l'.left)
    && l.wire <= l'.wire
  }

  lemma SendFinKeeps(l: Leg)
    requires Quiet(l) && !l.finSent
    ensures match SendFin(l)
            case Sent(l') => HalfCloses(l, l') && l'.finSent && HasFin(l'.wire)
            case Broken(l') => HalfCloses(l, l') && !HasFin(l'.wire)
            case CreditExceeded => false
  {
    Append(l.wire, Fin(l.sendOffset));
  }

  lemma SendResetKeeps(l: Leg, reason: ResetReason)
    requires Disciplined(l.wire) && !HasReset(l.wire)
    ensures var l' := SendReset(l, reason);
            && Read(l'.wire) == Read(l.wire).(resets := Read(l'.wire).resets) && Read(l'.wire).resets <= 1
            && (HasReset(l'.wire) <==> CanSeal(l, 1))
  {
    Append(l.wire, Reset(reason));
  }

  // ---- facts about receiving -------------------------------------------------

  lemma {:induction false} QueuedConcat(p: seq<Event>, q: seq<Event>)
    ensures Queued(p + q) == Queued(p) + Queued(q)
  {
    if p == [] {
      assert p + q == q;
    } else {
      assert (p + q)[1..] == p[1..] + q;
      QueuedConcat(p[1..], q);
    }
  }

  lemma {:induction false} EventsCarry(blocks: seq<Reorder.Block>)
    ensures Queued(Events(blocks)) == Reorder.Join(blocks)
    ensures forall e <- Events(blocks) :: e.GotData?
  {
    if blocks != [] {
      EventsCarry(blocks[1..]);
      assert Events(blocks)[1..] == Events(blocks[1..]);
    }
  }

  /** What is charged covers what is queued. */
  lemma {:induction false} ChargeCovers(received: nat, granted: nat, blocks: seq<Reorder.Block>)
    requires received <= granted
    ensures var c := Charge(received, granted, blocks);
            received <= c.received <= granted && (c.ok ==> c.received == received + |Reorder.Join(blocks)|)
    decreases |blocks|
  {
    if blocks != [] {
      var end := blocks[0].offset + |blocks[0].data|;
      if blocks[0].data == [] {
        ChargeCovers(received, granted, blocks[1..]);
      } else if end <= granted && blocks[0].offset == received {
        ChargeCovers(end, granted, blocks[1..]);
      }
    }
  }

  /** What whatever arrives can change: `news` is what it queued. */
  predicate Receives(l: Leg, l': Leg, news: seq<Event>)
  {
    && l'.inbox == l.inbox + news && l'.log == l.log + news
    && l'.wire == l.wire && l'.consumed == l.consumed && l'.granted == l.granted && l'.finSent == l.finSent
    && l'.sendOffset == l.sendOffset && l'.window == l.window
    && l.sendLimit <= l'.sendLimit
    && l.received + |Queued(news)| <= l'.received <= l.granted
    && (l'.installed ==> l.installed) && (l'.sink ==> l.sink)
  }

  lemma EnqueueReceives(l: Leg, l1: Leg, events: seq<Event>) returns (news: seq<Event>)
    requires l1 == l.(installed := l1.installed, sendLimit := l1.sendLimit, received := l1.received)
    requires l.sendLimit <= l1.sendLimit && (l1.installed ==> l.installed)
    requires l.received + |Queued(events)| <= l1.received <= l.granted
    ensures Receives(l, Enqueue(l1, events), news) && news == if l.sink then events else []
  {
    news := if l.sink then events else [];
    assert l.inbox + [] == l.inbox && l.log + [] == l.log;
  }

  lemma DeliverReceives(l: Leg, blocks: seq<Reorder.Block>) returns (news: seq<Event>)
    requires l.received <= l.granted
    ensures Receives(l, DeliverBlocks(l, blocks), news)
    ensures news == [] || news == Events(blocks)
  {
    ChargeCovers(l.received, l.granted, blocks);
    EventsCarry(blocks);
    var c := Charge(l.received, l.granted, blocks);
    if l.installed && c.ok {
      news := EnqueueReceives(l, l.(received := c.received), Events(blocks));
    } else {
      news := [];
      assert l.inbox + [] == l.inbox && l.log + [] == l.log;
    }
  }

  /** Whatever arrives, the leg stays sound, nothing is sent, and every byte queued for the
      owner was charged to the credit account first. */
  lemma DispatchKeeps(l: Leg, m: Inbound) returns (news: seq<Event>)
    requires l.received <= l.granted
    ensures Receives(l, Dispatch(l, m), news)
    ensures !m.InData? ==> Queued(news) == [] && Dispatch(l, m).received == l.received
  {
    assert l.inbox + [] == l.inbox && l.log + [] == l.log;
    match m {
      case InData(blocks) => news := DeliverReceives(l, blocks);
      case InFin(offset) => news := EnqueueReceives(l, l, [GotFin(offset)]);
      case InReset(why) => news := EnqueueReceives(l, l.(installed := false), [GotReset(why)]);
      case InProgress(limit) => news := EnqueueReceives(l, l.(sendLimit := Max(l.sendLimit, limit)), [GotProgress]);
      case InOpenResult(status) =>
        news := EnqueueReceives(l, if status == Ok then l else l.(installed := false), [GotOpenResult(status)]);
      case InReady => news := EnqueueReceives(l, l, [GotReady]);
      case Failing(n) => news := [];
      case SessionClosed => news := [];
    }
  }

  lemma ReceivesSound(l: Leg, l': Leg, news: seq<Event>)
    requires Sound(l) && Receives(l, l', news)
    ensures Sound(l')
  {
  }

  // ---- what an owner can do to a leg -----------------------------------------

  /** The credit a leg starts with, and always has beyond what it has handed on. */
  function Base(l: Leg): nat { Min(STREAM_INITIAL_CREDIT, l.window) }

  /** Credit is granted ahead of what was handed on, and while the session lasts every grant
      is on the wire. */
  predicate Fair(l: Leg)
  {
    && l.granted >= l.consumed + Base(l) && (l.consumed > 0 ==> l.granted >= l.consumed + l.window)
    && (l.left.None? ==> l.granted <= Max(Base(l), Read(l.wire).promised))
  }

  /** The owner's calls only add records and credit, fairly; they neither receive nor raise
      the limit the peer granted. */
  predicate Acts(l: Leg, l': Leg)
  {
    && l'.log == l.log && l'.received == l.received && l'.sendLimit == l.sendLimit && l'.window == l.window
    && l.wire <= l'.wire && l.granted <= l'.granted
    && (l'.installed ==> l.installed) && (l'.sink ==> l.sink) && (l'.left.None? ==> l.left.None?)
    && (Fair(l) ==> Fair(l'))
  }

  lemma ActsTrans(a: Leg, b: Leg, c: Leg)
    requires Acts(a, b) && Acts(b, c)
    ensures Acts(a, c)
  {
  }

  /** More records leave a leg fair whose credit did not move. */
  lemma FairGrows(l: Leg, l': Leg)
    requires l.wire <= l'.wire && l'.granted == l.granted && l'.consumed == l.consumed && l'.window == l.window
    requires l'.left.None? ==> l.left.None?
    ensures Fair(l) ==> Fair(l')
  {
    PayloadGrows(l.wire, l'.wire);
  }

  /** The owner's calls, with the queue left alone. */
  predicate Still(l: Leg, l': Leg) { Acts(l, l') && l'.inbox == l.inbox }

  /** A call that only adds records. */
  lemma AddsStill(l: Leg, l': Leg)
    requires l.wire <= l'.wire && (l'.left.None? ==> l.left.None?) && (l'.installed ==> l.installed) && (l'.sink ==> l.sink)
    requires l' == l.(wire := l'.wire, left := l'.left, installed := l'.installed, sink := l'.sink,
                      sendOffset := l'.sendOffset, finSent := l'.finSent)
    ensures Still(l, l')
  {
    FairGrows(l, l');
  }

  lemma SendDataStill(l: Leg, payload: Bytes)
    ensures var s := SendData(l, payload);
            (s.Sent? ==> Still(l, s.leg)) && (s.Broken? ==> Still(l, s.after))
  {
    match SendData(l, payload) {
      case Sent(l') => AddsStill(l, l');
      case Broken(l') => AddsStill(l, l');
      case CreditExceeded =>
    }
  }

  lemma SendFinStill(l: Leg)
    ensures var s := SendFin(l);
            (s.Sent? ==> Still(l, s.leg)) && (s.Broken? ==> Still(l, s.after))
  {
    match SendFin(l) {
      case Sent(l') => AddsStill(l, l');
      case Broken(l') => AddsStill(l, l');
    }
  }

  lemma CreditedStill(l: Leg, n: nat)
    ensures var l' := Credited(l, n);
            && (l'.granted == l.granted || l.left.Some? ==> Still(l, l'))
            && Still(l, Put(l', Progress(l'.granted)))
  {
    var l' := Credited(l, n);
    Append(l.wire, Progress(l'.granted));
  }

  lemma ConsumeStill(l: Leg, n: nat)
    ensures var s := Consume(l, n);
            (s.Sent? ==> Still(l, s.leg)) && (s.Broken? ==> Still(l, s.after))
  {
    AddsStill(l, l);
    CreditedStill(l, n);
  }

  lemma SendOpenResultStill(l: Leg, status: OpenStatus)
    ensures var s := SendOpenResult(l, status);
            (s.Sent? ==> Still(l, s.leg)) && (s.Broken? ==> Still(l, s.after))
  {
    match SendOpenResult(l, status) {
      case Sent(l') => AddsStill(l, l');
      case Broken(l') => AddsStill(l, l');
    }
  }

  lemma ResetStill(l: Leg, reason: ResetReason)
    ensures Still(l, SendReset(l, reason)) && Still(l, Release(l)) && Still(l, Release(SendReset(l, reason)))
  {
    AddsStill(l, SendReset(l, reason));
    AddsStill(l, Release(l));
    AddsStill(l, Release(SendReset(l, reason)));
  }
}
