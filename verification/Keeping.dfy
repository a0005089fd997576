/** Which records a receiver has: a record that is taken stays, and one that is refused is
    gone until it is carried again. */
module Keeping {
  import opened Limits
  import opened StreamEngine
  import opened Link
  import opened Wiring
  import Reorder

  /** The record at `offset` was released or is held. */
  predicate Kept(buf: Buffer, offset: nat) { offset < buf.next || offset in buf.pending }

  /** What `insert_offsets` refuses an honest record for: the look-ahead, the byte budget or
      the block budget. */
  predicate Overruns(buf: Buffer, offset: nat, data: Bytes)
  {
    || offset > buf.next + buf.lookAhead
    || buf.buffered + |data| > buf.limitBytes
    || (offset != buf.next && |buf.pending| + 1 > buf.limitBlocks)
  }

  /** The receiver of `w` waits at the start of a record and holds whole records. */
  ghost predicate Tidy(w: seq<Record>, buf: Buffer)
  {
    && Disciplined(w) && Reorder.BufferOk(buf)
    && Edge(w, buf.next) && Records(w, buf.pending) && buf.next <= |Payload(w)|
  }

  // ---- one record ------------------------------------------------------------

  /** No record reaches over an edge. */
  lemma BehindEdge(w: seq<Record>, edge: nat, i: nat)
    requires Disciplined(w) && Edge(w, edge) && i < |w| && w[i].Data? && w[i].offset < edge
    ensures w[i].offset + |w[i].payload| <= edge
  {
    DataIsHonest(w, i);
    if data :| IsRecord(w, edge, data) {
      var j :| 0 <= j < |w| && w[j] == Data(edge, data);
      if i < j { RecordsApart(w, i, j); } else if j < i { RecordsApart(w, j, i); }
    }
  }

  /** Two records that start together are one. */
  lemma SameStart(w: seq<Record>, i: nat, j: nat)
    requires Disciplined(w) && i < |w| && j < |w| && w[i].Data? && w[j].Data? && w[i].offset == w[j].offset
    ensures i == j
  {
    if i < j { RecordsApart(w, i, j); } else if j < i { RecordsApart(w, j, i); }
  }

  lemma HeldIsSame(w: seq<Record>, m: map<nat, Bytes>, i: nat)
    requires Disciplined(w) && Records(w, m) && i < |w| && w[i].Data? && w[i].offset in m
    ensures m[w[i].offset] == w[i].payload
  {
    var j :| 0 <= j < |w| && w[j] == Data(w[i].offset, m[w[i].offset]);
    SameStart(w, i, j);
  }

  lemma UnheldIsApart(w: seq<Record>, m: map<nat, Bytes>, i: nat)
    requires Disciplined(w) && Records(w, m) && i < |w| && w[i].Data? && w[i].offset !in m
    ensures Reorder.Apart(m, w[i].offset, w[i].offset + |w[i].payload|)
  {
    forall k | k in m ensures k + |m[k]| <= w[i].offset || w[i].offset + |w[i].payload| <= k {
      var j :| 0 <= j < |w| && w[j] == Data(k, m[k]);
      if i < j { RecordsApart(w, i, j); } else if j < i { RecordsApart(w, j, i); }
    }
  }

  /** A record is refused exactly when the receiver does not have it and it overruns a limit. */
  lemma RefusedExactly(w: seq<Record>, buf: Buffer, i: nat)
    requires Tidy(w, buf) && i < |w| && w[i].Data?
    ensures Reorder.Insert(buf, w[i].offset, w[i].payload).1.Refused? <==>
            !Kept(buf, w[i].offset) && Overruns(buf, w[i].offset, w[i].payload)
  {
    SomeData(w, i);
    Reorder.NeighboursDecide(buf.pending, w[i].offset, w[i].payload);
    if w[i].offset < buf.next {
      BehindEdge(w, buf.next, i);
    } else if w[i].offset in buf.pending {
      HeldIsSame(w, buf.pending, i);
    } else {
      UnheldIsApart(w, buf.pending, i);
    }
  }

  // ---- the drain -------------------------------------------------------------

  /** What the drain runs over was held. */
  lemma {:induction false} DrainedWasHeld(w: seq<Record>, next: nat, m: map<nat, Bytes>, i: nat)
    requires Disciplined(w) && Records(w, m) && i < |w| && w[i].Data? && next <= w[i].offset < Reorder.Drain(next, m).1
    ensures w[i].offset in m
    decreases |m|
  {
    assert next in m;
    if w[i].offset > next {
      var j := HeldRecord(w, m, next);
      if i < j { RecordsApart(w, i, j); } else { RecordsApart(w, j, i); }
      FewerRecords(w, m, next);
      DrainedWasHeld(w, next + |m[next]|, m - {next}, i);
    }
  }

  /** What was held is drained over, or still held. */
  lemma {:induction false} HeldIsDrained(next: nat, m: map<nat, Bytes>, offset: nat)
    requires offset in m && forall k :: k in m ==> m[k] != []
    ensures offset < Reorder.Drain(next, m).1 || offset in Reorder.Drain(next, m).2
    decreases |m|
  {
    if next in m {
      if offset != next {
        HeldIsDrained(next + |m[next]|, m - {next}, offset);
      } else {
        Reorder.DrainRuns(next + |m[next]|, m - {next});
      }
    }
  }

  lemma {:induction false} LeftWasHeld(next: nat, m: map<nat, Bytes>)
    ensures forall k :: k in Reorder.Drain(next, m).2 ==> k in m
    decreases |m|
  {
    if next in m { LeftWasHeld(next + |m[next]|, m - {next}); }
  }

  // ---- arrivals --------------------------------------------------------------

  /** Over the drain of what is held with record `i`, a record `j` is kept exactly when it was
      kept before, or is record `i`. */
  lemma DrainKeeps(w: seq<Record>, buf: Buffer, i: nat, j: nat)
    requires Tidy(w, buf) && i < |w| && w[i].Data? && j < |w| && w[j].Data? && buf.next <= w[i].offset
    ensures var d := Reorder.Drain(buf.next, buf.pending[w[i].offset := w[i].payload]);
            w[j].offset < d.1 || w[j].offset in d.2 <==> Kept(buf, w[j].offset) || i == j
  {
    var m := buf.pending[w[i].offset := w[i].payload];
    SomeData(w, i);
    Reorder.DrainRuns(buf.next, m);
    LeftWasHeld(buf.next, m);
    if w[j].offset in m { HeldIsDrained(buf.next, m, w[j].offset); }
    if w[j].offset == w[i].offset { SameStart(w, i, j); }
    assert Records(w, m) by { assert IsRecord(w, w[i].offset, w[i].payload); }
    if buf.next <= w[j].offset < Reorder.Drain(buf.next, m).1 { DrainedWasHeld(w, buf.next, m, j); }
  }

  /** An arrival keeps what was kept, and adds the record that arrived unless it is refused. */
  lemma ArrivalKeeps(w: seq<Record>, buf: Buffer, i: nat, j: nat)
    requires Tidy(w, buf) && i < |w| && w[i].Data? && j < |w| && w[j].Data?
    ensures var r := Reorder.Insert(buf, w[i].offset, w[i].payload);
            Kept(r.0, w[j].offset) <==> Kept(buf, w[j].offset) || (i == j && !r.1.Refused?)
  {
    SomeData(w, i);
    RefusedExactly(w, buf, i);
    Reorder.NeighboursDecide(buf.pending, w[i].offset, w[i].payload);
    if buf.next <= w[i].offset { DrainKeeps(w, buf, i, j); }
  }

  /** Nothing that is not yet sent is kept. */
  lemma {:induction false} LaterIsAhead(w: seq<Record>, w': seq<Record>, i: nat)
    requires w <= w' && Disciplined(w') && |w| <= i < |w'| && w'[i].Data?
    ensures w'[i].offset >= |Payload(w)|
  {
    var n := |w'| - 1;
    if i < n {
      LaterIsAhead(w, w'[..n], i);
    } else {
      PayloadGrows(w, w'[..n]);
    }
  }

  lemma UnsentIsNotKept(w: seq<Record>, w': seq<Record>, buf: Buffer, i: nat)
    requires Tidy(w, buf) && w <= w' && Disciplined(w') && |w| <= i < |w'| && w'[i].Data?
    ensures !Kept(buf, w'[i].offset)
  {
    LaterIsAhead(w, w', i);
    if w'[i].offset in buf.pending {
      var j :| 0 <= j < |w| && w[j] == Data(w'[i].offset, buf.pending[w'[i].offset]);
      assert w'[j] == w[j];
      SameStart(w', i, j);
    }
  }

  /** A receiver has the whole stream exactly when it has every record. */
  lemma WholeExactlyWhenKept(w: seq<Record>, buf: Buffer)
    requires Tidy(w, buf)
    ensures buf.next == |Payload(w)| <==> forall i :: 0 <= i < |w| && w[i].Data? ==> Kept(buf, w[i].offset)
  {
    if buf.next == |Payload(w)| {
      forall i | 0 <= i < |w| && w[i].Data? ensures Kept(buf, w[i].offset) {
        SomeData(w, i);
        DataIsHonest(w, i);
      }
    }
  }
}
