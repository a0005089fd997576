/** Two clocks: acceptance is judged on wall seconds, forgetting on monotonic milliseconds. */
module Clocks {
  import opened Limits

  datatype Reading = Reading(wall: int, mono: nat)

  /** From `a` to `b` the wall clock advances by at least the whole monotonic seconds. */
  predicate Follows(a: Reading, b: Reading)
  {
    a.mono <= b.mono < U64_MAX && b.wall - a.wall >= (b.mono - a.mono) / 1000
  }

  /** `monotonic_ms.saturating_add(secs.max(0) * 1_000)`. */
  function Later(mono: nat, secs: int): nat
  {
    Min(U64_MAX, mono + 1000 * Max(secs, 0))
  }

  /** When to forget something acceptable up to wall second `last`, as computed at `at`. */
  function Due(at: Reading, last: int): nat { Later(at.mono, last + 1 - at.wall) }

  /** The clock hypothesis is exactly what the one-second retention margin needs: what is
      forgotten at `b` is unacceptable at `b`, whatever it was. */
  lemma RetentionNeedsSteadyClocks(a: Reading, b: Reading)
    requires a.mono <= b.mono < U64_MAX
    ensures Follows(a, b) <==> forall last :: Due(a, last) <= b.mono ==> last < b.wall
  {
    if !Follows(a, b) {
      var d := (b.mono - a.mono) / 1000;
      assert Due(a, a.wall + d - 1) <= b.mono;
    }
  }

  // ---- many readings ---------------------------------------------------------

  /** The lead of the wall clock over the monotonic one, in milliseconds. */
  function Lead(r: Reading): int { 1000 * r.wall - r.mono }

  /** What a run must remember of its readings: the last one and the largest lead. */
  datatype Clock = Clock(last: Reading, peak: int)

  function Start(r: Reading): Clock { Clock(r, Lead(r)) }

  function Tick(c: Clock, r: Reading): Clock { Clock(r, Max(c.peak, Lead(r))) }

  predicate Ticks(c: Clock, r: Reading) { c.last.mono <= r.mono < U64_MAX && Lead(r) > c.peak - 1000 }

  predicate Going(c: Clock) { c.last.mono < U64_MAX && c.peak - 1000 < Lead(c.last) <= c.peak }

  /** Something held until `until` is unacceptable by the time it is forgotten. */
  predicate Covers(c: Clock, until: nat, last: int) { until >= Min(U64_MAX, 1000 * (last + 1) - c.peak) }

  lemma DueCovers(c: Clock, r: Reading, last: int)
    requires Lead(r) <= c.peak
    ensures Covers(c, Due(r, last), last)
  {}

  lemma ForgottenIsPast(c: Clock, until: nat, last: int)
    requires Going(c) && Covers(c, until, last) && until <= c.last.mono
    ensures last < c.last.wall
  {}

  function Clocked(readings: seq<Reading>): Clock
    requires readings != []
  {
    var n := |readings| - 1;
    if n == 0 then Start(readings[0]) else Tick(Clocked(readings[..n]), readings[n])
  }

  lemma {:induction false} PeakIsLargest(readings: seq<Reading>)
    requires readings != []
    ensures var c := Clocked(readings);
            && c.last == readings[|readings| - 1]
            && (forall r <- readings :: Lead(r) <= c.peak)
            && (exists r <- readings :: Lead(r) == c.peak)
  {
    var n := |readings| - 1;
    if n > 0 {
      PeakIsLargest(readings[..n]);
      assert readings == readings[..n] + [readings[n]];
    } else {
      assert readings[0] in readings;
    }
  }

  predicate Pairwise(readings: seq<Reading>)
  {
    && (forall r <- readings :: r.mono < U64_MAX)
    && forall i, j :: 0 <= i < j < |readings| ==> Follows(readings[i], readings[j])
  }

  lemma FollowsByLead(a: Reading, b: Reading)
    ensures Follows(a, b) <==> a.mono <= b.mono < U64_MAX && Lead(b) > Lead(a) - 1000
  {}

  /** Remembering the largest lead checks a reading against all earlier ones. */
  lemma TickComparesAll(past: seq<Reading>, r: Reading)
    requires past != [] && Pairwise(past)
    ensures Ticks(Clocked(past), r) <==> forall i :: 0 <= i < |past| ==> Follows(past[i], r)
  {
    PeakIsLargest(past);
    var c, n := Clocked(past), |past| - 1;
    var top :| top in past && Lead(top) == c.peak;
    FollowsByLead(top, r);
    if Ticks(c, r) {
      forall i | 0 <= i < |past| ensures Follows(past[i], r) {
        assert past[i] in past && (i < n ==> Follows(past[i], past[n]));
        FollowsByLead(past[i], r);
      }
    }
  }

  lemma ClockedMore(past: seq<Reading>, r: Reading)
    requires past != []
    ensures Clocked(past + [r]) == Tick(Clocked(past), r)
  {
    assert (past + [r])[..|past|] == past;
  }

  /** One more reading keeps a run pairwise exactly when the clock ticks. */
  lemma PairwiseTicks(past: seq<Reading>, r: Reading)
    requires past != [] && Pairwise(past)
    ensures Ticks(Clocked(past), r) <==> Pairwise(past + [r])
  {
    var all := past + [r];
    TickComparesAll(past, r);
    assert forall i :: 0 <= i < |past| ==> all[i] == past[i];
    if Pairwise(all) {
      forall i | 0 <= i < |past| ensures Follows(past[i], r) { assert Follows(all[i], all[|past|]); }
    }
    if Ticks(Clocked(past), r) {
      forall q <- all ensures q.mono < U64_MAX { if q != r { assert q in past; } }
    }
  }

  lemma PairwisePrefix(a: seq<Reading>, b: seq<Reading>)
    requires Pairwise(a + b)
    ensures Pairwise(a)
  {
    forall r <- a ensures r.mono < U64_MAX { assert r in a + b; }
    forall i, j | 0 <= i < j < |a| ensures Follows(a[i], a[j]) {
      assert (a + b)[i] == a[i] && (a + b)[j] == a[j];
    }
  }
}
