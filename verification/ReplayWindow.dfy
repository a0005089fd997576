/** The per-direction replay window (crates/wsnet-auth-store/src/replay.rs): a recycled
    65,536-bit map against an unbounded set of everything ever accepted. */
module ReplayWindow {
  import opened Limits

  const WORDS: nat := 1024

  datatype Verdict =
    | Accepted
    | Duplicate(packetNo: nat)
    | TooOld(packetNo: nat, highest: nat)
    | TooFarAhead(packetNo: nat, highest: nat, jump: nat)

  // ---- the reference: a plain set and a high-water mark -----------------------

  datatype Ledger = Ledger(highest: Option<nat>, accepted: set<nat>)

  const EMPTY: Ledger := Ledger(None, {})

  function Judge(l: Ledger, n: nat): Verdict
  {
    match l.highest
    case None => Accepted
    case Some(h) =>
      if n > h then
        if n - h > REPLAY_MAX_FORWARD_JUMP then TooFarAhead(n, h, n - h) else Accepted
      else if h - n >= REPLAY_WINDOW then TooOld(n, h)
      else if n in l.accepted then Duplicate(n)
      else Accepted
  }

  function Enter(l: Ledger, n: nat): Ledger
  {
    if !Judge(l, n).Accepted? then l
    else
      Ledger(Some(if l.highest.Some? then Max(l.highest.value, n) else n), l.accepted + {n})
  }

  // ---- bits ------------------------------------------------------------------

  function Mask(b: bv6): bv64 { 1 << b }

  function WordOf(n: nat): nat { (n % REPLAY_WINDOW) / 64 }

  function BitOf(n: nat): bv6 { ((n % REPLAY_WINDOW) % 64) as bv6 }

  predicate HasBit(w: bv64, b: bv6) { w & Mask(b) != 0 }

  predicate Bit(words: seq<bv64>, n: nat)
    requires |words| == WORDS
  {
    HasBit(words[WordOf(n)], BitOf(n))
  }

  lemma SetReads(w: bv64, a: bv6, b: bv6)
    ensures (w | Mask(a)) & Mask(b) != 0 <==> a == b || w & Mask(b) != 0
  {
  }

  lemma ClearReads(w: bv64, a: bv6, b: bv6)
    ensures (w & !Mask(a)) & Mask(b) != 0 <==> a != b && w & Mask(b) != 0
  {
  }

  lemma SlotsDiffer(x: nat, y: nat)
    requires x < 64 && y < 64 && x != y
    ensures x as bv6 != y as bv6
  {
    assert (x as bv6) as nat == x;
    assert (y as bv6) as nat == y;
  }

  predicate SameSlot(n: nat, m: nat) { n % REPLAY_WINDOW == m % REPLAY_WINDOW }

  lemma SlotIsPair(n: nat, m: nat)
    ensures SameSlot(n, m) <==> WordOf(n) == WordOf(m) && BitOf(n) == BitOf(m)
  {
    var x, y := n % REPLAY_WINDOW, m % REPLAY_WINDOW;
    assert x == 64 * (x / 64) + x % 64 && y == 64 * (y / 64) + y % 64;
    if x % 64 != y % 64 { SlotsDiffer(x % 64, y % 64); }
  }

  /** Two different numbers less than a window apart never share a slot. */
  lemma NearSlots(n: nat, m: nat)
    requires n < m < n + REPLAY_WINDOW
    ensures !SameSlot(n, m)
  {
    var W := 65_536;
    assert n == W * (n / W) + n % W && m == W * (m / W) + m % W;
  }

  lemma SetReadsAll(w: bv64, a: bv6)
    ensures forall b: bv6 :: HasBit(w | Mask(a), b) <==> a == b || HasBit(w, b)
  {
    forall b: bv6 ensures HasBit(w | Mask(a), b) <==> a == b || HasBit(w, b) { SetReads(w, a, b); }
  }

  lemma ClearReadsAll(w: bv64, a: bv6)
    ensures forall b: bv6 :: HasBit(w & !Mask(a), b) <==> a != b && HasBit(w, b)
  {
    forall b: bv6 ensures HasBit(w & !Mask(a), b) <==> a != b && HasBit(w, b) { ClearReads(w, a, b); }
  }

  /** `w | mask`: bit `a` is set and nothing else changes. */
  method SetWord(w: bv64, a: bv6) returns (r: bv64)
    ensures forall b: bv6 :: HasBit(r, b) <==> a == b || HasBit(w, b)
  {
    r := w | Mask(a);
    SetReadsAll(w, a);
  }

  /** `w & !mask`: bit `a` is cleared and nothing else changes. */
  method ClearWord(w: bv64, a: bv6) returns (r: bv64)
    ensures forall b: bv6 :: HasBit(r, b) <==> a != b && HasBit(w, b)
  {
    r := w & !Mask(a);
    ClearReadsAll(w, a);
  }

  /** `words` is `before` with the slot of `n` set. */
  ghost predicate IsSet(words: seq<bv64>, before: seq<bv64>, n: nat)
  {
    |words| == |before| == WORDS && forall m: nat :: Bit(words, m) <==> SameSlot(n, m) || Bit(before, m)
  }

  ghost predicate IsCleared(words: seq<bv64>, before: seq<bv64>, n: nat)
  {
    |words| == |before| == WORDS && forall m: nat :: Bit(words, m) <==> !SameSlot(n, m) && Bit(before, m)
  }

  lemma SetSlot(before: seq<bv64>, n: nat, w: bv64)
    requires |before| == WORDS
    requires forall b: bv6 :: HasBit(w, b) <==> BitOf(n) == b || HasBit(before[WordOf(n)], b)
    ensures IsSet(before[WordOf(n) := w], before, n)
  {
    forall m: nat ensures Bit(before[WordOf(n) := w], m) <==> SameSlot(n, m) || Bit(before, m) {
      SlotIsPair(n, m);
    }
  }

  lemma ClearSlot(before: seq<bv64>, n: nat, w: bv64)
    requires |before| == WORDS
    requires forall b: bv6 :: HasBit(w, b) <==> BitOf(n) != b && HasBit(before[WordOf(n)], b)
    ensures IsCleared(before[WordOf(n) := w], before, n)
  {
    forall m: nat ensures Bit(before[WordOf(n) := w], m) <==> !SameSlot(n, m) && Bit(before, m) {
      SlotIsPair(n, m);
    }
  }

  // ---- refinement ------------------------------------------------------------

  /** Inside the window the bits are exactly the accepted numbers. */
  ghost predicate Represents(words: seq<bv64>, l: Ledger)
  {
    && |words| == WORDS
    && match l.highest
       case None => l.accepted == {} && forall n: nat :: !Bit(words, n)
       case Some(h) =>
         && (forall a :: a in l.accepted ==> a <= h)
         && forall n: nat :: h < n + REPLAY_WINDOW && n <= h ==> (Bit(words, n) <==> n in l.accepted)
  }

  predicate HitBy(from: nat, to: nat, m: nat) { exists k :: from < k < to && SameSlot(k, m) }

  /** `words` is `before` with the slots of every number strictly between `from` and `to` cleared. */
  ghost predicate Swept(words: seq<bv64>, before: seq<bv64>, from: nat, to: nat)
  {
    && |words| == |before| == WORDS
    && forall m: nat :: Bit(words, m) <==> Bit(before, m) && !HitBy(from, to, m)
  }

  lemma SweepOne(words: seq<bv64>, before: seq<bv64>, from: nat, to: nat, next: seq<bv64>)
    requires from < to && Swept(words, before, from, to) && IsCleared(next, words, to)
    ensures Swept(next, before, from, to + 1)
  {
    forall m: nat
      ensures Bit(next, m) <==> Bit(before, m) && !HitBy(from, to + 1, m)
    {
      if HitBy(from, to, m) {
        var k :| from < k < to && SameSlot(k, m);
        assert from < k < to + 1 && SameSlot(k, m);
      }
      if SameSlot(to, m) { assert from < to < to + 1 && SameSlot(to, m); }
    }
  }

  /** Clearing the slots of the numbers skipped over is what makes recycling them safe. */
  lemma Advance(before: seq<bv64>, words: seq<bv64>, l: Ledger, n: nat, next: seq<bv64>)
    requires Represents(before, l) && l.highest.Some?
    requires l.highest.value < n <= l.highest.value + REPLAY_MAX_FORWARD_JUMP
    requires Swept(words, before, l.highest.value, n + 1) && IsSet(next, words, n)
    ensures Represents(next, Enter(l, n))
  {
    var h := l.highest.value;
    forall m: nat | n < m + REPLAY_WINDOW && m <= n
      ensures Bit(next, m) <==> m in l.accepted + {n}
    {
      if m < n { NearSlots(m, n); }
      if m > h {
        assert h < m < n + 1 && SameSlot(m, m);
      } else if HitBy(h, n + 1, m) {
        var k :| h < k < n + 1 && SameSlot(k, m);
        NearSlots(m, k);
      }
    }
  }

  lemma Turnover(before: seq<bv64>, words: seq<bv64>, l: Ledger, n: nat, next: seq<bv64>)
    requires Represents(before, l) && l.highest.Some? && |words| == WORDS
    requires n == l.highest.value + REPLAY_WINDOW && (forall m: nat :: !Bit(words, m)) && IsSet(next, words, n)
    ensures Represents(next, Enter(l, n))
  {
    forall m: nat | n < m + REPLAY_WINDOW && m <= n
      ensures Bit(next, m) <==> m in l.accepted + {n}
    {
      if m < n { NearSlots(m, n); }
    }
  }

  lemma FirstSet(words: seq<bv64>, n: nat, next: seq<bv64>)
    requires Represents(words, EMPTY) && IsSet(next, words, n)
    ensures Represents(next, Enter(EMPTY, n))
  {
    forall m: nat | n < m + REPLAY_WINDOW && m <= n
      ensures Bit(next, m) <==> m in {n}
    {
      if m < n { NearSlots(m, n); }
    }
  }

  lemma FillGap(words: seq<bv64>, l: Ledger, n: nat, next: seq<bv64>)
    requires Represents(words, l) && l.highest.Some? && n <= l.highest.value < n + REPLAY_WINDOW
    requires IsSet(next, words, n)
    ensures Represents(next, Ledger(l.highest, l.accepted + {n}))
  {
    var h := l.highest.value;
    forall m: nat | h < m + REPLAY_WINDOW && m <= h
      ensures Bit(next, m) <==> m in l.accepted + {n}
    {
      if m < n { NearSlots(m, n); } else if n < m { NearSlots(n, m); }
    }
  }

  class Window {
    var highest: Option<nat>
    var seen: array<bv64>
    ghost var accepted: set<nat>

    ghost function State(): Ledger
      reads this
    {
      Ledger(highest, accepted)
    }

    ghost predicate Valid()
      reads this, seen
    {
      seen.Length == WORDS && Represents(seen[..], State())
    }

    constructor ()
      ensures Valid() && fresh(seen) && State() == EMPTY
    {
      highest, accepted := None, {};
      seen := new bv64[WORDS](_ => 0);
    }

    method Set(n: nat)
      requires seen.Length == WORDS
      modifies seen
      ensures IsSet(seen[..], old(seen[..]), n)
    {
      var w := SetWord(seen[WordOf(n)], BitOf(n));
      SetSlot(seen[..], n, w);
      seen[WordOf(n)] := w;
    }

    method Clear(n: nat)
      requires seen.Length == WORDS
      modifies seen
      ensures IsCleared(seen[..], old(seen[..]), n)
    {
      var w := ClearWord(seen[WordOf(n)], BitOf(n));
      ClearSlot(seen[..], n, w);
      seen[WordOf(n)] := w;
    }

    /** The bitmap decides every number exactly as the unbounded set does. */
    method CheckAndRecord(n: nat) returns (v: Verdict)
      requires Valid()
      modifies this, seen
      ensures Valid() && seen == old(seen)
      ensures v == Judge(old(State()), n)
      ensures State() == Enter(old(State()), n)
      ensures !v.Accepted? ==> seen[..] == old(seen[..])
    {
      ghost var before, l := seen[..], State();
      if highest.None? {
        Set(n);
        FirstSet(before, n, seen[..]);
        highest, accepted := Some(n), {n};
        return Accepted;
      }
      var h := highest.value;
      if n > h {
        if n - h > REPLAY_MAX_FORWARD_JUMP { return TooFarAhead(n, h, n - h); }
        Slide(h, n);
        highest, accepted := Some(n), accepted + {n};
        return Accepted;
      }
      if h - n >= REPLAY_WINDOW { return TooOld(n, h); }
      if HasBit(seen[WordOf(n)], BitOf(n)) {
        assert Bit(seen[..], n);
        return Duplicate(n);
      }
      assert !Bit(seen[..], n);
      Set(n);
      FillGap(before, l, n, seen[..]);
      accepted := accepted + {n};
      v := Accepted;
    }

    /** Clears the slots of the numbers between the mark and `n`, then sets `n`. */
    method Slide(h: nat, n: nat)
      requires Valid() && highest == Some(h) && h < n <= h + REPLAY_MAX_FORWARD_JUMP
      modifies seen
      ensures Represents(seen[..], Enter(State(), n))
    {
      ghost var before := seen[..];
      if n - h >= REPLAY_WINDOW {
        forall i | 0 <= i < WORDS { seen[i] := 0; }
        ghost var zeroed := seen[..];
        Set(n);
        Turnover(before, zeroed, State(), n, seen[..]);
      } else {
        var k := h + 1;
        while k <= n
          invariant h < k <= n + 1 && seen.Length == WORDS
          invariant Swept(seen[..], before, h, k)
        {
          ghost var words := seen[..];
          Clear(k);
          SweepOne(words, before, h, k, seen[..]);
          k := k + 1;
        }
        ghost var swept := seen[..];
        Set(n);
        Advance(before, swept, State(), n, seen[..]);
      }
    }
  }

  // ---- whole runs ------------------------------------------------------------

  function Verdicts(l: Ledger, calls: seq<nat>): seq<Verdict>
    decreases |calls|
  {
    if calls == [] then [] else [Judge(l, calls[0])] + Verdicts(Enter(l, calls[0]), calls[1..])
  }

  function After(l: Ledger, calls: seq<nat>): Ledger
    decreases |calls|
  {
    if calls == [] then l else After(Enter(l, calls[0]), calls[1..])
  }

  lemma {:induction false} VerdictsLength(l: Ledger, calls: seq<nat>)
    ensures |Verdicts(l, calls)| == |calls|
    decreases |calls|
  {
    if calls != [] { VerdictsLength(Enter(l, calls[0]), calls[1..]); }
  }

  predicate Bounded(l: Ledger)
  {
    (l.highest.None? ==> l.accepted == {}) && (l.highest.Some? ==> forall a <- l.accepted :: a <= l.highest.value)
  }

  /** What was accepted once stays refused for the rest of any run. */
  lemma {:induction false} NeverAgain(l: Ledger, calls: seq<nat>, j: nat)
    requires Bounded(l) && j < |calls| && calls[j] in l.accepted
    ensures |Verdicts(l, calls)| == |calls| && !Verdicts(l, calls)[j].Accepted?
    decreases |calls|
  {
    VerdictsLength(l, calls);
    if j > 0 {
      NeverAgain(Enter(l, calls[0]), calls[1..], j - 1);
    }
  }

  lemma {:induction false} AtMostOnceFrom(l: Ledger, calls: seq<nat>, i: nat, j: nat)
    requires Bounded(l) && i < j < |calls| && calls[i] == calls[j]
    ensures |Verdicts(l, calls)| == |calls|
    ensures !(Verdicts(l, calls)[i].Accepted? && Verdicts(l, calls)[j].Accepted?)
    decreases |calls|
  {
    VerdictsLength(l, calls);
    var l' := Enter(l, calls[0]);
    if i > 0 {
      AtMostOnceFrom(l', calls[1..], i - 1, j - 1);
    } else if Judge(l, calls[0]).Accepted? {
      NeverAgain(l', calls[1..], j - 1);
    }
  }

  /** Runs the bitmap over a whole sequence of numbers: its verdicts are those of the
      unbounded set, and no number is accepted twice. */
  method Filter(calls: seq<nat>) returns (verdicts: seq<Verdict>)
    ensures verdicts == Verdicts(EMPTY, calls) && |verdicts| == |calls|
    ensures forall i, j :: 0 <= i < j < |calls| && calls[i] == calls[j] ==>
              !(verdicts[i].Accepted? && verdicts[j].Accepted?)
  {
    var w := new Window();
    verdicts := [];
    assert calls[0..] == calls;
    for i := 0 to |calls|
      invariant w.Valid() && fresh(w) && fresh(w.seen)
      invariant verdicts + Verdicts(w.State(), calls[i..]) == Verdicts(EMPTY, calls)
    {
      assert calls[i..][1..] == calls[i + 1..];
      ghost var before := w.State();
      var v := w.CheckAndRecord(calls[i]);
      Assoc(verdicts, [v], Verdicts(w.State(), calls[i + 1..]));
      verdicts := verdicts + [v];
    }
    assert calls[|calls|..] == [];
    assert verdicts + [] == verdicts;
    VerdictsLength(EMPTY, calls);
    forall i, j | 0 <= i < j < |calls| && calls[i] == calls[j]
      ensures !(verdicts[i].Accepted? && verdicts[j].Accepted?)
    {
      AtMostOnceFrom(EMPTY, calls, i, j);
    }
  }

  // ---- exactly which numbers pass --------------------------------------------

  lemma {:induction false} VerdictAt(l: Ledger, calls: seq<nat>, i: nat)
    requires i < |calls|
    ensures |Verdicts(l, calls)| == |calls| && Verdicts(l, calls)[i] == Judge(After(l, calls[..i]), calls[i])
    decreases |calls|
  {
    VerdictsLength(l, calls);
    if i > 0 {
      VerdictAt(Enter(l, calls[0]), calls[1..], i - 1);
      assert calls[..i][1..] == calls[1..][..i - 1];
    }
  }

  lemma {:induction false} AfterMore(l: Ledger, calls: seq<nat>, n: nat)
    ensures After(l, calls + [n]) == Enter(After(l, calls), n)
    decreases |calls|
  {
    if calls == [] {
      assert ([] + [n])[1..] == [];
    } else {
      assert (calls + [n])[1..] == calls[1..] + [n];
      AfterMore(Enter(l, calls[0]), calls[1..], n);
    }
  }

  /** `x` was accepted before call `i`. */
  predicate Passed(calls: seq<nat>, i: nat, x: nat)
    requires i <= |calls|
  {
    |Verdicts(EMPTY, calls)| == |calls| && exists j :: 0 <= j < i && calls[j] == x && Verdicts(EMPTY, calls)[j].Accepted?
  }

  /** The ledger before call `i` is the set of those, with its largest. */
  ghost predicate Recalls(l: Ledger, calls: seq<nat>, i: nat)
    requires i <= |calls|
  {
    && (forall x: nat :: x in l.accepted <==> Passed(calls, i, x))
    && (l.highest.None? <==> l.accepted == {})
    && (l.highest.Some? ==> l.highest.value in l.accepted && forall x <- l.accepted :: x <= l.highest.value)
  }

  lemma {:induction false} LedgerRecalls(calls: seq<nat>, i: nat)
    requires i <= |calls|
    ensures Recalls(After(EMPTY, calls[..i]), calls, i)
  {
    VerdictsLength(EMPTY, calls);
    if i > 0 {
      LedgerRecalls(calls, i - 1);
      assert calls[..i] == calls[..i - 1] + [calls[i - 1]];
      AfterMore(EMPTY, calls[..i - 1], calls[i - 1]);
      VerdictAt(EMPTY, calls, i - 1);
      forall x: nat ensures Passed(calls, i, x) <==> Passed(calls, i - 1, x) || (x == calls[i - 1] && Verdicts(EMPTY, calls)[i - 1].Accepted?) {}
    }
  }

  /** Each verdict of a run in terms of what was accepted before: a number is too old when some
      accepted one is a window or more above it, too far ahead when all are more than the jump
      below it, a duplicate when it was accepted itself, and accepted otherwise. */
  lemma VerdictsExactly(calls: seq<nat>, i: nat)
    requires i < |calls|
    ensures var n, v := calls[i], Verdicts(EMPTY, calls);
            && |v| == |calls|
            && (v[i].TooOld? <==> exists x: nat :: Passed(calls, i, x) && x >= n + 65_536)
            && (v[i].TooFarAhead? <==> (exists x: nat :: Passed(calls, i, x)) && forall x: nat :: Passed(calls, i, x) ==> n > x + 65_536)
            && (v[i].Duplicate? <==> Passed(calls, i, n) && forall x: nat :: Passed(calls, i, x) ==> x < n + 65_536)
            && (v[i].Accepted? <==> !v[i].TooOld? && !v[i].TooFarAhead? && !v[i].Duplicate?)
  {
    VerdictAt(EMPTY, calls, i);
    LedgerRecalls(calls, i);
    var l := After(EMPTY, calls[..i]);
    if l.highest.Some? { assert Passed(calls, i, l.highest.value); }
  }
}
