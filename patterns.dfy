/** Short-pattern detection over the opponent's 0/1 move buffer, shared by
    two bots: the last L bits are compared position by position with the L
    bits before them, for L from a lower to an upper bound; the smallest L
    whose match fraction reaches a threshold wins. The stored window is
    then replayed cyclically to predict the opponent's next bit. */
module Patterns {
  import opened Game

  /** Number of positions below `j` at which `a` and `b` agree. */
  function Agree(a: seq<Bit>, b: seq<Bit>, j: nat): (m: nat)
    requires j <= |a| && j <= |b|
    ensures m <= j
  {
    if j == 0 then 0 else Agree(a, b, j - 1) + (if a[j - 1] == b[j - 1] then 1 else 0)
  }

  lemma {:induction false} AgreeAll(a: seq<Bit>, b: seq<Bit>, j: nat)
    requires j <= |a| && j <= |b|
    ensures Agree(a, b, j) == j <==> forall i :: 0 <= i < j ==> a[i] == b[i]
  {
    if j > 0 {
      AgreeAll(a, b, j - 1);
    }
  }

  /** The last `L` bits. */
  function Recent(h: seq<Bit>, L: nat): (r: seq<Bit>)
    requires L <= |h|
    ensures |r| == L
  {
    h[|h| - L..]
  }

  /** The `L` bits immediately before the last `L`. */
  function Previous(h: seq<Bit>, L: nat): (r: seq<Bit>)
    requires 2 * L <= |h|
    ensures |r| == L
  {
    h[|h| - 2 * L..|h| - L]
  }

  /** Number of positions at which the last `L` bits agree with the `L` bits
      before them (Python's `sum(1 for a, b in zip(recent, prev) if a == b)`). */
  function Matches(h: seq<Bit>, L: nat): (m: nat)
    requires 2 * L <= |h|
    ensures m <= L
  {
    Agree(Recent(h, L), Previous(h, L), L)
  }

  /** The last `L` bits repeat the `L` bits before them exactly. */
  predicate Repeats(h: seq<Bit>, L: nat)
  {
    2 * L <= |h| && Recent(h, L) == Previous(h, L)
  }

  /** All `L` positions agree exactly when the two windows are equal. */
  lemma MatchesAllIffRepeats(h: seq<Bit>, L: nat)
    requires 2 * L <= |h|
    ensures Matches(h, L) == L <==> Repeats(h, L)
  {
    AgreeAll(Recent(h, L), Previous(h, L), L);
  }

  /** The match fraction `matches / L`. */
  function Corr(h: seq<Bit>, L: nat): (c: real)
    requires 1 <= L && 2 * L <= |h|
    ensures 0.0 <= c <= 1.0
    ensures c == 1.0 <==> Repeats(h, L)
  {
    MatchesAllIffRepeats(h, L);
    Ratio(Matches(h, L), L)
  }

  /** Length `L` is long enough to test and its match fraction reaches `thr`. */
  predicate Qualifies(h: seq<Bit>, L: nat, thr: real)
  {
    1 <= L && 2 * L <= |h| && Corr(h, L) >= thr
  }

  /** The smallest qualifying length in `lo..hi` (a `for` loop over the range
      that stops at the first hit), or None when no length qualifies. */
  function FirstRepeat(h: seq<Bit>, lo: nat, hi: nat, thr: real): (r: Option<nat>)
    requires 1 <= lo
    decreases hi + 1 - lo
    ensures r.Some? ==> lo <= r.value <= hi && Qualifies(h, r.value, thr)
    ensures r.Some? ==> forall L :: lo <= L < r.value ==> !Qualifies(h, L, thr)
    ensures r.None? ==> forall L :: lo <= L <= hi ==> !Qualifies(h, L, thr)
  {
    if lo > hi then None
    else if Qualifies(h, lo, thr) then Some(lo)
    else FirstRepeat(h, lo + 1, hi, thr)
  }

  /** With `hi * thr > hi - 1` a single mismatch among `L <= hi` positions
      already falls below the threshold, so a qualifying length is an exact
      repeat and its confidence is exactly 1.0 (0.9 with lengths up to 6,
      0.88 with lengths up to 7). */
  lemma QualifiesIsExact(h: seq<Bit>, L: nat, hi: nat, thr: real)
    requires 1 <= L <= hi && (hi - 1) as real < thr * hi as real
    requires Qualifies(h, L, thr)
    ensures Repeats(h, L) && Corr(h, L) == 1.0
  {
    var m := Matches(h, L);
    if m < L {
      var c := Corr(h, L);
      var l := L as real;
      assert c == m as real / l;
      assert c * l == m as real;
      assert thr * l > l - 1.0 by {
        if thr < 1.0 {
          SignedProduct((hi - L) as real, thr - 1.0);
          assert l * (thr - 1.0) > -1.0;
        } else {
          SignedProduct(l, 1.0 - thr);
        }
      }
      SignedProduct(l, thr - c);
      assert false;
    }
    MatchesAllIffRepeats(h, L);
  }

  lemma SignedProduct(a: real, c: real)
    requires a >= 0.0 && c <= 0.0
    ensures a * c <= 0.0
  {
  }

  /** h has period `L` from its start. */
  predicate Periodic(h: seq<Bit>, L: nat)
  {
    forall i :: L <= i < |h| ==> h[i] == h[i - L]
  }

  /** The prediction as the bots compute it: the stored pattern indexed by
      the current buffer length modulo its length. */
  function PredictAsWritten(pattern: seq<Bit>, n: nat): (b: Bit)
    requires pattern != []
    ensures b in pattern
  {
    pattern[n % |pattern|]
  }

  /** The prediction aligned to the round at which the pattern was stored:
      the pattern holds the last `L` bits seen at round `storedAt`, so the
      bit for round `seen` is `(seen - storedAt) mod L` places into it. */
  function PredictAligned(pattern: seq<Bit>, storedAt: nat, seen: nat): (b: Bit)
    requires pattern != [] && storedAt <= seen
    ensures seen == storedAt ==> b == pattern[0]
  {
    pattern[(seen - storedAt) % |pattern|]
  }

  /** A pattern stored when the buffer held `n0` bits, read `d` rounds
      later: the prediction as written agrees with the aligned one on every
      round when `n0` is a multiple of the pattern's length. For an
      alternating pair it agrees exactly then, and is wrong on every round
      otherwise. */
  lemma AsWrittenVersusAligned(pattern: seq<Bit>, storedAt: nat, n0: nat, d: nat)
    requires pattern != []
    ensures n0 % |pattern| == 0 ==>
      PredictAsWritten(pattern, n0 + d) == PredictAligned(pattern, storedAt, storedAt + d)
    ensures |pattern| == 2 && pattern[0] != pattern[1] ==>
      (PredictAsWritten(pattern, n0 + d) == PredictAligned(pattern, storedAt, storedAt + d) <==> n0 % 2 == 0)
  {
    var L := |pattern|;
    assert storedAt + d - storedAt == d;
    ShiftedIndex(n0, d, L);
    if n0 % L == 0 {
      ModUnique(d % L, 0, d % L, L);
    }
  }

  /** Adding `n0` to a position moves its residue modulo `L` by the
      residue of `n0`. */
  lemma ShiftedIndex(n0: nat, d: nat, L: nat)
    requires L >= 1
    ensures (n0 + d) % L == (n0 % L + d % L) % L
  {
    var a, b := n0 / L, d / L;
    var ra, rb := n0 % L, d % L;
    assert a * L + b * L == (a + b) * L;
    if ra + rb < L {
      ModUnique(n0 + d, a + b, ra + rb, L);
      ModUnique(ra + rb, 0, ra + rb, L);
    } else {
      assert (a + b) * L + L == (a + b + 1) * L;
      ModUnique(n0 + d, a + b + 1, ra + rb - L, L);
      ModUnique(ra + rb, 1, ra + rb - L, L);
    }
  }

  /** The remainder is the one `r` in `0..L-1` with `x == q * L + r`. */
  lemma ModUnique(x: int, q: int, r: int, L: int)
    requires L >= 1 && 0 <= r < L && x == q * L + r
    ensures x % L == r
  {
    var k, m := x / L, x % L;
    assert x == k * L + m;
    assert (k - q) * L == k * L - q * L;
    if k > q {
      AtLeastOnce(k - q, L);
    } else if k < q {
      AtLeastOnce(q - k, L);
    }
  }

  lemma {:induction false} AtLeastOnce(a: int, L: int)
    requires a >= 1 && L >= 1
    ensures a * L >= L
  {
    if a > 1 {
      AtLeastOnce(a - 1, L);
      assert a * L == (a - 1) * L + L;
    }
  }

  /** In a sequence of period `L`, positions `q` periods apart agree. */
  lemma {:induction false} PeriodicShift(g: seq<Bit>, L: nat, base: nat, q: nat)
    requires 1 <= L && base + q * L < |g|
    requires Periodic(g, L)
    ensures g[base + q * L] == g[base]
  {
    if q > 0 {
      assert base + q * L == base + (q - 1) * L + L;
      PeriodicShift(g, L, base, q - 1);
    }
  }

  /** Against an opponent that keeps replaying a cycle of length `L`, the
      aligned prediction is always the opponent's actual next bit. */
  lemma PredictAlignedIsCorrect(g: seq<Bit>, L: nat, storedAt: nat, seen: nat)
    requires 1 <= L <= storedAt <= seen < |g|
    requires Periodic(g, L)
    ensures PredictAligned(g[storedAt - L..storedAt], storedAt, seen) == g[seen]
  {
    var d := seen - storedAt;
    var q, r := d / L, d % L;
    assert d == q * L + r;
    assert seen == (storedAt - L + r) + (q + 1) * L;
    PeriodicShift(g, L, storedAt - L + r, q + 1);
  }

  /** Against the alternating opponent C, D, C, D, C the bots detect the
      length-2 pattern [D, C] after five rounds, and the prediction as
      written (index 5 mod 2) says COOPERATE while the opponent's next move
      is DEFECT; the aligned prediction gets it right. */
  lemma AsWrittenMispredictsAlternator()
    ensures var h: seq<Bit> := [0, 1, 0, 1, 0];
      && FirstRepeat(h, 2, 6, 0.9) == Some(2)
      && FirstRepeat(h, 2, 7, 0.88) == Some(2)
      && PredictAsWritten(h[3..], |h|) == 0
      && PredictAligned(h[3..], |h|, |h|) == 1
  {
    var h: seq<Bit> := [0, 1, 0, 1, 0];
    assert Repeats(h, 2) by {
      assert h[3..] == [1, 0] && h[1..3] == [1, 0];
    }
    assert Qualifies(h, 2, 0.9) && Qualifies(h, 2, 0.88);
  }
}
