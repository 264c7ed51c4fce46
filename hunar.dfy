/** OmegaBot of submissions/Hunar_hb969.py: transition counters and
    2000-entry bit buffers, a short-pattern detector, a periodic-calibrator
    detector that buckets opponent defections by round index modulo k, a
    threshold classifier, and a decision cascade (early trust, always-defector,
    calibrator schedule, budgeted exploitation of cooperators, pattern
    exploitation, mirroring, noise handling and an expected-value fallback). */
module Hunar {
  import opened Game
  import Patterns

  /** Configuration (the attribute values the bot's initialiser sets). */
  const BufferCap: nat := 2000
  const TrustBuild: nat := 6
  const ShortWindow: nat := 50
  const MinPatternLength: nat := 2
  const MaxPatternLength: nat := 7
  const PatternThreshold: real := 0.88
  const MinPatternHistory: nat := 8
  const CalibrationMinSamples: nat := 10
  const MinPeriod: nat := 2
  const MaxPeriod: nat := 8
  const PeriodThreshold: real := 0.45
  const CalibrationWindowMax: nat := 40
  const Horizon: nat := 10000
  const EndgameStart: nat := 9900

  /** The random draws one `turn` may consume, named by the branch that
      consumes them. */
  datatype Draws = Draws(exploit: Draw, pattern: Draw, forgive: Draw, randomize: Draw, coin: Draw, endgame: Draw, tie: Draw)

  datatype Tag = Unknown | Cooperator | Defector | TitForTat | PatternPlayer | Noisy | Adaptive

  // ---------------------------------------------------------------------
  // Rates
  // ---------------------------------------------------------------------

  /** `_opp_coop_rate()` over the whole buffer: 0.5 when empty, otherwise
      the fraction of 0-bits. */
  function CoopRate(bits: seq<Bit>): (r: real)
    ensures 0.0 <= r <= 1.0
    ensures bits == [] ==> r == 0.5
    ensures bits != [] ==> (r == 1.0 <==> forall i :: 0 <= i < |bits| ==> bits[i] == 0)
    ensures bits != [] ==> (r == 0.0 <==> forall i :: 0 <= i < |bits| ==> bits[i] == 1)
  {
    CountBound(bits, 0);
    if |bits| == 0 then 0.5 else Ratio(Count(bits, 0), |bits|)
  }

  /** `_recent_defect_rate(window)`: 0.0 when empty, otherwise the fraction
      of 1-bits among the last `window` (or all, when fewer). */
  function RecentDefectRate(bits: seq<Bit>, window: nat): (r: real)
    ensures 0.0 <= r <= 1.0
    ensures bits == [] ==> r == 0.0
    ensures bits != [] ==> (r == 0.0 <==> forall i :: |bits| - |Suffix(bits, window)| <= i < |bits| ==> bits[i] == 0)
  {
    if |bits| == 0 then 0.0
    else
      var recent := Suffix(bits, window);
      CountBound(recent, 1);
      Ratio(Count(recent, 1), |recent|)
  }

  /** On a non-empty buffer the whole-buffer cooperation rate and defect
      rate add up to one. */
  lemma CoopAndDefectRatesComplement(bits: seq<Bit>)
    requires bits != []
    ensures CoopRate(bits) + RecentDefectRate(bits, 0) == 1.0
  {
    CountBits(bits);
    assert Suffix(bits, 0) == bits;
    var n := |bits| as real;
    var c, d := Count(bits, 0) as real, Count(bits, 1) as real;
    assert c + d == n;
    assert CoopRate(bits) == c / n && RecentDefectRate(bits, 0) == d / n;
    PartsOfWhole(c, d, n);
  }

  lemma PartsOfWhole(a: real, b: real, n: real)
    requires n > 0.0 && a + b == n
    ensures a / n + b / n == 1.0
  {
    assert a / n + b / n == (a + b) / n;
  }

  /** The fraction of adjacent positions that differ, `changes / max(1, n-1)`. */
  function ChangeRate(bits: seq<Bit>): (r: real)
    ensures 0.0 <= r <= 1.0
    ensures r == 0.0 <==> forall i :: 0 < i < |bits| ==> bits[i] == bits[i - 1]
  {
    ChangesBound(bits);
    Ratio(Changes(bits), Max(1, |bits| - 1))
  }

  // ---------------------------------------------------------------------
  // Confidence decay
  // ---------------------------------------------------------------------

  /** One detection without a result: the confidence is multiplied by 0.85
      and zeroed once below 0.05. */
  function Decay(conf: real): (r: real)
    requires 0.0 <= conf
    ensures 0.0 <= r <= conf
    ensures r == 0.0 || r >= 0.05
    ensures conf > 0.0 ==> r < conf
    ensures r == 0.0 <==> conf * 0.85 < 0.05
    ensures r != 0.0 ==> r == conf * 0.85
  {
    var c := conf * 0.85;
    if c < 0.05 then 0.0 else c
  }

  function DecayTimes(conf: real, k: nat): (r: real)
    requires 0.0 <= conf
    ensures 0.0 <= r <= conf
  {
    if k == 0 then conf else Decay(DecayTimes(conf, k - 1))
  }

  /** A detection at confidence 1.0 keeps the 0.5 prediction threshold
      through four fruitless detections and loses it at the fifth; it is
      cleared at the nineteenth. */
  lemma ConfidenceLifetime()
    ensures DecayTimes(1.0, 4) >= 0.5 && DecayTimes(1.0, 5) < 0.5
    ensures DecayTimes(1.0, 18) >= 0.05 && DecayTimes(1.0, 19) == 0.0
  {
    assert DecayTimes(1.0, 1) == 0.85;
    assert DecayTimes(1.0, 2) == 0.7225;
    assert DecayTimes(1.0, 3) == 0.614125;
    assert DecayTimes(1.0, 4) == 0.52200625;
    assert DecayTimes(1.0, 5) == 0.4437053125;
    assert DecayTimes(1.0, 6) == 0.377149515625;
    assert DecayTimes(1.0, 7) == 0.32057708828125;
    assert DecayTimes(1.0, 8) == 0.2724905250390625;
    assert DecayTimes(1.0, 9) == 0.231616946283203125;
    assert DecayTimes(1.0, 10) == 0.19687440434072265625;
    assert DecayTimes(1.0, 11) == 0.1673432436896142578125;
    assert DecayTimes(1.0, 12) == 0.142241757136172119140625;
    assert DecayTimes(1.0, 13) == 0.12090549356574630126953125;
    assert DecayTimes(1.0, 14) == 0.1027696695308843560791015625;
    assert DecayTimes(1.0, 15) == 0.087354219101251702667236328125;
    assert DecayTimes(1.0, 16) == 0.07425108623606394726715087890625;
    assert DecayTimes(1.0, 17) == 0.0631134233006543551770782470703125;
    assert DecayTimes(1.0, 18) == 0.053646409805556201900516510009765625;
    assert DecayTimes(1.0, 19) == 0.0;
  }

  // ---------------------------------------------------------------------
  // Short patterns
  // ---------------------------------------------------------------------

  /** The `pattern_seq` / `pattern_conf` pair, with the number of rounds
      seen when the sequence was stored. The bot itself keeps no such
      count and never reads it; it is what the aligned prediction of
      `Patterns.PredictAligned` needs. */
  datatype ShortPattern = ShortPattern(sequence: Option<seq<Bit>>, confidence: real, storedAt: nat)
  {
    /** A sequence is held exactly while the confidence is non-zero, and
        then the confidence is at least 0.05. */
    ghost predicate Valid()
    {
      && 0.0 <= confidence <= 1.0
      && (sequence.None? <==> confidence == 0.0)
      && (sequence.Some? ==> confidence >= 0.05 && MinPatternLength <= |sequence.value| <= MaxPatternLength)
    }

    function Faded(): (r: ShortPattern)
      requires Valid()
      ensures r.Valid() && r.storedAt == storedAt
      ensures r.confidence == Decay(confidence)
      ensures r.confidence < confidence || confidence == 0.0
      ensures r.sequence.Some? ==> r.sequence == sequence
    {
      var c := Decay(confidence);
      if c == 0.0 then ShortPattern(None, 0.0, storedAt) else ShortPattern(sequence, c, storedAt)
    }
  }

  function NoShortPattern(): ShortPattern { ShortPattern(None, 0.0, 0) }

  /** A qualifying length repeats exactly (0.88 * 7 > 6). */
  lemma DetectionIsExact(h: seq<Bit>, L: nat)
    requires MinPatternLength <= L <= MaxPatternLength && Patterns.Qualifies(h, L, PatternThreshold)
    ensures Patterns.Repeats(h, L) && Patterns.Corr(h, L) == 1.0
  {
    Patterns.QualifiesIsExact(h, L, MaxPatternLength, PatternThreshold);
  }

  /** `_detect_short_pattern` on the opponent bits `h` after `now` rounds:
      cleared below eight bits; otherwise the smallest exactly repeating
      length's window with confidence 1.0, or the old state decayed. */
  function ShortSearched(h: seq<Bit>, p: ShortPattern, now: nat): (r: ShortPattern)
    requires p.Valid()
    ensures r.Valid()
    ensures p.storedAt <= now ==> r.storedAt <= now
    ensures |h| < MinPatternHistory ==> r.sequence.None? && r.confidence == 0.0
    ensures |h| >= MinPatternHistory ==>
      var found := Patterns.FirstRepeat(h, MinPatternLength, MaxPatternLength, PatternThreshold);
      && (found.Some? ==> r == ShortPattern(Some(Patterns.Recent(h, found.value)), 1.0, now) && Patterns.Repeats(h, found.value))
      && (found.None? ==> r == p.Faded())
  {
    if |h| < MinPatternHistory then ShortPattern(None, 0.0, p.storedAt)
    else
      match Patterns.FirstRepeat(h, MinPatternLength, MaxPatternLength, PatternThreshold)
      case Some(L) =>
        DetectionIsExact(h, L);
        ShortPattern(Some(Patterns.Recent(h, L)), Patterns.Corr(h, L), now)
      case None => p.Faded()
  }

  /** `_predict_pattern` on an opponent buffer of `n` bits: None without a
      sequence or below confidence 0.5, otherwise the stored window indexed
      by the buffer length, as the bot computes it. */
  function PredictPattern(p: ShortPattern, n: nat): (r: Option<Move>)
    requires p.Valid()
    ensures r.None? <==> p.sequence.None? || p.confidence < 0.5
    ensures r.Some? ==> BitOf(r.value) in p.sequence.value
    ensures r.Some? ==> r.value == MoveOfBit(Patterns.PredictAsWritten(p.sequence.value, n))
  {
    if p.sequence.None? || p.confidence < 0.5 then None
    else Some(MoveOfBit(Patterns.PredictAsWritten(p.sequence.value, n)))
  }

  /** Against the alternating opponent C, D, C, D, ... the bot detects
      [D, C] after nine rounds. Indexing it by the buffer length (9 mod 2),
      as the source does, predicts COOPERATE; the opponent's next move is
      DEFECT, which the aligned prediction gives. */
  lemma AsWrittenMispredictsAfterNine(p: ShortPattern)
    requires p.Valid()
    ensures var h: seq<Bit> := [0, 1, 0, 1, 0, 1, 0, 1, 0];
      var q := ShortSearched(h, p, 9);
      && q.sequence == Some([1, 0])
      && Patterns.PredictAsWritten(q.sequence.value, |h|) == 0
      && PredictPattern(q, |h|) == Some(Cooperate)
      && Patterns.PredictAligned(q.sequence.value, q.storedAt, |h|) == 1
  {
    var h: seq<Bit> := [0, 1, 0, 1, 0, 1, 0, 1, 0];
    assert Patterns.Repeats(h, 2) by {
      assert h[7..] == [1, 0] && h[5..7] == [1, 0];
    }
    assert Patterns.Qualifies(h, 2, PatternThreshold);
    assert Patterns.Recent(h, 2) == [1, 0];
  }

  // ---------------------------------------------------------------------
  // Periodic calibrators
  // ---------------------------------------------------------------------

  /** Number of rounds among `h` whose 1-based index is `r` modulo `k`. */
  function Samples(h: seq<Bit>, k: nat, r: nat): (s: nat)
    requires k >= 1
    ensures s <= |h|
  {
    if h == [] then 0 else Samples(h[..|h| - 1], k, r) + (if |h| % k == r then 1 else 0)
  }

  /** Number of defections among those rounds. */
  function Defects(h: seq<Bit>, k: nat, r: nat): (d: nat)
    requires k >= 1
    ensures d <= Samples(h, k, r)
  {
    if h == [] then 0 else Defects(h[..|h| - 1], k, r) + (if |h| % k == r && h[|h| - 1] == 1 then 1 else 0)
  }

  /** The defect fraction of residue `r`, 0.0 when it has no rounds. */
  function Frac(h: seq<Bit>, k: nat, r: nat): (f: real)
    requires k >= 1
    ensures 0.0 <= f <= 1.0
  {
    if Samples(h, k, r) > 0 then Ratio(Defects(h, k, r), Samples(h, k, r)) else 0.0
  }

  /** The list of residue fractions for residues 0..k-1. */
  function Fracs(h: seq<Bit>, k: nat): (f: seq<real>)
    requires k >= 1
    ensures |f| == k
    ensures forall r :: 0 <= r < k ==> f[r] == Frac(h, k, r)
  {
    seq(k, r requires 0 <= r < k => Frac(h, k, r))
  }

  /** Python's `max` of a non-empty list of reals. */
  function MaxOf(s: seq<real>): (m: real)
    requires s != []
    ensures forall i :: 0 <= i < |s| ==> s[i] <= m
    ensures exists i :: 0 <= i < |s| && s[i] == m
  {
    if |s| == 1 then s[0]
    else
      var m := MaxOf(s[..|s| - 1]);
      assert forall i :: 0 <= i < |s| - 1 ==> s[..|s| - 1][i] == s[i];
      if s[|s| - 1] > m then s[|s| - 1] else m
  }

  /** Python's `list.index`: the first position holding `x`. */
  function IndexOf(s: seq<real>, x: real): (i: nat)
    requires exists j :: 0 <= j < |s| && s[j] == x
    ensures i < |s| && s[i] == x
    ensures forall j :: 0 <= j < i ==> s[j] != x
  {
    if s[0] == x then 0
    else
      assert exists j :: 0 <= j < |s[1..]| && s[1..][j] == x by {
        var j :| 0 <= j < |s| && s[j] == x;
        assert s[1..][j - 1] == x;
      }
      1 + IndexOf(s[1..], x)
  }

  /** The first residue with the largest defect fraction (both
      `fracs.index(max(fracs))` and `max(range(k), key=fracs)`). */
  function PeakResidue(h: seq<Bit>, k: nat): (r: nat)
    requires k >= 1
    ensures r < k
    ensures forall j :: 0 <= j < k ==> Frac(h, k, j) <= Frac(h, k, r)
    ensures forall j :: 0 <= j < r ==> Frac(h, k, j) < Frac(h, k, r)
  {
    var f := Fracs(h, k);
    IndexOf(f, MaxOf(f))
  }

  function Sum(s: seq<real>): real
  {
    if s == [] then 0.0 else Sum(s[..|s| - 1]) + s[|s| - 1]
  }

  /** How concentrated the defections are at the peak residue: its
      fraction minus the mean fraction of the other residues. */
  function Spread(h: seq<Bit>, k: nat): real
    requires k >= 2
  {
    var f := Fracs(h, k);
    var top := MaxOf(f);
    top - (Sum(f) - top) / (k - 1) as real
  }

  /** The peak residue has enough rounds: at least `max(6, n // (2k))`. */
  predicate Supported(h: seq<Bit>, k: nat)
    requires k >= 1
  {
    Samples(h, k, PeakResidue(h, k)) >= Max(6, |h| / (2 * k))
  }

  /** One period's figures: its spread and whether its peak residue is
      supported. */
  datatype Candidate = Candidate(spread: real, supported: bool)

  /** The figures of period `k` (periods 0 and 1 are never scanned). */
  function CandidateOf(h: seq<Bit>, k: nat): Candidate
  {
    if k < MinPeriod then Candidate(0.0, false) else Candidate(Spread(h, k), Supported(h, k))
  }

  /** The figures of periods `0..n-1`, indexed by period. */
  function CandidatesBelow(h: seq<Bit>, n: nat): (cs: seq<Candidate>)
    ensures |cs| == n
  {
    if n == 0 then [] else CandidatesBelow(h, n - 1) + [CandidateOf(h, n - 1)]
  }

  /** The figures of periods 2..8, indexed by period. */
  function Candidates(h: seq<Bit>): (cs: seq<Candidate>)
    ensures |cs| == MaxPeriod + 1
  {
    CandidatesBelow(h, MaxPeriod + 1)
  }

  lemma {:induction false} CandidatesBelowAt(h: seq<Bit>, n: nat, k: nat)
    requires k < n
    ensures CandidatesBelow(h, n)[k] == CandidateOf(h, k)
  {
    var prefix := CandidatesBelow(h, n - 1);
    assert CandidatesBelow(h, n) == prefix + [CandidateOf(h, n - 1)];
    if k < n - 1 {
      CandidatesBelowAt(h, n - 1, k);
      assert (prefix + [CandidateOf(h, n - 1)])[k] == prefix[k];
    }
  }

  /** Entry `k` of the candidate list holds period `k`'s spread and
      support. */
  lemma CandidatesAt(h: seq<Bit>, k: nat)
    requires MinPeriod <= k <= MaxPeriod
    ensures Candidates(h)[k] == Candidate(Spread(h, k), Supported(h, k))
  {
    CandidatesBelowAt(h, MaxPeriod + 1, k);
  }

  /** `(bestK, bestConf)` is what the scan over periods `2..below-1` keeps:
      nothing (with confidence 0.0) when no supported period has a positive
      spread, otherwise the first supported period with the largest spread,
      which is positive. */
  ghost predicate Leads(cs: seq<Candidate>, bestK: Option<nat>, bestConf: real, below: nat)
    requires |cs| == MaxPeriod + 1 && below <= MaxPeriod + 1
  {
    && (bestK.None? ==>
          && bestConf == 0.0
          && forall j :: MinPeriod <= j < below && cs[j].supported ==> cs[j].spread <= 0.0)
    && (bestK.Some? ==>
          && MinPeriod <= bestK.value < below && cs[bestK.value].supported
          && cs[bestK.value].spread == bestConf && bestConf > 0.0
          && (forall j :: MinPeriod <= j < below && cs[j].supported ==> cs[j].spread <= bestConf)
          && (forall j :: MinPeriod <= j < bestK.value && cs[j].supported ==> cs[j].spread < bestConf))
  }

  /** One period of the `for k in range(2, 9)` scan: period `k` replaces
      the best so far only with a strictly larger spread and a supported
      peak residue. */
  function Step(cs: seq<Candidate>, k: nat, bestK: Option<nat>, bestConf: real): (Option<nat>, real)
    requires k < |cs|
  {
    if cs[k].spread > bestConf && cs[k].supported then (Some(k), cs[k].spread) else (bestK, bestConf)
  }

  /** The scan from period `k` on. */
  function Scan(cs: seq<Candidate>, k: nat, bestK: Option<nat>, bestConf: real): (Option<nat>, real)
    requires |cs| == MaxPeriod + 1
    decreases MaxPeriod + 1 - k
  {
    if k > MaxPeriod then (bestK, bestConf)
    else
      var next := Step(cs, k, bestK, bestConf);
      Scan(cs, k + 1, next.0, next.1)
  }

  /** The best period of `h` and its spread. */
  function BestPeriod(h: seq<Bit>): (Option<nat>, real)
  {
    var cs := Candidates(h);
    Scan(cs, MinPeriod, None, 0.0)
  }

  /** One step extends what the scan keeps by period `k`. */
  lemma StepLeads(cs: seq<Candidate>, k: nat, bestK: Option<nat>, bestConf: real)
    requires |cs| == MaxPeriod + 1 && MinPeriod <= k <= MaxPeriod
    requires Leads(cs, bestK, bestConf, k)
    ensures var r := Step(cs, k, bestK, bestConf); Leads(cs, r.0, r.1, k + 1)
  {
  }

  /** The whole scan keeps the first supported period of largest positive
      spread. */
  lemma {:induction false} ScanLeads(cs: seq<Candidate>, k: nat, bestK: Option<nat>, bestConf: real)
    requires |cs| == MaxPeriod + 1 && MinPeriod <= k <= MaxPeriod + 1
    requires Leads(cs, bestK, bestConf, k)
    decreases MaxPeriod + 1 - k
    ensures var r := Scan(cs, k, bestK, bestConf); Leads(cs, r.0, r.1, MaxPeriod + 1)
  {
    if k <= MaxPeriod {
      StepLeads(cs, k, bestK, bestConf);
      var next := Step(cs, k, bestK, bestConf);
      ScanLeads(cs, k + 1, next.0, next.1);
    }
  }

  lemma BestPeriodLeads(h: seq<Bit>)
    ensures var r := BestPeriod(h); Leads(Candidates(h), r.0, r.1, MaxPeriod + 1)
  {
    ScanLeads(Candidates(h), MinPeriod, None, 0.0);
  }

  /** The `periodic_k` / `periodic_conf` pair. */
  datatype PeriodicGuess = PeriodicGuess(k: Option<nat>, confidence: real)
  {
    ghost predicate Valid()
    {
      && 0.0 <= confidence
      && (k.None? <==> confidence == 0.0)
      && (k.Some? ==> MinPeriod <= k.value <= MaxPeriod && confidence >= 0.05)
    }

    function Faded(): (r: PeriodicGuess)
      requires Valid()
      ensures r.Valid()
      ensures r.confidence == Decay(confidence)
      ensures r.k.Some? ==> r.k == k
    {
      var c := Decay(confidence);
      if c == 0.0 then PeriodicGuess(None, 0.0) else PeriodicGuess(k, c)
    }
  }

  function NoPeriod(): PeriodicGuess { PeriodicGuess(None, 0.0) }

  /** A period is detected in `h`: enough samples and a best spread above
      0.45. */
  predicate PeriodDetected(h: seq<Bit>)
  {
    |h| >= CalibrationMinSamples && Scan(Candidates(h), MinPeriod, None, 0.0).1 > PeriodThreshold
  }

  /** `_detect_periodic_k` on the opponent bits `h`: cleared below ten bits;
      a detected period with its spread; otherwise the old guess decayed. */
  function PeriodicSearched(h: seq<Bit>, g: PeriodicGuess): (r: PeriodicGuess)
    requires g.Valid()
    ensures r.Valid()
    ensures |h| < CalibrationMinSamples ==> r == NoPeriod()
    ensures PeriodDetected(h) ==> r == PeriodicGuess(BestPeriod(h).0, BestPeriod(h).1)
    ensures |h| >= CalibrationMinSamples && !PeriodDetected(h) ==> r == g.Faded()
  {
    if |h| < CalibrationMinSamples then NoPeriod()
    else
      var best := Scan(Candidates(h), MinPeriod, None, 0.0);
      BestPeriodLeads(h);
      if best.1 > PeriodThreshold && best.0.Some? then PeriodicGuess(best.0, best.1)
      else g.Faded()
  }

  /** A detected period lies in 2..8, its peak residue is supported, and
      its spread, above 0.45, is the confidence kept. */
  lemma DetectedPeriodIsSupported(h: seq<Bit>)
    requires PeriodDetected(h)
    ensures var best := BestPeriod(h);
      && best.0.Some? && MinPeriod <= best.0.value <= MaxPeriod
      && Supported(h, best.0.value) && Spread(h, best.0.value) == best.1 > PeriodThreshold
  {
    BestPeriodLeads(h);
    CandidatesAt(h, BestPeriod(h).0.value);
  }

  /** No supported period of 2..8 has a larger spread than the detected
      one. */
  lemma DetectedPeriodHasLargestSpread(h: seq<Bit>, j: nat)
    requires PeriodDetected(h)
    requires MinPeriod <= j <= MaxPeriod && Supported(h, j)
    ensures Spread(h, j) <= BestPeriod(h).1
  {
    BestPeriodLeads(h);
    CandidatesAt(h, j);
  }

  /** Ties go to the smaller period: every supported period below the
      detected one has a strictly smaller spread. */
  lemma DetectedPeriodIsFirst(h: seq<Bit>, j: nat)
    requires PeriodDetected(h)
    requires MinPeriod <= j && BestPeriod(h).0.Some? && j < BestPeriod(h).0.value && Supported(h, j)
    ensures Spread(h, j) < BestPeriod(h).1
  {
    BestPeriodLeads(h);
    CandidatesAt(h, j);
  }

  // ---------------------------------------------------------------------
  // Classification
  // ---------------------------------------------------------------------

  /** `_classify`: UNKNOWN below six bits, then the first of COOPERATOR,
      DEFECTOR, TIT_FOR_TAT, PATTERN, NOISY whose test holds, else ADAPTIVE. */
  function Classify(bits: seq<Bit>, patternConf: real): (t: Tag)
    ensures t == Unknown <==> |bits| < 6
    ensures t == Cooperator <==> |bits| >= 6 && CoopRate(bits) > 0.95
    ensures t == Defector <==> |bits| >= 6 && CoopRate(bits) < 0.05
    ensures t == TitForTat <==> |bits| >= 6 && 0.6 < CoopRate(bits) <= 0.95 && ChangeRate(bits) < 0.2
    ensures t == PatternPlayer <==>
      && |bits| >= 6 && 0.05 <= CoopRate(bits) <= 0.95
      && !(0.6 < CoopRate(bits) && ChangeRate(bits) < 0.2) && patternConf > 0.6
    ensures t == Noisy <==>
      && |bits| >= 6 && 0.05 <= CoopRate(bits) <= 0.95
      && !(0.6 < CoopRate(bits) && ChangeRate(bits) < 0.2) && patternConf <= 0.6
      && Abs(CoopRate(bits) - 0.5) < 0.08 && ChangeRate(bits) > 0.4
  {
    if |bits| < 6 then Unknown
    else
      var coop := CoopRate(bits);
      var changeRate := ChangeRate(bits);
      var stability := 1.0 - changeRate;
      if coop > 0.95 then Cooperator
      else if coop < 0.05 then Defector
      else if stability > 0.8 && coop > 0.6 then TitForTat
      else if patternConf > 0.6 then PatternPlayer
      else if Abs(coop - 0.5) < 0.08 && changeRate > 0.4 then Noisy
      else Adaptive
  }

  /** Six straight defections are classified DEFECTOR and six straight
      cooperations COOPERATOR, whatever the pattern confidence. */
  lemma ConstantOpponentsClassified(bits: seq<Bit>, b: Bit, conf: real)
    requires |bits| >= 6 && forall i :: 0 <= i < |bits| ==> bits[i] == b
    ensures Classify(bits, conf) == (if b == 0 then Cooperator else Defector)
  {
    CountBits(bits);
    CountBound(bits, b);
  }

  // ---------------------------------------------------------------------
  // Exploitation budget
  // ---------------------------------------------------------------------

  /** `ceil(0.02 * max(1, 10000 - seen))`: the number of exploiting
      defections allowed for the rest of a 10000-round match. */
  function ExploitAllowance(seen: nat): (b: nat)
    ensures b >= 1
    ensures var remaining := Max(1, Horizon - seen); 50 * (b - 1) < remaining <= 50 * b
  {
    (Max(1, Horizon - seen) + 49) / 50
  }

  /** `_set_exploit_budget`: the budget is set once, while it is zero. */
  function BudgetAfter(budget: nat, seen: nat): (b: nat)
    ensures budget != 0 ==> b == budget
    ensures budget == 0 ==> b == ExploitAllowance(seen)
    ensures b >= 1
  {
    if budget == 0 then ExploitAllowance(seen) else budget
  }

  function RMin(a: real, b: real): real { if a < b then a else b }

  function RMax(a: real, b: real): real { if a < b then b else a }

  /** The chance of an exploiting defection: the streak-driven rate
      `min(0.06, 0.002 + 0.02 * max(0, streak - 3))`, capped by the unused
      budget spread over the remaining rounds. */
  function UseProbability(streak: nat, budget: nat, used: nat, seen: nat): (p: real)
    ensures p <= 0.06
    ensures used >= budget ==> p <= 0.0
    ensures used <= budget ==> 0.0 <= p
  {
    var rate := RMin(0.06, 0.002 + 0.02 * Max(0, streak - 3) as real);
    var remaining := Max(1, Horizon - seen);
    RMin(rate, RMax(0.0, (budget - used) as real / remaining as real))
  }

  // ---------------------------------------------------------------------
  // The decision cascade
  // ---------------------------------------------------------------------

  /** What one cascade produces: the move and the budget fields. */
  datatype Outcome = Outcome(move: Move, budget: nat, used: nat)

  /** The tiny randomisation: with probability 0.005 a fair coin replaces
      the move. */
  function Randomized(m: Move, d: Draws): (r: Move)
    ensures d.randomize >= 0.005 ==> r == m
  {
    if d.randomize < 0.005 then (if d.coin < 0.5 then Cooperate else Defect) else m
  }

  /** The expected-value fallback on the counters: the chance the opponent
      cooperates after our C (`cc / max(1, cc+cd)`) and after our D
      (`dc / max(1, dc+dd)`), the payoffs `3 * pcC` and `5 * pcD + (1 - pcD)`,
      the endgame push, the near-tie coin and the randomisation. */
  function Fallback(c: Counts, seen: nat, d: Draws): (m: Move)
    ensures seen >= EndgameStart && d.endgame < 0.9 ==> m == Defect
    ensures d.randomize >= 0.005 && !(seen >= EndgameStart && d.endgame < 0.9) ==>
      var pcC := c.cc as real / Max(1, c.cc + c.cd) as real;
      var pcD := c.dc as real / Max(1, c.dc + c.dd) as real;
      var expC := 3.0 * pcC;
      var expD := 5.0 * pcD + (1.0 - pcD);
      && (expD - expC >= 0.06 ==> m == Defect)
      && (expC - expD >= 0.06 ==> m == Cooperate)
  {
    var pcC := c.cc as real / Max(1, c.cc + c.cd) as real;
    var pcD := c.dc as real / Max(1, c.dc + c.dd) as real;
    var expC := 3.0 * pcC;
    var expD := 5.0 * pcD + 1.0 * (1.0 - pcD);
    if seen >= EndgameStart && d.endgame < 0.9 then Defect
    else
      var m :=
        if Abs(expD - expC) < 0.06 then (if d.tie < 0.92 then Cooperate else Defect)
        else if expD > expC then Defect
        else Cooperate;
      Randomized(m, d)
  }

  /** The calibrator schedule: defect unless the coming round falls on the
      residue where the opponent's defections concentrate. */
  function CalibratorMove(bits: seq<Bit>, seen: nat, k: nat): (m: Move)
    requires k >= 1
    ensures m == Defect <==> (seen + 1) % k != PeakResidue(bits, k)
  {
    if (seen + 1) % k != PeakResidue(bits, k) then Defect else Cooperate
  }

  /** Budgeted exploitation of a cooperator: the budget is set if still
      zero, and an exploiting defection, drawn with the use probability,
      spends one unit of it. */
  function ExploitOutcome(bits: seq<Bit>, seen: nat, budget: nat, used: nat, d: Draws): (o: Outcome)
    ensures o.budget == BudgetAfter(budget, seen)
    ensures used <= budget ==> o.used <= o.budget
    ensures o.move == Defect ==> o.used == used + 1
    ensures o.move == Cooperate ==> o.used == used
    ensures o.move == Defect <==> d.exploit < UseProbability(TrailingRun(bits, 0), o.budget, used, seen)
  {
    var b := BudgetAfter(budget, seen);
    if d.exploit < UseProbability(TrailingRun(bits, 0), b, used, seen) then Outcome(Defect, b, used + 1)
    else Outcome(Cooperate, b, used)
  }

  /** The branches after exploitation: pattern play (defect unless the
      pattern predicts COOPERATE and the 0.9 draw spares it), mirroring
      for TIT_FOR_TAT and calm ADAPTIVE opponents, noise handling, and the
      expected-value fallback. */
  function LaterMove(tag: Tag, bits: seq<Bit>, c: Counts, seen: nat, p: ShortPattern, d: Draws): (m: Move)
    requires p.Valid()
    ensures tag == PatternPlayer && p.sequence.Some? && PredictPattern(p, |bits|) != Some(Cooperate) ==> m == Defect
    ensures tag == PatternPlayer && p.sequence.Some? && PredictPattern(p, |bits|) == Some(Cooperate) ==> (m == Defect <==> d.pattern < 0.9)
    ensures tag == TitForTat && d.randomize >= 0.005 ==>
      (m == Defect <==> bits != [] && bits[|bits| - 1] == 1 && d.forgive >= 0.02)
    ensures tag == Noisy ==> (m == Defect <==> RecentDefectRate(bits, ShortWindow) > 0.45 && d.forgive >= 0.02)
    ensures tag == Adaptive && RecentDefectRate(bits, ShortWindow) < 0.25 && d.randomize >= 0.005 ==>
      (m == Defect <==> bits != [] && bits[|bits| - 1] == 1 && d.forgive >= 0.02)
    ensures
      || (tag == Adaptive && RecentDefectRate(bits, ShortWindow) >= 0.25)
      || (tag == PatternPlayer && p.sequence.None?)
      || (tag != PatternPlayer && tag != TitForTat && tag != Adaptive && tag != Noisy)
      ==> m == Fallback(c, seen, d)
  {
    var recentDefect := RecentDefectRate(bits, ShortWindow);
    if tag == PatternPlayer && p.sequence.Some? then
      if PredictPattern(p, |bits|) == Some(Cooperate) && d.pattern >= 0.9 then Cooperate else Defect
    else if tag == TitForTat || (tag == Adaptive && recentDefect < 0.25) then
      var mirror := if bits == [] then Cooperate else MoveOfBit(bits[|bits| - 1]);
      var forgiven := if mirror == Defect && d.forgive < 0.02 then Cooperate else mirror;
      Randomized(forgiven, d)
    else if tag == Noisy then
      if recentDefect > 0.45 && d.forgive >= 0.02 then Defect else Cooperate
    else Fallback(c, seen, d)
  }

  /** The cascade of `turn` after the early-trust rounds, on the values of
      the bot's fields once both detectors have run: always-defectors get
      DEFECT, a calibrator detected early gets the schedule, cooperators are
      exploited within the budget, and the rest is `LaterMove`. */
  function Decide(bits: seq<Bit>, c: Counts, seen: nat, p: ShortPattern, g: PeriodicGuess,
                  calibrated: bool, budget: nat, used: nat, d: Draws): (o: Outcome)
    requires p.Valid() && g.Valid()
    ensures Classify(bits, p.confidence) == Defector || CoopRate(bits) < 0.05 ==> o == Outcome(Defect, budget, used)
    ensures used <= budget ==> o.used <= o.budget
    ensures budget != 0 ==> o.budget == budget
    ensures o.used == used || (o.used == used + 1 && o.move == Defect)
    ensures
      && !(Classify(bits, p.confidence) == Defector || CoopRate(bits) < 0.05)
      && calibrated && g.k.Some? && seen <= CalibrationWindowMax
      ==> (o.move == Defect <==> (seen + 1) % g.k.value != PeakResidue(bits, g.k.value)) && o.budget == budget && o.used == used
    ensures
      && !(Classify(bits, p.confidence) == Defector || CoopRate(bits) < 0.05)
      && !(calibrated && g.k.Some? && seen <= CalibrationWindowMax)
      && (Classify(bits, p.confidence) == Cooperator || CoopRate(bits) > 0.92)
      ==> o == ExploitOutcome(bits, seen, budget, used, d)
    ensures
      && !(Classify(bits, p.confidence) == Defector || CoopRate(bits) < 0.05)
      && !(calibrated && g.k.Some? && seen <= CalibrationWindowMax)
      && !(Classify(bits, p.confidence) == Cooperator || CoopRate(bits) > 0.92)
      ==> o == Outcome(LaterMove(Classify(bits, p.confidence), bits, c, seen, p, d), budget, used)
  {
    var tag := Classify(bits, p.confidence);
    var overall := CoopRate(bits);
    if tag == Defector || overall < 0.05 then Outcome(Defect, budget, used)
    else if calibrated && g.k.Some? && seen <= CalibrationWindowMax then
      Outcome(CalibratorMove(bits, seen, g.k.value), budget, used)
    else if tag == Cooperator || overall > 0.92 then ExploitOutcome(bits, seen, budget, used, d)
    else Outcome(LaterMove(tag, bits, c, seen, p, d), budget, used)
  }

  /** Whether the last history entry yields both moves: read from the
      `self`/`other` attributes, or, when either is missing, by unpacking a
      two-item tuple; both must be Move values. */
  function EntryMoves(entry: RawEntry): (r: Option<(Move, Move)>)
    ensures r.Some? <==>
      || (entry.Record? && entry.own.MoveValue? && entry.other.MoveValue?)
      || (entry.Tuple? && |entry.items| == 2 && entry.items[0].MoveValue? && entry.items[1].MoveValue?)
    ensures r.Some? && entry.Record? ==> r.value == (entry.own.m, entry.other.m)
    ensures r.Some? && entry.Tuple? ==> r.value == (entry.items[0].m, entry.items[1].m)
  {
    match entry
    case Record(own, other) =>
      if own.MoveValue? && other.MoveValue? then Some((own.m, other.m)) else None
    case Tuple(items) =>
      if |items| == 2 && items[0].MoveValue? && items[1].MoveValue? then Some((items[0].m, items[1].m)) else None
    case OtherEntry => None
  }

  function LastEntryMoves(history: seq<RawEntry>): (r: Option<(Move, Move)>)
    ensures history == [] ==> r.None?
    ensures history != [] ==> r == EntryMoves(history[|history| - 1])
  {
    if history == [] then None else EntryMoves(history[|history| - 1])
  }

  // ---------------------------------------------------------------------
  // The bot's per-match state
  // ---------------------------------------------------------------------

  class Bot {
    var oppBits: seq<Bit>
    var myBits: seq<Bit>
    var counts: Counts
    var totalSeen: nat
    var pattern: ShortPattern
    var periodic: PeriodicGuess
    var calibrationPhaseDetected: bool
    var exploitBudget: nat
    var exploitUsed: nat
    var lastMove: Option<Move>

    /** Every recorded round is in exactly one counter, the buffers hold the
        last `min(seen, 2000)` rounds, the detector states are consistent
        and the exploitation count never passes the budget. */
    ghost predicate Valid()
      reads this
    {
      && counts.cc + counts.cd + counts.dc + counts.dd == totalSeen
      && |oppBits| == |myBits| == Min(totalSeen, BufferCap)
      && pattern.Valid() && pattern.storedAt <= totalSeen
      && periodic.Valid()
      && exploitUsed <= exploitBudget
    }

    constructor ()
      ensures Valid()
      ensures oppBits == [] && myBits == [] && counts == Counts(0, 0, 0, 0) && totalSeen == 0
      ensures pattern == NoShortPattern() && periodic == NoPeriod() && !calibrationPhaseDetected
      ensures exploitBudget == 0 && exploitUsed == 0 && lastMove == None
    {
      oppBits, myBits := [], [];
      counts, totalSeen := Counts(0, 0, 0, 0), 0;
      pattern, periodic := NoShortPattern(), NoPeriod();
      calibrationPhaseDetected := false;
      exploitBudget, exploitUsed := 0, 0;
      lastMove := None;
    }

    /** Reset every field and open with COOPERATE. */
    method Begin() returns (first: Move)
      modifies this
      ensures Valid()
      ensures oppBits == [] && myBits == [] && counts == Counts(0, 0, 0, 0) && totalSeen == 0
      ensures pattern == NoShortPattern() && periodic == NoPeriod() && !calibrationPhaseDetected
      ensures exploitBudget == 0 && exploitUsed == 0
      ensures first == Cooperate && lastMove == Some(first)
    {
      oppBits, myBits := [], [];
      counts, totalSeen := Counts(0, 0, 0, 0), 0;
      pattern, periodic := NoShortPattern(), NoPeriod();
      calibrationPhaseDetected := false;
      exploitBudget, exploitUsed := 0, 0;
      first := Cooperate;
      lastMove := Some(first);
    }

    /** `_update_counts`: bump the round's counter, append both bits (each
        buffer evicting its oldest beyond 2000) and count the round. */
    method UpdateCounts(my: Move, opp: Move)
      requires Valid()
      modifies this`counts, this`oppBits, this`myBits, this`totalSeen
      ensures Valid()
      ensures counts == old(counts).Record(my, opp) && totalSeen == old(totalSeen) + 1
      ensures oppBits == Push(old(oppBits), BitOf(opp), BufferCap)
      ensures myBits == Push(old(myBits), BitOf(my), BufferCap)
    {
      counts := counts.Record(my, opp);
      myBits := Push(myBits, BitOf(my), BufferCap);
      oppBits := Push(oppBits, BitOf(opp), BufferCap);
      totalSeen := totalSeen + 1;
    }


    /** The coop streak loop of `turn`: walk the opponent bits backwards
        while they are 0. */
    method CoopStreak() returns (streak: nat)
      ensures streak == TrailingRun(oppBits, 0)
    {
      var bits := oppBits;
      var i := |bits|;
      streak := 0;
      while i > 0 && bits[i - 1] == 0
        invariant 0 <= i <= |bits| && streak == |bits| - i
        invariant forall j :: i <= j < |bits| ==> bits[j] == 0
      {
        streak := streak + 1;
        i := i - 1;
      }
    }

    /** `_set_exploit_budget`. */
    method SetExploitBudget()
      modifies this`exploitBudget
      ensures exploitBudget == BudgetAfter(old(exploitBudget), totalSeen)
    {
      if exploitBudget == 0 {
        var remaining := Max(1, Horizon - totalSeen);
        exploitBudget := (remaining + 49) / 50;
      }
    }

    /** The cascade of `turn` once the trust rounds are over and both
        detectors have run. */
    method Respond(d: Draws) returns (move: Move)
      requires Valid()
      modifies this`exploitBudget, this`exploitUsed, this`lastMove
      ensures Valid() && lastMove == Some(move)
      ensures var o := Decide(oppBits, counts, totalSeen, pattern, periodic, calibrationPhaseDetected,
                              old(exploitBudget), old(exploitUsed), d);
        move == o.move && exploitBudget == o.budget && exploitUsed == o.used
    {
      var tag := Classify(oppBits, pattern.confidence);
      var overall := CoopRate(oppBits);
      if tag == Defector || overall < 0.05 {
        move := Defect;
      } else if calibrationPhaseDetected && periodic.k.Some? && totalSeen <= CalibrationWindowMax {
        move := CalibratorSchedule(periodic.k.value);
      } else if tag == Cooperator || overall > 0.92 {
        move := ExploitCooperator(d);
      } else {
        move := LaterBranches(tag, d);
      }
      lastMove := Some(move);
    }

    /** The calibrator branch: recount the residues and defect unless the
        coming round is the peak residue. */
    method CalibratorSchedule(k: nat) returns (move: Move)
      requires k >= 1
      ensures move == CalibratorMove(oppBits, totalSeen, k)
    {
      var fracs, _ := ResidueFractions(oppBits, k);
      var peak := IndexOf(fracs, MaxOf(fracs));
      var res := (totalSeen + 1) % k;
      move := if res != peak then Defect else Cooperate;
    }

    /** The cooperator branch: set the budget, measure the cooperation
        streak, and spend one unit of budget on a drawn defection. */
    method ExploitCooperator(d: Draws) returns (move: Move)
      requires exploitUsed <= exploitBudget
      modifies this`exploitBudget, this`exploitUsed
      ensures exploitUsed <= exploitBudget
      ensures Outcome(move, exploitBudget, exploitUsed) == ExploitOutcome(oppBits, totalSeen, old(exploitBudget), old(exploitUsed), d)
    {
      SetExploitBudget();
      var streak := CoopStreak();
      var chance := UseProbability(streak, exploitBudget, exploitUsed, totalSeen);
      if d.exploit < chance {
        exploitUsed := exploitUsed + 1;
        move := Defect;
      } else {
        move := Cooperate;
      }
    }

    /** Pattern play, mirroring, noise handling and the fallback. */
    method LaterBranches(tag: Tag, d: Draws) returns (move: Move)
      requires pattern.Valid()
      ensures move == LaterMove(tag, oppBits, counts, totalSeen, pattern, d)
    {
      var recentDefect := RecentDefectRate(oppBits, ShortWindow);
      if tag == PatternPlayer && pattern.sequence.Some? {
        var predicted := PredictPattern(pattern, |oppBits|);
        if predicted == Some(Cooperate) {
          move := if d.pattern < 0.9 then Defect else Cooperate;
        } else {
          move := Defect;
        }
      } else if tag == TitForTat || (tag == Adaptive && recentDefect < 0.25) {
        move := if oppBits == [] then Cooperate else MoveOfBit(oppBits[|oppBits| - 1]);
        if move == Defect && d.forgive < 0.02 {
          move := Cooperate;
        }
        move := Randomized(move, d);
      } else if tag == Noisy {
        move := if recentDefect > 0.45 then Defect else Cooperate;
        if d.forgive < 0.02 {
          move := Cooperate;
        }
      } else {
        move := Fallback(counts, totalSeen, d);
      }
    }

    /** One round past the trust-building phase: refresh both detectors on
        the opponent buffer, then pick the move through the decision
        cascade. */
    method Advance(d: Draws) returns (move: Move)
      requires Valid()
      modifies this`periodic, this`calibrationPhaseDetected, this`pattern, this`exploitBudget, this`exploitUsed, this`lastMove
      ensures Valid() && lastMove == Some(move)
      ensures periodic == PeriodicSearched(old(oppBits), old(periodic))
      ensures calibrationPhaseDetected == (old(calibrationPhaseDetected) || (PeriodDetected(old(oppBits)) && old(totalSeen) <= CalibrationWindowMax))
      ensures pattern == ShortSearched(old(oppBits), old(pattern), old(totalSeen))
      ensures var o := Decide(oppBits, counts, totalSeen, pattern, periodic, calibrationPhaseDetected,
                              old(exploitBudget), old(exploitUsed), d);
        move == o.move && exploitBudget == o.budget && exploitUsed == o.used
    {
      var bits, seen := oppBits, totalSeen;
      periodic, calibrationPhaseDetected := DetectPeriod(bits, periodic, seen, calibrationPhaseDetected);
      pattern := DetectShortPattern(bits, pattern, seen);
      move := Respond(d);
    }

    /** The bot's turn: record the last round of the history (when it
        carries two moves), cooperate while trust is being built, and
        otherwise advance the detectors and decide. */
    method Turn(history: seq<RawEntry>, d: Draws) returns (move: Move)
      requires Valid()
      modifies this
      ensures Valid() && lastMove == Some(move)
      ensures var e := LastEntryMoves(history);
        if e.Some? then
          && counts == old(counts).Record(e.value.0, e.value.1) && totalSeen == old(totalSeen) + 1
          && oppBits == Push(old(oppBits), BitOf(e.value.1), BufferCap)
          && myBits == Push(old(myBits), BitOf(e.value.0), BufferCap)
        else counts == old(counts) && totalSeen == old(totalSeen) && oppBits == old(oppBits) && myBits == old(myBits)
      ensures totalSeen < TrustBuild ==>
        && move == Cooperate && periodic == old(periodic) && pattern == old(pattern)
        && calibrationPhaseDetected == old(calibrationPhaseDetected)
        && exploitBudget == old(exploitBudget) && exploitUsed == old(exploitUsed)
      ensures totalSeen >= TrustBuild ==>
        && periodic == PeriodicSearched(oppBits, old(periodic))
        && calibrationPhaseDetected == (old(calibrationPhaseDetected) || (PeriodDetected(oppBits) && totalSeen <= CalibrationWindowMax))
        && pattern == ShortSearched(oppBits, old(pattern), totalSeen)
        && var o := Decide(oppBits, counts, totalSeen, pattern, periodic, calibrationPhaseDetected,
                           old(exploitBudget), old(exploitUsed), d);
           move == o.move && exploitBudget == o.budget && exploitUsed == o.used
    {
      var e := LastEntryMoves(history);
      if e.Some? {
        UpdateCounts(e.value.0, e.value.1);
      }
      if totalSeen < TrustBuild {
        move := Cooperate;
        lastMove := Some(move);
        return;
      }
      move := Advance(d);
    }
  }

  /** `_detect_short_pattern` on the opponent bits `history`: the loop over
      lengths 2..7 that stops at the first length whose match fraction
      reaches 0.88. */
  method DetectShortPattern(history: seq<Bit>, p: ShortPattern, seen: nat) returns (q: ShortPattern)
    requires p.Valid() && p.storedAt <= seen
    ensures q.Valid() && q.storedAt <= seen
    ensures q == ShortSearched(history, p, seen)
  {
    if |history| < MinPatternHistory {
      q := ShortPattern(None, 0.0, p.storedAt);
      return;
    }
    var length := MinPatternLength;
    while length <= MaxPatternLength
      invariant MinPatternLength <= length <= MaxPatternLength + 1
      invariant Patterns.FirstRepeat(history, MinPatternLength, MaxPatternLength, PatternThreshold)
             == Patterns.FirstRepeat(history, length, MaxPatternLength, PatternThreshold)
    {
      if |history| >= 2 * length {
        var correlation := Patterns.Corr(history, length);
        if correlation >= PatternThreshold {
          q := ShortPattern(Some(Patterns.Recent(history, length)), correlation, seen);
          return;
        }
      }
      length := length + 1;
    }
    q := p.Faded();
  }

  /** `_detect_periodic_k`: clear below ten bits; otherwise scan periods
      2..8, then keep the best period or decay the old guess. The
      calibration flag is raised only by a detection within the first 40
      rounds, and never lowered. */
  method DetectPeriod(history: seq<Bit>, g: PeriodicGuess, seen: nat, calibrated: bool)
    returns (guess: PeriodicGuess, flag: bool)
    requires g.Valid()
    ensures guess == PeriodicSearched(history, g)
    ensures flag == (calibrated || (PeriodDetected(history) && seen <= CalibrationWindowMax))
  {
    guess, flag := g, calibrated;
    if |history| < CalibrationMinSamples {
      guess := NoPeriod();
      return;
    }
    var best := ScanPeriods(history);
    if best.1 > PeriodThreshold && best.0.Some? {
      guess := PeriodicGuess(best.0, best.1);
      if seen <= CalibrationWindowMax {
        flag := true;
      }
    } else {
      guess := guess.Faded();
    }
  }

  /** The loop over periods 2..8 of `_detect_periodic_k`, keeping the best
      period and its spread. */
  method ScanPeriods(h: seq<Bit>) returns (best: (Option<nat>, real))
    ensures best == BestPeriod(h)
  {
    ghost var cs := Candidates(h);
    var bestK: Option<nat>, bestConf := None, 0.0;
    var k := MinPeriod;
    while k <= MaxPeriod
      invariant MinPeriod <= k <= MaxPeriod + 1
      invariant Scan(cs, MinPeriod, None, 0.0) == Scan(cs, k, bestK, bestConf)
    {
      var conf, supported := PeriodFigures(h, k);
      CandidatesAt(h, k);
      ghost var next := Step(cs, k, bestK, bestConf);
      if conf > bestConf && supported {
        bestConf, bestK := conf, Some(k);
      }
      assert (bestK, bestConf) == next;
      k := k + 1;
    }
    best := (bestK, bestConf);
  }

  /** One period's pass of the loop: the residue fractions, their maximum,
      the mean of the others, and the sample test at the first maximal
      residue. */
  method PeriodFigures(h: seq<Bit>, k: nat) returns (conf: real, supported: bool)
    requires k >= 2
    ensures conf == Spread(h, k) && supported == Supported(h, k)
  {
    var fracs, samples := ResidueFractions(h, k);
    var maxFrac := MaxOf(fracs);
    var otherFrac := (Sum(fracs) - maxFrac) / (k - 1) as real;
    conf := maxFrac - otherFrac;
    var peak := IndexOf(fracs, maxFrac);
    supported := samples[peak] >= Max(6, |h| / (2 * k));
  }

  /** The residue loop shared by the detector and the calibrator branch:
      per-residue defect and sample counts in two arrays, then the list of
      fractions. */
  method ResidueFractions(h: seq<Bit>, k: nat) returns (fracs: seq<real>, samples: array<nat>)
    requires k >= 1
    ensures fracs == Fracs(h, k)
    ensures samples.Length == k && forall r :: 0 <= r < k ==> samples[r] == Samples(h, k, r)
  {
    var defects := new nat[k](_ => 0);
    samples := new nat[k](_ => 0);
    var i := 0;
    while i < |h|
      invariant 0 <= i <= |h|
      invariant forall r :: 0 <= r < k ==> defects[r] == Defects(h[..i], k, r) && samples[r] == Samples(h[..i], k, r)
    {
      assert h[..i + 1][..i] == h[..i];
      var r := (i + 1) % k;
      samples[r] := samples[r] + 1;
      if h[i] == 1 {
        defects[r] := defects[r] + 1;
      }
      i := i + 1;
    }
    assert h[..i] == h;
    fracs := [];
    var r := 0;
    while r < k
      invariant 0 <= r <= k && |fracs| == r
      invariant forall j :: 0 <= j < r ==> fracs[j] == Frac(h, k, j)
    {
      fracs := fracs + [if samples[r] > 0 then defects[r] as real / samples[r] as real else 0.0];
      r := r + 1;
    }
  }
}
