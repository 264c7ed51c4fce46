/** The three-phase bot of submissions/AkshitSivaraman_as658.py: a scripted
    opening, an adaptive middle game driven by an opponent classifier, and a
    randomised endgame. The model covers its bookkeeping (transition counters,
    mirror and retaliation tracking, 600-entry bit buffers), its pattern
    search and prediction, its classifier and the statistics it is fed, the
    randomness indicator, the history-entry normaliser, the opening script and
    the phase selection of `turn`. */
module Akshit {
  import opened Game
  import Patterns

  /** The bit buffers keep at most this many entries, oldest evicted first. */
  const HistoryCap: nat := 600
  /** Pattern lengths tried, smallest first, and the match threshold. */
  const MinPatternLength: nat := 2
  const MaxPatternLength: nat := 6
  const PatternThreshold: real := 0.9

  /** The opening script's mode, 0 to 2. */
  type Mode = m: nat | m < 3

  /** The game phase, 1 (opening) to 3 (endgame). */
  type PhaseNumber = p: nat | 1 <= p <= 3 witness 1

  datatype Tag = AlwaysCoop | AlwaysDef | RandomPlay | Reactive | PatternPlay | Forgiving | Adaptive

  // ---------------------------------------------------------------------
  // History-entry normalisation
  // ---------------------------------------------------------------------

  /** The candidate value: the attribute when the entry has it, otherwise
      the tuple item at position 0 (own) or 1 (opponent) when it exists. */
  function Candidate(entry: RawEntry, mine: bool): Value
  {
    match entry
    case Record(o, t) => if mine then o else t
    case Tuple(items) =>
      var k := if mine then 0 else 1;
      if k < |items| then items[k] else NoValue
    case OtherEntry => NoValue
  }

  function Decode(v: Value): (r: Option<Move>)
    ensures v.MoveValue? ==> r == Some(v.m)
    ensures v.NoValue? || v.OtherValue? ==> r == None
    ensures v.Int? ==> r == Some(if v.i == 0 then Cooperate else Defect)
    ensures v.WithValue? ==> (r.Some? <==> v.v == 0 || v.v == 1)
    ensures v.Text? ==> (r == Some(Cooperate) <==> |v.s| > 0 && (v.s[0] == 'c' || v.s[0] == 'C'))
    ensures v.Text? ==> (r == Some(Defect) <==> |v.s| > 0 && (v.s[0] == 'd' || v.s[0] == 'D'))
  {
    match v
    case MoveValue(m) => Some(m)
    case Text(s) =>
      if |s| > 0 && (s[0] == 'c' || s[0] == 'C') then Some(Cooperate)
      else if |s| > 0 && (s[0] == 'd' || s[0] == 'D') then Some(Defect)
      else None
    case Int(i) => Some(if i == 0 then Cooperate else Defect)
    case WithValue(x) => if x == 0 then Some(Cooperate) else if x == 1 then Some(Defect) else None
    case NoValue => None
    case OtherValue => None
  }

  /** Normalise one side of a history entry to a Move, or None. */
  function ExtractMove(entry: RawEntry, mine: bool): (r: Option<Move>)
    ensures entry.OtherEntry? ==> r == None
    ensures entry.Tuple? && |entry.items| <= (if mine then 0 else 1) ==> r == None
  {
    Decode(Candidate(entry, mine))
  }

  /** The representations of a move the normaliser understands. */
  datatype Shape = AsMove | AsWord | AsInt | AsEnumValue

  function Encode(m: Move, shape: Shape): Value
  {
    match shape
    case AsMove => MoveValue(m)
    case AsWord => Text(if m == Cooperate then "COOPERATE" else "defect")
    case AsInt => Int(if m == Cooperate then 0 else 1)
    case AsEnumValue => WithValue(if m == Cooperate then 0 else 1)
  }

  /** Whatever recognised shape each side is written in, as a record or as a
      pair, normalisation gives back both moves. */
  lemma ExtractRoundTrip(a: Move, b: Move, sa: Shape, sb: Shape)
    ensures ExtractMove(Record(Encode(a, sa), Encode(b, sb)), true) == Some(a)
    ensures ExtractMove(Record(Encode(a, sa), Encode(b, sb)), false) == Some(b)
    ensures ExtractMove(Tuple([Encode(a, sa), Encode(b, sb)]), true) == Some(a)
    ensures ExtractMove(Tuple([Encode(a, sa), Encode(b, sb)]), false) == Some(b)
  {
  }

  // ---------------------------------------------------------------------
  // Opening script, phases, pattern counter, random-opponent test
  // ---------------------------------------------------------------------

  /** The opening script. Mode 2 draws a random byte and cooperates when it
      is below 204; `byte` is that draw. */
  function OpeningMove(index: nat, mode: nat, byte: nat): (m: Move)
    ensures index < 4 ==> m == Cooperate
    ensures index >= 4 && mode == 0 ==> (m == Defect <==> (index + 1) % 10 == 0)
    ensures index >= 4 && mode == 1 ==> (m == Cooperate <==> index % 2 == 0)
    ensures index >= 4 && mode >= 2 ==> (m == Cooperate <==> byte < 204)
  {
    if index < 4 then Cooperate
    else if mode == 0 then (if (index + 1) % 10 == 0 then Defect else Cooperate)
    else if mode == 1 then (if index % 2 == 0 then Cooperate else Defect)
    else if byte < 204 then Cooperate else Defect
  }

  /** Number of DEFECTs the mode-0 or mode-1 script plays at indices below `n`. */
  function ScriptDefections(mode: nat, n: nat): nat
    requires mode < 2
  {
    if n == 0 then 0
    else ScriptDefections(mode, n - 1) + (if OpeningMove(n - 1, mode, 0) == Defect then 1 else 0)
  }

  /** Over its first 30 indices mode 0 defects 3 times (indices 9, 19, 29)
      and mode 1 defects 13 times (the odd indices from 5 to 29). */
  lemma {:induction false} ModeZeroDefections(n: nat)
    requires n <= 30
    ensures ScriptDefections(0, n) == (if n < 10 then 0 else if n < 20 then 1 else if n < 30 then 2 else 3)
  {
    if n > 0 {
      ModeZeroDefections(n - 1);
    }
  }

  lemma {:induction false} ModeOneDefections(n: nat)
    requires n <= 30
    ensures ScriptDefections(1, n) == (if n <= 4 then 0 else (n - 4) / 2)
  {
    if n > 0 {
      ModeOneDefections(n - 1);
    }
  }

  /** The opening mode drawn from two random bits: `(2*bit1 + bit2) mod 3`,
      so mode 0 comes up for two of the four draws. */
  function ModeOf(bit1: Bit, bit2: Bit): (mode: Mode)
    ensures mode < 3
    ensures mode == (2 * bit1 + bit2) % 3
    ensures mode == 0 <==> bit1 == bit2
  {
    if bit1 == 0 && bit2 == 0 then 0
    else if bit1 == 0 then 1
    else if bit2 == 0 then 2
    else 0
  }

  /** Rounds 1..29 are the opening phase, rounds up to 9499 the middle
      phase, later rounds the endgame. */
  function PhaseOf(round: nat): (p: PhaseNumber)
    ensures 1 <= p <= 3
    ensures p == 1 <==> round < 30
    ensures p == 3 <==> round >= 9500
  {
    if round < 30 then 1 else if round < 9500 then 2 else 3
  }

  /** In the opening phase some tags cut the script short: extreme tags from
      round 3 on, the random, pattern and reactive tags from round 5 on. */
  function PhaseOneOverride(round: nat, tag: Tag): (r: bool)
    ensures r ==> round >= 3
    ensures tag == Forgiving || tag == Adaptive ==> !r
    ensures round >= 5 && tag != Forgiving && tag != Adaptive ==> r
    ensures tag == AlwaysDef || tag == AlwaysCoop ==> (r <==> round >= 3)
    ensures tag == RandomPlay || tag == PatternPlay || tag == Reactive ==> (r <==> round >= 5)
  {
    var threshold := if tag == AlwaysDef || tag == AlwaysCoop then 3 else 5;
    var overridable := match tag
      case AlwaysDef | AlwaysCoop | RandomPlay | PatternPlay | Reactive => true
      case Forgiving | Adaptive => false;
    round >= threshold && overridable
  }

  /** Response to a predicted opponent move. */
  function PatternBasedCounter(predicted: Move, oppCoopRate: real, phaseThree: bool, round: nat): (m: Move)
    ensures predicted == Defect ==> (m == Cooperate <==> !phaseThree && round % 13 == 0)
    ensures predicted == Cooperate && !phaseThree ==> (m == Cooperate <==> oppCoopRate > 0.85 && round % 7 != 0)
    ensures predicted == Cooperate && phaseThree ==> (m == Cooperate <==> round % 9 == 0)
  {
    if predicted == Cooperate then
      if oppCoopRate > 0.85 && !phaseThree && round % 7 != 0 then Cooperate
      else if phaseThree && round % 9 == 0 then Cooperate
      else Defect
    else if !phaseThree && round % 13 == 0 then Cooperate
    else Defect
  }

  /** A near-uniform opponent: low bias and a low randomness indicator, only
      from round 60 on. */
  function IsRandomOpponent(round: nat, oppCoopRate: real, indicator: real): (r: bool)
    ensures round < 60 ==> !r
    ensures r ==> Abs(oppCoopRate - 0.5) < 0.12 && indicator < 0.28
    ensures round >= 60 && Abs(oppCoopRate - 0.5) < 0.07 && indicator < 0.28 ==> r
    ensures round > 200 && Abs(oppCoopRate - 0.5) < 0.12 && indicator < 0.2 ==> r
    ensures 60 <= round <= 200 ==> (r <==> Abs(oppCoopRate - 0.5) < 0.07 && indicator < 0.28)
    ensures round > 200 ==>
      (r <==> (Abs(oppCoopRate - 0.5) < 0.07 && indicator < 0.28) || (Abs(oppCoopRate - 0.5) < 0.12 && indicator < 0.2))
  {
    if round < 60 then false
    else
      var bias := Abs(oppCoopRate - 0.5);
      if bias < 0.07 && indicator < 0.28 then true
      else bias < 0.12 && indicator < 0.2 && round > 200
  }

  // ---------------------------------------------------------------------
  // Randomness indicator
  // ---------------------------------------------------------------------

  /** The randomness indicator of the last 60 opponent bits: 1.0 with fewer
      than 30 of them, otherwise the mean of the count imbalance and the
      distance of the change rate from one half. */
  function RandomnessOf(bits: seq<Bit>): (r: real)
    ensures 0.0 <= r <= 1.0
    ensures |Suffix(bits, 60)| >= 30 ==> r <= 0.75
    ensures |bits| < 30 ==> r == 1.0
  {
    var w := Suffix(bits, 60);
    if |w| < 30 then 1.0
    else
      var ones := Count(w, 1);
      var zeros := |w| - ones;
      var balance := Ratio(if ones >= zeros then ones - zeros else zeros - ones, |w|);
      ChangesBound(w);
      var changeRate := Ratio(Changes(w), |w| - 1);
      (Abs(changeRate - 0.5) + balance) / 2.0
  }

  /** A constant window of 30 to 60 bits (all COOPERATE or all DEFECT) has
      full imbalance and no changes, so it scores 0.75. */
  lemma RandomnessOfConstant(bits: seq<Bit>, b: Bit)
    requires 30 <= |bits| <= 60
    requires forall i :: 0 <= i < |bits| ==> bits[i] == b
    ensures RandomnessOf(bits) == 0.75
  {
    assert Suffix(bits, 60) == bits;
    CountBound(bits, b);
    CountBits(bits);
    ChangesBound(bits);
    var n := |bits|;
    var ones := Count(bits, 1);
    assert ones == n || ones == 0;
    var gap := if ones >= n - ones then ones - (n - ones) else (n - ones) - ones;
    assert gap == n;
    assert Ratio(gap, n) == 1.0;
    assert Ratio(Changes(bits), n - 1) == 0.0;
  }

  // ---------------------------------------------------------------------
  // Classification
  // ---------------------------------------------------------------------

  /** The arguments of the classifier. */
  datatype Evidence = Evidence(
    oppCoopRate: real, pcGivenC: real, pcGivenD: real, entropy: real,
    forgiveness: real, patternConfidence: real, totalRounds: int,
    cdRatio: real, dcRatio: real, coopSamples: int, defSamples: int,
    mirrorRatio: real, retaliated: bool)

  predicate AlwaysCoopTest(e: Evidence)
  {
    e.totalRounds >= 12 && e.oppCoopRate > 0.9 && e.cdRatio < 0.05 && e.defSamples >= 3 && !e.retaliated
  }

  predicate AlwaysDefTest(e: Evidence)
  {
    e.totalRounds >= 12 && e.oppCoopRate < 0.1 && e.dcRatio < 0.05 && e.pcGivenC < 0.4 && e.coopSamples >= 6
  }

  predicate RandomTest(e: Evidence)
  {
    e.entropy > 0.7 && Abs(e.oppCoopRate - 0.5) < 0.15 && e.patternConfidence < 0.6
  }

  predicate ReactiveTest(e: Evidence)
  {
    (e.mirrorRatio > 0.75 && e.totalRounds >= 8) || (Abs(e.pcGivenC - e.pcGivenD) > 0.3 && e.mirrorRatio > 0.6)
  }

  predicate PatternTest(e: Evidence) { e.patternConfidence > 0.6 }

  predicate ForgivingTest(e: Evidence) { e.forgiveness > 0.4 && e.oppCoopRate > 0.6 }

  /** First match wins, in the order always-cooperate, always-defect,
      random, reactive, pattern, forgiving; otherwise adaptive. */
  function ClassifyOpponent(e: Evidence): (t: Tag)
    ensures t == AlwaysCoop <==> AlwaysCoopTest(e)
    ensures t == AlwaysDef <==> !AlwaysCoopTest(e) && AlwaysDefTest(e)
    ensures t == RandomPlay <==> !AlwaysCoopTest(e) && !AlwaysDefTest(e) && RandomTest(e)
    ensures t == Reactive <==> !AlwaysCoopTest(e) && !AlwaysDefTest(e) && !RandomTest(e) && ReactiveTest(e)
    ensures t == PatternPlay <==> !AlwaysCoopTest(e) && !AlwaysDefTest(e) && !RandomTest(e) && !ReactiveTest(e) && PatternTest(e)
    ensures t == Forgiving <==> !AlwaysCoopTest(e) && !AlwaysDefTest(e) && !RandomTest(e) && !ReactiveTest(e) && !PatternTest(e) && ForgivingTest(e)
    ensures t == Adaptive <==> !AlwaysCoopTest(e) && !AlwaysDefTest(e) && !RandomTest(e) && !ReactiveTest(e) && !PatternTest(e) && !ForgivingTest(e)
    ensures t == Adaptive ==> !PatternTest(e) && !ForgivingTest(e) && !ReactiveTest(e)
  {
    var bias := Abs(e.oppCoopRate - 0.5);
    if e.totalRounds >= 12 && e.oppCoopRate > 0.9 && e.cdRatio < 0.05 && e.defSamples >= 3 && !e.retaliated then AlwaysCoop
    else if e.totalRounds >= 12 && e.oppCoopRate < 0.1 && e.dcRatio < 0.05 && e.pcGivenC < 0.4 && e.coopSamples >= 6 then AlwaysDef
    else if e.entropy > 0.7 && bias < 0.15 && e.patternConfidence < 0.6 then RandomPlay
    else if e.mirrorRatio > 0.75 && e.totalRounds >= 8 then Reactive
    else if Abs(e.pcGivenC - e.pcGivenD) > 0.3 && e.mirrorRatio > 0.6 then Reactive
    else if e.patternConfidence > 0.6 then PatternPlay
    else if e.forgiveness > 0.4 && e.oppCoopRate > 0.6 then Forgiving
    else Adaptive
  }

  /** The statistics `turn` gathers each round. */
  datatype Context = Context(
    oppCoopRate: real, pcGivenC: real, pcGivenD: real, entropy: real,
    forgiveness: real, patternPrediction: Option<Move>, tag: Tag,
    patternConfidence: real, totalRounds: nat, mirrorRatio: real, retaliated: bool)

  // ---------------------------------------------------------------------
  // Per-round bookkeeping
  // ---------------------------------------------------------------------

  /** The bookkeeping fields updated once per recorded round: the four
      transition counters, the mirrored-round count, the pair count and the
      retaliation flag. */
  datatype Tally = Tally(counts: Counts, mirrorCount: nat, totalPairs: nat, retaliated: bool)
  {
    /** Every recorded round is in exactly one counter; a mirrored round is
        a CC or a DD round; the flag is up exactly when a (COOPERATE, DEFECT)
        round has been recorded. */
    ghost predicate Valid()
    {
      && counts.cc + counts.cd + counts.dc + counts.dd == totalPairs
      && mirrorCount == counts.cc + counts.dd
      && (retaliated <==> counts.cd > 0)
    }

    function Record(my: Move, opp: Move): (t: Tally)
      ensures t.counts == counts.Record(my, opp)
      ensures t.totalPairs == totalPairs + 1
      ensures t.mirrorCount == mirrorCount + (if my == opp then 1 else 0)
      ensures t.retaliated == (retaliated || (my == Cooperate && opp == Defect))
      ensures Valid() ==> t.Valid()
    {
      var mirrored := if my == opp then 1 else 0;
      var provoked := my == Cooperate && opp == Defect;
      Tally(counts.Record(my, opp), mirrorCount + mirrored, totalPairs + 1, retaliated || provoked)
    }
  }

  function NoTally(): Tally { Tally(Counts(0, 0, 0, 0), 0, 0, false) }

  /** A stored pattern: the repeating window (empty when none), its
      confidence, and the pair count at which it was stored. The bot keeps
      no such count and never reads it; it is what the aligned prediction
      of `Patterns.PredictAligned` needs. */
  datatype PatternMemo = PatternMemo(sequence: seq<Bit>, confidence: real, storedAt: nat)
  {
    /** A pattern is held exactly while the confidence is at least 0.05. */
    ghost predicate Valid()
    {
      && 0.0 <= confidence <= 1.0
      && (sequence == [] <==> confidence < 0.05)
      && (sequence != [] ==> MinPatternLength <= |sequence| <= MaxPatternLength)
    }

    /** The `pattern_guess` field: a copy of the sequence, or None. */
    function Guess(): (g: Option<seq<Bit>>)
      ensures g.Some? <==> sequence != []
    {
      if sequence == [] then None else Some(sequence)
    }

    /** A search without a qualifying length: the confidence is multiplied
        by 0.85 and the pattern dropped once it is below 0.05 (the
        confidence itself keeps its decayed value). */
    function Fade(): (r: PatternMemo)
      requires Valid()
      ensures r.Valid()
      ensures r.confidence == confidence * 0.85 && r.storedAt == storedAt
      ensures r.sequence == [] <==> r.confidence < 0.05
      ensures r.sequence != [] ==> r.sequence == sequence
    {
      var c := confidence * 0.85;
      if c < 0.05 then PatternMemo([], c, storedAt) else PatternMemo(sequence, c, storedAt)
    }
  }

  function NoPattern(): PatternMemo { PatternMemo([], 0.0, 0) }

  /** The pattern after one search of the opponent bits `h` at pair count
      `now`: the smallest repeating length's window, stored with confidence
      exactly 1.0, or the old pattern faded. */
  function Searched(h: seq<Bit>, memo: PatternMemo, now: nat): (r: PatternMemo)
    requires memo.Valid()
    ensures r.Valid()
    ensures memo.storedAt <= now ==> r.storedAt <= now
    ensures var found := Patterns.FirstRepeat(h, MinPatternLength, MaxPatternLength, PatternThreshold);
      && (found.Some? ==> r == PatternMemo(Patterns.Recent(h, found.value), 1.0, now) && Patterns.Repeats(h, found.value))
      && (found.None? ==> r == memo.Fade())
  {
    match Patterns.FirstRepeat(h, MinPatternLength, MaxPatternLength, PatternThreshold)
    case Some(L) =>
      DetectionIsExact(h, L);
      PatternMemo(Patterns.Recent(h, L), Patterns.Corr(h, L), now)
    case None => memo.Fade()
  }

  /** Applying `k` fruitless searches. */
  function FadeTimes(memo: PatternMemo, k: nat): (r: PatternMemo)
    requires memo.Valid()
    ensures r.Valid()
  {
    if k == 0 then memo else FadeTimes(memo, k - 1).Fade()
  }

  /** The confidence after `k` fruitless searches: `conf * 0.85^k`. */
  function ConfidenceAfter(conf: real, k: nat): real
  {
    if k == 0 then conf else ConfidenceAfter(conf, k - 1) * 0.85
  }

  /** After `k` fruitless searches the confidence is `conf * 0.85^k`, and
      the pattern is still held exactly while that is at least 0.05. */
  lemma {:induction false} FadeTimesHolds(m: PatternMemo, k: nat)
    requires m.Valid() && m.sequence != []
    ensures FadeTimes(m, k).confidence == ConfidenceAfter(m.confidence, k)
    ensures FadeTimes(m, k).storedAt == m.storedAt
    ensures FadeTimes(m, k).sequence == if ConfidenceAfter(m.confidence, k) < 0.05 then [] else m.sequence
  {
    if k > 0 {
      FadeTimesHolds(m, k - 1);
    }
  }

  /** Normalise the last history entry; with no history the previous
      moves (`last`, `lastOpp`) are kept. */
  function LastRound(history: seq<RawEntry>, last: Option<Move>, lastOpp: Option<Move>): (r: (Option<Move>, Option<Move>))
    ensures history == [] ==> r == (last, lastOpp)
    ensures history != [] ==> r.0 == ExtractMove(history[|history| - 1], true) && r.1 == ExtractMove(history[|history| - 1], false)
    ensures history != [] && history[|history| - 1].OtherEntry? ==> r == (None, None)
  {
    if history == [] then (last, lastOpp)
    else
      var entry := history[|history| - 1];
      (ExtractMove(entry, true), ExtractMove(entry, false))
  }

  /** A last entry written in any recognised shape, as a record or as a
      pair, is read back as the two moves it holds, whatever came before. */
  lemma LastRoundReadsBack(history: seq<RawEntry>, a: Move, b: Move, sa: Shape, sb: Shape,
                           last: Option<Move>, lastOpp: Option<Move>)
    ensures LastRound(history + [Record(Encode(a, sa), Encode(b, sb))], last, lastOpp) == (Some(a), Some(b))
    ensures LastRound(history + [Tuple([Encode(a, sa), Encode(b, sb)])], last, lastOpp) == (Some(a), Some(b))
  {
    ExtractRoundTrip(a, b, sa, sb);
  }

  /** A freshly detected pattern keeps the 0.5 prediction threshold for four
      fruitless searches and loses it at the fifth; the pattern itself is
      held for eighteen and dropped at the nineteenth. */
  lemma PatternLifetime(s: seq<Bit>, at: nat)
    requires MinPatternLength <= |s| <= MaxPatternLength
    ensures var m := PatternMemo(s, 1.0, at);
      && FadeTimes(m, 4).confidence >= 0.5 && FadeTimes(m, 5).confidence < 0.5
      && FadeTimes(m, 18).sequence == s && FadeTimes(m, 19).sequence == []
  {
    var m := PatternMemo(s, 1.0, at);
    FadeTimesHolds(m, 4);
    FadeTimesHolds(m, 5);
    FadeTimesHolds(m, 18);
    FadeTimesHolds(m, 19);
  }

  // ---------------------------------------------------------------------
  // The bot's per-match state
  // ---------------------------------------------------------------------

  class Bot {
    var round: nat
    var phase: PhaseNumber
    var lastMove: Option<Move>
    var lastOppMove: Option<Move>
    var tally: Tally
    var openingMode: Mode
    var openingIndex: nat
    var oppHistoryBits: seq<Bit>
    var myHistoryBits: seq<Bit>
    var pattern: PatternMemo

    ghost predicate Valid()
      reads this
    {
      && tally.Valid()
      && pattern.Valid() && pattern.storedAt <= tally.totalPairs
      && |oppHistoryBits| == |myHistoryBits| == Min(tally.totalPairs, HistoryCap)
    }

    constructor ()
      ensures Valid()
      ensures round == 0 && lastMove == None && lastOppMove == None
      ensures tally == NoTally() && pattern == NoPattern()
      ensures oppHistoryBits == [] && myHistoryBits == []
    {
      round, phase := 0, 1;
      lastMove, lastOppMove := None, None;
      tally := NoTally();
      openingMode, openingIndex := 0, 0;
      oppHistoryBits, myHistoryBits := [], [];
      pattern := NoPattern();
    }

    /** Reset for a new match. The two random bits pick the opening mode;
        the first scripted move is COOPERATE. */
    method Begin(bit1: Bit, bit2: Bit) returns (first: Move)
      modifies this
      ensures Valid()
      ensures first == Cooperate && lastMove == Some(first) && lastOppMove == None
      ensures round == 0 && phase == 1 && openingMode == ModeOf(bit1, bit2) && openingIndex == 1
      ensures tally == NoTally() && pattern == NoPattern()
      ensures oppHistoryBits == [] && myHistoryBits == []
    {
      round, phase := 0, 1;
      lastOppMove := None;
      tally := NoTally();
      openingMode := ModeOf(bit1, bit2);
      oppHistoryBits, myHistoryBits := [], [];
      pattern := NoPattern();
      first := OpeningMove(0, openingMode, 0);
      openingIndex := 1;
      lastMove := Some(first);
    }

    /** Count one recorded round, append both bits (each buffer evicting its
        oldest entry beyond 600) and search the opponent bits for a pattern. */
    method UpdateTransitions(my: Move, opp: Move)
      requires Valid()
      modifies this`tally, this`oppHistoryBits, this`myHistoryBits, this`pattern
      ensures Valid()
      ensures tally == old(tally).Record(my, opp)
      ensures oppHistoryBits == Push(old(oppHistoryBits), BitOf(opp), HistoryCap)
      ensures myHistoryBits == Push(old(myHistoryBits), BitOf(my), HistoryCap)
      ensures pattern == Searched(oppHistoryBits, old(pattern), tally.totalPairs)
    {
      tally := tally.Record(my, opp);
      oppHistoryBits := Push(oppHistoryBits, BitOf(opp), HistoryCap);
      myHistoryBits := Push(myHistoryBits, BitOf(my), HistoryCap);
      UpdatePatternGuess();
    }

    /** The search loop over lengths 2..6, stopping at the first length
        whose match fraction reaches 0.9. */
    method UpdatePatternGuess()
      requires tally.Valid() && pattern.Valid()
      modifies this`pattern
      ensures pattern.Valid() && (old(pattern.storedAt) <= tally.totalPairs ==> pattern.storedAt <= tally.totalPairs)
      ensures pattern == Searched(oppHistoryBits, old(pattern), tally.totalPairs)
    {
      var history := oppHistoryBits;
      var length := MinPatternLength;
      while length <= MaxPatternLength
        invariant MinPatternLength <= length <= MaxPatternLength + 1
        invariant Patterns.FirstRepeat(history, MinPatternLength, MaxPatternLength, PatternThreshold)
               == Patterns.FirstRepeat(history, length, MaxPatternLength, PatternThreshold)
      {
        if |history| >= 2 * length {
          var correlation := Patterns.Corr(history, length);
          if correlation >= PatternThreshold {
            pattern := PatternMemo(Patterns.Recent(history, length), correlation, tally.totalPairs);
            return;
          }
        }
        length := length + 1;
      }
      pattern := pattern.Fade();
    }

    /** The randomness indicator, computed with the source's counting loop. */
    method RandomnessIndicator() returns (r: real)
      ensures r == RandomnessOf(oppHistoryBits)
    {
      var window := Suffix(oppHistoryBits, 60);
      if |window| < 30 {
        return 1.0;
      }
      var ones := Count(window, 1);
      var zeros := |window| - ones;
      var balance := Ratio(if ones >= zeros then ones - zeros else zeros - ones, |window|);
      var transitions := 0;
      var changes := 0;
      var i := 1;
      while i < |window|
        invariant 1 <= i <= |window|
        invariant transitions == i - 1
        invariant changes == Changes(window[..i])
      {
        assert window[..i + 1][..i] == window[..i];
        transitions := transitions + 1;
        if window[i] != window[i - 1] {
          changes := changes + 1;
        }
        i := i + 1;
      }
      assert window[..i] == window;
      ChangesBound(window);
      var changeRate := Ratio(changes, Max(1, transitions));
      r := (Abs(changeRate - 0.5) + balance) / 2.0;
    }

    /** The first half of `turn`: count the round and record the last
        entry when both of its moves can be read. */
    method RecordLastRound(history: seq<RawEntry>)
      requires Valid()
      modifies this`round, this`lastMove, this`lastOppMove
      modifies this`tally, this`oppHistoryBits, this`myHistoryBits, this`pattern
      ensures Valid()
      ensures round == old(round) + 1
      ensures var r := LastRound(history, old(lastMove), old(lastOppMove));
        if r.0.Some? && r.1.Some? then
          && tally == old(tally).Record(r.0.value, r.1.value)
          && oppHistoryBits == Push(old(oppHistoryBits), BitOf(r.1.value), HistoryCap)
          && myHistoryBits == Push(old(myHistoryBits), BitOf(r.0.value), HistoryCap)
          && pattern == Searched(oppHistoryBits, old(pattern), tally.totalPairs)
          && lastMove == r.0 && lastOppMove == r.1
        else
          && tally == old(tally) && pattern == old(pattern)
          && oppHistoryBits == old(oppHistoryBits) && myHistoryBits == old(myHistoryBits)
          && lastMove == old(lastMove) && lastOppMove == old(lastOppMove)
    {
      var r := LastRound(history, lastMove, lastOppMove);
      var my, opp := r.0, r.1;
      round := round + 1;
      if my.Some? && opp.Some? {
        lastMove, lastOppMove := my, opp;
        UpdateTransitions(my.value, opp.value);
      }
    }

    /** The second half of `turn`: select the phase and, in the opening
        phase, either play the script (with an extra DEFECT on every seventh
        round from round 7 while unprovoked) or hand over to the adaptive
        policy. `byte` is the random byte the mode-2 script consumes;
        `adaptiveMove` is the move the adaptive policy returns. */
    method ChooseMove(byte: nat, adaptiveMove: Move) returns (move: Move)
      requires Valid()
      modifies this`phase, this`openingIndex, this`lastMove
      ensures Valid()
      ensures phase == PhaseOf(round) && lastMove == Some(move)
      ensures var tag := GatherContext(tally, pattern, oppHistoryBits).tag;
        if Scripted?(phase, round, tag) then
          && openingIndex == old(openingIndex) + 1
          && move == (if !tally.retaliated && round >= 7 && round % 7 == 0 then Defect
                      else OpeningMove(old(openingIndex), openingMode, byte))
        else move == adaptiveMove && openingIndex == old(openingIndex)
    {
      phase := PhaseOf(round);
      var context := GatherContext(tally, pattern, oppHistoryBits);
      if phase == 1 && !PhaseOneOverride(round, context.tag) {
        move := OpeningMove(openingIndex, openingMode, byte);
        if !context.retaliated && round >= 7 && round % 7 == 0 {
          move := Defect;
        }
        openingIndex := openingIndex + 1;
      } else {
        move := adaptiveMove;
      }
      lastMove := Some(move);
    }

    /** One call of `turn` up to the move. */
    method Turn(history: seq<RawEntry>, byte: nat, adaptiveMove: Move) returns (move: Move)
      requires Valid()
      modifies this
      ensures Valid()
      ensures round == old(round) + 1 && phase == PhaseOf(round) && lastMove == Some(move)
      ensures openingMode == old(openingMode)
      ensures var (my, opp) := LastRound(history, old(lastMove), old(lastOppMove));
        if my.Some? && opp.Some? then
          && tally == old(tally).Record(my.value, opp.value) && lastOppMove == opp
          && oppHistoryBits == Push(old(oppHistoryBits), BitOf(opp.value), HistoryCap)
          && myHistoryBits == Push(old(myHistoryBits), BitOf(my.value), HistoryCap)
          && pattern == Searched(oppHistoryBits, old(pattern), tally.totalPairs)
        else
          && tally == old(tally) && lastOppMove == old(lastOppMove) && pattern == old(pattern)
          && oppHistoryBits == old(oppHistoryBits) && myHistoryBits == old(myHistoryBits)
      ensures var tag := GatherContext(tally, pattern, oppHistoryBits).tag;
        if Scripted?(phase, round, tag) then
          && openingIndex == old(openingIndex) + 1
          && move == (if !tally.retaliated && round >= 7 && round % 7 == 0 then Defect
                      else OpeningMove(old(openingIndex), openingMode, byte))
        else move == adaptiveMove && openingIndex == old(openingIndex)
    {
      RecordLastRound(history);
      move := ChooseMove(byte, adaptiveMove);
    }
  }

  /** The opponent's predicted next move on an opponent buffer of `n`
      bits: None without a pattern or with confidence below 0.5, otherwise
      the stored window indexed by the buffer length, as the bot computes
      it. */
  function PredictPatternMove(memo: PatternMemo, n: nat): (r: Option<Move>)
    requires memo.Valid()
    ensures r.None? <==> memo.sequence == [] || memo.confidence < 0.5
    ensures r.Some? ==> BitOf(r.value) in memo.sequence
    ensures r.Some? ==> r.value == MoveOfBit(Patterns.PredictAsWritten(memo.sequence, n))
  {
    // `pattern_sequence or pattern_guess`: the guess is a copy of the
    // sequence, so the fallback never yields anything else
    var sequence := memo.sequence;
    if sequence == [] || memo.confidence < 0.5 then None
    else Some(MoveOfBit(Patterns.PredictAsWritten(sequence, n)))
  }

  /** The classifier's arguments, computed from the bookkeeping. */
  function EvidenceOf(t: Tally, memo: PatternMemo, bits: seq<Bit>): (e: Evidence)
    requires t.Valid()
    ensures e.totalRounds == Max(1, t.totalPairs) && e.retaliated == t.retaliated
    ensures e.coopSamples == t.counts.cc + t.counts.cd && e.defSamples == t.counts.dc + t.counts.dd
    ensures 0.0 <= e.oppCoopRate <= 1.0 && 0.0 <= e.cdRatio <= 1.0 && 0.0 <= e.dcRatio <= 1.0
    ensures e.cdRatio == 0.0 <==> t.counts.cd == 0
    ensures t.totalPairs > 0 ==> e.oppCoopRate == Ratio(t.counts.cc + t.counts.dc, t.totalPairs)
    ensures e.entropy == RandomnessOf(bits) && e.patternConfidence == memo.confidence
  {
    var c := t.counts;
    var total := Max(1, c.cc + c.cd + c.dc + c.dd);
    var pcGivenD := Ratio(c.dc, Max(1, c.dc + c.dd));
    Evidence(Ratio(c.cc + c.dc, total), Ratio(c.cc, Max(1, c.cc + c.cd)), pcGivenD,
             RandomnessOf(bits), pcGivenD, memo.confidence, total,
             Ratio(c.cd, total), Ratio(c.dc, total), c.cc + c.cd, c.dc + c.dd,
             Ratio(t.mirrorCount, Max(1, t.totalPairs)), t.retaliated)
  }

  /** The statistics of the recorded rounds, with the classifier's tag. */
  function GatherContext(t: Tally, memo: PatternMemo, bits: seq<Bit>): (c: Context)
    requires t.Valid() && memo.Valid()
    ensures var e := EvidenceOf(t, memo, bits);
      && c.oppCoopRate == e.oppCoopRate && c.pcGivenC == e.pcGivenC && c.pcGivenD == e.pcGivenD
      && c.entropy == e.entropy && c.forgiveness == c.pcGivenD && c.totalRounds == e.totalRounds
      && c.mirrorRatio == e.mirrorRatio && c.retaliated == t.retaliated
      && c.tag == ClassifyOpponent(e)
    ensures c.patternConfidence == memo.confidence && c.patternPrediction == PredictPatternMove(memo, |bits|)
  {
    var e := EvidenceOf(t, memo, bits);
    Context(e.oppCoopRate, e.pcGivenC, e.pcGivenD, e.entropy, e.forgiveness,
            PredictPatternMove(memo, |bits|), ClassifyOpponent(e), memo.confidence,
            e.totalRounds, e.mirrorRatio, e.retaliated)
  }

  /** The opening script plays exactly in the opening phase when the tag
      does not cut it short. */
  predicate Scripted?(phase: nat, round: nat, tag: Tag)
  {
    phase == 1 && !PhaseOneOverride(round, tag)
  }

  /** With lengths up to 6 the 0.9 threshold admits no mismatch: a
      detected pattern is an exact repeat with confidence 1.0. */
  lemma DetectionIsExact(h: seq<Bit>, L: nat)
    requires MinPatternLength <= L <= MaxPatternLength && Patterns.Qualifies(h, L, PatternThreshold)
    ensures Patterns.Repeats(h, L) && Patterns.Corr(h, L) == 1.0
  {
    Patterns.QualifiesIsExact(h, L, MaxPatternLength, PatternThreshold);
  }

  /** The extreme tags need at least 12 recorded rounds; always-cooperate
      also needs that the opponent never defected against a cooperation and
      that this bot defected at least three times; always-defect needs at
      least six of this bot's cooperations. */
  lemma ExtremeTagsNeedEvidence(t: Tally, memo: PatternMemo, bits: seq<Bit>)
    requires t.Valid()
    ensures var tag := ClassifyOpponent(EvidenceOf(t, memo, bits));
      && (tag == AlwaysCoop ==> t.totalPairs >= 12 && t.counts.cd == 0 && t.counts.dc + t.counts.dd >= 3)
      && (tag == AlwaysDef ==> t.totalPairs >= 12 && t.counts.cc + t.counts.cd >= 6)
  {
  }
}
