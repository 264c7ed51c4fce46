/** Arhaan's adaptive bot. Every turn it counts the opponent's move, feeds
    three 24-entry windows (opponent moves, own moves, exploit marks), tags
    the opponent from its first five moves, re-tags it every eighth round
    from the windows, and then answers through an endgame policy, the tags,
    and a generous tit-for-two-tats fallback. A small random flip may invert
    the chosen move. */
module Arhaan {
  import opened Game

  const Cap: nat := 24
  const RecheckInterval: nat := 8
  const OpeningRounds: nat := 5
  const TotalRoundsKnown: int := 999
  const EndgameSoftStart: int := 12
  const EndgameHardStart: int := 6

  // ---------------------------------------------------------------------
  // Counters

  /** `opponent_defections`, `opponent_cooperations`,
      `consecutive_opponent_defections`, `max_consecutive_defections`. */
  datatype Tally = Tally(defections: nat, cooperations: nat, run: nat, longestRun: nat)
  {
    /** Count one opponent move. */
    function Record(opp: Move): (r: Tally)
      ensures r.defections + r.cooperations == defections + cooperations + 1
      ensures opp == Defect ==> r.defections == defections + 1 && r.cooperations == cooperations && r.run == run + 1
      ensures opp == Cooperate ==> r.cooperations == cooperations + 1 && r.defections == defections && r.run == 0
      ensures run <= longestRun ==> r.run <= r.longestRun
    {
      if opp == Defect then
        var c := run + 1;
        Tally(defections + 1, cooperations, c, if longestRun < c then c else longestRun)
      else Tally(defections, cooperations + 1, 0, longestRun)
    }
  }

  // ---------------------------------------------------------------------
  // Windows

  /** 1 when the opponent defected while this bot cooperated. */
  function Mark(r: Round): (b: Bit)
    ensures b == 1 <==> r.other == Defect && r.own == Cooperate
  {
    if r.other == Defect && r.own == Cooperate then 1 else 0
  }

  function Marks(h: seq<Round>): (r: seq<Bit>)
    ensures |r| == |h|
    ensures forall i :: 0 <= i < |h| ==> r[i] == Mark(h[i])
  {
    seq(|h|, i requires 0 <= i < |h| => Mark(h[i]))
  }

  /** The deques `window`, `my_window` and `exploit_marks`. */
  datatype Windows = Windows(opp: seq<Move>, mine: seq<Move>, marks: seq<Bit>)
  {
    ghost predicate Valid()
    {
      |opp| <= Cap && |mine| <= Cap && |marks| <= Cap
    }

    /** Append one round to the three deques. */
    function Record(r: Round): (w: Windows)
      requires Valid()
      ensures w.Valid()
    {
      Windows(Push(opp, r.other, Cap), Push(mine, r.own, Cap), Push(marks, Mark(r), Cap))
    }
  }

  /** What the bot keeps of the rounds it has seen: the counters and the
      three deques. */
  datatype Memory = Memory(tally: Tally, windows: Windows)
  {
    ghost predicate Valid()
    {
      windows.Valid()
    }

    /** The bookkeeping at the top of `turn` for the last round. */
    function Record(r: Round): (m: Memory)
      requires Valid()
      ensures m.Valid()
    {
      Memory(tally.Record(r.other), windows.Record(r))
    }
  }

  function Empty(): (m: Memory)
    ensures m.Valid()
  {
    Memory(Tally(0, 0, 0, 0), Windows([], [], []))
  }

  /** The memory after the rounds `h`, from the empty state `begin` leaves. */
  function MemoryOf(h: seq<Round>): (m: Memory)
    ensures m.Valid()
  {
    if h == [] then Empty()
    else MemoryOf(h[..|h| - 1]).Record(h[|h| - 1])
  }

  lemma RecordStep(h: seq<Round>, r: Round)
    ensures MemoryOf(h + [r]) == MemoryOf(h).Record(r)
  {
    assert (h + [r])[..|h|] == h;
  }

  /** The last round of a non-empty history, split off. */
  lemma Snoc(h: seq<Round>)
    requires h != []
    ensures Others(h) == Others(h[..|h| - 1]) + [h[|h| - 1].other]
    ensures Owns(h) == Owns(h[..|h| - 1]) + [h[|h| - 1].own]
    ensures Marks(h) == Marks(h[..|h| - 1]) + [Mark(h[|h| - 1])]
  {
  }

  /** Every recorded round bumps exactly one of the two counters, so they
      count the opponent's defections and cooperations. */
  lemma {:induction false} TallyCounts(h: seq<Round>)
    ensures MemoryOf(h).tally.defections == Count(Others(h), Defect)
    ensures MemoryOf(h).tally.cooperations == Count(Others(h), Cooperate)
  {
    if h != [] {
      TallyCounts(h[..|h| - 1]);
      Snoc(h);
      var o := Others(h);
      assert o[..|o| - 1] == Others(h[..|h| - 1]);
    }
  }

  /** The current streak is the trailing run of the opponent's
      defections. */
  lemma {:induction false} TallyStreak(h: seq<Round>)
    ensures MemoryOf(h).tally.run == TrailingRun(Others(h), Defect)
  {
    if h != [] {
      var p, r := h[..|h| - 1], h[|h| - 1];
      TallyStreak(p);
      Snoc(h);
      var o := Others(h);
      assert o[..|o| - 1] == Others(p) && o[|o| - 1] == r.other;
      assert MemoryOf(h).tally == MemoryOf(p).tally.Record(r.other);
      if r.other == Defect {
        assert TrailingRun(o, Defect) == TrailingRun(Others(p), Defect) + 1;
      } else {
        assert TrailingRun(o, Defect) == 0;
      }
    }
  }

  /** `max_consecutive_defections` is never below
      `consecutive_opponent_defections`. */
  lemma {:induction false} TallyLongest(h: seq<Round>)
    ensures MemoryOf(h).tally.run <= MemoryOf(h).tally.longestRun
  {
    if h != [] {
      TallyLongest(h[..|h| - 1]);
    }
  }

  /** The deques hold the last 24 opponent moves, own moves and exploit
      marks of everything recorded. */
  lemma {:induction false} WindowsSuffix(h: seq<Round>)
    ensures MemoryOf(h).windows.opp == Suffix(Others(h), Cap)
    ensures MemoryOf(h).windows.mine == Suffix(Owns(h), Cap)
    ensures MemoryOf(h).windows.marks == Suffix(Marks(h), Cap)
  {
    if h != [] {
      var p, r := h[..|h| - 1], h[|h| - 1];
      WindowsSuffix(p);
      Snoc(h);
      PushSuffix(Others(p), r.other, Cap);
      PushSuffix(Owns(p), r.own, Cap);
      PushSuffix(Marks(p), Mark(r), Cap);
    }
  }

  /** The opponent's window never holds more defections than were counted. */
  lemma WindowDefectionsCounted(h: seq<Round>)
    ensures Count(MemoryOf(h).windows.opp, Defect) <= MemoryOf(h).tally.defections
  {
    var o := Others(h);
    var w := Suffix(o, Cap);
    assert o == o[..|o| - |w|] + w;
    CountAppend(o[..|o| - |w|], w, Defect);
    TallyCounts(h);
    WindowsSuffix(h);
  }

  // ---------------------------------------------------------------------
  // Scores

  /** `_tft_score`: over the last L = min(len) entries of both windows, the
      fraction of steps at which the opponent echoed this bot's move of the
      step before; 0.0 with fewer than two entries. */
  function TftScore(w: Windows): (s: real)
    ensures 0.0 <= s <= 1.0
    ensures Min(|w.opp|, |w.mine|) < 2 ==> s == 0.0
  {
    var L := Min(|w.opp|, |w.mine|);
    if L < 2 then 0.0
    else Ratio(Echoes(w.opp[|w.opp| - L..], w.mine[|w.mine| - L..]), L - 1)
  }

  /** A score of 1.0 means the opponent echoed this bot's previous move at
      every step of the windows. */
  lemma TftScoreOne(w: Windows)
    requires |w.opp| == |w.mine| >= 2
    ensures TftScore(w) == 1.0 <==> forall k :: 1 <= k < |w.opp| ==> w.opp[k] == w.mine[k - 1]
  {
    assert w.opp[0..] == w.opp && w.mine[0..] == w.mine;
    EchoesAll(w.opp, w.mine);
  }

  /** Number of positions `i` in 2..|s|-1 with `s[i] == s[i - 2]`. */
  function LagTwo(s: seq<Move>): (c: nat)
    ensures |s| >= 2 ==> c <= |s| - 2
  {
    if |s| < 3 then 0
    else LagTwo(s[..|s| - 1]) + (if s[|s| - 1] == s[|s| - 3] then 1 else 0)
  }

  lemma {:induction false} LagTwoAll(s: seq<Move>)
    requires |s| >= 2
    ensures LagTwo(s) == |s| - 2 <==> forall i :: 2 <= i < |s| ==> s[i] == s[i - 2]
  {
    if |s| >= 3 {
      LagTwoAll(s[..|s| - 1]);
      assert forall i :: 0 <= i < |s| - 1 ==> s[..|s| - 1][i] == s[i];
    }
  }

  /** `_alternator_score`: the fraction of positions repeating the move two
      earlier; 0.0 with fewer than eight entries. */
  function AlternatorScore(s: seq<Move>): (r: real)
    ensures 0.0 <= r <= 1.0
    ensures |s| < 8 ==> r == 0.0
  {
    if |s| < 8 then 0.0 else Ratio(LagTwo(s), |s| - 2)
  }

  /** A score of 1.0 means the window repeats with period two. */
  lemma AlternatorScoreOne(s: seq<Move>)
    requires |s| >= 8
    ensures AlternatorScore(s) == 1.0 <==> forall i :: 2 <= i < |s| ==> s[i] == s[i - 2]
  {
    LagTwoAll(s);
  }

  predicate LastTwoDefected(s: seq<Move>)
  {
    |s| >= 2 && s[|s| - 1] == Defect && s[|s| - 2] == Defect
  }

  /** The cooperation rate of a window, 1.0 when it is empty. */
  function WindowRate(s: seq<Move>): (r: real)
    ensures 0.0 <= r <= 1.0
  {
    if s == [] then 1.0 else Ratio(Count(s, Cooperate), |s|)
  }

  // ---------------------------------------------------------------------
  // Tags

  /** The tag fields and the two mode fields that shadow them. */
  datatype Flags = Flags(sucker: bool, bully: bool, titForTat: bool, alternator: bool, exploitation: bool, defense: bool)
  {
    /** `defense_mode` always equals `is_bully` and `exploitation_mode`
        always equals `is_sucker`. */
    predicate Paired()
    {
      defense == bully && exploitation == sucker
    }

    /** At most one tag, in the priority bully, sucker, tit-for-tat,
        alternator. */
    predicate Exclusive()
    {
      (bully ==> !sucker && !titForTat && !alternator)
      && (sucker ==> !titForTat && !alternator)
      && (titForTat ==> !alternator)
    }
  }

  function NoFlags(): (f: Flags)
    ensures f.Paired() && f.Exclusive()
  {
    Flags(false, false, false, false, false, false)
  }

  /** `_classify_and_respond` for the opening turns 1..5: the move and the
      tags afterwards. A tag is only ever set here, never cleared. */
  function Opening(t: nat, f: Flags, tally: Tally, w: Windows, last: Round): (r: (Move, Flags))
    requires f.Paired()
    ensures r.1.Paired()
    ensures t == 1 ==> r == (Cooperate, f)
    ensures (f.bully ==> r.1.bully) && (f.sucker ==> r.1.sucker) && (f.titForTat ==> r.1.titForTat) && (f.alternator ==> r.1.alternator)
    ensures t == 2 && tally.defections == 2 ==> r.0 == Defect && r.1.bully
    ensures 4 <= t <= 5 && tally.defections >= 4 ==> r.0 == Defect && r.1.bully
    ensures t == 3 && f.bully ==> r.0 == Defect
    ensures r.0 == Defect ==> r.1.bully || r.1.sucker || (t == 2 && tally.cooperations == 2 && tally.defections != 0)
  {
    if t == 1 then (Cooperate, f)
    else if t == 2 then
      if tally.defections == 2 then (Defect, f.(bully := true, defense := true))
      else if tally.cooperations == 2 then
        (if tally.defections == 0 then Cooperate else Defect, f)
      else (Cooperate, f)
    else if t == 3 then
      if f.bully then (Defect, f)
      else if last.own == Defect && last.other == Cooperate then
        if tally.defections == 0 && t >= 3 then (Cooperate, f)
        else (Defect, f.(sucker := true, exploitation := true))
      else (Cooperate, f)
    else if t == 4 || t == 5 then
      if tally.defections >= 4 then (Defect, f.(bully := true, defense := true))
      else if f.sucker && last.other == Cooperate then
        (if tally.defections == 0 && t >= 5 then Cooperate else Defect, f)
      else if AlternatorScore(w.opp) >= 0.92 then (Cooperate, f.(alternator := true))
      else if TftScore(w) >= 0.85 then (Cooperate, f.(titForTat := true))
      else (Cooperate, f)
    else (Cooperate, f)
  }

  /** The shift test of `_soft_reclassify`: with at least 14 entries, the
      earlier part of the window cooperated at 0.8 or more, the last seven
      at 0.4 or less, and the opponent has defected at least twice. */
  predicate Shifted(s: seq<Move>, defections: nat)
  {
    |s| >= 14
    && Ratio(Count(s[..|s| - 7], Cooperate), |s| - 7) >= 0.8
    && Ratio(Count(s[|s| - 7..], Cooperate), 7) <= 0.4
    && defections >= 2
  }

  /** A shift leaves at most two cooperations in the last seven entries,
      so a window of at most 24 entries cannot also cooperate at 0.97. */
  lemma ShiftedIsNotSucker(s: seq<Move>, defections: nat)
    requires |s| <= Cap && Shifted(s, defections)
    ensures WindowRate(s) < 0.97
  {
    var n := |s|;
    var prev, last := s[..n - 7], s[n - 7..];
    assert s == prev + last;
    CountAppend(prev, last, Cooperate);
    AtMostTwoOfSeven(Count(last, Cooperate));
    RateBelowSucker(Count(s, Cooperate), n);
  }

  lemma AtMostTwoOfSeven(c: nat)
    requires c <= 7 && Ratio(c, 7) <= 0.4
    ensures c <= 2
  {
  }

  lemma RateBelowSucker(c: nat, n: nat)
    requires 1 <= n <= Cap && c + 5 <= n
    ensures c as real / n as real < 0.97
  {
    var x := c as real / n as real;
    assert x * n as real == c as real;
    assert c as real <= n as real - 5.0;
    assert 0.97 * n as real > n as real - 5.0;
    if x >= 0.97 {
      assert false;
    }
  }

  /** `_soft_reclassify`: recompute the tags from the windows, let a shift
      from cooperation to defection force the bully tag, and clear the
      lower-priority tags. */
  function Reclassify(w: Windows, historyLen: nat, defections: nat): (f: Flags)
    requires w.Valid()
    ensures f.Paired() && f.Exclusive()
    ensures f.bully <==> WindowRate(w.opp) <= 0.10 || Shifted(w.opp, defections)
    ensures f.sucker <==> WindowRate(w.opp) >= 0.97 && !f.bully
    ensures f.titForTat <==> historyLen >= 6 && TftScore(w) >= 0.87 && !f.bully && !f.sucker
    ensures f.alternator <==> AlternatorScore(w.opp) >= 0.92 && !f.bully && !f.sucker && !f.titForTat
  {
    var rate := WindowRate(w.opp);
    var bully := rate <= 0.10;
    var sucker := rate >= 0.97;
    var tft := historyLen >= 6 && TftScore(w) >= 0.87;
    var alternator := AlternatorScore(w.opp) >= 0.92;
    if Shifted(w.opp, defections) then
      ShiftedIsNotSucker(w.opp, defections);
      Flags(false, true, false, false, sucker, true)
    else if bully then Flags(false, true, false, false, sucker, true)
    else if sucker then Flags(true, false, false, false, true, false)
    else if tft then Flags(false, false, true, false, false, false)
    else Flags(false, false, false, alternator, false, false)
  }

  // ---------------------------------------------------------------------
  // Policies

  /** `_endgame_policy`, with `remaining` rounds left by the bot's fixed
      horizon: a forced move, or None to fall through. */
  function Endgame(opp: seq<Move>, defections: nat, titForTat: bool, remaining: int): (r: Option<Move>)
    ensures r != Some(Cooperate)
    ensures remaining == 1 ==> r == Some(Defect)
    ensures defections == 0 && remaining > 1 ==> r == None
    ensures defections > 0 && remaining <= EndgameSoftStart && WindowRate(opp) < 0.9 ==> r == Some(Defect)
  {
    var rate := WindowRate(opp);
    if defections == 0 && remaining > 1 then None
    else if defections == 0 && remaining == 1 then Some(Defect)
    else if remaining <= EndgameHardStart && rate < 0.9 then Some(Defect)
    else if rate >= 0.9 then
      if remaining <= 2 && !titForTat then Some(Defect)
      else if remaining == 1 then Some(Defect)
      else None
    else if remaining <= EndgameSoftStart then
      if defections > 0 then Some(Defect) else None
    else None
  }

  /** The move of `_generous_tit_for_two_tats`: DEFECT after two opponent
      defections in a row; after a single defection DEFECT when the exploit
      marks reach two or the defection ratio reaches the threshold; after a
      cooperation (or on an empty window) COOPERATE. */
  function TwoTats(w: Windows, tally: Tally, variation: real): (m: Move)
    ensures LastTwoDefected(w.opp) ==> m == Defect
    ensures (w.opp == [] || w.opp[|w.opp| - 1] == Cooperate) ==> m == Cooperate
    ensures w.opp != [] && w.opp[|w.opp| - 1] == Defect && Count(w.marks, 1) >= 2 ==> m == Defect
  {
    if LastTwoDefected(w.opp) then Defect
    else if |w.opp| >= 1 && w.opp[|w.opp| - 1] == Defect then
      var total := tally.cooperations + tally.defections;
      var ratio := if total > 0 then tally.defections as real / total as real else 0.0;
      var pressure := Count(w.marks, 1);
      var lift := if 0.3 < pressure as real / 20.0 then 0.3 else pressure as real / 20.0;
      var threshold := 0.5 + lift + variation;
      if pressure >= 2 || ratio >= threshold then Defect else Cooperate
    else Cooperate
  }

  /** The later turns fall through to the tit-for-two-tats rule. */
  predicate ReachesTwoTats(f: Flags, tally: Tally, w: Windows, t: nat)
  {
    var remaining := TotalRoundsKnown - t;
    (remaining > EndgameSoftStart || Endgame(w.opp, tally.defections, f.titForTat, remaining).None?)
    && !f.bully && !f.defense && !f.sucker && !f.exploitation && !f.titForTat && !f.alternator
  }

  /** The move of a turn after the opening, before the random flip. */
  function Later(f: Flags, tally: Tally, w: Windows, t: nat, variation: real): Move
  {
    var remaining := TotalRoundsKnown - t;
    var end := if remaining <= EndgameSoftStart then Endgame(w.opp, tally.defections, f.titForTat, remaining) else None;
    if end.Some? then end.value
    else if f.bully || f.defense then Defect
    else if f.sucker || f.exploitation then
      if tally.defections == 0 && t >= 20 then Cooperate else Defect
    else if f.titForTat then Cooperate
    else if f.alternator then
      if LastTwoDefected(w.opp) then Defect else Cooperate
    else TwoTats(w, tally, variation)
  }

  /** A bully tag means DEFECT in every later turn. */
  lemma BullyAlwaysDefected(f: Flags, tally: Tally, w: Windows, t: nat, variation: real)
    requires f.bully
    ensures Later(f, tally, w, t, variation) == Defect
  {
  }

  /** Two opponent defections in a row are answered with DEFECT unless the
      opponent is tagged tit-for-tat. */
  lemma TwoDefectionsAnswered(f: Flags, tally: Tally, w: Windows, t: nat, variation: real)
    requires f.Paired() && LastTwoDefected(w.opp) && !f.titForTat
    requires Count(w.opp, Defect) <= tally.defections
    ensures Later(f, tally, w, t, variation) == Defect
  {
    var s := w.opp;
    assert s == s[..|s| - 1] + [Defect];
    CountAppend(s[..|s| - 1], [Defect], Defect);
  }

  /** The final move: `_maybe_randomize` inverts the move when the flip
      draw falls under the flip probability. */
  function Randomize(m: Move, flip: Draw, flipProb: real): (r: Move)
    ensures r == m <==> flip >= flipProb
  {
    if flip < flipProb then Flip(m) else m
  }

  // ---------------------------------------------------------------------
  // The bot

  class Bot {
    /** `random_flip_prob` and `adaptive_threshold_variation`, drawn by
        `begin`. */
    var flipProb: real
    var variation: real

    var memory: Memory
    var flags: Flags
    var classificationComplete: bool
    /** `defection_streak` and `forgiveness_attempt`: the bot updates them
        in tit-for-two-tats but never reads them, so no move depends on
        them. */
    var defectionStreak: nat
    var forgivenessAttempt: nat
    var lastRecheck: nat

    /** The rounds recorded since `begin`. */
    ghost var recorded: seq<Round>

    ghost predicate Valid()
      reads this
    {
      memory == MemoryOf(recorded) && flags.Paired()
    }

    constructor(flipDraw: real, variationDraw: real)
      requires 0.01 <= flipDraw <= 0.03 && -0.05 <= variationDraw <= 0.05
      ensures Valid() && recorded == [] && flags == NoFlags()
    {
      flipProb, variation := flipDraw, variationDraw;
      memory := Empty();
      flags := NoFlags();
      classificationComplete := false;
      defectionStreak, forgivenessAttempt, lastRecheck := 0, 0, 0;
      recorded := [];
    }

    method Begin(flipDraw: real, variationDraw: real) returns (m: Move)
      requires 0.01 <= flipDraw <= 0.03 && -0.05 <= variationDraw <= 0.05
      modifies this
      ensures Valid() && recorded == [] && flags == NoFlags() && !classificationComplete
      ensures flipProb == flipDraw && variation == variationDraw
      ensures defectionStreak == 0 && forgivenessAttempt == 0 && lastRecheck == 0
      ensures m == Cooperate
    {
      flipProb, variation := flipDraw, variationDraw;
      memory := Empty();
      flags := NoFlags();
      classificationComplete := false;
      defectionStreak, forgivenessAttempt, lastRecheck := 0, 0, 0;
      recorded := [];
      m := Cooperate;
    }

    /** Count the last round and feed it to the windows. */
    method RecordRound(last: Round)
      requires Valid()
      modifies this`memory, this`recorded
      ensures Valid() && recorded == old(recorded) + [last]
      ensures memory == old(memory).Record(last)
    {
      ghost var h := recorded;
      var m0 := memory;
      RecordStep(h, last);
      recorded := h + [last];
      memory := m0.Record(last);
    }

    /** `_generous_tit_for_two_tats` with its streak bookkeeping. */
    method GenerousTitForTwoTats() returns (m: Move)
      modifies this`defectionStreak, this`forgivenessAttempt
      ensures m == TwoTats(memory.windows, memory.tally, variation)
      ensures LastTwoDefected(memory.windows.opp) ==> defectionStreak == old(defectionStreak) + 1 && forgivenessAttempt == old(forgivenessAttempt)
      ensures var o := memory.windows.opp; o == [] || o[|o| - 1] == Cooperate ==> defectionStreak == 0 && forgivenessAttempt == 0
      ensures var o := memory.windows.opp; !LastTwoDefected(o) && o != [] && o[|o| - 1] == Defect ==> defectionStreak == old(defectionStreak) && forgivenessAttempt == old(forgivenessAttempt)
    {
      var o := memory.windows.opp;
      if LastTwoDefected(o) {
        defectionStreak := defectionStreak + 1;
        return Defect;
      }
      if |o| >= 1 && o[|o| - 1] == Defect {
        return TwoTats(memory.windows, memory.tally, variation);
      }
      defectionStreak, forgivenessAttempt := 0, 0;
      m := Cooperate;
    }

    /** The later-turn cascade: endgame, tags, then tit-for-two-tats. */
    method LaterTurn(t: nat) returns (m: Move)
      modifies this`defectionStreak, this`forgivenessAttempt
      ensures m == Later(flags, memory.tally, memory.windows, t, variation)
      ensures !ReachesTwoTats(flags, memory.tally, memory.windows, t) ==> defectionStreak == old(defectionStreak) && forgivenessAttempt == old(forgivenessAttempt)
    {
      var tally, windows := memory.tally, memory.windows;
      var remaining := TotalRoundsKnown - t;
      if remaining <= EndgameSoftStart {
        var end := Endgame(windows.opp, tally.defections, flags.titForTat, remaining);
        if end.Some? {
          return end.value;
        }
      }
      if flags.bully || flags.defense {
        return Defect;
      }
      if flags.sucker || flags.exploitation {
        if tally.defections == 0 && t >= 20 {
          return Cooperate;
        }
        return Defect;
      }
      if flags.titForTat {
        return Cooperate;
      }
      if flags.alternator {
        if LastTwoDefected(windows.opp) {
          return Defect;
        }
        return Cooperate;
      }
      m := GenerousTitForTwoTats();
    }

    /** Everything `turn` does after the bookkeeping, for a turn that sees
        `t` rounds ending in `last`: classify or recheck, choose, and pass
        the choice through the random flip. */
    method Respond(t: nat, last: Round, flip: Draw) returns (m: Move)
      requires flags.Paired() && memory.Valid()
      modifies this`flags, this`classificationComplete, this`lastRecheck, this`defectionStreak, this`forgivenessAttempt
      ensures flags.Paired()
      ensures t <= OpeningRounds && !old(classificationComplete) ==>
        var r := Opening(t, old(flags), memory.tally, memory.windows, last);
        flags == r.1 && m == Randomize(r.0, flip, flipProb) && classificationComplete == (t == OpeningRounds)
        && lastRecheck == old(lastRecheck)
        && defectionStreak == old(defectionStreak) && forgivenessAttempt == old(forgivenessAttempt)
      ensures t > OpeningRounds || old(classificationComplete) ==>
        && classificationComplete == old(classificationComplete)
        && (t - old(lastRecheck) >= RecheckInterval ==> flags == Reclassify(memory.windows, t, memory.tally.defections) && lastRecheck == t)
        && (t - old(lastRecheck) < RecheckInterval ==> flags == old(flags) && lastRecheck == old(lastRecheck))
        && m == Randomize(Later(flags, memory.tally, memory.windows, t, variation), flip, flipProb)
    {
      if t <= OpeningRounds && !classificationComplete {
        var r := Opening(t, flags, memory.tally, memory.windows, last);
        flags := r.1;
        if t == OpeningRounds {
          classificationComplete := true;
        }
        return Randomize(r.0, flip, flipProb);
      }
      if t - lastRecheck >= RecheckInterval {
        flags := Reclassify(memory.windows, t, memory.tally.defections);
        lastRecheck := t;
      }
      var move := LaterTurn(t);
      m := Randomize(move, flip, flipProb);
    }

    method Turn(history: seq<Round>, flip: Draw) returns (m: Move)
      requires Valid()
      modifies this
      ensures Valid()
      ensures flipProb == old(flipProb) && variation == old(variation)
      ensures history == [] ==>
        && m == Randomize(Cooperate, flip, flipProb) && recorded == old(recorded) && flags == old(flags)
        && classificationComplete == old(classificationComplete) && lastRecheck == old(lastRecheck)
        && defectionStreak == old(defectionStreak) && forgivenessAttempt == old(forgivenessAttempt)
      ensures history != [] ==> recorded == old(recorded) + [history[|history| - 1]]
      ensures history != [] && |history| <= OpeningRounds && !old(classificationComplete) ==>
        var r := Opening(|history|, old(flags), memory.tally, memory.windows, history[|history| - 1]);
        flags == r.1 && m == Randomize(r.0, flip, flipProb) && classificationComplete == (|history| == OpeningRounds)
        && lastRecheck == old(lastRecheck)
        && defectionStreak == old(defectionStreak) && forgivenessAttempt == old(forgivenessAttempt)
      ensures history != [] && (|history| > OpeningRounds || old(classificationComplete)) ==>
        && classificationComplete == old(classificationComplete)
        && (|history| - old(lastRecheck) >= RecheckInterval ==> flags == Reclassify(memory.windows, |history|, memory.tally.defections) && lastRecheck == |history|)
        && (|history| - old(lastRecheck) < RecheckInterval ==> flags == old(flags) && lastRecheck == old(lastRecheck))
        && m == Randomize(Later(flags, memory.tally, memory.windows, |history|, variation), flip, flipProb)
    {
      var t := |history|;
      if t == 0 {
        return Randomize(Cooperate, flip, flipProb);
      }
      var last := history[t - 1];
      RecordRound(last);
      m := Respond(t, last, flip);
    }
  }
}
