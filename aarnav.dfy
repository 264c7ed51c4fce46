/** Aarnav's file: two bots and the payoff table of their match.

    maa-ka-bharosa (`MaaKaBharosa`) keeps no state: ten rounds of trust,
    then a forgiveness chance that grows with the opponent's unbroken
    cooperation streak, an endgame from round 9900, and otherwise the
    archetype cascade with an exploit rate that grows with the streak. Its
    draws are `forgive` (the first `random.random()` of the turn) and
    `draw` (the second, taken by the endgame, exploit and
    cooperation-probability branches).

    `AdaptiveBot` labels the opponent over a window that grows with the
    match and remembers the round of its last forced exploratory defection,
    so that two of them are at least three rounds apart. */
module Aarnav {
  import opened Game
  import opened Archetypes

  // ---------------------------------------------------------------------
  // maa-ka-bharosa

  const TrustBuild: nat := 10
  const BaseExploit: real := 0.002
  const MaxExploit: real := 0.05
  const EndgameStart: nat := 9900
  const EndgameDefect: real := 0.95

  function Begin(): (m: Move)
    ensures m == Cooperate
  {
    Cooperate
  }

  /** `dynamic_exploit_rate`: the base rate until the streak reaches ten,
      then two hundredths more per extra cooperation, capped at the
      maximum (reached at a streak of twelve). */
  function DynamicExploitRate(streak: nat): (e: real)
    ensures 0.0 <= e <= MaxExploit
    ensures streak < 10 ==> e == BaseExploit
    ensures streak >= 12 ==> e == MaxExploit
  {
    var rate :=
      if streak >= 10 then
        var grown := BaseExploit + 0.02 * (streak - 9) as real;
        if MaxExploit < grown then MaxExploit else grown
      else BaseExploit;
    if rate < 0.0 then 0.0 else rate
  }

  /** A longer streak never lowers the exploit rate. */
  lemma DynamicExploitRateMonotone(s1: nat, s2: nat)
    requires s1 <= s2
    ensures DynamicExploitRate(s1) <= DynamicExploitRate(s2)
  {
  }

  /** `0.015 + 0.05 * (coop_streak / 100)`. */
  function ForgivenessProb(streak: nat): (p: real)
    ensures p >= 0.015
    ensures streak == 0 ==> p == 0.015
    ensures streak <= RecentWindow ==> p <= 0.065
  {
    0.015 + 0.05 * (streak as real / RecentWindow as real)
  }

  /** The loop over `reversed(opponent_moves)`: how many cooperations end
      the list. */
  method CoopStreak(opp: seq<Move>) returns (streak: nat)
    ensures streak <= |opp|
    ensures forall k :: |opp| - streak <= k < |opp| ==> opp[k] == Cooperate
    ensures streak < |opp| ==> opp[|opp| - 1 - streak] == Defect
    ensures streak == TrailingRun(opp, Cooperate)
  {
    streak := 0;
    var i := |opp|;
    while i > 0
      invariant 0 <= i <= |opp|
      invariant streak == |opp| - i
      invariant forall k :: i <= k < |opp| ==> opp[k] == Cooperate
    {
      if opp[i - 1] != Cooperate {
        break;
      }
      streak := streak + 1;
      i := i - 1;
    }
  }

  /** One `MaaKaBharosa.turn`. */
  method Turn(history: seq<Round>, forgive: Draw, draw: Draw) returns (m: Move)
    ensures |history| < TrustBuild ==> m == Cooperate
    ensures |history| >= TrustBuild ==>
      var opp := Others(history);
      var streak := TrailingRun(opp, Cooperate);
      var kind := Classify(opp);
      && (forgive < ForgivenessProb(streak) ==> m == Cooperate)
      && (forgive >= ForgivenessProb(streak) && |history| >= EndgameStart ==>
            && (kind == Cooperator || kind == Balanced ==> (m == Defect <==> draw < EndgameDefect))
            && (kind != Cooperator && kind != Balanced ==> m == Defect))
      && (forgive >= ForgivenessProb(streak) && |history| < EndgameStart ==>
            m == Decide(kind, DefectRate(Recent(opp)), opp[|opp| - 1], DynamicExploitRate(streak), draw))
  {
    var rounds := |history|;
    if rounds < TrustBuild {
      return Cooperate;
    }
    var opp := Others(history);
    var kind := Classify(opp);
    var recentRate := DefectRate(Recent(opp));
    var streak := CoopStreak(opp);
    if forgive < ForgivenessProb(streak) {
      return Cooperate;
    }
    var exploit := DynamicExploitRate(streak);
    if rounds >= EndgameStart {
      if kind == Cooperator || kind == Balanced {
        return if draw < EndgameDefect then Defect else Cooperate;
      }
      return Defect;
    }
    m := Decide(kind, recentRate, opp[|opp| - 1], exploit, draw);
  }

  /** An opponent that has cooperated in every one of at least fifty rounds
      has a streak past twelve, so outside the endgame and forgiveness the
      bot exploits it exactly on draws under the maximum rate. */
  lemma SteadyCooperatorExploitedAtMaxRate(opp: seq<Move>, draw: Draw)
    requires |opp| >= MinMoves
    requires forall i :: 0 <= i < |opp| ==> opp[i] == Cooperate
    ensures TrailingRun(opp, Cooperate) == |opp|
    ensures var e := DynamicExploitRate(TrailingRun(opp, Cooperate));
      Decide(Classify(opp), DefectRate(Recent(opp)), opp[|opp| - 1], e, draw) == Defect <==> draw < MaxExploit
  {
    SteadyOpponents(opp, DynamicExploitRate(TrailingRun(opp, Cooperate)), draw);
  }

  // ---------------------------------------------------------------------
  // The payoff table

  /** `get_scores`: the points of the two players for one round. */
  function Scores(m1: Move, m2: Move): (r: (int, int))
    ensures m1 == Cooperate && m2 == Cooperate ==> r == (3, 3)
    ensures m1 == Cooperate && m2 == Defect ==> r == (0, 5)
    ensures m1 == Defect && m2 == Cooperate ==> r == (5, 0)
    ensures m1 == Defect && m2 == Defect ==> r == (1, 1)
  {
    if m1 == Cooperate && m2 == Cooperate then (3, 3)
    else if m1 == Cooperate && m2 == Defect then (0, 5)
    else if m1 == Defect && m2 == Cooperate then (5, 0)
    else (1, 1)
  }

  /** The table is symmetric: swapping the players swaps the points. */
  lemma ScoresSwap(a: Move, b: Move)
    ensures Scores(b, a) == (Scores(a, b).1, Scores(a, b).0)
  {
  }

  /** The table is a prisoner's dilemma: temptation > reward > punishment
      > sucker, defecting pays more against either move, and mutual
      cooperation pays more than taking turns exploiting each other. */
  lemma ScoresDilemma(b: Move)
    ensures Scores(Defect, Cooperate).0 > Scores(Cooperate, Cooperate).0 > Scores(Defect, Defect).0 > Scores(Cooperate, Defect).0
    ensures Scores(Defect, b).0 > Scores(Cooperate, b).0
    ensures 2 * Scores(Cooperate, Cooperate).0 > Scores(Defect, Cooperate).0 + Scores(Cooperate, Defect).0
  {
  }

  // ---------------------------------------------------------------------
  // AdaptiveBot

  const MinWindow: nat := 6
  const MaxWindow: nat := 100
  const ExplorationProb: real := 0.05
  const RetaliatorForgiveness: real := 0.5
  const ExploitCooperative: real := 0.7

  /** The labels of `AdaptiveBot.classify_opponent`. */
  datatype Label = Undetermined | AlwaysCooperate | AlwaysDefect | TitForTat | Retaliator | Cooperative | Erratic

  /** `min(100, max(6, N // 10))`. */
  function AdaptiveWindow(n: nat): (w: nat)
    ensures MinWindow <= w <= MaxWindow
    ensures n < 10 * MinWindow ==> w == MinWindow
    ensures n >= 10 * MaxWindow ==> w == MaxWindow
  {
    var grown := if MinWindow < n / 10 then n / 10 else MinWindow;
    if MaxWindow < grown then MaxWindow else grown
  }

  /** Number of positions `k` in 1..|o|-1 at which the opponent defected
      right after a defection of this bot. */
  function Retaliations(o: seq<Move>, m: seq<Move>): (c: nat)
    requires |o| == |m|
    ensures |o| >= 1 ==> c <= Count(m[..|m| - 1], Defect)
  {
    if |o| < 2 then 0
    else
      var n := |o|;
      assert m[..n - 1][..n - 2] == m[..n - 2];
      Retaliations(o[..n - 1], m[..n - 1]) + (if o[n - 1] == Defect && m[n - 2] == Defect then 1 else 0)
  }

  /** Every opponent move of `h` is `x`. */
  predicate AllOpponent(h: seq<Round>, x: Move)
  {
    forall i :: 0 <= i < |h| ==> h[i].other == x
  }

  /** More than 80% of the steps of `h` (the first counting as one) repeat
      this bot's previous move: the `tit_for_tat_like` test. */
  predicate EchoesMostly(h: seq<Round>)
    requires h != []
  {
    (1 + Echoes(Others(h), Owns(h))) as real / |h| as real > 0.8
  }

  /** More than 75% of this bot's defections (all but the last round's)
      were answered with a defection: the `retaliatory` test. */
  predicate RetaliatesMostly(h: seq<Round>)
    requires h != []
  {
    var provoked := Count(Owns(h)[..|h| - 1], Defect);
    Retaliations(Others(h), Owns(h)) as real / (if provoked < 1 then 1 else provoked) as real > 0.75
  }

  /** More than 70% of the opponent moves of `h` are COOPERATE. */
  predicate CooperatesMostly(h: seq<Round>)
    requires h != []
  {
    Count(Others(h), Cooperate) as real / |h| as real > 0.7
  }

  class AdaptiveBot {
    /** `AdaptiveBot.classify_opponent(history, window)`: the label of the
        last `window` rounds, by the first test that passes. */
    static function Classify(history: seq<Round>, window: nat): (l: Label)
      ensures var h := Suffix(history, window);
        && (l == Undetermined <==> |h| < MinWindow)
        && (|h| >= MinWindow ==>
              && (l == AlwaysCooperate <==> AllOpponent(h, Cooperate))
              && (l == AlwaysDefect <==> AllOpponent(h, Defect))
              && (l == TitForTat <==> !AllOpponent(h, Cooperate) && !AllOpponent(h, Defect) && EchoesMostly(h))
              && (l == Retaliator <==>
                    !AllOpponent(h, Cooperate) && !AllOpponent(h, Defect) && !EchoesMostly(h) && RetaliatesMostly(h))
              && (l == Cooperative <==>
                    !AllOpponent(h, Cooperate) && !AllOpponent(h, Defect) && !EchoesMostly(h) && !RetaliatesMostly(h)
                    && CooperatesMostly(h)))
    {
      var h := Suffix(history, window);
      if |h| < MinWindow then Undetermined
      else if AllOpponent(h, Cooperate) then assert h[0].other == Cooperate; AlwaysCooperate
      else if AllOpponent(h, Defect) then AlwaysDefect
      else if EchoesMostly(h) then TitForTat
      else if RetaliatesMostly(h) then Retaliator
      else if CooperatesMostly(h) then Cooperative
      else Erratic
    }

    /** An opponent that, over a window of at least six rounds, always
        played this bot's previous move and played both moves is labelled
        tit-for-tat. */
    static lemma EchoingOpponentIsTitForTat(history: seq<Round>, window: nat)
      requires var h := Suffix(history, window);
        |h| >= MinWindow
        && (forall k :: 1 <= k < |h| ==> h[k].other == h[k - 1].own)
        && !AllOpponent(h, Cooperate) && !AllOpponent(h, Defect)
      ensures Classify(history, window) == TitForTat
    {
      EchoingIsEchoesMostly(Suffix(history, window));
    }

    static lemma EchoingIsEchoesMostly(h: seq<Round>)
      requires h != []
      requires forall k :: 1 <= k < |h| ==> h[k].other == h[k - 1].own
      ensures EchoesMostly(h)
    {
      var opp, mine := Others(h), Owns(h);
      assert forall k :: 1 <= k < |h| ==> opp[k] == mine[k - 1];
      EchoesAll(opp, mine);
      var e := 1 + Echoes(opp, mine);
      assert e == |h|;
      WholeRatio(e);
    }

    static lemma WholeRatio(n: nat)
      requires n > 0
      ensures n as real / n as real == 1.0
    {
    }

    /** The move for a kind, on a non-empty history (after the exploration
        check has passed). */
    static function Respond(kind: Label, history: seq<Round>, draw: Draw): (m: Move)
      requires history != []
      ensures var last := history[|history| - 1];
        && (kind == TitForTat ==> m == last.other)
        && (kind == AlwaysCooperate || kind == Cooperative ==> (m == Defect <==> draw < ExploitCooperative))
        && (kind == AlwaysDefect ==> m == Defect)
        && (kind == Retaliator ==>
              && (last.other == Cooperate ==> m == Cooperate)
              && (last.other == Defect ==> (m == Cooperate <==> last.own == Defect && draw < RetaliatorForgiveness)))
        && (kind == Erratic ==>
              var opp := Others(history);
              && (|history| > 10 && Count(opp[|opp| - 10..], Defect) > 7 ==> m == Defect)
              && (|history| <= 10 || Count(opp[|opp| - 10..], Defect) <= 7 ==> m == last.other))
        && (kind == Undetermined ==> m == last.other)
    {
      var last := history[|history| - 1];
      var opp := Others(history);
      match kind
      case TitForTat => last.other
      case AlwaysCooperate => if draw < ExploitCooperative then Defect else Cooperate
      case Cooperative => if draw < ExploitCooperative then Defect else Cooperate
      case AlwaysDefect => Defect
      case Retaliator =>
        if last.other == Defect then
          if last.own == Defect && draw < RetaliatorForgiveness then Cooperate else Defect
        else Cooperate
      case Erratic =>
        if |history| > 10 && Count(opp[|opp| - 10..], Defect) > 7 then Defect else last.other
      case Undetermined =>
        if last.other == Defect then Defect else assert last.other == Cooperate; Cooperate
    }

    /** The round of the last forced exploratory defection. */
    var lastForcedDefect: int

    constructor()
      ensures lastForcedDefect == -100
    {
      lastForcedDefect := -100;
    }

    /** `begin` leaves `last_forced_defect` as it was. */
    method Begin() returns (m: Move)
      ensures m == Cooperate
    {
      m := Cooperate;
    }

    /** One `AdaptiveBot.turn`, with `explore` the exploration draw and
        `draw` the draw of the kind's branch. */
    method Turn(history: seq<Round>, explore: Draw, draw: Draw) returns (m: Move)
      modifies this
      ensures history == [] ==> m == Cooperate && lastForcedDefect == old(lastForcedDefect)
      ensures history != [] && explore < ExplorationProb && |history| - old(lastForcedDefect) > 2 ==>
        m == Defect && lastForcedDefect == |history|
      ensures history != [] && !(explore < ExplorationProb && |history| - old(lastForcedDefect) > 2) ==>
        lastForcedDefect == old(lastForcedDefect)
        && m == Respond(Classify(history, AdaptiveWindow(|history|)), history, draw)
      ensures lastForcedDefect != old(lastForcedDefect) ==> lastForcedDefect >= old(lastForcedDefect) + 3
    {
      var n := |history|;
      if n == 0 {
        return Cooperate;
      }
      var window := AdaptiveWindow(n);
      var kind := Classify(history, window);
      if explore < ExplorationProb && n - lastForcedDefect > 2 {
        lastForcedDefect := n;
        return Defect;
      }
      m := Respond(kind, history, draw);
    }
  }
}
