/** aniket's Meta-Proof Greedy Forgiver: ten rounds of trust, then a small
    forgiveness chance, DEFECT-leaning play in the last hundred rounds of a
    10000-round match, and otherwise the archetype cascade with an exploit
    rate that grows with the round count. The bot keeps no state: every
    move is a function of the history and two draws, `forgive` (the first
    `random.random()` of the turn) and `draw` (the second, taken by the
    endgame, exploit and cooperation-probability branches). */
module Aniket {
  import opened Game
  import opened Archetypes

  const TrustBuild: nat := 10
  const ForgiveProb: real := 0.015
  const BaseExploit: real := 0.002
  const MaxExploit: real := 0.05
  const EndgameStart: nat := 9900
  const EndgameDefect: real := 0.9

  function Begin(): (m: Move)
    ensures m == Cooperate
  {
    Cooperate
  }

  /** `min(max_exploit, base_exploit + 0.001 * rounds / 100)`: grows by a
      thousandth every hundred rounds and is capped from round 4800 on. */
  function ExploitRate(rounds: nat): (e: real)
    ensures BaseExploit <= e <= MaxExploit
    ensures rounds <= 4800 ==> e == BaseExploit + 0.001 * rounds as real / 100.0
    ensures rounds >= 4800 ==> e == MaxExploit
  {
    var grown := BaseExploit + 0.001 * rounds as real / 100.0;
    if MaxExploit < grown then MaxExploit else grown
  }

  /** One `turn`. */
  function Turn(history: seq<Round>, forgive: Draw, draw: Draw): (m: Move)
    ensures |history| < TrustBuild ==> m == Cooperate
    ensures |history| >= TrustBuild && forgive < ForgiveProb ==> m == Cooperate
    ensures |history| >= EndgameStart && forgive >= ForgiveProb ==> (m == Defect <==> draw < EndgameDefect)
    ensures TrustBuild <= |history| < EndgameStart && forgive >= ForgiveProb ==>
      var opp := Others(history);
      m == Decide(Classify(opp), DefectRate(Recent(opp)), opp[|opp| - 1], ExploitRate(|history|), draw)
  {
    var rounds := |history|;
    if rounds < TrustBuild then Cooperate
    else
      var opp := Others(history);
      var kind := Classify(opp);
      var recentRate := DefectRate(Recent(opp));
      if forgive < ForgiveProb then Cooperate
      else if rounds >= EndgameStart then (if draw < EndgameDefect then Defect else Cooperate)
      else Decide(kind, recentRate, opp[|opp| - 1], ExploitRate(rounds), draw)
  }

  /** An opponent that has only ever cooperated is answered with
      COOPERATE before the endgame, except on a draw under the exploit rate
      once it is classified (fifty rounds). */
  lemma CooperatorsCooperatedWith(history: seq<Round>, forgive: Draw, draw: Draw)
    requires |history| < EndgameStart
    requires forall i :: 0 <= i < |history| ==> history[i].other == Cooperate
    ensures |history| < MinMoves ==> Turn(history, forgive, draw) == Cooperate
    ensures |history| >= MinMoves && forgive >= ForgiveProb ==>
      (Turn(history, forgive, draw) == Defect <==> draw < ExploitRate(|history|))
  {
    var opp := Others(history);
    if TrustBuild <= |history| {
      assert opp[|opp| - 1] == Cooperate;
      assert DefectRate(Recent(opp)) == 0.0;
      if |history| >= MinMoves {
        SteadyOpponents(opp, ExploitRate(|history|), draw);
      }
    }
  }

  /** An opponent that has only ever defected meets DEFECT from round 50
      until the endgame, forgiveness draws aside. */
  lemma DefectorsDefectedAgainst(history: seq<Round>, forgive: Draw, draw: Draw)
    requires MinMoves <= |history| < EndgameStart && forgive >= ForgiveProb
    requires forall i :: 0 <= i < |history| ==> history[i].other == Defect
    ensures Turn(history, forgive, draw) == Defect
  {
    SteadyOpponents(Others(history), ExploitRate(|history|), draw);
  }
}
