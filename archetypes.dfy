/** The opponent archetypes that maa-ka-bharosa (Aarnav_aa557.py) and the
    Meta-Proof Greedy Forgiver (aniket_as264.py) both use: the same
    `classify_opponent` over the whole list of opponent moves, the same
    100-move recent window and the same cascade from archetype to move.
    The cascade takes the exploit rate as a parameter; each bot applies its
    own forgiveness draw and endgame rule before it reaches the cascade. */
module Archetypes {
  import opened Game

  /** Fewer opponent moves than this give UNKNOWN. */
  const MinMoves: nat := 50
  /** `self.window`: the recent defect rate is taken over this many moves. */
  const RecentWindow: nat := 100

  datatype Archetype = Unknown | Cooperator | Noisy | Defector | Punisher | Balanced

  /** `opponent_moves.count(Move.DEFECT) / n`. */
  function DefectRate(opp: seq<Move>): (r: real)
    requires opp != []
    ensures 0.0 <= r <= 1.0
    ensures r == 0.0 <==> forall i :: 0 <= i < |opp| ==> opp[i] == Cooperate
    ensures r == 1.0 <==> forall i :: 0 <= i < |opp| ==> opp[i] == Defect
  {
    CountBound(opp, Defect);
    assert forall i :: 0 <= i < |opp| ==> (opp[i] != Defect <==> opp[i] == Cooperate);
    Ratio(Count(opp, Defect), |opp|)
  }

  /** `1 - changes / n`, where `changes` counts the positions at which the
      opponent switched moves; a constant opponent scores 1.0. */
  function Stability(opp: seq<Move>): (s: real)
    requires opp != []
    ensures 0.0 < s <= 1.0
    ensures s == 1.0 <==> forall i :: 0 < i < |opp| ==> opp[i] == opp[i - 1]
  {
    ChangesBound(opp);
    FractionBelowOne(Changes(opp), |opp|);
    1.0 - Changes(opp) as real / |opp| as real
  }

  /** A count below its total gives a fraction in [0, 1). */
  lemma FractionBelowOne(c: nat, n: nat)
    requires c < n
    ensures 0.0 <= c as real / n as real < 1.0
  {
  }

  /** `classify_opponent`: UNKNOWN under fifty moves, then the first of
      COOPERATOR, NOISY, DEFECTOR, PUNISHER whose test passes, else
      BALANCED. */
  function Classify(opp: seq<Move>): (a: Archetype)
    ensures a == Unknown <==> |opp| < MinMoves
    ensures |opp| >= MinMoves ==>
      var d, s := DefectRate(opp), Stability(opp);
      var cooperator := d < 0.05 && s > 0.8;
      var noisy := !cooperator && d < 0.35 && s < 0.6;
      var defector := !cooperator && !noisy && d > 0.5;
      var punisher := !cooperator && !noisy && !defector && s > 0.85 && d > 0.1;
      && (a == Cooperator <==> cooperator)
      && (a == Noisy <==> noisy)
      && (a == Defector <==> defector)
      && (a == Punisher <==> punisher)
      && (a == Balanced <==> !cooperator && !noisy && !defector && !punisher)
  {
    if |opp| < MinMoves then Unknown
    else
      var d, s := DefectRate(opp), Stability(opp);
      if d < 0.05 && s > 0.8 then Cooperator
      else if d < 0.35 && s < 0.6 then Noisy
      else if d > 0.5 then Defector
      else if s > 0.85 && d > 0.1 then Punisher
      else Balanced
  }

  /** Fifty or more cooperations and nothing else: a COOPERATOR. */
  lemma AllCooperateIsCooperator(opp: seq<Move>)
    requires |opp| >= MinMoves
    requires forall i :: 0 <= i < |opp| ==> opp[i] == Cooperate
    ensures Classify(opp) == Cooperator
  {
    assert forall i :: 0 < i < |opp| ==> opp[i] == opp[i - 1];
  }

  /** Fifty or more defections and nothing else: a DEFECTOR, whatever the
      stability. */
  lemma AllDefectIsDefector(opp: seq<Move>)
    requires |opp| >= MinMoves
    requires forall i :: 0 <= i < |opp| ==> opp[i] == Defect
    ensures Classify(opp) == Defector
  {
    assert DefectRate(opp) == 1.0;
  }

  /** An opponent that defected in more than half of its moves is never
      taken for a cooperator or a punisher. */
  lemma MostlyDefectingIsDefector(opp: seq<Move>)
    requires |opp| >= MinMoves && 2 * Count(opp, Defect) > |opp|
    ensures Classify(opp) == Defector
  {
    MoreThanHalf(Count(opp, Defect), |opp|);
  }

  lemma MoreThanHalf(c: nat, n: nat)
    requires 0 < n && 2 * c > n
    ensures c as real / n as real > 0.5
  {
    var d := c as real / n as real;
    assert d * n as real == c as real;
    assert 2.0 * c as real > n as real;
    if d <= 0.5 {
      assert false;
    }
  }

  /** `opponent_moves[-100:] if rounds >= 100 else opponent_moves`. */
  function Recent(opp: seq<Move>): (r: seq<Move>)
    ensures |opp| >= RecentWindow ==> r == opp[|opp| - RecentWindow..]
    ensures |opp| < RecentWindow ==> r == opp
  {
    Suffix(opp, RecentWindow)
  }

  /** `max(0.3, 1 - defect_rate_recent)`. */
  function CoopProb(rate: real): (p: real)
    requires 0.0 <= rate <= 1.0
    ensures 0.3 <= p <= 1.0
    ensures p >= 1.0 - rate
    ensures rate <= 0.7 ==> p == 1.0 - rate
  {
    if 0.3 < 1.0 - rate then 1.0 - rate else 0.3
  }

  /** The cascade from archetype to move, for a turn outside the trust
      phase, the forgiveness draw and the endgame. `rate` is the recent
      defect rate, `last` the opponent's last move, `exploit` the chance of
      exploiting a cooperator and `draw` the `random.random()` the branch
      takes. */
  function Decide(kind: Archetype, rate: real, last: Move, exploit: real, draw: Draw): (m: Move)
    requires 0.0 <= rate <= 1.0
    ensures kind == Cooperator ==> (m == Defect <==> draw < exploit)
    ensures kind == Punisher ==> m == last
    ensures kind == Noisy ==> (m == Defect <==> rate > 0.4)
    ensures kind == Defector ==> m == Defect
    ensures kind == Balanced || kind == Unknown ==>
      && (rate < 0.25 ==> m == last)
      && (rate > 0.7 ==> m == Defect)
      && (0.25 <= rate <= 0.7 ==> (m == Cooperate <==> draw < 1.0 - rate))
  {
    match kind
    case Cooperator => if draw < exploit then Defect else Cooperate
    case Punisher => if last == Cooperate then Cooperate else assert last == Defect; Defect
    case Noisy => if rate > 0.4 then Defect else Cooperate
    case Defector => Defect
    case _ =>
      if rate < 0.25 then (if last == Cooperate then Cooperate else assert last == Defect; Defect)
      else if rate > 0.7 then Defect
      else if draw < CoopProb(rate) then Cooperate else Defect
  }

  /** Against an opponent the classifier can see (fifty moves or more), a
      steady cooperator is exploited only on draws under the exploit rate,
      and a steady defector always meets DEFECT. */
  lemma SteadyOpponents(opp: seq<Move>, exploit: real, draw: Draw)
    requires |opp| >= MinMoves
    ensures (forall i :: 0 <= i < |opp| ==> opp[i] == Cooperate) ==>
      (Decide(Classify(opp), DefectRate(Recent(opp)), opp[|opp| - 1], exploit, draw) == Defect <==> draw < exploit)
    ensures (forall i :: 0 <= i < |opp| ==> opp[i] == Defect) ==>
      Decide(Classify(opp), DefectRate(Recent(opp)), opp[|opp| - 1], exploit, draw) == Defect
  {
    if forall i :: 0 <= i < |opp| ==> opp[i] == Cooperate {
      AllCooperateIsCooperator(opp);
    }
    if forall i :: 0 <= i < |opp| ==> opp[i] == Defect {
      AllDefectIsDefector(opp);
    }
  }
}
