/** Priyesi's karma bot: a running score that gains 4 for every opponent
    cooperation and loses 5 for every defection; the bot cooperates while
    the score is positive, except for a rare uniformly random move. */
module Priyesi {
  import opened Game

  const Reward: int := 4
  const Penalty: int := 5
  const RandomMoveChance: real := 0.02

  /** The karma earned from a sequence of opponent moves. */
  function KarmaOf(opp: seq<Move>): (k: int)
    ensures k == Reward * Count(opp, Cooperate) - Penalty * (|opp| - Count(opp, Cooperate))
  {
    CountMoves(opp);
    Reward * Count(opp, Cooperate) - Penalty * Count(opp, Defect)
  }

  /** Positive karma means the opponent cooperated in more than five rounds
      out of nine. */
  lemma KarmaPositiveIff(opp: seq<Move>)
    ensures KarmaOf(opp) > 0 <==> 9 * Count(opp, Cooperate) > 5 * |opp|
  {
  }

  /** Appending one opponent move adds +4 or -5. */
  lemma {:induction false} KarmaStep(opp: seq<Move>, m: Move)
    ensures KarmaOf(opp + [m]) == KarmaOf(opp) + (if m == Cooperate then Reward else -Penalty)
  {
    assert (opp + [m])[..|opp|] == opp;
  }

  /** The decision rule: when the draw falls under 2% the move is `pick`,
      the element `random.choice` drew from [DEFECT, COOPERATE]; otherwise
      COOPERATE exactly when karma is positive. */
  function Decide(karma: int, chance: Draw, pick: Move): (m: Move)
    ensures chance >= RandomMoveChance ==> (m == Cooperate <==> karma > 0)
    ensures chance < RandomMoveChance ==> m == pick
  {
    if chance < RandomMoveChance then pick
    else if karma > 0 then Cooperate
    else Defect
  }

  class Bot {
    /** Python leaves `karma` undefined until `begin` runs. */
    var begun: bool
    var karma: int
    /** The opponent moves counted into karma since `begin`. */
    ghost var counted: seq<Move>

    ghost predicate Valid()
      reads this
    {
      begun ==> karma == KarmaOf(counted)
    }

    constructor()
      ensures Valid() && !begun
    {
      begun := false;
      karma := 0;
      counted := [];
    }

    method Begin() returns (m: Move)
      modifies this
      ensures Valid() && begun && karma == 0 && counted == []
      ensures m == Cooperate
    {
      begun := true;
      karma := 0;
      counted := [];
      m := Cooperate;
    }

    /** One turn: score the opponent's last move, then decide. */
    method Turn(history: seq<Round>, chance: Draw, pick: Move) returns (m: Move)
      requires Valid() && begun
      modifies this`karma, this`counted
      ensures Valid()
      ensures history == [] ==> karma == old(karma) && counted == old(counted)
      ensures history != [] ==> counted == old(counted) + [history[|history| - 1].other]
      ensures history != [] ==> karma == old(karma) + (if history[|history| - 1].other == Cooperate then Reward else -Penalty)
      ensures m == Decide(karma, chance, pick)
    {
      if history != [] {
        var last := history[|history| - 1].other;
        KarmaStep(counted, last);
        if last == Cooperate {
          karma := karma + Reward;
        } else {
          karma := karma - Penalty;
        }
        counted := counted + [last];
      }
      m := Decide(karma, chance, pick);
    }
  }
}
