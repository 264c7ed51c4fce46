/** Jainam's bot: a two-mode machine over the opponent's last thirty moves.
    In RANDOM mode it plays a fair coin; it switches to DEFECT mode when the
    opponent's cooperation rate drops below 1 - 0.8 and back when the rate
    climbs above 0.6, so rates in between keep whichever mode it is in. */
module Jainam {
  import opened Game

  const Window: nat := 30
  /** `1 - defect_threshold` with `defect_threshold` 0.8. */
  const DefectBelow: real := 1.0 - 0.8
  const RandomAbove: real := 0.6

  datatype Mode = RandomMode | DefectMode

  /** The cooperation rate of a window: 0.5 when it is empty, otherwise the
      fraction of COOPERATE moves. */
  function CoopRate(w: seq<Move>): (r: real)
    ensures 0.0 <= r <= 1.0
    ensures w == [] ==> r == 0.5
    ensures w != [] ==> (r == 1.0 <==> forall i :: 0 <= i < |w| ==> w[i] == Cooperate)
    ensures w != [] ==> (r == 0.0 <==> forall i :: 0 <= i < |w| ==> w[i] != Cooperate)
  {
    if w == [] then 0.5
    else
      CountBound(w, Cooperate);
      Ratio(Count(w, Cooperate), |w|)
  }

  /** The mode after the hysteresis check. */
  function NextMode(mode: Mode, rate: real): (next: Mode)
    ensures mode == RandomMode && next == DefectMode ==> rate < DefectBelow
    ensures mode == DefectMode && next == RandomMode ==> rate > RandomAbove
    ensures DefectBelow <= rate <= RandomAbove ==> next == mode
  {
    if mode == RandomMode && rate < DefectBelow then DefectMode
    else if mode == DefectMode && rate > RandomAbove then RandomMode
    else mode
  }

  /** At most one transition per turn: checking again at the same rate
      changes nothing. */
  lemma NextModeSettles(mode: Mode, rate: real)
    ensures NextMode(NextMode(mode, rate), rate) == NextMode(mode, rate)
  {
  }

  /** The move of a mode: DEFECT in DEFECT mode, a fair coin otherwise. */
  function ModeMove(mode: Mode, coin: Draw): (m: Move)
    ensures mode == DefectMode ==> m == Defect
    ensures mode == RandomMode ==> (m == Cooperate <==> coin < 0.5)
  {
    if mode == DefectMode then Defect
    else if coin < 0.5 then Cooperate else Defect
  }

  class Bot {
    /** The deque of the opponent's most recent moves, oldest first. */
    var oppHist: seq<Move>
    var mode: Mode

    ghost predicate Valid()
      reads this
    {
      |oppHist| <= Window
    }

    constructor()
      ensures Valid() && oppHist == [] && mode == RandomMode
    {
      oppHist := [];
      mode := RandomMode;
    }

    method Begin(coin: Draw) returns (m: Move)
      modifies this
      ensures Valid() && oppHist == [] && mode == RandomMode
      ensures m == ModeMove(RandomMode, coin)
    {
      oppHist := [];
      mode := RandomMode;
      m := if coin < 0.5 then Cooperate else Defect;
    }

    method Turn(history: seq<Round>, coin: Draw) returns (m: Move)
      requires Valid()
      modifies this
      ensures Valid()
      ensures history == [] ==> oppHist == old(oppHist)
      ensures history != [] ==> oppHist == Push(old(oppHist), history[|history| - 1].other, Window)
      ensures mode == NextMode(old(mode), CoopRate(oppHist))
      ensures m == ModeMove(mode, coin)
    {
      if |history| >= 1 {
        oppHist := Push(oppHist, history[|history| - 1].other, Window);
      }
      var rate := CoopRate(oppHist);
      if mode == RandomMode && rate < DefectBelow {
        mode := DefectMode;
      } else if mode == DefectMode && rate > RandomAbove {
        mode := RandomMode;
      }
      if mode == DefectMode {
        return Defect;
      }
      m := if coin < 0.5 then Cooperate else Defect;
    }
  }
}
