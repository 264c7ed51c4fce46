/** manak's bot: tit-for-tat that opens with DEFECT and, after ten rounds,
    defects outright when the last ten history entries all compare equal to
    COOPERATE.

    That test compares a whole history entry (a pair of moves) with a single
    move. How such a comparison comes out is decided by the harness's entry
    type, so the model takes it as a parameter `eq`: under Python's default
    equality an entry never equals a move, and then the ten-round rule never
    fires (`AsWrittenNeverDefectsOnTrust`); comparing the opponent's move
    instead (`OpponentIs`) gives the rule its evident meaning. */
module Manak {
  import opened Game

  const TrustWindow: nat := 10

  /** How a history entry compares with a move. */
  type EntryEquality = (Round, Move) -> bool

  /** Python's default equality between an entry object and a Move. */
  function NeverEqual(e: Round, m: Move): bool { false }

  /** The comparison the rule evidently means: the opponent's move. */
  function OpponentIs(e: Round, m: Move): bool { e.other == m }

  function Begin(): (m: Move)
    ensures m == Defect
  {
    Defect
  }

  /** The last ten entries all compare equal to COOPERATE. */
  predicate TenCooperations(history: seq<Round>, eq: EntryEquality)
  {
    |history| >= TrustWindow
    && forall k :: |history| - TrustWindow <= k < |history| ==> eq(history[k], Cooperate)
  }

  /** The move `turn` returns, or None where Python raises IndexError (an
      empty history reaches `history[-1]`). */
  function Respond(history: seq<Round>, eq: EntryEquality): (r: Option<Move>)
    ensures TenCooperations(history, eq) ==> r == Some(Defect)
    ensures !TenCooperations(history, eq) && history == [] ==> r == None
    ensures !TenCooperations(history, eq) && history != [] ==> r == Some(history[|history| - 1].other)
  {
    if TenCooperations(history, eq) then Some(Defect)
    else if history == [] then None
    else
      var last := history[|history| - 1].other;
      if last == Defect then Some(Defect) else assert last == Cooperate; Some(Cooperate)
  }

  /** The scan over entries -1, -2, ..., -10: `flagged` tells whether a
      non-matching entry was met, `inspected` how many entries were read
      before the loop stopped. */
  method ScanLastTen(history: seq<Round>, eq: EntryEquality) returns (flagged: bool, inspected: nat)
    requires |history| >= TrustWindow
    ensures 1 <= inspected <= TrustWindow
    ensures forall k :: |history| - inspected < k < |history| ==> eq(history[k], Cooperate)
    ensures flagged <==> !eq(history[|history| - inspected], Cooperate)
    ensures flagged <==> !TenCooperations(history, eq)
  {
    flagged := false;
    inspected := 0;
    var i := 1;
    while i <= TrustWindow
      invariant 1 <= i <= TrustWindow + 1
      invariant inspected == i - 1
      invariant forall k :: |history| - i < k < |history| ==> eq(history[k], Cooperate)
    {
      inspected := i;
      if !eq(history[|history| - i], Cooperate) {
        flagged := true;
        return;
      }
      i := i + 1;
    }
  }

  /** One turn, as the source computes it. */
  method Turn(history: seq<Round>, eq: EntryEquality) returns (r: Option<Move>)
    ensures r == Respond(history, eq)
  {
    if |history| >= TrustWindow {
      var flagged, _ := ScanLastTen(history, eq);
      if !flagged {
        return Some(Defect);
      }
    }
    if history == [] {
      return None;
    }
    if history[|history| - 1].other == Defect {
      r := Some(Defect);
    } else {
      r := Some(Cooperate);
    }
  }

  /** With Python's default equality the bot is plain tit-for-tat: every
      non-empty history gets the opponent's last move back. */
  lemma AsWrittenNeverDefectsOnTrust(history: seq<Round>)
    requires history != []
    ensures Respond(history, NeverEqual) == Some(history[|history| - 1].other)
  {
    assert !NeverEqual(history[|history| - 1], Cooperate);
  }

  /** Ten straight cooperations: the rule as written cooperates, the rule
      as intended defects. */
  lemma TenCooperationsExample()
    ensures var h := seq(TrustWindow, _ => Round(Cooperate, Cooperate));
      Respond(h, NeverEqual) == Some(Cooperate) && Respond(h, OpponentIs) == Some(Defect)
  {
    var h := seq(TrustWindow, _ => Round(Cooperate, Cooperate));
    assert !NeverEqual(h[|h| - 1], Cooperate);
    assert TenCooperations(h, OpponentIs);
  }

  /** With the opponent's move compared, the bot defects exactly when the
      opponent cooperated in each of the last ten rounds or defected in the
      last one. */
  lemma IntendedDefectsIff(history: seq<Round>)
    requires history != []
    ensures Respond(history, OpponentIs) == Some(Defect) <==>
      (history[|history| - 1].other == Defect
       || (|history| >= TrustWindow && forall k :: |history| - TrustWindow <= k < |history| ==> history[k].other == Cooperate))
  {
    if |history| >= TrustWindow && forall k :: |history| - TrustWindow <= k < |history| ==> history[k].other == Cooperate {
      assert TenCooperations(history, OpponentIs);
    }
  }
}
