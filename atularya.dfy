/** AtulArya's calibration bot: a stateless schedule on the round number.
    During the first thirty rounds it defects on every fourth round and
    cooperates otherwise; from round thirty-one on it always defects. */
module AtulArya {
  import opened Game

  const CalibrationWindow: nat := 30
  const DefectEveryK: nat := 4

  /** The move for round `roundNum` (the first round is 1). */
  function Schedule(roundNum: nat): Move
  {
    if roundNum <= CalibrationWindow then
      if roundNum % DefectEveryK == 0 then Defect else Cooperate
    else Defect
  }

  /** The opening move is the schedule's move for round 1. */
  function Begin(): (m: Move)
    ensures m == Cooperate && m == Turn([])
  {
    Cooperate
  }

  /** A later move: the history is consulted only for its length, the
      current round being one past it. */
  function Turn(history: seq<Round>): (m: Move)
    ensures |history| + 1 <= CalibrationWindow ==> (m == Defect <==> (|history| + 1) % DefectEveryK == 0)
    ensures |history| + 1 > CalibrationWindow ==> m == Defect
  {
    Schedule(|history| + 1)
  }

  /** Two histories of the same length get the same move. */
  lemma TurnDependsOnlyOnLength(h1: seq<Round>, h2: seq<Round>)
    requires |h1| == |h2|
    ensures Turn(h1) == Turn(h2)
  {
  }

  /** Number of defections the schedule plays in rounds 1..n. */
  function DefectionsUpTo(n: nat): (d: nat)
    ensures d <= n
  {
    if n == 0 then 0 else DefectionsUpTo(n - 1) + (if Schedule(n) == Defect then 1 else 0)
  }

  /** Within the calibration window exactly one round in four defects. */
  lemma {:induction false} CalibrationDefections(n: nat)
    requires n <= CalibrationWindow
    ensures DefectionsUpTo(n) == n / DefectEveryK
  {
    if n > 0 {
      CalibrationDefections(n - 1);
      assert n / 4 == (n - 1) / 4 + (if n % 4 == 0 then 1 else 0);
    }
  }

  /** The thirty calibration rounds hold exactly seven defections. */
  lemma SevenCalibrationDefections()
    ensures DefectionsUpTo(CalibrationWindow) == 7
  {
    CalibrationDefections(CalibrationWindow);
  }

  /** Every round past the window adds one defection. */
  lemma {:induction false} DefectionsAfterWindow(n: nat)
    requires n >= CalibrationWindow
    ensures DefectionsUpTo(n) == 7 + (n - CalibrationWindow)
  {
    if n == CalibrationWindow {
      SevenCalibrationDefections();
    } else {
      DefectionsAfterWindow(n - 1);
    }
  }
}
