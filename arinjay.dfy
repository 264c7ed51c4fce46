/** arinjay's bot: opens with the fixed sequence DEFECT, COOPERATE, DEFECT
    (indexed by the history length), then walks a pattern with a cursor and
    rebuilds the pattern from its last move whenever the cursor runs off
    its end. Every pattern the bot ever holds ends in DEFECT, so the rebuilt
    pattern is always [DEFECT] and the bot defects from its fourth move on. */
module Arinjay {
  import opened Game

  const Opening: seq<Move> := [Defect, Cooperate, Defect]

  /** The patterns the bot can hold: the opening sequence it starts from
      and the single DEFECT every rebuild produces. */
  predicate Reachable(p: seq<Move>)
  {
    p == Opening || p == [Defect]
  }

  /** The replacement pattern, chosen by the old pattern's last move. The
      source's third branch (a last move that is neither COOPERATE nor
      DEFECT) has no counterpart: a move is one of the two. */
  function Rebuild(p: seq<Move>): (r: seq<Move>)
    requires p != []
    ensures p[|p| - 1] == Defect ==> r == [Defect]
    ensures p[|p| - 1] == Cooperate ==> r == [Cooperate, Defect]
  {
    match p[|p| - 1]
    case Defect => [Defect]
    case Cooperate => [Cooperate, Defect]
  }

  /** Every pattern the bot holds ends in DEFECT, so a rebuild yields
      [DEFECT]. */
  lemma RebuildReachable(p: seq<Move>)
    requires Reachable(p)
    ensures Rebuild(p) == [Defect] && Reachable(Rebuild(p))
  {
  }

  /** The cursor and the pattern. */
  datatype State = State(index: nat, pattern: seq<Move>)

  /** One `turn` given the history length `seen`: the move and the next
      state. */
  function Step(s: State, seen: nat): (r: (Move, State))
    requires Reachable(s.pattern)
    ensures Reachable(r.1.pattern)
    ensures seen >= |Opening| ==> r.1.index < |r.1.pattern| && r.0 == r.1.pattern[r.1.index]
    ensures seen >= |Opening| && s.index + 1 >= |s.pattern| ==> r.1 == State(0, [Defect]) && r.0 == Defect
  {
    var index := s.index + 1;
    if seen < |Opening| then (Opening[seen], State(index, s.pattern))
    else if index >= |s.pattern| then
      var p := Rebuild(s.pattern);
      (p[0], State(0, p))
    else (s.pattern[index], State(index, s.pattern))
  }

  /** The moves of the turns that see histories of lengths `seen`..`n - 1`,
      starting from state `s`. */
  function Run(s: State, seen: nat, n: nat): (ms: seq<Move>)
    requires Reachable(s.pattern)
    decreases n - seen
    ensures |ms| == if seen <= n then n - seen else 0
  {
    if seen >= n then []
    else
      var r := Step(s, seen);
      [r.0] + Run(r.1, seen + 1, n)
  }

  /** Once the cursor has reached the end of the pattern after the opening,
      every later move is DEFECT. */
  lemma {:induction false} SettledDefects(s: State, seen: nat, n: nat)
    requires Reachable(s.pattern) && seen >= |Opening| && s.index + 1 >= |s.pattern|
    decreases n - seen
    ensures forall i :: 0 <= i < |Run(s, seen, n)| ==> Run(s, seen, n)[i] == Defect
  {
    if seen < n {
      var r := Step(s, seen);
      SettledDefects(r.1, seen + 1, n);
      assert Run(s, seen, n) == [r.0] + Run(r.1, seen + 1, n);
    }
  }

  /** After `begin` (cursor 0) the turns that see histories of lengths
      1, 2, 3, ... play COOPERATE, DEFECT and then DEFECT for ever; with the
      DEFECT `begin` plays, the match reads D, C, D, D, D, ... */
  lemma DefectsFromFourthMove(p: seq<Move>, n: nat)
    requires Reachable(p) && n >= |Opening|
    ensures Run(State(0, p), 1, n) == [Cooperate, Defect] + seq(n - |Opening|, _ => Defect)
  {
    var s2 := State(2, p);
    SettledDefects(s2, 3, n);
    assert Run(State(0, p), 1, n) == [Cooperate] + Run(State(1, p), 2, n);
    assert Run(State(1, p), 2, n) == [Defect] + Run(s2, 3, n);
  }

  class Bot {
    var index: nat
    var currentPattern: seq<Move>

    ghost predicate Valid()
      reads this
    {
      Reachable(currentPattern)
    }

    constructor()
      ensures Valid() && index == 0 && currentPattern == Opening
    {
      index := 0;
      currentPattern := Opening;
    }

    /** `begin` resets the cursor but keeps the pattern a previous match
        left behind; either way its first move is DEFECT. */
    method Begin() returns (m: Move)
      requires Valid()
      modifies this`index
      ensures Valid() && index == 0
      ensures m == currentPattern[0] && m == Defect
    {
      index := 0;
      m := currentPattern[0];
    }

    method Turn(history: seq<Round>) returns (m: Move)
      requires Valid()
      modifies this
      ensures Valid()
      ensures (m, State(index, currentPattern)) == Step(State(old(index), old(currentPattern)), |history|)
      ensures |history| >= |Opening| ==> index < |currentPattern| && m == currentPattern[index]
    {
      index := index + 1;
      if |history| < |Opening| {
        return Opening[|history|];
      }
      if index >= |currentPattern| {
        RebuildReachable(currentPattern);
        currentPattern := Rebuild(currentPattern);
        index := 0;
      }
      m := currentPattern[index];
    }
  }
}
