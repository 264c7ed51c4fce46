/** Shared vocabulary of the Iterated Prisoner's Dilemma bots: the two-valued
    move, one round of history, the 0/1 bit encoding the bots keep in their
    buffers, and the counting helpers every bot derives its rates from. */
module Game {

  datatype Option<T> = None | Some(value: T)

  datatype Move = Cooperate | Defect

  /** One completed round as the harness reports it: this bot's move first
      (`self` in the harness), the opponent's move second (`other`). */
  datatype Round = Round(own: Move, other: Move)

  /** The shapes a move can arrive in inside a history entry: a Move, a
      string, an integer, an object with a `.value`, None, or anything
      else. */
  datatype Value = MoveValue(m: Move) | Text(s: string) | Int(i: int) | WithValue(v: int) | NoValue | OtherValue

  /** A history entry: an object with `self`/`other` attributes, a list or
      tuple of values, or anything else. */
  datatype RawEntry = Record(own: Value, other: Value) | Tuple(items: seq<Value>) | OtherEntry

  /** A value of `random.random()`: the bots' random draws are passed in
      as parameters. */
  type Draw = r: real | 0.0 <= r < 1.0

  /** The bots' buffers store 0 for COOPERATE and 1 for DEFECT. */
  type Bit = b: int | 0 <= b <= 1

  function BitOf(m: Move): (b: Bit)
    ensures b == 0 <==> m == Cooperate
  {
    if m == Cooperate then 0 else 1
  }

  function MoveOfBit(b: Bit): (m: Move)
    ensures m == Cooperate <==> b == 0
  {
    if b == 0 then Cooperate else Defect
  }

  lemma BitRoundTrip(m: Move, b: Bit)
    ensures MoveOfBit(BitOf(m)) == m
    ensures BitOf(MoveOfBit(b)) == b
  {
  }

  function Flip(m: Move): (r: Move)
    ensures r != m
  {
    if m == Cooperate then Defect else Cooperate
  }

  /** The opponent's moves of a history, oldest first. */
  function Others(h: seq<Round>): (r: seq<Move>)
    ensures |r| == |h|
  {
    seq(|h|, i requires 0 <= i < |h| => h[i].other)
  }

  /** This bot's own moves of a history, oldest first. */
  function Owns(h: seq<Round>): (r: seq<Move>)
    ensures |r| == |h|
  {
    seq(|h|, i requires 0 <= i < |h| => h[i].own)
  }

  lemma OthersOwnsAppend(h: seq<Round>, r: Round)
    ensures Others(h + [r]) == Others(h) + [r.other]
    ensures Owns(h + [r]) == Owns(h) + [r.own]
  {
    assert (h + [r])[..|h|] == h;
  }

  /** The four transition counters: how many recorded rounds had each
      (own move, opponent move) pair. */
  datatype Counts = Counts(cc: nat, cd: nat, dc: nat, dd: nat)
  {
    function Total(): nat { cc + cd + dc + dd }

    /** The counter of one (own, opponent) pair. */
    function Cell(my: Move, opp: Move): nat
    {
      match (my, opp)
      case (Cooperate, Cooperate) => cc
      case (Cooperate, Defect) => cd
      case (Defect, Cooperate) => dc
      case (Defect, Defect) => dd
    }

    /** Count one recorded round: the first matching branch of the
        CC / CD / DC / otherwise chain bumps its counter. */
    function Record(my: Move, opp: Move): (r: Counts)
      ensures r.Cell(my, opp) == Cell(my, opp) + 1
      ensures forall a: Move, b: Move :: (a != my || b != opp) ==> r.Cell(a, b) == Cell(a, b)
      ensures r.Total() == Total() + 1
    {
      if my == Cooperate && opp == Cooperate then this.(cc := cc + 1)
      else if my == Cooperate && opp == Defect then this.(cd := cd + 1)
      else if my == Defect && opp == Cooperate then this.(dc := dc + 1)
      else this.(dd := dd + 1)
    }
  }

  /** Number of occurrences of `x` in `s` (Python's `list.count`). */
  function Count<T(==)>(s: seq<T>, x: T): (c: nat)
    ensures c <= |s|
  {
    if s == [] then 0 else Count(s[..|s| - 1], x) + (if s[|s| - 1] == x then 1 else 0)
  }

  lemma {:induction false} CountBound<T>(s: seq<T>, x: T)
    ensures Count(s, x) <= |s|
    ensures Count(s, x) == |s| <==> forall i :: 0 <= i < |s| ==> s[i] == x
    ensures Count(s, x) == 0 <==> forall i :: 0 <= i < |s| ==> s[i] != x
  {
    if s != [] {
      CountBound(s[..|s| - 1], x);
      assert forall i :: 0 <= i < |s| - 1 ==> s[..|s| - 1][i] == s[i];
    }
  }

  lemma {:induction false} CountAppend<T>(s: seq<T>, t: seq<T>, x: T)
    ensures Count(s + t, x) == Count(s, x) + Count(t, x)
  {
    if t != [] {
      assert (s + t)[..|s + t| - 1] == s + t[..|t| - 1];
      CountAppend(s, t[..|t| - 1], x);
    } else {
      assert s + t == s;
    }
  }

  /** Every move is one of the two values, so the two counts add up. */
  lemma {:induction false} CountMoves(s: seq<Move>)
    ensures Count(s, Cooperate) + Count(s, Defect) == |s|
  {
    if s != [] {
      CountMoves(s[..|s| - 1]);
      assert s[|s| - 1] == Cooperate || s[|s| - 1] == Defect;
    }
  }

  lemma {:induction false} CountBits(s: seq<Bit>)
    ensures Count(s, 0) + Count(s, 1) == |s|
  {
    if s != [] {
      CountBits(s[..|s| - 1]);
    }
  }

  /** Number of adjacent positions whose values differ (the "changes" the
      classifiers turn into a stability measure). */
  function Changes<T(==)>(s: seq<T>): nat
  {
    if |s| < 2 then 0
    else Changes(s[..|s| - 1]) + (if s[|s| - 1] != s[|s| - 2] then 1 else 0)
  }

  lemma {:induction false} ChangesBound<T>(s: seq<T>)
    ensures |s| >= 1 ==> Changes(s) <= |s| - 1
    ensures Changes(s) == 0 <==> forall i :: 0 < i < |s| ==> s[i] == s[i - 1]
  {
    if |s| >= 2 {
      ChangesBound(s[..|s| - 1]);
      assert forall i :: 0 <= i < |s| - 1 ==> s[..|s| - 1][i] == s[i];
    }
  }

  /** Number of positions `k` in 1..|o|-1 at which the opponent repeated
      this bot's previous move. */
  function Echoes(o: seq<Move>, m: seq<Move>): (c: nat)
    requires |o| == |m|
    ensures |o| >= 1 ==> c <= |o| - 1
  {
    if |o| < 2 then 0
    else Echoes(o[..|o| - 1], m[..|m| - 1]) + (if o[|o| - 1] == m[|m| - 2] then 1 else 0)
  }

  lemma {:induction false} EchoesAll(o: seq<Move>, m: seq<Move>)
    requires |o| == |m| >= 1
    ensures Echoes(o, m) == |o| - 1 <==> forall k :: 1 <= k < |o| ==> o[k] == m[k - 1]
  {
    if |o| >= 2 {
      EchoesAll(o[..|o| - 1], m[..|m| - 1]);
      assert forall k :: 1 <= k < |o| - 1 ==> o[..|o| - 1][k] == o[k] && m[..|m| - 1][k - 1] == m[k - 1];
    }
  }

  /** Length of the trailing run of `x` (e.g. the opponent's unbroken
      cooperation streak counted backwards from the last round). */
  function TrailingRun<T(==)>(s: seq<T>, x: T): (r: nat)
    ensures r <= |s|
    ensures forall i :: |s| - r <= i < |s| ==> s[i] == x
    ensures r < |s| ==> s[|s| - 1 - r] != x
  {
    if s == [] || s[|s| - 1] != x then 0 else TrailingRun(s[..|s| - 1], x) + 1
  }

  /** Python's `s[-w:] if len(s) >= w else s`: the last `w` items, or all of
      them when there are fewer (a zero `w` slices the whole list). */
  function Suffix<T>(s: seq<T>, w: nat): (r: seq<T>)
    ensures |r| == if w == 0 || w >= |s| then |s| else w
  {
    if w == 0 || w >= |s| then s else s[|s| - w..]
  }

  /** Appending to a buffer that holds at most `cap` items and evicts the
      oldest first (a bounded deque, or `append` followed by `pop(0)`). */
  function Push<T>(w: seq<T>, x: T, cap: nat): (r: seq<T>)
    requires 1 <= cap && |w| <= cap
    ensures |r| == if |w| < cap then |w| + 1 else cap
    ensures r[|r| - 1] == x
  {
    var e := w + [x];
    if |e| > cap then e[1..] else e
  }

  /** A bounded buffer fed every item of `s` holds the last `cap` of them. */
  lemma PushSuffix<T>(s: seq<T>, x: T, cap: nat)
    requires 1 <= cap
    ensures Push(Suffix(s, cap), x, cap) == Suffix(s + [x], cap)
  {
    var w := Suffix(s, cap);
    var r := Push(w, x, cap);
    if |s| < cap {
      assert w == s && r == s + [x];
    } else {
      assert w == s[|s| - cap..];
      assert r == (w + [x])[1..];
      assert |r| == cap;
      forall i | 0 <= i < cap
        ensures r[i] == (s + [x])[|s| + 1 - cap..][i]
      {
      }
    }
  }

  /** An exact fraction of two counts. */
  function Ratio(a: nat, n: nat): (r: real)
    requires a <= n && n > 0
    ensures 0.0 <= r <= 1.0
    ensures r == 1.0 <==> a == n
    ensures r == 0.0 <==> a == 0
  {
    a as real / n as real
  }

  function Max(a: int, b: int): int { if a < b then b else a }

  function Min(a: int, b: int): int { if a < b then a else b }

  function Abs(x: real): real { if x < 0.0 then -x else x }
}
