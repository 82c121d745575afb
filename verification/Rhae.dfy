/**
RHAE scoring in the run viewer: level scores, the weighted environment score,
and the live bounds shown while a run is in progress.  Scores are real numbers;
rounding is not modelled.
*/
module Rhae {
  const LEVEL_SCORE_CAP: real := 1.15
  const PERFECT_LEVEL_SCORE: real := 1.0

  function Min(a: real, b: real): real { if a <= b then a else b }

  function Max(a: real, b: real): real { if a >= b then a else b }

  /** The nearest number of levels there is. */
  function Clamp(level: int, n: nat): (c: nat)
    ensures c <= n && (0 <= level <= n ==> c == level) && (level < 0 ==> c == 0) && (level > n ==> c == n)
  {
    if level <= 0 then 0 else if level >= n then n else level
  }

  /** Squared action efficiency against the baseline, capped; 0 if invalid. */
  function LevelScore(baseline: int, actions: int): (r: real)
    ensures 0.0 <= r <= LEVEL_SCORE_CAP
  {
    if baseline <= 0 || actions <= 0 then 0.0 else
      var e := baseline as real / actions as real;
      Square(e);
      Min(LEVEL_SCORE_CAP, e * e)
  }

  lemma Square(e: real)
    ensures e * e >= 0.0
  {
  }

  lemma SquaredQuotient(b: real, a: real)
    requires a > 0.0
    ensures (b / a) * (b / a) * (a * a) == b * b
  {
    var q := b / a;
    assert q * a == b;
    assert q * q * (a * a) == (q * a) * (q * a);
  }

  /** A level's score times the square of its actions is the square of its baseline,
      unless that would exceed the cap of 1.15; par scores 1, and an invalid level 0. */
  lemma LevelScoreIsSquared(baseline: int, actions: int)
    ensures baseline <= 0 || actions <= 0 ==> LevelScore(baseline, actions) == 0.0
    ensures baseline > 0 && actions > 0 ==>
      var b, a := baseline as real, actions as real;
      if b * b >= 1.15 * (a * a) then LevelScore(baseline, actions) == 1.15
      else LevelScore(baseline, actions) * (a * a) == b * b
    ensures baseline == actions > 0 ==> LevelScore(baseline, actions) == 1.0
  {
    if baseline > 0 && actions > 0 {
      var b, a := baseline as real, actions as real;
      var s := (b / a) * (b / a);
      SquaredQuotient(b, a);
      MulPositive(a, a);
      if s >= 1.15 { MulMonotone(1.15, s, a * a); } else { MulStrict(s, 1.15, a * a); }
      if baseline == actions { assert b / a == 1.0; }
    }
  }

  lemma MulPositive(x: real, y: real)
    requires x > 0.0 && y > 0.0
    ensures x * y > 0.0
  {
  }

  function Bounded(score: real): (r: real)
    ensures 0.0 <= r <= LEVEL_SCORE_CAP
    ensures (score < 0.0 ==> r == 0.0) && (0.0 <= score <= 1.15 ==> r == score) && (score > 1.15 ==> r == 1.15)
  {
    Min(LEVEL_SCORE_CAP, Max(0.0, score))
  }

  /** The total weight of the first `c` levels; level `i` weighs `i + 1`. */
  function Weight(c: nat): (w: real)
    ensures c > 0 ==> w > 0.0
  {
    if c == 0 then 0.0 else Weight(c - 1) + c as real
  }

  lemma {:induction false} WeightClosedForm(c: nat)
    ensures Weight(c) == c as real * (c as real + 1.0) / 2.0
  {
    if c > 0 {
      WeightClosedForm(c - 1);
      var x := c as real;
      assert (c - 1) as real == x - 1.0;
      assert (x - 1.0) * (x - 1.0 + 1.0) == x * x - x;
      assert x * (x + 1.0) == x * x + x;
    }
  }

  function ScoreAt(scores: seq<real>, i: nat): (r: real)
    ensures 0.0 <= r <= LEVEL_SCORE_CAP
  {
    if i < |scores| then Bounded(scores[i]) else 0.0
  }

  /** What level `i` contributes: its score times its weight. */
  function Term(scores: seq<real>, i: nat): real {
    (i + 1) as real * ScoreAt(scores, i)
  }

  function Weighted(scores: seq<real>, c: nat): real {
    if c == 0 then 0.0 else Weighted(scores, c - 1) + Term(scores, c - 1)
  }

  /** The environment score over `n` levels of which the first `c` are completed:
      the weighted mean, held under the weight share of the completed levels. */
  function Score(scores: seq<real>, n: nat, c: nat): real {
    if n == 0 then 0.0 else Min(Weight(MinNat(c, n)) / Weight(n), Weighted(scores, MinNat(c, n)) / Weight(n))
  }

  function MinNat(a: nat, b: nat): nat { if a <= b then a else b }

  method WeightedFraction(n: int, completed: int) returns (r: real)
    ensures r == if n <= 0 then 0.0 else Weight(Clamp(completed, n)) / Weight(n)
  {
    if n <= 0 { return 0.0; }
    var c := Clamp(completed, n);
    WeightClosedForm(c);
    WeightClosedForm(n);
    return (c as real * (c as real + 1.0) / 2.0) / (n as real * (n as real + 1.0) / 2.0);
  }

  method ScoreFromLevelScores(scores: seq<real>, n: int, completed: int) returns (r: real)
    ensures r == if n <= 0 then 0.0 else Score(scores, n, Clamp(completed, n))
  {
    if n <= 0 { return 0.0; }
    var c := Clamp(completed, n);
    var total := n as real * (n as real + 1.0) / 2.0;
    WeightClosedForm(n);
    var weighted := 0.0;
    for i := 0 to c
      invariant weighted == Weighted(scores, i)
    {
      var score := if i < |scores| then scores[i] else 0.0;
      weighted := weighted + (i + 1) as real * Bounded(score);
    }
    var envCap := WeightedFraction(n, c);
    return Min(envCap, weighted / total);
  }

  lemma {:induction false} UniformWeighted(scores: seq<real>, c: nat, v: real)
    requires c <= |scores| && 0.0 <= v <= 1.15 && forall i :: 0 <= i < c ==> scores[i] == v
    ensures Weighted(scores, c) == Times(Weight(c), v)
  {
    if c > 0 {
      UniformWeighted(scores, c - 1, v);
      assert Term(scores, c - 1) == c as real * v;
      assert (Weight(c - 1) + c as real) * v == Weight(c - 1) * v + c as real * v;
    }
  }

  /** Levels that all score `v` give `v` times the weight share of the completed ones,
      and no score lifts the environment above that share. */
  lemma UniformScore(scores: seq<real>, n: nat, c: nat, v: real)
    requires 0 < n && c <= n && c <= |scores| && 0.0 <= v <= 1.15 && forall i :: 0 <= i < c ==> scores[i] == v
    ensures Score(scores, n, c) == if v <= 1.0 then Times(Weight(c), v) / Weight(n) else Weight(c) / Weight(n)
  {
    UniformWeighted(scores, c, v);
    WeightMonotone(0, c);
    assert MinNat(c, n) == c;
    CappedShare(Weight(c), v, Times(Weight(c), v), Weight(n));
  }

  function Times(x: real, y: real): real { x * y }

  lemma CappedShare(w: real, v: real, x: real, t: real)
    requires w >= 0.0 && t > 0.0 && x == Times(w, v)
    ensures Min(w / t, x / t) == if v <= 1.0 then x / t else w / t
  {
    if v <= 1.0 {
      MulMonotone(v, 1.0, w);
      DivMonotone(x, w, t);
    } else {
      MulMonotone(1.0, v, w);
      DivMonotone(w, x, t);
    }
  }

  // ------------------------------------------------------------ live bounds

  /** The recorded scores of the levels completed so far, later levels at 0. */
  function LowerScores(n: nat, recorded: seq<real>, c: nat): (r: seq<real>)
    ensures |r| == n
  {
    seq(n, i requires 0 <= i < n => if i < c && i < |recorded| then Bounded(recorded[i]) else 0.0)
  }

  /** The current level finished with one more action, every later one at par. */
  function OptimisticScores(baselines: seq<int>, recorded: seq<real>, c: nat, actions: int): (r: seq<real>)
    requires c < |baselines|
    ensures |r| == |baselines|
  {
    seq(|baselines|, i requires 0 <= i < |baselines| =>
      if i < c then LowerScores(|baselines|, recorded, c)[i]
      else if i == c then LevelScore(baselines[c], NextActions(actions))
      else PERFECT_LEVEL_SCORE)
  }

  function NextActions(actions: int): int { (if actions > 0 then actions else 0) + 1 }

  function Lower(baselines: seq<int>, recorded: seq<real>, level: int): real {
    var n := |baselines|;
    Score(LowerScores(n, recorded, Clamp(level, n)), n, Clamp(level, n))
  }

  function Upper(baselines: seq<int>, recorded: seq<real>, level: int, actions: int, done: bool): real {
    var n := |baselines|;
    var c := Clamp(level, n);
    if done || c >= n then Lower(baselines, recorded, level)
    else Score(OptimisticScores(baselines, recorded, c, actions), n, n)
  }

  method RhaeBounds(baselines: seq<int>, recorded: seq<real>, level: int, actions: int, done: bool)
    returns (lower: real, upper: real)
    ensures lower == Lower(baselines, recorded, level)
    ensures upper == Upper(baselines, recorded, level, actions, done)
  {
    var n := |baselines|;
    if n <= 0 { return 0.0, 0.0; }
    var c := Clamp(level, n);
    var scores := seq(n, i => 0.0);
    var m := MinNat(c, |recorded|);
    for i := 0 to m
      invariant |scores| == n
      invariant forall j :: 0 <= j < n ==> scores[j] == if j < i then Bounded(recorded[j]) else 0.0
    {
      scores := scores[i := Bounded(recorded[i])];
    }
    assert scores == LowerScores(n, recorded, c);
    lower := ScoreFromLevelScores(scores, n, c);
    if done || c >= n { return lower, lower; }
    scores := scores[c := LevelScore(baselines[c], NextActions(actions))];
    for i := c + 1 to n
      invariant |scores| == n
      invariant forall j :: 0 <= j < n ==>
                  scores[j] == if c < j < i then PERFECT_LEVEL_SCORE
                               else if j == c then LevelScore(baselines[c], NextActions(actions))
                               else LowerScores(n, recorded, c)[j]
    {
      scores := scores[i := PERFECT_LEVEL_SCORE];
    }
    assert scores == OptimisticScores(baselines, recorded, c, actions);
    upper := ScoreFromLevelScores(scores, n, n);
    LowerBelowUpper(baselines, recorded, level, actions);
    upper := Max(lower, upper);
  }

  // ------------------------------------------------------------ monotonicity

  lemma TermMonotone(s: seq<real>, t: seq<real>, i: nat)
    ensures 0.0 <= Term(t, i)
    ensures ScoreAt(s, i) <= ScoreAt(t, i) ==> 0.0 <= Term(s, i) <= Term(t, i)
  {
    var x, a, b := (i + 1) as real, ScoreAt(s, i), ScoreAt(t, i);
    assert Term(s, i) == x * a && Term(t, i) == x * b;
    MulNonNegative(x, a);
    MulNonNegative(x, b);
    if a <= b { MulMonotone(a, b, x); }
  }

  lemma MulNonNegative(x: real, a: real)
    requires x >= 0.0 && a >= 0.0
    ensures x * a >= 0.0
  {
  }

  lemma {:induction false} WeightedMonotone(s: seq<real>, t: seq<real>, c: nat, d: nat)
    requires c <= d && forall i :: 0 <= i < c ==> ScoreAt(s, i) <= ScoreAt(t, i)
    ensures 0.0 <= Weighted(s, c) <= Weighted(t, d)
    decreases d
  {
    if d > 0 {
      TermMonotone(s, t, d - 1);
      WeightedMonotone(s, t, if c == d then c - 1 else c, d - 1);
    }
  }

  lemma MulMonotone(a: real, b: real, x: real)
    requires a <= b && x >= 0.0
    ensures x * a <= x * b
  {
  }

  lemma DivMonotone(a: real, b: real, x: real)
    requires a <= b && x > 0.0
    ensures a / x <= b / x
  {
  }

  lemma {:induction false} WeightMonotone(c: nat, d: nat)
    requires c <= d
    ensures 0.0 <= Weight(c) <= Weight(d)
    decreases d
  {
    if c < d { WeightMonotone(c, d - 1); }
  }

  lemma ShareMonotone(a: real, x: real, b: real, y: real, total: real)
    requires 0.0 <= a <= b <= total && 0.0 <= x <= y && total > 0.0
    ensures 0.0 <= Min(a / total, x / total) <= Min(b / total, y / total) <= 1.0
  {
    DivMonotone(a, b, total);
    DivMonotone(x, y, total);
    DivMonotone(0.0, a, total);
    DivMonotone(0.0, x, total);
    DivMonotone(b, total, total);
  }

  /** The score grows with the level scores and with the number of completed levels. */
  lemma ScoreMonotone(s: seq<real>, t: seq<real>, n: nat, c: nat, d: nat)
    requires c <= d <= n && forall i :: 0 <= i < c ==> ScoreAt(s, i) <= ScoreAt(t, i)
    ensures Score(s, n, c) <= Score(t, n, d)
    ensures 0.0 <= Score(s, n, c) <= 1.0
  {
    if n > 0 {
      WeightedMonotone(s, t, c, d);
      WeightMonotone(c, d);
      WeightMonotone(d, n);
      ShareMonotone(Weight(c), Weighted(s, c), Weight(d), Weighted(t, d), Weight(n));
    }
  }

  /** More actions never raise a level's score. */
  lemma LevelScoreAntitone(baseline: int, fewer: int, more: int)
    requires 0 < fewer <= more
    ensures LevelScore(baseline, more) <= LevelScore(baseline, fewer)
  {
    if baseline > 0 {
      var b, x, y := baseline as real, fewer as real, more as real;
      QuotientAntitone(b, x, y);
      SquareMonotone(b / y, b / x);
    }
  }

  lemma SquareMonotone(p: real, q: real)
    requires 0.0 <= p <= q
    ensures p * p <= q * q
  {
    MulMonotone(p, q, p);
    MulMonotone(p, q, q);
    assert p * q == q * p;
  }

  lemma QuotientAntitone(b: real, x: real, y: real)
    requires b > 0.0 && 0.0 < x <= y
    ensures 0.0 <= b / y <= b / x
  {
    var p, q := b / x, b / y;
    assert q * y == b && p * x == b;
    DivMonotone(0.0, b, y);
    MulMonotone(x, y, q);
    DivMonotone(q * x, b, x);
    assert q * x / x == q;
  }

  // ------------------------------------------------------------ every future

  /** A way the run may end: the recorded levels stand; if the current level is
      completed, it took at least one more action; later levels are at par or below. */
  ghost predicate Future(baselines: seq<int>, recorded: seq<real>, level: int, actions: int,
                         scores: seq<real>, completed: nat)
  {
    var n := |baselines|;
    var c := Clamp(level, n);
    && c <= completed <= n && |scores| == n
    && (forall i :: 0 <= i < c ==> ScoreAt(scores, i) == if i < |recorded| then Bounded(recorded[i]) else 0.0)
    && (c < completed ==> exists a :: a > 0 && a > actions && scores[c] == LevelScore(baselines[c], a))
    && (forall i :: c < i < completed ==> scores[i] <= 1.0)
  }

  lemma LowerBelowUpper(baselines: seq<int>, recorded: seq<real>, level: int, actions: int)
    ensures Lower(baselines, recorded, level) <= Upper(baselines, recorded, level, actions, false)
  {
    var n := |baselines|;
    var c := Clamp(level, n);
    if c < n {
      ScoreMonotone(LowerScores(n, recorded, c), OptimisticScores(baselines, recorded, c, actions), n, c, n);
    }
  }

  /** Every way the run may end scores between the live bounds, which lie in [0, 1]. */
  lemma BoundsHoldForEveryFuture(baselines: seq<int>, recorded: seq<real>, level: int, actions: int,
                                 scores: seq<real>, completed: nat)
    requires Future(baselines, recorded, level, actions, scores, completed)
    ensures 0.0 <= Lower(baselines, recorded, level) <= Score(scores, |baselines|, completed)
    ensures Score(scores, |baselines|, completed) <= Upper(baselines, recorded, level, actions, false) <= 1.0
  {
    var n := |baselines|;
    var c := Clamp(level, n);
    var low := LowerScores(n, recorded, c);
    ScoreMonotone(low, scores, n, c, completed);
    if c == n {
      ScoreMonotone(scores, low, n, c, c);
    } else {
      var top := OptimisticScores(baselines, recorded, c, actions);
      if c < completed {
        var a :| a > 0 && a > actions && scores[c] == LevelScore(baselines[c], a);
        LevelScoreAntitone(baselines[c], NextActions(actions), a);
      }
      forall i | 0 <= i < completed ensures ScoreAt(scores, i) <= ScoreAt(top, i) {
        if i < c {
          assert top[i] == low[i] == ScoreAt(scores, i);
        } else if i > c {
          assert top[i] == PERFECT_LEVEL_SCORE && scores[i] <= PERFECT_LEVEL_SCORE;
        }
      }
      ScoreMonotone(scores, top, n, completed, n);
      ScoreMonotone(top, top, n, n, n);
    }
  }

  /** Both bounds are attained: stopping now scores the lower one, and finishing
      the level at once with par on the rest scores the upper one. */
  lemma BoundsAttained(baselines: seq<int>, recorded: seq<real>, level: int, actions: int)
    requires Clamp(level, |baselines|) < |baselines|
    ensures var n := |baselines|; var c := Clamp(level, n); var low := LowerScores(n, recorded, c);
            Future(baselines, recorded, level, actions, low, c) && Score(low, n, c) == Lower(baselines, recorded, level)
    ensures var n := |baselines|; var top := OptimisticScores(baselines, recorded, Clamp(level, n), actions);
            Future(baselines, recorded, level, actions, top, n)
            && Score(top, n, n) == Upper(baselines, recorded, level, actions, false)
  {
    assert NextActions(actions) > 0 && NextActions(actions) > actions;
  }

  /** Changing one level's score changes the weighted sum by that level's term. */
  lemma {:induction false} WeightedUpdate(s: seq<real>, j: nat, v: real, c: nat)
    requires j < |s| && c <= |s|
    ensures Weighted(s[j := v], c) == Weighted(s, c) + (if j < c then Term(s[j := v], j) - Term(s, j) else 0.0)
  {
    if c > 0 {
      WeightedUpdate(s, j, v, c - 1);
      if j != c - 1 { assert Term(s[j := v], c - 1) == Term(s, c - 1); }
    }
  }

  /** Level `j`, counted from 0, weighs `j + 1`. */
  lemma LevelWeighs(s: seq<real>, j: nat, v: real, c: nat)
    requires j < c <= |s|
    ensures Weighted(s[j := v], c) - Weighted(s, c) == (j + 1) as real * (Bounded(v) - Bounded(s[j]))
  {
    WeightedUpdate(s, j, v, c);
    var x, a, b := (j + 1) as real, Bounded(v), Bounded(s[j]);
    assert x * (a - b) == x * a - x * b;
  }

  lemma MulStrict(a: real, b: real, x: real)
    requires a < b && x > 0.0
    ensures x * a < x * b
  {
  }

  lemma DivStrict(a: real, b: real, x: real)
    requires a < b && x > 0.0
    ensures a / x < b / x
  {
  }

  lemma TermStrict(s: seq<real>, t: seq<real>, i: nat)
    requires ScoreAt(s, i) < ScoreAt(t, i)
    ensures Term(s, i) < Term(t, i)
  {
    var x, a, b := (i + 1) as real, ScoreAt(s, i), ScoreAt(t, i);
    assert Term(s, i) == x * a && Term(t, i) == x * b;
    MulStrict(a, b, x);
  }

  lemma HigherScoreRaises(s: seq<real>, j: nat, v: real)
    requires j < |s| && ScoreAt(s, j) < v <= LEVEL_SCORE_CAP
    ensures Weighted(s, |s|) < Weighted(s[j := v], |s|)
  {
    WeightedUpdate(s, j, v, |s|);
    TermStrict(s, s[j := v], j);
  }

  /** Exactly when a later level above par beats the upper bound: whenever the
      optimistic sum stays below the full weight, for any such level and score. */
  lemma AboveParBeatsUpperIff(baselines: seq<int>, recorded: seq<real>, level: int, actions: int, j: nat, v: real)
    requires Clamp(level, |baselines|) < j < |baselines| && PERFECT_LEVEL_SCORE < v <= LEVEL_SCORE_CAP
    ensures var n := |baselines|; var top := OptimisticScores(baselines, recorded, Clamp(level, n), actions);
            Score(top[j := v], n, n) > Upper(baselines, recorded, level, actions, false)
            <==> Weighted(top, n) < Weight(n)
  {
    var n := |baselines|;
    var top := OptimisticScores(baselines, recorded, Clamp(level, n), actions);
    var total, plain, raised := Weight(n), Weighted(top, n), Weighted(top[j := v], n);
    HigherScoreRaises(top, j, v);
    DivStrict(plain, raised, total);
    FullShare(total);
    if plain < total { DivStrict(plain, total, total); } else { DivMonotone(total, plain, total); }
  }

  lemma FullShare(total: real)
    requires total > 0.0
    ensures total / total == 1.0
  {
  }

  /** The par assumption is needed: a later level above par can beat the upper bound. */
  lemma AboveParBeatsUpper()
    ensures var baselines := [1, 1]; var scores := [LevelScore(1, 10), LEVEL_SCORE_CAP];
            Score(scores, 2, 2) > Upper(baselines, [], 0, 9, false)
  {
    var top := OptimisticScores([1, 1], [], 0, 9);
    var scores := [LevelScore(1, 10), LEVEL_SCORE_CAP];
    assert NextActions(9) == 10;
    assert top == [LevelScore(1, 10), 1.0];
    assert LevelScore(1, 10) == 0.01;
    assert Weight(2) == 3.0 by { assert Weight(1) == 1.0; }
    assert Weighted(top, 2) == 0.01 + 2.0 by { assert Weighted(top, 1) == 0.01; }
    assert Weighted(scores, 2) == 0.01 + 2.3 by { assert Weighted(scores, 1) == 0.01; }
  }
}
