/** How strongly one match moves a player: the experience curve, the streak and the surprise,
    each pinned at every point, and what more games or longer streaks do to a rating change. */
module RatingFactors {
  import opened RatingEngine
  import opened RatingDeltas
  import opened RatingPlayers

  // ---------------------------------------------------------------------------
  // The three factors
  // ---------------------------------------------------------------------------

  /** The experience curve: the top value through calibration, the bottom value from veteran
      games on, and in between the straight line from the default value to the bottom. */
  ghost predicate OnExperienceCurve(c: Tuning, games: nat, b: real) {
    && (games <= c.calibrationGames ==> b == c.kMax)
    && (games >= c.veteranGames ==> b == c.kMin)
    && (c.calibrationGames < games < c.veteranGames ==>
          (b - c.kMin) * (c.veteranGames - c.calibrationGames) as real
          == (c.kDefault - c.kMin) * (c.veteranGames - games) as real)
  }

  /** The longer of the two streaks. */
  ghost predicate IsStreak(p: Player, streak: nat) {
    streak in {p.wins, p.losses} && p.wins <= streak && p.losses <= streak
  }

  /** The streak factor: one below the threshold, a tenth more per further game, up to the cap. */
  ghost predicate OnStreakCurve(c: Tuning, streak: nat, s: real) {
    if streak < c.streakThreshold then s == 1.0
    else
      var grown := 1.0 + (streak - c.streakThreshold) as real / 10.0;
      s <= grown && s <= c.streakMax && (s == grown || s == c.streakMax)
  }

  /** The surprise factor: one more than the surprise, between one and two. */
  ghost predicate OnSurpriseCurve(surprise: real, u: real) {
    && (surprise <= 0.0 ==> u == 1.0)
    && (0.0 <= surprise <= 1.0 ==> u - 1.0 == surprise)
    && (surprise >= 1.0 ==> u == 2.0)
  }

  lemma Complement(t: real, n: real, m: real)
    requires n > 0.0 && t == m / n
    ensures (1.0 - t) * n == n - m
  {
    assert t * n == m;
  }

  lemma Regroup(a: real, x: real, n: real, y: real)
    requires x * n == y
    ensures (a * x) * n == a * y
  {
    assert (a * x) * n == a * (x * n);
  }

  lemma LineThrough(a: real, t: real, n: real, m: real, rise: real)
    requires n > 0.0 && t == m / n && rise == a * (1.0 - t)
    ensures rise * n == a * (n - m)
  {
    Complement(t, n, m);
    Regroup(a, 1.0 - t, n, n - m);
  }

  lemma TimesSign(n: real, d: real)
    requires n > 0.0
    ensures (d > 0.0 <==> n * d > 0.0) && (d < 0.0 <==> n * d < 0.0)
  {
    if d > 0.0 { assert n * d > 0.0; } else if d < 0.0 { assert n * -d > 0.0; }
  }

  lemma TimesKeepsOrder(n: real, x: real, y: real)
    requires n > 0.0
    ensures x <= y <==> n * x <= n * y
  {
    TimesSign(n, y - x);
    assert n * (y - x) == n * y - n * x;
  }

  lemma ShareOfCareer(n: real, m: real, t: real)
    requires n > 0.0 && m > 0.0 && t == m / n
    ensures t > 0.0 && (m >= n <==> t >= 1.0)
  {
    assert n * t == m;
    TimesSign(n, t);
    TimesKeepsOrder(n, 1.0, t);
  }

  lemma BaseIsOnCurve(c: Tuning, games: nat)
    ensures OnExperienceCurve(c, games, BaseK(c, games))
  {
    if c.calibrationGames < games {
      var n, m := (c.veteranGames - c.calibrationGames) as real, (games - c.calibrationGames) as real;
      ShareOfCareer(n, m, m / n);
      if games < c.veteranGames {
        LineThrough(c.kDefault - c.kMin, m / n, n, m, BaseK(c, games) - c.kMin);
      }
    }
  }

  /** The default settings in numbers: 48 up to 30 games, 10 from 200 games on, and in between 24
      less 14 for every 170 games. */
  lemma DefaultCurve(games: nat, b: real)
    requires OnExperienceCurve(DEFAULT, games, b)
    ensures Ordered(DEFAULT)
    ensures games <= 30 ==> b == 48.0
    ensures games >= 200 ==> b == 10.0
    ensures 30 < games < 200 ==> b == 24.0 - 14.0 * (games - 30) as real / 170.0
  {
  }

  /** By default the streak factor starts to grow at the fourth game of a streak and is one and a
      half from the eighth on. */
  lemma DefaultStreaks(streak: nat, s: real)
    requires OnStreakCurve(DEFAULT, streak, s)
    ensures streak <= 3 ==> s == 1.0
    ensures 3 <= streak <= 8 ==> s == 1.0 + (streak - 3) as real / 10.0
    ensures streak >= 8 ==> s == 1.5
  {
  }

  lemma StreakIsOnCurve(c: Tuning, p: Player, streak: nat)
    requires IsStreak(p, streak)
    ensures OnStreakCurve(c, streak, StreakFactor(c, p))
  {
  }

  lemma SurpriseIsOnCurve(surprise: real)
    ensures OnSurpriseCurve(surprise, Upset(surprise)) && 1.0 <= Upset(surprise)
  {
  }

  lemma ThreeFactors(k: real, w: real, b: real, s: real, u: real)
    requires k == w * u && w == b * s
    ensures k == b * s * u
  {
  }

  lemma KSplits(c: Tuning, p: Player, surprise: real, k: real, b: real, s: real, u: real)
    requires k == DynamicK(c, p, surprise) && b == BaseK(c, p.games) && s == StreakFactor(c, p) && u == Upset(surprise)
    ensures k == b * s * u
  {
    ThreeFactors(k, Weight(c, p), b, s, u);
  }

  /** Every K is the product of the three factors, each read off its curve. */
  lemma KIsProduct(c: Tuning, p: Player, surprise: real, streak: nat, k: real) returns (b: real, s: real, u: real)
    requires IsStreak(p, streak) && k == DynamicK(c, p, surprise)
    ensures k == b * s * u
    ensures OnExperienceCurve(c, p.games, b) && OnStreakCurve(c, streak, s) && OnSurpriseCurve(surprise, u)
  {
    b, s, u := BaseK(c, p.games), StreakFactor(c, p), Upset(surprise);
    KSplits(c, p, surprise, k, b, s, u);
    BaseIsOnCurve(c, p.games);
    StreakIsOnCurve(c, p, streak);
    SurpriseIsOnCurve(surprise);
  }

  /** A newcomer starts without games or streaks, shown at the hidden rating, and moves with the
      greatest K there is without a streak. */
  lemma NewcomerMovesMost(surprise: real, k: real)
    requires 0.0 <= surprise <= 1.0 && k == DynamicK(DEFAULT, NEW_PLAYER, surprise)
    ensures NEW_PLAYER.mmr == NEW_PLAYER.display == 1500.0 && NEW_PLAYER.games == 0 && IsStreak(NEW_PLAYER, 0)
    ensures k == 48.0 * (1.0 + surprise)
  {
    var b, s, u := KIsProduct(DEFAULT, NEW_PLAYER, surprise, 0, k);
    DefaultCurve(0, b);
    DefaultStreaks(0, s);
  }

  // ---------------------------------------------------------------------------
  // More games, longer streaks
  // ---------------------------------------------------------------------------

  /** The settings make sense: the three levels are in order and the cap is no penalty. */
  predicate Ordered(c: Config) { 0.0 < c.kMin <= c.kDefault <= c.kMax && 1.0 <= c.streakMax }

  lemma ScaleUp(a: real, x: real, y: real)
    requires 0.0 <= a && x <= y
    ensures a * x <= a * y
  {
    assert a * (y - x) >= 0.0;
  }

  /** A share of a rise lies within it, and a smaller share below a greater one. */
  lemma ShareIsWithin(x: real, a: real, n: real, m: real)
    requires n > 0.0 && 0.0 <= m <= n && 0.0 <= a && x * n == a * m
    ensures 0.0 <= x <= a
  {
    ScaleUp(a, 0.0, m);
    ScaleUp(a, m, n);
    TimesKeepsOrder(n, 0.0, x);
    TimesKeepsOrder(n, x, a);
  }

  lemma SharesCompare(x: real, y: real, a: real, n: real, m: real, k: real)
    requires n > 0.0 && m <= k && 0.0 <= a && x * n == a * m && y * n == a * k
    ensures x <= y
  {
    ScaleUp(a, m, k);
    TimesKeepsOrder(n, x, y);
  }

  /** The curve stays between the bottom and the default value after calibration. */
  lemma CurveIsBounded(c: Tuning, games: nat, b: real)
    requires Ordered(c) && OnExperienceCurve(c, games, b)
    ensures c.kMin <= b <= c.kMax && (games > c.calibrationGames ==> b <= c.kDefault)
  {
    if c.calibrationGames < games < c.veteranGames {
      var n, m := (c.veteranGames - c.calibrationGames) as real, (c.veteranGames - games) as real;
      ShareIsWithin(b - c.kMin, c.kDefault - c.kMin, n, m);
    }
  }

  /** The curve never rises. */
  lemma CurveFalls(c: Tuning, games: nat, more: nat, b: real, b': real)
    requires Ordered(c) && games <= more && OnExperienceCurve(c, games, b) && OnExperienceCurve(c, more, b')
    ensures b' <= b
  {
    CurveIsBounded(c, games, b);
    CurveIsBounded(c, more, b');
    if c.calibrationGames < games && more < c.veteranGames {
      var n := (c.veteranGames - c.calibrationGames) as real;
      var m, k := (c.veteranGames - more) as real, (c.veteranGames - games) as real;
      SharesCompare(b' - c.kMin, b - c.kMin, c.kDefault - c.kMin, n, m, k);
    }
  }

  lemma StreakCurveRises(c: Tuning, streak: nat, longer: nat, s: real, s': real)
    requires Ordered(c) && streak <= longer && OnStreakCurve(c, streak, s) && OnStreakCurve(c, longer, s')
    ensures 1.0 <= s <= s'
  {
  }

  lemma ProductGrows(b: real, s: real, u: real, k: real, b': real, s': real, u': real, k': real)
    requires 0.0 <= b' <= b && 0.0 <= s' <= s && 0.0 <= u' <= u && k == b * s * u && k' == b' * s' * u'
    ensures 0.0 <= k' <= k
  {
    MultiplyBounds(b', s', 0.0, b, 0.0, s);
    MultiplyBounds(b' * s', u', 0.0, b * s, 0.0, u);
  }

  lemma BasesFall(c: Tuning, games: nat, more: nat, b: real, b': real)
    requires Ordered(c) && games <= more && b == BaseK(c, games) && b' == BaseK(c, more)
    ensures 0.0 < b' <= b
  {
    BaseIsOnCurve(c, games);
    BaseIsOnCurve(c, more);
    CurveIsBounded(c, more, b');
    CurveFalls(c, games, more, b, b');
  }

  lemma StreaksRise(c: Tuning, p: Player, q: Player, streak: nat, longer: nat, s: real, s': real)
    requires Ordered(c) && IsStreak(q, streak) && IsStreak(p, longer) && streak <= longer
    requires s == StreakFactor(c, p) && s' == StreakFactor(c, q)
    ensures 1.0 <= s' <= s
  {
    StreakIsOnCurve(c, p, longer);
    StreakIsOnCurve(c, q, streak);
    StreakCurveRises(c, streak, longer, s', s);
  }

  /** A player with no fewer games and no longer streak never has the greater K. */
  lemma ExperienceSteadies(c: Tuning, p: Player, q: Player, surprise: real, streak: nat, longer: nat, k: real, k': real)
    requires Ordered(c) && p.games <= q.games && IsStreak(q, streak) && IsStreak(p, longer) && streak <= longer
    requires k == DynamicK(c, p, surprise) && k' == DynamicK(c, q, surprise)
    ensures 0.0 <= k' <= k
  {
    var b, s, u := BaseK(c, p.games), StreakFactor(c, p), Upset(surprise);
    var b', s' := BaseK(c, q.games), StreakFactor(c, q);
    KSplits(c, p, surprise, k, b, s, u);
    KSplits(c, q, surprise, k', b', s', u);
    BasesFall(c, p.games, q.games, b, b');
    StreaksRise(c, p, q, streak, longer, s, s');
    SurpriseIsOnCurve(surprise);
    ProductGrows(b, s, u, k, b', s', u, k');
  }

  lemma SteadierChange(k: real, k': real, delta: real, x: real, x': real)
    requires 0.0 <= k' <= k && x == k * delta && x' == k' * delta
    ensures delta >= 0.0 ==> 0.0 <= x' <= x
    ensures delta <= 0.0 ==> x <= x' <= 0.0
  {
    if delta >= 0.0 {
      ScaleUp(delta, 0.0, k');
      ScaleUp(delta, k', k);
    } else {
      ScaleUp(-delta, 0.0, k');
      ScaleUp(-delta, k', k);
    }
  }

  lemma ChangeIsScaled(c: Tuning, p: Player, delta: real, k: real, x: real)
    requires k == DynamicK(c, p, Abs(delta)) && x == Change(c, p, delta)
    ensures x == k * delta
  {
  }

  /** The same for what a match does to the two ratings: up for up and down for down. */
  lemma ExperienceSteadiesChange(c: Tuning, p: Player, q: Player, delta: real, streak: nat, longer: nat, x: real, x': real)
    requires Ordered(c) && p.games <= q.games && IsStreak(q, streak) && IsStreak(p, longer) && streak <= longer
    requires x == Change(c, p, delta) && x' == Change(c, q, delta)
    ensures delta >= 0.0 ==> 0.0 <= x' <= x
    ensures delta <= 0.0 ==> x <= x' <= 0.0
  {
    var k, k' := DynamicK(c, p, Abs(delta)), DynamicK(c, q, Abs(delta));
    ExperienceSteadies(c, p, q, Abs(delta), streak, longer, k, k');
    ChangeIsScaled(c, p, delta, k, x);
    ChangeIsScaled(c, q, delta, k', x');
    SteadierChange(k, k', delta, x, x');
  }

  /** A losing streak counts like a winning one. */
  lemma StreaksCountAlike(c: Tuning, p: Player, delta: real)
    ensures Change(c, p.(wins := p.losses, losses := p.wins), delta) == Change(c, p, delta)
  {
    var q := p.(wins := p.losses, losses := p.wins);
    assert StreakFactor(c, q) == StreakFactor(c, p);
  }

  // ---------------------------------------------------------------------------
  // In a match
  // ---------------------------------------------------------------------------

  /** The streaks after a match: a gain is one more win and ends a losing streak, a loss the
      other way round, and an even result leaves both. */
  ghost predicate StreaksFollow(before: Player, after: Player, change: real) {
    && (change > 0.0 ==> after.wins == before.wins + 1 && after.losses == 0)
    && (change < 0.0 ==> after.losses == before.losses + 1 && after.wins == 0)
    && (change == 0.0 ==> after.wins == before.wins && after.losses == before.losses)
  }

  lemma ProductPositive(k: real, b: real, s: real, u: real)
    requires b > 0.0 && s > 0.0 && u > 0.0 && k == b * s * u
    ensures k > 0.0
  {
    TimesSign(b, s);
    TimesSign(b * s, u);
  }

  lemma KIsPositive(c: Tuning, p: Player, surprise: real, streak: nat, k: real)
    requires Ordered(c) && IsStreak(p, streak) && k == DynamicK(c, p, surprise)
    ensures k > 0.0
  {
    var b, s, u := BaseK(c, p.games), StreakFactor(c, p), Upset(surprise);
    KSplits(c, p, surprise, k, b, s, u);
    BasesFall(c, p.games, p.games, b, b);
    StreaksRise(c, p, p, streak, streak, s, s);
    SurpriseIsOnCurve(surprise);
    ProductPositive(k, b, s, u);
  }

  lemma UpdateMoves(c: Tuning, p: Player, d: real, q: Player, streak: nat, k: real)
    requires Ordered(c) && IsStreak(p, streak) && q == Updated(c, p, d) && k == DynamicK(c, p, Abs(d))
    ensures q.mmr - p.mmr == k * d
    ensures q.games == p.games + 1 && StreaksFollow(p, q, q.mmr - p.mmr)
  {
    KIsPositive(c, p, Abs(d), streak, k);
    TimesSign(k, d);
  }

  lemma DisplayCloses(c: Tuning, p: Player, d: real, q: Player)
    requires q == Updated(c, p, d)
    ensures q.display - p.display == c.convergence * (q.mmr - p.display)
  {
  }

  /** In any match of distinct players every rating moves by K times the team's delta, K being the
      product of the player's three factors and the surprise the size of the delta; the display
      rating closes its gap to the new rating by the convergence rate, the game is counted and
      the streaks follow the change. */
  lemma MatchChange(c: Tuning, f: real -> real, book: Book, ps: seq<Placement>, i: nat, j: nat, r: Effect, streak: nat,
                    p: Player, q: Player, d: real) returns (k: real, b: real, s: real, u: real)
    requires AllKnown(book, ps) && ValidResult(ps) && NobodyTwice(ps) && Ordered(c)
    requires i < |ps| && j < |ps[i].team| && r == Process(c, f, book, ps).effect
    requires ps[i].team[j] in book && p == book[ps[i].team[j]] && IsStreak(p, streak)
    requires ps[i].team[j] in r.book ==> q == r.book[ps[i].team[j]]
    requires d == TeamDelta(f, Sides(book, ps), i)
    ensures ps[i].team[j] in r.book && q.mmr - p.mmr == k * d && k == b * s * u
    ensures OnExperienceCurve(c, p.games, b) && OnStreakCurve(c, streak, s) && OnSurpriseCurve(Abs(d), u)
    ensures q.display - p.display == c.convergence * (q.mmr - p.display)
    ensures q.games == p.games + 1 && StreaksFollow(p, q, q.mmr - p.mmr)
  {
    MatchEffect(c, f, book, ps, i, j, r);
    k := DynamicK(c, p, Abs(d));
    b, s, u := KIsProduct(c, p, Abs(d), streak, k);
    UpdateMoves(c, p, d, q, streak, k);
    DisplayCloses(c, p, d, q);
  }

  // ---------------------------------------------------------------------------
  // The rating of a team
  // ---------------------------------------------------------------------------

  lemma OneMore(x: real, n: real)
    ensures x * (n + 1.0) == x * n + x
  {
  }

  lemma {:induction false} TotalIsBetween(book: Book, team: seq<nat>, n: real, lo: real, hi: real)
    requires Known(book, team) && n == |team| as real
    requires forall i :: 0 <= i < |team| ==> lo <= book[team[i]].mmr <= hi
    ensures lo * n <= TotalMMR(book, team) <= hi * n
  {
    if team != [] {
      TotalIsBetween(book, team[..|team| - 1], n - 1.0, lo, hi);
      OneMore(lo, n - 1.0);
      OneMore(hi, n - 1.0);
    }
  }

  lemma MeanIsBetween(total: real, n: real, mean: real, lo: real, hi: real)
    requires n > 0.0 && mean == total / n && lo * n <= total <= hi * n
    ensures lo <= mean <= hi
  {
    assert n * mean == total;
    TimesKeepsOrder(n, lo, mean);
    TimesKeepsOrder(n, mean, hi);
  }

  /** A team's rating lies within those of its players; equals make a team of their rating. */
  lemma TeamIsBetween(book: Book, team: seq<nat>, lo: real, hi: real)
    requires team != [] && Known(book, team) && forall i :: 0 <= i < |team| ==> lo <= book[team[i]].mmr <= hi
    ensures lo <= EffectiveMMR(book, team) <= hi
  {
    var n, total := |team| as real, TotalMMR(book, team);
    TotalIsBetween(book, team, n, lo, hi);
    MeanIsBetween(total, n, EffectiveMMR(book, team), lo, hi);
  }
}
