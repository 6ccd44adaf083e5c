/** What the matchmaker guarantees: nobody is lost or matched twice, every match is good and
    balanced, nothing good is left behind, and no choice of windows yields more matches. */
module MatchmakerLaws {
  import opened SnakeDraft
  import opened GreedyScan
  import opened Matchmaker

  /** The windows taken do not overlap, each is good, and its match meets the required
      quality, which never exceeds one. */
  lemma MatchesAreGood(c: Setup, now: real, q: seq<Entry>)
    ensures Spaced(Taken(c, now, q), Span(c), 0)
    ensures forall m :: m in Matches(c, now, q) ==> c.minQuality <= m.quality <= 1.0
  {
    var good, starts := Verdicts(c, now, q), Taken(c, now, q);
    ScanIsSound(good, Span(c), 0);
    forall m | m in Matches(c, now, q) ensures c.minQuality <= m.quality <= 1.0 {
      var i :| 0 <= i < |starts| && m == MatchesAt(c, now, q, starts)[i];
      assert good[starts[i]];
      QualityAt(c, now, q, starts[i]);
    }
  }

  lemma QualityAt(c: Setup, now: real, q: seq<Entry>, s: nat)
    requires Good(c, now, q, s)
    ensures c.minQuality <= MatchAt(c, now, q, s).quality <= 1.0
  {
  }

  /** In every match each team has the configured size, and two teams' averages differ by at
      most the skill range of the match's window divided by that size. */
  lemma MatchesAreBalanced(c: Setup, now: real, q: seq<Entry>, s: nat, a: nat, b: nat)
    requires Sorted(q) && Good(c, now, q, s) && a < c.teamsPerMatch && b < c.teamsPerMatch
    ensures |MatchAt(c, now, q, s).teams| == c.teamsPerMatch
    ensures |MatchAt(c, now, q, s).teams[a]| == c.playersPerTeam
    ensures Average(MatchAt(c, now, q, s).teams[a]) - Average(MatchAt(c, now, q, s).teams[b])
         <= (q[s + Span(c) - 1].mmr - q[s].mmr) / c.playersPerTeam as real
  {
    var w := WindowAt(c, q, s);
    SortedWindow(c, q, s);
    DraftUsesEveryone(w, c.teamsPerMatch, c.playersPerTeam);
    DraftIsBalanced(w, c.teamsPerMatch, c.playersPerTeam, a, b);
  }

  lemma SortedWindow(c: Setup, q: seq<Entry>, s: nat)
    requires Sorted(q) && s + Span(c) <= |q|
    ensures Sorted(WindowAt(c, q, s)) && |WindowAt(c, q, s)| == Span(c)
  {
  }

  // ---------------------------------------------------------------------------
  // Nobody is lost
  // ---------------------------------------------------------------------------

  /** How often `x` plays in the matches together. */
  ghost function PlaysIn(ms: seq<Match>, x: Entry): nat {
    if ms == [] then 0 else Plays(ms[0].teams, x) + PlaysIn(ms[1..], x)
  }

  lemma MatchPlays(c: Setup, now: real, q: seq<Entry>, s: nat, x: Entry, w: nat)
    requires w == Span(c) && s + w <= |q|
    ensures Plays(MatchAt(c, now, q, s).teams, x) == Times(q[s..s + w], x)
  {
    var window := WindowAt(c, q, s);
    DraftUsesEveryone(window, c.teamsPerMatch, c.playersPerTeam);
    TimesIsMultiset(window, x);
  }

  lemma MatchesTail(c: Setup, now: real, q: seq<Entry>, starts: seq<nat>)
    requires starts != []
    ensures MatchesAt(c, now, q, starts)[1..] == MatchesAt(c, now, q, starts[1..])
  {
  }

  lemma FirstPlays(c: Setup, now: real, q: seq<Entry>, starts: seq<nat>, x: Entry)
    requires starts != []
    ensures PlaysIn(MatchesAt(c, now, q, starts), x)
         == Plays(MatchAt(c, now, q, starts[0]).teams, x) + PlaysIn(MatchesAt(c, now, q, starts[1..]), x)
  {
    MatchesTail(c, now, q, starts);
  }

  lemma {:induction false} MatchesPlay(c: Setup, now: real, q: seq<Entry>, starts: seq<nat>, x: Entry, w: nat)
    requires w == Span(c) && forall i :: 0 <= i < |starts| ==> starts[i] + w <= |q|
    ensures PlaysIn(MatchesAt(c, now, q, starts), x) == TimesIn(q, w, starts, x)
  {
    if starts != [] {
      var first, rest := starts[0], starts[1..];
      MatchPlays(c, now, q, first, x, w);
      MatchesPlay(c, now, q, rest, x, w);
      FirstPlays(c, now, q, starts, x);
      FirstTimes(q, w, starts, x);
    }
  }

  lemma FirstTimes(q: seq<Entry>, w: nat, starts: seq<nat>, x: Entry)
    requires starts != [] && starts[0] + w <= |q|
    ensures TimesIn(q, w, starts, x) == Times(q[starts[0]..starts[0] + w], x) + TimesIn(q, w, starts[1..], x)
  {
  }

  /** Each player of the queue ends up either in the leftover queue or in one team of one
      match: the queue is the disjoint union of both. */
  lemma NobodyIsLost(c: Setup, now: real, q: seq<Entry>, x: Entry)
    ensures multiset(q)[x] == multiset(Leftover(c, now, q))[x] + PlaysIn(Matches(c, now, q), x)
  {
    var good, starts := Verdicts(c, now, q), Taken(c, now, q);
    ScanIsSound(good, Span(c), 0);
    MatchesPlay(c, now, q, starts, x, Span(c));
    ScanConserves(q, good, Span(c), 0, x);
    assert q[0..] == q;
    TimesIsMultiset(q, x);
    TimesIsMultiset(Leftover(c, now, q), x);
  }

  // ---------------------------------------------------------------------------
  // Nothing good is left behind
  // ---------------------------------------------------------------------------

  /** A window of unused neighbours is never good enough. */
  lemma ScanIsMaximal(c: Setup, now: real, q: seq<Entry>, k: nat)
    requires k + Span(c) <= |q| && forall i :: k <= i < k + Span(c) ==> !Used(c, now, q)[i]
    ensures !Good(c, now, q, k)
  {
    assert Used(c, now, q) == Marks(Verdicts(c, now, q), Span(c), 0);
    UntouchedIsBad(Verdicts(c, now, q), Span(c), k);
  }

  /** "As many balanced matches as possible": no other choice of disjoint good windows of the
      sorted queue has more of them. */
  lemma ScanIsMaximum(c: Setup, now: real, q: seq<Entry>, other: seq<nat>)
    requires Spaced(other, Span(c), 0)
    requires forall i :: 0 <= i < |other| ==> Good(c, now, q, other[i])
    ensures |other| <= |Matches(c, now, q)|
  {
    ScanIsOptimal(Verdicts(c, now, q), Span(c), 0, other);
  }

  /** Without a quality requirement exactly the remainder of the queue stays. */
  lemma OnlyRemainderStays(c: Setup, now: real, q: seq<Entry>)
    requires c.minQuality <= 0.0
    ensures |Leftover(c, now, q)| == |q| % Span(c)
  {
    // windows that run past the end are never looked at, so they may count as good
    var good, all := Verdicts(c, now, q), Fill(|q|, true);
    assert q[0..] == q;
    forall s | 0 <= s && s + Span(c) <= |q| ensures good[s] == all[s] {
      AnyWindowIsGood(c, now, q, s);
    }
    SameVerdictsSameMarks(good, all, Span(c), 0);
    RemainderStays(q, all, Span(c), 0);
  }

  lemma AnyWindowIsGood(c: Setup, now: real, q: seq<Entry>, s: nat)
    requires c.minQuality <= 0.0 && s + Span(c) <= |q|
    ensures Good(c, now, q, s)
  {
  }

  // ---------------------------------------------------------------------------
  // Waiting
  // ---------------------------------------------------------------------------

  /** The range of the team averages of a window. */
  function Range(c: Setup, w: seq<Entry>): real {
    High(Draft(w, c.teamsPerMatch)) - Low(Draft(w, c.teamsPerMatch))
  }

  lemma RangeIsNotNegative(c: Setup, w: seq<Entry>)
    ensures Range(c, w) >= 0.0
  {
    var teams := Draft(w, c.teamsPerMatch);
    LowIsLow(teams);
    HighIsHigh(teams);
    var t :| 0 <= t < |teams| && Average(teams[t]) == Low(teams);
    assert Average(teams[t]) <= High(teams);
  }

  /** A clamped quality meets the requirement exactly if none is made or the gap is permitted. */
  lemma QualityMeetsIff(gap: real, spread: real, least: real)
    requires gap >= 0.0 && spread > 0.0
    ensures Clamp(1.0 - gap / spread) >= least <==> least <= 0.0 || gap <= (1.0 - least) * spread
  {
    GapDecides(gap, spread, least);
    NonNegativeQuotient(gap, spread);
  }

  /** A window is good exactly if no quality is required, or some spread is tolerated and the
      range of its averages is at most (1 - MinQuality) times that spread. */
  lemma WindowGoodIff(c: Setup, now: real, q: seq<Entry>, s: nat, w: seq<Entry>, spread: real)
    requires s + Span(c) <= |q| && w == WindowAt(c, q, s) && spread == MaxSpread(c, now, w)
    ensures Good(c, now, q, s) <==>
              c.minQuality <= 0.0 || (spread > 0.0 && Range(c, w) <= (1.0 - c.minQuality) * spread)
  {
    var range := Range(c, w);
    RangeIsNotNegative(c, w);
    ProposalQuality(c, now, w, spread, range);
    if spread > 0.0 { QualityMeetsIff(range, spread, c.minQuality); }
  }

  lemma ProposalQuality(c: Setup, now: real, w: seq<Entry>, spread: real, range: real)
    requires spread == MaxSpread(c, now, w) && range == Range(c, w)
    ensures Proposal(c, now, w).quality == if spread <= 0.0 then 0.0 else Clamp(1.0 - range / spread)
  {
  }

  /** The tolerance that makes up for a range. */
  lemma EnoughSpread(range: real, slack: real, need: real, spread: real)
    requires slack > 0.0 && need == range / slack && spread >= need
    ensures range <= slack * spread
  {
    assert range == need * slack;
    assert slack * (spread - need) >= 0.0;
    assert slack * (spread - need) == slack * spread - need * slack;
  }

  /** With a positive rate a player's tolerance reaches any value and stays above it. */
  lemma ToleranceReaches(c: Setup, e: Entry, need: real, now: real)
    requires c.spreadPerSecond > 0.0 && now >= e.joinedAt + (need - c.baseSpread) / c.spreadPerSecond
    ensures Tolerance(c, now, e) >= need
  {
    var rate, wait := c.spreadPerSecond, now - e.joinedAt;
    var d := (need - c.baseSpread) / rate;
    assert rate * d == need - c.baseSpread;
    assert rate * (wait - d) >= 0.0;
  }

  /** "Every player eventually finds a game": if less than perfect quality is required and waiting
      widens the spread, every window of neighbours becomes and stays good, at the latest when
      the tolerance of any one of its players exceeds range / (1 - MinQuality). */
  lemma WindowBecomesGood(c: Setup, q: seq<Entry>, s: nat, i: nat, need: real, from: real, now: real)
    requires s + Span(c) <= |q| && i < Span(c) && c.minQuality < 1.0 && c.spreadPerSecond > 0.0
    requires need == Range(c, WindowAt(c, q, s)) / (1.0 - c.minQuality) + 1.0
    requires from == q[s + i].joinedAt + (need - c.baseSpread) / c.spreadPerSecond && now >= from
    ensures Good(c, now, q, s)
  {
    var w := WindowAt(c, q, s);
    var spread, range, slack := MaxSpread(c, now, w), Range(c, w), 1.0 - c.minQuality;
    RangeIsNotNegative(c, w);
    NonNegativeQuotient(range, slack);
    SpreadReaches(c, w, i, need, now);
    EnoughSpread(range, slack, need - 1.0, spread);
    WindowGoodIff(c, now, q, s, w, spread);
  }

  lemma SpreadReaches(c: Setup, w: seq<Entry>, i: nat, need: real, now: real)
    requires i < |w| && c.spreadPerSecond > 0.0 && now >= w[i].joinedAt + (need - c.baseSpread) / c.spreadPerSecond
    ensures MaxSpread(c, now, w) >= need
  {
    ToleranceReaches(c, w[i], need, now);
    MaxSpreadIsMax(c, now, w);
  }

  lemma NoRoom(range: real, least: real, spread: real)
    requires spread > 0.0 && ((least > 1.0 && range >= 0.0) || (least == 1.0 && range > 0.0))
    ensures range > (1.0 - least) * spread
  {
    var over := least - 1.0;
    assert (1.0 - least) * spread == -(over * spread);
    if least > 1.0 { SignOfProduct(over, spread); }
  }

  /** With more than perfect quality required, or perfect quality of an uneven window, no wait
      ever helps. */
  lemma NeverGood(c: Setup, now: real, q: seq<Entry>, s: nat)
    requires s + Span(c) <= |q|
    requires c.minQuality > 1.0 || (c.minQuality == 1.0 && Range(c, WindowAt(c, q, s)) > 0.0)
    ensures !Good(c, now, q, s)
  {
    var w := WindowAt(c, q, s);
    var spread := MaxSpread(c, now, w);
    RangeIsNotNegative(c, w);
    if spread > 0.0 { NoRoom(Range(c, w), c.minQuality, spread); }
    WindowGoodIff(c, now, q, s, w, spread);
  }

  lemma NegativeRate(rate: real, wait: real, longer: real)
    requires rate <= 0.0 && wait <= longer
    ensures rate * longer <= rate * wait
  {
    assert -rate * (longer - wait) >= 0.0;
  }

  lemma ToleranceShrinks(c: Setup, now: real, later: real, e: Entry)
    requires c.spreadPerSecond <= 0.0 && now <= later
    ensures Tolerance(c, later, e) <= Tolerance(c, now, e)
  {
    NegativeRate(c.spreadPerSecond, now - e.joinedAt, later - e.joinedAt);
  }

  lemma {:induction false} SpreadShrinks(c: Setup, now: real, later: real, w: seq<Entry>)
    requires c.spreadPerSecond <= 0.0 && now <= later
    ensures MaxSpread(c, later, w) <= MaxSpread(c, now, w)
  {
    if w != [] {
      SpreadShrinks(c, now, later, w[..|w| - 1]);
      ToleranceShrinks(c, now, later, w[|w| - 1]);
    }
  }

  lemma SmallerSpread(range: real, least: real, spread: real, smaller: real)
    requires 0.0 <= range && 0.0 < smaller <= spread && range <= (1.0 - least) * smaller
    ensures range <= (1.0 - least) * spread
  {
    if 1.0 - least < 0.0 {
      assert (1.0 - least) * smaller < 0.0;
    } else {
      assert (1.0 - least) * (spread - smaller) >= 0.0;
    }
  }

  /** Unless waiting widens the spread, a refused window stays refused. */
  lemma WaitingNeverHelps(c: Setup, now: real, later: real, q: seq<Entry>, s: nat)
    requires s + Span(c) <= |q| && c.spreadPerSecond <= 0.0 && now <= later && Good(c, later, q, s)
    ensures Good(c, now, q, s)
  {
    var w := WindowAt(c, q, s);
    var spread, smaller := MaxSpread(c, now, w), MaxSpread(c, later, w);
    SpreadShrinks(c, now, later, w);
    RangeIsNotNegative(c, w);
    WindowGoodIff(c, later, q, s, w, smaller);
    WindowGoodIff(c, now, q, s, w, spread);
    if c.minQuality > 0.0 { SmallerSpread(Range(c, w), c.minQuality, spread, smaller); }
  }

  // ---------------------------------------------------------------------------
  // One against one
  // ---------------------------------------------------------------------------

  lemma AverageOfOne(e: Entry)
    ensures Average([e]) == e.mmr
  {
    assert [e][..|[e]| - 1] == [];
    assert SumMMR([e]) == e.mmr && |[e]| as real == 1.0;
  }

  lemma DuelTeams(w: seq<Entry>)
    requires |w| == 2
    ensures Draft(w, 2) == [[w[0]], [w[1]]]
  {
    assert Team(w[2..], 2, 0, false) == [] && Team(w[2..], 2, 1, false) == [];
    assert Draft(w, 2)[0] == Team(w, 2, 0, true) == [w[0]];
    assert Draft(w, 2)[1] == Team(w, 2, 1, true) == [w[1]];
  }

  lemma DuelRange(w: seq<Entry>)
    requires |w| == 2 && w[0].mmr <= w[1].mmr
    ensures High(Draft(w, 2)) - Low(Draft(w, 2)) == w[1].mmr - w[0].mmr
  {
    DuelTeams(w);
    AverageOfOne(w[0]);
    AverageOfOne(w[1]);
    var teams := [[w[0]], [w[1]]];
    assert teams[..1] == [[w[0]]];
    assert High([[w[0]]]) == w[0].mmr && Low([[w[0]]]) == w[0].mmr;
  }

  lemma SignOfProduct(a: real, b: real)
    requires b > 0.0
    ensures a > 0.0 <==> a * b > 0.0
  {
    if a > 0.0 {
      assert a * b > 0.0;
    } else {
      assert (-a) * b >= 0.0;
    }
  }

  /** One minus gap over spread falls below the requirement exactly beyond the permitted gap. */
  lemma GapDecides(gap: real, spread: real, least: real)
    requires spread > 0.0
    ensures 1.0 - gap / spread < least <==> gap > (1.0 - least) * spread
  {
    var r := gap / spread;
    assert gap == r * spread;
    SignOfProduct(r - (1.0 - least), spread);
    Distribute(r, 1.0 - least, spread);
  }

  lemma Distribute(a: real, b: real, c: real)
    ensures (a - b) * c == a * c - b * c
  {
  }

  /** A pair is refused exactly if some quality is required and the gap exceeds
      (1 - MinQuality) times the tolerated spread, or if no spread is tolerated at all. */
  lemma DuelRefusedIff(c: Setup, now: real, q: seq<Entry>, s: nat)
    requires c.playersPerTeam == 1 && c.teamsPerMatch == 2 && Sorted(q) && s + 2 <= |q|
    ensures !Good(c, now, q, s) <==>
              c.minQuality > 0.0 &&
              (MaxSpread(c, now, q[s..s + 2]) <= 0.0 ||
               q[s + 1].mmr - q[s].mmr > (1.0 - c.minQuality) * MaxSpread(c, now, q[s..s + 2]))
  {
    var w := q[s..s + 2];
    assert WindowAt(c, q, s) == w;
    var spread, gap := MaxSpread(c, now, w), q[s + 1].mmr - q[s].mmr;
    DuelRange(w);
    if spread > 0.0 {
      GapDecides(gap, spread, c.minQuality);
      NonNegativeQuotient(gap, spread);
    }
  }

  lemma NonNegativeQuotient(a: real, b: real)
    requires a >= 0.0 && b > 0.0
    ensures a / b >= 0.0
  {
  }

  /** `e` has waited longest of the two. */
  ghost predicate WaitedLongest(a: Entry, b: Entry, e: Entry) {
    (e == a || e == b) && e.joinedAt <= a.joinedAt && e.joinedAt <= b.joinedAt
  }

  lemma DuelSpread(c: Setup, now: real, w: seq<Entry>, e: Entry)
    requires |w| == 2 && c.spreadPerSecond >= 0.0 && WaitedLongest(w[0], w[1], e) && Tolerance(c, now, e) > 0.0
    ensures MaxSpread(c, now, w) == Tolerance(c, now, e)
  {
    assert w[0] in w && w[1] in w;
    LongestWaitDecides(c, now, w, e);
  }

  lemma DuelNotGood(c: Setup, now: real, q: seq<Entry>, s: nat)
    requires c.playersPerTeam == 1 && c.teamsPerMatch == 2 && s + 2 <= |q|
    requires !Used(c, now, q)[s] && !Used(c, now, q)[s + 1]
    ensures !Good(c, now, q, s)
  {
    ScanIsMaximal(c, now, q, s);
  }

  /** Two neighbours of the sorted queue who both stay are further apart than the spread that
      the one who waited longest tolerates, scaled by 1 - MinQuality. */
  lemma DuelLeftoversAreApart(c: Setup, now: real, q: seq<Entry>, s: nat, e: Entry)
    requires c.playersPerTeam == 1 && c.teamsPerMatch == 2 && Sorted(q) && s + 2 <= |q|
    requires !Used(c, now, q)[s] && !Used(c, now, q)[s + 1]
    requires c.spreadPerSecond >= 0.0 && WaitedLongest(q[s], q[s + 1], e)
    ensures c.minQuality > 0.0
    ensures Tolerance(c, now, e) > 0.0 ==> q[s + 1].mmr - q[s].mmr > (1.0 - c.minQuality) * Tolerance(c, now, e)
  {
    DuelNotGood(c, now, q, s);
    DuelRefusedIff(c, now, q, s);
    if Tolerance(c, now, e) > 0.0 {
      DuelSpread(c, now, q[s..s + 2], e);
    }
  }

  lemma PairSpread(c: Setup, now: real, w: seq<Entry>, e: Entry, spread: real)
    requires |w| == 2 && c.spreadPerSecond >= 0.0 && WaitedLongest(w[0], w[1], e)
    requires spread == c.baseSpread + c.spreadPerSecond * (now - e.joinedAt)
    ensures MaxSpread(c, now, w) == if spread > 0.0 then spread else 0.0
  {
    assert w[0] in w && w[1] in w;
    LongestWaitDecides(c, now, w, e);
  }

  lemma TwoAreScanned(c: Setup, now: real, q: seq<Entry>)
    requires c.playersPerTeam == 1 && c.teamsPerMatch == 2 && |q| == 2
    ensures Span(c) == 2
    ensures Taken(c, now, q) == if Good(c, now, q, 0) then [0] else []
  {
    var good := Verdicts(c, now, q);
    assert Starts(good, 2, 1) == [] && Starts(good, 2, 2) == [];
    assert Starts(good, 2, 0) == if good[0] then [0] else [];
  }

  /** Two players alone in the queue, one against one, are matched if and only if no quality is
      required, or the base spread widened by the wait of whoever waited longer is positive and
      covers their gap with the required quality to spare. */
  lemma PairIsMatchedIff(c: Setup, now: real, a: Entry, b: Entry, e: Entry, spread: real)
    requires c.playersPerTeam == 1 && c.teamsPerMatch == 2 && a.mmr <= b.mmr && WaitedLongest(a, b, e)
    requires c.spreadPerSecond >= 0.0 && spread == c.baseSpread + c.spreadPerSecond * (now - e.joinedAt)
    ensures var matched := c.minQuality <= 0.0 || (spread > 0.0 && b.mmr - a.mmr <= (1.0 - c.minQuality) * spread);
            && |Matches(c, now, [a, b])| == (if matched then 1 else 0)
            && (matched ==> Matches(c, now, [a, b])[0].teams == [[a], [b]])
  {
    var q := [a, b];
    assert q[0..2] == q;
    PairSpread(c, now, q, e, spread);
    DuelRefusedIff(c, now, q, 0);
    TwoAreScanned(c, now, q);
    DuelTeams(q);
  }
}
