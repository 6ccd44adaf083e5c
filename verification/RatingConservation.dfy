/** When a match conserves the total rating of its players. The deltas are zero-sum, but K
    grows with the size of a delta, so the ratings themselves need not be. */
module RatingConservation {
  import opened RatingEngine
  import opened RatingDeltas
  import opened RatingPlayers

  // ---------------------------------------------------------------------------
  // Any teams
  // ---------------------------------------------------------------------------

  /** What a delta moves per unit of weight: d (1 + |d|). */
  function Push(d: real): real { d + d * Abs(d) }

  /** What a player of weight `w` gains. */
  function Gain(w: real, d: real): real {
    w * d + w * (d * Abs(d))
  }

  ghost function PlayersOf(book: Book, team: seq<nat>): (players: seq<Player>)
    requires Known(book, team)
    ensures |players| == |team| && forall j :: 0 <= j < |team| ==> players[j] == book[team[j]]
  {
    seq(|team|, j requires 0 <= j < |team| => book[team[j]])
  }

  ghost function Weights(c: Tuning, players: seq<Player>): (ws: seq<real>)
    ensures AreWeights(c, players, ws)
  {
    seq(|players|, j requires 0 <= j < |players| => Weight(c, players[j]))
  }

  predicate Weighs(c: Tuning, p: Player, w: real) {
    Weight(c, p) == w
  }

  ghost predicate AreWeights(c: Tuning, players: seq<Player>, ws: seq<real>) {
    |ws| == |players| &&
    forall j {:trigger Weighs(c, players[j], ws[j])} :: 0 <= j < |players| ==> Weighs(c, players[j], ws[j])
  }

  ghost function TeamWeight(c: Tuning, book: Book, team: seq<nat>): real
    requires Known(book, team)
  {
    Sum(Weights(c, PlayersOf(book, team)))
  }

  /** The weight of a team times the push of its delta. */
  ghost function TeamGain(c: Tuning, book: Book, team: seq<nat>, d: real): real
    requires Known(book, team)
  {
    TeamWeight(c, book, team) * Push(d)
  }

  /** What the players of a team gain together. */
  ghost function TeamChange(c: Tuning, players: seq<Player>, d: real): real {
    if players == [] then 0.0 else TeamChange(c, players[..|players| - 1], d) + Change(c, players[|players| - 1], d)
  }

  /** The rating totals of the teams. */
  ghost function TeamTotals(book: Book, ps: seq<Placement>): (xs: seq<real>)
    requires AllKnown(book, ps)
    ensures |xs| == |ps| && forall i :: 0 <= i < |ps| ==> Known(book, ps[i].team) && xs[i] == TotalMMR(book, ps[i].team)
  {
    seq(|ps|, i requires 0 <= i < |ps| => (assert Known(book, ps[i].team); TotalMMR(book, ps[i].team)))
  }

  ghost function TeamGains(c: Tuning, book: Book, ps: seq<Placement>, ds: seq<real>): (xs: seq<real>)
    requires AllKnown(book, ps) && |ps| == |ds|
    ensures |xs| == |ps|
    ensures forall i :: 0 <= i < |ps| ==> Known(book, ps[i].team) && xs[i] == TeamGain(c, book, ps[i].team, ds[i])
  {
    seq(|ps|, i requires 0 <= i < |ps| => (assert Known(book, ps[i].team); TeamGain(c, book, ps[i].team, ds[i])))
  }

  /** The total rating of everyone in the match. */
  ghost function MatchTotal(book: Book, ps: seq<Placement>): real
    requires AllKnown(book, ps)
  {
    Sum(TeamTotals(book, ps))
  }

  /** What all teams gain together. */
  ghost function Exchange(c: Tuning, book: Book, ps: seq<Placement>, ds: seq<real>): real
    requires AllKnown(book, ps) && |ps| == |ds|
  {
    Sum(TeamGains(c, book, ps, ds))
  }

  lemma {:induction false} SumOfSums(xs: seq<real>, ys: seq<real>, zs: seq<real>)
    requires |xs| == |ys| == |zs| && forall i :: 0 <= i < |xs| ==> zs[i] == xs[i] + ys[i]
    ensures Sum(zs) == Sum(xs) + Sum(ys)
  {
    if xs != [] {
      var n := |xs| - 1;
      SumOfSums(xs[..n], ys[..n], zs[..n]);
    }
  }

  lemma AddTimes(a: real, b: real, x: real)
    ensures (a + b) * x == a * x + b * x
  {
  }

  /** The gains of players of the given weights together. */
  ghost function GainsOf(ws: seq<real>, d: real): real {
    if ws == [] then 0.0 else GainsOf(ws[..|ws| - 1], d) + Gain(ws[|ws| - 1], d)
  }

  lemma {:induction false} TeamChangeIsGains(c: Tuning, players: seq<Player>, d: real, ws: seq<real>)
    requires -1.0 < d < 1.0 && AreWeights(c, players, ws)
    ensures TeamChange(c, players, d) == GainsOf(ws, d)
  {
    if players != [] {
      var n := |players| - 1;
      assert Weighs(c, players[n], ws[n]);
      forall j | 0 <= j < n ensures Weighs(c, players[..n][j], ws[..n][j]) { assert Weighs(c, players[j], ws[j]); }
      TeamChangeIsGains(c, players[..n], d, ws[..n]);
      ChangeSplits(c, players[n], d, ws[n]);
    }
  }

  lemma OneMoreGain(sum: real, w: real, d: real, square: real, x: real, before: real)
    requires x == d + square && before == sum * x
    ensures before + (w * d + w * square) == (sum + w) * x
  {
    Distribute(w, d, square);
    AddTimes(sum, w, x);
  }

  lemma {:induction false} GainsAreScaled(ws: seq<real>, d: real, x: real)
    requires x == d + d * Abs(d)
    ensures GainsOf(ws, d) == Sum(ws) * x
  {
    if ws != [] {
      var n := |ws| - 1;
      GainsAreScaled(ws[..n], d, x);
      OneMoreGain(Sum(ws[..n]), ws[n], d, d * Abs(d), x, GainsOf(ws[..n], d));
    }
  }

  lemma TeamChangeIsPush(c: Tuning, players: seq<Player>, d: real, ws: seq<real>, x: real)
    requires -1.0 < d < 1.0 && AreWeights(c, players, ws) && x == d + d * Abs(d)
    ensures TeamChange(c, players, d) == Sum(ws) * x
  {
    TeamChangeIsGains(c, players, d, ws);
    GainsAreScaled(ws, d, x);
  }

  lemma TeamGainIs(c: Tuning, book: Book, team: seq<nat>, d: real, ws: seq<real>, x: real)
    requires Known(book, team) && ws == Weights(c, PlayersOf(book, team)) && x == Push(d)
    ensures TeamGain(c, book, team, d) == Sum(ws) * x
  {
  }

  lemma TeamChangeIsGain(c: Tuning, book: Book, team: seq<nat>, d: real, players: seq<Player>, ws: seq<real>, x: real)
    requires Known(book, team) && -1.0 < d < 1.0
    requires players == PlayersOf(book, team) && ws == Weights(c, players) && x == Push(d)
    ensures TeamChange(c, players, d) == TeamGain(c, book, team, d)
  {
    TeamGainIs(c, book, team, d, ws, x);
    TeamChangeIsPush(c, players, d, ws, x);
  }

  /** Every player of the team has moved by the team's delta. */
  ghost predicate Moved(c: Tuning, book: Book, after: Book, team: seq<nat>, d: real) {
    && Known(book, team) && Known(after, team)
    && forall j :: 0 <= j < |team| ==> after[team[j]].mmr == book[team[j]].mmr + Change(c, book[team[j]], d)
  }

  lemma {:induction false} MovedTotal(c: Tuning, book: Book, after: Book, team: seq<nat>, d: real)
    requires Moved(c, book, after, team, d)
    ensures TotalMMR(after, team) == TotalMMR(book, team) + TeamChange(c, PlayersOf(book, team), d)
  {
    if team != [] {
      var n := |team| - 1;
      MovedTotal(c, book, after, team[..n], d);
      assert PlayersOf(book, team)[..n] == PlayersOf(book, team[..n]);
    }
  }

  /** What the players of each team gain together. */
  ghost function TeamChanges(c: Tuning, book: Book, ps: seq<Placement>, ds: seq<real>): (xs: seq<real>)
    requires AllKnown(book, ps) && |ps| == |ds|
    ensures |xs| == |ps|
    ensures forall i :: 0 <= i < |ps| ==> Known(book, ps[i].team) && xs[i] == TeamChange(c, PlayersOf(book, ps[i].team), ds[i])
  {
    seq(|ps|, i requires 0 <= i < |ps| => (assert Known(book, ps[i].team); TeamChange(c, PlayersOf(book, ps[i].team), ds[i])))
  }

  lemma TeamMoves(c: Tuning, f: real -> real, book: Book, ps: seq<Placement>, r: Effect, i: nat)
    requires AllKnown(book, ps) && ValidResult(ps) && NobodyTwice(ps) && i < |ps|
    requires r == Process(c, f, book, ps).effect
    ensures Moved(c, book, r.book, ps[i].team, TeamDelta(f, Sides(book, ps), i))
  {
    var team, d := ps[i].team, TeamDelta(f, Sides(book, ps), i);
    forall j | 0 <= j < |team|
      ensures team[j] in book && team[j] in r.book && r.book[team[j]].mmr == book[team[j]].mmr + Change(c, book[team[j]], d)
    {
      MatchEffect(c, f, book, ps, i, j, r);
    }
  }

  lemma TeamsMove(c: Tuning, f: real -> real, book: Book, ps: seq<Placement>, r: Effect, ds: seq<real>)
    requires AllKnown(book, ps) && ValidResult(ps) && NobodyTwice(ps)
    requires r == Process(c, f, book, ps).effect && ds == Deltas(f, Sides(book, ps))
    ensures AllKnown(r.book, ps)
    ensures MatchTotal(r.book, ps) == MatchTotal(book, ps) + Sum(TeamChanges(c, book, ps, ds))
  {
    forall i | 0 <= i < |ps|
      ensures Known(book, ps[i].team) && Known(r.book, ps[i].team)
      ensures TotalMMR(r.book, ps[i].team) == TeamTotals(book, ps)[i] + TeamChanges(c, book, ps, ds)[i]
    {
      TeamMoves(c, f, book, ps, r, i);
      MovedTotal(c, book, r.book, ps[i].team, ds[i]);
    }
    SumOfSums(TeamTotals(book, ps), TeamChanges(c, book, ps, ds), TeamTotals(r.book, ps));
  }

  lemma SumsAreGains(c: Tuning, book: Book, ps: seq<Placement>, ds: seq<real>)
    requires AllKnown(book, ps) && |ps| == |ds| && forall i :: 0 <= i < |ds| ==> -1.0 < ds[i] < 1.0
    ensures TeamChanges(c, book, ps, ds) == TeamGains(c, book, ps, ds)
  {
    var xs, ys := TeamChanges(c, book, ps, ds), TeamGains(c, book, ps, ds);
    forall i | 0 <= i < |ps| ensures xs[i] == ys[i] {
      var players := PlayersOf(book, ps[i].team);
      TeamChangeIsGain(c, book, ps[i].team, ds[i], players, Weights(c, players), Push(ds[i]));
    }
  }

  /** For any match of distinct players in any teams: the total rating moves by exactly the sum
      over the teams of weight times push, and is conserved exactly if that sum is zero. */
  lemma MatchMoves(c: Tuning, f: real -> real, book: Book, ps: seq<Placement>, r: Effect, ds: seq<real>)
    requires IsCurve(f) && AllKnown(book, ps) && ValidResult(ps) && NobodyTwice(ps)
    requires r == Process(c, f, book, ps).effect && ds == Deltas(f, Sides(book, ps))
    ensures AllKnown(r.book, ps)
    ensures MatchTotal(r.book, ps) == MatchTotal(book, ps) + Exchange(c, book, ps, ds)
    ensures MatchTotal(r.book, ps) == MatchTotal(book, ps) <==> Exchange(c, book, ps, ds) == 0.0
  {
    TeamsMove(c, f, book, ps, r, ds);
    forall i | 0 <= i < |ds| ensures -1.0 < ds[i] < 1.0 { DeltaIsSmall(f, Sides(book, ps), i); }
    SumsAreGains(c, book, ps, ds);
  }

  /** Two teams of any sizes: conserved exactly if the score was as expected or the teams weigh
      the same. */
  lemma TwoTeamsConserveIff(c: Tuning, f: real -> real, book: Book, ps: seq<Placement>, r: Effect)
    requires IsCurve(f) && AllKnown(book, ps) && ValidResult(ps) && NobodyTwice(ps) && |ps| == 2
    requires r == Process(c, f, book, ps).effect
    ensures AllKnown(r.book, ps) && Known(book, ps[0].team) && Known(book, ps[1].team)
    ensures MatchTotal(r.book, ps) == MatchTotal(book, ps) <==>
              ActualScore(ps[0].rank, ps[1].rank) == f(EffectiveMMR(book, ps[0].team) - EffectiveMMR(book, ps[1].team))
              || TeamWeight(c, book, ps[0].team) == TeamWeight(c, book, ps[1].team)
  {
    var s := Sides(book, ps);
    MatchMoves(c, f, book, ps, r, Deltas(f, s));
    DuelDeltas(f, s);
    DuelDelta(f, s);
    assert Known(book, ps[0].team) && Known(book, ps[1].team);
    TwoTeamsExchange(c, book, ps, Deltas(f, s), TeamWeight(c, book, ps[0].team), TeamWeight(c, book, ps[1].team));
  }

  lemma SumOfPair(xs: seq<real>)
    requires |xs| == 2
    ensures Sum(xs) == xs[0] + xs[1]
  {
    SumOfTwo(xs[0], xs[1]);
    assert xs == [xs[0], xs[1]];
  }

  lemma TwoGains(c: Tuning, book: Book, ps: seq<Placement>, ds: seq<real>)
    requires AllKnown(book, ps) && |ps| == 2 == |ds|
    ensures Known(book, ps[0].team) && Known(book, ps[1].team)
    ensures Exchange(c, book, ps, ds) == TeamGain(c, book, ps[0].team, ds[0]) + TeamGain(c, book, ps[1].team, ds[1])
  {
    SumOfPair(TeamGains(c, book, ps, ds));
  }

  lemma GainIsProduct(c: Tuning, book: Book, team: seq<nat>, d: real, w: real)
    requires Known(book, team) && w == TeamWeight(c, book, team)
    ensures TeamGain(c, book, team, d) == w * Push(d)
  {
  }

  lemma TwoTeamsExchange(c: Tuning, book: Book, ps: seq<Placement>, ds: seq<real>, a: real, b: real)
    requires AllKnown(book, ps) && |ps| == 2 == |ds| && ds[1] == -ds[0] && Known(book, ps[0].team) && Known(book, ps[1].team)
    requires a == TeamWeight(c, book, ps[0].team) && b == TeamWeight(c, book, ps[1].team)
    ensures Exchange(c, book, ps, ds) == 0.0 <==> ds[0] == 0.0 || a == b
  {
    var x, y := TeamGain(c, book, ps[0].team, ds[0]), TeamGain(c, book, ps[1].team, ds[1]);
    TwoGains(c, book, ps, ds);
    GainIsProduct(c, book, ps[0].team, ds[0], a);
    GainIsProduct(c, book, ps[1].team, ds[1], b);
    OppositePushes(a, b, ds[0], x, y);
  }

  lemma OppositePushes(a: real, b: real, d: real, x: real, y: real)
    requires x == a * Push(d) && y == b * Push(-d)
    ensures x + y == 0.0 <==> d == 0.0 || a == b
  {
    PushIsOdd(d);
    OppositesCancel(a, b, Push(d));
    PushIsZeroIff(d);
  }

  lemma PushIsOdd(d: real)
    ensures Push(-d) == -Push(d)
  {
    assert Abs(-d) == Abs(d);
  }

  lemma PushIsZeroIff(d: real)
    ensures Push(d) == 0.0 <==> d == 0.0
  {
    if d != 0.0 {
      NonZeroProduct(d, 1.0 + Abs(d));
      assert d * (1.0 + Abs(d)) == d + d * Abs(d);
    }
  }

  // ---------------------------------------------------------------------------
  // Single players
  // ---------------------------------------------------------------------------

  /** The players of a match of single players, in order. */
  ghost function Lineup(book: Book, ps: seq<Placement>): (players: seq<Player>)
    requires Solo(ps) && AllKnown(book, ps)
    ensures |players| == |ps| && forall i :: 0 <= i < |ps| ==> Known(book, ps[i].team) && players[i] == book[ps[i].team[0]]
  {
    seq(|ps|, i requires 0 <= i < |ps| => (assert Known(book, ps[i].team); book[ps[i].team[0]]))
  }

  ghost function Total(players: seq<Player>): real {
    if players == [] then 0.0 else Total(players[..|players| - 1]) + players[|players| - 1].mmr
  }

  ghost function TotalChange(c: Tuning, players: seq<Player>, ds: seq<real>): real
    requires |players| == |ds|
  {
    if ds == [] then 0.0
    else
      var n := |ds| - 1;
      TotalChange(c, players[..n], ds[..n]) + Change(c, players[n], ds[n])
  }

  lemma {:induction false} TotalMoves(c: Tuning, before: seq<Player>, after: seq<Player>, ds: seq<real>)
    requires |before| == |after| == |ds|
    requires forall i :: 0 <= i < |ds| ==> after[i].mmr == before[i].mmr + Change(c, before[i], ds[i])
    ensures Total(after) == Total(before) + TotalChange(c, before, ds)
  {
    if ds != [] {
      var n := |ds| - 1;
      TotalMoves(c, before[..n], after[..n], ds[..n]);
    }
  }

  // ---------------------------------------------------------------------------
  // Two players
  // ---------------------------------------------------------------------------

  lemma SumOfTwo(x: real, y: real)
    ensures Sum([x, y]) == x + y
  {
    assert [x, y][..1] == [x] && [x][..0] == [];
    assert Sum([x]) == x;
  }

  lemma DuelDeltas(f: real -> real, s: seq<Side>)
    requires IsCurve(f) && |s| == 2
    ensures TeamDelta(f, s, 1) == -TeamDelta(f, s, 0)
  {
    var ds := Deltas(f, s);
    DeltasSumToZero(f, s);
    SumOfTwo(ds[0], ds[1]);
    assert ds == [ds[0], ds[1]];
  }

  /** Opposite deltas cancel exactly if they are zero or scaled equally. */
  lemma OppositesCancel(a: real, b: real, d: real)
    ensures a * d + b * -d == 0.0 <==> d == 0.0 || a == b
  {
    assert a * d + b * -d == (a - b) * d;
    if d != 0.0 && a != b {
      NonZeroProduct(a - b, d);
    }
  }

  lemma NonZeroProduct(x: real, y: real)
    requires x != 0.0 && y != 0.0
    ensures x * y != 0.0
  {
  }

  /** A match of one against one conserves the total rating exactly if nothing is exchanged
      or both players have the same weight. */
  lemma DuelConservesIff(c: Tuning, f: real -> real, book: Book, a: nat, b: nat, rankA: int, rankB: int)
    requires IsCurve(f) && a in book && b in book && a != b && rankA >= 1 && rankB >= 1
    ensures var ps := [Placement([a], rankA), Placement([b], rankB)];
            AllKnown(book, ps) &&
            var after := Process(c, f, book, ps).effect.book;
            a in after && b in after &&
            (after[a].mmr + after[b].mmr == book[a].mmr + book[b].mmr <==>
              ActualScore(rankA, rankB) == f(book[a].mmr - book[b].mmr) || Weight(c, book[a]) == Weight(c, book[b]))
  {
    var ps := [Placement([a], rankA), Placement([b], rankB)];
    assert Known(book, ps[0].team) && Known(book, ps[1].team);
    DuelIsMatch(ps, a, b);
    var r := Process(c, f, book, ps).effect;
    TwoTeamsConserveIff(c, f, book, ps, r);
    DuelTotals(book, ps, a, b);
    DuelTotals(r.book, ps, a, b);
    SingleWeight(c, book, a);
    SingleWeight(c, book, b);
    SingleRating(book, a);
    SingleRating(book, b);
  }

  lemma DuelIsMatch(ps: seq<Placement>, a: nat, b: nat)
    requires |ps| == 2 && ps[0].team == [a] && ps[1].team == [b] && a != b
    ensures NobodyTwice(ps)
  {
    assert Everyone(ps, 0) == [];
    assert Everyone(ps, 1) == [a];
    assert Everyone(ps, 2) == [a, b];
  }

  lemma SingleRating(book: Book, a: nat)
    requires a in book
    ensures Known(book, [a]) && TotalMMR(book, [a]) == book[a].mmr && EffectiveMMR(book, [a]) == book[a].mmr
  {
    assert [a][..0] == [];
    assert TotalMMR(book, [a][..0]) == 0.0 && |[a]| as real == 1.0;
  }

  lemma SingleWeight(c: Tuning, book: Book, a: nat)
    requires a in book
    ensures Known(book, [a]) && TeamWeight(c, book, [a]) == Weight(c, book[a])
  {
    var ws := Weights(c, PlayersOf(book, [a]));
    assert Weighs(c, PlayersOf(book, [a])[0], ws[0]);
    assert ws == [ws[0]] && ws[..0] == [];
    assert Sum(ws[..0]) == 0.0;
  }

  lemma DuelTotals(book: Book, ps: seq<Placement>, a: nat, b: nat)
    requires AllKnown(book, ps) && |ps| == 2 && ps[0].team == [a] && ps[1].team == [b]
    ensures a in book && b in book && MatchTotal(book, ps) == book[a].mmr + book[b].mmr
  {
    assert Known(book, ps[0].team) && Known(book, ps[1].team);
    assert [a][0] == a && [b][0] == b;
    SumOfPair(TeamTotals(book, ps));
    SingleRating(book, a);
    SingleRating(book, b);
  }

  lemma DuelEffect(c: Tuning, f: real -> real, book: Book, ps: seq<Placement>, a: nat, b: nat) returns (d: real)
    requires IsCurve(f) && a in book && b in book && a != b && ValidResult(ps)
    requires |ps| == 2 && ps[0].team == [a] && ps[1].team == [b]
    ensures AllKnown(book, ps) && a in Process(c, f, book, ps).effect.book && b in Process(c, f, book, ps).effect.book
    ensures Process(c, f, book, ps).effect.book[a].mmr == book[a].mmr + Change(c, book[a], d)
    ensures Process(c, f, book, ps).effect.book[b].mmr == book[b].mmr + Change(c, book[b], -d)
    ensures d == ActualScore(ps[0].rank, ps[1].rank) - f(book[a].mmr - book[b].mmr)
  {
    assert ps[0].team[0] == a && ps[1].team[0] == b;
    SoloEffect(c, f, book, ps, 0);
    SoloEffect(c, f, book, ps, 1);
    var s := Sides(book, ps);
    SoloMMR(book, ps, 0);
    SoloMMR(book, ps, 1);
    DuelDeltas(f, s);
    DuelDelta(f, s);
    d := TeamDelta(f, s, 0);
  }

  lemma DuelDelta(f: real -> real, s: seq<Side>)
    requires |s| == 2
    ensures TeamDelta(f, s, 0) == PairDelta(f, s[0], s[1])
  {
    assert Row(f, s, 0, 1) == 0.0;
    assert (|s| - 1) as real == 1.0;
  }

  // ---------------------------------------------------------------------------
  // Any number of players
  // ---------------------------------------------------------------------------

  ghost function SignedSquares(ds: seq<real>): real {
    if ds == [] then 0.0 else SignedSquares(ds[..|ds| - 1]) + ds[|ds| - 1] * Abs(ds[|ds| - 1])
  }

  lemma ChangeSplits(c: Tuning, p: Player, d: real, w: real)
    requires -1.0 < d < 1.0 && Weight(c, p) == w
    ensures Change(c, p, d) == Gain(w, d)
  {
    var u := 1.0 + Abs(d);
    assert Upset(Abs(d)) == u;
    assert Change(c, p, d) == w * u * d;
    assert u * d == d + d * Abs(d);
    assert w * (u * d) == w * u * d;
    Distribute(w, d, d * Abs(d));
  }

  lemma Distribute(w: real, x: real, y: real)
    ensures w * (x + y) == w * x + w * y
  {
  }

  ghost predicate EqualWeights(c: Tuning, players: seq<Player>, w: real) {
    forall i {:trigger Weighs(c, players[i], w)} :: 0 <= i < |players| ==> Weighs(c, players[i], w)
  }

  lemma AddSplit(w: real, s: real, q: real, d: real, square: real, s': real, q': real, before: real, after: real)
    requires s' == s + d && q' == q + square
    requires before == w * s + w * q && after == before + (w * d + w * square)
    ensures after == w * s' + w * q'
  {
    Distribute(w, s, d);
    Distribute(w, q, square);
  }

  ghost function Gains(w: real, ds: seq<real>): real {
    if ds == [] then 0.0 else Gains(w, ds[..|ds| - 1]) + Gain(w, ds[|ds| - 1])
  }

  lemma {:induction false} ChangesAreGains(c: Tuning, players: seq<Player>, ds: seq<real>, w: real)
    requires |players| == |ds| && EqualWeights(c, players, w)
    requires forall i :: 0 <= i < |ds| ==> -1.0 < ds[i] < 1.0
    ensures TotalChange(c, players, ds) == Gains(w, ds)
  {
    if ds != [] {
      var n := |ds| - 1;
      assert Weighs(c, players[n], w);
      assert EqualWeights(c, players[..n], w) by {
        forall i | 0 <= i < n ensures Weighs(c, players[..n][i], w) {
          assert Weighs(c, players[i], w);
        }
      }
      ChangesAreGains(c, players[..n], ds[..n], w);
      ChangeSplits(c, players[n], ds[n], w);
    }
  }

  lemma {:induction false} GainsSplit(w: real, ds: seq<real>)
    ensures Gains(w, ds) == w * Sum(ds) + w * SignedSquares(ds)
  {
    if ds == [] {
      TimesZero(w, 0.0);
    } else {
      var n := |ds| - 1;
      GainsSplit(w, ds[..n]);
      AddSplit(w, Sum(ds[..n]), SignedSquares(ds[..n]), ds[n], ds[n] * Abs(ds[n]), Sum(ds), SignedSquares(ds),
               Gains(w, ds[..n]), Gains(w, ds));
    }
  }

  /** The deltas being zero-sum, only their signed squares remain. */
  lemma SoloChange(c: Tuning, f: real -> real, s: seq<Side>, players: seq<Player>, w: real, x: real)
    requires IsCurve(f) && 2 <= |s| == |players| && EqualWeights(c, players, w) && x == SignedSquares(Deltas(f, s))
    ensures TotalChange(c, players, Deltas(f, s)) == w * x
  {
    var ds := Deltas(f, s);
    forall i | 0 <= i < |ds| ensures -1.0 < ds[i] < 1.0 {
      DeltaIsSmall(f, s, i);
    }
    ChangesAreGains(c, players, ds, w);
    GainsSplit(w, ds);
    DeltasSumToZero(f, s);
    TimesZero(w, Sum(ds));
  }

  lemma TimesZero(w: real, x: real)
    requires x == 0.0
    ensures w * x == 0.0
  {
  }

  lemma SoloTotals(c: Tuning, f: real -> real, book: Book, ps: seq<Placement>, after: Book)
    requires AllKnown(book, ps) && ValidResult(ps) && DistinctSolo(ps) && after == Process(c, f, book, ps).effect.book
    ensures AllKnown(after, ps)
    ensures Total(Lineup(after, ps)) == Total(Lineup(book, ps)) + TotalChange(c, Lineup(book, ps), Deltas(f, Sides(book, ps)))
  {
    var ds := Deltas(f, Sides(book, ps));
    forall i | 0 <= i < |ps|
      ensures Known(after, ps[i].team)
      ensures after[ps[i].team[0]].mmr == Lineup(book, ps)[i].mmr + Change(c, Lineup(book, ps)[i], ds[i])
    {
      SoloEffect(c, f, book, ps, i);
    }
    TotalMoves(c, Lineup(book, ps), Lineup(after, ps), ds);
  }

  /** Among any number of single players of equal weight, the total rating moves by exactly
      that weight times the signed squares of the deltas. */
  lemma MatchInjects(c: Tuning, f: real -> real, book: Book, ps: seq<Placement>, w: real, after: Book, x: real)
    requires IsCurve(f) && AllKnown(book, ps) && ValidResult(ps) && DistinctSolo(ps)
    requires EqualWeights(c, Lineup(book, ps), w) && after == Process(c, f, book, ps).effect.book
    requires x == SignedSquares(Deltas(f, Sides(book, ps)))
    ensures AllKnown(after, ps)
    ensures Total(Lineup(after, ps)) == Total(Lineup(book, ps)) + w * x
  {
    SoloTotals(c, f, book, ps, after);
    SoloChange(c, f, Sides(book, ps), Lineup(book, ps), w, x);
  }

  // ---------------------------------------------------------------------------
  // One winner among equals
  // ---------------------------------------------------------------------------

  /** The first of `n` equally rated players wins, the others share the second place. */
  function OneWinner(mmr: real, n: nat): (s: seq<Side>)
    ensures |s| == n && forall i :: 0 <= i < n ==> s[i] == Side(mmr, if i == 0 then 1 else 2)
  {
    seq(n, i => Side(mmr, if i == 0 then 1 else 2))
  }

  lemma EvenOdds(f: real -> real)
    requires IsCurve(f)
    ensures f(0.0) == 0.5
  {
    assert -0.0 == 0.0;
    assert f(0.0) + f(-0.0) == 1.0;
  }

  lemma {:induction false} WinnerRow(f: real -> real, mmr: real, n: nat, m: nat)
    requires f(0.0) == 0.5 && 0 < m <= n
    ensures Row(f, OneWinner(mmr, n), 0, m) == (m - 1) as real / 2.0
  {
    if m > 1 {
      WinnerRow(f, mmr, n, m - 1);
      assert mmr - mmr == 0.0;
    }
  }

  lemma {:induction false} LoserRow(f: real -> real, mmr: real, n: nat, i: nat, m: nat)
    requires f(0.0) == 0.5 && 0 < i < n && 0 < m <= n
    ensures Row(f, OneWinner(mmr, n), i, m) == -0.5
  {
    if m > 1 {
      LoserRow(f, mmr, n, i, m - 1);
    }
    assert mmr - mmr == 0.0;
    assert Row(f, OneWinner(mmr, n), i, 0) == 0.0;
  }

  lemma HalfOf(k: nat)
    requires k > 0
    ensures (k as real / 2.0) / k as real == 0.5
  {
    var x := k as real;
    assert x / 2.0 == 0.5 * x;
    assert (0.5 * x) / x == 0.5;
  }

  lemma OneWinnerDeltas(f: real -> real, mmr: real, n: nat)
    requires IsCurve(f) && 2 <= n
    ensures var ds := Deltas(f, OneWinner(mmr, n));
            ds[0] == 0.5 && forall i :: 0 < i < n ==> ds[i] == -0.5 / (n - 1) as real
  {
    EvenOdds(f);
    WinnerRow(f, mmr, n, n);
    HalfOf(n - 1);
    forall i | 0 < i < n ensures TeamDelta(f, OneWinner(mmr, n), i) == -0.5 / (n - 1) as real {
      LoserRow(f, mmr, n, i, n);
    }
  }

  lemma {:induction false} OneWinnerSquares(ds: seq<real>, loss: real, m: nat)
    requires 0 < m <= |ds| && ds[0] == 0.5 && loss > 0.0 && forall i :: 0 < i < |ds| ==> ds[i] == -loss
    ensures SignedSquares(ds[..m]) == 0.25 - (m - 1) as real * (loss * loss)
  {
    assert ds[..m][..m - 1] == ds[..m - 1];
    if m == 1 {
      assert ds[..0] == [];
      assert SignedSquares([]) == 0.0;
    } else {
      OneWinnerSquares(ds, loss, m - 1);
      assert -loss * loss == -(loss * loss);
      Distribute(loss * loss, (m - 2) as real, 1.0);
      assert (m - 1) as real == (m - 2) as real + 1.0;
    }
  }

  lemma OneWinnerArithmetic(k: real)
    requires k > 0.0
    ensures var loss := 0.5 / k; 0.25 - k * (loss * loss) == (k - 1.0) / (4.0 * k)
  {
    var loss := 0.5 / k;
    assert k * loss == 0.5;
    assert k * (loss * loss) == 0.5 * loss;
    assert 0.5 * loss == 0.25 / k;
    assert (k - 1.0) / (4.0 * k) == 0.25 * (k / k) - 0.25 / k;
  }

  /** With one winner among `n` equals the signed squares add up to (n - 2) / (4 (n - 1)). */
  lemma OneWinnerSum(f: real -> real, mmr: real, n: nat)
    requires IsCurve(f) && 2 <= n
    ensures var x := SignedSquares(Deltas(f, OneWinner(mmr, n)));
            x == (n - 2) as real / (4.0 * (n - 1) as real) && (x == 0.0 <==> n == 2)
  {
    var ds, k := Deltas(f, OneWinner(mmr, n)), (n - 1) as real;
    OneWinnerDeltas(f, mmr, n);
    assert -0.5 / k == -(0.5 / k);
    OneWinnerSquares(ds, 0.5 / k, n);
    assert ds[..n] == ds;
    OneWinnerArithmetic(k);
    assert k - 1.0 == (n - 2) as real;
  }

  /** Equally rated single players, the first of whom wins. */
  ghost predicate FirstAmongEquals(book: Book, ps: seq<Placement>, mmr: real) {
    && Solo(ps) && AllKnown(book, ps)
    && forall i :: 0 <= i < |ps| ==> ps[i].rank == (if i == 0 then 1 else 2) && Lineup(book, ps)[i].mmr == mmr
  }

  lemma EqualSides(book: Book, ps: seq<Placement>, mmr: real)
    requires FirstAmongEquals(book, ps, mmr)
    ensures Sides(book, ps) == OneWinner(mmr, |ps|)
  {
    var s, o := Sides(book, ps), OneWinner(mmr, |ps|);
    forall i | 0 <= i < |ps| ensures s[i] == o[i] {
      SoloMMR(book, ps, i);
      assert Lineup(book, ps)[i].mmr == mmr;
    }
  }

  /** With one winner among `n` equally rated players of equal weight the total rating rises by
      that weight times (n - 2) / (4 (n - 1)): conserved exactly for two players. */
  lemma OneWinnerInjects(c: Tuning, f: real -> real, book: Book, ps: seq<Placement>, mmr: real, w: real, after: Book, x: real)
    requires IsCurve(f) && ValidResult(ps) && DistinctSolo(ps) && FirstAmongEquals(book, ps, mmr)
    requires w > 0.0 && EqualWeights(c, Lineup(book, ps), w) && after == Process(c, f, book, ps).effect.book
    requires x == (|ps| - 2) as real / (4.0 * (|ps| - 1) as real)
    ensures AllKnown(after, ps)
    ensures Total(Lineup(after, ps)) == Total(Lineup(book, ps)) + w * x
    ensures Total(Lineup(after, ps)) == Total(Lineup(book, ps)) <==> |ps| == 2
  {
    EqualsSum(f, book, ps, mmr, x);
    MatchInjects(c, f, book, ps, w, after, x);
    RisesIff(Total(Lineup(book, ps)), Total(Lineup(after, ps)), w, x);
  }

  lemma EqualsSum(f: real -> real, book: Book, ps: seq<Placement>, mmr: real, x: real)
    requires IsCurve(f) && 2 <= |ps| && FirstAmongEquals(book, ps, mmr) && x == (|ps| - 2) as real / (4.0 * (|ps| - 1) as real)
    ensures SignedSquares(Deltas(f, Sides(book, ps))) == x && (x == 0.0 <==> |ps| == 2)
  {
    EqualSides(book, ps, mmr);
    OneWinnerSum(f, mmr, |ps|);
  }

  lemma RisesIff(before: real, after: real, w: real, x: real)
    requires w > 0.0 && after == before + w * x
    ensures after == before <==> x == 0.0
  {
    if x != 0.0 { NonZeroProduct(w, x); }
  }

  const THREE_NEW: Book := map[1 := NEW_PLAYER, 2 := NEW_PLAYER, 3 := NEW_PLAYER]
  const FIRST_WINS: seq<Placement> := [Placement([1], 1), Placement([2], 2), Placement([3], 2)]

  lemma ThreeNewFacts()
    ensures AllKnown(THREE_NEW, FIRST_WINS) && ValidResult(FIRST_WINS) && DistinctSolo(FIRST_WINS)
    ensures EqualWeights(DEFAULT, Lineup(THREE_NEW, FIRST_WINS), 48.0)
  {
    assert Weighs(DEFAULT, NEW_PLAYER, 48.0);
  }

  lemma ThreeNewSides()
    requires AllKnown(THREE_NEW, FIRST_WINS) && Solo(FIRST_WINS)
    ensures Sides(THREE_NEW, FIRST_WINS) == OneWinner(1500.0, 3)
  {
    forall i | 0 <= i < 3 ensures Sides(THREE_NEW, FIRST_WINS)[i] == OneWinner(1500.0, 3)[i] {
      SoloMMR(THREE_NEW, FIRST_WINS, i);
    }
  }

  /** The claim that a match conserves the total rating fails for three new players with one
      winner: their ratings rise by six. */
  lemma ThreeNewPlayersGainSix(f: real -> real, after: Book)
    requires IsCurve(f) && AllKnown(THREE_NEW, FIRST_WINS)
    requires Process(DEFAULT, f, THREE_NEW, FIRST_WINS).Processed?
             && after == Process(DEFAULT, f, THREE_NEW, FIRST_WINS).effect.book
    ensures Solo(FIRST_WINS) && AllKnown(after, FIRST_WINS)
    ensures Total(Lineup(after, FIRST_WINS)) == Total(Lineup(THREE_NEW, FIRST_WINS)) + 6.0
  {
    ThreeNewFacts();
    ThreeNewSides();
    OneWinnerSum(f, 1500.0, 3);
    MatchInjects(DEFAULT, f, THREE_NEW, FIRST_WINS, 48.0, after, 0.125);
  }
}
